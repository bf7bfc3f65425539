/**
  What a song page reads out of a score and changes in it: the key, meter and
  tempo headers, the key picker, the tempo control, and the edit that applies
  both.
*/
module ScoreHeaders {
  import opened Prelude
  import opened GoArith
  import opened GoText
  import opened GoNumbers
  import opened AbcKeys
  import opened AbcIntervals
  import opened AbcTokens
  import opened AbcMoves
  import opened AbcInvariants
  import opened AbcRescan
  import opened AbcLines
  import opened AbcReading
  import opened AbcGuards
  import opened AbcRefusals
  import opened KeyLabels

  /** What a score's headers say; empty where they say nothing. */
  datatype ScoreMeta = ScoreMeta(key: string, meter: string, tempo: string)

  datatype Header = KeyHeader | MeterHeader | TempoHeader

  // ---------- Reading headers ----------

  function AfterEquals(s: string): string {
    var i := IndexOf(s, '=');
    if i < 0 then "" else s[i + 1..]
  }

  /** What a line says for a header: nothing, when it is another kind of line. */
  function HeaderValue(h: Header, line: string): string {
    var t := TrimSpace(line);
    match h
    case KeyHeader => if "K:" <= t then TrimSpace(t[2..]) else ""
    case MeterHeader => if "M:" <= t then TrimSpace(t[2..]) else ""
    case TempoHeader => if "Q:" <= t then TrimSpace(AfterEquals(t)) else ""
  }

  /** The first line that says something wins. */
  function First(h: Header, lines: seq<string>): string {
    if lines == [] then ""
    else if HeaderValue(h, lines[0]) != "" then HeaderValue(h, lines[0])
    else First(h, lines[1..])
  }

  function ScoreMetaOf(abc: string): ScoreMeta {
    var lines := Split(abc, '\n');
    ScoreMeta(First(KeyHeader, lines), First(MeterHeader, lines), First(TempoHeader, lines))
  }

  function FirstHeader(had: string, v: string): string {
    if had == "" then TrimSpace(v) else had
  }

  lemma FirstSkips(h: Header, lines: seq<string>, i: nat)
    requires i < |lines|
    ensures First(h, lines[i..]) == if HeaderValue(h, lines[i]) != "" then HeaderValue(h, lines[i]) else First(h, lines[i + 1..])
  {
    assert lines[i..][1..] == lines[i + 1..];
  }

  function Else(had: string, v: string): string {
    if had != "" then had else v
  }

  method ReadScoreMeta(abc: string) returns (m: ScoreMeta)
    ensures m == ScoreMetaOf(abc)
  {
    m := ScoreMeta("", "", "");
    var lines := Split(abc, '\n');
    assert lines[0..] == lines;
    for i := 0 to |lines|
      invariant First(KeyHeader, lines) == Else(m.key, First(KeyHeader, lines[i..]))
      invariant First(MeterHeader, lines) == Else(m.meter, First(MeterHeader, lines[i..]))
      invariant First(TempoHeader, lines) == Else(m.tempo, First(TempoHeader, lines[i..]))
    {
      FirstSkips(KeyHeader, lines, i);
      FirstSkips(MeterHeader, lines, i);
      FirstSkips(TempoHeader, lines, i);
      var line := TrimSpace(lines[i]);
      if "K:" <= line {
        m := m.(key := FirstHeader(m.key, line[2..]));
      } else if "M:" <= line {
        m := m.(meter := FirstHeader(m.meter, line[2..]));
      } else if "Q:" <= line {
        m := m.(tempo := FirstHeader(m.tempo, AfterEquals(line)));
      }
    }
    assert lines[|lines|..] == [];
  }

  /** The tempo as a number, zero when it is not one. */
  function BPM(m: ScoreMeta): int {
    match Atoi(m.tempo)
    case Some(n) => n
    case None => 0
  }

  function Mark(h: Header): string {
    match h
    case KeyHeader => "K:"
    case MeterHeader => "M:"
    case TempoHeader => "Q:"
  }

  /** A header line that gives a value, a tempo after its beat. */
  ghost predicate Gives(h: Header, line: string, v: string) {
    if h.TempoHeader? then exists beat: string :: '=' !in beat && line == Mark(h) + beat + ['='] + v
    else line == Mark(h) + v
  }

  lemma ValueAfterEquals(line: string, head: string, v: string)
    requires line == head + ['='] + v && '=' !in head
    ensures AfterEquals(line) == v
  {
    var i := |head|;
    assert line[i] == '=' && forall j :: 0 <= j < i ==> line[j] == head[j];
    assert IndexOf(line, '=') == i;
  }

  lemma LineIsTrimmed(mark: string, line: string, v: string)
    requires mark != "" && !IsSpace(mark[0]) && mark <= line
    requires v != "" && TrimSpace(v) == v && |v| <= |line| && v == line[|line| - |v|..]
    ensures TrimSpace(line) == line
  {
    TrimmedEnds(v);
    TrimNothing(line);
  }

  lemma GivenIsRead(h: Header, line: string, v: string)
    requires Gives(h, line, v) && TrimSpace(v) == v != ""
    ensures HeaderValue(h, line) == v
  {
    LineIsTrimmed(Mark(h), line, v);
    if h.TempoHeader? {
      var beat: string :| '=' !in beat && line == Mark(h) + beat + ['='] + v;
      ValueAfterEquals(line, Mark(h) + beat, v);
    } else {
      assert line[2..] == v;
    }
  }

  /** The first header line of a kind says what the score page shows, whatever comes after it. */
  lemma {:induction false} FirstHeaderWins(h: Header, lines: seq<string>, i: nat, v: string)
    requires i < |lines| && Gives(h, lines[i], v) && TrimSpace(v) == v != ""
    requires forall j :: 0 <= j < i ==> !(Mark(h) <= TrimSpace(lines[j]))
    ensures First(h, lines) == v
  {
    if i == 0 {
      GivenIsRead(h, lines[0], v);
    } else {
      assert !(Mark(h) <= TrimSpace(lines[0]));
      FirstHeaderWins(h, lines[1..], i - 1, v);
    }
  }

  // ---------- Headers under transposition ----------

  /** A moved line of music does not start like a header. */
  lemma {:induction false} MovedIsNoHeader(st: State, toks: seq<Token>)
    requires MoveTokens(st, toks).Ok? && MusicTokens(toks)
    requires forall i :: 0 <= i < |toks| ==> Opened(toks[i])
    ensures var u := TrimLeft(ShowAll(MoveTokens(st, toks).value.1));
      u != "" && (IsField(u) ==> IsUpperNote(u[0]) || IsLowerNote(u[0]))
    decreases |toks|
  {
    var t, us := toks[0], MoveTokens(st, toks).value.1;
    var s, rest := ShowAll(us), ShowAll(us[1..]);
    MovedTail(st, toks);
    MovedHead(st, t);
    if t.Plain? && IsSpace(t.c) {
      assert forall i :: 0 <= i < |toks[1..]| ==> toks[1..][i] == toks[i + 1];
      MovedIsNoHeader(MoveToken(st, t).value.0, toks[1..]);
      assert s[1..] == rest;
    } else {
      assert TrimLeft(s) == s;
      TwoHeads(st, toks);
      assert |s| > |Show(us[0])| ==> s[|Show(us[0])|] == rest[0];
      if t.Note? {
        NoteHead(us[0]);
      }
    }
  }

  lemma NoteHead(u: Token)
    requires u.Note?
    ensures Show(u) != "" && (IsFieldLetter(Show(u)[0]) ==> IsUpperNote(Show(u)[0]) || IsLowerNote(Show(u)[0]))
  {
    PitchTextShape(u.letter, u.octave);
  }

  predicate IsHeaderLine(line: string) {
    var t := TrimSpace(line);
    "K:" <= t || "M:" <= t || "Q:" <= t
  }

  lemma HeaderByFirstCharacters(line: string)
    requires IsHeaderLine(line)
    ensures var u := TrimLeft(line); IsField(u) && !IsUpperNote(u[0]) && !IsLowerNote(u[0])
  {
    TrimmedHeads(line);
  }

  lemma MovedMusicIsNoHeader(st: State, line: string)
    requires KindOf(true, line) == Music && MoveTokens(st, Lex(line)).Ok?
    ensures !IsHeaderLine(ShowAll(MoveTokens(st, Lex(line)).value.1))
  {
    KindByFirstCharacters(line);
    MusicTextScans(line);
    ScannedAreOpened(line);
    MovedIsNoHeader(st, Lex(line));
    var out := ShowAll(MoveTokens(st, Lex(line)).value.1);
    if IsHeaderLine(out) {
      HeaderByFirstCharacters(out);
    }
  }

  lemma MusicIsNoHeader(line: string)
    requires KindOf(true, line) == Music
    ensures !IsHeaderLine(line)
  {
  }

  lemma KeyIsNotBlank(st: State, value: string, semitones: int)
    requires SetKey(st, value, semitones).Ok?
    ensures TrimSpace(value) != ""
  {
  }

  lemma KeyLineMoves(st: State, line: string, semitones: int)
    requires StateOk(st) && MoveLine(st, line, semitones).Ok? && KindOf(st.keyed, line).KeyLine?
    ensures var (st', out) := MoveLine(st, line, semitones).value;
      var value := KindOf(st.keyed, line).value;
      && TrimSpace(out) == out && "K:" <= out && SetKey(st, value, semitones) == Ok((st', out[2..]))
      && TrimSpace(value) != ""
  {
    var value := KindOf(st.keyed, line).value;
    SetKeyReadsBack(st, value, semitones);
    KeyIsNotBlank(st, value, semitones);
    var k := SetKey(st, value, semitones).value.1;
    assert ("K:" + k)[2..] == k;
  }

  /** Meter and tempo lines are copied, and nothing else turns into one. */
  lemma HeadersMove(st: State, line: string, semitones: int)
    requires StateOk(st) && MoveLine(st, line, semitones).Ok?
    ensures var out := MoveLine(st, line, semitones).value.1;
      && HeaderValue(MeterHeader, out) == HeaderValue(MeterHeader, line)
      && HeaderValue(TempoHeader, out) == HeaderValue(TempoHeader, line)
      && ("Q:" <= TrimSpace(out) <==> "Q:" <= TrimSpace(line))
      && ("K:" <= TrimSpace(out) <==> "K:" <= TrimSpace(line))
  {
    match KindOf(st.keyed, line) {
      case KeyLine(value) => KeyLineMoves(st, line, semitones);
      case Copied =>
      case Music =>
        MusicIsNoHeader(line);
        MovedMusicIsNoHeader(ResetBar(st), line);
    }
  }

  lemma {:induction false} OtherHeadersStay(h: Header, st: State, lines: seq<string>, semitones: int)
    requires StateOk(st) && MoveLines(st, lines, semitones).Ok? && !h.KeyHeader?
    ensures First(h, MoveLines(st, lines, semitones).value.1) == First(h, lines)
    decreases |lines|
  {
    if lines != [] {
      HeadersMove(st, lines[0], semitones);
      LineKeepsState(st, lines[0], semitones);
      var (st1, out) := MoveLine(st, lines[0], semitones).value;
      OtherHeadersStay(h, st1, lines[1..], semitones);
      var outs := MoveLines(st1, lines[1..], semitones).value.1;
      assert ([out] + outs)[1..] == outs;
    }
  }

  /** A header key with nothing after it moves to a key with nothing after it. */
  lemma BareKeyMoves(st: State, value: string, semitones: int)
    requires StateOk(st) && !st.keyed && SetKey(st, value, semitones).Ok?
    requires KeySignature(TrimSpace(value)).Some?
    ensures var text := SetKey(st, value, semitones).value.1;
      TransposeKey(TrimSpace(value), semitones) == Ok(text) && TrimSpace(text) == text != ""
  {
    var name := TrimSpace(value);
    NamesAreOneWord(name);
    TrimmedEnds(value);
    ParsedKeyIsAccepted(name);
    TargetDelta(ParseKey(name).value, semitones);
    KeyTextReadsBack(TargetOf(ParseKey(name).value, semitones), "");
    KeyNameIsAscii(TargetOf(ParseKey(name).value, semitones));
  }

  lemma NamesAreOneWord(name: string)
    requires KeySignature(name).Some?
    ensures CutAtSpace(name) == (name, "")
  {
    AcceptedNameShape(name);
    assert ' ' !in name;
  }

  lemma {:induction false} FirstKeyMoves(st: State, lines: seq<string>, semitones: int)
    requires StateOk(st) && !st.keyed && MoveLines(st, lines, semitones).Ok?
    requires KeySignature(First(KeyHeader, lines)).Some?
    ensures var outs := MoveLines(st, lines, semitones).value.1;
      TransposeKey(First(KeyHeader, lines), semitones) == Ok(First(KeyHeader, outs))
    decreases |lines|
  {
    HeadersMove(st, lines[0], semitones);
    LineKeepsState(st, lines[0], semitones);
    var (st1, out) := MoveLine(st, lines[0], semitones).value;
    var outs := MoveLines(st1, lines[1..], semitones).value.1;
    assert ([out] + outs)[1..] == outs;
    match KindOf(st.keyed, lines[0]) {
      case KeyLine(value) =>
        KeyLineMoves(st, lines[0], semitones);
        BareKeyMoves(st, value, semitones);
      case Copied => FirstKeyMoves(st1, lines[1..], semitones);
    }
  }

  /** The key picker is offered when the score's key is one the transposer can move. */
  predicate KeyOffered(m: ScoreMeta) {
    TransposeKey(m.key, 1).Ok?
  }

  /** The key a picker entry names. */
  function KeyNamed(m: ScoreMeta, shift: int): string {
    if shift == 0 then m.key
    else
      match TransposeKey(m.key, shift)
      case Ok(name) => name
      case Err(_) => ""
  }

  /** The picker is offered exactly for a key in the table of thirty. */
  lemma OfferedExactly(m: ScoreMeta)
    requires TrimSpace(m.key) == m.key
    ensures KeyOffered(m) <==> KeySignature(m.key).Some?
  {
  }

  lemma {:induction false} FirstIsTrimmed(h: Header, lines: seq<string>)
    ensures TrimSpace(First(h, lines)) == First(h, lines)
  {
    if lines != [] {
      var t := TrimSpace(lines[0]);
      if |t| >= 2 {
        TrimmedEnds(t[2..]);
      }
      TrimmedEnds(AfterEquals(t));
      FirstIsTrimmed(h, lines[1..]);
    }
  }

  /**
    The picker tells the truth: when it is offered, and the score transposes, the
    new score's key is the one the entry names, and meter and tempo are unchanged.
  */
  lemma PickerTellsTheTruth(abc: string, shift: int)
    requires KeyOffered(ScoreMetaOf(abc)) && Transpose(abc, shift).Ok?
    ensures var m := ScoreMetaOf(abc);
      ScoreMetaOf(Transpose(abc, shift).value) == ScoreMeta(KeyNamed(m, shift), m.meter, m.tempo)
  {
    if shift != 0 {
      var lines := Split(abc, '\n');
      RewrittenScoreSplits(abc, shift);
      OtherHeadersStay(MeterHeader, START, lines, shift);
      OtherHeadersStay(TempoHeader, START, lines, shift);
      FirstIsTrimmed(KeyHeader, lines);
      OfferedExactly(ScoreMetaOf(abc));
      FirstKeyMoves(START, lines, shift);
    }
  }

  /** Offered or not, transposing leaves meter and tempo alone. */
  lemma TransposeKeepsMeterAndTempo(abc: string, shift: int)
    requires Transpose(abc, shift).Ok?
    ensures var m, moved := ScoreMetaOf(abc), ScoreMetaOf(Transpose(abc, shift).value);
      moved.meter == m.meter && moved.tempo == m.tempo
  {
    if shift != 0 {
      RewrittenScoreSplits(abc, shift);
      OtherHeadersStay(MeterHeader, START, Split(abc, '\n'), shift);
      OtherHeadersStay(TempoHeader, START, Split(abc, '\n'), shift);
    }
  }

  // ---------- The key picker ----------

  const MAX_KEY_SHIFT := 6

  datatype KeyOption = KeyOption(shift: int, text: string)

  function OptionFor(m: ScoreMeta, shift: int): KeyOption {
    KeyOption(shift, Label(KeyNamed(m, shift), shift))
  }

  /** The first values of a choice, from the highest shift down. */
  function Downward<T>(choice: int -> T, n: nat): seq<T> {
    if n == 0 then [] else Downward(choice, n - 1) + [choice(MAX_KEY_SHIFT - (n - 1))]
  }

  lemma {:induction false} DownwardAt<T>(choice: int -> T, n: nat)
    ensures |Downward(choice, n)| == n
    ensures forall i :: 0 <= i < n ==> Downward(choice, n)[i] == choice(6 - i)
  {
    if n > 0 {
      DownwardAt(choice, n - 1);
    }
  }

  lemma ListedAt<T>(choice: int -> T, opts: seq<T>)
    requires opts == Downward(choice, |opts|)
    ensures forall i :: 0 <= i < |opts| ==> opts[i] == choice(6 - i)
  {
    DownwardAt(choice, |opts|);
  }

  /** What the picker offers for each shift: the key it lands in, and how far that is, in words. */
  function Choices(m: ScoreMeta): int -> KeyOption {
    shift => OptionFor(m, shift)
  }

  /** Thirteen choices, highest first and each with its label, when the key can be moved at all. */
  method KeyOptions(m: ScoreMeta) returns (opts: seq<KeyOption>)
    ensures |opts| == if KeyOffered(m) then 13 else 0
    ensures forall i :: 0 <= i < |opts| ==> opts[i] == Choices(m)(6 - i)
  {
    if KeyOffered(m) {
      opts := ListOptions(m);
      ListedAt(Choices(m), opts);
    } else {
      opts := [];
    }
  }

  method ListOptions(m: ScoreMeta) returns (opts: seq<KeyOption>)
    ensures |opts| == 2 * MAX_KEY_SHIFT + 1 && opts == Downward(Choices(m), |opts|)
  {
    opts := [];
    var n := MAX_KEY_SHIFT;
    while n >= -MAX_KEY_SHIFT
      invariant -MAX_KEY_SHIFT - 1 <= n <= MAX_KEY_SHIFT
      invariant |opts| == MAX_KEY_SHIFT - n && opts == Downward(Choices(m), |opts|)
    {
      var option := ReadOption(m, n);
      opts := opts + [option];
      n := n - 1;
    }
  }

  method ReadOption(m: ScoreMeta, shift: int) returns (option: KeyOption)
    ensures option == OptionFor(m, shift)
  {
    var name := m.key;
    if shift != 0 {
      var moved := TransposeKey(m.key, shift);
      name := if moved.Ok? then moved.value else "";
    }
    return KeyOption(shift, Label(name, shift));
  }

  lemma NamedKeyIsAscii(m: ScoreMeta, shift: int)
    requires KeySignature(m.key).Some? && TrimSpace(m.key) == m.key
    ensures Ascii(KeyNamed(m, shift))
  {
    ParsedKeyIsAccepted(m.key);
    var from := ParseKey(m.key).value;
    KeyNamesAreAscii(from);
    KeyNamesAreAscii(TargetOf(from, shift));
  }

  /** No two choices of the picker read alike, and a label names the key the choice lands in. */
  lemma PickerLabelsDiffer(m: ScoreMeta, shift: int, other: int, name: string)
    requires KeySignature(m.key).Some? && TrimSpace(m.key) == m.key && Ascii(name)
    requires -6 <= shift <= 6 && -6 <= other <= 6
    ensures Choices(m)(shift).shift == shift
    ensures Choices(m)(shift).text == Label(name, other) <==> name == KeyNamed(m, shift) && other == shift
  {
    NamedKeyIsAscii(m, shift);
    if Label(KeyNamed(m, shift), shift) == Label(name, other) {
      LabelsAreOneToOne(KeyNamed(m, shift), shift, name, other);
    }
  }

  /** How far to move from one place on the circle of fifths to another: at most six semitones. */
  function ShiftTo(n: int, target: int): int {
    WrapAlt(7 * (target - n))
  }

  lemma ShiftReaches(n: int, target: int)
    requires -6 <= target <= 5
    ensures TargetFifths(n, ShiftTo(n, target)) == target
  {
    var s := ShiftTo(n, target);
    var q := WrapTurns(7 * (target - n));
    assert 7 * (target - n) == s + 12 * q;
    assert n + 7 * s == target + 12 * (4 * (target - n) - 7 * q);
    WrapIs(n + 7 * s, target, 4 * (target - n) - 7 * q);
  }

  /** Six semitones either way reach every key of the same mode that the transposer writes. */
  lemma PickerReachesEveryKey(m: ScoreMeta, to: Key)
    requires KeySignature(m.key).Some? && TrimSpace(m.key) == m.key
    requires ParseKey(m.key).value.minor == to.minor && -6 <= KeyFifths(to) <= 5
    ensures exists shift :: -6 <= shift < 6 && TransposeKey(m.key, shift) == Ok(KeyName(to))
  {
    var from := ParseKey(m.key).value;
    var shift := ShiftTo(KeyFifths(from), KeyFifths(to));
    ShiftReaches(KeyFifths(from), KeyFifths(to));
    KeyIsAtItsFifths(to);
    assert TargetOf(from, shift) == to;
    assert TransposeKey(m.key, shift) == Ok(KeyName(to));
  }

  // ---------- The tempo control ----------

  predicate IsTempoLine(line: string) {
    "Q:" <= TrimSpace(line)
  }

  function TempoText(bpm: int): string {
    "Q:1/4=" + Itoa(bpm)
  }

  /** The lines with the first tempo line replaced; none if there is none. */
  function ReplaceTempo(lines: seq<string>, text: string): Option<seq<string>> {
    if lines == [] then None
    else if IsTempoLine(lines[0]) then Some([text] + lines[1..])
    else
      match ReplaceTempo(lines[1..], text)
      case Some(rest) => Some([lines[0]] + rest)
      case None => None
  }

  lemma {:induction false} ReplacedIsNonempty(lines: seq<string>, text: string)
    ensures ReplaceTempo(lines, text).Some? ==> |ReplaceTempo(lines, text).value| == |lines| > 0
  {
    if lines != [] {
      ReplacedIsNonempty(lines[1..], text);
    }
  }

  function RewriteTempo(abc: string, bpm: int): Option<string> {
    var lines := Split(abc, '\n');
    ReplacedIsNonempty(lines, TempoText(bpm));
    match ReplaceTempo(lines, TempoText(bpm))
    case Some(replaced) => Some(Join(replaced, '\n'))
    case None => None
  }

  lemma {:induction false} ReplacedAt(lines: seq<string>, i: nat, text: string)
    requires i < |lines| && IsTempoLine(lines[i]) && forall j :: 0 <= j < i ==> !IsTempoLine(lines[j])
    ensures ReplaceTempo(lines, text) == Some(lines[i := text])
  {
    if i > 0 {
      ReplacedAt(lines[1..], i - 1, text);
      assert [lines[0]] + lines[1..][i - 1 := text] == lines[i := text];
    } else {
      assert [text] + lines[1..] == lines[0 := text];
    }
  }

  lemma {:induction false} NothingReplaced(lines: seq<string>, text: string)
    requires forall j :: 0 <= j < |lines| ==> !IsTempoLine(lines[j])
    ensures ReplaceTempo(lines, text) == None
  {
    if lines != [] {
      NothingReplaced(lines[1..], text);
    }
  }

  /** Replaces the first tempo line in place and says whether there was one. */
  method SetTempo(abc: string, bpm: int) returns (score: string, ok: bool)
    ensures ok <==> RewriteTempo(abc, bpm).Some?
    ensures score == if ok then RewriteTempo(abc, bpm).value else abc
  {
    var parts := Split(abc, '\n');
    var lines := new string[|parts|](i requires 0 <= i < |parts| => parts[i]);
    assert lines[..] == parts;
    for i := 0 to lines.Length
      invariant lines[..] == parts
      invariant forall j :: 0 <= j < i ==> !IsTempoLine(parts[j])
    {
      if "Q:" <= TrimSpace(lines[i]) {
        ReplacedAt(parts, i, TempoText(bpm));
        lines[i] := TempoText(bpm);
        assert lines[..] == parts[i := TempoText(bpm)];
        return Join(lines[..], '\n'), true;
      }
    }
    NothingReplaced(parts, TempoText(bpm));
    return abc, false;
  }

  lemma TempoTextIsATempo(bpm: int)
    ensures var text := TempoText(bpm);
      && TrimSpace(text) == text && '\n' !in text && IsTempoLine(text)
      && HeaderValue(TempoHeader, text) == Itoa(bpm) != ""
      && HeaderValue(KeyHeader, text) == "" == HeaderValue(MeterHeader, text)
  {
    var text := TempoText(bpm);
    ItoaCharacters(bpm);
    assert forall i :: 6 <= i < |text| ==> text[i] == Itoa(bpm)[i - 6];
    TrimNothing(text);
    TrimNothing(Itoa(bpm));
    assert text[5] == '=';
    assert IndexOf(text, '=') == 5;
    assert text[6..] == Itoa(bpm);
  }

  lemma {:induction false} ReplacedIsFree(lines: seq<string>, text: string)
    requires Free(lines, '\n') && '\n' !in text && ReplaceTempo(lines, text).Some?
    ensures Free(ReplaceTempo(lines, text).value, '\n')
  {
    if !IsTempoLine(lines[0]) {
      ReplacedIsFree(lines[1..], text);
    }
  }

  lemma RewrittenTempoSplits(abc: string, bpm: int)
    requires RewriteTempo(abc, bpm).Some?
    ensures ReplaceTempo(Split(abc, '\n'), TempoText(bpm)) == Some(Split(RewriteTempo(abc, bpm).value, '\n'))
  {
    var lines := Split(abc, '\n');
    TempoTextIsATempo(bpm);
    SplitIsFree(abc, '\n');
    ReplacedIsFree(lines, TempoText(bpm));
    ReplacedIsNonempty(lines, TempoText(bpm));
    SplitJoin(ReplaceTempo(lines, TempoText(bpm)).value, '\n');
  }

  lemma {:induction false} ReplacedHeaders(lines: seq<string>, bpm: int)
    requires ReplaceTempo(lines, TempoText(bpm)).Some?
    ensures var replaced := ReplaceTempo(lines, TempoText(bpm)).value;
      && First(TempoHeader, replaced) == Itoa(bpm)
      && First(KeyHeader, replaced) == First(KeyHeader, lines)
      && First(MeterHeader, replaced) == First(MeterHeader, lines)
  {
    TempoTextIsATempo(bpm);
    if !IsTempoLine(lines[0]) {
      ReplacedHeaders(lines[1..], bpm);
    }
  }

  /** The first tempo line is written anew, and every other line is as it was. */
  lemma TempoChangesOneLine(abc: string, bpm: int, i: nat)
    requires i < |Split(abc, '\n')| && "Q:" <= TrimSpace(Split(abc, '\n')[i])
    requires forall j :: 0 <= j < i ==> !("Q:" <= TrimSpace(Split(abc, '\n')[j]))
    ensures RewriteTempo(abc, bpm).Some?
    ensures Split(RewriteTempo(abc, bpm).value, '\n') == Split(abc, '\n')[i := "Q:1/4=" + Itoa(bpm)]
  {
    ReplacedAt(Split(abc, '\n'), i, TempoText(bpm));
    RewrittenTempoSplits(abc, bpm);
  }

  /** The rewritten score reads back the tempo that was asked for, and the key and meter it had. */
  lemma TempoReadsBack(abc: string, bpm: int)
    requires RewriteTempo(abc, bpm).Some? && -MAX_INT - 1 <= bpm <= MAX_INT
    ensures var m, m' := ScoreMetaOf(abc), ScoreMetaOf(RewriteTempo(abc, bpm).value);
      BPM(m') == bpm && m'.key == m.key && m'.meter == m.meter
  {
    RewrittenTempoSplits(abc, bpm);
    ReplacedHeaders(Split(abc, '\n'), bpm);
    AtoiItoa(bpm);
  }

  /** How replacing a tempo line and moving lines go together. */
  ghost predicate MovesReplaced(r: Result<(State, seq<string>), Error>, replaced: Result<(State, seq<string>), Error>, text: string) {
    match r
    case Err(e) => replaced == Err(e)
    case Ok((st, outs)) => ReplaceTempo(outs, text).Some? && replaced == Ok((st, ReplaceTempo(outs, text).value))
  }

  lemma TempoLineIsCopied(keyed: bool, line: string)
    requires IsTempoLine(line)
    ensures KindOf(keyed, line) == Copied
  {
    var t := TrimSpace(line);
    assert t[0] == 'Q' && t[1] == ':';
  }

  lemma {:induction false} ReplaceThenMove(st: State, lines: seq<string>, text: string, semitones: int)
    requires StateOk(st) && IsTempoLine(text)
    ensures match ReplaceTempo(lines, text)
      case Some(replaced) => MovesReplaced(MoveLines(st, lines, semitones), MoveLines(st, replaced, semitones), text)
      case None =>
        MoveLines(st, lines, semitones).Ok? ==> ReplaceTempo(MoveLines(st, lines, semitones).value.1, text).None?
    decreases |lines|
  {
    if lines != [] {
      if IsTempoLine(lines[0]) {
        TempoLineIsCopied(st.keyed, lines[0]);
        TempoLineIsCopied(st.keyed, text);
        ReplacedFirstMoves(st, lines, text, semitones);
      } else if MoveLine(st, lines[0], semitones).Ok? {
        HeadersMove(st, lines[0], semitones);
        LineKeepsState(st, lines[0], semitones);
        var (st1, out) := MoveLine(st, lines[0], semitones).value;
        ReplaceThenMove(st1, lines[1..], text, semitones);
        ReplacedLaterMoves(st, lines, text, semitones);
      } else {
        ReplacedAfterRefusal(st, lines, text, semitones);
      }
    }
  }

  lemma ReplacedAfterRefusal(st: State, lines: seq<string>, text: string, semitones: int)
    requires lines != [] && !IsTempoLine(lines[0]) && MoveLine(st, lines[0], semitones).Err?
    ensures MoveLines(st, lines, semitones) == Err(MoveLine(st, lines[0], semitones).error)
    ensures match ReplaceTempo(lines, text)
      case Some(replaced) => MoveLines(st, replaced, semitones) == Err(MoveLine(st, lines[0], semitones).error)
      case None => true
  {
  }

  lemma ReplacedFirstMoves(st: State, lines: seq<string>, text: string, semitones: int)
    requires lines != [] && IsTempoLine(lines[0]) && KindOf(st.keyed, lines[0]) == Copied == KindOf(st.keyed, text)
    ensures MovesReplaced(MoveLines(st, lines, semitones), MoveLines(st, [text] + lines[1..], semitones), text)
  {
    assert ([text] + lines[1..])[1..] == lines[1..];
    if MoveLines(st, lines[1..], semitones).Ok? {
      var outs := MoveLines(st, lines[1..], semitones).value.1;
      assert ([lines[0]] + outs)[1..] == outs;
    }
  }

  lemma ReplacedLaterMoves(st: State, lines: seq<string>, text: string, semitones: int)
    requires lines != [] && !IsTempoLine(lines[0]) && MoveLine(st, lines[0], semitones).Ok?
    requires !IsTempoLine(MoveLine(st, lines[0], semitones).value.1)
    requires var st1 := MoveLine(st, lines[0], semitones).value.0;
      match ReplaceTempo(lines[1..], text)
      case Some(replaced) => MovesReplaced(MoveLines(st1, lines[1..], semitones), MoveLines(st1, replaced, semitones), text)
      case None =>
        MoveLines(st1, lines[1..], semitones).Ok? ==> ReplaceTempo(MoveLines(st1, lines[1..], semitones).value.1, text).None?
    ensures match ReplaceTempo(lines, text)
      case Some(replaced) => MovesReplaced(MoveLines(st, lines, semitones), MoveLines(st, replaced, semitones), text)
      case None =>
        MoveLines(st, lines, semitones).Ok? ==> ReplaceTempo(MoveLines(st, lines, semitones).value.1, text).None?
  {
    var (st1, out) := MoveLine(st, lines[0], semitones).value;
    if ReplaceTempo(lines[1..], text).Some? {
      var replaced := ReplaceTempo(lines[1..], text).value;
      assert ([lines[0]] + replaced)[1..] == replaced;
    }
    if MoveLines(st1, lines[1..], semitones).Ok? {
      var outs := MoveLines(st1, lines[1..], semitones).value.1;
      assert ([out] + outs)[1..] == outs;
    }
  }

  lemma TempoAppearsFromNowhere(abc: string, shift: int, bpm: int)
    requires RewriteTempo(abc, bpm).None? && Rewrite(abc, shift).Ok?
    ensures RewriteTempo(Rewrite(abc, shift).value, bpm).None?
  {
    TempoTextIsATempo(bpm);
    var lines, text := Split(abc, '\n'), TempoText(bpm);
    assert ReplaceTempo(lines, text).None?;
    ReplaceThenMove(START, lines, text, shift);
    RewrittenScoreSplits(abc, shift);
    assert ReplaceTempo(Split(Rewrite(abc, shift).value, '\n'), text).None?;
  }

  lemma TempoThenRewrite(abc: string, shift: int, bpm: int)
    requires RewriteTempo(abc, bpm).Some?
    ensures var score := RewriteTempo(abc, bpm).value;
      match Rewrite(abc, shift)
      case Err(e) => Rewrite(score, shift) == Err(e)
      case Ok(moved) => RewriteTempo(moved, bpm).Some? && Rewrite(score, shift) == Ok(RewriteTempo(moved, bpm).value)
  {
    TempoTextIsATempo(bpm);
    ReplaceThenMove(START, Split(abc, '\n'), TempoText(bpm), shift);
    RewrittenTempoSplits(abc, bpm);
    if Rewrite(abc, shift).Ok? {
      RewrittenScoreSplits(abc, shift);
    }
  }

  /**
    Changing the tempo and the key commute, refusals included: either both orders
    give the same text, or both are refused for the same reason.
  */
  lemma TempoCommutesWithTranspose(abc: string, shift: int, bpm: int)
    ensures match RewriteTempo(abc, bpm)
      case None => Transpose(abc, shift).Ok? ==> RewriteTempo(Transpose(abc, shift).value, bpm).None?
      case Some(score) =>
        match Transpose(abc, shift)
        case Err(e) => Transpose(score, shift) == Err(e)
        case Ok(moved) => RewriteTempo(moved, bpm).Some? && Transpose(score, shift) == Ok(RewriteTempo(moved, bpm).value)
  {
    if -MAX_SEMITONES <= shift <= MAX_SEMITONES && shift != 0 {
      if RewriteTempo(abc, bpm).Some? {
        TempoThenRewrite(abc, shift, bpm);
      } else if Rewrite(abc, shift).Ok? {
        TempoAppearsFromNowhere(abc, shift, bpm);
      }
    }
  }

  // ---------- The edit that applies both ----------

  const MIN_TEMPO := 20
  const MAX_TEMPO := 400

  datatype EditError = BadKey | KeyCannotMove | BadTempo | NoTempo

  /** The shift a form field asks for; blank and zero leave the key as it is. */
  function ShiftAsked(field: string): Option<int> {
    var v := TrimSpace(field);
    if v == "" || v == "0" then Some(0)
    else
      match Atoi(v)
      case Some(n) => if -MAX_KEY_SHIFT <= n <= MAX_KEY_SHIFT then Some(n) else None
      case None => None
  }

  function EditKey(abc: string, field: string): Result<string, EditError> {
    match ShiftAsked(field)
    case None => Err(BadKey)
    case Some(n) =>
      match Transpose(abc, n)
      case Ok(moved) => Ok(moved)
      case Err(_) => Err(KeyCannotMove)
  }

  function EditTempo(abc: string, field: string): Result<string, EditError> {
    var v := TrimSpace(field);
    if v == "" then Ok(abc)
    else
      match Atoi(v)
      case None => Err(BadTempo)
      case Some(n) =>
        if n < MIN_TEMPO || n > MAX_TEMPO then Err(BadTempo)
        else
          match RewriteTempo(abc, n)
          case Some(score) => Ok(score)
          case None => Err(NoTempo)
  }

  /** The stored score with the form's key and tempo applied. */
  function EditScore(abc: string, keyField: string, tempoField: string): Result<string, EditError> {
    match EditKey(abc, keyField)
    case Err(e) => Err(e)
    case Ok(moved) => EditTempo(moved, tempoField)
  }

  // ---------- When an edit is accepted ----------

  lemma {:induction false} ReplacedExactly(lines: seq<string>, text: string)
    ensures ReplaceTempo(lines, text).Some? <==> exists i :: 0 <= i < |lines| && "Q:" <= TrimSpace(lines[i])
  {
    if lines != [] && !IsTempoLine(lines[0]) {
      ReplacedExactly(lines[1..], text);
      if i :| 0 <= i < |lines| && "Q:" <= TrimSpace(lines[i]) {
        assert i > 0 && lines[1..][i - 1] == lines[i];
      }
    }
  }

  ghost predicate HasTempoLine(abc: string) {
    exists i :: 0 <= i < |Split(abc, '\n')| && "Q:" <= TrimSpace(Split(abc, '\n')[i])
  }

  lemma TempoIsReplaced(abc: string, bpm: int)
    ensures RewriteTempo(abc, bpm).Some? <==> HasTempoLine(abc)
  {
    ReplacedExactly(Split(abc, '\n'), TempoText(bpm));
  }

  /** A form's number, once trimmed, within these bounds. */
  predicate NumberWithin(field: string, low: int, high: int) {
    match Atoi(TrimSpace(field))
    case Some(n) => low <= n <= high
    case None => false
  }

  predicate Blank(field: string) {
    TrimSpace(field) == ""
  }

  /** What a form's number asks for; blank asks for nothing. */
  function NumberIn(field: string): int {
    match Atoi(TrimSpace(field))
    case Some(n) => n
    case None => 0
  }

  /** A score that can be moved this far, zero included. */
  ghost predicate CanMove(abc: string, shift: int) {
    var lines := Split(abc, '\n');
    shift == 0 || (HasKeyLine(false, lines) && NoLineRefused(START, lines, shift))
  }

  lemma KeyFieldAccepted(abc: string, field: string)
    ensures EditKey(abc, field) == Err(BadKey) <==> !Blank(field) && !NumberWithin(field, -6, 6)
    ensures EditKey(abc, field).Ok? <==>
      (Blank(field) || NumberWithin(field, -6, 6)) && CanMove(abc, NumberIn(field))
    ensures EditKey(abc, field).Ok? ==>
      Transpose(abc, NumberIn(field)).Ok? && EditKey(abc, field).value == Transpose(abc, NumberIn(field)).value
    ensures EditKey(abc, field).Err? ==> EditKey(abc, field).error in {BadKey, KeyCannotMove}
  {
    var v := TrimSpace(field);
    BlankAndZero(v);
    TransposeAcceptsExactly(abc, NumberIn(field));
  }

  lemma BlankAndZero(v: string)
    ensures v == "" ==> Atoi(v) == None
    ensures v == "0" ==> Atoi(v) == Some(0)
  {
    if v == "0" {
      assert Itoa(0) == v;
      AtoiItoa(0);
    }
  }

  lemma TempoFieldAccepted(abc: string, field: string)
    ensures EditTempo(abc, field) == Err(BadTempo) <==> !Blank(field) && !NumberWithin(field, 20, 400)
    ensures EditTempo(abc, field) == Err(NoTempo) <==> NumberWithin(field, 20, 400) && !HasTempoLine(abc)
    ensures EditTempo(abc, field).Ok? <==> Blank(field) || (NumberWithin(field, 20, 400) && HasTempoLine(abc))
  {
    BlankAndZero(TrimSpace(field));
    TempoIsReplaced(abc, NumberIn(field));
  }

  lemma MovingKeepsTempoLine(abc: string, shift: int)
    requires Transpose(abc, shift).Ok?
    ensures HasTempoLine(Transpose(abc, shift).value) <==> HasTempoLine(abc)
  {
    TempoCommutesWithTranspose(abc, shift, 0);
    TempoIsReplaced(abc, 0);
    TempoIsReplaced(Transpose(abc, shift).value, 0);
  }

  /**
    When an edit is accepted, from the form's text and the score alone: the key
    field is blank or a number from six down to six up by which the score can be
    moved, and the tempo field is blank or a number from 20 to 400 and the score has
    a tempo line. The first of these that fails is the refusal.
  */
  lemma EditIsAcceptedExactly(abc: string, keyField: string, tempoField: string)
    ensures var keyOk := Blank(keyField) || NumberWithin(keyField, -6, 6);
      var moves := CanMove(abc, NumberIn(keyField));
      var tempoOk := Blank(tempoField) || NumberWithin(tempoField, 20, 400);
      var r := EditScore(abc, keyField, tempoField);
      && (r.Ok? <==> keyOk && moves && tempoOk && (Blank(tempoField) || HasTempoLine(abc)))
      && (r == Err(BadKey) <==> !keyOk)
      && (r == Err(KeyCannotMove) <==> keyOk && !moves)
      && (r == Err(BadTempo) <==> keyOk && moves && !tempoOk)
      && (r == Err(NoTempo) <==> keyOk && moves && NumberWithin(tempoField, 20, 400) && !HasTempoLine(abc))
  {
    KeyFieldAccepted(abc, keyField);
    if EditKey(abc, keyField).Ok? {
      MovingKeepsTempoLine(abc, NumberIn(keyField));
      TempoFieldAccepted(EditKey(abc, keyField).value, tempoField);
    }
  }

  lemma ItoaIsNotSpaced(n: int)
    ensures TrimSpace(Itoa(n)) == Itoa(n)
  {
    ItoaCharacters(n);
    TrimNothing(Itoa(n));
  }

  lemma DiatonicMoves(abc: string, k: Key, shift: int)
    requires Accepted(k) && DiatonicLines(k, false, Split(abc, '\n')) && HasHeader(Split(abc, '\n')) && -6 <= shift <= 6
    ensures Transpose(abc, shift).Ok? && CanMove(abc, shift)
  {
    DiatonicIsNeverRefused(k, abc, shift);
    TransposeAcceptsExactly(abc, shift);
  }

  /** Every choice the picker lists is accepted on a score that stays in one key, and moves it by that much. */
  lemma PickerIsAccepted(abc: string, k: Key, shift: int, tempoField: string)
    requires Accepted(k) && DiatonicLines(k, false, Split(abc, '\n')) && HasHeader(Split(abc, '\n'))
    requires -6 <= shift <= 6 && Blank(tempoField)
    ensures Transpose(abc, shift).Ok? && EditScore(abc, Itoa(shift), tempoField) == Ok(Transpose(abc, shift).value)
  {
    ItoaIsNotSpaced(shift);
    AtoiItoa(shift);
    DiatonicMoves(abc, k, shift);
    KeyFieldAccepted(abc, Itoa(shift));
  }

  lemma ReplacedIsHeard(style: Style, r: Reader, lines: seq<string>, text: string)
    requires lines != [] && IsTempoLine(lines[0]) && IsTempoLine(text)
    ensures HearLines(style, r, [text] + lines[1..]) == HearLines(style, r, lines)
  {
    TempoLineIsCopied(r.keyed, lines[0]);
    TempoLineIsCopied(r.keyed, text);
    assert ([text] + lines[1..])[1..] == lines[1..];
  }

  lemma {:induction false} ReplacedHeard(style: Style, r: Reader, lines: seq<string>, text: string)
    requires IsTempoLine(text) && ReplaceTempo(lines, text).Some?
    ensures HearLines(style, r, ReplaceTempo(lines, text).value) == HearLines(style, r, lines)
    decreases |lines|
  {
    if IsTempoLine(lines[0]) {
      ReplacedIsHeard(style, r, lines, text);
    } else {
      var rest := ReplaceTempo(lines[1..], text).value;
      assert ([lines[0]] + rest)[1..] == rest;
      if HearLine(style, r, lines[0]).Some? {
        ReplacedHeard(style, HearLine(style, r, lines[0]).value.0, lines[1..], text);
      }
    }
  }

  /** Changing the tempo changes no pitch. */
  lemma TempoKeepsPitches(style: Style, abc: string, bpm: int)
    requires RewriteTempo(abc, bpm).Some?
    ensures Hear(style, RewriteTempo(abc, bpm).value) == Hear(style, abc)
  {
    TempoTextIsATempo(bpm);
    RewrittenTempoSplits(abc, bpm);
    ReplacedHeard(style, Reader(false, NO_SIG, map[]), Split(abc, '\n'), TempoText(bpm));
  }

  lemma EditedTempo(style: Style, abc: string, field: string)
    requires EditTempo(abc, field).Ok?
    ensures var m, m' := ScoreMetaOf(abc), ScoreMetaOf(EditTempo(abc, field).value);
      && m'.key == m.key && m'.meter == m.meter
      && (if TrimSpace(field) == "" then m'.tempo == m.tempo else Atoi(TrimSpace(field)) == Some(BPM(m')))
    ensures Hear(style, EditTempo(abc, field).value) == Hear(style, abc)
  {
    if TrimSpace(field) != "" {
      var n := Atoi(TrimSpace(field)).value;
      TempoReadsBack(abc, n);
      TempoKeepsPitches(style, abc, n);
    }
  }

  /**
    An edit that is accepted gives what was asked for, read back from the new
    score: the key the picker named, the tempo of the form, every pitch moved by
    the shift, and the meter it had.
  */
  lemma EditIsWhatWasAsked(style: Style, abc: string, keyField: string, tempoField: string)
    requires EditScore(abc, keyField, tempoField).Ok?
    ensures var m, m' := ScoreMetaOf(abc), ScoreMetaOf(EditScore(abc, keyField, tempoField).value);
      && m'.meter == m.meter
      && (KeyOffered(m) ==> m'.key == KeyNamed(m, ShiftAsked(keyField).value))
      && (if TrimSpace(tempoField) == "" then m'.tempo == m.tempo else Atoi(TrimSpace(tempoField)) == Some(BPM(m')))
    ensures var out, shift := EditScore(abc, keyField, tempoField).value, ShiftAsked(keyField).value;
      && (shift == 0 ==> Hear(style, out) == Hear(style, abc))
      && (shift != 0 && Followable(style, abc, shift) ==>
            var source := Hear(Style(PerOctave, style.comments), abc);
            source.Some? && Hear(style, out) == Some(Raise(source.value, shift)))
  {
    var shift := ShiftAsked(keyField).value;
    var moved := EditKey(abc, keyField).value;
    EditedTempo(style, moved, tempoField);
    TransposeKeepsMeterAndTempo(abc, shift);
    if KeyOffered(ScoreMetaOf(abc)) {
      PickerTellsTheTruth(abc, shift);
    }
    if shift != 0 && Followable(style, abc, shift) {
      TransposeMovesEveryPitch(style, abc, shift);
    }
  }
}
