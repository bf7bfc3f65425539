/**
  A reader of ABC that keeps its own signatures, bars and accidentals, and the main
  theorem: what it hears in a transposed score is what it hears in the source,
  moved. It cuts lines and tokens as the rewriter does; so it hears nothing after a
  quote, an exclamation mark or an inline field that its line never closes, which
  the rewriter copies.

  The reader follows the ABC music standard v2.1: a letter is an absolute pitch
  (section 4.1), an accidental holds to the end of the bar (section 4.2), for
  its own octave or for the letter in every octave (the two propagation rules
  of section 11.3), and K: sets the signature (section 3.1.14). As the rewriter
  does, it starts a fresh bar at a new line and at a key change.
*/
module AbcReading {
  import opened Prelude
  import opened GoArith
  import opened GoText
  import opened AbcKeys
  import opened AbcIntervals
  import opened AbcTokens
  import opened AbcMoves
  import opened AbcInvariants
  import opened AbcRescan
  import opened AbcLines

  datatype Scope = PerOctave | PerLetter

  /** How a reader carries accidentals, and whether it stops at a comment inside a line of music. */
  datatype Style = Style(scope: Scope, comments: bool)

  datatype Reader = Reader(keyed: bool, sig: Sig, bar: map<int, int>)

  function BarKey(scope: Scope, letter: Letter, octave: int): int {
    if scope == PerOctave then letter + 7 * octave else letter
  }

  /** A key it cannot read stops the reader. */
  function ReadKey(value: string): Option<Reader> {
    match ParseKey(CutAtSpace(TrimSpace(value)).0)
    case Ok(k) => Some(Reader(true, SigOf(KeyFifths(k)), map[]))
    case Err(_) => None
  }

  function HearToken(scope: Scope, r: Reader, t: Token): Option<(Reader, seq<int>)> {
    match t
    case Note(acc, letter, octave) =>
      var key := BarKey(scope, letter, octave);
      var bar := if acc.Some? then r.bar[key := acc.value] else r.bar;
      var alt := if key in bar then bar[key] else r.sig[letter];
      Some((r.(bar := bar), [Natural(letter) + 12 * octave + alt]))
    case Bar => Some((r.(bar := map[]), []))
    case Inline(text) =>
      if "K" <= text && |text| >= 2 then
        match ReadKey(text[2..])
        case Some(r') => Some((r', []))
        case None => None
      else Some((r, []))
    case _ => Some((r, []))
  }

  function HearTokens(style: Style, r: Reader, toks: seq<Token>): Option<(Reader, seq<int>)>
    decreases |toks|
  {
    if toks == [] || (style.comments && toks[0] == Plain('%')) then Some((r, []))
    else
      match HearToken(style.scope, r, toks[0])
      case None => None
      case Some((r1, ps)) =>
        match HearTokens(style, r1, toks[1..])
        case None => None
        case Some((r2, qs)) => Some((r2, ps + qs))
  }

  function HearLine(style: Style, r: Reader, line: string): Option<(Reader, seq<int>)> {
    match KindOf(r.keyed, line)
    case KeyLine(value) =>
      (match ReadKey(value)
       case Some(r') => Some((r', []))
       case None => None)
    case Copied => Some((r, []))
    case Music => HearTokens(style, r.(bar := map[]), Lex(line))
  }

  function HearLines(style: Style, r: Reader, lines: seq<string>): Option<seq<int>>
    decreases |lines|
  {
    if lines == [] then Some([])
    else
      match HearLine(style, r, lines[0])
      case None => None
      case Some((r1, ps)) =>
        match HearLines(style, r1, lines[1..])
        case None => None
        case Some(qs) => Some(ps + qs)
  }

  /** The pitches of a score in order, in semitones: middle C is 48. */
  function Hear(style: Style, score: string): Option<seq<int>> {
    HearLines(style, Reader(false, NO_SIG, map[]), Split(score, '\n'))
  }

  function Raise(ps: seq<int>, n: int): seq<int> {
    seq(|ps|, i requires 0 <= i < |ps| => ps[i] + n)
  }

  // ---------- Comments inside music ----------

  predicate NoKeyField(toks: seq<Token>) {
    forall t :: t in toks ==> !IsKeyField(t)
  }

  /**
    The rewriter reads on through a comment at the end of a line of music. A
    reader that stops there stays in step unless the comment changes the key.
  */
  predicate CommentKeepsKey(toks: seq<Token>)
    decreases |toks|
  {
    toks != [] ==> if toks[0] == Plain('%') then NoKeyField(toks) else CommentKeepsKey(toks[1..])
  }

  function BeforeComment(toks: seq<Token>): seq<Token>
    decreases |toks|
  {
    if toks == [] || toks[0] == Plain('%') then [] else [toks[0]] + BeforeComment(toks[1..])
  }

  /** The part of a line of music that a reader of this style reads. */
  function ReadPart(style: Style, toks: seq<Token>): seq<Token> {
    if style.comments then BeforeComment(toks) else toks
  }

  predicate FollowableMusic(style: Style, st: State, toks: seq<Token>) {
    NotesApart(st, ReadPart(style, toks)) && (style.comments ==> CommentKeepsKey(toks))
  }

  predicate FollowableLines(style: Style, st: State, lines: seq<string>, semitones: int)
    decreases |lines|
  {
    lines != [] ==>
      && (KindOf(st.keyed, lines[0]) == Music ==> FollowableMusic(style, ResetBar(st), Lex(lines[0])))
      && (MoveLine(st, lines[0], semitones).Ok? ==>
           FollowableLines(style, MoveLine(st, lines[0], semitones).value.0, lines[1..], semitones))
  }

  /**
    The scores a reader of this style can follow the rewriter through: in what it
    reads no note runs into its neighbours, and what it does not read changes no key.
  */
  predicate Followable(style: Style, score: string, semitones: int) {
    FollowableLines(style, START, Split(score, '\n'), semitones)
  }

  lemma {:induction false} LegibleLinesAreFollowable(style: Style, st: State, lines: seq<string>, semitones: int)
    requires !style.comments
    ensures FollowableLines(style, st, lines, semitones) <==> NotesLegibleLines(st, lines, semitones)
    decreases |lines|
  {
    if lines != [] && MoveLine(st, lines[0], semitones).Ok? {
      LegibleLinesAreFollowable(style, MoveLine(st, lines[0], semitones).value.0, lines[1..], semitones);
    }
  }

  /** A reader that reads everything follows exactly the legible scores. */
  lemma LegibleIsFollowable(style: Style, score: string, semitones: int)
    requires !style.comments
    ensures Followable(style, score, semitones) <==> NotesLegible(score, semitones)
  {
    LegibleLinesAreFollowable(style, START, Split(score, '\n'), semitones);
  }

  // ---------- Rewriter and readers in step ----------

  ghost predicate SameKey(st: State, src: Reader, dst: Reader) {
    && src.keyed == dst.keyed == st.keyed
    && (st.keyed ==> src.sig == st.srcSig && dst.sig == st.dstSig)
  }

  /**
    The source reader is where the rewriter is; the output reader has the target
    signature, and remembers accidentals only on letters the rewriter marked.
  */
  ghost predicate InStep(st: State, src: Reader, dst: Reader) {
    && src.keyed == dst.keyed == st.keyed
    && (st.keyed ==>
      && src.sig == st.srcSig && src.bar == st.srcBar
      && dst.sig == st.dstSig
      && forall k :: k in dst.bar ==> st.touched[Mod(k, 7)])
  }

  lemma BarKeyLetter(scope: Scope, letter: Letter, octave: int)
    ensures Mod(BarKey(scope, letter, octave), 7) == letter
  {
    OctavesCarry(letter, octave);
  }

  /** What the rewriter wrote for a note, the output reader hears at the moved pitch. */
  lemma MovedNoteHeard(scope: Scope, st: State, dst: Reader, t: Token, alt: int)
    requires t.Note? && st.keyed && MoveToken(st, t).Ok? && dst.sig == st.dstSig
    requires forall k :: k in dst.bar ==> st.touched[Mod(k, 7)]
    requires alt == ReadAlt(st, t.acc, t.letter, t.octave)
    ensures var (st', u) := MoveToken(st, t).value;
      && HearToken(scope, dst, u).Some?
      && HearToken(scope, dst, u).value.1 == [Natural(u.letter) + 12 * u.octave + MovedAlt(t.letter, alt, st.iv)]
      && var dst' := HearToken(scope, dst, u).value.0;
         dst'.keyed == dst.keyed && dst'.sig == dst.sig && forall k :: k in dst'.bar ==> st'.touched[Mod(k, 7)]
  {
    NoteMoves(st, t.acc, t.letter, t.octave);
    var u := MoveToken(st, t).value.1;
    BarKeyLetter(scope, u.letter, u.octave);
  }

  /** The source reader hears a note as the rewriter reads it, and remembers what it remembers. */
  lemma SourceNoteHeard(st: State, src: Reader, t: Token)
    requires t.Note? && st.keyed && MoveToken(st, t).Ok? && src.keyed && src.sig == st.srcSig && src.bar == st.srcBar
    ensures var (st', _) := MoveToken(st, t).value;
      HearToken(PerOctave, src, t) == Some((src.(bar := st'.srcBar),
        [Natural(t.letter) + 12 * t.octave + ReadAlt(st, t.acc, t.letter, t.octave)]))
  {
    NoteMoves(st, t.acc, t.letter, t.octave);
  }

  /** One note: the source reader hears p, the output reader hears p + n. */
  lemma NoteHeard(scope: Scope, st: State, src: Reader, dst: Reader, t: Token)
    requires t.Note? && st.keyed && InStep(st, src, dst) && MoveToken(st, t).Ok?
    ensures var (st', u) := MoveToken(st, t).value;
      && HearToken(PerOctave, src, t).Some? && HearToken(scope, dst, u).Some?
      && InStep(st', HearToken(PerOctave, src, t).value.0, HearToken(scope, dst, u).value.0)
      && HearToken(scope, dst, u).value.1 == Raise(HearToken(PerOctave, src, t).value.1, st.iv.semitones)
  {
    var alt := ReadAlt(st, t.acc, t.letter, t.octave);
    NoteMoves(st, t.acc, t.letter, t.octave);
    SourceNoteHeard(st, src, t);
    MovedNoteHeard(scope, st, dst, t, alt);
  }

  function Words(name: string, rest: string): string {
    if rest != "" then name + " " + rest else name
  }

  lemma WordsCut(name: string, rest: string)
    requires forall i :: 0 <= i < |name| ==> !IsSpace(name[i])
    ensures CutAtSpace(Words(name, rest)) == (name, rest)
  {
    var s := Words(name, rest);
    assert forall j :: 0 <= j < |name| ==> s[j] == name[j];
    if rest != "" {
      assert s[|name|] == ' ';
      assert IndexOf(s, ' ') == |name|;
      assert s[..|name|] == name && s[|name| + 1..] == rest;
    } else {
      assert IndexOf(s, ' ') < 0;
    }
  }

  lemma WordsTrimmed(prefix: string, name: string, rest: string)
    requires name != "" && forall i :: 0 <= i < |name| ==> !IsSpace(name[i])
    requires rest != "" ==> !IsSpace(rest[|rest| - 1])
    requires prefix != "" ==> !IsSpace(prefix[0])
    ensures TrimSpace(prefix + Words(name, rest)) == prefix + Words(name, rest)
  {
    var s := prefix + Words(name, rest);
    assert s[0] == if prefix != "" then prefix[0] else name[0];
    assert s[|s| - 1] == if rest != "" then rest[|rest| - 1] else name[|name| - 1];
    TrimNothing(s);
  }

  /** A key the rewriter printed reads back as that key, with the same trailing text. */
  lemma KeyTextReadsBack(k: Key, rest: string)
    requires Accepted(k) && (rest != "" ==> !IsSpace(rest[|rest| - 1]))
    ensures TrimSpace(KeyText(k, rest)) == KeyText(k, rest)
    ensures CutAtSpace(KeyText(k, rest)) == (KeyName(k), rest)
    ensures ParseKey(KeyName(k)) == Ok(k)
    ensures TrimSpace("K:" + KeyText(k, rest)) == "K:" + KeyText(k, rest)
  {
    KeyNameIsAscii(k);
    var name := KeyName(k);
    assert forall i :: 0 <= i < |name| ==> !IsSpace(name[i]);
    assert KeyText(k, rest) == Words(name, rest);
    WordsCut(name, rest);
    WordsTrimmed("", name, rest);
    assert "" + Words(name, rest) == Words(name, rest);
    WordsTrimmed("K:", name, rest);
    AcceptedKeysReadBack(k);
  }

  lemma RestHasNoTrailingSpace(value: string)
    ensures var rest := CutAtSpace(TrimSpace(value)).1; rest != "" ==> !IsSpace(rest[|rest| - 1])
  {
    TrimmedEnds(value);
  }

  /** What SetKey printed, and which keys it stands for. */
  lemma SetKeyReadsBack(st: State, value: string, semitones: int)
    requires StateOk(st) && SetKey(st, value, semitones).Ok?
    ensures var (st', text) := SetKey(st, value, semitones).value;
      && ReadKey(value) == Some(Reader(true, st'.srcSig, map[]))
      && ReadKey(text) == Some(Reader(true, st'.dstSig, map[]))
      && TrimSpace("K:" + text) == "K:" + text
  {
    var (name, rest) := CutAtSpace(TrimSpace(value));
    ParsedKeyIsAccepted(name);
    var from := ParseKey(name).value;
    TargetForMoves(st, from, semitones);
    RestHasNoTrailingSpace(value);
    KeyTextReadsBack(TargetFor(st, from, semitones).value.0, rest);
  }

  lemma TokenHeard(scope: Scope, st: State, src: Reader, dst: Reader, t: Token)
    requires StateOk(st) && st.keyed && InStep(st, src, dst) && MoveToken(st, t).Ok?
    ensures var (st', u) := MoveToken(st, t).value;
      && HearToken(PerOctave, src, t).Some? && HearToken(scope, dst, u).Some?
      && InStep(st', HearToken(PerOctave, src, t).value.0, HearToken(scope, dst, u).value.0)
      && HearToken(scope, dst, u).value.1 == Raise(HearToken(PerOctave, src, t).value.1, st.iv.semitones)
  {
    match t {
      case Note(_, _, _) => NoteHeard(scope, st, src, dst, t);
      case Inline(text) =>
        if "K" <= text && |text| >= 2 {
          SetKeyReadsBack(st, text[2..], st.iv.semitones);
          var (st', k) := SetKey(st, text[2..], st.iv.semitones).value;
          assert ("K:" + k)[2..] == k;
        }
      case _ =>
    }
  }

  lemma RaiseAppends(ps: seq<int>, qs: seq<int>, n: int)
    ensures Raise(ps + qs, n) == Raise(ps, n) + Raise(qs, n)
  {
  }

  lemma {:induction false} NoKeyFieldKeepsKey(st: State, toks: seq<Token>)
    requires NoKeyField(toks) && MoveTokens(st, toks).Ok?
    ensures var st' := MoveTokens(st, toks).value.0;
      st'.keyed == st.keyed && st'.srcSig == st.srcSig && st'.dstSig == st.dstSig
    decreases |toks|
  {
    if toks != [] {
      assert !IsKeyField(toks[0]);
      NoKeyFieldKeepsKey(MoveToken(st, toks[0]).value.0, toks[1..]);
    }
  }

  lemma CommentsStay(st: State, t: Token)
    requires MoveToken(st, t).Ok?
    ensures MoveToken(st, t).value.1 == Plain('%') <==> t == Plain('%')
  {
  }

  lemma {:induction false} TokensHeard(style: Style, st: State, src: Reader, dst: Reader, toks: seq<Token>)
    requires StateOk(st) && st.keyed && InStep(st, src, dst) && MoveTokens(st, toks).Ok?
    requires style.comments ==> CommentKeepsKey(toks)
    ensures var (st', us) := MoveTokens(st, toks).value;
      var source := Style(PerOctave, style.comments);
      && HearTokens(source, src, toks).Some? && HearTokens(style, dst, us).Some?
      && SameKey(st', HearTokens(source, src, toks).value.0, HearTokens(style, dst, us).value.0)
      && HearTokens(style, dst, us).value.1 == Raise(HearTokens(source, src, toks).value.1, st.iv.semitones)
    decreases |toks|
  {
    if toks != [] {
      var source := Style(PerOctave, style.comments);
      var (st1, u) := MoveToken(st, toks[0]).value;
      var us := MoveTokens(st1, toks[1..]).value.1;
      assert ([u] + us)[1..] == us;
      CommentsStay(st, toks[0]);
      if style.comments && toks[0] == Plain('%') {
        NoKeyFieldKeepsKey(st, toks);
      } else {
        TokenHeard(style.scope, st, src, dst, toks[0]);
        TokenKeepsState(st, toks[0]);
        var (src1, ps) := HearToken(PerOctave, src, toks[0]).value;
        var (dst1, qs) := HearToken(style.scope, dst, u).value;
        TokensHeard(style, st1, src1, dst1, toks[1..]);
        RaiseAppends(ps, HearTokens(source, src1, toks[1..]).value.1, st.iv.semitones);
      }
    }
  }

  // ---------- Reading up to a comment ----------

  lemma {:induction false} ReadsBefore(style: Style, r: Reader, toks: seq<Token>)
    requires style.comments
    ensures HearTokens(style, r, toks) == HearTokens(style, r, BeforeComment(toks))
    decreases |toks|
  {
    if toks != [] && toks[0] != Plain('%') {
      assert BeforeComment(toks)[0] == toks[0] && BeforeComment(toks)[1..] == BeforeComment(toks[1..]);
      if HearToken(style.scope, r, toks[0]).Some? {
        ReadsBefore(style, HearToken(style.scope, r, toks[0]).value.0, toks[1..]);
      }
    }
  }

  /** The first two tokens decide, and no percent sign is among those that matter. */
  lemma HeadsBeforeComment(toks: seq<Token>)
    ensures var head := BeforeComment(toks);
      && (head != [] ==> toks != [] && head[0] == toks[0] && head[1..] == BeforeComment(toks[1..]))
      && (toks != [] && toks[0] != Plain('%') ==> head != [])
      && (|head| > 1 ==> |toks| > 1 && head[1] == toks[1])
      && (head != [] && |toks| > 1 && toks[1] != Plain('%') ==> |head| > 1)
  {
  }

  lemma {:induction false} SameStart(st: State, toks: seq<Token>)
    ensures BecomesField(st, BeforeComment(toks)) <==> BecomesField(st, toks)
    decreases |toks|
  {
    HeadsBeforeComment(toks);
    if toks != [] && toks[0].Plain? && IsSpace(toks[0].c) {
      SameStart(st, toks[1..]);
    }
  }

  lemma SameNeighbours(st: State, c: char, toks: seq<Token>)
    ensures BareBeforeColon(st, BeforeComment(toks)) <==> BareBeforeColon(st, toks)
    ensures c != '%' ==> (TakenBefore(st, c, BeforeComment(toks)) <==> TakenBefore(st, c, toks))
  {
    HeadsBeforeComment(toks);
  }

  lemma PercentScans(rest: string)
    ensures LexOne(['%'] + rest) == (Plain('%'), 1)
  {
    PlainIsNoNote('%', rest);
    PlainScans('%', rest);
  }

  /** Up to its comment a moved line scans as the moved tokens, whatever the comment holds. */
  lemma {:induction false} HeadReadsBack(st: State, toks: seq<Token>)
    requires Neat(toks) && MoveTokens(st, toks).Ok? && RunsApart(st, BeforeComment(toks))
    ensures var us := MoveTokens(st, toks).value.1; BeforeComment(Lex(ShowAll(us))) == BeforeComment(us)
    decreases |toks|
  {
    if toks != [] {
      MovedTokensNeat(st, toks);
      MovedTail(st, toks);
      var st1, us := MoveToken(st, toks[0]).value.0, MoveTokens(st, toks).value.1;
      assert SameOutline(toks[0], us[0]);
      LexUnfoldsShown(us);
      if toks[0] == Plain('%') {
        PercentScans(ShowAll(us[1..]));
      } else {
        HeadsBeforeComment(toks);
        HeadIsClean(st, toks);
        TokenScans(us[0], us[1..]);
        HeadReadsBack(st1, toks[1..]);
        assert ShowAll(us)[|Show(us[0])|..] == ShowAll(us[1..]);
      }
    }
  }

  lemma LexUnfoldsShown(us: seq<Token>)
    requires Neat(us) && us != []
    ensures ShowAll(us) != "" && ShowAll(us) == Show(us[0]) + ShowAll(us[1..])
    ensures var (t, n) := LexOne(ShowAll(us)); Lex(ShowAll(us)) == [t] + Lex(ShowAll(us)[n..])
  {
    ShowNonempty(us[0]);
  }

  lemma HeadIsClean(st: State, toks: seq<Token>)
    requires Neat(toks) && toks != [] && toks[0] != Plain('%') && MoveTokens(st, toks).Ok? && RunsApart(st, BeforeComment(toks))
    ensures var us := MoveTokens(st, toks).value.1;
      && (us[0] == Plain('[') ==> !BareThenColon(us[1..]))
      && (us[0].Plain? ==> !TakenBy(us[0].c, us[1..]))
  {
    HeadsBeforeComment(toks);
    MovedTail(st, toks);
    MovedTokensNeat(st, toks);
    assert SameOutline(toks[0], MoveTokens(st, toks).value.1[0]);
    if toks[0].Plain? {
      SameNeighbours(st, toks[0].c, toks[1..]);
      BareMoves(st, toks[1..]);
      TakenMoves(st, toks[0].c, toks[1..]);
    }
  }

  /** What a reader reads of a moved line are the moved tokens. */
  lemma ReadPartScans(style: Style, st: State, r: Reader, line: string)
    requires MoveTokens(st, Lex(line)).Ok? && NotesApart(st, ReadPart(style, Lex(line)))
    ensures !BecomesField(st, Lex(line))
    ensures var us := MoveTokens(st, Lex(line)).value.1; HearTokens(style, r, Lex(ShowAll(us))) == HearTokens(style, r, us)
  {
    var us := MoveTokens(st, Lex(line)).value.1;
    if style.comments {
      SameStart(st, Lex(line));
      AcceptedHasNoEmpty(st, Lex(line));
      LexIsNeat(line);
      HeadReadsBack(st, Lex(line));
      ReadsBefore(style, r, us);
      ReadsBefore(style, r, Lex(ShowAll(us)));
    } else {
      MovedMusicScansExactly(st, line);
    }
  }

  /** The kinds of a line and of its rewritten form agree. */
  lemma KindIsKept(st: State, line: string, semitones: int)
    requires StateOk(st) && MoveLine(st, line, semitones).Ok?
    requires KindOf(st.keyed, line) == Music ==> !BecomesField(ResetBar(st), Lex(line))
    ensures var (st', out) := MoveLine(st, line, semitones).value;
      match KindOf(st.keyed, line)
      case KeyLine(value) => "K:" <= out && KindOf(st.keyed, out) == KeyLine(out[2..])
                             && SetKey(st, value, semitones) == Ok((st', out[2..]))
      case kind => KindOf(st.keyed, out) == kind
  {
    var (st', out) := MoveLine(st, line, semitones).value;
    match KindOf(st.keyed, line) {
      case KeyLine(value) =>
        SetKeyReadsBack(st, value, semitones);
        var k := SetKey(st, value, semitones).value.1;
        assert out == "K:" + k && out[2..] == k;
      case Copied =>
      case Music => MusicStaysMusicExactly(st, line);
    }
  }

  lemma LineHeard(style: Style, st: State, src: Reader, dst: Reader, line: string, semitones: int)
    requires StateOk(st) && SameKey(st, src, dst) && MoveLine(st, line, semitones).Ok?
    requires st.keyed ==> st.iv.semitones == semitones
    requires KindOf(st.keyed, line) == Music ==> FollowableMusic(style, ResetBar(st), Lex(line))
    ensures var (st', out) := MoveLine(st, line, semitones).value;
      var source := Style(PerOctave, style.comments);
      && HearLine(source, src, line).Some? && HearLine(style, dst, out).Some?
      && SameKey(st', HearLine(source, src, line).value.0, HearLine(style, dst, out).value.0)
      && HearLine(style, dst, out).value.1 == Raise(HearLine(source, src, line).value.1, semitones)
  {
    if KindOf(st.keyed, line) == Music {
      ReadPartScans(style, ResetBar(st), dst.(bar := map[]), line);
    }
    KindIsKept(st, line, semitones);
    match KindOf(st.keyed, line) {
      case KeyLine(value) => SetKeyReadsBack(st, value, semitones);
      case Copied =>
      case Music =>
        TokensHeard(style, ResetBar(st), src.(bar := map[]), dst.(bar := map[]), Lex(line));
    }
  }

  lemma SemitonesAreFixed(st: State, line: string, semitones: int)
    requires StateOk(st) && MoveLine(st, line, semitones).Ok?
    requires st.keyed ==> st.iv.semitones == semitones
    ensures var st' := MoveLine(st, line, semitones).value.0; st'.keyed ==> st'.iv.semitones == semitones
  {
    LineKeepsState(st, line, semitones);
  }

  lemma HearHeadLine(style: Style, r: Reader, line: string, rest: seq<string>)
    requires HearLine(style, r, line).Some?
    ensures var (r1, ps) := HearLine(style, r, line).value;
      HearLines(style, r, [line] + rest) == match HearLines(style, r1, rest)
        case None => None
        case Some(qs) => Some(ps + qs)
  {
    assert ([line] + rest)[0] == line && ([line] + rest)[1..] == rest;
  }

  lemma {:induction false} LinesHeard(style: Style, st: State, src: Reader, dst: Reader, lines: seq<string>, semitones: int)
    requires StateOk(st) && SameKey(st, src, dst) && MoveLines(st, lines, semitones).Ok?
    requires st.keyed ==> st.iv.semitones == semitones
    requires FollowableLines(style, st, lines, semitones)
    ensures var source := Style(PerOctave, style.comments);
      && HearLines(source, src, lines).Some?
      && HearLines(style, dst, MoveLines(st, lines, semitones).value.1)
         == Some(Raise(HearLines(source, src, lines).value, semitones))
    decreases |lines|
  {
    if lines == [] {
      assert Raise([], semitones) == [];
    } else {
      var source := Style(PerOctave, style.comments);
      LineHeard(style, st, src, dst, lines[0], semitones);
      LineKeepsState(st, lines[0], semitones);
      SemitonesAreFixed(st, lines[0], semitones);
      var (st1, out) := MoveLine(st, lines[0], semitones).value;
      var (src1, ps) := HearLine(source, src, lines[0]).value;
      var (dst1, qs) := HearLine(style, dst, out).value;
      LinesHeard(style, st1, src1, dst1, lines[1..], semitones);
      HearHeadLine(style, dst, out, MoveLines(st1, lines[1..], semitones).value.1);
      RaiseAppends(ps, HearLines(source, src1, lines[1..]).value, semitones);
    }
  }

  lemma RewriteMovesEveryPitch(style: Style, score: string, semitones: int)
    requires Followable(style, score, semitones) && Rewrite(score, semitones).Ok?
    ensures var source := Style(PerOctave, style.comments);
      && Hear(source, score).Some?
      && Hear(style, Rewrite(score, semitones).value) == Some(Raise(Hear(source, score).value, semitones))
  {
    var silent := Reader(false, NO_SIG, map[]);
    LinesHeard(style, START, silent, silent, Split(score, '\n'), semitones);
    RewrittenScoreSplits(score, semitones);
  }

  /**
    Every accepted transposition moves every pitch by exactly that many semitones,
    whichever way a reader carries accidentals and whether or not it stops at
    comments, as long as nothing it reads runs together.
  */
  lemma TransposeMovesEveryPitch(style: Style, score: string, semitones: int)
    requires Followable(style, score, semitones) && semitones != 0 && Transpose(score, semitones).Ok?
    ensures var source := Style(PerOctave, style.comments);
      && Hear(source, score).Some?
      && Hear(style, Transpose(score, semitones).value) == Some(Raise(Hear(source, score).value, semitones))
  {
    RewriteMovesEveryPitch(style, score, semitones);
  }
}
