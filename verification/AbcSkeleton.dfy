/**
  What transposition leaves alone. Take away of every note its pitch, of every
  chord symbol its root and bass, of every key field its key name: all the rest,
  down to the characters, is the same before and after.
*/
module AbcSkeleton {
  import opened Prelude
  import opened GoArith
  import opened GoText
  import opened AbcKeys
  import opened AbcIntervals
  import opened AbcTokens
  import opened AbcMoves
  import opened AbcInvariants
  import opened AbcRescan
  import opened AbcLines
  import opened AbcReading
  import opened AbcComposition
  import opened AbcPlaces
  import opened AbcGuards

  datatype Rest =
    | SomeNote
    | SomeChord(quality: string, bass: bool)
    | SomeKey(rest: string)
    | Exactly(t: Token)

  datatype KeptLine = KeyField(rest: string) | Text(line: string) | Notes(kept: seq<Rest>)

  function KeyRest(value: string): string {
    CutAtSpace(TrimSpace(value)).1
  }

  function KeptChord(sym: string): Rest {
    match PitchName(sym)
    case None => Exactly(Quoted(sym))
    case Some((_, _, n)) =>
      match Bass(sym[n..])
      case None => SomeChord(sym[n..], false)
      case Some((slash, _, _)) => SomeChord(sym[n..][..slash], true)
  }

  function KeptToken(t: Token): Rest {
    match t
    case Note(_, _, _) => SomeNote
    case Quoted(text) => KeptChord(text)
    case Inline(text) => if IsKeyField(t) then SomeKey(KeyRest(text[2..])) else Exactly(t)
    case _ => Exactly(t)
  }

  function KeptTokens(toks: seq<Token>): seq<Rest> {
    if toks == [] then [] else [KeptToken(toks[0])] + KeptTokens(toks[1..])
  }

  function SkeletonOf(keyed: bool, lines: seq<string>): seq<KeptLine>
    decreases |lines|
  {
    if lines == [] then []
    else
      match KindOf(keyed, lines[0])
      case KeyLine(value) => [KeyField(KeyRest(value))] + SkeletonOf(true, lines[1..])
      case Copied => [Text(lines[0])] + SkeletonOf(keyed, lines[1..])
      case Music => [Notes(KeptTokens(Lex(lines[0])))] + SkeletonOf(keyed, lines[1..])
  }

  function Skeleton(score: string): seq<KeptLine> {
    SkeletonOf(false, Split(score, '\n'))
  }

  lemma QualityKept(iv: Interval, q: string)
    requires MoveQuality(iv, q).Ok?
    ensures var q1 := MoveQuality(iv, q).value;
      match Bass(q)
      case None => q1 == q
      case Some((slash, _, _)) => Bass(q1).Some? && Bass(q1).value.0 == slash && q1[..slash] == q[..slash]
  {
    match Bass(q) {
      case None =>
      case Some((slash, l, alt)) =>
        MovePitchWrites(iv, l, alt);
        var l1, alt1 := MovedLetter(l, iv.steps), MovedAlt(l, alt, iv);
        BassReadsBack(q[..slash], l1, alt1);
        var q1 := q[..slash] + "/" + PitchNameText(l1, alt1);
        assert q1[..slash] == q[..slash];
    }
  }

  lemma ChordKept(iv: Interval, sym: string)
    requires ChordApart(iv, sym) && MoveChord(iv, sym).Ok?
    ensures KeptChord(MoveChord(iv, sym).value) == KeptChord(sym)
  {
    match PitchName(sym) {
      case None =>
      case Some((l, alt, n)) =>
        MovedChordReads(iv, sym);
        QualityKept(iv, sym[n..]);
    }
  }

  lemma KeyRestKept(st: State, value: string, semitones: int)
    requires StateOk(st) && SetKey(st, value, semitones).Ok?
    ensures KeyRest(SetKey(st, value, semitones).value.1) == KeyRest(value)
  {
    var (name, rest) := CutAtSpace(TrimSpace(value));
    ParsedKeyIsAccepted(name);
    var from := ParseKey(name).value;
    TargetForMoves(st, from, semitones);
    RestHasNoTrailingSpace(value);
    KeyTextReadsBack(TargetFor(st, from, semitones).value.0, rest);
  }

  lemma TokenKept(st: State, t: Token)
    requires StateOk(st) && st.keyed && (t.Quoted? ==> ChordApart(st.iv, t.text)) && MoveToken(st, t).Ok?
    ensures KeptToken(MoveToken(st, t).value.1) == KeptToken(t)
  {
    match t {
      case Quoted(text) => ChordKept(st.iv, text);
      case Inline(text) =>
        if IsKeyField(t) {
          KeyRestKept(st, text[2..], st.iv.semitones);
          var k := SetKey(st, text[2..], st.iv.semitones).value.1;
          assert ("K:" + k)[2..] == k;
        }
      case _ =>
    }
  }

  lemma {:induction false} TokensKept(st: State, toks: seq<Token>)
    requires StateOk(st) && st.keyed && MoveTokens(st, toks).Ok? && ChordsApart(st.iv, toks)
    ensures KeptTokens(MoveTokens(st, toks).value.1) == KeptTokens(toks)
    decreases |toks|
  {
    if toks != [] {
      TokenKept(st, toks[0]);
      TokenKeepsState(st, toks[0]);
      var (st1, u) := MoveToken(st, toks[0]).value;
      assert forall i :: 0 <= i < |toks[1..]| ==> toks[1..][i] == toks[i + 1];
      TokensKept(st1, toks[1..]);
      var us := MoveTokens(st1, toks[1..]).value.1;
      assert ([u] + us)[1..] == us;
    }
  }

  lemma MusicKept(st: State, line: string)
    requires StateOk(st) && st.keyed && RunsApart(st, Lex(line)) && ChordsApart(st.iv, Lex(line))
    requires MoveTokens(st, Lex(line)).Ok?
    ensures KeptTokens(Lex(ShowAll(MoveTokens(st, Lex(line)).value.1))) == KeptTokens(Lex(line))
  {
    MovedMusicScansExactly(st, line);
    TokensKept(st, Lex(line));
  }

  lemma {:induction false} LinesKept(st: State, lines: seq<string>, semitones: int)
    requires StateOk(st) && NotesLegibleLines(st, lines, semitones) && ChordsLegibleLines(st, lines, semitones)
    requires MoveLines(st, lines, semitones).Ok?
    ensures SkeletonOf(st.keyed, MoveLines(st, lines, semitones).value.1) == SkeletonOf(st.keyed, lines)
    decreases |lines|
  {
    if lines != [] {
      KindIsKept(st, lines[0], semitones);
      LineKeepsState(st, lines[0], semitones);
      var (st1, out) := MoveLine(st, lines[0], semitones).value;
      LinesKept(st1, lines[1..], semitones);
      match KindOf(st.keyed, lines[0]) {
        case KeyLine(value) => KeyRestKept(st, value, semitones);
        case Copied =>
        case Music => MusicKept(ResetBar(st), lines[0]);
      }
      var outs := MoveLines(st1, lines[1..], semitones).value.1;
      assert ([out] + outs)[1..] == outs;
    }
  }

  /** Transposing a legible score changes pitches, chord roots and basses, and key names: nothing else. */
  lemma TransposeKeepsTheRest(score: string, semitones: int)
    requires Legible(score, semitones) && Transpose(score, semitones).Ok?
    ensures Skeleton(Transpose(score, semitones).value) == Skeleton(score)
  {
    if semitones != 0 {
      LinesKept(START, Split(score, '\n'), semitones);
      RewrittenScoreSplits(score, semitones);
    }
  }

  // ---------- Line by line ----------

  predicate GivesKey(line: string) {
    var t := TrimSpace(line);
    |t| >= 2 && t[0] == 'K' && t[1] == ':'
  }

  /** Blank, a comment, or a letter and a colon. */
  predicate NeverMusic(line: string) {
    var t := TrimSpace(line);
    || t == ""
    || t[0] == '%'
    || (|t| >= 2 && t[1] == ':' && ('A' <= t[0] <= 'Z' || 'a' <= t[0] <= 'z'))
  }

  lemma KindExactly(keyed: bool, line: string)
    ensures KindOf(keyed, line).KeyLine? <==> GivesKey(line)
    ensures KindOf(keyed, line).Copied? <==> !GivesKey(line) && (!keyed || NeverMusic(line))
  {
  }

  lemma {:induction false} KeyedExactly(keyed: bool, lines: seq<string>)
    ensures HasKeyLine(keyed, lines) <==> keyed || exists j :: 0 <= j < |lines| && GivesKey(lines[j])
    decreases |lines|
  {
    if !keyed && lines != [] {
      KindExactly(false, lines[0]);
      KeyedExactly(GivesKey(lines[0]), lines[1..]);
      if j :| 0 <= j < |lines| && GivesKey(lines[j]) {
        assert j > 0 ==> lines[1..][j - 1] == lines[j];
      }
    }
  }

  /** The moved tokens of a line, met in the state the lines before it leave, in a fresh bar. */
  function MovedAt(lines: seq<string>, i: nat, semitones: int): Result<(State, seq<Token>), Error>
    requires i < |lines| && MoveLines(START, lines[..i], semitones).Ok?
  {
    MoveTokens(ResetBar(MoveLines(START, lines[..i], semitones).value.0), Lex(lines[i]))
  }

  lemma KeyLineStays(st: State, line: string, semitones: int)
    requires StateOk(st) && MoveLine(st, line, semitones).Ok?
    ensures KindOf(st.keyed, line).KeyLine? ==> GivesKey(MoveLine(st, line, semitones).value.1)
  {
    match KindOf(st.keyed, line) {
      case KeyLine(value) => SetKeyReadsBack(st, value, semitones);
      case _ =>
    }
  }

  lemma LineBecomes(st: State, line: string, semitones: int)
    requires StateOk(st) && MoveLine(st, line, semitones).Ok?
    ensures var out := MoveLine(st, line, semitones).value.1;
      && (GivesKey(line) ==> GivesKey(out))
      && (!GivesKey(line) && (!st.keyed || NeverMusic(line)) ==> out == line)
      && (st.keyed && !NeverMusic(line) ==>
           MoveTokens(ResetBar(st), Lex(line)).Ok? && out == ShowAll(MoveTokens(ResetBar(st), Lex(line)).value.1))
  {
    KindExactly(st.keyed, line);
    KeyLineStays(st, line, semitones);
  }

  lemma KeyedBefore(lines: seq<string>, i: nat, semitones: int)
    requires i < |lines| && MoveLines(START, lines[..i], semitones).Ok?
    ensures var st := MoveLines(START, lines[..i], semitones).value.0;
      StateOk(st) && (st.keyed <==> exists j :: 0 <= j < i && GivesKey(lines[j]))
  {
    EndsKeyed(START, lines[..i], semitones);
    KeyedExactly(false, lines[..i]);
    LinesAcceptedExactly(START, lines[..i], semitones);
  }

  /**
    Every line of an accepted score: a key line stays one; everything before the
    first key line, and after it blank lines, comments and every field, lyrics
    included, come through as they are; all the rest is music, printed from its
    moved tokens.
  */
  lemma EveryLineIsAccountedFor(score: string, semitones: int, i: nat)
    requires semitones != 0 && Transpose(score, semitones).Ok? && i < |Split(score, '\n')|
    ensures var lines, outs := Split(score, '\n'), Split(Transpose(score, semitones).value, '\n');
      var keyed := exists j :: 0 <= j < i && GivesKey(lines[j]);
      && |outs| == |lines|
      && (GivesKey(lines[i]) ==> GivesKey(outs[i]))
      && (!GivesKey(lines[i]) && (!keyed || NeverMusic(lines[i])) ==> outs[i] == lines[i])
      && (keyed && !NeverMusic(lines[i]) ==>
           && MoveLines(START, lines[..i], semitones).Ok?
           && MovedAt(lines, i, semitones).Ok?
           && outs[i] == ShowAll(MovedAt(lines, i, semitones).value.1))
  {
    var lines := Split(score, '\n');
    RewrittenScoreSplits(score, semitones);
    LineAt(START, lines, i, semitones);
    KeyedBefore(lines, i, semitones);
    LineBecomes(MoveLines(START, lines[..i], semitones).value.0, lines[i], semitones);
  }
}
