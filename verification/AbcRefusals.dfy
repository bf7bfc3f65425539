/**
  What the rewriter never refuses, and what stops it altogether. A score that
  stays in one accepted key, with no written accidental and only diatonic chord
  pitches, is never refused; an inline field with no letter makes the program
  panic.
*/
module AbcRefusals {
  import opened Prelude
  import opened GoArith
  import opened GoText
  import opened AbcKeys
  import opened AbcIntervals
  import opened AbcTokens
  import opened AbcMoves
  import opened AbcInvariants
  import opened AbcPlaces
  import opened AbcGuards

  // ---------- Diatonic scores are never refused ----------

  predicate NamesKey(k: Key, value: string) {
    ParseKey(CutAtSpace(TrimSpace(value)).0) == Ok(k)
  }

  /** A chord symbol whose root and bass are in the key. */
  predicate DiatonicChord(k: Key, sym: string) {
    match PitchName(sym)
    case None => true
    case Some((l, alt, n)) =>
      && alt == SigAlt(KeyFifths(k), l)
      && match Bass(sym[n..])
         case None => true
         case Some((_, bl, balt)) => balt == SigAlt(KeyFifths(k), bl)
  }

  predicate DiatonicToken(k: Key, t: Token) {
    match t
    case Note(acc, _, _) => acc.None?
    case Quoted(text) => DiatonicChord(k, text)
    case Inline(text) => "K" <= text && |text| >= 2 ==> NamesKey(k, text[2..])
    case EmptyInline => false
    case _ => true
  }

  predicate DiatonicLines(k: Key, keyed: bool, lines: seq<string>)
    decreases |lines|
  {
    lines != [] ==>
      match KindOf(keyed, lines[0])
      case KeyLine(value) => NamesKey(k, value) && DiatonicLines(k, true, lines[1..])
      case Copied => DiatonicLines(k, keyed, lines[1..])
      case Music => (forall t :: t in Lex(lines[0]) ==> DiatonicToken(k, t)) && DiatonicLines(k, keyed, lines[1..])
  }

  predicate HasHeader(lines: seq<string>) {
    exists i :: 0 <= i < |lines| && KindOf(false, lines[i]).KeyLine?
  }

  /** The rewriter has read nothing but this key, and no accidental. */
  ghost predicate Settled(k: Key, st: State, semitones: int) {
    st.keyed ==>
      && st.iv == TargetInterval(k, semitones)
      && st.srcSig == SigOf(KeyFifths(k))
      && st.dstSig == SigOf(TargetFifths(KeyFifths(k), semitones))
      && st.srcBar == map[]
  }

  /** A diatonic pitch moves to a diatonic pitch of an accepted key: natural, sharp or flat. */
  lemma DiatonicMoves(k: Key, l: Letter, semitones: int)
    requires Accepted(k)
    ensures -1 <= MovedAlt(l, SigAlt(KeyFifths(k), l), TargetInterval(k, semitones)) <= 1
  {
    var iv := TargetInterval(k, semitones);
    var l2, n2 := MovedLetter(l, iv.steps), TargetFifths(KeyFifths(k), semitones);
    TargetDelta(k, semitones);
    SignatureTransport(KeyFifths(k), l, SigAlt(KeyFifths(k), l), iv);
    SigAltRange(n2, l2);
  }

  lemma SigAltRange(n: int, l: Letter)
    requires -7 <= n <= 7
    ensures -1 <= SigAlt(n, l) <= 1
  {
  }

  lemma DiatonicNoteMoves(k: Key, st: State, t: Token, semitones: int)
    requires Accepted(k) && st.keyed && Settled(k, st, semitones) && t.Note? && t.acc.None?
    ensures MoveToken(st, t).Ok? && Settled(k, MoveToken(st, t).value.0, semitones)
  {
    NoteMoves(st, t.acc, t.letter, t.octave);
    DiatonicMoves(k, t.letter, semitones);
  }

  lemma DiatonicChordMoves(k: Key, sym: string, semitones: int)
    requires Accepted(k) && DiatonicChord(k, sym)
    ensures MoveChord(TargetInterval(k, semitones), sym).Ok?
  {
    match PitchName(sym) {
      case None =>
      case Some((l, alt, n)) =>
        DiatonicMoves(k, l, semitones);
        match Bass(sym[n..]) {
          case None =>
          case Some((_, bl, balt)) => DiatonicMoves(k, bl, semitones);
        }
    }
  }

  lemma TargetIsMoved(k: Key, semitones: int)
    requires Accepted(k)
    ensures MoveKey(k, TargetInterval(k, semitones)) == Ok(TargetOf(k, semitones))
    ensures KeyFifths(TargetOf(k, semitones)) == TargetFifths(KeyFifths(k), semitones)
  {
    TargetDelta(k, semitones);
    MoveKeyTo(k, TargetInterval(k, semitones), TargetFifths(KeyFifths(k), semitones));
  }

  lemma SameKeyTarget(k: Key, st: State, semitones: int, asked: int)
    requires Accepted(k) && Settled(k, st, semitones) && (!st.keyed ==> asked == semitones)
    ensures TargetFor(st, k, asked) == Ok((TargetOf(k, semitones), TargetInterval(k, semitones)))
    ensures KeyFifths(TargetOf(k, semitones)) == TargetFifths(KeyFifths(k), semitones)
  {
    TargetIsMoved(k, semitones);
  }

  lemma SameKeySettles(k: Key, st: State, value: string, semitones: int, asked: int)
    requires Accepted(k) && Settled(k, st, semitones) && NamesKey(k, value)
    requires !st.keyed ==> asked == semitones
    ensures SetKey(st, value, asked).Ok?
    ensures var st' := SetKey(st, value, asked).value.0; st'.keyed && Settled(k, st', semitones)
  {
    SameKeyTarget(k, st, semitones, asked);
    var rest := CutAtSpace(TrimSpace(value)).1;
    assert SetKey(st, value, asked) == ChangeKey(st, k, rest, asked);
  }

  lemma DiatonicTokenMoves(k: Key, st: State, t: Token, semitones: int)
    requires Accepted(k) && st.keyed && Settled(k, st, semitones) && DiatonicToken(k, t)
    ensures MoveToken(st, t).Ok?
    ensures var st' := MoveToken(st, t).value.0; st'.keyed && Settled(k, st', semitones)
  {
    match t {
      case Note(_, _, _) => DiatonicNoteMoves(k, st, t, semitones);
      case Quoted(text) => DiatonicChordMoves(k, text, semitones);
      case Inline(text) =>
        if "K" <= text && |text| >= 2 {
          SameKeySettles(k, st, text[2..], semitones, st.iv.semitones);
        }
      case _ =>
    }
  }

  lemma {:induction false} DiatonicTokensMove(k: Key, st: State, toks: seq<Token>, semitones: int)
    requires Accepted(k) && st.keyed && Settled(k, st, semitones)
    requires forall t :: t in toks ==> DiatonicToken(k, t)
    ensures MoveTokens(st, toks).Ok?
    ensures var st' := MoveTokens(st, toks).value.0; st'.keyed && Settled(k, st', semitones)
    decreases |toks|
  {
    if toks != [] {
      DiatonicTokenMoves(k, st, toks[0], semitones);
      DiatonicTokensMove(k, MoveToken(st, toks[0]).value.0, toks[1..], semitones);
    }
  }

  lemma {:induction false} DiatonicLinesMove(k: Key, st: State, lines: seq<string>, semitones: int)
    requires Accepted(k) && Settled(k, st, semitones) && DiatonicLines(k, st.keyed, lines)
    ensures MoveLines(st, lines, semitones).Ok?
    ensures st.keyed || HasHeader(lines) ==> MoveLines(st, lines, semitones).value.0.keyed
    decreases |lines|
  {
    if lines != [] {
      match KindOf(st.keyed, lines[0]) {
        case KeyLine(value) => SameKeySettles(k, st, value, semitones, semitones);
        case Copied =>
        case Music => DiatonicTokensMove(k, ResetBar(st), Lex(lines[0]), semitones);
      }
      var st1 := MoveLine(st, lines[0], semitones).value.0;
      DiatonicLinesMove(k, st1, lines[1..], semitones);
      if !st1.keyed && HasHeader(lines) {
        var i :| 0 <= i < |lines| && KindOf(false, lines[i]).KeyLine?;
        assert i > 0 && lines[1..][i - 1] == lines[i];
      }
    }
  }

  /** One accepted key, no written accidentals, chords in the key: no transposition is refused. */
  lemma DiatonicIsNeverRefused(k: Key, score: string, semitones: int)
    requires Accepted(k) && DiatonicLines(k, false, Split(score, '\n')) && HasHeader(Split(score, '\n'))
    requires -12 < semitones < 12
    ensures Transpose(score, semitones).Ok?
  {
    if semitones != 0 {
      DiatonicLinesMove(k, START, Split(score, '\n'), semitones);
    }
  }

  // ---------- The inline field with no letter ----------

  /** It is the text []: that reads as an inline field with nothing in it. */
  lemma EmptyInlineIsItsText(s: string)
    requires s != ""
    ensures LexOne(s).0.EmptyInline? <==> "[]:" <= s
  {
    if "[]:" <= s {
      assert s[0] == '[' && s[1] == ']' && s[2] == ':';
      assert s[1..][0] == s[1] && s[1..][1] == s[2];
      assert OpensField(s[1..]);
      assert IndexOf(s, ']') == 1;
    }
  }

  lemma OnlyEmptyInlinePanics(st: State, t: Token)
    ensures Refusal(st, t) == Some(Error.EmptyFieldPanic) <==> t == EmptyInline
  {
  }

  /** An empty inline field is reached: nothing before it on the line is refused. */
  ghost predicate PanicAt(st: State, toks: seq<Token>, i: nat) {
    i < |toks| && toks[i] == EmptyInline && NoneRefused(st, toks[..i])
  }

  lemma TokensPanicExactly(st: State, toks: seq<Token>)
    requires StateOk(st) && st.keyed
    ensures MoveTokens(st, toks) == Err(Error.EmptyFieldPanic) <==> exists i: nat :: PanicAt(st, toks, i)
  {
    TokensRefusedExactly(st, toks, Error.EmptyFieldPanic);
    if i: nat :| PanicAt(st, toks, i) {
      OnlyEmptyInlinePanics(StateAfter(st, toks[..i]), toks[i]);
      assert RefusedAt(st, toks, i, Error.EmptyFieldPanic);
    }
    if i: nat :| RefusedAt(st, toks, i, Error.EmptyFieldPanic) {
      OnlyEmptyInlinePanics(StateAfter(st, toks[..i]), toks[i]);
      assert PanicAt(st, toks, i);
    }
  }

  ghost predicate Panics(st: State, line: string) {
    KindOf(st.keyed, line) == Music && exists j: nat :: PanicAt(ResetBar(st), Lex(line), j)
  }

  lemma LinePanicsExactly(st: State, line: string, semitones: int)
    requires StateOk(st)
    ensures MoveLine(st, line, semitones) == Err(Error.EmptyFieldPanic) <==> Panics(st, line)
  {
    match KindOf(st.keyed, line) {
      case KeyLine(value) => KeyRefusedExactly(st, value, semitones);
      case Copied =>
      case Music => TokensPanicExactly(ResetBar(st), Lex(line));
    }
  }

  /** Line i is music with an empty inline field that is reached, and no line before it is refused. */
  ghost predicate PanicsAtLine(lines: seq<string>, semitones: int, i: nat) {
    && i < |lines| && NoLineRefused(START, lines[..i], semitones)
    && Panics(StateAfterLines(START, lines[..i], semitones), lines[i])
  }

  lemma LinesPanicExactly(lines: seq<string>, semitones: int)
    ensures MoveLines(START, lines, semitones) == Err(Error.EmptyFieldPanic)
      <==> exists i: nat :: PanicsAtLine(lines, semitones, i)
  {
    if MoveLines(START, lines, semitones) == Err(Error.EmptyFieldPanic) {
      var i := FirstRefusedLine(START, lines, semitones);
      LinesAcceptedExactly(START, lines[..i], semitones);
      LinePanicsExactly(StateAfterLines(START, lines[..i], semitones), lines[i], semitones);
      assert PanicsAtLine(lines, semitones, i);
    }
    if i: nat :| PanicsAtLine(lines, semitones, i) {
      LinesAcceptedExactly(START, lines[..i], semitones);
      LinePanicsExactly(StateAfterLines(START, lines[..i], semitones), lines[i], semitones);
      LineRefusesScore(START, lines, i, semitones);
    }
  }

  lemma OnlyLinesPanic(score: string, semitones: int)
    ensures Rewrite(score, semitones) == Err(Error.EmptyFieldPanic)
      <==> MoveLines(START, Split(score, '\n'), semitones) == Err(Error.EmptyFieldPanic)
  {
  }

  /**
    The program panics on a score, looking for the first letter of an empty field,
    exactly when the text []: is reached in its music with nothing before it
    refused; nothing guards it.
  */
  lemma PanicsExactly(score: string, semitones: int)
    requires -12 < semitones < 12 && semitones != 0
    ensures Transpose(score, semitones) == Err(Error.EmptyFieldPanic)
      <==> exists i: nat :: PanicsAtLine(Split(score, '\n'), semitones, i)
  {
    LinesPanicExactly(Split(score, '\n'), semitones);
    OnlyLinesPanic(score, semitones);
  }
}
