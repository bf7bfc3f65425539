/**
  What every step of the rewriter keeps: source and target signatures stay the
  interval apart, so a note's distance from its signature never changes.
*/
module AbcInvariants {
  import opened Prelude
  import opened GoArith
  import opened GoText
  import opened AbcKeys
  import opened AbcIntervals
  import opened AbcTokens
  import opened AbcMoves

  /** The target signature is the source signature moved by the interval. */
  ghost predicate SignaturesMoved(st: State) {
    forall l: Letter :: MovedAlt(l, st.srcSig[l], st.iv) == st.dstSig[MovedLetter(l, st.iv.steps)]
  }

  ghost predicate StateOk(st: State) {
    st.keyed ==> -13 <= Delta(st.iv) <= 12 && SignaturesMoved(st)
  }

  lemma SignatureOfMovedKey(n: int, iv: Interval)
    ensures forall l: Letter :: MovedAlt(l, SigOf(n)[l], iv) == SigOf(n + Delta(iv))[MovedLetter(l, iv.steps)]
  {
    forall l: Letter
      ensures MovedAlt(l, SigOf(n)[l], iv) == SigOf(n + Delta(iv))[MovedLetter(l, iv.steps)]
    {
      SignatureTransport(n, l, SigAlt(n, l), iv);
    }
  }

  /** Header or later key alike: the key written is the key read, moved by the score's interval. */
  lemma TargetForMoves(st: State, from: Key, semitones: int)
    requires StateOk(st) && Accepted(from) && TargetFor(st, from, semitones).Ok?
    ensures var (to, iv) := TargetFor(st, from, semitones).value;
      && Accepted(to) && to.minor == from.minor && -13 <= Delta(iv) <= 12
      && KeyFifths(to) == KeyFifths(from) + Delta(iv)
      && (st.keyed ==> iv == st.iv)
      && (!st.keyed ==> iv == TargetInterval(from, semitones) && to == TargetOf(from, semitones))
  {
    if st.keyed {
      MovedKeyFifths(from, st.iv);
    } else {
      TargetDelta(from, semitones);
    }
  }

  lemma ParsedKeyIsAccepted(name: string)
    ensures ParseKey(name).Ok? ==> Accepted(ParseKey(name).value) && KeyName(ParseKey(name).value) == TrimSpace(name)
    ensures ParseKey(name).Ok? <==> KeySignature(TrimSpace(name)).Some?
  {
    if KeySignature(TrimSpace(name)).Some? {
      AcceptedNamesReadBack(TrimSpace(name));
    }
  }

  lemma SetKeyKeepsState(st: State, value: string, semitones: int)
    requires StateOk(st) && SetKey(st, value, semitones).Ok?
    ensures StateOk(SetKey(st, value, semitones).value.0)
    ensures SetKey(st, value, semitones).value.0.keyed
  {
    var name := CutAtSpace(TrimSpace(value)).0;
    ParsedKeyIsAccepted(name);
    var from := ParseKey(name).value;
    TargetForMoves(st, from, semitones);
    var (to, iv) := TargetFor(st, from, semitones).value;
    SignatureOfMovedKey(KeyFifths(from), iv);
  }

  lemma OctavesCarry(a: int, o: int)
    ensures Mod(a + 7 * o, 7) == Mod(a, 7) && FloorDiv(a + 7 * o, 7) == FloorDiv(a, 7) + o
  {
    EuclideanUnique(a + 7 * o, 7, FloorDiv(a, 7) + o, Mod(a, 7));
  }

  /** A note moves to the letter and alteration its interval gives, whatever its octave. */
  lemma NoteMoves(st: State, acc: Option<int>, letter: Letter, octave: int)
    ensures var r, alt := MoveNote(st, acc, letter, octave), ReadAlt(st, acc, letter, octave);
      var l2, alt2 := MovedLetter(letter, st.iv.steps), MovedAlt(letter, alt, st.iv);
      && (r.Ok? <==> -2 <= alt2 <= 2)
      && (r.Ok? ==>
        && r.value.1.letter == l2
        && r.value.1.octave == octave + FloorDiv(letter + st.iv.steps, 7)
        && r.value.1.acc == (if alt2 != st.dstSig[l2] || st.touched[l2] then Some(alt2) else None)
        && r.value.0.touched == (if alt2 != st.dstSig[l2] || st.touched[l2] then st.touched[l2 := true] else st.touched)
        && r.value.0.srcBar == (if acc.Some? then st.srcBar[letter + 7 * octave := acc.value] else st.srcBar))
  {
  }

  /**
    A note is refused exactly when the target signature, plus how far the note
    was from the source signature, would need more than a double accidental.
  */
  lemma RefusalIsExact(st: State, acc: Option<int>, letter: Letter, octave: int)
    requires StateOk(st) && st.keyed
    ensures var l2 := MovedLetter(letter, st.iv.steps);
      var alt2 := st.dstSig[l2] + ReadAlt(st, acc, letter, octave) - st.srcSig[letter];
      MoveNote(st, acc, letter, octave).Ok? <==> -2 <= alt2 <= 2
  {
    NoteMoves(st, acc, letter, octave);
    assert MovedAlt(letter, st.srcSig[letter], st.iv) == st.dstSig[MovedLetter(letter, st.iv.steps)];
  }

  lemma TokenKeepsState(st: State, t: Token)
    requires StateOk(st) && MoveToken(st, t).Ok?
    ensures StateOk(MoveToken(st, t).value.0)
    ensures st.keyed ==> MoveToken(st, t).value.0.keyed && MoveToken(st, t).value.0.iv == st.iv
  {
    match t {
      case Inline(text) =>
        if "K" <= text && |text| >= 2 {
          SetKeyKeepsState(st, text[2..], st.iv.semitones);
        }
      case _ =>
    }
  }

  lemma {:induction false} TokensKeepState(st: State, toks: seq<Token>)
    requires StateOk(st) && MoveTokens(st, toks).Ok?
    ensures StateOk(MoveTokens(st, toks).value.0)
    ensures st.keyed ==> MoveTokens(st, toks).value.0.keyed && MoveTokens(st, toks).value.0.iv == st.iv
    decreases |toks|
  {
    if toks != [] {
      TokenKeepsState(st, toks[0]);
      TokensKeepState(MoveToken(st, toks[0]).value.0, toks[1..]);
    }
  }

  lemma LineKeepsState(st: State, line: string, semitones: int)
    requires StateOk(st) && MoveLine(st, line, semitones).Ok?
    ensures var st' := MoveLine(st, line, semitones).value.0;
      && StateOk(st')
      && (st'.keyed <==> st.keyed || KindOf(st.keyed, line).KeyLine?)
      && (st.keyed ==> st'.iv == st.iv)
  {
    match KindOf(st.keyed, line) {
      case KeyLine(value) => SetKeyKeepsState(st, value, semitones);
      case Copied =>
      case Music => TokensKeepState(ResetBar(st), Lex(line));
    }
  }
}
