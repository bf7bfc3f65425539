/**
  When the rewriter refuses: for each token and each line the condition the
  program tests, in terms of signatures, alterations and key names, and the
  proof that these conditions are all that stops it. A score in range is
  accepted exactly when it has a key line and nothing in it is refused.
*/
module AbcGuards {
  import opened Prelude
  import opened GoArith
  import opened GoText
  import opened AbcKeys
  import opened AbcIntervals
  import opened AbcTokens
  import opened AbcMoves
  import opened AbcInvariants
  import opened AbcPlaces

  // ---------- One token ----------

  /** A pitch that would need more than a double accidental: its distance from its signature, set on the target's. */
  predicate Unspellable(st: State, l: Letter, alt: int) {
    var moved := st.dstSig[MovedLetter(l, st.iv.steps)] + alt - st.srcSig[l];
    moved < -2 || moved > 2
  }

  /** A key name outside the table, or, after the first key, one the interval carries past seven sharps or flats. */
  predicate UnknownKey(st: State, value: string) {
    match KeySignature(TrimSpace(CutAtSpace(TrimSpace(value)).0))
    case None => true
    case Some(n) => st.keyed && (n + Delta(st.iv) < -7 || n + Delta(st.iv) > 7)
  }

  /** A chord whose root or bass cannot be spelled. */
  predicate UnspellableSymbol(st: State, sym: string) {
    match PitchName(sym)
    case None => false
    case Some((l, alt, n)) =>
      Unspellable(st, l, alt)
      || match Bass(sym[n..])
         case None => false
         case Some((_, bl, balt)) => Unspellable(st, bl, balt)
  }

  /** Why a token is refused, if it is. */
  function Refusal(st: State, t: Token): Option<Error> {
    match t
    case Note(acc, l, octave) => if Unspellable(st, l, ReadAlt(st, acc, l, octave)) then Some(UnspellableNote) else None
    case Quoted(text) => if UnspellableSymbol(st, text) then Some(UnspellableChord) else None
    case Inline(text) => if "K" <= text && |text| >= 2 && UnknownKey(st, text[2..]) then Some(UnsupportedKey) else None
    case EmptyInline => Some(EmptyFieldPanic)
    case _ => None
  }

  lemma PitchRefusedExactly(st: State, l: Letter, alt: int)
    requires StateOk(st) && st.keyed
    ensures MovePitch(st.iv, l, alt) == if Unspellable(st, l, alt) then Err(UnspellableChord)
      else Ok(PitchNameText(MovedLetter(l, st.iv.steps), MovedAlt(l, alt, st.iv)))
    ensures Unspellable(st, l, alt) <==> MovedAlt(l, alt, st.iv) < -2 || MovedAlt(l, alt, st.iv) > 2
  {
    assert MovedAlt(l, st.srcSig[l], st.iv) == st.dstSig[MovedLetter(l, st.iv.steps)];
  }

  lemma ChordRefusedExactly(st: State, sym: string)
    requires StateOk(st) && st.keyed
    ensures if UnspellableSymbol(st, sym) then MoveChord(st.iv, sym) == Err(UnspellableChord) else MoveChord(st.iv, sym).Ok?
  {
    match PitchName(sym) {
      case None =>
      case Some((l, alt, n)) =>
        PitchRefusedExactly(st, l, alt);
        match Bass(sym[n..]) {
          case None =>
          case Some((_, bl, balt)) => PitchRefusedExactly(st, bl, balt);
        }
    }
  }

  lemma KeyRefusedExactly(st: State, value: string, semitones: int)
    ensures if UnknownKey(st, value) then SetKey(st, value, semitones) == Err(UnsupportedKey) else SetKey(st, value, semitones).Ok?
  {
    var name := CutAtSpace(TrimSpace(value)).0;
    ParsedKeyIsAccepted(name);
    if KeySignature(TrimSpace(name)).Some? {
      AcceptedNamesReadBack(TrimSpace(name));
      var from := ParseKey(name).value;
      assert KeySignature(TrimSpace(name)) == Some(KeyFifths(from));
    }
  }

  /** A token is refused exactly when, and for the reason that, its condition says. */
  lemma RefusedExactly(st: State, t: Token)
    requires StateOk(st) && st.keyed
    ensures match Refusal(st, t)
      case Some(e) => MoveToken(st, t) == Err(e)
      case None => MoveToken(st, t).Ok?
  {
    match t {
      case Note(acc, l, octave) => RefusalIsExact(st, acc, l, octave);
      case Quoted(text) => ChordRefusedExactly(st, text);
      case Inline(text) =>
        if "K" <= text && |text| >= 2 {
          KeyRefusedExactly(st, text[2..], st.iv.semitones);
        }
      case _ =>
    }
  }

  // ---------- A line of tokens ----------

  /** The state a token leaves, when it is accepted. */
  function Next(st: State, t: Token): State {
    match MoveToken(st, t)
    case Ok((st1, _)) => st1
    case Err(_) => st
  }

  function StateAfter(st: State, toks: seq<Token>): State
    decreases |toks|
  {
    if toks == [] then st else StateAfter(Next(st, toks[0]), toks[1..])
  }

  predicate NoneRefused(st: State, toks: seq<Token>)
    decreases |toks|
  {
    toks != [] ==> Refusal(st, toks[0]).None? && NoneRefused(Next(st, toks[0]), toks[1..])
  }

  lemma {:induction false} AcceptedExactly(st: State, toks: seq<Token>)
    requires StateOk(st) && st.keyed
    ensures MoveTokens(st, toks).Ok? <==> NoneRefused(st, toks)
    ensures MoveTokens(st, toks).Ok? ==> MoveTokens(st, toks).value.0 == StateAfter(st, toks)
    decreases |toks|
  {
    if toks != [] {
      RefusedExactly(st, toks[0]);
      if MoveToken(st, toks[0]).Ok? {
        TokenKeepsState(st, toks[0]);
        AcceptedExactly(Next(st, toks[0]), toks[1..]);
      }
    }
  }

  /** Token j is the first that is refused. */
  ghost predicate RefusedAt(st: State, toks: seq<Token>, j: nat, e: Error) {
    j < |toks| && NoneRefused(st, toks[..j]) && Refusal(StateAfter(st, toks[..j]), toks[j]) == Some(e)
  }

  lemma TokensRefusedExactly(st: State, toks: seq<Token>, e: Error)
    requires StateOk(st) && st.keyed
    ensures MoveTokens(st, toks) == Err(e) <==> exists j: nat :: RefusedAt(st, toks, j, e)
  {
    if MoveTokens(st, toks) == Err(e) {
      var j := FirstRefused(st, toks);
      PlaceIsRefused(st, toks, j);
      assert RefusedAt(st, toks, j, e);
    }
    if j: nat :| RefusedAt(st, toks, j, e) {
      PlaceIsRefused(st, toks, j);
      AcceptedExactly(st, toks[..j]);
      TokenRefusesLine(st, toks, j);
    }
  }

  lemma PlaceIsRefused(st: State, toks: seq<Token>, j: nat)
    requires StateOk(st) && st.keyed && j < |toks|
    requires MoveTokens(st, toks[..j]).Ok? || NoneRefused(st, toks[..j])
    ensures NoneRefused(st, toks[..j]) && MoveTokens(st, toks[..j]).Ok?
    ensures match Refusal(StateAfter(st, toks[..j]), toks[j])
      case Some(e) => MoveToken(MoveTokens(st, toks[..j]).value.0, toks[j]) == Err(e)
      case None => MoveToken(MoveTokens(st, toks[..j]).value.0, toks[j]).Ok?
  {
    AcceptedExactly(st, toks[..j]);
    TokensKeepState(st, toks[..j]);
    RefusedExactly(StateAfter(st, toks[..j]), toks[j]);
  }

  // ---------- A score ----------

  /** A line the rewriter refuses in this state. */
  predicate LineRefused(st: State, line: string) {
    match KindOf(st.keyed, line)
    case KeyLine(value) => UnknownKey(st, value)
    case Copied => false
    case Music => !NoneRefused(ResetBar(st), Lex(line))
  }

  lemma LineRefusedExactly(st: State, line: string, semitones: int)
    requires StateOk(st)
    ensures MoveLine(st, line, semitones).Err? <==> LineRefused(st, line)
  {
    match KindOf(st.keyed, line) {
      case KeyLine(value) => KeyRefusedExactly(st, value, semitones);
      case Copied =>
      case Music => AcceptedExactly(ResetBar(st), Lex(line));
    }
  }

  /** The state a line leaves, when it is accepted. */
  function NextLine(st: State, line: string, semitones: int): State {
    match MoveLine(st, line, semitones)
    case Ok((st1, _)) => st1
    case Err(_) => st
  }

  function StateAfterLines(st: State, lines: seq<string>, semitones: int): State
    decreases |lines|
  {
    if lines == [] then st else StateAfterLines(NextLine(st, lines[0], semitones), lines[1..], semitones)
  }

  predicate NoLineRefused(st: State, lines: seq<string>, semitones: int)
    decreases |lines|
  {
    lines != [] ==> !LineRefused(st, lines[0]) && NoLineRefused(NextLine(st, lines[0], semitones), lines[1..], semitones)
  }

  lemma {:induction false} LinesAcceptedExactly(st: State, lines: seq<string>, semitones: int)
    requires StateOk(st)
    ensures MoveLines(st, lines, semitones).Ok? <==> NoLineRefused(st, lines, semitones)
    ensures MoveLines(st, lines, semitones).Ok? ==>
      MoveLines(st, lines, semitones).value.0 == StateAfterLines(st, lines, semitones) && StateOk(StateAfterLines(st, lines, semitones))
    decreases |lines|
  {
    if lines != [] {
      LineRefusedExactly(st, lines[0], semitones);
      if MoveLine(st, lines[0], semitones).Ok? {
        LineKeepsState(st, lines[0], semitones);
        LinesAcceptedExactly(MoveLine(st, lines[0], semitones).value.0, lines[1..], semitones);
      }
    }
  }

  predicate HasKeyLine(keyed: bool, lines: seq<string>)
    decreases |lines|
  {
    keyed || (lines != [] && HasKeyLine(KindOf(false, lines[0]).KeyLine?, lines[1..]))
  }

  lemma {:induction false} EndsKeyed(st: State, lines: seq<string>, semitones: int)
    requires StateOk(st) && MoveLines(st, lines, semitones).Ok?
    ensures MoveLines(st, lines, semitones).value.0.keyed <==> HasKeyLine(st.keyed, lines)
    decreases |lines|
  {
    if lines != [] {
      LineKeepsState(st, lines[0], semitones);
      EndsKeyed(MoveLine(st, lines[0], semitones).value.0, lines[1..], semitones);
    }
  }

  /** What lines are refused for: never the range of the shift, and never a missing key. */
  predicate OfALine(e: Error) {
    e in {UnsupportedKey, UnspellableNote, UnspellableChord, EmptyFieldPanic}
  }

  lemma LineErrors(st: State, line: string, semitones: int)
    requires StateOk(st) && MoveLine(st, line, semitones).Err?
    ensures OfALine(MoveLine(st, line, semitones).error)
  {
    match KindOf(st.keyed, line) {
      case KeyLine(value) => KeyRefusedExactly(st, value, semitones);
      case Music =>
        var e := MoveLine(st, line, semitones).error;
        TokensRefusedExactly(ResetBar(st), Lex(line), e);
    }
  }

  lemma {:induction false} LinesErrors(st: State, lines: seq<string>, semitones: int)
    requires StateOk(st) && MoveLines(st, lines, semitones).Err?
    ensures OfALine(MoveLines(st, lines, semitones).error)
    decreases |lines|
  {
    if MoveLine(st, lines[0], semitones).Err? {
      LineErrors(st, lines[0], semitones);
    } else {
      LineKeepsState(st, lines[0], semitones);
      LinesErrors(MoveLine(st, lines[0], semitones).value.0, lines[1..], semitones);
    }
  }

  /** A shift is out of range from a whole octave on, whatever the score, and below that never. */
  lemma RangeIsBelowAnOctave(score: string, semitones: int)
    ensures Transpose(score, semitones) == Err(OutOfRange) <==> semitones <= -12 || 12 <= semitones
  {
    var lines := Split(score, '\n');
    if MoveLines(START, lines, semitones).Err? {
      LinesErrors(START, lines, semitones);
    }
  }

  /**
    A score is accepted exactly when the shift is less than an octave, there is a key
    line, and no line of it is refused; a score that lacks only the key line is
    refused for that.
  */
  lemma TransposeAcceptsExactly(score: string, semitones: int)
    ensures var lines := Split(score, '\n');
      && (Transpose(score, semitones).Ok? <==>
           && -12 < semitones < 12
           && (semitones == 0 || (HasKeyLine(false, lines) && NoLineRefused(START, lines, semitones))))
      && (Transpose(score, semitones) == Err(NoKeyField) <==>
           -12 < semitones < 12 && semitones != 0 && !HasKeyLine(false, lines) && NoLineRefused(START, lines, semitones))
  {
    var lines := Split(score, '\n');
    LinesAcceptedExactly(START, lines, semitones);
    if MoveLines(START, lines, semitones).Ok? {
      EndsKeyed(START, lines, semitones);
    } else {
      LinesErrors(START, lines, semitones);
    }
  }
}
