/**
  A reader of chord symbols, and what it reads in a transposed score: the pitch
  class of every root and every bass is the source's, moved. A chord symbol is a
  quoted text that starts with a pitch; its bass is the pitch after its last slash
  (section 4.18 of the ABC music standard v2.1).
*/
module AbcChords {
  import opened Prelude
  import opened GoArith
  import opened GoText
  import opened AbcKeys
  import opened AbcIntervals
  import opened AbcTokens
  import opened AbcMoves
  import opened AbcInvariants
  import opened AbcRescan
  import opened AbcLines
  import opened AbcReading
  import opened AbcComposition

  function PitchClass(l: Letter, alt: int): int {
    Mod(Natural(l) + alt, 12)
  }

  function BassTones(quality: string): seq<int> {
    match Bass(quality)
    case None => []
    case Some((_, l, alt)) => [PitchClass(l, alt)]
  }

  /** The root, and the bass when there is one. */
  function ChordTones(sym: string): seq<int> {
    match PitchName(sym)
    case None => []
    case Some((l, alt, n)) => [PitchClass(l, alt)] + BassTones(sym[n..])
  }

  function TonesOf(t: Token): seq<int> {
    if t.Quoted? then ChordTones(t.text) else []
  }

  function TonesIn(toks: seq<Token>): seq<int>
    decreases |toks|
  {
    if toks == [] then []
    else TonesOf(toks[0]) + TonesIn(toks[1..])
  }

  /** The chord tones of the music lines, in order. */
  function TonesOfLines(keyed: bool, lines: seq<string>): seq<int>
    decreases |lines|
  {
    if lines == [] then []
    else
      match KindOf(keyed, lines[0])
      case KeyLine(_) => TonesOfLines(true, lines[1..])
      case Copied => TonesOfLines(keyed, lines[1..])
      case Music => TonesIn(Lex(lines[0])) + TonesOfLines(keyed, lines[1..])
  }

  function Tones(score: string): seq<int> {
    TonesOfLines(false, Split(score, '\n'))
  }

  /** Pitch classes moved by this many semitones, round the octave. */
  function Turned(pcs: seq<int>, n: int): seq<int> {
    seq(|pcs|, i requires 0 <= i < |pcs| => Mod(pcs[i] + n, 12))
  }

  // ---------- One chord ----------

  lemma ModOfMod(a: int, b: int, n: int, octaves: int)
    requires b == a + n - 12 * octaves
    ensures Mod(b, 12) == Mod(Mod(a, 12) + n, 12)
  {
    EuclideanUnique(Mod(a, 12) + n, 12, FloorDiv(b, 12) + octaves - FloorDiv(a, 12), Mod(b, 12));
  }

  lemma PitchClassMoves(l: Letter, alt: int, iv: Interval)
    ensures PitchClass(MovedLetter(l, iv.steps), MovedAlt(l, alt, iv)) == Mod(PitchClass(l, alt) + iv.semitones, 12)
  {
    ModOfMod(Natural(l) + alt, Natural(MovedLetter(l, iv.steps)) + MovedAlt(l, alt, iv), iv.semitones, FloorDiv(l + iv.steps, 7));
  }

  /** The bass written is the bass read, moved; a quality without one is copied. */
  lemma BassMoves(iv: Interval, q: string)
    requires MoveQuality(iv, q).Ok?
    ensures match Bass(q)
      case None => MoveQuality(iv, q).value == q
      case Some((slash, l, alt)) => Bass(MoveQuality(iv, q).value) == Some((slash, MovedLetter(l, iv.steps), MovedAlt(l, alt, iv)))
  {
    match Bass(q) {
      case None =>
      case Some((slash, l, alt)) =>
        MovePitchWrites(iv, l, alt);
        BassReadsBack(q[..slash], MovedLetter(l, iv.steps), MovedAlt(l, alt, iv));
    }
  }

  lemma RootMoves(iv: Interval, sym: string)
    requires ChordApart(iv, sym) && MoveChord(iv, sym).Ok? && PitchName(sym).Some?
    ensures var (l, alt, n) := PitchName(sym).value;
      var moved := MoveChord(iv, sym).value;
      && MoveQuality(iv, sym[n..]).Ok? && PitchName(moved).Some?
      && PitchName(moved).value.0 == MovedLetter(l, iv.steps) && PitchName(moved).value.1 == MovedAlt(l, alt, iv)
      && moved[PitchName(moved).value.2..] == MoveQuality(iv, sym[n..]).value
  {
    MovedChordReads(iv, sym);
  }

  lemma TurnedAppends(a: seq<int>, b: seq<int>, n: int)
    ensures Turned(a + b, n) == Turned(a, n) + Turned(b, n)
  {
  }

  lemma TurnedOne(pc: int, n: int)
    ensures Turned([pc], n) == [Mod(pc + n, 12)]
  {
  }

  lemma BassTonesTurn(q: string, moved: string, n: int)
    requires match Bass(q)
      case None => moved == q
      case Some((slash, l, alt)) =>
        && Bass(moved).Some?
        && PitchClass(Bass(moved).value.1, Bass(moved).value.2) == Mod(PitchClass(l, alt) + n, 12)
    ensures BassTones(moved) == Turned(BassTones(q), n)
  {
    if Bass(q).Some? {
      TurnedOne(PitchClass(Bass(q).value.1, Bass(q).value.2), n);
    }
  }

  lemma BassTurns(iv: Interval, q: string)
    requires MoveQuality(iv, q).Ok?
    ensures BassTones(MoveQuality(iv, q).value) == Turned(BassTones(q), iv.semitones)
  {
    BassMoves(iv, q);
    if Bass(q).Some? {
      PitchClassMoves(Bass(q).value.1, Bass(q).value.2, iv);
    }
    BassTonesTurn(q, MoveQuality(iv, q).value, iv.semitones);
  }

  lemma TonesInParts(sym: string, moved: string, n: int)
    requires PitchName(sym).Some? && PitchName(moved).Some?
    requires var (l, alt, k), (l1, alt1, k1) := PitchName(sym).value, PitchName(moved).value;
      && PitchClass(l1, alt1) == Mod(PitchClass(l, alt) + n, 12)
      && BassTones(moved[k1..]) == Turned(BassTones(sym[k..]), n)
    ensures ChordTones(moved) == Turned(ChordTones(sym), n)
  {
    var (l, alt, k) := PitchName(sym).value;
    TurnedOne(PitchClass(l, alt), n);
    TurnedAppends([PitchClass(l, alt)], BassTones(sym[k..]), n);
  }

  lemma ChordTurns(iv: Interval, sym: string)
    requires ChordApart(iv, sym) && MoveChord(iv, sym).Ok?
    ensures ChordTones(MoveChord(iv, sym).value) == Turned(ChordTones(sym), iv.semitones)
  {
    if PitchName(sym).Some? {
      var (l, alt, n) := PitchName(sym).value;
      RootMoves(iv, sym);
      PitchClassMoves(l, alt, iv);
      BassTurns(iv, sym[n..]);
      TonesInParts(sym, MoveChord(iv, sym).value, iv.semitones);
    }
  }

  // ---------- A score ----------

  lemma TokenTurns(st: State, t: Token)
    requires MoveToken(st, t).Ok? && (t.Quoted? ==> ChordApart(st.iv, t.text))
    ensures TonesOf(MoveToken(st, t).value.1) == Turned(TonesOf(t), st.iv.semitones)
  {
    if t.Quoted? {
      ChordTurns(st.iv, t.text);
    }
  }

  lemma {:induction false} TokensTurn(st: State, toks: seq<Token>)
    requires StateOk(st) && st.keyed && MoveTokens(st, toks).Ok? && ChordsApart(st.iv, toks)
    ensures TonesIn(MoveTokens(st, toks).value.1) == Turned(TonesIn(toks), st.iv.semitones)
    decreases |toks|
  {
    if toks != [] {
      var (st1, u) := MoveToken(st, toks[0]).value;
      var us := MoveTokens(st1, toks[1..]).value.1;
      assert ([u] + us)[0] == u && ([u] + us)[1..] == us;
      TokenKeepsState(st, toks[0]);
      TokensTurn(st1, toks[1..]);
      assert forall i :: 0 <= i < |toks[1..]| ==> toks[1..][i] == toks[i + 1];
      TokenTurns(st, toks[0]);
      TurnedAppends(TonesOf(toks[0]), TonesIn(toks[1..]), st.iv.semitones);
    }
  }

  lemma MusicTurns(st: State, line: string)
    requires StateOk(st) && st.keyed && KindOf(true, line) == Music
    requires NotesApart(ResetBar(st), Lex(line)) && ChordsApart(st.iv, Lex(line)) && MoveTokens(ResetBar(st), Lex(line)).Ok?
    ensures TonesIn(Lex(ShowAll(MoveTokens(ResetBar(st), Lex(line)).value.1))) == Turned(TonesIn(Lex(line)), st.iv.semitones)
  {
    MovedMusicScansExactly(ResetBar(st), line);
    TokensTurn(ResetBar(st), Lex(line));
  }

  lemma {:induction false} LinesTurn(st: State, lines: seq<string>, semitones: int)
    requires StateOk(st) && MoveLines(st, lines, semitones).Ok? && (st.keyed ==> st.iv.semitones == semitones)
    requires NotesLegibleLines(st, lines, semitones) && ChordsLegibleLines(st, lines, semitones)
    ensures TonesOfLines(st.keyed, MoveLines(st, lines, semitones).value.1) == Turned(TonesOfLines(st.keyed, lines), semitones)
    decreases |lines|
  {
    if lines != [] {
      var (st1, out) := MoveLine(st, lines[0], semitones).value;
      var rest := MoveLines(st1, lines[1..], semitones).value.1;
      assert ([out] + rest)[0] == out && ([out] + rest)[1..] == rest;
      KindIsKept(st, lines[0], semitones);
      LineKeepsState(st, lines[0], semitones);
      SemitonesAreFixed(st, lines[0], semitones);
      LinesTurn(st1, lines[1..], semitones);
      if KindOf(st.keyed, lines[0]) == Music {
        MusicTurns(st, lines[0]);
        TurnedAppends(TonesIn(Lex(lines[0])), TonesOfLines(st.keyed, lines[1..]), semitones);
      }
    }
  }

  /** Every accepted transposition with a legible result moves every chord root and every bass by that many semitones. */
  lemma TransposeMovesEveryChord(score: string, semitones: int)
    requires Legible(score, semitones) && semitones != 0 && Transpose(score, semitones).Ok?
    ensures Tones(Transpose(score, semitones).value) == Turned(Tones(score), semitones)
  {
    LinesTurn(START, Split(score, '\n'), semitones);
    RewrittenScoreSplits(score, semitones);
  }
}
