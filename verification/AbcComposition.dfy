/**
  Transposition composes: by m and then by n is, character for character, by
  m + n; and from a canonical score there is a way back.
*/
module AbcComposition {
  import opened Prelude
  import opened GoArith
  import opened GoText
  import opened AbcKeys
  import opened AbcIntervals
  import opened AbcTokens
  import opened AbcMoves
  import opened AbcInvariants
  import opened AbcRescan
  import opened AbcLines
  import opened AbcReading

  // ---------- Chord symbols ----------

  function SharpsOrFlats(alt: int): string {
    if alt == 2 then "##" else if alt == 1 then "#" else if alt == -1 then "b" else if alt == -2 then "bb" else ""
  }

  lemma AccidentalReadsBack(alt: int, q: string)
    requires -2 <= alt <= 2
    ensures var s := SharpsOrFlats(alt) + q;
      StandsApart(alt, q)
      <==> alt == if "##" <= s then 2 else if "bb" <= s then -2 else if "#" <= s then 1 else if "b" <= s then -1 else 0
  {
    var s := SharpsOrFlats(alt) + q;
    assert q != "" ==> s[|SharpsOrFlats(alt)|] == q[0];
    PrefixByCharacters(s);
  }

  lemma PrefixByCharacters(s: string)
    ensures "##" <= s <==> |s| >= 2 && s[0] == '#' && s[1] == '#'
    ensures "bb" <= s <==> |s| >= 2 && s[0] == 'b' && s[1] == 'b'
    ensures "#" <= s <==> |s| >= 1 && s[0] == '#'
    ensures "b" <= s <==> |s| >= 1 && s[0] == 'b'
  {
  }

  /** A root reads back exactly when its quality could not be taken for more of it. */
  lemma RootReadsBackExactly(l: Letter, alt: int, q: string)
    requires -2 <= alt <= 2
    ensures PitchName(PitchNameText(l, alt) + q) == Some((l, alt, |PitchNameText(l, alt)|)) <==> StandsApart(alt, q)
    ensures (PitchNameText(l, alt) + q)[|PitchNameText(l, alt)|..] == q
  {
    var s := PitchNameText(l, alt) + q;
    assert s[0] == LetterChar(l);
    assert s[1..] == SharpsOrFlats(alt) + q;
    AccidentalReadsBack(alt, q);
  }

  lemma PitchNameReadsBack(l: Letter, alt: int, q: string)
    requires -2 <= alt <= 2 && StandsApart(alt, q)
    ensures PitchName(PitchNameText(l, alt) + q) == Some((l, alt, |PitchNameText(l, alt)|))
    ensures (PitchNameText(l, alt) + q)[|PitchNameText(l, alt)|..] == q
  {
    RootReadsBackExactly(l, alt, q);
  }

  /** A chord pitch moved and read back moves on to where one move would have put it. */
  lemma MovePitchChained(iv: Interval, jv: Interval, l: Letter, alt: int)
    ensures MovePitch(jv, MovedLetter(l, iv.steps), MovedAlt(l, alt, iv)) == MovePitch(Sum(iv, jv), l, alt)
  {
    LettersAdd(l, iv, jv);
    AltsAdd(l, alt, iv, jv);
  }

  lemma MovePitchWrites(iv: Interval, l: Letter, alt: int)
    requires MovePitch(iv, l, alt).Ok?
    ensures var l1, alt1 := MovedLetter(l, iv.steps), MovedAlt(l, alt, iv);
      -2 <= alt1 <= 2 && MovePitch(iv, l, alt) == Ok(PitchNameText(l1, alt1))
  {
  }

  lemma PitchNameTextHasNoSlash(l: Letter, alt: int)
    ensures '/' !in PitchNameText(l, alt)
  {
  }

  /** A bass written after a slash is the bass read back. */
  lemma BassReadsBack(q: string, l: Letter, alt: int)
    requires -2 <= alt <= 2
    ensures Bass(q + "/" + PitchNameText(l, alt)) == Some((|q|, l, alt))
  {
    var text := PitchNameText(l, alt);
    var s := q + "/" + text;
    PitchNameTextHasNoSlash(l, alt);
    assert s[|q|] == '/';
    assert forall j :: |q| < j < |s| ==> s[j] == text[j - |q| - 1];
    assert LastIndexOf(s, '/') == |q|;
    assert s[|q| + 1..] == text;
    PitchNameReadsBack(l, alt, "");
    assert text + "" == text;
  }

  lemma MoveQualityChained(iv: Interval, jv: Interval, q: string)
    requires MoveQuality(iv, q).Ok?
    ensures MoveQuality(jv, MoveQuality(iv, q).value) == MoveQuality(Sum(iv, jv), q)
  {
    match Bass(q) {
      case None =>
      case Some((slash, l, alt)) =>
        MovePitchWrites(iv, l, alt);
        MovePitchChained(iv, jv, l, alt);
        var l1, alt1 := MovedLetter(l, iv.steps), MovedAlt(l, alt, iv);
        var q1 := q[..slash] + "/" + PitchNameText(l1, alt1);
        assert MoveQuality(iv, q).value == q1;
        BassReadsBack(q[..slash], l1, alt1);
        assert q1[..slash] == q[..slash];
    }
  }

  /** A moved quality starts as the quality did. */
  lemma QualityHead(iv: Interval, q: string, alt: int)
    requires MoveQuality(iv, q).Ok?
    ensures StandsApart(alt, MoveQuality(iv, q).value) <==> StandsApart(alt, q)
  {
    var q1 := MoveQuality(iv, q).value;
    assert q == "" <==> q1 == "";
    assert q != "" ==> q1[0] == q[0];
  }

  /** What a moved chord reads as: the moved root, and the quality with its bass moved. */
  lemma MovedChordReads(iv: Interval, sym: string)
    requires PitchName(sym).Some? && MoveChord(iv, sym).Ok? && ChordApart(iv, sym)
    ensures var (l, alt, n) := PitchName(sym).value;
      var moved := MoveChord(iv, sym).value;
      var l1, alt1 := MovedLetter(l, iv.steps), MovedAlt(l, alt, iv);
      && MoveQuality(iv, sym[n..]).Ok? && -2 <= alt1 <= 2
      && PitchName(moved) == Some((l1, alt1, |PitchNameText(l1, alt1)|))
      && moved == PitchNameText(l1, alt1) + MoveQuality(iv, sym[n..]).value
      && moved[|PitchNameText(l1, alt1)|..] == MoveQuality(iv, sym[n..]).value
  {
    var (l, alt, n) := PitchName(sym).value;
    MovePitchWrites(iv, l, alt);
    QualityHead(iv, sym[n..], MovedAlt(l, alt, iv));
    PitchNameReadsBack(MovedLetter(l, iv.steps), MovedAlt(l, alt, iv), MoveQuality(iv, sym[n..]).value);
  }

  lemma MoveChordChained(iv: Interval, jv: Interval, sym: string)
    requires ChordApart(iv, sym) && MoveChord(iv, sym).Ok?
    ensures MoveChord(jv, MoveChord(iv, sym).value) == MoveChord(Sum(iv, jv), sym)
  {
    match PitchName(sym) {
      case None =>
      case Some((l, alt, n)) =>
        MovedChordReads(iv, sym);
        MoveQualityChained(iv, jv, sym[n..]);
        MovePitchChained(iv, jv, l, alt);
    }
  }

  lemma PitchNameIsItsText(s: string)
    requires PitchName(s).Some?
    ensures var (l, alt, n) := PitchName(s).value; s[..n] == PitchNameText(l, alt)
  {
    var (l, alt, n) := PitchName(s).value;
    PrefixByCharacters(s[1..]);
    assert s[0] == LetterChar(l);
    if n == 1 {
      assert s[..1] == [s[0]];
    } else if n == 2 {
      assert s[1..][0] == s[1];
      assert s[..2] == [s[0], s[1]];
    } else {
      assert s[1..][0] == s[1] && s[1..][1] == s[2];
      assert s[..3] == [s[0], s[1], s[2]];
    }
  }

  lemma NoMove(iv: Interval, l: Letter, alt: int)
    requires iv.semitones == 0 && iv.steps == 0
    ensures MovedLetter(l, iv.steps) == l && MovedAlt(l, alt, iv) == alt
  {
    EuclideanUnique(l + iv.steps, 7, 0, l);
  }

  lemma PitchByNothing(iv: Interval, s: string)
    requires iv.semitones == 0 && iv.steps == 0 && PitchName(s).Some?
    ensures var (l, alt, n) := PitchName(s).value; MovePitch(iv, l, alt) == Ok(s[..n])
  {
    var (l, alt, n) := PitchName(s).value;
    NoMove(iv, l, alt);
    PitchNameIsItsText(s);
  }

  /** An interval that leaves every written chord pitch as it is. */
  ghost predicate Still(iv: Interval) {
    forall s: string :: PitchName(s).Some? ==>
      MovePitch(iv, PitchName(s).value.0, PitchName(s).value.1) == Ok(s[..PitchName(s).value.2])
  }

  lemma NothingIsStill(iv: Interval)
    requires iv.semitones == 0 && iv.steps == 0
    ensures Still(iv)
  {
    forall s: string | PitchName(s).Some?
      ensures MovePitch(iv, PitchName(s).value.0, PitchName(s).value.1) == Ok(s[..PitchName(s).value.2])
    {
      PitchByNothing(iv, s);
    }
  }

  lemma QualityStill(iv: Interval, q: string)
    requires Still(iv)
    ensures MoveQuality(iv, q) == Ok(q)
  {
    match Bass(q) {
      case None =>
      case Some((slash, l, alt)) =>
        var bass := q[slash + 1..];
        assert bass[..|bass|] == bass;
        assert MovePitch(iv, l, alt) == Ok(bass);
        assert q == q[..slash] + "/" + bass;
    }
  }

  lemma ChordFromParts(iv: Interval, sym: string, root: string, quality: string)
    requires PitchName(sym).Some?
    requires var (l, alt, n) := PitchName(sym).value; MovePitch(iv, l, alt) == Ok(root) && MoveQuality(iv, sym[n..]) == Ok(quality)
    ensures MoveChord(iv, sym) == Ok(root + quality)
  {
  }

  lemma ChordStill(iv: Interval, sym: string)
    requires Still(iv)
    ensures MoveChord(iv, sym) == Ok(sym)
  {
    if PitchName(sym).Some? {
      var n := PitchName(sym).value.2;
      QualityStill(iv, sym[n..]);
      ChordFromParts(iv, sym, sym[..n], sym[n..]);
      assert sym == sym[..n] + sym[n..];
    }
  }

  function Back(iv: Interval): Interval {
    Interval(-iv.semitones, -iv.steps)
  }

  /** A chord symbol moved by an interval and back is what it was, character for character. */
  lemma ChordThereAndBack(iv: Interval, sym: string)
    requires ChordApart(iv, sym) && MoveChord(iv, sym).Ok?
    ensures MoveChord(Back(iv), MoveChord(iv, sym).value) == Ok(sym)
  {
    MoveChordChained(iv, Back(iv), sym);
    NothingIsStill(Sum(iv, Back(iv)));
    ChordStill(Sum(iv, Back(iv)), sym);
  }

  // ---------- Three rewriters in step ----------

  /**
    `a` is the first pass, `b` the second pass over its output, `c` the direct
    pass. They have marked corresponding letters, and `b` remembers accidentals
    only on letters `a` marked.
  */
  ghost predicate Chained(a: State, b: State, c: State) {
    && a.keyed == b.keyed == c.keyed
    && StateOk(a) && StateOk(b) && StateOk(c)
    && (a.keyed ==>
      && c.iv == Sum(a.iv, b.iv)
      && a.srcSig == c.srcSig && a.dstSig == b.srcSig && b.dstSig == c.dstSig
      && a.srcBar == c.srcBar
      && SameMarks(a, b, c)
      && RemembersMarked(a, b))
  }

  ghost predicate RemembersMarked(a: State, b: State) {
    forall k :: k in b.srcBar ==> a.touched[Mod(k, 7)]
  }

  ghost predicate SameMarks(a: State, b: State, c: State) {
    forall l: Letter :: Marked(a, l) == Marked(c, l) == Marked(b, MovedLetter(l, a.iv.steps))
  }

  /** Whether the letter that source letter `l` moves to has been marked this bar. */
  ghost predicate Marked(st: State, l: Letter) {
    st.touched[MovedLetter(l, st.iv.steps)]
  }

  lemma MovedLetterInjective(l: Letter, m: Letter, steps: int)
    ensures MovedLetter(l, steps) == MovedLetter(m, steps) ==> l == m
  {
    if MovedLetter(l, steps) == MovedLetter(m, steps) {
      var p, q := FloorDiv(l + steps, 7), FloorDiv(m + steps, 7);
      assert l - m == 7 * (p - q);
    }
  }

  lemma MarkingOneLetter(st: State, st': State, l: Letter, mark: bool)
    requires st'.iv == st.iv
    requires st'.touched == if mark then st.touched[MovedLetter(l, st.iv.steps) := true] else st.touched
    ensures forall m: Letter :: Marked(st', m) == (Marked(st, m) || (mark && m == l))
  {
    forall m: Letter
      ensures Marked(st', m) == (Marked(st, m) || (mark && m == l))
    {
      MovedLetterInjective(m, l, st.iv.steps);
    }
  }

  /** A note is marked when it leaves its signature or its letter is marked: the same test in every pass. */
  lemma MarkedAlike(st: State, acc: Option<int>, letter: Letter, octave: int)
    requires st.keyed && StateOk(st) && MoveNote(st, acc, letter, octave).Ok?
    ensures var (st', u) := MoveNote(st, acc, letter, octave).value;
      var mark := ReadAlt(st, acc, letter, octave) != st.srcSig[letter] || Marked(st, letter);
      && u.acc == (if mark then Some(MovedAlt(letter, ReadAlt(st, acc, letter, octave), st.iv)) else None)
      && st'.touched == (if mark then st.touched[MovedLetter(letter, st.iv.steps) := true] else st.touched)
      && (mark ==> Marked(st', letter))
  {
    NoteMoves(st, acc, letter, octave);
    assert MovedAlt(letter, st.srcSig[letter], st.iv) == st.dstSig[MovedLetter(letter, st.iv.steps)];
  }

  lemma UnmarkedNote(a: State, t: Token)
    requires t.Note? && MoveToken(a, t).Ok?
    ensures var u := MoveToken(a, t).value.1;
      var alt1 := MovedAlt(t.letter, ReadAlt(a, t.acc, t.letter, t.octave), a.iv);
      && u.letter == MovedLetter(t.letter, a.iv.steps)
      && (u.acc.Some? ==> u.acc.value == alt1)
      && (u.acc.None? ==> alt1 == a.dstSig[u.letter] && !a.touched[u.letter])
  {
    NoteMoves(a, t.acc, t.letter, t.octave);
  }

  lemma PositionLetter(l: Letter, octave: int)
    ensures Mod(l + 7 * octave, 7) == l
  {
    EuclideanUnique(l + 7 * octave, 7, octave, l);
  }

  lemma WrittenNoteReads(a: State, b: State, acc: Option<int>, l: Letter, octave: int, alt: int)
    requires a.dstSig == b.srcSig && RemembersMarked(a, b)
    requires acc.Some? ==> acc.value == alt
    requires acc.None? ==> alt == a.dstSig[l] && !a.touched[l]
    ensures ReadAlt(b, acc, l, octave) == alt
  {
    PositionLetter(l, octave);
  }

  /** The second pass reads each note with the alteration the first pass gave it. */
  lemma SecondPassReads(a: State, b: State, t: Token)
    requires t.Note? && a.dstSig == b.srcSig && RemembersMarked(a, b) && MoveToken(a, t).Ok?
    ensures var u := MoveToken(a, t).value.1;
      ReadAlt(b, u.acc, u.letter, u.octave) == MovedAlt(t.letter, ReadAlt(a, t.acc, t.letter, t.octave), a.iv)
  {
    var u, alt := MoveToken(a, t).value.1, MovedAlt(t.letter, ReadAlt(a, t.acc, t.letter, t.octave), a.iv);
    UnmarkedNote(a, t);
    WrittenNoteReads(a, b, u.acc, u.letter, u.octave, alt);
  }

  /** The pitch the second pass writes is the pitch the direct pass writes. */
  lemma NoteTargetsAgree(a: State, b: State, c: State, t: Token)
    requires t.Note? && a.keyed && Chained(a, b, c) && MoveToken(a, t).Ok?
    ensures var u := MoveToken(a, t).value.1;
      && MovedLetter(u.letter, b.iv.steps) == MovedLetter(t.letter, c.iv.steps)
      && MovedOctave(u.letter, u.octave, b.iv.steps) == MovedOctave(t.letter, t.octave, c.iv.steps)
      && MovedAlt(u.letter, ReadAlt(b, u.acc, u.letter, u.octave), b.iv)
         == MovedAlt(t.letter, ReadAlt(c, t.acc, t.letter, t.octave), c.iv)
  {
    SecondPassReads(a, b, t);
    NoteMoves(a, t.acc, t.letter, t.octave);
    LettersAdd(t.letter, a.iv, b.iv);
    AltsAdd(t.letter, ReadAlt(a, t.acc, t.letter, t.octave), a.iv, b.iv);
  }

  /** The second pass and the direct pass write the same note or refuse alike. */
  lemma NoteTextsAgree(a: State, b: State, c: State, t: Token)
    requires t.Note? && a.keyed && Chained(a, b, c) && MoveToken(a, t).Ok?
    ensures var u := MoveToken(a, t).value.1;
      match MoveToken(c, t)
      case Err(e) => MoveToken(b, u) == Err(e)
      case Ok((_, w)) => MoveToken(b, u).Ok? && (var v := MoveToken(b, u).value.1;
        v.Note? && w.Note? && v.letter == w.letter && v.octave == w.octave
        && (v.acc.Some? && w.acc.Some? ==> v.acc == w.acc))
  {
    var u := MoveToken(a, t).value.1;
    NoteTargetsAgree(a, b, c, t);
    WritesAgree(b, c, BarAfter(b, u.acc, u.letter, u.octave), BarAfter(c, t.acc, t.letter, t.octave),
      MovedLetter(t.letter, c.iv.steps), MovedOctave(t.letter, t.octave, c.iv.steps),
      MovedAlt(t.letter, ReadAlt(c, t.acc, t.letter, t.octave), c.iv));
  }

  lemma WritesAgree(b: State, c: State, bBar: map<int, int>, cBar: map<int, int>, l: Letter, octave: int, alt: int)
    ensures var v, w := WriteNote(b, bBar, l, octave, alt), WriteNote(c, cBar, l, octave, alt);
      && (v.Ok? <==> w.Ok?)
      && (w.Err? ==> v == Err(w.error))
      && (w.Ok? ==> v.value.1.Note? && w.value.1.Note?)
      && (w.Ok? ==> v.value.1.letter == w.value.1.letter && v.value.1.octave == w.value.1.octave)
      && (w.Ok? && v.value.1.acc.Some? && w.value.1.acc.Some? ==> v.value.1.acc == w.value.1.acc)
  {
  }

  /** One note through three passes: same text from `b` as from `c`, and still in step. */
  lemma NoteChained(a: State, b: State, c: State, t: Token)
    requires t.Note? && a.keyed && Chained(a, b, c) && MoveToken(a, t).Ok?
    ensures var (a', u) := MoveToken(a, t).value;
      match MoveToken(c, t)
      case Err(e) => MoveToken(b, u) == Err(e)
      case Ok((c', w)) => MoveToken(b, u).Ok? && MoveToken(b, u).value.1 == w
                          && Chained(a', MoveToken(b, u).value.0, c')
  {
    NoteTextsAgree(a, b, c, t);
    if MoveToken(c, t).Ok? {
      SecondPassMarks(a, b, c, t);
      NoteStatesChained(a, b, c, t);
    }
  }

  lemma NoteStatesChained(a: State, b: State, c: State, t: Token)
    requires t.Note? && a.keyed && Chained(a, b, c)
    requires MoveToken(a, t).Ok? && MoveToken(c, t).Ok? && MoveToken(b, MoveToken(a, t).value.1).Ok?
    ensures Chained(MoveToken(a, t).value.0, MoveToken(b, MoveToken(a, t).value.1).value.0, MoveToken(c, t).value.0)
  {
    var (a', u) := MoveToken(a, t).value;
    var mark := ReadAlt(a, t.acc, t.letter, t.octave) != a.srcSig[t.letter] || Marked(a, t.letter);
    SecondPassMarks(a, b, c, t);
    NoteMoves(a, t.acc, t.letter, t.octave);
    NoteMoves(b, u.acc, u.letter, u.octave);
    NoteMoves(c, t.acc, t.letter, t.octave);
    NoteStaysChained(a, b, c, a', MoveToken(b, u).value.0, MoveToken(c, t).value.0, t, u, mark);
  }

  /** All three passes mark a note, or none does. */
  lemma SecondPassMarks(a: State, b: State, c: State, t: Token)
    requires t.Note? && a.keyed && Chained(a, b, c)
    requires MoveToken(a, t).Ok? && MoveToken(c, t).Ok? && MoveToken(b, MoveToken(a, t).value.1).Ok?
    ensures var (a', u) := MoveToken(a, t).value;
      var (b', v) := MoveToken(b, u).value;
      var (c', w) := MoveToken(c, t).value;
      var mark := ReadAlt(a, t.acc, t.letter, t.octave) != a.srcSig[t.letter] || Marked(a, t.letter);
      && (u.acc.Some? <==> mark) && (v.acc.Some? <==> mark) && (w.acc.Some? <==> mark)
      && a'.touched == (if mark then a.touched[MovedLetter(t.letter, a.iv.steps) := true] else a.touched)
      && b'.touched == (if mark then b.touched[MovedLetter(u.letter, b.iv.steps) := true] else b.touched)
      && c'.touched == (if mark then c.touched[MovedLetter(t.letter, c.iv.steps) := true] else c.touched)
  {
    var u := MoveToken(a, t).value.1;
    SecondPassReads(a, b, t);
    NoteMoves(a, t.acc, t.letter, t.octave);
    MarkedAlike(a, t.acc, t.letter, t.octave);
    MarkedAlike(b, u.acc, u.letter, u.octave);
    MarkedAlike(c, t.acc, t.letter, t.octave);
    GapIsKept(a, t.letter, ReadAlt(a, t.acc, t.letter, t.octave));
    assert Marked(a, t.letter) == Marked(c, t.letter) == Marked(b, MovedLetter(t.letter, a.iv.steps));
  }

  lemma GapIsKept(st: State, l: Letter, alt: int)
    requires st.keyed && StateOk(st)
    ensures MovedAlt(l, alt, st.iv) == st.dstSig[MovedLetter(l, st.iv.steps)] <==> alt == st.srcSig[l]
  {
    assert MovedAlt(l, st.srcSig[l], st.iv) == st.dstSig[MovedLetter(l, st.iv.steps)];
  }

  lemma NoteStaysChained(a: State, b: State, c: State, a': State, b': State, c': State, t: Token, u: Token, mark: bool)
    requires t.Note? && u.Note? && a.keyed && Chained(a, b, c)
    requires u.letter == MovedLetter(t.letter, a.iv.steps)
    requires u.acc.Some? <==> mark
    requires a' == a.(srcBar := a'.srcBar, touched := a'.touched)
    requires b' == b.(srcBar := b'.srcBar, touched := b'.touched)
    requires c' == c.(srcBar := c'.srcBar, touched := c'.touched)
    requires a'.srcBar == c'.srcBar
    requires b'.srcBar == if u.acc.Some? then b.srcBar[u.letter + 7 * u.octave := u.acc.value] else b.srcBar
    requires a'.touched == if mark then a.touched[MovedLetter(t.letter, a.iv.steps) := true] else a.touched
    requires b'.touched == if mark then b.touched[MovedLetter(u.letter, b.iv.steps) := true] else b.touched
    requires c'.touched == if mark then c.touched[MovedLetter(t.letter, c.iv.steps) := true] else c.touched
    ensures Chained(a', b', c')
  {
    MarkingOneLetter(a, a', t.letter, mark);
    MarkingOneLetter(b, b', u.letter, mark);
    MarkingOneLetter(c, c', t.letter, mark);
    forall l: Letter
      ensures Marked(a', l) == Marked(c', l) == Marked(b', MovedLetter(l, a'.iv.steps))
    {
      assert Marked(a, l) == Marked(c, l) == Marked(b, MovedLetter(l, a.iv.steps));
      MovedLetterInjective(l, t.letter, a.iv.steps);
    }
    PositionLetter(u.letter, u.octave);
    forall k | k in b'.srcBar
      ensures a'.touched[Mod(k, 7)]
    {
      if k in b.srcBar {
        assert a.touched[Mod(k, 7)];
      }
    }
  }

  /** Keys through three passes. */
  lemma TargetsChained(a: State, b: State, c: State, from: Key, m: int, n: int)
    requires Chained(a, b, c) && TargetFor(a, from, m).Ok?
    ensures var (mid, iv) := TargetFor(a, from, m).value;
      match TargetFor(c, from, m + n)
      case Err(e) => TargetFor(b, mid, n) == Err(e)
      case Ok((to, kv)) => TargetFor(b, mid, n).Ok? && TargetFor(b, mid, n).value.0 == to
                           && kv == Sum(iv, TargetFor(b, mid, n).value.1)
  {
    if a.keyed {
      MoveKeysAdd(from, a.iv, b.iv);
    } else {
      TargetsCompose(from, m, n);
    }
  }

  lemma FreshBarIsChained(a: State, b: State, c: State)
    requires a.keyed && b.keyed && c.keyed && StateOk(a) && StateOk(b) && StateOk(c)
    requires c.iv == Sum(a.iv, b.iv)
    requires a.srcSig == c.srcSig && a.dstSig == b.srcSig && b.dstSig == c.dstSig
    requires a.srcBar == b.srcBar == c.srcBar == map[] && a.touched == b.touched == c.touched == UNTOUCHED
    ensures Chained(a, b, c)
  {
    forall l: Letter
      ensures Marked(a, l) == Marked(c, l) == Marked(b, MovedLetter(l, a.iv.steps))
    {
    }
  }

  /** The states of the three passes after a key change. */
  lemma KeysChained(from: Key, mid: Key, to: Key, iv: Interval, jv: Interval)
    requires KeyFifths(mid) == KeyFifths(from) + Delta(iv) && KeyFifths(to) == KeyFifths(mid) + Delta(jv)
    requires -13 <= Delta(iv) <= 12 && -13 <= Delta(jv) <= 12 && -13 <= Delta(Sum(iv, jv)) <= 12
    ensures Chained(KeyedState(from, mid, iv), KeyedState(mid, to, jv), KeyedState(from, to, Sum(iv, jv)))
  {
    DeltasAdd(iv, jv);
    KeyedStateOk(from, mid, iv);
    KeyedStateOk(mid, to, jv);
    KeyedStateOk(from, to, Sum(iv, jv));
    FreshBarIsChained(KeyedState(from, mid, iv), KeyedState(mid, to, jv), KeyedState(from, to, Sum(iv, jv)));
  }

  /** What the three passes make of a key, given the keys they choose. */
  lemma ChosenKeysChained(a: State, b: State, c: State, from: Key, mid: Key, to: Key, iv: Interval, jv: Interval, rest: string, m: int, n: int)
    requires TargetFor(a, from, m) == Ok((mid, iv)) && TargetFor(b, mid, n) == Ok((to, jv))
    requires TargetFor(c, from, m + n) == Ok((to, Sum(iv, jv)))
    requires Chained(KeyedState(from, mid, iv), KeyedState(mid, to, jv), KeyedState(from, to, Sum(iv, jv)))
    ensures ChangeKey(a, from, rest, m).Ok? && ChangeKey(b, mid, rest, n).Ok? && ChangeKey(c, from, rest, m + n).Ok?
    ensures ChangeKey(b, mid, rest, n).value.1 == ChangeKey(c, from, rest, m + n).value.1
    ensures Chained(ChangeKey(a, from, rest, m).value.0, ChangeKey(b, mid, rest, n).value.0, ChangeKey(c, from, rest, m + n).value.0)
  {
  }

  lemma TargetsAreChained(a: State, b: State, c: State, from: Key, m: int, n: int)
    requires Chained(a, b, c) && Accepted(from) && TargetFor(a, from, m).Ok? && TargetFor(c, from, m + n).Ok?
    ensures var (mid, iv) := TargetFor(a, from, m).value;
      && TargetFor(b, mid, n).Ok?
      && var (to, jv) := TargetFor(b, mid, n).value;
         && TargetFor(c, from, m + n) == Ok((to, Sum(iv, jv)))
         && Chained(KeyedState(from, mid, iv), KeyedState(mid, to, jv), KeyedState(from, to, Sum(iv, jv)))
  {
    TargetsChained(a, b, c, from, m, n);
    var (mid, iv) := TargetFor(a, from, m).value;
    var (to, jv) := TargetFor(b, mid, n).value;
    TargetDistance(a, from, m, mid, iv);
    TargetDistance(b, mid, n, to, jv);
    TargetDistance(c, from, m + n, to, Sum(iv, jv));
    KeysChained(from, mid, to, iv, jv);
  }

  /** Only how far the key moved. */
  lemma TargetDistance(st: State, from: Key, semitones: int, to: Key, iv: Interval)
    requires StateOk(st) && Accepted(from) && TargetFor(st, from, semitones) == Ok((to, iv))
    ensures Accepted(to) && -13 <= Delta(iv) <= 12 && KeyFifths(to) == KeyFifths(from) + Delta(iv)
  {
    TargetForMoves(st, from, semitones);
  }

  lemma ChangeKeyChained(a: State, b: State, c: State, from: Key, rest: string, m: int, n: int)
    requires Chained(a, b, c) && Accepted(from) && ChangeKey(a, from, rest, m).Ok?
    ensures var mid := TargetFor(a, from, m).value.0;
      && Accepted(mid) && ChangeKey(a, from, rest, m).value.1 == KeyText(mid, rest)
      && match ChangeKey(c, from, rest, m + n)
         case Err(e) => ChangeKey(b, mid, rest, n) == Err(e)
         case Ok((c', final)) =>
           && ChangeKey(b, mid, rest, n).Ok? && ChangeKey(b, mid, rest, n).value.1 == final
           && Chained(ChangeKey(a, from, rest, m).value.0, ChangeKey(b, mid, rest, n).value.0, c')
  {
    TargetForMoves(a, from, m);
    var (mid, iv) := TargetFor(a, from, m).value;
    if TargetFor(c, from, m + n).Ok? {
      TargetsAreChained(a, b, c, from, m, n);
      var (to, jv) := TargetFor(b, mid, n).value;
      ChosenKeysChained(a, b, c, from, mid, to, iv, jv, rest, m, n);
    } else {
      TargetsChained(a, b, c, from, m, n);
    }
  }

  lemma KeyedStateOk(from: Key, to: Key, iv: Interval)
    requires -13 <= Delta(iv) <= 12 && KeyFifths(to) == KeyFifths(from) + Delta(iv)
    ensures StateOk(KeyedState(from, to, iv))
  {
    SignatureOfMovedKey(KeyFifths(from), iv);
  }

  lemma SetKeyChained(a: State, b: State, c: State, value: string, m: int, n: int)
    requires Chained(a, b, c) && SetKey(a, value, m).Ok?
    ensures var (a', text) := SetKey(a, value, m).value;
      match SetKey(c, value, m + n)
      case Err(e) => SetKey(b, text, n) == Err(e)
      case Ok((c', final)) => SetKey(b, text, n).Ok? && SetKey(b, text, n).value.1 == final
                              && Chained(a', SetKey(b, text, n).value.0, c')
  {
    var (name, rest) := CutAtSpace(TrimSpace(value));
    ParsedKeyIsAccepted(name);
    var from := ParseKey(name).value;
    ChangeKeyChained(a, b, c, from, rest, m, n);
    RestHasNoTrailingSpace(value);
    var mid := TargetFor(a, from, m).value.0;
    KeyTextReadsBack(mid, rest);
    assert SetKey(b, KeyText(mid, rest), n) == ChangeKey(b, mid, rest, n);
  }

  lemma BarChained(a: State, b: State, c: State)
    requires a.keyed && Chained(a, b, c)
    ensures Chained(ResetBar(a), ResetBar(b), ResetBar(c))
  {
    assert forall st: State :: SignaturesMoved(ResetBar(st)) == SignaturesMoved(st);
    FreshBarIsChained(ResetBar(a), ResetBar(b), ResetBar(c));
  }

  lemma InlineChained(a: State, b: State, c: State, t: Token)
    requires t.Inline? && a.keyed && Chained(a, b, c) && MoveToken(a, t).Ok?
    ensures var (a', u) := MoveToken(a, t).value;
      match MoveToken(c, t)
      case Err(e) => MoveToken(b, u) == Err(e)
      case Ok((c', w)) => MoveToken(b, u).Ok? && MoveToken(b, u).value.1 == w
                          && Chained(a', MoveToken(b, u).value.0, c')
  {
    if "K" <= t.text && |t.text| >= 2 {
      SetKeyChained(a, b, c, t.text[2..], a.iv.semitones, b.iv.semitones);
      var k := SetKey(a, t.text[2..], a.iv.semitones).value.1;
      assert ("K:" + k)[2..] == k;
    }
  }

  lemma QuotedChained(a: State, b: State, c: State, t: Token)
    requires t.Quoted? && a.keyed && Chained(a, b, c) && ChordApart(a.iv, t.text) && MoveToken(a, t).Ok?
    ensures var (a', u) := MoveToken(a, t).value;
      && a' == a && u.Quoted?
      && match MoveToken(c, t)
         case Err(e) => MoveToken(b, u) == Err(e)
         case Ok((c', w)) => c' == c && MoveToken(b, u) == Ok((b, w))
  {
    MoveChordChained(a.iv, b.iv, t.text);
  }

  lemma TokenChained(a: State, b: State, c: State, t: Token)
    requires a.keyed && Chained(a, b, c) && (t.Quoted? ==> ChordApart(a.iv, t.text)) && MoveToken(a, t).Ok?
    ensures var (a', u) := MoveToken(a, t).value;
      match MoveToken(c, t)
      case Err(e) => MoveToken(b, u) == Err(e)
      case Ok((c', w)) => MoveToken(b, u).Ok? && MoveToken(b, u).value.1 == w
                          && Chained(a', MoveToken(b, u).value.0, c')
  {
    if t.Note? {
      NoteChained(a, b, c, t);
    } else if t.Quoted? {
      QuotedChained(a, b, c, t);
    } else if t.Inline? {
      InlineChained(a, b, c, t);
    } else if t.Bar? {
      BarChained(a, b, c);
    }
  }

  lemma {:induction false} TokensChained(a: State, b: State, c: State, toks: seq<Token>)
    requires a.keyed && Chained(a, b, c) && MoveTokens(a, toks).Ok? && ChordsApart(a.iv, toks)
    ensures var (a', us) := MoveTokens(a, toks).value;
      match MoveTokens(c, toks)
      case Err(e) => MoveTokens(b, us) == Err(e)
      case Ok((c', ws)) => MoveTokens(b, us).Ok? && MoveTokens(b, us).value.1 == ws
                           && Chained(a', MoveTokens(b, us).value.0, c')
    decreases |toks|
  {
    if toks != [] {
      TokenChained(a, b, c, toks[0]);
      TokenKeepsState(a, toks[0]);
      var (a1, u) := MoveToken(a, toks[0]).value;
      var us := MoveTokens(a1, toks[1..]).value.1;
      assert ([u] + us)[1..] == us;
      assert forall i :: 0 <= i < |toks[1..]| ==> toks[1..][i] == toks[i + 1];
      if MoveToken(c, toks[0]).Ok? {
        TokensChained(a1, MoveToken(b, u).value.0, MoveToken(c, toks[0]).value.0, toks[1..]);
      }
    }
  }

  // ---------- Lines and scores ----------

  lemma ResetIsChained(a: State, b: State, c: State)
    requires a.keyed && Chained(a, b, c)
    ensures Chained(ResetBar(a), ResetBar(b), ResetBar(c))
  {
    BarChained(a, b, c);
  }

  lemma LineChained(a: State, b: State, c: State, line: string, m: int, n: int)
    requires Chained(a, b, c) && MoveLine(a, line, m).Ok?
    requires KindOf(a.keyed, line) == Music ==> NotesApart(ResetBar(a), Lex(line)) && ChordsApart(a.iv, Lex(line))
    ensures var (a', out) := MoveLine(a, line, m).value;
      match MoveLine(c, line, m + n)
      case Err(e) => MoveLine(b, out, n) == Err(e)
      case Ok((c', final)) => MoveLine(b, out, n).Ok? && MoveLine(b, out, n).value.1 == final
                              && Chained(a', MoveLine(b, out, n).value.0, c')
  {
    KindIsKept(a, line, m);
    match KindOf(a.keyed, line) {
      case KeyLine(value) => SetKeyChained(a, b, c, value, m, n);
      case Copied =>
      case Music =>
        MovedMusicScansExactly(ResetBar(a), line);
        ResetIsChained(a, b, c);
        TokensChained(ResetBar(a), ResetBar(b), ResetBar(c), Lex(line));
    }
  }

  lemma {:induction false} LinesChained(a: State, b: State, c: State, lines: seq<string>, m: int, n: int)
    requires Chained(a, b, c) && MoveLines(a, lines, m).Ok?
    requires NotesLegibleLines(a, lines, m) && ChordsLegibleLines(a, lines, m)
    ensures var (a', outs) := MoveLines(a, lines, m).value;
      match MoveLines(c, lines, m + n)
      case Err(e) => MoveLines(b, outs, n) == Err(e)
      case Ok((c', finals)) => MoveLines(b, outs, n).Ok? && MoveLines(b, outs, n).value.1 == finals
                               && a'.keyed == MoveLines(b, outs, n).value.0.keyed == c'.keyed
    decreases |lines|
  {
    if lines != [] {
      LineChained(a, b, c, lines[0], m, n);
      LineKeepsState(a, lines[0], m);
      var (a1, out) := MoveLine(a, lines[0], m).value;
      var outs := MoveLines(a1, lines[1..], m).value.1;
      assert ([out] + outs)[1..] == outs;
      if MoveLine(c, lines[0], m + n).Ok? {
        LinesChained(a1, MoveLine(b, out, n).value.0, MoveLine(c, lines[0], m + n).value.0, lines[1..], m, n);
      }
    }
  }

  /** Rewriting by m and then by n gives, text for text and refusal for refusal, rewriting by m + n. */
  lemma RewriteComposes(score: string, m: int, n: int)
    requires Legible(score, m) && Rewrite(score, m).Ok?
    ensures Rewrite(Rewrite(score, m).value, n) == Rewrite(score, m + n)
  {
    LinesChained(START, START, START, Split(score, '\n'), m, n);
    RewrittenScoreSplits(score, m);
  }

  lemma TransposeComposes(score: string, m: int, n: int)
    requires Legible(score, m) && Transpose(score, m).Ok? && m != 0
    requires -12 < n < 12 && n != 0
    requires -12 < m + n < 12 && m + n != 0
    ensures Transpose(Transpose(score, m).value, n) == Transpose(score, m + n)
  {
    RewriteComposes(score, m, n);
  }

  /** A score the rewriter has printed: its header key has the preferred spelling. */
  ghost predicate Canonical(score: string) {
    exists s: string, k: int :: Printed(score, s, k)
  }

  ghost predicate Printed(score: string, s: string, k: int) {
    Legible(s, k) && Rewrite(s, k) == Ok(score)
  }

  lemma PrintedIsFixed(score: string, s: string, k: int, zero: int)
    requires Printed(score, s, k) && zero == 0
    ensures Rewrite(score, zero) == Ok(score)
  {
    RewriteComposes(s, k, zero);
    assert k + zero == k;
  }

  /** Rewriting a canonical score by nothing changes nothing. */
  lemma CanonicalIsFixed(score: string, zero: int)
    requires Canonical(score) && zero == 0
    ensures Rewrite(score, zero) == Ok(score)
  {
    var s: string, k: int :| Printed(score, s, k);
    PrintedIsFixed(score, s, k, zero);
  }

  lemma RewriteInverts(score: string, n: int, back: int)
    requires Canonical(score) && Legible(score, n) && Rewrite(score, n).Ok? && n + back == 0
    ensures Rewrite(Rewrite(score, n).value, back) == Ok(score)
  {
    CanonicalIsFixed(score, n + back);
    RewriteComposes(score, n, back);
  }

  lemma OutAndBack(score: string, moved: string, n: int, back: int)
    requires n + back == 0 && Transpose(score, n) == Ok(moved)
    requires n != 0 ==> Rewrite(score, n).Ok? && Rewrite(Rewrite(score, n).value, back) == Ok(score)
    ensures Transpose(moved, back) == Ok(score)
  {
  }

  lemma RewriteInvertsUnlessZero(score: string, n: int, back: int)
    requires Canonical(score) && Legible(score, n) && n + back == 0 && (n != 0 ==> Rewrite(score, n).Ok?)
    ensures n != 0 ==> Rewrite(Rewrite(score, n).value, back) == Ok(score)
  {
    if n != 0 {
      RewriteInverts(score, n, back);
    }
  }

  /** There and back: from a canonical score, n and then -n restores the text exactly. */
  lemma TransposeInverts(score: string, n: int, back: int)
    requires Canonical(score) && Legible(score, n) && Transpose(score, n).Ok? && n + back == 0
    ensures Transpose(Transpose(score, n).value, back) == Ok(score)
  {
    RewriteInvertsUnlessZero(score, n, back);
    OutAndBack(score, Transpose(score, n).value, n, back);
  }
}
