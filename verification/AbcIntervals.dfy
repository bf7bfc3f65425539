/**
  Choosing the key a transposition lands in, and moving keys and pitches by the
  interval that choice fixes.
*/
module AbcIntervals {
  import opened Prelude
  import opened GoArith
  import opened GoText
  import opened AbcKeys

  // ---------- Turns of twelve ----------

  lemma WrapTurns(a: int) returns (q: int)
    ensures a == WrapAlt(a) + 12 * q
  {
    q := FloorDiv(a + 6, 12);
  }

  lemma WrapIs(a: int, r: int, q: int)
    requires a == r + 12 * q && -6 <= r <= 5
    ensures WrapAlt(a) == r
  {
  }

  // ---------- Moving a spelled pitch is a shift along the line of fifths ----------

  function MovedLetter(l: Letter, steps: int): Letter {
    Mod(l + steps, 7)
  }

  /** The alteration that puts the moved letter exactly `semitones` above the source pitch. */
  function MovedAlt(l: Letter, alt: int, iv: Interval): int {
    Natural(l) + alt + iv.semitones
    - Natural(MovedLetter(l, iv.steps)) - 12 * FloorDiv(l + iv.steps, 7)
  }

  lemma MovingIsAShift(l: Letter, alt: int, iv: Interval)
    ensures Fifths(MovedLetter(l, iv.steps), MovedAlt(l, alt, iv)) == Fifths(l, alt) + Delta(iv)
  {
  }

  lemma MovedBounds(l: Letter, alt: int, iv: Interval)
    requires -2 <= alt <= 2 && -13 <= Delta(iv) <= 12
    ensures -4 <= MovedAlt(l, alt, iv) <= 4
  {
    MovingIsAShift(l, alt, iv);
  }

  /** Folding into -6..5 loses nothing: the moved alteration is never a whole octave out. */
  lemma WrapHidesNothing(l: Letter, alt: int, iv: Interval)
    requires -2 <= alt <= 2 && -13 <= Delta(iv) <= 12
    ensures WrapAlt(Natural(l) + alt + iv.semitones - Natural(MovedLetter(l, iv.steps)))
         == MovedAlt(l, alt, iv)
  {
    MovedBounds(l, alt, iv);
    WrapIs(Natural(l) + alt + iv.semitones - Natural(MovedLetter(l, iv.steps)),
      MovedAlt(l, alt, iv), FloorDiv(l + iv.steps, 7));
  }

  function Sum(iv: Interval, jv: Interval): Interval {
    Interval(iv.semitones + jv.semitones, iv.steps + jv.steps)
  }

  /** Intervals compose: moving twice is moving by the sum. */
  lemma LettersAdd(l: Letter, iv: Interval, jv: Interval)
    ensures MovedLetter(MovedLetter(l, iv.steps), jv.steps) == MovedLetter(l, Sum(iv, jv).steps)
    ensures FloorDiv(l + iv.steps, 7) + FloorDiv(MovedLetter(l, iv.steps) + jv.steps, 7)
         == FloorDiv(l + Sum(iv, jv).steps, 7)
  {
    var a := l + iv.steps;
    var m, q := MovedLetter(l, iv.steps), FloorDiv(a, 7);
    assert a == 7 * q + m;
    assert a + jv.steps == 7 * q + (m + jv.steps);
    EuclideanUnique(a + jv.steps, 7, q + FloorDiv(m + jv.steps, 7), Mod(m + jv.steps, 7));
  }

  lemma AltsAdd(l: Letter, alt: int, iv: Interval, jv: Interval)
    ensures MovedAlt(MovedLetter(l, iv.steps), MovedAlt(l, alt, iv), jv) == MovedAlt(l, alt, Sum(iv, jv))
  {
    var a := l + iv.steps;
    var m, q := MovedLetter(l, iv.steps), FloorDiv(a, 7);
    assert a == 7 * q + m;
    assert a + jv.steps == 7 * q + (m + jv.steps);
    EuclideanUnique(a + jv.steps, 7, q + FloorDiv(m + jv.steps, 7), Mod(m + jv.steps, 7));
  }

  // ---------- Signatures travel with the key ----------

  /** How far a spelled pitch stands below what the signature of n sharps gives its letter. */
  lemma SigGap(n: int, l: Letter, alt: int)
    ensures SigAlt(n, l) - alt == FloorDiv(n + 5 - Fifths(l, alt), 7)
  {
    assert n + 5 - LetterFifths(l) == 7 * alt + (n + 5 - Fifths(l, alt));
  }

  /**
    Written alteration minus target signature equals read alteration minus source
    signature: what is diatonic stays diatonic, what is altered stays as altered.
  */
  lemma SignatureTransport(n: int, l: Letter, alt: int, iv: Interval)
    ensures MovedAlt(l, alt, iv) - SigAlt(n + Delta(iv), MovedLetter(l, iv.steps)) == alt - SigAlt(n, l)
  {
    MovingIsAShift(l, alt, iv);
    SigGap(n, l, alt);
    SigGap(n + Delta(iv), MovedLetter(l, iv.steps), MovedAlt(l, alt, iv));
  }

  // ---------- The target key ----------

  lemma KeyAtFifths(n: int, minor: bool)
    ensures KeyFifths(KeyAt(n, minor)) == n
    ensures -7 <= n <= 7 ==> Accepted(KeyAt(n, minor))
  {
    var f := n + (if minor then 3 else 0);
    FifthsOnto(f);
  }

  lemma KeyIsAtItsFifths(k: Key)
    ensures k == KeyAt(KeyFifths(k), k.minor)
  {
    FifthsInvert(k.letter, k.alt);
  }

  /**
    The key the program lands in. It searches spellings for the fewest
    accidentals; on the circle of fifths that is the one place in -6..5 that is
    seven fifths per semitone away, up to a whole turn of twelve.
  */
  function TargetFifths(n: int, semitones: int): int {
    WrapAlt(n + 7 * semitones)
  }

  function TargetOf(from: Key, semitones: int): Key {
    KeyAt(TargetFifths(KeyFifths(from), semitones), from.minor)
  }

  /** The diatonic steps from the source tonic to the target tonic, `semitones` away. */
  function TargetSteps(from: Key, semitones: int): int {
    FloorDiv(7 * semitones + KeyFifths(from) - TargetFifths(KeyFifths(from), semitones), 12)
  }

  function TargetInterval(from: Key, semitones: int): Interval {
    Interval(semitones, TargetSteps(from, semitones))
  }

  /** The distance on the line of fifths to the target is a whole number of steps. */
  lemma WholeSteps(n: int, semitones: int)
    ensures var rest := 7 * semitones + n - TargetFifths(n, semitones); 12 * FloorDiv(rest, 12) == rest
  {
    EuclideanUnique(7 * semitones + n - TargetFifths(n, semitones), 12, FloorDiv(n + 7 * semitones + 6, 12), 0);
  }

  lemma TargetDelta(from: Key, semitones: int)
    ensures Delta(TargetInterval(from, semitones)) == TargetFifths(KeyFifths(from), semitones) - KeyFifths(from)
    ensures Accepted(TargetOf(from, semitones))
    ensures KeyFifths(TargetOf(from, semitones)) == TargetFifths(KeyFifths(from), semitones)
  {
    WholeSteps(KeyFifths(from), semitones);
    KeyAtFifths(TargetFifths(KeyFifths(from), semitones), from.minor);
  }

  /**
    The step count is the only one that carries the source tonic, at any octave,
    to the target tonic exactly `semitones` away.
  */
  lemma StepsReachTheTonic(from: Key, semitones: int, steps: int)
    requires Accepted(from)
    ensures var to := TargetOf(from, semitones);
      (MovedLetter(from.letter, steps) == to.letter
       && MovedAlt(from.letter, from.alt, Interval(semitones, steps)) == to.alt)
      <==> steps == TargetSteps(from, semitones)
  {
    var to, iv := TargetOf(from, semitones), Interval(semitones, steps);
    TargetDelta(from, semitones);
    MovingIsAShift(from.letter, from.alt, iv);
    if steps == TargetSteps(from, semitones) {
      assert Fifths(MovedLetter(from.letter, steps), MovedAlt(from.letter, from.alt, iv))
          == Fifths(to.letter, to.alt);
      FifthsInvert(to.letter, to.alt);
      FifthsInvert(MovedLetter(from.letter, steps), MovedAlt(from.letter, from.alt, iv));
    }
  }

  /** Within an octave either way, the exact step count is one the nearest-candidate search tries. */
  lemma StepsInReach(from: Key, semitones: int)
    requires Accepted(from) && -12 < semitones < 12
    ensures -7 <= TargetSteps(from, semitones) <= 7
  {
  }

  lemma TargetFifthsCompose(a: int, m: int, n: int)
    ensures TargetFifths(TargetFifths(a, m), n) == TargetFifths(a, m + n)
  {
    var q := WrapTurns(a + 7 * m);
    var p := WrapTurns(TargetFifths(a, m) + 7 * n);
    WrapIs(a + 7 * (m + n), TargetFifths(TargetFifths(a, m), n), p + q);
  }

  /** Transposing by m and then by n fixes the same key and the same interval as by m + n. */
  lemma TargetsCompose(from: Key, m: int, n: int)
    ensures var mid := TargetOf(from, m);
      && TargetOf(mid, n) == TargetOf(from, m + n)
      && TargetSteps(from, m) + TargetSteps(mid, n) == TargetSteps(from, m + n)
  {
    TargetDelta(from, m);
    TargetDelta(TargetOf(from, m), n);
    TargetDelta(from, m + n);
    TargetFifthsCompose(KeyFifths(from), m, n);
  }

  // ---------- Moving a later key ----------

  /** A later key moves by the score's interval, and is refused past seven sharps or flats. */
  function MoveKey(k: Key, iv: Interval): Result<Key, Error> {
    KeyWithin(KeyFifths(k) + Delta(iv), k.minor)
  }

  function KeyWithin(n: int, minor: bool): Result<Key, Error> {
    if -7 <= n <= 7 then Ok(KeyAt(n, minor)) else Err(UnsupportedKey)
  }

  lemma KeyWithinFifths(n: int, minor: bool)
    requires KeyWithin(n, minor).Ok?
    ensures var k := KeyWithin(n, minor).value; KeyFifths(k) == n && k.minor == minor && Accepted(k)
  {
    KeyAtFifths(n, minor);
  }

  lemma MoveKeyTo(k: Key, iv: Interval, n: int)
    requires KeyFifths(k) + Delta(iv) == n
    ensures MoveKey(k, iv) == KeyWithin(n, k.minor)
  {
  }

  lemma MovedKeyFifths(k: Key, iv: Interval)
    requires MoveKey(k, iv).Ok?
    ensures KeyFifths(MoveKey(k, iv).value) == KeyFifths(k) + Delta(iv)
    ensures MoveKey(k, iv).value.minor == k.minor && Accepted(MoveKey(k, iv).value)
  {
    var n := KeyFifths(k) + Delta(iv);
    MoveKeyTo(k, iv, n);
    KeyWithinFifths(n, k.minor);
  }

  lemma DeltasAdd(iv: Interval, jv: Interval)
    ensures Delta(Sum(iv, jv)) == Delta(iv) + Delta(jv)
  {
  }

  lemma KeysWithinAgree(k: Key, mid: Key, iv: Interval, jv: Interval)
    requires KeyFifths(mid) == KeyFifths(k) + Delta(iv) && mid.minor == k.minor
    ensures MoveKey(mid, jv) == MoveKey(k, Sum(iv, jv))
  {
    DeltasAdd(iv, jv);
  }

  /** Later keys compose as the header does. */
  lemma MoveKeysAdd(k: Key, iv: Interval, jv: Interval)
    requires MoveKey(k, iv).Ok?
    ensures MoveKey(MoveKey(k, iv).value, jv) == MoveKey(k, Sum(iv, jv))
  {
    var mid := MoveKey(k, iv).value;
    MovedKeyFifths(k, iv);
    KeysWithinAgree(k, mid, iv, jv);
  }

  function SpellingInTable(k: Key): Result<Key, Error> {
    if k.alt < -1 || k.alt > 1 then Err(UnsupportedKey)
    else if KeySignature(KeyName(k)).None? then Err(UnsupportedKey)
    else Ok(k)
  }

  function WrittenKey(k: Key, iv: Interval): Key {
    var l := Mod(k.letter + iv.steps, 7);
    Key(l, WrapAlt(Natural(k.letter) + k.alt + iv.semitones - Natural(l)), k.minor)
  }

  /** The same, as the program writes it: letter arithmetic, a folded alteration, a table lookup. */
  function MoveKeyAsWritten(k: Key, iv: Interval): Result<Key, Error> {
    SpellingInTable(WrittenKey(k, iv))
  }

  lemma TableAcceptsTheCircle(k: Key)
    ensures SpellingInTable(k) == KeyWithin(KeyFifths(k), k.minor)
  {
    KeyIsAtItsFifths(k);
    if -1 <= k.alt <= 1 {
      TableIsCircleOfFifths(k);
    } else if Accepted(k) {
      AcceptedAlt(k);
    }
  }

  function MovedKey(k: Key, iv: Interval): Key {
    Key(MovedLetter(k.letter, iv.steps), MovedAlt(k.letter, k.alt, iv), k.minor)
  }

  lemma MovedKeyIsAShift(k: Key, iv: Interval)
    ensures KeyFifths(MovedKey(k, iv)) == KeyFifths(k) + Delta(iv)
  {
    MovingIsAShift(k.letter, k.alt, iv);
  }

  lemma WrittenKeyIsMovedKey(k: Key, iv: Interval)
    requires Accepted(k) && -13 <= Delta(iv) <= 12
    ensures WrittenKey(k, iv) == MovedKey(k, iv)
  {
    AcceptedAlt(k);
    WrapHidesNothing(k.letter, k.alt, iv);
  }

  lemma MoveKeyOnFifths(k: Key, iv: Interval)
    requires Accepted(k) && -13 <= Delta(iv) <= 12
    ensures MoveKeyAsWritten(k, iv) == MoveKey(k, iv)
  {
    calc {
      MoveKeyAsWritten(k, iv);
      { WrittenKeyIsMovedKey(k, iv); }
      SpellingInTable(MovedKey(k, iv));
      { TableAcceptsTheCircle(MovedKey(k, iv)); }
      KeyWithin(KeyFifths(MovedKey(k, iv)), k.minor);
      { MovedKeyIsAShift(k, iv); }
      KeyWithin(KeyFifths(k) + Delta(iv), k.minor);
    }
  }

  // ---------- The searches and loops ----------

  /** The spelling of the target pitch class on one letter. */
  function Spelling(from: Key, semitones: int, l: Letter): Key {
    Key(l, WrapAlt(Mod(TonicPitch(from) + semitones, 12) - Natural(l)), from.minor)
  }

  function TonicPitch(k: Key): int {
    Natural(k.letter) + k.alt
  }

  lemma KeyFifthsOfPitch(k: Key)
    ensures KeyFifths(k) == 7 * TonicPitch(k) - 12 * k.letter - (if k.minor then 3 else 0)
  {
  }

  lemma SpellingArithmetic(p: int, natural: int) returns (q: int)
    ensures natural + WrapAlt(Mod(p, 12) - natural) == p + 12 * q
  {
    var r := WrapTurns(Mod(p, 12) - natural);
    q := -r - FloorDiv(p, 12);
  }

  /** Every spelling the search meets is a whole turn of fifths from the target. */
  lemma SpellingIsATurnAway(from: Key, semitones: int, l: Letter) returns (turns: int)
    ensures KeyFifths(Spelling(from, semitones, l)) == TargetFifths(KeyFifths(from), semitones) + 12 * turns
  {
    var cand := Spelling(from, semitones, l);
    var q := SpellingArithmetic(TonicPitch(from) + semitones, Natural(l));
    var p := WrapTurns(KeyFifths(from) + 7 * semitones);
    KeyFifthsOfPitch(from);
    KeyFifthsOfPitch(cand);
    turns := 7 * q - l + from.letter + p;
    FifthsApart(KeyFifths(cand), TonicPitch(cand), l, KeyFifths(from), TonicPitch(from), from.letter,
      if from.minor then 3 else 0, semitones, q, p, TargetFifths(KeyFifths(from), semitones));
  }

  lemma FifthsApart(f: int, pitch: int, l: int, f0: int, pitch0: int, l0: int, mode: int, semitones: int, q: int, p: int, t: int)
    requires f == 7 * pitch - 12 * l - mode && f0 == 7 * pitch0 - 12 * l0 - mode
    requires pitch == pitch0 + semitones + 12 * q && f0 + 7 * semitones == t + 12 * p
    ensures f == t + 12 * (7 * q - l + l0 + p)
  {
  }

  lemma SevenFifthsASemitone(x: int, q: int)
    requires 7 * x == 12 * q
    ensures x == 12 * (7 * q - 4 * x)
  {
  }

  lemma AcceptedAlt(k: Key)
    requires Accepted(k)
    ensures -1 <= k.alt <= 1
  {
  }

  /** The target tonic and the moved source tonic are whole octaves apart. */
  lemma TargetPitch(from: Key, semitones: int) returns (q: int)
    ensures TonicPitch(TargetOf(from, semitones)) == TonicPitch(from) + semitones + 12 * q
  {
    var to := TargetOf(from, semitones);
    TargetDelta(from, semitones);
    var r := WrapTurns(KeyFifths(from) + 7 * semitones);
    KeyFifthsOfPitch(from);
    KeyFifthsOfPitch(to);
    var x := TonicPitch(to) - TonicPitch(from) - semitones;
    q := 7 * (to.letter - from.letter - r) - 4 * x;
    SevenFifthsASemitone(x, to.letter - from.letter - r);
  }

  /** The target key is its own spelling on its letter. */
  lemma TargetIsASpelling(from: Key, semitones: int)
    ensures var to := TargetOf(from, semitones); Spelling(from, semitones, to.letter) == to
  {
    var to := TargetOf(from, semitones);
    var p := TonicPitch(from) + semitones;
    var q := TargetPitch(from, semitones);
    TargetIsAccepted(from, semitones);
    WrapIs(Mod(p, 12) - Natural(to.letter), to.alt, -q - FloorDiv(p, 12));
  }

  lemma TargetIsAccepted(from: Key, semitones: int)
    ensures var to := TargetOf(from, semitones); Accepted(to) && -1 <= to.alt <= 1
  {
    TargetDelta(from, semitones);
    AcceptedAlt(TargetOf(from, semitones));
  }

  /** Fewer accidentals, or as many but flat. */
  predicate Simpler(n: int, m: int) {
    Abs(n) < Abs(m) || (Abs(n) == Abs(m) && n < 0)
  }

  lemma FewestAccidentals(n: int, t: int, turns: int)
    requires -7 <= n <= 7 && -6 <= t <= 5 && n == t + 12 * turns && n != t
    ensures Simpler(t, n) && !Simpler(n, t)
  {
  }

  /** The target wins against every other accepted spelling, and loses to none. */
  lemma TargetIsSimplest(from: Key, semitones: int, l: Letter)
    ensures var cand, to := Spelling(from, semitones, l), TargetOf(from, semitones);
      Accepted(cand) && cand != to ==>
        Simpler(KeyFifths(to), KeyFifths(cand)) && !Simpler(KeyFifths(cand), KeyFifths(to))
  {
    var cand, to := Spelling(from, semitones, l), TargetOf(from, semitones);
    var turns := SpellingIsATurnAway(from, semitones, l);
    TargetDelta(from, semitones);
    KeyIsAtItsFifths(cand);
    if Accepted(cand) && cand != to {
      FewestAccidentals(KeyFifths(cand), KeyFifths(to), turns);
    }
  }

  /** The table lookup by printed name. */
  method LookUp(k: Key) returns (n: Option<int>)
    requires -1 <= k.alt <= 1
    ensures n == if Accepted(k) then Some(KeyFifths(k)) else None
  {
    TableIsCircleOfFifths(k);
    n := KeySignature(KeyName(k));
  }

  /**
    Of the three step counts with the right letter, the one nearest the semitone
    distance: the exact count, when that is one of the three.
  */
  method NearestSteps(d: int, semitones: int, ghost exact: int) returns (steps: int)
    requires 0 <= d < 7 && Mod(exact - d, 7) == 0 && -13 <= 12 * exact - 7 * semitones <= 13
    ensures steps == exact <==> -7 <= exact <= 13
  {
    steps := d;
    var candidates := [d - 7, d + 7];
    ghost var k := FloorDiv(exact - d, 7);
    assert exact == d + 7 * k;
    for i := 0 to 2
      invariant steps == d || (i > 0 && steps == d - 7) || (i > 1 && steps == d + 7)
      invariant k == 0 ==> steps == d
      invariant k == -1 && i > 0 ==> steps == d - 7
      invariant k == 1 ==> if i > 1 then steps == d + 7 else steps == d
    {
      var s := candidates[i];
      if Abs(12 * s - 7 * semitones) < Abs(12 * steps - 7 * semitones) {
        steps := s;
      }
    }
  }

  /** The key on one letter at the target pitch class, and how it compares with the target. */
  method TrySpelling(l: Letter, from: Key, semitones: int, ghost to: Key) returns (cand: Key)
    requires to == TargetOf(from, semitones)
    ensures cand.letter == l
    ensures cand == to <==> l == to.letter
    ensures Accepted(cand) && cand != to ==>
      Simpler(KeyFifths(to), KeyFifths(cand)) && !Simpler(KeyFifths(cand), KeyFifths(to))
  {
    TargetIsASpelling(from, semitones);
    TargetIsSimplest(from, semitones, l);
    cand := Spelling(from, semitones, l);
  }

  method BestSpelling(from: Key, semitones: int) returns (found: bool, best: Key)
    requires Accepted(from)
    ensures found && best == TargetOf(from, semitones)
  {
    var bestCount := 0;
    best, found := Key(0, 0, false), false;
    ghost var to := TargetOf(from, semitones);
    ghost var t := KeyFifths(to);
    TargetIsAccepted(from, semitones);
    for l := 0 to 7
      invariant found && best != to ==> Simpler(t, bestCount)
      invariant found && best == to ==> bestCount == t
      invariant found ==> best.letter < l
      invariant to.letter < l ==> found && best == to
    {
      var cand := TrySpelling(l, from, semitones, to);
      if -1 <= cand.alt <= 1 {
        var n := LookUp(cand);
        if n.Some? && (!found || Simpler(n.value, bestCount)) {
          best, bestCount, found := cand, n.value, true;
        }
      }
    }
  }

  /** The letter difference and the steps agree up to whole octaves. */
  lemma MovedLetterDistance(l: Letter, steps: int)
    ensures Mod(steps - Mod(MovedLetter(l, steps) - l, 7), 7) == 0
  {
    var d := MovedLetter(l, steps) - l;
    EuclideanUnique(steps - Mod(d, 7), 7, FloorDiv(l + steps, 7) + FloorDiv(d, 7), 0);
  }

  lemma StepsReachTheLetter(from: Key, semitones: int)
    requires Accepted(from)
    ensures MovedLetter(from.letter, TargetSteps(from, semitones)) == TargetOf(from, semitones).letter
  {
    StepsReachTheTonic(from, semitones, TargetSteps(from, semitones));
  }

  lemma LetterDistance(from: Key, semitones: int)
    requires Accepted(from)
    ensures Mod(TargetSteps(from, semitones) - Mod(TargetOf(from, semitones).letter - from.letter, 7), 7) == 0
  {
    StepsReachTheLetter(from, semitones);
    MovedLetterDistance(from.letter, TargetSteps(from, semitones));
  }

  lemma StepsAreNear(from: Key, semitones: int)
    requires Accepted(from)
    ensures -13 <= 12 * TargetSteps(from, semitones) - 7 * semitones <= 13
  {
    TargetDelta(from, semitones);
  }

  /**
    The search: the accepted spelling with the fewest accidentals, then the step
    count nearest the semitone distance. Found for every accepted key and every
    distance; the step count is exact just when three candidates can reach it.
  */
  method TargetKey(from: Key, semitones: int) returns (r: Result<(Key, Interval), Error>)
    requires Accepted(from)
    ensures r.Ok? && r.value.0 == TargetOf(from, semitones) && r.value.1.semitones == semitones
    ensures r.value.1.steps == TargetSteps(from, semitones) <==> -7 <= TargetSteps(from, semitones) <= 13
  {
    var found, best := BestSpelling(from, semitones);
    if !found {
      return Err(UnsupportedKey);
    }
    ghost var exact := TargetSteps(from, semitones);
    LetterDistance(from, semitones);
    StepsAreNear(from, semitones);
    var steps := NearestSteps(Mod(best.letter - from.letter, 7), semitones, exact);
    return Ok((best, Interval(semitones, steps)));
  }

  const SHARP_ORDER: string := "FCGDAEB"
  const FLAT_ORDER: string := "BEADGCF"

  lemma SharpOrderOnFifths(i: int)
    requires 0 <= i < 7
    ensures 'A' <= SHARP_ORDER[i] <= 'G' && LetterFifths(LetterOf(SHARP_ORDER[i])) == i - 1
    ensures 'A' <= FLAT_ORDER[i] <= 'G' && LetterFifths(LetterOf(FLAT_ORDER[i])) == 5 - i
  {
    if i == 0 {} else if i == 1 {} else if i == 2 {} else if i == 3 {}
    else if i == 4 {} else if i == 5 {} else {}
  }

  lemma LetterFifthsDistinct(l: Letter, m: Letter)
    ensures LetterFifths(l) == LetterFifths(m) ==> l == m
  {
    FifthsInvert(l, 0);
    FifthsInvert(m, 0);
  }

  lemma SharpPlaced(l: Letter, i: int)
    requires 0 <= i < 7 && 'A' <= SHARP_ORDER[i] <= 'G' && l == LetterOf(SHARP_ORDER[i])
    ensures forall m: Letter :: LetterFifths(m) == i - 1 <==> m == l
  {
    SharpOrderOnFifths(i);
    forall m: Letter
      ensures LetterFifths(m) == i - 1 <==> m == l
    {
      LetterFifthsDistinct(l, m);
    }
  }

  lemma FlatPlaced(l: Letter, i: int)
    requires 0 <= i < 7 && 'A' <= FLAT_ORDER[i] <= 'G' && l == LetterOf(FLAT_ORDER[i])
    ensures forall m: Letter :: LetterFifths(m) == 5 - i <==> m == l
  {
    SharpOrderOnFifths(i);
    forall m: Letter
      ensures LetterFifths(m) == 5 - i <==> m == l
    {
      LetterFifthsDistinct(l, m);
    }
  }

  method PlaceSharps(n: int) returns (sig: Sig)
    requires 0 <= n <= 7
    ensures forall l: Letter :: sig[l] == if LetterFifths(l) < n - 1 then 1 else 0
  {
    sig := [0, 0, 0, 0, 0, 0, 0];
    for i := 0 to n
      invariant forall l: Letter :: sig[l] == if LetterFifths(l) < i - 1 then 1 else 0
    {
      SharpOrderOnFifths(i);
      var l := LetterOf(SHARP_ORDER[i]);
      SharpPlaced(l, i);
      sig := sig[l := 1];
    }
  }

  method PlaceFlats(n: int) returns (sig: Sig)
    requires 0 <= n <= 7
    ensures forall l: Letter :: sig[l] == if LetterFifths(l) > 5 - n then -1 else 0
  {
    sig := [0, 0, 0, 0, 0, 0, 0];
    for i := 0 to n
      invariant forall l: Letter :: sig[l] == if LetterFifths(l) > 5 - i then -1 else 0
    {
      SharpOrderOnFifths(i);
      var l := LetterOf(FLAT_ORDER[i]);
      FlatPlaced(l, i);
      sig := sig[l := -1];
    }
  }

  /** Sharps are placed in the order F C G D A E B, flats in the reverse. */
  method Signature(k: Key) returns (sig: Sig)
    requires Accepted(k)
    ensures sig == SigOf(KeyFifths(k))
  {
    AcceptedAlt(k);
    var looked := LookUp(k);
    var n := looked.value;
    if n > 0 {
      sig := PlaceSharps(n);
    } else {
      sig := PlaceFlats(-n);
    }
    forall l: Letter
      ensures sig[l] == SigAlt(n, l)
    {
    }
  }
}
