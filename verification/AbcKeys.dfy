/**
  Note letters, key names and transposition intervals.

  A spelled pitch (letter, alteration) has a place on the line of fifths,
  7 * semitones - 12 * letter steps: F C G D A E B are -1..5 and a sharp adds 7.
  That place is linear in pitch and position, so keys, signatures and
  intervals, which the program computes with tables and searches, all have
  closed forms on it. The closed forms below are the specification; the tables
  and loops are proved against them.
*/
module AbcKeys {
  import opened Prelude
  import opened GoArith
  import opened GoText

  /** An index into LETTERS. */
  type Letter = l: int | 0 <= l < 7

  /** The default alteration of each letter. */
  type Sig = s: seq<int> | |s| == 7 witness [0, 0, 0, 0, 0, 0, 0]

  const LETTERS: string := "CDEFGAB"
  const NATURAL_PC: seq<int> := [0, 2, 4, 5, 7, 9, 11]

  /**
    Accepted keys and their signatures: positive sharps, negative flats. The
    thirty entries are grouped by what follows the letter of the name.
  */
  function KeySignature(name: string): Option<int> {
    if |name| == 1 then MajorKeys(name[0])
    else if |name| == 2 && name[1] == 'b' then FlatMajorKeys(name[0])
    else if |name| == 2 && name[1] == '#' then SharpMajorKeys(name[0])
    else if |name| == 2 && name[1] == 'm' then MinorKeys(name[0])
    else if |name| == 3 && name[1] == 'b' && name[2] == 'm' then FlatMinorKeys(name[0])
    else if |name| == 3 && name[1] == '#' && name[2] == 'm' then SharpMinorKeys(name[0])
    else None
  }

  function MajorKeys(c: char): Option<int> {
    match c
    case 'F' => Some(-1)
    case 'C' => Some(0)
    case 'G' => Some(1)
    case 'D' => Some(2)
    case 'A' => Some(3)
    case 'E' => Some(4)
    case 'B' => Some(5)
    case _ => None
  }

  function FlatMajorKeys(c: char): Option<int> {
    match c
    case 'C' => Some(-7)
    case 'G' => Some(-6)
    case 'D' => Some(-5)
    case 'A' => Some(-4)
    case 'E' => Some(-3)
    case 'B' => Some(-2)
    case _ => None
  }

  function SharpMajorKeys(c: char): Option<int> {
    match c
    case 'F' => Some(6)
    case 'C' => Some(7)
    case _ => None
  }

  function MinorKeys(c: char): Option<int> {
    match c
    case 'F' => Some(-4)
    case 'C' => Some(-3)
    case 'G' => Some(-2)
    case 'D' => Some(-1)
    case 'A' => Some(0)
    case 'E' => Some(1)
    case 'B' => Some(2)
    case _ => None
  }

  function FlatMinorKeys(c: char): Option<int> {
    match c
    case 'A' => Some(-7)
    case 'E' => Some(-6)
    case 'B' => Some(-5)
    case _ => None
  }

  function SharpMinorKeys(c: char): Option<int> {
    match c
    case 'F' => Some(3)
    case 'C' => Some(4)
    case 'G' => Some(5)
    case 'D' => Some(6)
    case 'A' => Some(7)
    case _ => None
  }

  const MAX_SEMITONES := 11

  datatype Key = Key(letter: Letter, alt: int, minor: bool)

  datatype Error =
    | OutOfRange
    | UnsupportedKey
    | UnspellableNote
    | UnspellableChord
    | NoKeyField
    | EmptyFieldPanic

  datatype Interval = Interval(semitones: int, steps: int)

  /** The character of a letter, LETTERS[l]; see LettersAreTheTable. */
  function LetterChar(l: Letter): (c: char)
    ensures 'A' <= c <= 'G'
  {
    if l < 5 then ('C' as int + l) as char else ('A' as int + l - 5) as char
  }

  /** The letter of a character, its position in LETTERS. */
  function LetterOf(c: char): (l: Letter)
    requires 'A' <= c <= 'G'
    ensures LetterChar(l) == c
  {
    if c < 'C' then c as int - 'A' as int + 5 else c as int - 'C' as int
  }

  lemma LettersAreTheTable(l: Letter)
    ensures LetterChar(l) == LETTERS[l] && LetterOf(LetterChar(l)) == l
    ensures IndexOf(LETTERS, LetterChar(l)) == l
  {
    if l == 0 {} else if l == 1 {} else if l == 2 {} else if l == 3 {}
    else if l == 4 {} else if l == 5 {} else {}
  }

  /** The pitch class of a letter with no accidental: whole steps, but for the half step E-F. */
  function Natural(l: Letter): int {
    if l < 3 then 2 * l else 2 * l - 1
  }

  lemma NaturalIsTheTable(l: Letter)
    ensures Natural(l) == NATURAL_PC[l]
  {
    if l == 0 {} else if l == 1 {} else if l == 2 {} else if l == 3 {}
    else if l == 4 {} else if l == 5 {} else {}
  }

  function KeyName(k: Key): string {
    [LetterChar(k.letter)]
    + (if k.alt == 1 then "#" else if k.alt == -1 then "b" else "")
    + (if k.minor then "m" else "")
  }

  // ---------- The line of fifths ----------

  function LetterFifths(l: Letter): (f: int)
    ensures -1 <= f <= 5
  {
    7 * Natural(l) - 12 * l
  }

  function Fifths(l: Letter, alt: int): int {
    LetterFifths(l) + 7 * alt
  }

  /** How many sharps a key with this tonic has: a minor key has its relative major's. */
  function KeyFifths(k: Key): int {
    Fifths(k.letter, k.alt) - (if k.minor then 3 else 0)
  }

  /** The keys with at most seven sharps or flats; TableIsCircleOfFifths ties this to the table. */
  predicate Accepted(k: Key) {
    -7 <= KeyFifths(k) <= 7
  }

  /** The letter at a place on the line of fifths: each fifth is four letters up. */
  function LetterAt(f: int): Letter {
    Mod(4 * f, 7)
  }

  function AltAt(f: int): int {
    FloorDiv(f + 1, 7)
  }

  function KeyAt(n: int, minor: bool): Key {
    var f := n + (if minor then 3 else 0);
    Key(LetterAt(f), AltAt(f), minor)
  }

  /** The letters F C G D A E B, seven fifths starting one below the tonic of n sharps. */
  function SigAlt(n: int, l: Letter): int {
    FloorDiv(n + 5 - LetterFifths(l), 7)
  }

  function SigOf(n: int): Sig {
    seq(7, l requires 0 <= l < 7 => SigAlt(n, l))
  }

  function Delta(iv: Interval): int {
    7 * iv.semitones - 12 * iv.steps
  }

  lemma FifthsInvert(l: Letter, alt: int)
    ensures LetterAt(Fifths(l, alt)) == l && AltAt(Fifths(l, alt)) == alt
  {
    var f := Fifths(l, alt);
    EuclideanUnique(4 * f, 7, l + 4 * alt - (if l < 3 then 0 else 4), l);
    EuclideanUnique(f + 1, 7, alt, LetterFifths(l) + 1);
  }

  lemma FifthsOnto(f: int)
    ensures Fifths(LetterAt(f), AltAt(f)) == f
  {
    var a, r := FloorDiv(f + 1, 7), Mod(f + 1, 7);
    assert f == 7 * a + r - 1;
    var l: Letter := if r % 2 == 1 then (r - 1) / 2 else (r + 6) / 2;
    EuclideanUnique(4 * f, 7, 4 * a + l - (if l < 3 then 0 else 4), l);
  }

  /** Seven sharps or flats at most. */
  function Within(n: int): Option<int> {
    if -7 <= n <= 7 then Some(n) else None
  }

  lemma MajorTable(l: Letter)
    ensures MajorKeys(LetterChar(l)) == Within(LetterFifths(l))
    ensures FlatMajorKeys(LetterChar(l)) == Within(LetterFifths(l) - 7)
    ensures SharpMajorKeys(LetterChar(l)) == Within(LetterFifths(l) + 7)
  {
    if l == 0 {} else if l == 1 {} else if l == 2 {} else if l == 3 {}
    else if l == 4 {} else if l == 5 {} else {}
  }

  lemma MinorTable(l: Letter)
    ensures MinorKeys(LetterChar(l)) == Within(LetterFifths(l) - 3)
    ensures FlatMinorKeys(LetterChar(l)) == Within(LetterFifths(l) - 10)
    ensures SharpMinorKeys(LetterChar(l)) == Within(LetterFifths(l) + 4)
  {
    if l == 0 {} else if l == 1 {} else if l == 2 {} else if l == 3 {}
    else if l == 4 {} else if l == 5 {} else {}
  }

  /** What the table says of a key name, by its letter and what follows. */
  lemma KeyNameShape(k: Key)
    requires -1 <= k.alt <= 1
    ensures var name, c := KeyName(k), LetterChar(k.letter);
      KeySignature(name) ==
        if k.minor then
          if k.alt == 0 then MinorKeys(c) else if k.alt == 1 then SharpMinorKeys(c) else FlatMinorKeys(c)
        else
          if k.alt == 0 then MajorKeys(c) else if k.alt == 1 then SharpMajorKeys(c) else FlatMajorKeys(c)
  {
    var name := KeyName(k);
    assert name[0] == LetterChar(k.letter);
    if k.alt == 0 {
      assert |name| == if k.minor then 2 else 1;
    } else {
      assert |name| == if k.minor then 3 else 2;
      assert name[1] == if k.alt == 1 then '#' else 'b';
    }
  }

  /** The table the program ships is the circle of fifths, cut off at seven either way. */
  lemma TableIsCircleOfFifths(k: Key)
    requires -1 <= k.alt <= 1
    ensures KeySignature(KeyName(k)) == if Accepted(k) then Some(KeyFifths(k)) else None
  {
    KeyNameShape(k);
    MajorTable(k.letter);
    MinorTable(k.letter);
  }

  // ---------- Reading a key name ----------

  lemma AcceptedNameShape(t: string)
    requires KeySignature(t).Some?
    ensures 1 <= |t| <= 3 && 'A' <= t[0] <= 'G'
    ensures |t| == 2 ==> t[1] == '#' || t[1] == 'b' || t[1] == 'm'
    ensures |t| == 3 ==> (t[1] == '#' || t[1] == 'b') && t[2] == 'm'
  {
  }

  function ReadKeyName(t: string): Key
    requires t != "" && 'A' <= t[0] <= 'G'
  {
    var rest := t[1..];
    if "#" <= rest then Key(LetterOf(t[0]), 1, rest[1..] == "m")
    else if "b" <= rest then Key(LetterOf(t[0]), -1, rest[1..] == "m")
    else Key(LetterOf(t[0]), 0, rest == "m")
  }

  function ParseKey(s: string): Result<Key, Error> {
    var t := TrimSpace(s);
    if KeySignature(t).None? then Err(UnsupportedKey)
    else
      AcceptedNameShape(t);
      Ok(ReadKeyName(t))
  }

  lemma ShortNamesReadBack(t: string)
    requires 1 <= |t| <= 3 && 'A' <= t[0] <= 'G'
    requires |t| == 2 ==> t[1] == '#' || t[1] == 'b' || t[1] == 'm'
    requires |t| == 3 ==> (t[1] == '#' || t[1] == 'b') && t[2] == 'm'
    ensures KeyName(ReadKeyName(t)) == t && -1 <= ReadKeyName(t).alt <= 1
  {
    if |t| == 1 {
      assert t == [t[0]];
    } else if |t| == 2 {
      assert t == [t[0], t[1]];
      assert t[1..] == [t[1]] && t[1..][1..] == "";
    } else {
      assert t == [t[0], t[1], t[2]];
      assert t[1..] == [t[1], t[2]] && t[1..][1..] == [t[2]];
    }
  }

  /** Reading an accepted name and printing the key gives the name back. */
  lemma AcceptedNamesReadBack(t: string)
    requires KeySignature(t).Some?
    ensures t != "" && 'A' <= t[0] <= 'G' && KeyName(ReadKeyName(t)) == t
    ensures Accepted(ReadKeyName(t)) && KeySignature(t) == Some(KeyFifths(ReadKeyName(t)))
  {
    AcceptedNameShape(t);
    ShortNamesReadBack(t);
    TableIsCircleOfFifths(ReadKeyName(t));
  }

  lemma PrintedKeyReads(k: Key)
    requires -1 <= k.alt <= 1
    ensures ReadKeyName(KeyName(k)) == k
  {
    var t := KeyName(k);
    var mode := if k.minor then ['m'] else [];
    assert t[0] == LetterChar(k.letter);
    if k.alt == 0 {
      assert t[1..] == mode;
    } else {
      assert t[1] == if k.alt == 1 then '#' else 'b';
      assert t[1..] == [t[1]] + mode;
      assert t[1..][1..] == mode;
    }
  }

  lemma KeyNamesAreTrim(k: Key)
    ensures TrimSpace(KeyName(k)) == KeyName(k)
  {
    TrimNothing(KeyName(k));
  }

  /** Printing an accepted key and reading the name gives the key back. */
  lemma AcceptedKeysReadBack(k: Key)
    requires Accepted(k)
    ensures ParseKey(KeyName(k)) == Ok(k)
  {
    TableIsCircleOfFifths(k);
    KeyNamesAreTrim(k);
    PrintedKeyReads(k);
  }
}
