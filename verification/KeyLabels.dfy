/**
  The labels of the key picker. A label says the key in words and how far the
  melody moves, and says it unambiguously: no two choices read alike.
*/
module KeyLabels {
  import opened Prelude
  import opened GoNumbers
  import opened AbcKeys
  import opened AbcRescan

  const SHARP_SIGN: char := '\U{266F}'
  const FLAT_SIGN: char := '\U{266D}'
  const DASH: char := '\U{2014}'

  function Sign(c: char): char {
    if c == '#' then SHARP_SIGN else if c == 'b' then FLAT_SIGN else c
  }

  predicate EndsInM(name: string) {
    name != "" && name[|name| - 1] == 'm'
  }

  function Signs(s: string): string {
    seq(|s|, i requires 0 <= i < |s| => Sign(s[i]))
  }

  function Stem(name: string): string {
    if EndsInM(name) then name[..|name| - 1] else name
  }

  function Mode(name: string): string {
    if EndsInM(name) then " minor" else " major"
  }

  /** A score key spelled for people: "D#m" is "D sharp minor", with the sharp as a sign. */
  function KeyInWords(name: string): string {
    Signs(Stem(name)) + Mode(name)
  }

  function Count(n: nat): string {
    if n == 1 then "1 semitone" else Itoa(n) + " semitones"
  }

  function ShiftWords(n: int): string {
    if n == 0 then "as it is"
    else if n > 0 then Count(n) + " up"
    else Count(-n) + " down"
  }

  function Label(name: string, shift: int): string {
    (KeyInWords(name) + " ") + [DASH] + (" " + ShiftWords(shift))
  }

  // ---------- Labels read one way ----------

  lemma CutOnce(a: string, x: string, b: string, y: string, sep: char)
    requires a + [sep] + x == b + [sep] + y && sep !in a && sep !in b
    ensures a == b && x == y
  {
    var s, t := a + [sep] + x, b + [sep] + y;
    assert s[|a|] == sep && t[|b|] == sep;
    assert forall i :: 0 <= i < |a| ==> s[i] == a[i];
    assert forall i :: 0 <= i < |b| ==> t[i] == b[i];
    assert |a| == |b|;
    assert s[..|a|] == a && t[..|b|] == b;
    assert s[|a| + 1..] == x && t[|b| + 1..] == y;
  }

  /** Names without the signs themselves. */
  predicate Ascii(name: string) {
    forall c :: c in name ==> c < SHARP_SIGN && c < FLAT_SIGN && c < DASH
  }

  lemma SignsAreOneToOne(s: string, t: string)
    requires Signs(s) == Signs(t) && Ascii(s) && Ascii(t)
    ensures s == t
  {
    assert |s| == |Signs(s)| && |t| == |Signs(t)|;
    forall i | 0 <= i < |s|
      ensures s[i] == t[i]
    {
      assert Signs(s)[i] == Sign(s[i]) && Signs(t)[i] == Sign(t[i]);
      assert s[i] in s && t[i] in t;
    }
  }

  lemma StemIsAscii(name: string)
    requires Ascii(name)
    ensures Ascii(Stem(name))
  {
    assert forall i :: 0 <= i < |Stem(name)| ==> Stem(name)[i] == name[i] && name[i] in name;
  }

  lemma ModeShows(name: string)
    ensures var s := KeyInWords(name);
      |Mode(name)| == 6 && |s| >= 6 && s[|s| - 4] == Mode(name)[2] && s[..|s| - 6] == Signs(Stem(name))
    ensures Mode(name)[2] == if EndsInM(name) then 'i' else 'a'
  {
  }

  lemma NameFromStem(name: string)
    ensures name == if EndsInM(name) then Stem(name) + ['m'] else Stem(name)
  {
  }

  lemma KeyInWordsIsOneToOne(s: string, t: string)
    requires KeyInWords(s) == KeyInWords(t) && Ascii(s) && Ascii(t)
    ensures s == t
  {
    ModeShows(s);
    ModeShows(t);
    StemIsAscii(s);
    StemIsAscii(t);
    SignsAreOneToOne(Stem(s), Stem(t));
    NameFromStem(s);
    NameFromStem(t);
  }

  /** A count of semitones, and the word after the number. */
  function Unit(n: nat): string {
    if n == 1 then "semitone" else "semitones"
  }

  lemma CountIsNumberAndUnit(n: nat, way: string)
    ensures Count(n) + way == Itoa(n) + [' '] + (Unit(n) + way)
    ensures ' ' !in Itoa(n)
  {
    ItoaCharacters(n);
    if n == 1 {
      assert Itoa(n) == "1";
      assert "1 semitone" + way == "1" + [' '] + ("semitone" + way);
    } else {
      assert Itoa(n) + " semitones" + way == Itoa(n) + [' '] + ("semitones" + way);
    }
  }

  lemma CountsAreOneToOne(m: nat, n: nat, way: string)
    requires Count(m) + way == Count(n) + way && m <= MAX_INT && n <= MAX_INT
    ensures m == n
  {
    CountIsNumberAndUnit(m, way);
    CountIsNumberAndUnit(n, way);
    CutOnce(Itoa(m), Unit(m) + way, Itoa(n), Unit(n) + way, ' ');
    AtoiItoa(m);
    AtoiItoa(n);
  }

  lemma WayShows(n: int)
    ensures var s := ShiftWords(n); s != "" && s[|s| - 1] == if n == 0 then 's' else if n > 0 then 'p' else 'n'
  {
  }

  lemma ShiftWordsAreOneToOne(m: int, n: int)
    requires ShiftWords(m) == ShiftWords(n) && -MAX_INT <= m <= MAX_INT && -MAX_INT <= n <= MAX_INT
    ensures m == n
  {
    WayShows(m);
    WayShows(n);
    if m > 0 {
      CountsAreOneToOne(m, n, " up");
    } else if m < 0 {
      CountsAreOneToOne(-m, -n, " down");
    }
  }

  lemma WordsHaveNoDash(name: string)
    requires Ascii(name)
    ensures DASH !in KeyInWords(name) + " "
  {
    StemIsAscii(name);
    forall i | 0 <= i < |Signs(Stem(name))|
      ensures Signs(Stem(name))[i] != DASH
    {
      assert Stem(name)[i] in Stem(name);
    }
    assert DASH !in Mode(name);
  }

  lemma TrimEnds(k: string, w: string, k': string, w': string, space: string)
    requires |space| == 1 && k + space == k' + space && space + w == space + w'
    ensures k == k' && w == w'
  {
    assert k == (k + space)[..|k + space| - 1] && k' == (k' + space)[..|k' + space| - 1];
    assert w == (space + w)[1..] && w' == (space + w')[1..];
  }

  /** A label names one key and one shift. */
  lemma LabelsAreOneToOne(name1: string, shift1: int, name2: string, shift2: int)
    requires Label(name1, shift1) == Label(name2, shift2) && Ascii(name1) && Ascii(name2)
    requires -MAX_INT <= shift1 <= MAX_INT && -MAX_INT <= shift2 <= MAX_INT
    ensures name1 == name2 && shift1 == shift2
  {
    WordsHaveNoDash(name1);
    WordsHaveNoDash(name2);
    CutOnce(KeyInWords(name1) + " ", " " + ShiftWords(shift1), KeyInWords(name2) + " ", " " + ShiftWords(shift2), DASH);
    TrimEnds(KeyInWords(name1), ShiftWords(shift1), KeyInWords(name2), ShiftWords(shift2), " ");
    KeyInWordsIsOneToOne(name1, name2);
    ShiftWordsAreOneToOne(shift1, shift2);
  }

  lemma KeyNamesAreAscii(k: Key)
    ensures Ascii(KeyName(k))
  {
    KeyNameIsAscii(k);
  }

  lemma {:induction false} SignsAppend(s: string, t: string)
    ensures Signs(s + t) == Signs(s) + Signs(t)
  {
  }

  /** A key in words is its letter, its sign and its mode. */
  lemma KeyInWordsSaysTheKey(k: Key)
    ensures KeyInWords(KeyName(k)) ==
      [LetterChar(k.letter)]
      + (if k.alt == 1 then ['\U{266F}'] else if k.alt == -1 then ['\U{266D}'] else [])
      + (if k.minor then " minor" else " major")
  {
    var sign := if k.alt == 1 then "#" else if k.alt == -1 then "b" else "";
    var stem := [LetterChar(k.letter)] + sign;
    assert KeyName(k) == stem + (if k.minor then "m" else "");
    assert Stem(KeyName(k)) == stem;
    SignsAppend([LetterChar(k.letter)], sign);
    assert Signs([LetterChar(k.letter)]) == [LetterChar(k.letter)];
  }

  predicate EndsWith(s: string, end: string) {
    |end| <= |s| && s[|s| - |end|..] == end
  }

  /** A label says "up" for a higher melody and "down" for a lower one, and by how many semitones. */
  lemma ShiftWordsSayTheShift(n: int)
    requires n != 0
    ensures EndsWith(ShiftWords(n), if n > 0 then " up" else " down")
    ensures Itoa(if n > 0 then n else -n) + " semitone" <= ShiftWords(n)
  {
    CountIsNumberAndUnit(if n > 0 then n else -n, if n > 0 then " up" else " down");
  }
}
