/**
  The tokens of a line of ABC music, how text is cut into them and how they print.

  The rewriter scans bytes; this is the grammar that scan follows. The lemmas
  say when printed tokens scan back as themselves.
*/
module AbcTokens {
  import opened Prelude
  import opened GoText
  import opened AbcKeys

  datatype Token =
    | Note(acc: Option<int>, letter: Letter, octave: int)
    | Quoted(text: string)      // "text", a chord symbol
    | Inline(text: string)      // [text], a field such as K:G
    | EmptyInline               // the characters []: which leave an inline field with no letter
    | Decoration(text: string)  // !text!
    | Bar
    | Plain(c: char)            // any other character, copied
    | Unclosed(text: string)    // an opened quote, field or decoration that the line never closes

  // ---------- Scanning ----------

  /** How many characters of accidental start `s`, and the alteration they write. */
  function Accidental(s: string): (nat, Option<int>) {
    if "^^" <= s then (2, Some(2))
    else if "__" <= s then (2, Some(-2))
    else if "^" <= s then (1, Some(1))
    else if "_" <= s then (1, Some(-1))
    else if "=" <= s then (1, Some(0))
    else (0, None)
  }

  predicate IsMark(c: char) {
    c == '\'' || c == ','
  }

  /** The run of octave marks that starts `s`: its length and the octaves it adds. */
  function Marks(s: string): (r: (nat, int))
    ensures r.0 <= |s| && (r.0 < |s| ==> !IsMark(s[r.0]))
  {
    if s != "" && IsMark(s[0]) then
      var (n, shift) := Marks(s[1..]);
      (n + 1, if s[0] == '\'' then shift + 1 else shift - 1)
    else (0, 0)
  }

  predicate IsUpperNote(c: char) {
    'A' <= c <= 'G'
  }

  predicate IsLowerNote(c: char) {
    'a' <= c <= 'g'
  }

  function Upper(c: char): (u: char)
    requires IsLowerNote(c)
    ensures IsUpperNote(u)
  {
    (c as int - 32) as char
  }

  function Lower(c: char): (l: char)
    requires IsUpperNote(c)
    ensures IsLowerNote(l) && Upper(l) == c
  {
    (c as int + 32) as char
  }

  /** The pitched note that starts `s`, if one does, and how many characters it takes. */
  function LexNote(s: string): (r: Option<(Token, nat)>)
    ensures r.Some? ==> r.value.0.Note? && 0 < r.value.1 <= |s|
    ensures r.Some? && r.value.1 < |s| ==> !IsMark(s[r.value.1])
  {
    var (i, acc) := Accidental(s);
    if i >= |s| then None
    else if IsUpperNote(s[i]) then
      var (n, shift) := Marks(s[i + 1..]);
      Some((Note(acc, LetterOf(s[i]), 4 + shift), i + 1 + n))
    else if IsLowerNote(s[i]) then
      var (n, shift) := Marks(s[i + 1..]);
      Some((Note(acc, LetterOf(Upper(s[i])), 5 + shift), i + 1 + n))
    else None
  }

  /** An ASCII character and a colon: what follows the bracket of an inline field. */
  predicate OpensField(s: string) {
    |s| >= 2 && s[0] < '\U{0080}' && s[1] == ':'
  }

  /** The token that starts `s` and how many characters it takes. */
  function LexOne(s: string): (r: (Token, nat))
    requires s != ""
    ensures 0 < r.1 <= |s|
  {
    var c := s[0];
    if c == '"' then
      var end := IndexOf(s[1..], '"');
      if end < 0 then (Unclosed(s), |s|) else (Quoted(s[1..end + 1]), end + 2)
    else if c == '[' && OpensField(s[1..]) then
      var end := IndexOf(s, ']');
      if end < 0 then (Unclosed(s), |s|)
      else if end == 1 then (EmptyInline, |s|)
      else (Inline(s[1..end]), end + 1)
    else if c == '!' then
      var end := IndexOf(s[1..], '!');
      if end < 0 then (Unclosed(s), |s|) else (Decoration(s[1..end + 1]), end + 2)
    else if c == '|' then (Bar, 1)
    else
      match LexNote(s)
      case Some((note, n)) => (note, n)
      case None => (Plain(c), 1)
  }

  function Lex(s: string): seq<Token>
    decreases |s|
  {
    if s == "" then [] else
    var (t, n) := LexOne(s);
    [t] + Lex(s[n..])
  }

  // ---------- Printing ----------

  function AccidentalText(alt: int): string {
    if alt == 2 then "^^"
    else if alt == -2 then "__"
    else if alt == 1 then "^"
    else if alt == -1 then "_"
    else if alt == 0 then "="
    else ""
  }

  function PitchText(letter: Letter, octave: int): string {
    if octave >= 5 then [Lower(LetterChar(letter))] + Repeat('\'', octave - 5)
    else [LetterChar(letter)] + Repeat(',', 4 - octave)
  }

  function Show(t: Token): string {
    match t
    case Note(acc, letter, octave) =>
      (if acc.Some? then AccidentalText(acc.value) else "") + PitchText(letter, octave)
    case Quoted(text) => "\"" + text + "\""
    case Inline(text) => "[" + text + "]"
    case EmptyInline => "[]:"
    case Decoration(text) => "!" + text + "!"
    case Bar => "|"
    case Plain(c) => [c]
    case Unclosed(text) => text
  }

  function ShowAll(toks: seq<Token>): string {
    if toks == [] then "" else Show(toks[0]) + ShowAll(toks[1..])
  }

  // ---------- Which tokens print and scan back ----------

  predicate IsAccidental(c: char) {
    c == '^' || c == '_' || c == '='
  }

  /** Tokens that stand for themselves once printed. */
  predicate TokenOk(t: Token) {
    match t
    case Note(acc, _, _) => acc.Some? ==> -2 <= acc.value <= 2
    case Quoted(text) => '"' !in text
    case Inline(text) => OpensField(text) && ']' !in text
    case EmptyInline => false
    case Decoration(text) => '!' !in text
    case Bar => true
    case Plain(c) => c != '"' && c != '!' && c != '|' && !IsUpperNote(c) && !IsLowerNote(c)
    case Unclosed(text) =>
      && text != ""
      && (|| (text[0] == '"' && '"' !in text[1..])
          || (text[0] == '!' && '!' !in text[1..])
          || (text[0] == '[' && OpensField(text[1..]) && ']' !in text))
  }

  /** A note with neither accidental nor octave mark, and a colon after it. */
  predicate BareThenColon(toks: seq<Token>) {
    && |toks| > 1 && toks[1] == Plain(':')
    && toks[0].Note? && toks[0].acc.None? && 4 <= toks[0].octave <= 5
  }

  /** Whether an accidental character before a note's own accidental would be read as part of it. */
  predicate Takes(c: char, acc: Option<int>) {
    acc.None? || (c == '^' && acc == Some(1)) || (c == '_' && acc == Some(-1))
  }

  /**
    An accidental character on its own, and after it a note that would take it,
    or the same character and then a bare note that would take both.
  */
  predicate TakenBy(c: char, toks: seq<Token>) {
    && IsAccidental(c) && toks != []
    && (|| (toks[0].Note? && Takes(c, toks[0].acc))
        || (c != '=' && toks[0] == Plain(c) && |toks| > 1 && toks[1].Note? && toks[1].acc.None?))
  }

  /** Whether tokens that do not start with a note print an ASCII character followed by a colon. */
  predicate OpensFieldTokens(toks: seq<Token>) {
    toks != [] &&
    match toks[0]
    case Note(_, _, _) => false
    case Quoted(text) => text != "" && text[0] == ':'
    case Inline(text) => text != "" && text[0] == ':'
    case EmptyInline => false
    case Decoration(text) => text != "" && text[0] == ':'
    case Bar => |toks| > 1 && toks[1] == Plain(':')
    case Plain(c) => c < '\U{0080}' && |toks| > 1 && toks[1] == Plain(':')
    case Unclosed(text) => |text| > 1 && text[1] == ':'
  }

  /** What may follow a token in scanned text. */
  predicate Adjacent(t: Token, toks: seq<Token>) {
    match t
    case Note(_, _, _) => toks != [] && toks[0].Plain? ==> !IsMark(toks[0].c)
    case Plain(c) => c == '[' ==> !OpensFieldTokens(toks)
    case Unclosed(_) => toks == []
    case _ => true
  }

  /** Tokens as a scan leaves them. */
  predicate Neat(toks: seq<Token>) {
    toks != [] ==> TokenOk(toks[0]) && Adjacent(toks[0], toks[1..]) && Neat(toks[1..])
  }

  /** Tokens that also read back once printed: nothing runs into the note after it. */
  predicate Clean(toks: seq<Token>) {
    toks != [] ==>
      && TokenOk(toks[0]) && Adjacent(toks[0], toks[1..])
      && (toks[0] == Plain('[') ==> !BareThenColon(toks[1..]))
      && (toks[0].Plain? ==> !TakenBy(toks[0].c, toks[1..]))
      && Clean(toks[1..])
  }

  lemma {:induction false} CleanIsNeat(toks: seq<Token>)
    requires Clean(toks)
    ensures Neat(toks)
  {
    if toks != [] {
      CleanIsNeat(toks[1..]);
    }
  }

  lemma {:induction false} MarksOfRun(c: char, n: nat, rest: string)
    requires IsMark(c) && (rest != "" ==> !IsMark(rest[0]))
    ensures Marks(Repeat(c, n) + rest).0 == n
    ensures Marks(Repeat(c, n) + rest).1 == (if c == '\'' then 1 else -1) * n
  {
    var s := Repeat(c, n) + rest;
    if n > 0 {
      assert s[1..] == Repeat(c, n - 1) + rest;
      MarksOfRun(c, n - 1, rest);
    } else {
      assert s == rest;
    }
  }

  /** The letter and marks of a printed pitch, read where the accidental ends. */
  lemma PitchTextMarks(letter: Letter, octave: int, rest: string)
    requires rest != "" ==> !IsMark(rest[0])
    ensures var p := PitchText(letter, octave);
      && Marks(p[1..] + rest).0 == |p| - 1
      && Marks(p[1..] + rest).1 == (if octave >= 5 then octave - 5 else octave - 4)
  {
    var p := PitchText(letter, octave);
    var n := |p| - 1;
    if octave >= 5 {
      assert p[1..] == Repeat('\'', n);
      MarksOfRun('\'', n, rest);
    } else {
      assert p[1..] == Repeat(',', n);
      MarksOfRun(',', n, rest);
    }
  }

  lemma PitchTextHead(letter: Letter, octave: int)
    ensures var p := PitchText(letter, octave);
      p != "" && (if octave >= 5 then IsLowerNote(p[0]) && LetterOf(Upper(p[0])) == letter
                  else IsUpperNote(p[0]) && LetterOf(p[0]) == letter)
  {
  }

  /** Text that reads as a letter and octave marks, whatever follows it. */
  ghost predicate ReadsAsPitch(p: string, rest: string, letter: Letter, octave: int) {
    && p != ""
    && (IsUpperNote(p[0]) || IsLowerNote(p[0]))
    && letter == LetterOf(if IsUpperNote(p[0]) then p[0] else Upper(p[0]))
    && Marks(p[1..] + rest).0 == |p| - 1
    && Marks(p[1..] + rest).1 == octave - (if IsUpperNote(p[0]) then 4 else 5)
  }

  lemma PitchTextReadsAsPitch(letter: Letter, octave: int, rest: string)
    requires rest != "" ==> !IsMark(rest[0])
    ensures ReadsAsPitch(PitchText(letter, octave), rest, letter, octave)
  {
    PitchTextHead(letter, octave);
    PitchTextMarks(letter, octave, rest);
  }

  /** A pitch is read from where the accidental ends. */
  lemma PitchScans(s: string, i: nat, acc: Option<int>, p: string, letter: Letter, octave: int, rest: string)
    requires i <= |s| && s[i..] == p + rest && ReadsAsPitch(p, rest, letter, octave)
    requires Accidental(s) == (i, acc)
    ensures LexNote(s) == Some((Note(acc, letter, octave), i + |p|))
  {
    StandsAt(s, i, p, rest);
    NoteAt(s, i, acc, p[0], p[1..] + rest);
  }

  lemma StandsAt(s: string, i: nat, p: string, rest: string)
    requires i <= |s| && s[i..] == p + rest && p != ""
    ensures i < |s| && s[i] == p[0] && s[i + 1..] == p[1..] + rest
  {
    DropOne(s, i);
    TailOfSum(p, rest);
  }

  /** A letter and its marks, where the accidental ends. */
  lemma NoteAt(s: string, i: nat, acc: Option<int>, c: char, tail: string)
    requires i < |s| && Accidental(s) == (i, acc) && s[i] == c && s[i + 1..] == tail
    requires IsUpperNote(c) || IsLowerNote(c)
    ensures var letter := LetterOf(if IsUpperNote(c) then c else Upper(c));
      var octave := (if IsUpperNote(c) then 4 else 5) + Marks(tail).1;
      LexNote(s) == Some((Note(acc, letter, octave), i + 1 + Marks(tail).0))
  {
  }

  lemma DropOne(s: string, i: nat)
    requires i < |s|
    ensures s[i] == s[i..][0] && s[i + 1..] == s[i..][1..]
  {
  }

  lemma TailOfSum(p: string, rest: string)
    requires p != ""
    ensures (p + rest)[0] == p[0] && (p + rest)[1..] == p[1..] + rest
  {
  }

  lemma AccidentalScans(alt: int, rest: string)
    requires -2 <= alt <= 2 && rest != "" && !IsAccidental(rest[0])
    ensures Accidental(AccidentalText(alt) + rest) == (|AccidentalText(alt)|, Some(alt))
  {
    var s := AccidentalText(alt) + rest;
    assert s[|AccidentalText(alt)|] == rest[0];
    AccidentalByCharacters(s);
  }

  lemma AccidentalByCharacters(s: string)
    ensures "^^" <= s <==> |s| >= 2 && s[0] == '^' && s[1] == '^'
    ensures "__" <= s <==> |s| >= 2 && s[0] == '_' && s[1] == '_'
    ensures "^" <= s <==> s != "" && s[0] == '^'
    ensures "_" <= s <==> s != "" && s[0] == '_'
    ensures "=" <= s <==> s != "" && s[0] == '='
  {
  }

  lemma SpelledPitchScans(alt: int, p: string, letter: Letter, octave: int, rest: string)
    requires -2 <= alt <= 2 && ReadsAsPitch(p, rest, letter, octave)
    ensures LexNote(AccidentalText(alt) + (p + rest))
         == Some((Note(Some(alt), letter, octave), |AccidentalText(alt)| + |p|))
  {
    assert (p + rest)[0] == p[0];
    var prefix := AccidentalText(alt);
    AccidentalScans(alt, p + rest);
    PitchScans(prefix + (p + rest), |prefix|, Some(alt), p, letter, octave, rest);
  }

  lemma BarePitchScans(p: string, letter: Letter, octave: int, rest: string)
    requires ReadsAsPitch(p, rest, letter, octave)
    ensures LexNote(p + rest) == Some((Note(None, letter, octave), |p|))
  {
    assert (p + rest)[0] == p[0];
    AccidentalByCharacters(p + rest);
    PitchScans(p + rest, 0, None, p, letter, octave, rest);
  }

  lemma Associates(a: string, b: string, c: string)
    ensures (a + b) + c == a + (b + c)
  {
  }

  lemma NoteScans(t: Token, rest: string)
    requires t.Note? && TokenOk(t) && (rest != "" ==> !IsMark(rest[0]))
    ensures LexNote(Show(t) + rest) == Some((t, |Show(t)|))
  {
    var p := PitchText(t.letter, t.octave);
    PitchTextReadsAsPitch(t.letter, t.octave, rest);
    if t.acc.Some? {
      Associates(AccidentalText(t.acc.value), p, rest);
      SpelledPitchScans(t.acc.value, p, t.letter, t.octave, rest);
    } else {
      assert Show(t) == p;
      BarePitchScans(p, t.letter, t.octave, rest);
    }
  }

  lemma ShowNonempty(t: Token)
    requires TokenOk(t)
    ensures Show(t) != ""
  {
  }

  lemma PitchTextShape(letter: Letter, octave: int)
    ensures var p := PitchText(letter, octave);
      && p != "" && (IsUpperNote(p[0]) || IsLowerNote(p[0]))
      && forall i :: 0 < i < |p| ==> IsMark(p[i])
  {
  }

  /** The first characters of printed tokens. */
  lemma ShownSecond(toks: seq<Token>)
    requires Neat(toks) && |toks| > 1
    ensures ShowAll(toks[1..]) != "" && (ShowAll(toks[1..])[0] == ':' <==> toks[1] == Plain(':'))
    ensures ShowAll(toks) == Show(toks[0]) + ShowAll(toks[1..])
  {
    assert toks[1..][0] == toks[1];
    ShowNonempty(toks[1]);
    assert ShowAll(toks[1..])[0] == Show(toks[1])[0];
    if toks[1].Note? {
      PitchTextShape(toks[1].letter, toks[1].octave);
    }
  }

  lemma NoteOpensField(toks: seq<Token>)
    requires Neat(toks) && toks != [] && toks[0].Note?
    ensures OpensField(ShowAll(toks)) == BareThenColon(toks)
  {
    PitchTextShape(toks[0].letter, toks[0].octave);
    if |toks| > 1 {
      ShownSecond(toks);
    }
  }

  /** Printing and reading agree on whether an inline field could start here. */
  lemma OpensFieldAgrees(toks: seq<Token>)
    requires Neat(toks)
    ensures OpensField(ShowAll(toks)) <==> OpensFieldTokens(toks) || BareThenColon(toks)
  {
    if toks != [] {
      if |toks| > 1 {
        ShownSecond(toks);
      }
      if toks[0].Note? {
        NoteOpensField(toks);
      }
    }
  }

  lemma QuotedScans(text: string, rest: string)
    requires '"' !in text
    ensures LexOne("\"" + text + "\"" + rest) == (Quoted(text), |text| + 2)
  {
    var s := "\"" + text + "\"" + rest;
    var u := s[1..];
    assert u[|text|] == '"';
    assert forall j :: 0 <= j < |text| ==> u[j] == text[j];
    assert IndexOf(u, '"') == |text|;
    assert s[1..|text| + 1] == text;
  }

  lemma DecorationScans(text: string, rest: string)
    requires '!' !in text
    ensures LexOne("!" + text + "!" + rest) == (Decoration(text), |text| + 2)
  {
    var s := "!" + text + "!" + rest;
    var u := s[1..];
    assert u[|text|] == '!';
    assert forall j :: 0 <= j < |text| ==> u[j] == text[j];
    assert IndexOf(u, '!') == |text|;
    assert s[1..|text| + 1] == text;
  }

  lemma InlineScans(text: string, rest: string)
    requires OpensField(text) && ']' !in text
    ensures LexOne("[" + text + "]" + rest) == (Inline(text), |text| + 2)
  {
    var s := "[" + text + "]" + rest;
    assert s[1..] == text + ("]" + rest);
    assert OpensField(s[1..]);
    assert s[|text| + 1] == ']';
    assert forall j :: 0 < j < |text| + 1 ==> s[j] == text[j - 1];
    assert IndexOf(s, ']') == |text| + 1;
    assert s[1..|text| + 1] == text;
  }

  lemma UnclosedScans(text: string)
    requires TokenOk(Unclosed(text))
    ensures LexOne(text) == (Unclosed(text), |text|)
  {
  }

  lemma PlainScans(c: char, rest: string)
    requires TokenOk(Plain(c)) && (c == '[' ==> !OpensField(rest)) && LexNote([c] + rest).None?
    ensures LexOne([c] + rest) == (Plain(c), 1)
  {
    var s := [c] + rest;
    assert s[1..] == rest;
    assert s[0] == c;
  }

  lemma PlainIsNoNote(c: char, rest: string)
    requires TokenOk(Plain(c)) && !IsAccidental(c)
    ensures LexNote([c] + rest).None?
  {
    AccidentalByCharacters([c] + rest);
  }

  predicate IsLetter(c: char) {
    IsUpperNote(c) || IsLowerNote(c)
  }

  /** Where an accidental character starts a note: its letter comes next, or after the same character again. */
  lemma AccidentalStartsNote(c: char, rest: string)
    requires IsAccidental(c)
    ensures LexNote([c] + rest).Some? <==>
      && rest != ""
      && (IsLetter(rest[0]) || (c != '=' && rest[0] == c && |rest| > 1 && IsLetter(rest[1])))
  {
    var s := [c] + rest;
    AccidentalByCharacters(s);
    assert s[0] == c && (rest != "" ==> s[1] == rest[0]) && (|rest| > 1 ==> s[2] == rest[1]);
  }

  /** What a note's first two characters are. */
  lemma NoteHeads(t: Token)
    requires t.Note? && TokenOk(t)
    ensures var w := Show(t);
      && w != "" && (IsLetter(w[0]) <==> t.acc.None?)
      && (t.acc.Some? ==> IsAccidental(w[0]) && |w| > 1)
      && (t.acc.Some? ==> (w[0] == '^' <==> t.acc.value > 0) && (w[0] == '_' <==> t.acc.value < 0))
      && (t.acc.Some? ==> (IsLetter(w[1]) <==> -1 <= t.acc.value <= 1))
  {
    PitchTextShape(t.letter, t.octave);
    var p := PitchText(t.letter, t.octave);
    if t.acc.Some? {
      assert Show(t)[|AccidentalText(t.acc.value)|] == p[0];
    }
  }

  lemma ShownFirst(toks: seq<Token>)
    requires Neat(toks) && toks != []
    ensures ShowAll(toks) != "" && ShowAll(toks)[0] == Show(toks[0])[0]
    ensures IsLetter(ShowAll(toks)[0]) <==> toks[0].Note? && toks[0].acc.None?
  {
    ShowNonempty(toks[0]);
    if toks[0].Note? {
      NoteHeads(toks[0]);
    }
  }

  /** An accidental character in printed tokens starts a note exactly when one takes it. */
  lemma AccidentalIsTaken(c: char, toks: seq<Token>)
    requires IsAccidental(c) && Neat(toks)
    ensures LexNote([c] + ShowAll(toks)).Some? <==> TakenBy(c, toks)
  {
    AccidentalStartsNote(c, ShowAll(toks));
    if toks != [] {
      ShownFirst(toks);
      if c != '=' {
        SecondCharacter(c, toks);
      }
    }
  }

  lemma SecondCharacter(c: char, toks: seq<Token>)
    requires IsAccidental(c) && c != '=' && Neat(toks) && toks != []
    ensures ShowAll(toks)[0] == c && |ShowAll(toks)| > 1 && IsLetter(ShowAll(toks)[1]) <==>
      || (toks[0].Note? && toks[0].acc == Some(if c == '^' then 1 else -1))
      || (toks[0] == Plain(c) && |toks| > 1 && toks[1].Note? && toks[1].acc.None?)
  {
  }

  lemma LexOneNote(s: string)
    requires s != "" && s[0] != '"' && s[0] != '[' && s[0] != '!' && s[0] != '|' && LexNote(s).Some?
    ensures LexOne(s) == LexNote(s).value
  {
  }

  lemma NoteTokenScans(t: Token, rest: string)
    requires t.Note? && TokenOk(t) && (rest != "" ==> !IsMark(rest[0]))
    ensures LexOne(Show(t) + rest) == (t, |Show(t)|)
  {
    NoteScans(t, rest);
    NoteStarts(t);
    var s := Show(t) + rest;
    assert s[0] == Show(t)[0];
    LexOneNote(s);
  }

  lemma MarkFree(t: Token, toks: seq<Token>)
    requires t.Note? && Adjacent(t, toks) && Neat(toks)
    ensures ShowAll(toks) != "" ==> !IsMark(ShowAll(toks)[0])
  {
    if toks != [] {
      ShowNonempty(toks[0]);
      assert ShowAll(toks)[0] == Show(toks[0])[0];
      if toks[0].Note? {
        NoteStarts(toks[0]);
      }
    }
  }

  lemma PlainTokenScans(t: Token, toks: seq<Token>)
    requires t.Plain? && TokenOk(t) && Adjacent(t, toks) && Neat(toks)
    requires t == Plain('[') ==> !BareThenColon(toks)
    requires !TakenBy(t.c, toks)
    ensures LexOne(Show(t) + ShowAll(toks)) == (t, 1)
  {
    OpensFieldAgrees(toks);
    if IsAccidental(t.c) {
      AccidentalIsTaken(t.c, toks);
    } else {
      PlainIsNoNote(t.c, ShowAll(toks));
    }
    PlainScans(t.c, ShowAll(toks));
  }

  lemma NoteInTextScans(t: Token, toks: seq<Token>)
    requires t.Note? && TokenOk(t) && Adjacent(t, toks) && Neat(toks)
    ensures LexOne(Show(t) + ShowAll(toks)) == (t, |Show(t)|)
  {
    MarkFree(t, toks);
    NoteTokenScans(t, ShowAll(toks));
  }

  lemma UnclosedTokenScans(t: Token)
    requires t.Unclosed? && TokenOk(t)
    ensures LexOne(Show(t) + "") == (t, |Show(t)|)
  {
    assert Show(t) + "" == t.text;
    UnclosedScans(t.text);
  }

  lemma EnclosedTokenScans(t: Token, rest: string)
    requires TokenOk(t) && (t.Quoted? || t.Inline? || t.Decoration?)
    ensures LexOne(Show(t) + rest) == (t, |Show(t)|)
  {
    match t {
      case Quoted(text) => QuotedScans(text, rest);
      case Inline(text) => InlineScans(text, rest);
      case Decoration(text) => DecorationScans(text, rest);
    }
  }

  /** A printed token, with what follows it, scans as itself. */
  lemma TokenScans(t: Token, toks: seq<Token>)
    requires TokenOk(t) && Adjacent(t, toks) && Neat(toks)
    requires t == Plain('[') ==> !BareThenColon(toks)
    requires t.Plain? ==> !TakenBy(t.c, toks)
    ensures LexOne(Show(t) + ShowAll(toks)) == (t, |Show(t)|)
  {
    match t {
      case Note(_, _, _) => NoteInTextScans(t, toks);
      case Quoted(_) => EnclosedTokenScans(t, ShowAll(toks));
      case Inline(_) => EnclosedTokenScans(t, ShowAll(toks));
      case Decoration(_) => EnclosedTokenScans(t, ShowAll(toks));
      case Bar => BarScans(ShowAll(toks));
      case Plain(c) => PlainTokenScans(t, toks);
      case Unclosed(text) => UnclosedTokenScans(t);
    }
  }

  lemma BarScans(rest: string)
    ensures LexOne("|" + rest) == (Bar, 1)
  {
  }

  lemma NoteStarts(t: Token)
    requires t.Note? && TokenOk(t)
    ensures Show(t) != "" && (var c := Show(t)[0]; IsAccidental(c) || IsUpperNote(c) || IsLowerNote(c))
  {
    PitchTextShape(t.letter, t.octave);
  }

  /** Clean tokens, printed, scan back as the same tokens. */
  lemma {:induction false} LexShow(toks: seq<Token>)
    requires Clean(toks)
    ensures Lex(ShowAll(toks)) == toks
  {
    if toks != [] {
      CleanIsNeat(toks);
      TokenScans(toks[0], toks[1..]);
      ShowNonempty(toks[0]);
      LexShow(toks[1..]);
      assert ShowAll(toks)[|Show(toks[0])|..] == ShowAll(toks[1..]);
    }
  }

  /** And only those: a bracket reads as a field, or an accidental goes to the note after it. */
  lemma {:induction false} OnlyCleanScansBack(toks: seq<Token>)
    requires Neat(toks) && Lex(ShowAll(toks)) == toks
    ensures Clean(toks)
  {
    if toks != [] {
      ShowNonempty(toks[0]);
      var s := ShowAll(toks);
      LexUnfolds(s);
      if toks[0] == Plain('[') && BareThenColon(toks[1..]) {
        OpensFieldAgrees(toks[1..]);
        BracketOpensField(s, ShowAll(toks[1..]));
      } else if toks[0].Plain? && TakenBy(toks[0].c, toks[1..]) {
        AccidentalIsTaken(toks[0].c, toks[1..]);
        assert s == [toks[0].c] + ShowAll(toks[1..]);
        LexOneNote(s);
      } else {
        TokenScans(toks[0], toks[1..]);
        assert s[|Show(toks[0])|..] == ShowAll(toks[1..]);
        OnlyCleanScansBack(toks[1..]);
      }
    }
  }

  lemma LexUnfolds(s: string)
    requires s != ""
    ensures var (t, n) := LexOne(s); Lex(s) != [] && Lex(s)[0] == t && Lex(s)[1..] == Lex(s[n..])
  {
  }

  lemma BracketOpensField(s: string, rest: string)
    requires s == "[" + rest && OpensField(rest)
    ensures !LexOne(s).0.Plain?
  {
    assert s[1..] == rest;
  }
}
