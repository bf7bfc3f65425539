/**
  Reading whole lines back: what kind a line is, which text it may hold, and
  that neither changes when the line is rewritten.
*/
module AbcLines {
  import opened Prelude
  import opened GoArith
  import opened GoText
  import opened AbcKeys
  import opened AbcIntervals
  import opened AbcTokens
  import opened AbcMoves
  import opened AbcInvariants
  import opened AbcRescan

  // ---------- The kind of a line is decided by its first visible characters ----------

  predicate MusicText(u: string) {
    u != "" && u[0] != '%' && !IsField(u)
  }

  predicate MusicTokens(toks: seq<Token>)
    decreases |toks|
  {
    toks != [] &&
    match toks[0]
    case Plain(c) =>
      if IsSpace(c) then MusicTokens(toks[1..])
      else c != '%' && !(('A' <= c <= 'Z' || 'a' <= c <= 'z') && |toks| > 1 && toks[1] == Plain(':'))
    case _ => true
  }

  /** Trimming keeps the first visible characters. */
  lemma TrimmedHeads(line: string)
    ensures var u, t := TrimLeft(line), TrimSpace(line);
      && |t| <= |u| && t == u[..|t|]
      && (u != "" ==> t != "")
      && (|u| >= 2 && u[1] == ':' ==> |t| >= 2)
  {
    var u := TrimLeft(line);
    TrimLeftKeeps(line);
    TrimRightKeeps(u);
  }

  lemma KindByFirstCharacters(line: string)
    ensures KindOf(true, line) == Music <==> MusicText(TrimLeft(line))
    ensures KindOf(true, line).KeyLine? <==> "K:" <= TrimLeft(line)
  {
    TrimmedHeads(line);
  }

  lemma {:induction false} MusicTextScans(s: string)
    requires MusicText(TrimLeft(s))
    ensures MusicTokens(Lex(s))
    decreases |s|
  {
    if s != "" {
      LexUnfolds(s);
      var (t, n) := LexOne(s);
      if t.Plain? {
        PlainIsFirst(s);
        if IsSpace(s[0]) {
          MusicTextScans(s[1..]);
        } else if |s| > 1 {
          LexUnfolds(s[1..]);
          if LexOne(s[1..]).0.Plain? {
            PlainIsFirst(s[1..]);
          }
        }
      }
    }
  }

  predicate IsFieldLetter(c: char) {
    'A' <= c <= 'Z' || 'a' <= c <= 'z'
  }

  /** An unclosed construct starts with the character that opened it. */
  predicate Opened(t: Token) {
    t.Unclosed? ==> t.text != "" && (t.text[0] == '"' || t.text[0] == '!' || t.text[0] == '[')
  }

  lemma {:induction false} ScannedAreOpened(s: string)
    ensures forall i :: 0 <= i < |Lex(s)| ==> Opened(Lex(s)[i])
    decreases |s|
  {
    if s != "" {
      LexUnfolds(s);
      ScannedAreOpened(s[LexOne(s).1..]);
      forall i | 0 <= i < |Lex(s)|
        ensures Opened(Lex(s)[i])
      {
        if i > 0 {
          assert Lex(s)[i] == Lex(s)[1..][i - 1];
        }
      }
    }
  }

  /** What the first character of a moved token gives away. */
  lemma MovedHead(st: State, t: Token)
    requires Opened(t) && MoveToken(st, t).Ok?
    ensures var u := MoveToken(st, t).value.1;
      && Show(u) != ""
      && (Show(u)[0] == ':' <==> t == Plain(':'))
      && (!t.Plain? ==> !IsSpace(Show(u)[0]) && Show(u)[0] != '%')
      && (IsFieldLetter(Show(u)[0]) ==> t.Plain? || t.Note?)
  {
    var u := MoveToken(st, t).value.1;
    if t.Note? {
      NoteMoves(st, t.acc, t.letter, t.octave);
      NoteStarts(u);
    }
  }

  lemma BareNote(u: Token)
    requires u.Note? && TokenOk(u)
    ensures IsFieldLetter(Show(u)[0]) <==> u.acc.None?
    ensures |Show(u)| == 1 <==> u.acc.None? && 4 <= u.octave <= 5
    ensures |Show(u)| > 1 && u.acc.None? ==> Show(u)[1] != ':'
  {
    PitchTextShape(u.letter, u.octave);
  }

  lemma TwoHeads(st: State, toks: seq<Token>)
    requires toks != [] && MoveTokens(st, toks).Ok? && forall i :: 0 <= i < |toks| ==> Opened(toks[i])
    ensures var us := MoveTokens(st, toks).value.1;
      && (toks[1..] == [] ==> ShowAll(us[1..]) == "")
      && (toks[1..] != [] ==> ShowAll(us[1..]) != "" && (ShowAll(us[1..])[0] == ':' <==> toks[1] == Plain(':')))
  {
    MovedTail(st, toks);
    if toks[1..] != [] {
      var st1 := MoveToken(st, toks[0]).value.0;
      MovedTail(st1, toks[1..]);
      assert toks[1..][0] == toks[1];
      MovedHead(st1, toks[1]);
    }
  }

  lemma {:induction false} MovedIsMusic(st: State, toks: seq<Token>)
    requires MoveTokens(st, toks).Ok? && MusicTokens(toks)
    requires forall i :: 0 <= i < |toks| ==> Opened(toks[i])
    ensures MusicText(TrimLeft(ShowAll(MoveTokens(st, toks).value.1))) <==> !BecomesField(st, toks)
    decreases |toks|
  {
    var t, us := toks[0], MoveTokens(st, toks).value.1;
    var s, rest := ShowAll(us), ShowAll(us[1..]);
    MovedTail(st, toks);
    MovedHead(st, t);
    if t.Plain? && IsSpace(t.c) {
      assert forall i :: 0 <= i < |toks[1..]| ==> toks[1..][i] == toks[i + 1];
      MovedIsMusic(st, toks[1..]);
      assert s[1..] == rest;
    } else {
      assert TrimLeft(s) == s;
      TwoHeads(st, toks);
      assert |s| > |Show(us[0])| ==> s[|Show(us[0])|] == rest[0];
      if t.Note? {
        NoteMoves(st, t.acc, t.letter, t.octave);
        BareNoteMoves(st, t);
        BareNote(us[0]);
      }
    }
  }

  /**
    A moved line of music reads back as music unless its first note stands
    before a colon and loses its accidental and octave marks on the way; then,
    and only then, it reads back as a field.
  */
  lemma MusicStaysMusicExactly(st: State, line: string)
    requires KindOf(true, line) == Music && MoveTokens(ResetBar(st), Lex(line)).Ok?
    ensures KindOf(true, ShowAll(MoveTokens(ResetBar(st), Lex(line)).value.1)) == Music
      <==> !BecomesField(ResetBar(st), Lex(line))
  {
    KindByFirstCharacters(line);
    MusicTextScans(line);
    ScannedAreOpened(line);
    MovedIsMusic(ResetBar(st), Lex(line));
    KindByFirstCharacters(ShowAll(MoveTokens(ResetBar(st), Lex(line)).value.1));
  }

  /**
    Exactly when a moved line of music reads back as music and as the moved tokens:
    no note in it runs into a colon, a bracket or an accidental beside it.
  */
  lemma MusicReadsBackExactly(st: State, line: string)
    requires KindOf(true, line) == Music && MoveTokens(ResetBar(st), Lex(line)).Ok?
    ensures var us := MoveTokens(ResetBar(st), Lex(line)).value.1;
      KindOf(true, ShowAll(us)) == Music && Lex(ShowAll(us)) == us <==> NotesApart(ResetBar(st), Lex(line))
  {
    MusicStaysMusicExactly(st, line);
    MovedMusicScansExactly(ResetBar(st), line);
  }

  // ---------- A rewritten line is one line ----------

  lemma PitchTextOneLine(letter: Letter, octave: int)
    ensures '\n' !in PitchText(letter, octave)
  {
  }

  lemma NoteOneLine(t: Token)
    requires t.Note?
    ensures '\n' !in Show(t)
  {
    PitchTextOneLine(t.letter, t.octave);
  }

  /** The characters of a token that is not a note come from the text. */
  lemma ScannedCharacters(s: string)
    requires s != "" && !LexOne(s).0.Note? && !LexOne(s).0.EmptyInline?
    ensures match LexOne(s).0
      case Quoted(text) => forall c :: c in text ==> c in s
      case Inline(text) => forall c :: c in text ==> c in s
      case Decoration(text) => forall c :: c in text ==> c in s
      case Unclosed(text) => text == s
      case Plain(c) => c in s
      case _ => true
  {
  }

  lemma ScannedOneLine(s: string)
    requires s != "" && '\n' !in s
    ensures '\n' !in Show(LexOne(s).0)
  {
    var t := LexOne(s).0;
    if t.Note? {
      NoteOneLine(t);
    } else if !t.EmptyInline? {
      ScannedCharacters(s);
      ShownOneLine(t);
    }
  }

  lemma ShownOneLine(t: Token)
    requires match t
      case Quoted(text) => '\n' !in text
      case Inline(text) => '\n' !in text
      case Decoration(text) => '\n' !in text
      case Unclosed(text) => '\n' !in text
      case Plain(c) => c != '\n'
      case Note(_, _, _) => false
      case _ => true
    ensures '\n' !in Show(t)
  {
  }

  lemma MovedOneLine(st: State, t: Token)
    requires '\n' !in Show(t) && MoveToken(st, t).Ok?
    ensures '\n' !in Show(MoveToken(st, t).value.1)
  {
    match t {
      case Note(acc, letter, octave) => NoteOneLine(MoveToken(st, t).value.1);
      case Quoted(text) => QuotedOneLine(st, text);
      case Inline(text) => InlineOneLine(st, text);
      case _ =>
    }
  }

  lemma QuotedOneLine(st: State, text: string)
    requires '\n' !in Show(Quoted(text)) && MoveToken(st, Quoted(text)).Ok?
    ensures '\n' !in Show(MoveToken(st, Quoted(text)).value.1)
  {
    assert forall i :: 0 <= i < |text| ==> text[i] == Show(Quoted(text))[i + 1];
    MoveChordCharacters(st.iv, text, '\n');
  }

  lemma InlineOneLine(st: State, text: string)
    requires '\n' !in Show(Inline(text)) && MoveToken(st, Inline(text)).Ok?
    ensures '\n' !in Show(MoveToken(st, Inline(text)).value.1)
  {
    assert forall i :: 0 <= i < |text| ==> text[i] == Show(Inline(text))[i + 1];
    if "K" <= text && |text| >= 2 {
      SetKeyCharacters(st, text[2..], st.iv.semitones, '\n');
    }
  }

  lemma {:induction false} MovedMusicOneLine(st: State, line: string)
    requires '\n' !in line && MoveTokens(st, Lex(line)).Ok?
    ensures '\n' !in ShowAll(MoveTokens(st, Lex(line)).value.1)
    decreases |line|
  {
    if line != "" {
      LexUnfolds(line);
      var (t, n) := LexOne(line);
      ScannedOneLine(line);
      MovedOneLine(st, t);
      var (st1, u) := MoveToken(st, t).value;
      MovedMusicOneLine(st1, line[n..]);
      var us := MoveTokens(st1, Lex(line[n..])).value.1;
      assert ([u] + us)[1..] == us;
    }
  }

  lemma MovedLineIsOneLine(st: State, line: string, semitones: int)
    requires '\n' !in line && MoveLine(st, line, semitones).Ok?
    ensures '\n' !in MoveLine(st, line, semitones).value.1
  {
    match KindOf(st.keyed, line) {
      case KeyLine(value) =>
        TrimmedEnds(line);
        assert '\n' !in value;
        SetKeyCharacters(st, value, semitones, '\n');
      case Copied =>
      case Music => MovedMusicOneLine(ResetBar(st), line);
    }
  }

  lemma {:induction false} MovedLinesAreLines(st: State, lines: seq<string>, semitones: int)
    requires Free(lines, '\n') && MoveLines(st, lines, semitones).Ok?
    ensures Free(MoveLines(st, lines, semitones).value.1, '\n')
    decreases |lines|
  {
    if lines != [] {
      MovedLineIsOneLine(st, lines[0], semitones);
      var (st1, line) := MoveLine(st, lines[0], semitones).value;
      MovedLinesAreLines(st1, lines[1..], semitones);
    }
  }

  /** Splitting the rewritten score gives the rewritten lines. */
  lemma RewrittenScoreSplits(score: string, semitones: int)
    requires Rewrite(score, semitones).Ok?
    ensures Split(Rewrite(score, semitones).value, '\n')
         == MoveLines(START, Split(score, '\n'), semitones).value.1
  {
    SplitIsFree(score, '\n');
    MovedLinesAreLines(START, Split(score, '\n'), semitones);
    SplitJoin(MoveLines(START, Split(score, '\n'), semitones).value.1, '\n');
  }

  // ---------- A rewritten score ----------

  /** Every rewritten line of music is music again, and scans as its moved tokens. */
  predicate ReadBack(st: State, lines: seq<string>, outs: seq<string>, semitones: int)
    requires |outs| == |lines|
    decreases |lines|
  {
    lines != [] ==>
      && (KindOf(st.keyed, lines[0]) == Music && MoveTokens(ResetBar(st), Lex(lines[0])).Ok? ==>
           KindOf(true, outs[0]) == Music && Lex(outs[0]) == MoveTokens(ResetBar(st), Lex(lines[0])).value.1)
      && (MoveLine(st, lines[0], semitones).Ok? ==>
           ReadBack(MoveLine(st, lines[0], semitones).value.0, lines[1..], outs[1..], semitones))
  }

  lemma {:induction false} LinesReadBackExactly(st: State, lines: seq<string>, outs: seq<string>, semitones: int)
    requires MoveLines(st, lines, semitones).Ok? && outs == MoveLines(st, lines, semitones).value.1
    ensures ReadBack(st, lines, outs, semitones) <==> NotesLegibleLines(st, lines, semitones)
    decreases |lines|
  {
    if lines != [] {
      var (st1, out) := MoveLine(st, lines[0], semitones).value;
      var rest := MoveLines(st1, lines[1..], semitones).value.1;
      assert outs == [out] + rest && outs[0] == out && outs[1..] == rest;
      LinesReadBackExactly(st1, lines[1..], rest, semitones);
      if KindOf(st.keyed, lines[0]) == Music {
        MusicReadsBackExactly(st, lines[0]);
      }
    }
  }

  /** Split and scanned, a rewritten score gives the moved tokens on every line of music exactly when it is legible. */
  lemma ScoreReadsBackExactly(score: string, semitones: int)
    requires Rewrite(score, semitones).Ok?
    ensures var lines, outs := Split(score, '\n'), Split(Rewrite(score, semitones).value, '\n');
      |outs| == |lines| && (ReadBack(START, lines, outs, semitones) <==> NotesLegible(score, semitones))
  {
    RewrittenScoreSplits(score, semitones);
    LinesReadBackExactly(START, Split(score, '\n'), Split(Rewrite(score, semitones).value, '\n'), semitones);
  }
}
