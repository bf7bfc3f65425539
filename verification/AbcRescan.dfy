/**
  Reading the rewriter's output back: when music, moved and printed, scans to
  exactly the moved tokens.
*/
module AbcRescan {
  import opened Prelude
  import opened GoArith
  import opened GoText
  import opened AbcKeys
  import opened AbcIntervals
  import opened AbcTokens
  import opened AbcMoves

  // ---------- Tokens cut from text are clean ----------

  lemma AccidentalRange(s: string)
    ensures var (n, acc) := Accidental(s);
      && n <= |s| && (acc.Some? ==> -2 <= acc.value <= 2)
      && (n == 0 <==> s == "" || !IsAccidental(s[0]))
  {
  }

  lemma ScannedTokenOk(s: string)
    requires s != "" && LexOne(s).0 != EmptyInline
    ensures TokenOk(LexOne(s).0)
  {
    AccidentalRange(s);
    var t := LexOne(s).0;
    if t.Inline? {
      var end := IndexOf(s, ']');
      assert s[2] == s[1..][1] == ':';
      assert end >= 3;
      assert t.text == s[1..end] && t.text[1] == s[2];
    } else if t.Unclosed? && s[0] == '[' {
      assert ']' !in s;
    }
  }

  lemma PlainIsFirst(s: string)
    requires s != "" && LexOne(s).0.Plain?
    ensures LexOne(s) == (Plain(s[0]), 1)
  {
  }

  lemma FieldTokensComeFromFieldText(s: string)
    requires OpensFieldTokens(Lex(s))
    ensures OpensField(s)
  {
    LexUnfolds(s);
    var (t, n) := LexOne(s);
    if t.Bar? || t.Plain? {
      assert n == 1;
      LexUnfolds(s[1..]);
      PlainIsFirst(s[1..]);
    }
  }

  lemma ScannedAdjacent(s: string)
    requires s != ""
    ensures var (t, n) := LexOne(s); Adjacent(t, Lex(s[n..]))
  {
    var (t, n) := LexOne(s);
    if t.Note? && n < |s| {
      LexUnfolds(s[n..]);
      if LexOne(s[n..]).0.Plain? {
        PlainIsFirst(s[n..]);
      }
    } else if t.Plain? && OpensFieldTokens(Lex(s[n..])) {
      PlainIsFirst(s);
      FieldTokensComeFromFieldText(s[1..]);
    }
  }

  lemma {:induction false} LexIsNeat(s: string)
    requires EmptyInline !in Lex(s)
    ensures Neat(Lex(s))
    decreases |s|
  {
    if s != "" {
      LexUnfolds(s);
      var n := LexOne(s).1;
      assert Lex(s)[0] in Lex(s) && forall t :: t in Lex(s)[1..] ==> t in Lex(s);
      LexIsNeat(s[n..]);
      ScannedTokenOk(s);
      ScannedAdjacent(s);
    }
  }

  lemma {:induction false} AcceptedHasNoEmpty(st: State, toks: seq<Token>)
    requires MoveTokens(st, toks).Ok?
    ensures EmptyInline !in toks
    decreases |toks|
  {
    if toks != [] {
      AcceptedHasNoEmpty(MoveToken(st, toks[0]).value.0, toks[1..]);
      assert forall t :: t in toks ==> t == toks[0] || t in toks[1..];
    }
  }

  // ---------- Moving keeps tokens neat ----------

  lemma KeyNameIsAscii(k: Key)
    ensures KeyName(k) != "" && forall c :: c in KeyName(k) ==> c == '#' || c == 'b' || c == 'm' || IsUpperNote(c)
  {
  }

  lemma PitchNameTextIsAscii(l: Letter, alt: int)
    ensures PitchNameText(l, alt) != "" && IsUpperNote(PitchNameText(l, alt)[0])
    ensures forall c :: c in PitchNameText(l, alt) ==> c == '#' || c == 'b' || IsUpperNote(c)
  {
  }

  /** A character outside key names gets into a key field only from its trailing text. */
  lemma SetKeyCharacters(st: State, value: string, semitones: int, c: char)
    requires SetKey(st, value, semitones).Ok? && c !in value
    requires c != '#' && c != 'b' && c != 'm' && c != ' ' && !IsUpperNote(c)
    ensures c !in SetKey(st, value, semitones).value.1
  {
    TrimmedEnds(value);
    var (name, rest) := CutAtSpace(TrimSpace(value));
    var to := TargetFor(st, ParseKey(name).value, semitones).value.0;
    KeyNameIsAscii(to);
    assert c !in rest;
    assert c !in KeyText(to, rest);
  }

  lemma MovePitchCharacters(iv: Interval, l: Letter, alt: int, c: char)
    requires MovePitch(iv, l, alt).Ok? && c != '#' && c != 'b' && !IsUpperNote(c)
    ensures c !in MovePitch(iv, l, alt).value
    ensures MovePitch(iv, l, alt).value != "" && IsUpperNote(MovePitch(iv, l, alt).value[0])
  {
    PitchNameTextIsAscii(MovedLetter(l, iv.steps), MovedAlt(l, alt, iv));
  }

  lemma MoveChordCharacters(iv: Interval, sym: string, c: char)
    requires MoveChord(iv, sym).Ok? && c !in sym
    requires c != '#' && c != 'b' && c != '/' && !IsUpperNote(c)
    ensures c !in MoveChord(iv, sym).value
    ensures var moved := MoveChord(iv, sym).value;
      (moved != "" && moved[0] == ':') <==> (sym != "" && sym[0] == ':')
  {
    match PitchName(sym) {
      case None =>
      case Some((l, alt, n)) =>
        MovePitchCharacters(iv, l, alt, c);
        var q := sym[n..];
        match Bass(q) {
          case None =>
          case Some((slash, bl, ba)) =>
            MovePitchCharacters(iv, bl, ba, c);
            assert c !in q[..slash];
        }
    }
  }

  /** What of a token its neighbours can see. */
  ghost predicate SameOutline(t: Token, u: Token) {
    match t
    case Note(_, _, _) => u.Note?
    case Quoted(text) => u.Quoted? && ((u.text != "" && u.text[0] == ':') <==> (text != "" && text[0] == ':'))
    case Inline(text) => u.Inline? && ((u.text != "" && u.text[0] == ':') <==> (text != "" && text[0] == ':'))
    case _ => u == t
  }

  lemma MovedTokenOk(st: State, t: Token)
    requires TokenOk(t) && MoveToken(st, t).Ok?
    ensures TokenOk(MoveToken(st, t).value.1) && SameOutline(t, MoveToken(st, t).value.1)
  {
    match t {
      case Quoted(text) =>
        MoveChordCharacters(st.iv, text, '"');
      case Inline(text) =>
        if "K" <= text {
          SetKeyCharacters(st, text[2..], st.iv.semitones, ']');
        }
      case _ =>
    }
  }

  lemma SameOutlineAdjacent(t: Token, toks: seq<Token>, u: Token, us: seq<Token>)
    requires SameOutline(t, u) && |toks| == |us| && forall i :: 0 <= i < |toks| ==> SameOutline(toks[i], us[i])
    requires Adjacent(t, toks)
    ensures Adjacent(u, us)
  {
    if toks != [] {
      assert SameOutline(toks[0], us[0]);
      if |toks| > 1 {
        assert SameOutline(toks[1], us[1]);
      }
    }
  }

  lemma {:induction false} MovedTokensNeat(st: State, toks: seq<Token>)
    requires Neat(toks) && MoveTokens(st, toks).Ok?
    ensures var us := MoveTokens(st, toks).value.1;
      Neat(us) && forall i :: 0 <= i < |toks| ==> SameOutline(toks[i], us[i])
    decreases |toks|
  {
    if toks != [] {
      MovedTokenOk(st, toks[0]);
      var (st1, u) := MoveToken(st, toks[0]).value;
      MovedTokensNeat(st1, toks[1..]);
      var us := MoveTokens(st1, toks[1..]).value.1;
      assert forall i :: 0 <= i < |toks[1..]| ==> SameOutline(toks[1..][i], us[i]);
      SameOutlineAdjacent(toks[0], toks[1..], u, us);
      assert ([u] + us)[1..] == us;
      forall i | 0 <= i < |toks|
        ensures SameOutline(toks[i], ([u] + us)[i])
      {
        if i > 0 {
          assert toks[i] == toks[1..][i - 1];
        }
      }
    }
  }

  /** The first token moved, and then the rest. */
  lemma MovedTail(st: State, toks: seq<Token>)
    requires toks != [] && MoveTokens(st, toks).Ok?
    ensures var (st1, u) := MoveToken(st, toks[0]).value;
      var us := MoveTokens(st, toks).value.1;
      && MoveTokens(st1, toks[1..]).Ok? && us[0] == u && us[1..] == MoveTokens(st1, toks[1..]).value.1
      && ShowAll(us) == Show(u) + ShowAll(us[1..])
  {
  }

  lemma BareNoteMoves(st: State, t: Token)
    requires t.Note? && MoveToken(st, t).Ok?
    ensures var u := MoveToken(st, t).value.1;
      && u.Note? && u.acc == PrintedAcc(st, t.acc, t.letter, t.octave)
      && (u.acc.None? && 4 <= u.octave <= 5 <==> PrintsBare(st, t.acc, t.letter, t.octave))
  {
  }

  lemma BareMoves(st: State, toks: seq<Token>)
    requires Neat(toks) && MoveTokens(st, toks).Ok?
    ensures BareThenColon(MoveTokens(st, toks).value.1) <==> BareBeforeColon(st, toks)
  {
    MovedTokensNeat(st, toks);
    if |toks| > 1 {
      MovedTail(st, toks);
      assert SameOutline(toks[0], MoveTokens(st, toks).value.1[0]);
      assert SameOutline(toks[1], MoveTokens(st, toks).value.1[1]);
      if toks[0].Note? {
        BareNoteMoves(st, toks[0]);
      }
    }
  }

  /** A plain token leaves the state alone, so the note after it is printed as it would be now. */
  lemma TakenMoves(st: State, c: char, toks: seq<Token>)
    requires Neat(toks) && MoveTokens(st, toks).Ok?
    ensures TakenBy(c, MoveTokens(st, toks).value.1) <==> TakenBefore(st, c, toks)
  {
    MovedTokensNeat(st, toks);
    if toks != [] {
      MovedTail(st, toks);
      assert SameOutline(toks[0], MoveTokens(st, toks).value.1[0]);
      if toks[0].Note? {
        BareNoteMoves(st, toks[0]);
      } else if toks[0].Plain? && |toks| > 1 {
        MovedTail(st, toks[1..]);
        assert SameOutline(toks[1], MoveTokens(st, toks).value.1[1]);
        if toks[1].Note? {
          BareNoteMoves(st, toks[1]);
        }
      }
    }
  }

  /** Moved tokens are clean unless a bracket or an accidental now runs into a note. */
  lemma {:induction false} MovedTokensClean(st: State, toks: seq<Token>)
    requires Neat(toks) && MoveTokens(st, toks).Ok?
    ensures Clean(MoveTokens(st, toks).value.1) <==> RunsApart(st, toks)
    decreases |toks|
  {
    if toks != [] {
      MovedTokensNeat(st, toks);
      MovedTail(st, toks);
      var (st1, u) := MoveToken(st, toks[0]).value;
      MovedTokensClean(st1, toks[1..]);
      assert SameOutline(toks[0], MoveTokens(st, toks).value.1[0]);
      if toks[0].Plain? {
        BareMoves(st, toks[1..]);
        TakenMoves(st, toks[0].c, toks[1..]);
      }
    }
  }

  /** Accepted music moves to music that scans back as the moved tokens, exactly when nothing runs together. */
  lemma MovedMusicScansExactly(st: State, line: string)
    requires MoveTokens(st, Lex(line)).Ok?
    ensures var us := MoveTokens(st, Lex(line)).value.1; Lex(ShowAll(us)) == us <==> RunsApart(st, Lex(line))
  {
    var us := MoveTokens(st, Lex(line)).value.1;
    AcceptedHasNoEmpty(st, Lex(line));
    LexIsNeat(line);
    MovedTokensNeat(st, Lex(line));
    MovedTokensClean(st, Lex(line));
    if Clean(us) {
      LexShow(us);
    } else if Lex(ShowAll(us)) == us {
      OnlyCleanScansBack(us);
    }
  }
}
