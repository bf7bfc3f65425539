/**
  Comments after music. The scan does not stop at a percent sign, so what
  follows it on a line of music is moved like the music before it: exactly when
  it comes through unchanged, and exactly when it gets the score refused.
*/
module AbcComments {
  import opened Prelude
  import opened GoArith
  import opened GoText
  import opened AbcKeys
  import opened AbcIntervals
  import opened AbcTokens
  import opened AbcMoves
  import opened AbcInvariants
  import opened AbcRescan
  import opened AbcLines
  import opened AbcReading
  import opened AbcComposition
  import opened AbcPlaces
  import opened AbcGuards

  lemma NoTurns(iv: Interval)
    requires -12 < iv.semitones < 12 && iv.semitones != 0
    ensures Delta(iv) != 0
  {
    assert Delta(iv) == 0 ==> iv.semitones == 12 * (3 * iv.semitones - 5 * iv.steps);
  }

  /**
    A note comes through unchanged only under a shift that keeps every letter,
    such as D flat to D, and then only with no accidental, read from its
    signature, and on a letter that has carried none in its bar.
  */
  predicate NoteStays(st: State, acc: Option<int>, l: Letter, octave: int) {
    && st.iv.steps == 0
    && acc.None? && ReadAlt(st, acc, l, octave) == st.srcSig[l] && !st.touched[l]
  }

  predicate TokenStays(st: State, t: Token) {
    match t
    case Note(acc, l, octave) => NoteStays(st, acc, l, octave)
    case Quoted(text) => PitchName(text).None?
    case Inline(text) => !IsKeyField(t)
    case _ => true
  }

  predicate TextStays(st: State, toks: seq<Token>)
    decreases |toks|
  {
    toks != [] ==>
      && TokenStays(st, toks[0])
      && (MoveToken(st, toks[0]).Ok? ==> TextStays(MoveToken(st, toks[0]).value.0, toks[1..]))
  }

  lemma NoteUnderSteps(st: State, t: Token)
    requires t.Note? && st.iv.steps != 0 && MoveToken(st, t).Ok?
    ensures MoveToken(st, t).value.1 != t
  {
    var u := MoveToken(st, t).value.1;
    NoteMoves(st, t.acc, t.letter, t.octave);
    assert u.letter + 7 * u.octave == t.letter + 7 * t.octave + st.iv.steps;
  }

  lemma SameLetter(l: Letter, alt: int, iv: Interval)
    requires iv.steps == 0
    ensures MovedLetter(l, iv.steps) == l && FloorDiv(l + iv.steps, 7) == 0 && MovedAlt(l, alt, iv) == alt + iv.semitones
  {
    EuclideanUnique(l + iv.steps, 7, 0, l);
  }

  lemma NoteInPlace(st: State, t: Token)
    requires t.Note? && StateOk(st) && st.keyed && st.iv.steps == 0 && st.iv.semitones != 0 && MoveToken(st, t).Ok?
    ensures MoveToken(st, t).value.1 == t <==> NoteStays(st, t.acc, t.letter, t.octave)
  {
    var alt := ReadAlt(st, t.acc, t.letter, t.octave);
    NoteMoves(st, t.acc, t.letter, t.octave);
    SameLetter(t.letter, alt, st.iv);
    SameLetter(t.letter, st.srcSig[t.letter], st.iv);
    assert MovedAlt(t.letter, st.srcSig[t.letter], st.iv) == st.dstSig[MovedLetter(t.letter, st.iv.steps)];
  }

  lemma SameLastSlash(s: string, i: nat, j: nat)
    requires i < |s| && s[i] == '/' && (forall k :: i < k < |s| ==> s[k] != '/')
    requires j < |s| && s[j] == '/' && (forall k :: j < k < |s| ==> s[k] != '/')
    ensures i == j
  {
  }

  lemma SlashAfterRoot(root: string, head: string, bass: string)
    requires '/' !in bass
    ensures var s, i := root + (head + "/" + bass), |root| + |head|;
      i < |s| && s[i] == '/' && forall k :: i < k < |s| ==> s[k] != '/'
  {
    var s, i := root + (head + "/" + bass), |root| + |head|;
    assert s == (root + head) + "/" + bass;
    assert forall k :: i < k < |s| ==> s[k] == bass[k - i - 1];
  }

  /** Text that stays the same has its root's end at the same place: the last slash does not move. */
  lemma SameRoot(iv: Interval, root: string, q: string, root1: string)
    requires MoveQuality(iv, q).Ok? && root + q == root1 + MoveQuality(iv, q).value
    ensures root == root1
  {
    match Bass(q) {
      case None =>
      case Some((slash, l, alt)) =>
        MovePitchWrites(iv, l, alt);
        PitchNameTextHasNoSlash(MovedLetter(l, iv.steps), MovedAlt(l, alt, iv));
        var text := PitchNameText(MovedLetter(l, iv.steps), MovedAlt(l, alt, iv));
        assert q == q[..slash] + "/" + q[slash + 1..];
        assert '/' !in q[slash + 1..] by { BassIsLast(q); }
        SlashAfterRoot(root, q[..slash], q[slash + 1..]);
        SlashAfterRoot(root1, q[..slash], text);
        SameLastSlash(root + q, |root| + slash, |root1| + slash);
    }
    assert (root + q)[..|root|] == root && (root1 + MoveQuality(iv, q).value)[..|root1|] == root1;
  }

  lemma BassIsLast(q: string)
    requires Bass(q).Some?
    ensures '/' !in q[Bass(q).value.0 + 1..]
  {
    var slash := Bass(q).value.0;
    assert slash == LastIndexOf(q, '/');
    var bass := q[slash + 1..];
    forall k | 0 <= k < |bass|
      ensures bass[k] != '/'
    {
      assert bass[k] == q[slash + 1 + k];
    }
  }

  lemma RootTextIsOneToOne(l: Letter, alt: int, m: Letter, balt: int)
    requires -2 <= alt <= 2 && -2 <= balt <= 2 && PitchNameText(l, alt) == PitchNameText(m, balt)
    ensures l == m && alt == balt
  {
    PitchNameReadsBack(l, alt, "");
    PitchNameReadsBack(m, balt, "");
    assert PitchNameText(l, alt) + "" == PitchNameText(m, balt) + "";
  }

  lemma ChordChanges(iv: Interval, sym: string)
    requires PitchName(sym).Some? && MoveChord(iv, sym).Ok? && Delta(iv) != 0
    ensures MoveChord(iv, sym).value != sym
  {
    var (l, alt, n) := PitchName(sym).value;
    var l1, alt1 := MovedLetter(l, iv.steps), MovedAlt(l, alt, iv);
    MovePitchWrites(iv, l, alt);
    PitchNameIsItsText(sym);
    assert sym == sym[..n] + sym[n..];
    if MoveChord(iv, sym).value == sym {
      SameRoot(iv, PitchNameText(l, alt), sym[n..], PitchNameText(l1, alt1));
      RootTextIsOneToOne(l, alt, l1, alt1);
      MovingIsAShift(l, alt, iv);
    }
  }

  lemma KeyFieldChanges(st: State, t: Token)
    requires IsKeyField(t) && StateOk(st) && st.keyed && Delta(st.iv) != 0 && MoveToken(st, t).Ok?
    ensures MoveToken(st, t).value.1 != t
  {
    var value := t.text[2..];
    var (name, rest) := CutAtSpace(TrimSpace(value));
    ParsedKeyIsAccepted(name);
    var from := ParseKey(name).value;
    TargetForMoves(st, from, st.iv.semitones);
    var to := TargetFor(st, from, st.iv.semitones).value.0;
    RestHasNoTrailingSpace(value);
    KeyTextReadsBack(to, rest);
    var k := SetKey(st, value, st.iv.semitones).value.1;
    assert ("K:" + k)[2..] == k;
    assert KeyFifths(to) != KeyFifths(from);
  }

  lemma TokenStaysExactly(st: State, t: Token)
    requires StateOk(st) && st.keyed && MoveToken(st, t).Ok?
    requires -12 < st.iv.semitones < 12 && st.iv.semitones != 0
    ensures MoveToken(st, t).value.1 == t <==> TokenStays(st, t)
  {
    NoTurns(st.iv);
    match t {
      case Note(_, _, _) =>
        if st.iv.steps != 0 {
          NoteUnderSteps(st, t);
        } else {
          NoteInPlace(st, t);
        }
      case Quoted(text) =>
        if PitchName(text).Some? {
          ChordChanges(st.iv, text);
        }
      case Inline(text) =>
        if IsKeyField(t) {
          KeyFieldChanges(st, t);
        }
      case _ =>
    }
  }

  lemma EqualByParts(us: seq<Token>, toks: seq<Token>)
    requires us != [] && toks != []
    ensures us == toks <==> us[0] == toks[0] && us[1..] == toks[1..]
  {
    assert us == [us[0]] + us[1..] && toks == [toks[0]] + toks[1..];
  }

  lemma {:induction false} TokensStayExactly(st: State, toks: seq<Token>)
    requires StateOk(st) && st.keyed && MoveTokens(st, toks).Ok?
    requires -12 < st.iv.semitones < 12 && st.iv.semitones != 0
    ensures MoveTokens(st, toks).value.1 == toks <==> TextStays(st, toks)
    decreases |toks|
  {
    if toks != [] {
      TokenStaysExactly(st, toks[0]);
      TokenKeepsState(st, toks[0]);
      MovedTail(st, toks);
      TokensStayExactly(MoveToken(st, toks[0]).value.0, toks[1..]);
      EqualByParts(MoveTokens(st, toks).value.1, toks);
    }
  }

  /** A moved token at the start of the very text it was cut from is the token. */
  lemma HeadIsTheToken(st: State, s: string, t: Token, n: nat, u: Token, w: string)
    requires s != "" && LexOne(s) == (t, n) && t != EmptyInline
    requires MoveToken(st, t).Ok? && u == MoveToken(st, t).value.1 && s == Show(u) + w
    requires t.Note? && w != "" ==> !IsMark(w[0])
    ensures u == t && w == s[n..]
  {
    ScannedTokenOk(s);
    MovedTokenOk(st, t);
    if t.Note? {
      NoteTokenScans(u, w);
    } else if t.Quoted? || t.Inline? {
      EnclosedTokenScans(u, w);
    } else {
      ShownIsItsText(s);
    }
  }

  lemma ShownIsItsText(s: string)
    requires s != "" && !LexOne(s).0.Note? && LexOne(s).0 != EmptyInline
    ensures var (t, n) := LexOne(s); |Show(t)| == n
  {
  }

  /** If moved text prints as the text it was cut from, none of its tokens has changed. */
  lemma {:induction false} SameTextSameTokens(st: State, s: string)
    requires MoveTokens(st, Lex(s)).Ok? && ShowAll(MoveTokens(st, Lex(s)).value.1) == s
    ensures MoveTokens(st, Lex(s)).value.1 == Lex(s)
    decreases |s|
  {
    if s != "" {
      LexUnfolds(s);
      var (t, n) := LexOne(s);
      var us := MoveTokens(st, Lex(s)).value.1;
      MovedTail(st, Lex(s));
      AcceptedHasNoEmpty(st, Lex(s));
      LexIsNeat(s);
      MovedTokensNeat(st, Lex(s));
      assert t in Lex(s);
      if us[0].Note? {
        MarkFree(us[0], us[1..]);
      }
      assert SameOutline(Lex(s)[0], us[0]);
      HeadIsTheToken(st, s, t, n, us[0], ShowAll(us[1..]));
      SameTextSameTokens(MoveToken(st, t).value.0, s[n..]);
      EqualByParts(us, Lex(s));
    }
  }

  /**
    Text on a line of music is printed back as it was exactly when every token of
    it stays and its notes are spelled as the rewriter spells notes.
  */
  lemma TextSurvivesExactly(st: State, text: string)
    requires StateOk(st) && st.keyed && MoveTokens(st, Lex(text)).Ok?
    requires -12 < st.iv.semitones < 12 && st.iv.semitones != 0
    ensures ShowAll(MoveTokens(st, Lex(text)).value.1) == text
      <==> TextStays(st, Lex(text)) && ShowAll(Lex(text)) == text
  {
    TokensStayExactly(st, Lex(text));
    if ShowAll(MoveTokens(st, Lex(text)).value.1) == text {
      SameTextSameTokens(st, text);
    }
  }

  // ---------- In a score ----------

  /** A line of music followed by a comment, both met in the states the scan brings to them. */
  ghost predicate CommentAt(lines: seq<string>, semitones: int, i: nat, body: string, comment: string) {
    && i < |lines| && MoveLines(START, lines[..i], semitones).Ok?
    && KindOf(MoveLines(START, lines[..i], semitones).value.0.keyed, lines[i]) == Music
    && lines[i] == body + comment && "%" <= comment && Lex(lines[i]) == Lex(body) + Lex(comment)
  }

  function LineState(lines: seq<string>, semitones: int, i: nat): State
    requires i < |lines| && MoveLines(START, lines[..i], semitones).Ok?
  {
    ResetBar(MoveLines(START, lines[..i], semitones).value.0)
  }

  lemma {:induction false} StatesAreOk(st: State, lines: seq<string>, semitones: int)
    requires StateOk(st) && (st.keyed ==> st.iv.semitones == semitones) && MoveLines(st, lines, semitones).Ok?
    ensures var st' := MoveLines(st, lines, semitones).value.0;
      StateOk(st') && (st'.keyed ==> st'.iv.semitones == semitones)
    decreases |lines|
  {
    if lines != [] {
      LineKeepsState(st, lines[0], semitones);
      SemitonesAreFixed(st, lines[0], semitones);
      StatesAreOk(MoveLine(st, lines[0], semitones).value.0, lines[1..], semitones);
    }
  }

  /** The rewritten line is the rewritten music and, after it, the comment, rewritten too. */
  lemma CommentIsRewritten(lines: seq<string>, semitones: int, i: nat, body: string, comment: string)
    requires CommentAt(lines, semitones, i, body, comment) && MoveLines(START, lines, semitones).Ok?
    ensures var st := LineState(lines, semitones, i);
      && MoveTokens(st, Lex(body)).Ok?
      && MoveTokens(MoveTokens(st, Lex(body)).value.0, Lex(comment)).Ok?
      && MoveLines(START, lines, semitones).value.1[i]
         == ShowAll(MoveTokens(st, Lex(body)).value.1)
          + ShowAll(MoveTokens(MoveTokens(st, Lex(body)).value.0, Lex(comment)).value.1)
  {
    var st := LineState(lines, semitones, i);
    LineAt(START, lines, i, semitones);
    TokensInParts(st, Lex(body), Lex(comment));
    var (st1, us) := MoveTokens(st, Lex(body)).value;
    ShownInParts(us, MoveTokens(st1, Lex(comment)).value.1);
  }

  /** The state in which the comment is met, once the music before it is accepted. */
  function CommentState(lines: seq<string>, semitones: int, i: nat, body: string): State
    requires i < |lines| && MoveLines(START, lines[..i], semitones).Ok?
  {
    match MoveTokens(LineState(lines, semitones, i), Lex(body))
    case Ok((st, _)) => st
    case Err(_) => START
  }

  /** What a comment is printed as, when it is accepted. */
  function PrintedText(st: State, text: string): Option<string> {
    match MoveTokens(st, Lex(text))
    case Ok((_, us)) => Some(ShowAll(us))
    case Err(_) => None
  }

  lemma CommentStateIsOk(score: string, semitones: int, i: nat, body: string, comment: string)
    requires CommentAt(Split(score, '\n'), semitones, i, body, comment)
    requires MoveTokens(LineState(Split(score, '\n'), semitones, i), Lex(body)).Ok?
    ensures var st := CommentState(Split(score, '\n'), semitones, i, body);
      StateOk(st) && st.keyed && st.iv.semitones == semitones
  {
    var lines := Split(score, '\n');
    StatesAreOk(START, lines[..i], semitones);
    TokensKeepState(LineState(lines, semitones, i), Lex(body));
  }

  /**
    In an accepted score, a comment after music comes through unchanged exactly
    when its text stays: no key field, no chord pitch, and no note letter but, under
    a shift that keeps every letter, bare notes on letters unaltered in their bar.
  */
  lemma CommentSurvivesExactly(score: string, semitones: int, i: nat, body: string, comment: string)
    requires semitones != 0 && Transpose(score, semitones).Ok?
    requires CommentAt(Split(score, '\n'), semitones, i, body, comment)
    ensures var lines, outs := Split(score, '\n'), Split(Transpose(score, semitones).value, '\n');
      var st1 := CommentState(lines, semitones, i, body);
      var music, printed := PrintedText(LineState(lines, semitones, i), body), PrintedText(st1, comment);
      && |outs| == |lines| && music.Some? && printed.Some? && outs[i] == music.value + printed.value
      && (printed == Some(comment) <==> TextStays(st1, Lex(comment)) && ShowAll(Lex(comment)) == comment)
  {
    RewrittenScoreSplits(score, semitones);
    CommentIsRewritten(Split(score, '\n'), semitones, i, body, comment);
    CommentStateIsOk(score, semitones, i, body, comment);
    TextSurvivesExactly(CommentState(Split(score, '\n'), semitones, i, body), comment);
  }

  lemma CommentLineRefused(lines: seq<string>, semitones: int, i: nat, body: string, comment: string, e: Error)
    requires CommentAt(lines, semitones, i, body, comment)
    requires MoveTokens(LineState(lines, semitones, i), Lex(body)).Ok?
    ensures MoveLine(MoveLines(START, lines[..i], semitones).value.0, lines[i], semitones) == Err(e)
      <==> MoveTokens(CommentState(lines, semitones, i, body), Lex(comment)) == Err(e)
  {
    TokensInParts(LineState(lines, semitones, i), Lex(body), Lex(comment));
  }

  /**
    When nothing before a comment is refused, the comment gets the whole score
    refused exactly when one of its tokens is the first to meet its condition: a
    note or a chord pitch that leaves the double accidentals, a key field with an
    unknown key or one the interval carries too far, or an empty field.
  */
  lemma CommentRefusesExactly(score: string, semitones: int, i: nat, body: string, comment: string, e: Error)
    requires -12 < semitones < 12 && semitones != 0
    requires CommentAt(Split(score, '\n'), semitones, i, body, comment)
    requires NoneRefused(LineState(Split(score, '\n'), semitones, i), Lex(body))
    ensures var lines := Split(score, '\n');
      var st := StateAfter(LineState(lines, semitones, i), Lex(body));
      var refused := exists j: nat :: RefusedAt(st, Lex(comment), j, e);
      && (MoveLine(MoveLines(START, lines[..i], semitones).value.0, lines[i], semitones) == Err(e) <==> refused)
      && (refused ==> Transpose(score, semitones) == Err(e))
  {
    var lines := Split(score, '\n');
    StatesAreOk(START, lines[..i], semitones);
    AcceptedExactly(LineState(lines, semitones, i), Lex(body));
    CommentStateIsOk(score, semitones, i, body, comment);
    TokensRefusedExactly(CommentState(lines, semitones, i, body), Lex(comment), e);
    CommentLineRefused(lines, semitones, i, body, comment, e);
    if MoveLine(MoveLines(START, lines[..i], semitones).value.0, lines[i], semitones) == Err(e) {
      LineRefusesScore(START, lines, i, semitones);
    }
  }
}
