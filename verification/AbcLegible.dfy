/**
  Legibility composes: a legible result of one shift is legible under a second
  exactly when the source is under both at once. Nothing but the printed text
  decides it.
*/
module AbcLegible {
  import opened Prelude
  import opened GoText
  import opened AbcKeys
  import opened AbcIntervals
  import opened AbcTokens
  import opened AbcMoves
  import opened AbcInvariants
  import opened AbcRescan
  import opened AbcLines
  import opened AbcReading
  import opened AbcComposition

  lemma ChordStaysApart(iv: Interval, jv: Interval, sym: string)
    requires MoveChord(iv, sym).Ok? && ChordApart(iv, sym)
    ensures ChordApart(jv, MoveChord(iv, sym).value) <==> ChordApart(Sum(iv, jv), sym)
  {
    match PitchName(sym) {
      case None =>
      case Some((l, alt, n)) =>
        MovedChordReads(iv, sym);
        AltsAdd(l, alt, iv, jv);
        QualityHead(iv, sym[n..], MovedAlt(l, alt, Sum(iv, jv)));
    }
  }

  lemma {:induction false} ChordsStayApart(st: State, toks: seq<Token>, jv: Interval)
    requires StateOk(st) && st.keyed && MoveTokens(st, toks).Ok? && ChordsApart(st.iv, toks)
    ensures ChordsApart(jv, MoveTokens(st, toks).value.1) <==> ChordsApart(Sum(st.iv, jv), toks)
    decreases |toks|
  {
    if toks != [] {
      MovedTail(st, toks);
      TokenKeepsState(st, toks[0]);
      var us := MoveTokens(st, toks).value.1;
      ChordsInParts(st.iv, toks);
      ChordsInParts(jv, us);
      ChordsInParts(Sum(st.iv, jv), toks);
      if toks[0].Quoted? {
        ChordStaysApart(st.iv, jv, toks[0].text);
      }
      ChordsStayApart(MoveToken(st, toks[0]).value.0, toks[1..], jv);
    }
  }

  lemma ChordsInParts(iv: Interval, toks: seq<Token>)
    requires toks != []
    ensures ChordsApart(iv, toks) <==> (toks[0].Quoted? ==> ChordApart(iv, toks[0].text)) && ChordsApart(iv, toks[1..])
  {
    assert forall i :: 0 <= i < |toks[1..]| ==> toks[1..][i] == toks[i + 1];
    assert forall i :: 0 < i < |toks| ==> toks[i] == toks[1..][i - 1];
  }

  /** Both passes print the same line, and the line decides whether its notes stay apart. */
  lemma MusicStaysApart(a: State, b: State, c: State, line: string)
    requires a.keyed && Chained(a, b, c) && KindOf(true, line) == Music
    requires MoveTokens(ResetBar(a), Lex(line)).Ok? && NotesApart(ResetBar(a), Lex(line)) && ChordsApart(a.iv, Lex(line))
    requires MoveTokens(ResetBar(c), Lex(line)).Ok?
    ensures var out := ShowAll(MoveTokens(ResetBar(a), Lex(line)).value.1);
      && (NotesApart(ResetBar(b), Lex(out)) <==> NotesApart(ResetBar(c), Lex(line)))
      && (ChordsApart(b.iv, Lex(out)) <==> ChordsApart(c.iv, Lex(line)))
  {
    var out := ShowAll(MoveTokens(ResetBar(a), Lex(line)).value.1);
    ResetIsChained(a, b, c);
    MusicReadsBackExactly(a, line);
    TokensChained(ResetBar(a), ResetBar(b), ResetBar(c), Lex(line));
    MusicReadsBackExactly(b, out);
    MusicReadsBackExactly(c, line);
    ChordsStayApart(ResetBar(a), Lex(line), b.iv);
  }

  lemma {:induction false} LinesStayApart(a: State, b: State, c: State, lines: seq<string>, m: int, n: int)
    requires Chained(a, b, c) && MoveLines(a, lines, m).Ok? && MoveLines(c, lines, m + n).Ok?
    requires NotesLegibleLines(a, lines, m) && ChordsLegibleLines(a, lines, m)
    ensures var outs := MoveLines(a, lines, m).value.1;
      && (NotesLegibleLines(b, outs, n) <==> NotesLegibleLines(c, lines, m + n))
      && (ChordsLegibleLines(b, outs, n) <==> ChordsLegibleLines(c, lines, m + n))
    decreases |lines|
  {
    if lines != [] {
      LineChained(a, b, c, lines[0], m, n);
      LineKeepsState(a, lines[0], m);
      KindIsKept(a, lines[0], m);
      var (a1, out) := MoveLine(a, lines[0], m).value;
      var outs := MoveLines(a1, lines[1..], m).value.1;
      assert MoveLines(a, lines, m).value.1 == [out] + outs;
      assert ([out] + outs)[0] == out && ([out] + outs)[1..] == outs;
      LinesStayApart(a1, MoveLine(b, out, n).value.0, MoveLine(c, lines[0], m + n).value.0, lines[1..], m, n);
      if KindOf(a.keyed, lines[0]) == Music {
        MusicStaysApart(a, b, c, lines[0]);
      }
    }
  }

  /** A score that is legible m up is legible n further exactly when it is legible m + n up. */
  lemma LegibilityComposes(score: string, m: int, n: int)
    requires Legible(score, m) && Rewrite(score, m).Ok? && Rewrite(score, m + n).Ok?
    ensures Legible(Rewrite(score, m).value, n) <==> Legible(score, m + n)
  {
    RewrittenScoreSplits(score, m);
    LinesStayApart(START, START, START, Split(score, '\n'), m, n);
  }
}
