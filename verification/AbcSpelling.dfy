/**
  Where the output carries accidentals: a note is written with one exactly when it
  differs from the key signature or its letter has already carried one since the
  last bar line, key field or start of the line, and never otherwise.
*/
module AbcSpelling {
  import opened Prelude
  import opened GoArith
  import opened GoText
  import opened AbcKeys
  import opened AbcIntervals
  import opened AbcTokens
  import opened AbcMoves
  import opened AbcInvariants
  import opened AbcPlaces

  /** A bar line, or a key field. */
  predicate StartsBar(t: Token) {
    t.Bar? || IsKeyField(t)
  }

  predicate Carries(t: Token, l: Letter) {
    t.Note? && t.acc.Some? && t.letter == l
  }

  /** Whether a letter has carried an accidental in the last bar of these tokens. */
  ghost predicate Carried(toks: seq<Token>, l: Letter) {
    exists i :: 0 <= i < |toks| && Carries(toks[i], l) && forall k :: i < k < |toks| ==> !StartsBar(toks[k])
  }

  lemma CarriedByOneMore(toks: seq<Token>, t: Token, l: Letter)
    ensures Carried(toks + [t], l) <==> Carries(t, l) || (Carried(toks, l) && !StartsBar(t))
  {
    var more := toks + [t];
    if Carries(t, l) {
      assert Carries(more[|toks|], l);
    }
    if Carried(toks, l) && !StartsBar(t) {
      var i :| 0 <= i < |toks| && Carries(toks[i], l) && forall k :: i < k < |toks| ==> !StartsBar(toks[k]);
      assert Carries(more[i], l);
    }
    if Carried(more, l) && !Carries(t, l) {
      var i :| 0 <= i < |more| && Carries(more[i], l) && forall k :: i < k < |more| ==> !StartsBar(more[k]);
      assert Carries(toks[i], l) && !StartsBar(more[|toks|]);
      assert forall k :: i < k < |toks| ==> !StartsBar(toks[k]) by {
        forall k | i < k < |toks|
          ensures !StartsBar(toks[k])
        {
          assert toks[k] == more[k];
        }
      }
    }
  }

  /** One token marks its own letter when it carries an accidental, and clears the marks when it starts a bar. */
  lemma MarksOfOne(st: State, t: Token, l: Letter)
    requires MoveToken(st, t).Ok?
    ensures var (st1, u) := MoveToken(st, t).value;
      && (t.Note? <==> u.Note?) && (StartsBar(t) <==> StartsBar(u))
      && (st1.touched[l] <==> Carries(u, l) || (st.touched[l] && !StartsBar(u)))
  {
    if t.Note? {
      NoteMarks(st, t, l);
    } else if IsKeyField(t) {
      KeyFieldClears(st, t);
    }
  }

  lemma NoteMarks(st: State, t: Token, l: Letter)
    requires t.Note? && MoveToken(st, t).Ok?
    ensures var (st1, u) := MoveToken(st, t).value; u.Note? && (st1.touched[l] <==> Carries(u, l) || st.touched[l])
  {
    NoteMoves(st, t.acc, t.letter, t.octave);
  }

  lemma KeyFieldClears(st: State, t: Token)
    requires IsKeyField(t) && MoveToken(st, t).Ok?
    ensures var (st1, u) := MoveToken(st, t).value; IsKeyField(u) && st1.touched == UNTOUCHED
  {
    var k := SetKey(st, t.text[2..], st.iv.semitones).value.1;
    assert |"K:" + k| >= 2 && "K" <= "K:" + k;
  }

  /** The rewriter's marks are the letters its own output has carried in this bar. */
  lemma {:induction false} MarksAreCarried(st: State, toks: seq<Token>, l: Letter)
    requires MoveTokens(ResetBar(st), toks).Ok?
    ensures var (st1, us) := MoveTokens(ResetBar(st), toks).value;
      st1.touched[l] <==> Carried(us, l)
    decreases |toks|
  {
    if toks != [] {
      var n := |toks| - 1;
      assert toks == toks[..n] + [toks[n]];
      TokensInParts(ResetBar(st), toks[..n], [toks[n]]);
      MarksAreCarried(st, toks[..n], l);
      var (st1, us) := MoveTokens(ResetBar(st), toks[..n]).value;
      OneToken(st1, toks[n]);
      var u := MoveToken(st1, toks[n]).value.1;
      MarksOfOne(st1, toks[n], l);
      CarriedByOneMore(us, u, l);
    }
  }

  lemma OneToken(st: State, t: Token)
    ensures MoveTokens(st, [t]) == match MoveToken(st, t)
      case Err(e) => Err(e)
      case Ok((st1, u)) => Ok((st1, [u]))
  {
    assert [t][1..] == [];
    if MoveToken(st, t).Ok? {
      var (st1, u) := MoveToken(st, t).value;
      assert MoveTokens(st1, []) == Ok((st1, []));
      assert [u] + [] == [u];
    }
  }

  /**
    In a line of music, note j is written with an accidental, that of its moved
    alteration, exactly when it differs from the target signature or its letter has
    carried one before it in its bar.
  */
  lemma AccidentalsWrittenExactly(st: State, toks: seq<Token>, j: nat)
    requires MoveTokens(ResetBar(st), toks).Ok? && j < |toks| && toks[j].Note?
    ensures MoveTokens(ResetBar(st), toks[..j]).Ok?
    ensures var us := MoveTokens(ResetBar(st), toks).value.1;
      var here := MoveTokens(ResetBar(st), toks[..j]).value.0;
      var Note(acc, letter, octave) := toks[j];
      var alt := MovedAlt(letter, ReadAlt(here, acc, letter, octave), here.iv);
      && us[j].Note? && us[j].letter == MovedLetter(letter, here.iv.steps)
      && us[j].acc == if alt != here.dstSig[us[j].letter] || Carried(us[..j], us[j].letter) then Some(alt) else None
  {
    assert toks == toks[..j] + toks[j..];
    TokensInParts(ResetBar(st), toks[..j], toks[j..]);
    var (here, before) := MoveTokens(ResetBar(st), toks[..j]).value;
    var us := MoveTokens(ResetBar(st), toks).value.1;
    assert us[..j] == before;
    assert MoveToken(here, toks[j]).Ok? && us[j] == MoveToken(here, toks[j]).value.1;
    MarksAreCarried(st, toks[..j], MovedLetter(toks[j].letter, here.iv.steps));
    NoteMoves(here, toks[j].acc, toks[j].letter, toks[j].octave);
  }
}
