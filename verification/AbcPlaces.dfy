/**
  Places in a score: the state in which a token or a line is met, and what
  happens at the first one that is refused.
*/
module AbcPlaces {
  import opened Prelude
  import opened GoText
  import opened AbcKeys
  import opened AbcTokens
  import opened AbcMoves

  /** Tokens in two parts: the second is met in the state the first leaves. */
  lemma {:induction false} TokensInParts(st: State, a: seq<Token>, b: seq<Token>)
    ensures MoveTokens(st, a + b) == match MoveTokens(st, a)
      case Err(e) => Err(e)
      case Ok((st1, us)) =>
        match MoveTokens(st1, b)
        case Err(e) => Err(e)
        case Ok((st2, vs)) => Ok((st2, us + vs))
    decreases |a|
  {
    if a == [] {
      assert a + b == b;
      assert MoveTokens(st, b).Ok? ==> [] + MoveTokens(st, b).value.1 == MoveTokens(st, b).value.1;
    } else {
      assert (a + b)[0] == a[0] && (a + b)[1..] == a[1..] + b;
      if MoveToken(st, a[0]).Ok? {
        var (st1, u) := MoveToken(st, a[0]).value;
        TokensInParts(st1, a[1..], b);
        if MoveTokens(st1, a[1..]).Ok? {
          var (st2, us) := MoveTokens(st1, a[1..]).value;
          if MoveTokens(st2, b).Ok? {
            assert [u] + (us + MoveTokens(st2, b).value.1) == ([u] + us) + MoveTokens(st2, b).value.1;
          }
        }
      }
    }
  }

  lemma {:induction false} ShownInParts(a: seq<Token>, b: seq<Token>)
    ensures ShowAll(a + b) == ShowAll(a) + ShowAll(b)
  {
    if a == [] {
      assert a + b == b;
    } else {
      assert (a + b)[0] == a[0] && (a + b)[1..] == a[1..] + b;
      ShownInParts(a[1..], b);
      Associates(Show(a[0]), ShowAll(a[1..]), ShowAll(b));
    }
  }

  /** A token refused where it is met refuses the line it is on. */
  lemma TokenRefusesLine(st: State, toks: seq<Token>, i: nat)
    requires i < |toks| && MoveTokens(st, toks[..i]).Ok?
    requires MoveToken(MoveTokens(st, toks[..i]).value.0, toks[i]).Err?
    ensures MoveTokens(st, toks) == Err(MoveToken(MoveTokens(st, toks[..i]).value.0, toks[i]).error)
  {
    assert toks == toks[..i] + toks[i..];
    TokensInParts(st, toks[..i], toks[i..]);
  }

  /** And a refused line has such a token. */
  lemma {:induction false} FirstRefused(st: State, toks: seq<Token>) returns (i: nat)
    requires MoveTokens(st, toks).Err?
    ensures i < |toks| && MoveTokens(st, toks[..i]).Ok?
    ensures MoveToken(MoveTokens(st, toks[..i]).value.0, toks[i]) == Err(MoveTokens(st, toks).error)
    decreases |toks|
  {
    if MoveToken(st, toks[0]).Err? {
      i := 0;
      assert toks[..0] == [];
    } else {
      var st1 := MoveToken(st, toks[0]).value.0;
      var k := FirstRefused(st1, toks[1..]);
      i := k + 1;
      assert toks[..i] == [toks[0]] + toks[1..][..k];
      assert ([toks[0]] + toks[1..][..k])[1..] == toks[1..][..k];
    }
  }

  lemma {:induction false} LinesInParts(st: State, a: seq<string>, b: seq<string>, semitones: int)
    ensures MoveLines(st, a + b, semitones) == match MoveLines(st, a, semitones)
      case Err(e) => Err(e)
      case Ok((st1, us)) =>
        match MoveLines(st1, b, semitones)
        case Err(e) => Err(e)
        case Ok((st2, vs)) => Ok((st2, us + vs))
    decreases |a|
  {
    if a == [] {
      assert a + b == b;
      assert MoveLines(st, b, semitones).Ok? ==>
        [] + MoveLines(st, b, semitones).value.1 == MoveLines(st, b, semitones).value.1;
    } else {
      assert (a + b)[0] == a[0] && (a + b)[1..] == a[1..] + b;
      if MoveLine(st, a[0], semitones).Ok? {
        var (st1, u) := MoveLine(st, a[0], semitones).value;
        LinesInParts(st1, a[1..], b, semitones);
        if MoveLines(st1, a[1..], semitones).Ok? {
          var (st2, us) := MoveLines(st1, a[1..], semitones).value;
          if MoveLines(st2, b, semitones).Ok? {
            assert [u] + (us + MoveLines(st2, b, semitones).value.1) == ([u] + us) + MoveLines(st2, b, semitones).value.1;
          }
        }
      }
    }
  }

  /** A line of a rewritten score: met in the state the lines before it leave. */
  lemma LineAt(st: State, lines: seq<string>, i: nat, semitones: int)
    requires i < |lines| && MoveLines(st, lines, semitones).Ok?
    ensures MoveLines(st, lines[..i], semitones).Ok?
    ensures var st1 := MoveLines(st, lines[..i], semitones).value.0;
      MoveLine(st1, lines[i], semitones).Ok?
      && MoveLines(st, lines, semitones).value.1[i] == MoveLine(st1, lines[i], semitones).value.1
  {
    assert lines == lines[..i] + lines[i..];
    LinesInParts(st, lines[..i], lines[i..], semitones);
  }

  /** A line refused where it is met refuses the score. */
  lemma LineRefusesScore(st: State, lines: seq<string>, i: nat, semitones: int)
    requires i < |lines| && MoveLines(st, lines[..i], semitones).Ok?
    requires MoveLine(MoveLines(st, lines[..i], semitones).value.0, lines[i], semitones).Err?
    ensures MoveLines(st, lines, semitones)
      == Err(MoveLine(MoveLines(st, lines[..i], semitones).value.0, lines[i], semitones).error)
  {
    assert lines == lines[..i] + lines[i..];
    LinesInParts(st, lines[..i], lines[i..], semitones);
  }

  /** The first lines of a score: one, and the first of the rest. */
  lemma FirstLines(st: State, lines: seq<string>, k: nat, semitones: int)
    requires k < |lines| && MoveLine(st, lines[0], semitones).Ok?
    ensures var st1 := MoveLine(st, lines[0], semitones).value.0;
      var r, r1 := MoveLines(st, lines[..k + 1], semitones), MoveLines(st1, lines[1..][..k], semitones);
      if r1.Ok? then r.Ok? && r.value.0 == r1.value.0 else r == Err(r1.error)
  {
    FirstOfLines(lines, k);
    HeadLine(st, lines[0], lines[1..][..k], semitones);
  }

  lemma FirstOfLines(lines: seq<string>, k: nat)
    requires k < |lines|
    ensures lines[..k + 1] == [lines[0]] + lines[1..][..k]
  {
  }

  lemma HeadLine(st: State, line: string, rest: seq<string>, semitones: int)
    requires MoveLine(st, line, semitones).Ok?
    ensures var st1 := MoveLine(st, line, semitones).value.0;
      var r, r1 := MoveLines(st, [line] + rest, semitones), MoveLines(st1, rest, semitones);
      if r1.Ok? then r.Ok? && r.value.0 == r1.value.0 else r == Err(r1.error)
  {
    assert ([line] + rest)[0] == line && ([line] + rest)[1..] == rest;
  }

  lemma {:induction false} FirstRefusedLine(st: State, lines: seq<string>, semitones: int) returns (i: nat)
    requires MoveLines(st, lines, semitones).Err?
    ensures i < |lines| && MoveLines(st, lines[..i], semitones).Ok?
    ensures MoveLine(MoveLines(st, lines[..i], semitones).value.0, lines[i], semitones)
      == Err(MoveLines(st, lines, semitones).error)
    decreases |lines|
  {
    if MoveLine(st, lines[0], semitones).Err? {
      i := 0;
      assert lines[..0] == [];
    } else {
      var k := FirstRefusedLine(MoveLine(st, lines[0], semitones).value.0, lines[1..], semitones);
      i := k + 1;
      FirstLines(st, lines, k, semitones);
    }
  }
}
