/**
  The rewriter as the program runs it: an object that scans a line character by
  character and updates its bar, key and marks as it goes. Every method is
  proved to compute what AbcMoves says of the tokens.
*/
module AbcRewriter {
  import opened Prelude
  import opened GoArith
  import opened GoText
  import opened AbcKeys
  import opened AbcIntervals
  import opened AbcTokens
  import Spec = AbcMoves
  import opened AbcInvariants

  const ACCIDENTALS: seq<(string, int)> := [("^^", 2), ("__", -2), ("^", 1), ("_", -1), ("=", 0)]

  lemma TheAccidentals()
    ensures |ACCIDENTALS| == 5 && ACCIDENTALS[0] == ("^^", 2) && ACCIDENTALS[1] == ("__", -2)
    ensures ACCIDENTALS[2] == ("^", 1) && ACCIDENTALS[3] == ("_", -1) && ACCIDENTALS[4] == ("=", 0)
  {
  }

  /** The first accidental in the table that starts `s`. */
  method ReadAccidental(s: string) returns (i: nat, acc: Option<int>)
    ensures (i, acc) == Accidental(s)
  {
    i, acc := 0, None;
    TheAccidentals();
    for k := 0 to |ACCIDENTALS|
      invariant i == 0 && acc == None
      invariant forall j :: 0 <= j < k ==> !(ACCIDENTALS[j].0 <= s)
    {
      var (text, alt) := ACCIDENTALS[k];
      if text <= s {
        i, acc := |text|, Some(alt);
        return;
      }
    }
  }

  /** The table entry for an alteration. */
  method WriteAccidental(alt: int) returns (text: string)
    ensures text == AccidentalText(alt)
  {
    text := "";
    TheAccidentals();
    for k := 0 to |ACCIDENTALS|
      invariant text == "" && forall j :: 0 <= j < k ==> ACCIDENTALS[j].1 != alt
    {
      if ACCIDENTALS[k].1 == alt {
        text := ACCIDENTALS[k].0;
        return;
      }
    }
  }

  /** Counts octave marks from position `start`. */
  method ReadMarks(s: string, start: nat, octave: int) returns (i: nat, shifted: int)
    requires start <= |s|
    ensures i == start + Marks(s[start..]).0 && shifted == octave + Marks(s[start..]).1
  {
    i, shifted := start, octave;
    while i < |s| && IsMark(s[i])
      invariant start <= i <= |s|
      invariant i + Marks(s[i..]).0 == start + Marks(s[start..]).0
      invariant shifted + Marks(s[i..]).1 == octave + Marks(s[start..]).1
    {
      assert s[i..][1..] == s[i + 1..];
      if s[i] == '\'' {
        shifted := shifted + 1;
      } else {
        shifted := shifted - 1;
      }
      i := i + 1;
    }
  }

  /** The letter and octave of the note that starts `s`, and its length: zero if there is none. */
  method ReadPitch(s: string) returns (i: nat, acc: Option<int>, letter: Letter, octave: int)
    ensures LexNote(s) == if i == 0 then None else Some((Note(acc, letter, octave), i))
  {
    i, acc := ReadAccidental(s);
    letter, octave := 0, 0;
    if i >= |s| {
      return 0, acc, letter, octave;
    }
    if IsUpperNote(s[i]) {
      letter, octave := LetterOf(s[i]), 4;
    } else if IsLowerNote(s[i]) {
      letter, octave := LetterOf(Upper(s[i])), 5;
    } else {
      return 0, acc, letter, octave;
    }
    i, octave := ReadMarks(s, i + 1, octave);
  }

  method PrintPitch(letter: Letter, octave: int) returns (text: string)
    ensures text == PitchText(letter, octave)
  {
    if octave >= 5 {
      return [Lower(LetterChar(letter))] + Repeat('\'', octave - 5);
    } else {
      return [LetterChar(letter)] + Repeat(',', 4 - octave);
    }
  }

  /** The alteration left once letter and octave have moved, from absolute pitches. */
  lemma MovedAltAsWritten(letter: Letter, octave: int, alt: int, iv: Interval)
    ensures Natural(letter) + 12 * octave + alt + iv.semitones
      - (Natural(MovedLetter(letter, iv.steps)) + 12 * Spec.MovedOctave(letter, octave, iv.steps))
      == MovedAlt(letter, alt, iv)
  {
  }

  // ---------- One line, in text ----------

  /** What the rest of a line becomes, as text. */
  function RunText(st: Spec.State, s: string): Result<(Spec.State, string), Error> {
    match Spec.MoveTokens(st, Lex(s))
    case Ok((st', toks)) => Ok((st', ShowAll(toks)))
    case Err(e) => Err(e)
  }

  function Prefixed(b: string, r: Result<(Spec.State, string), Error>): Result<(Spec.State, string), Error> {
    match r
    case Ok((st, text)) => Ok((st, b + text))
    case Err(e) => Err(e)
  }

  lemma LexGoesOn(s: string, t: Token, n: nat)
    requires s != "" && LexOne(s) == (t, n)
    ensures Lex(s) == [t] + Lex(s[n..]) && Lex(s)[0] == t && Lex(s)[1..] == Lex(s[n..])
  {
    assert Lex(s)[1..] == Lex(s[n..]);
  }

  lemma MovingGoesOn(st: Spec.State, toks: seq<Token>, st1: Spec.State, u: Token)
    requires toks != [] && Spec.MoveToken(st, toks[0]) == Ok((st1, u))
    ensures match Spec.MoveTokens(st1, toks[1..])
      case Err(e) => Spec.MoveTokens(st, toks) == Err(e)
      case Ok((st2, us)) => Spec.MoveTokens(st, toks) == Ok((st2, [u] + us)) && ShowAll([u] + us) == Show(u) + ShowAll(us)
  {
    if Spec.MoveTokens(st1, toks[1..]).Ok? {
      var us := Spec.MoveTokens(st1, toks[1..]).value.1;
      assert ([u] + us)[1..] == us;
    }
  }

  lemma RunGoesOn(st: Spec.State, s: string, t: Token, n: nat, st1: Spec.State, u: Token)
    requires s != "" && LexOne(s) == (t, n) && Spec.MoveToken(st, t) == Ok((st1, u))
    ensures n <= |s| && RunText(st, s) == Prefixed(Show(u), RunText(st1, s[n..]))
  {
    LexGoesOn(s, t, n);
    MovingGoesOn(st, Lex(s), st1, u);
  }

  lemma RunStops(st: Spec.State, s: string, e: Error)
    requires s != "" && Spec.MoveToken(st, LexOne(s).0) == Err(e)
    ensures RunText(st, s) == Err(e)
  {
    LexGoesOn(s, LexOne(s).0, LexOne(s).1);
  }

  lemma AfterAfter(b: string, text: string, r: Result<(Spec.State, string), Error>)
    ensures Prefixed(b, Prefixed(text, r)) == Prefixed(b + text, r)
  {
    if r.Ok? {
      assert b + (text + r.value.1) == (b + text) + r.value.1;
    }
  }

  type Outcome = Result<(Spec.State, string), Error>

  /**
    What the rest of a line becomes. The counter only keeps a proof from looking
    inside: the lemmas below are what the scanner's methods use.
  */
  function Veiled(veil: nat, st: Spec.State, s: string): Outcome {
    if veil > 0 then Veiled(veil - 1, st, s) else RunText(st, s)
  }

  function Rest(st: Spec.State, s: string): Outcome {
    Veiled(|s| + 3, st, s)
  }

  lemma {:induction false} Unveil(veil: nat, st: Spec.State, s: string)
    ensures Veiled(veil, st, s) == RunText(st, s)
  {
    if veil > 0 {
      Unveil(veil - 1, st, s);
    }
  }

  /** The scan has written `b`, stands at `rest`, and what it still has to do there completes `whole`. */
  ghost predicate Scanned(whole: Outcome, b: string, st: Spec.State, rest: string) {
    whole == Prefixed(b, Rest(st, rest))
  }

  lemma ScanBegins(st: Spec.State, line: string)
    ensures Scanned(RunText(st, line), "", st, line)
  {
    Unveil(|line| + 3, st, line);
    var r := Rest(st, line);
    assert r.Ok? ==> "" + r.value.1 == r.value.1;
  }

  lemma RestGoesOn(st: Spec.State, s: string, t: Token, n: nat, st1: Spec.State, u: Token)
    requires s != "" && LexOne(s) == (t, n) && Spec.MoveToken(st, t) == Ok((st1, u))
    ensures n <= |s| && Rest(st, s) == Prefixed(Show(u), Rest(st1, s[n..]))
  {
    RunGoesOn(st, s, t, n, st1, u);
    Unveil(|s| + 3, st, s);
    Unveil(|s[n..]| + 3, st1, s[n..]);
  }

  /** One turn of the scan, whatever token it met. */
  lemma ScanMoves(whole: Outcome, b: string, st: Spec.State, s: string, st1: Spec.State, text: string, n: nat)
    requires s != "" && Scanned(whole, b, st, s) && n == LexOne(s).1
    requires Spec.MoveToken(st, LexOne(s).0).Ok?
    requires (st1, text) == var (st', u) := Spec.MoveToken(st, LexOne(s).0).value; (st', Show(u))
    ensures Scanned(whole, b + text, st1, s[n..])
  {
    var t := LexOne(s).0;
    var (st', u) := Spec.MoveToken(st, t).value;
    RestGoesOn(st, s, t, n, st1, u);
    AfterAfter(b, text, Rest(st1, s[n..]));
  }

  lemma ScanFails(whole: Outcome, b: string, st: Spec.State, s: string, e: Error)
    requires s != "" && Scanned(whole, b, st, s)
    requires Spec.MoveToken(st, LexOne(s).0) == Err(e)
    ensures whole == Err(e)
  {
    Unveil(|s| + 3, st, s);
    RunStops(st, s, e);
  }

  lemma ScanEnds(whole: Outcome, b: string, st: Spec.State)
    requires Scanned(whole, b, st, "")
    ensures whole == Ok((st, b))
  {
    Unveil(3, st, "");
    assert b + "" == b;
  }

  class Rewriter {
    var keyed: bool
    var iv: Interval
    var srcSig: Sig
    var dstSig: Sig
    var srcBar: map<int, int>
    var dstTouched: Spec.Flags

    ghost function View(): Spec.State
      reads this
    {
      Spec.State(keyed, iv, srcSig, dstSig, srcBar, dstTouched)
    }

    ghost predicate Valid()
      reads this
    {
      StateOk(View())
    }

    constructor ()
      ensures View() == Spec.START && Valid()
    {
      keyed, iv := false, Interval(0, 0);
      srcSig, dstSig := Spec.NO_SIG, Spec.NO_SIG;
      srcBar, dstTouched := map[], Spec.UNTOUCHED;
    }

    method ResetBar()
      modifies this
      ensures View() == Spec.ResetBar(old(View()))
      ensures old(Valid()) ==> Valid()
    {
      srcBar := map[];
      dstTouched := Spec.UNTOUCHED;
      assert old(Valid()) && keyed ==> SignaturesMoved(old(View()));
    }

    /** The key a score or a later field moves to; the header fixes the interval. */
    method ChooseKey(from: Key, semitones: int) returns (r: Result<Key, Error>)
      requires Valid() && Accepted(from)
      requires !keyed ==> -MAX_SEMITONES <= semitones <= MAX_SEMITONES
      modifies this`iv, this`keyed
      ensures match Spec.TargetFor(old(View()), from, semitones)
        case Ok((to, v)) => r == Ok(to) && iv == v && keyed
        case Err(e) => r == Err(e)
    {
      if !keyed {
        StepsInReach(from, semitones);
        var target := TargetKey(from, semitones);
        var (to, v) := target.value;
        iv, keyed := v, true;
        return Ok(to);
      } else {
        MoveKeyOnFifths(from, iv);
        return MoveKeyAsWritten(from, iv);
      }
    }

    method SetKey(value: string, semitones: int) returns (r: Result<string, Error>)
      requires Valid()
      requires !keyed ==> -MAX_SEMITONES <= semitones <= MAX_SEMITONES
      modifies this
      ensures match Spec.SetKey(old(View()), value, semitones)
        case Ok((st, text)) => r == Ok(text) && View() == st && Valid()
        case Err(e) => r == Err(e)
    {
      ghost var st := View();
      var (name, rest) := Spec.CutAtSpace(TrimSpace(value));
      var parsed := ParseKey(name);
      ParsedKeyIsAccepted(name);
      if parsed.Err? {
        return Err(parsed.error);
      }
      var from := parsed.value;
      var chosen := ChooseKey(from, semitones);
      if chosen.Err? {
        return Err(chosen.error);
      }
      var to := chosen.value;
      TargetForMoves(st, from, semitones);
      srcSig := Signature(from);
      dstSig := Signature(to);
      ResetBar();
      SetKeyKeepsState(st, value, semitones);
      return Ok(Spec.KeyText(to, rest));
    }

    /**
      Reads one pitched note at the start of `s` and says how many characters it
      took and what to write; none, when `s` does not start with a note.
    */
    method Note(s: string) returns (r: Result<(nat, string), Error>)
      requires Valid() && keyed
      modifies this
      ensures keyed && iv == old(iv) && srcSig == old(srcSig) && dstSig == old(dstSig)
      ensures match LexNote(s)
        case None => r == Ok((0, "")) && View() == old(View())
        case Some((t, n)) =>
          match Spec.MoveToken(old(View()), t)
          case Ok((st, u)) => r == Ok((n, Show(u))) && View() == st
          case Err(e) => r == Err(e)
    {
      var i, acc, letter, octave := ReadPitch(s);
      if i == 0 {
        return Ok((0, ""));
      }
      ghost var st := View();
      var alt := Remember(acc, letter, octave);
      var text := WriteMoved(letter, octave, alt, st);
      if text.Err? {
        return Err(text.error);
      }
      return Ok((i, text.value));
    }

    /** The alteration a note is read with; a written accidental is remembered for its bar. */
    method Remember(acc: Option<int>, letter: Letter, octave: int) returns (alt: int)
      modifies this`srcBar
      ensures alt == Spec.ReadAlt(old(View()), acc, letter, octave)
      ensures srcBar == Spec.BarAfter(old(View()), acc, letter, octave)
    {
      var pos := letter + 7 * octave;
      alt := srcSig[letter];
      if acc.Some? {
        alt := acc.value;
        srcBar := srcBar[pos := alt];
      } else if pos in srcBar {
        alt := srcBar[pos];
      }
    }

    /** Spells the moved pitch against the new signature and the marks of this bar. */
    method WriteMoved(letter: Letter, octave: int, alt: int, ghost st: Spec.State) returns (r: Result<string, Error>)
      requires keyed && View() == st.(srcBar := srcBar)
      modifies this`dstTouched
      ensures match Spec.WriteNote(st, srcBar, MovedLetter(letter, iv.steps),
          Spec.MovedOctave(letter, octave, iv.steps), MovedAlt(letter, alt, iv))
        case Ok((st', u)) => r == Ok(Show(u)) && View() == st'
        case Err(e) => r == Err(e) && View() == old(View())
    {
      var l2, o2, alt2 := MovePosition(letter, octave, alt);
      if alt2 < -2 || alt2 > 2 {
        return Err(UnspellableNote);
      }
      var b := "";
      if alt2 != dstSig[l2] || dstTouched[l2] {
        b := WriteAccidental(alt2);
        dstTouched := dstTouched[l2 := true];
      }
      var pitch := PrintPitch(l2, o2);
      assert b == "" ==> b + pitch == pitch;
      return Ok(b + pitch);
    }

    /** Moves an absolute pitch by the interval: its letter, its octave and what alteration that leaves. */
    method MovePosition(letter: Letter, octave: int, alt: int) returns (l2: Letter, o2: int, alt2: int)
      ensures l2 == MovedLetter(letter, iv.steps) && o2 == Spec.MovedOctave(letter, octave, iv.steps)
      ensures alt2 == MovedAlt(letter, alt, iv)
    {
      var pos := letter + 7 * octave;
      var dst := Natural(letter) + 12 * octave + alt + iv.semitones;
      var pos2 := pos + iv.steps;
      OctavesCarry(letter + iv.steps, octave);
      l2, o2 := Mod(pos2, 7), FloorDiv(pos2, 7);
      alt2 := dst - (Natural(l2) + 12 * o2);
      MovedAltAsWritten(letter, octave, alt, iv);
    }

    method MovePitch(l: Letter, alt: int) returns (r: Result<string, Error>)
      requires Valid() && keyed && -2 <= alt <= 2
      ensures r == Spec.MovePitch(iv, l, alt)
    {
      Spec.MovePitchFoldsNothing(iv, l, alt);
      return Spec.MovePitchAsWritten(iv, l, alt);
    }

    /** A chord symbol with its root and its bass moved. */
    method Chord(sym: string) returns (r: Result<string, Error>)
      requires Valid() && keyed
      ensures r == Spec.MoveChord(iv, sym)
    {
      var root := Spec.PitchName(sym);
      if root.None? {
        return Ok(sym);
      }
      var (l, alt, n) := root.value;
      var quality, bass := SplitBass(sym[n..]);
      if quality.Err? {
        return Err(quality.error);
      }
      var moved := MovePitch(l, alt);
      if moved.Err? {
        return Err(moved.error);
      }
      Associates(moved.value, quality.value, bass);
      return Ok(moved.value + quality.value + bass);
    }

    /** A chord's quality, and after it the moved bass with its slash. */
    method SplitBass(full: string) returns (quality: Result<string, Error>, bass: string)
      requires Valid() && keyed
      ensures Spec.MoveQuality(iv, full) == if quality.Ok? then Ok(quality.value + bass) else quality
    {
      quality, bass := Ok(full), "";
      assert full + "" == full;
      var slash := LastIndexOf(full, '/');
      if slash >= 0 {
        var b := Spec.PitchName(full[slash + 1..]);
        if b.Some? && b.value.2 == |full| - slash - 1 {
          var (l, alt, n) := b.value;
          assert Spec.Bass(full) == Some((slash, l, alt));
          var moved := MovePitch(l, alt);
          if moved.Err? {
            return Err(moved.error), "";
          }
          Associates(full[..slash], "/", moved.value);
          quality, bass := Ok(full[..slash]), "/" + moved.value;
        }
      }
    }

    /** Moves an inline K: field; any other inline field stays as it is. */
    method InlineField(field: string) returns (r: Result<string, Error>)
      requires Valid() && keyed
      modifies this
      ensures match Spec.MoveToken(old(View()), Inline(field))
        case Ok((st, u)) => r.Ok? && u == Inline(r.value) && View() == st && Valid() && keyed
        case Err(e) => r == Err(e)
    {
      if "K" <= field && |field| >= 2 {
        var k := SetKey(field[2..], iv.semitones);
        if k.Err? {
          return Err(k.error);
        }
        return Ok("K:" + k.value);
      }
      return Ok(field);
    }

    /** An inline field, up to its closing bracket. */
    method Bracket(s: string) returns (r: Result<(nat, string), Error>)
      requires Valid() && keyed && s != "" && s[0] == '[' && OpensField(s[1..])
      modifies this
      ensures match Spec.MoveToken(old(View()), LexOne(s).0)
        case Ok((st, u)) => r == Ok((LexOne(s).1, Show(u))) && View() == st && Valid() && keyed
        case Err(e) => r == Err(e)
    {
      var end := IndexOf(s, ']');
      if end < 0 {
        return Ok((|s|, s));
      }
      if end == 1 {
        return Err(Error.EmptyFieldPanic);
      }
      var field := InlineField(s[1..end]);
      if field.Err? {
        return Err(field.error);
      }
      return Ok((end + 1, "[" + field.value + "]"));
    }

    /**
      One turn of the scan: how many characters it takes and what it writes.
      A quote, field or decoration that never closes takes the rest of the line.
    */
    method Turn(s: string) returns (r: Result<(nat, string), Error>)
      requires Valid() && keyed && s != ""
      modifies this
      ensures match Spec.MoveToken(old(View()), LexOne(s).0)
        case Ok((st, u)) => r == Ok((LexOne(s).1, Show(u))) && View() == st && Valid() && keyed
        case Err(e) => r == Err(e)
    {
      if Spec.MoveToken(View(), LexOne(s).0).Ok? {
        TokenKeepsState(View(), LexOne(s).0);
      }
      var c := s[0];
      if c == '"' {
        var end := IndexOf(s[1..], '"');
        if end < 0 {
          return Ok((|s|, s));
        }
        var chord := Chord(s[1..end + 1]);
        if chord.Err? {
          return Err(chord.error);
        }
        return Ok((end + 2, "\"" + chord.value + "\""));
      } else if c == '[' && OpensField(s[1..]) {
        r := Bracket(s);
        return;
      } else if c == '!' {
        var end := IndexOf(s[1..], '!');
        if end < 0 {
          return Ok((|s|, s));
        }
        return Ok((end + 2, "!" + s[1..end + 1] + "!"));
      } else if c == '|' {
        ResetBar();
        return Ok((1, "|"));
      }
      var note := Note(s);
      if note.Ok? && note.value.0 == 0 {
        return Ok((1, [c]));
      }
      return note;
    }

    method TurnAt(ghost whole: Outcome, line: string, ghost b: string, i: nat) returns (r: Result<(nat, string), Error>)
      requires Valid() && keyed && i < |line| && Scanned(whole, b, View(), line[i..])
      modifies this
      ensures match r
        case Ok((n, text)) =>
          && 0 < n <= |line| - i && Valid() && keyed
          && Scanned(whole, b + text, View(), line[i + n..])
        case Err(e) => whole == Err(e)
    {
      var s := line[i..];
      ghost var st := View();
      r := Turn(s);
      if r.Err? {
        ScanFails(whole, b, st, s, r.error);
      } else {
        ScanMoves(whole, b, st, s, View(), r.value.1, r.value.0);
        assert s[r.value.0..] == line[i + r.value.0..];
      }
    }

    /** Scans one line of music, from a fresh bar. */
    method Music(line: string, ghost whole: Outcome) returns (r: Result<string, Error>)
      requires Valid() && keyed && Scanned(whole, "", Spec.ResetBar(View()), line)
      modifies this
      ensures match whole
        case Ok((st, text)) => r == Ok(text) && View() == st && Valid() && keyed
        case Err(e) => r == Err(e)
    {
      ResetBar();
      var b := "";
      var i := 0;
      assert line[0..] == line;
      while i < |line|
        invariant 0 <= i <= |line| && Valid() && keyed
        invariant Scanned(whole, b, View(), line[i..])
        decreases |line| - i
      {
        var turn := TurnAt(whole, line, b, i);
        if turn.Err? {
          return Err(turn.error);
        }
        b, i := b + turn.value.1, i + turn.value.0;
      }
      ScanEnds(whole, b, View());
      return Ok(b);
    }

    method Line(line: string, semitones: int) returns (r: Result<string, Error>)
      requires Valid() && -MAX_SEMITONES <= semitones <= MAX_SEMITONES
      modifies this
      ensures match Spec.MoveLine(old(View()), line, semitones)
        case Ok((st, out)) => r == Ok(out) && View() == st && Valid()
        case Err(e) => r == Err(e)
    {
      var trimmed := TrimSpace(line);
      if "K:" <= trimmed {
        var k := SetKey(trimmed[2..], semitones);
        if k.Err? {
          return Err(k.error);
        }
        return Ok("K:" + k.value);
      }
      if !keyed || trimmed == "" || "%" <= trimmed || Spec.IsField(trimmed) {
        return Ok(line);
      }
      ghost var st := Spec.ResetBar(View());
      ScanBegins(st, line);
      r := Music(line, RunText(st, line));
    }
  }

  /** Rewrites a score line by line, in place. */
  method Rewrite(score: string, semitones: int) returns (r: Result<string, Error>)
    requires -MAX_SEMITONES <= semitones <= MAX_SEMITONES
    ensures r == Spec.Rewrite(score, semitones)
  {
    var rewriter := new Rewriter();
    var parts := Split(score, '\n');
    var lines := new string[|parts|](i requires 0 <= i < |parts| => parts[i]);
    LinesBegin(parts, semitones);
    for i := 0 to lines.Length
      invariant rewriter.Valid() && fresh(rewriter)
      invariant lines[i..] == parts[i..]
      invariant Spec.MoveLines(Spec.START, parts, semitones)
             == AfterLines(lines[..i], Spec.MoveLines(rewriter.View(), parts[i..], semitones))
    {
      ghost var st := rewriter.View();
      assert lines[i] == lines[i..][0] == parts[i];
      assert parts[i..][1..] == parts[i + 1..];
      var out := rewriter.Line(lines[i], semitones);
      if out.Err? {
        return Err(out.error);
      }
      LinesStep(lines[..i], st, parts[i..], semitones);
      lines[i] := out.value;
      assert lines[..i + 1] == lines[..i] + [out.value];
    }
    assert parts[|parts|..] == [];
    assert lines[..] == lines[..lines.Length] + [];
    if !rewriter.keyed {
      return Err(NoKeyField);
    }
    return Ok(Join(lines[..], '\n'));
  }

  function AfterLines(done: seq<string>, r: Result<(Spec.State, seq<string>), Error>)
    : Result<(Spec.State, seq<string>), Error>
  {
    match r
    case Ok((st, rest)) => Ok((st, done + rest))
    case Err(e) => Err(e)
  }

  lemma LinesBegin(parts: seq<string>, semitones: int)
    ensures parts[0..] == parts
    ensures var r := Spec.MoveLines(Spec.START, parts, semitones);
      r == AfterLines([], r)
  {
    var r := Spec.MoveLines(Spec.START, parts, semitones);
    assert r.Ok? ==> [] + r.value.1 == r.value.1;
  }

  lemma LinesStep(done: seq<string>, st: Spec.State, lines: seq<string>, semitones: int)
    requires lines != [] && Spec.MoveLine(st, lines[0], semitones).Ok?
    ensures var (st1, out) := Spec.MoveLine(st, lines[0], semitones).value;
      AfterLines(done, Spec.MoveLines(st, lines, semitones))
      == AfterLines(done + [out], Spec.MoveLines(st1, lines[1..], semitones))
  {
    var (st1, out) := Spec.MoveLine(st, lines[0], semitones).value;
    if Spec.MoveLines(st1, lines[1..], semitones).Ok? {
      var rest := Spec.MoveLines(st1, lines[1..], semitones).value.1;
      assert done + ([out] + rest) == (done + [out]) + rest;
    }
  }

  /** Moves a whole score; zero semitones returns it unchanged. */
  method Transpose(score: string, semitones: int) returns (r: Result<string, Error>)
    ensures r == Spec.Transpose(score, semitones)
  {
    if semitones < -MAX_SEMITONES || semitones > MAX_SEMITONES {
      return Err(OutOfRange);
    }
    if semitones == 0 {
      return Ok(score);
    }
    r := Rewrite(score, semitones);
  }
}
