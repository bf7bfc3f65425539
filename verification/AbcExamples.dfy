/**
  Scores on which the program does what its documentation does not say, worked
  through to the text it writes: a note lost before a colon or after a bracket,
  one that takes a stray accidental, a chord root that takes its quality, a
  comment rewritten, a comment that refuses the score, and a field that makes it
  panic. All are in G and go up a tone.
*/
module AbcExamples {
  import opened Prelude
  import opened GoArith
  import opened GoText
  import opened AbcKeys
  import opened AbcIntervals
  import opened AbcTokens
  import opened AbcMoves
  import opened AbcInvariants
  import opened AbcRescan
  import opened AbcLines
  import opened AbcReading
  import opened AbcComposition
  import opened AbcRefusals
  import opened AbcPlaces

  // ---------- Scores of one key line and one line of music ----------

  lemma TwoLines(h: string, m: string)
    requires '\n' !in h && '\n' !in m
    ensures Split(h + ['\n'] + m, '\n') == [h, m]
  {
    SplitCons(h, '\n', m);
  }

  function KeyLineText(k: Key): string {
    "K:" + KeyName(k)
  }

  lemma KeyLineReads(k: Key)
    requires Accepted(k)
    ensures KindOf(false, KeyLineText(k)) == KeyLine(KeyName(k))
    ensures CutAtSpace(TrimSpace(KeyName(k))) == (KeyName(k), "") && ParseKey(KeyName(k)) == Ok(k)
  {
    KeyTextReadsBack(k, "");
    assert KeyText(k, "") == KeyName(k);
    assert KeyLineText(k)[2..] == KeyName(k);
  }

  lemma KeyLineIsOneLine(k: Key)
    ensures '\n' !in KeyLineText(k)
  {
    KeyNameIsAscii(k);
  }

  lemma HeaderMoves(k: Key, semitones: int)
    requires Accepted(k)
    ensures MoveLine(START, KeyLineText(k), semitones)
      == Ok((KeyedState(k, TargetOf(k, semitones), TargetInterval(k, semitones)), KeyLineText(TargetOf(k, semitones))))
  {
    KeyLineReads(k);
    assert SetKey(START, KeyName(k), semitones) == ChangeKey(START, k, "", semitones);
  }

  /** One key line and one line of music: the whole result, from the tokens of the music. */
  lemma SmallScore(k: Key, music: string, semitones: int)
    requires Accepted(k) && KindOf(true, music) == Music && '\n' !in music
    requires -12 < semitones < 12 && semitones != 0
    ensures var st := KeyedState(k, TargetOf(k, semitones), TargetInterval(k, semitones));
      Transpose(KeyLineText(k) + ['\n'] + music, semitones) == match MoveTokens(st, Lex(music))
        case Ok((_, us)) => Ok(KeyLineText(TargetOf(k, semitones)) + ['\n'] + ShowAll(us))
        case Err(e) => Err(e)
  {
    var st := KeyedState(k, TargetOf(k, semitones), TargetInterval(k, semitones));
    var h, h' := KeyLineText(k), KeyLineText(TargetOf(k, semitones));
    KeyLineIsOneLine(k);
    TwoLines(h, music);
    HeaderMoves(k, semitones);
    assert ResetBar(st) == st;
    TwoLinesMove(st, h, h', music, semitones);
    if MoveTokens(st, Lex(music)).Ok? {
      StaysKeyed(st, Lex(music));
      TwoLinesJoin(h', ShowAll(MoveTokens(st, Lex(music)).value.1));
    }
  }

  lemma TwoLinesJoin(h: string, m: string)
    ensures Join([h, m], '\n') == h + ['\n'] + m
  {
    assert [h, m][1..] == [m];
  }

  lemma OneLineMoves(st: State, line: string, semitones: int)
    ensures MoveLines(st, [line], semitones) == match MoveLine(st, line, semitones)
      case Ok((st', out)) => Ok((st', [out]))
      case Err(e) => Err(e)
  {
    assert [line][1..] == [];
    assert MoveLine(st, line, semitones).Ok? ==> [MoveLine(st, line, semitones).value.1] + [] == [MoveLine(st, line, semitones).value.1];
  }

  lemma TwoLinesMove(st: State, h: string, h': string, music: string, semitones: int)
    requires MoveLine(START, h, semitones) == Ok((st, h')) && st.keyed && ResetBar(st) == st && KindOf(true, music) == Music
    ensures MoveLines(START, [h, music], semitones) == match MoveTokens(st, Lex(music))
      case Ok((st', us)) => Ok((st', [h', ShowAll(us)]))
      case Err(e) => Err(e)
  {
    OneLineMoves(START, h, semitones);
    OneLineMoves(st, music, semitones);
    LinesInParts(START, [h], [music], semitones);
    assert [h] + [music] == [h, music];
    if MoveTokens(st, Lex(music)).Ok? {
      var text := ShowAll(MoveTokens(st, Lex(music)).value.1);
      assert [h'] + [text] == [h', text];
    }
  }

  lemma {:induction false} StaysKeyed(st: State, toks: seq<Token>)
    requires st.keyed && MoveTokens(st, toks).Ok?
    ensures MoveTokens(st, toks).value.0.keyed
    decreases |toks|
  {
    if toks != [] {
      StaysKeyed(MoveToken(st, toks[0]).value.0, toks[1..]);
    }
  }

  // ---------- From G to A ----------

  predicate IsTone(iv: Interval) {
    iv.semitones == 2 && iv.steps == 1
  }

  predicate UpATone(st: State) {
    st.keyed && IsTone(st.iv) && st.srcBar == map[] && st.touched == UNTOUCHED
  }

  lemma StepUp(l: Letter, alt: int, octave: int, iv: Interval)
    requires IsTone(iv)
    ensures l < 6 ==> MovedLetter(l, iv.steps) == l + 1 && MovedOctave(l, octave, iv.steps) == octave
                      && MovedAlt(l, alt, iv) == Natural(l) + alt + 2 - Natural(l + 1)
    ensures l == 6 ==> MovedLetter(l, iv.steps) == 0 && MovedOctave(l, octave, iv.steps) == octave + 1
                       && MovedAlt(l, alt, iv) == alt + 1
  {
    if l < 6 {
      EuclideanUnique(l + iv.steps, 7, 0, l + 1);
    } else {
      EuclideanUnique(l + iv.steps, 7, 1, 0);
    }
  }

  /** The key of a one-letter name: major, with the signature the table gives. */
  lemma KeyNamed(name: string) returns (k: Key)
    requires |name| == 1 && KeySignature(name).Some?
    ensures KeyName(k) == name && Accepted(k) && !k.minor && KeySignature(name) == Some(KeyFifths(k))
  {
    AcceptedNamesReadBack(name);
    k := ReadKeyName(name);
    assert !k.minor by {
      assert |KeyName(k)| == 1;
    }
  }

  lemma ToneFifths(n: int, semitones: int)
    requires n == 1 && semitones == 2
    ensures TargetFifths(n, semitones) == n + 2
  {
    WrapIs(n + 7 * semitones, n + 2, 1);
  }

  lemma ToneSteps(k: Key, semitones: int)
    requires semitones == 2 && TargetFifths(KeyFifths(k), semitones) == KeyFifths(k) + 2
    ensures IsTone(TargetInterval(k, semitones))
  {
    EuclideanUnique(7 * semitones + KeyFifths(k) - TargetFifths(KeyFifths(k), semitones), 12, 1, 0);
  }

  lemma TargetIs(k: Key, to: Key, semitones: int)
    requires KeyFifths(to) == TargetFifths(KeyFifths(k), semitones) && to.minor == k.minor
    ensures TargetOf(k, semitones) == to
  {
    KeyIsAtItsFifths(to);
  }

  /** Keys a tone apart on the circle of fifths. */
  ghost predicate ToneApart(k: Key, to: Key) {
    KeyFifths(k) == 1 && KeyFifths(to) == KeyFifths(k) + 2 && to.minor == k.minor
  }

  lemma TableG()
    ensures KeySignature("G") == Some(1) && KeySignature("A") == Some(3)
  {
  }

  /** The first state of a score in G that goes up a tone to A. */
  ghost predicate FromGToA(k: Key, to: Key, iv: Interval, st: State) {
    && KeyName(k) == "G" && KeyName(to) == "A" && ToneApart(k, to) && IsTone(iv)
    && st == KeyedState(k, to, iv) && UpATone(st) && st.dstSig == SigOf(3)
  }

  lemma Start() returns (k: Key, to: Key, iv: Interval, st: State)
    ensures FromGToA(k, to, iv, st)
  {
    TableG();
    k := KeyNamed("G");
    to := KeyNamed("A");
    iv := ATone(2, 1);
    st := KeyedState(k, to, iv);
  }

  lemma ATone(semitones: int, steps: int) returns (iv: Interval)
    ensures iv.semitones == semitones && iv.steps == steps
  {
    iv := Interval(semitones, steps);
  }

  lemma ToneTarget(k: Key, to: Key, iv: Interval, semitones: int)
    requires semitones == 2 && ToneApart(k, to) && IsTone(iv)
    ensures TargetOf(k, semitones) == to && TargetInterval(k, semitones) == iv
  {
    ToneFifths(KeyFifths(k), semitones);
    ToneSteps(k, semitones);
    TargetIs(k, to, semitones);
  }

  lemma HeaderText(k: Key, name: string, h: string)
    requires KeyName(k) == name && h == "K:" + name
    ensures h == KeyLineText(k)
  {
  }

  /** A score in G with one line of music, up a tone, from what the music's tokens become. */
  lemma UpFromG(k: Key, to: Key, iv: Interval, st: State, h: string, m: string, h': string, semitones: int)
    requires FromGToA(k, to, iv, st) && KindOf(true, m) == Music && '\n' !in m
    requires h == "K:G" && h' == "K:A" && semitones == 2
    ensures Transpose(h + ['\n'] + m, semitones) == match MoveTokens(st, Lex(m))
      case Ok((_, us)) => Ok(h' + ['\n'] + ShowAll(us))
      case Err(e) => Err(e)
  {
    HeaderText(k, "G", h);
    HeaderText(to, "A", h');
    ToneTarget(k, to, iv, semitones);
    SmallScore(k, m, semitones);
  }

  // ---------- Three tokens, one of them a note ----------

  lemma Kinds(s: string)
    ensures s == "^F:|" || s == "[^F:" || s == "|_^F" || s == "|%^F" || s == "|%^^B" || s == "[]:" || s == "\"Eb#5\""
      ==> KindOf(true, s) == Music
    ensures s == "G:|" ==> KindOf(true, s) == Copied
  {
    if s != "" && !IsSpace(s[0]) && !IsSpace(s[|s| - 1]) {
      TrimNothing(s);
    }
  }

  lemma ShowsThree(toks: seq<Token>)
    requires |toks| == 3
    ensures ShowAll(toks) == Show(toks[0]) + (Show(toks[1]) + Show(toks[2]))
  {
    assert toks[1..][0] == toks[1] && toks[1..][1..] == toks[2..];
    assert toks[2..][0] == toks[2] && toks[2..][1..] == [];
    assert Show(toks[2]) + "" == Show(toks[2]);
    assert ShowAll(toks[2..]) == Show(toks[2]);
    assert ShowAll(toks[1..]) == Show(toks[1]) + Show(toks[2]);
  }

  lemma CleanThree(toks: seq<Token>)
    requires |toks| == 3 && TokenOk(toks[0]) && TokenOk(toks[1]) && TokenOk(toks[2])
    requires Adjacent(toks[0], toks[1..]) && Adjacent(toks[1], toks[2..]) && Adjacent(toks[2], [])
    requires toks[0] == Plain('[') ==> !BareThenColon(toks[1..])
    requires toks[0].Plain? ==> !IsAccidental(toks[0].c)
    requires toks[1] != Plain('[') && toks[2] != Plain('[')
    requires toks[1].Plain? ==> !TakenBy(toks[1].c, toks[2..])
    ensures Clean(toks)
  {
    assert toks[1..][0] == toks[1] && toks[1..][1..] == toks[2..];
    assert toks[2..][0] == toks[2] && toks[2..][1..] == [];
    assert Clean(toks[2..]);
    assert Clean(toks[1..]);
  }

  lemma ShowNatural(t: Token)
    requires t.Note? && t.acc.None? && t.octave == 4
    ensures Show(t) == [LetterChar(t.letter)]
  {
    assert Repeat(',', 0) == "";
  }

  lemma ShowSharp(t: Token)
    requires t.Note? && t.acc == Some(1) && t.octave == 4
    ensures Show(t) == ['^', LetterChar(t.letter)]
  {
    assert Repeat(',', 0) == "";
  }

  predicate IsSharpF(t: Token) {
    t.Note? && t.acc == Some(1) && LetterChar(t.letter) == 'F' && t.octave == 4
  }

  predicate IsBareG(t: Token) {
    t.Note? && t.acc.None? && LetterChar(t.letter) == 'G' && t.octave == 4
  }

  lemma ANote(acc: Option<int>, l: Letter, octave: int) returns (t: Token)
    ensures t.Note? && t.acc == acc && t.letter == l && t.octave == octave
  {
    t := Note(acc, l, octave);
  }

  /** What is used of the letters F, E and B. */
  lemma LetterF(l: Letter)
    requires LetterChar(l) == 'F'
    ensures l < 6 && Natural(l) + 3 - Natural(l + 1) == 1 && LetterFifths(l + 1) == 1 && LetterChar(l + 1) == 'G'
  {
    assert l == 3;
  }

  lemma FIsFive(l: Letter)
    requires LetterChar(l) == 'F'
    ensures Natural(l) == 5
  {
    assert l == 3;
  }

  lemma LetterE(l: Letter)
    requires LetterChar(l) == 'E'
    ensures l < 6 && Natural(l) == 4 && Natural(l + 1) == 5 && LetterChar(l + 1) == 'F'
  {
    assert l == 2;
  }

  lemma LetterB(l: Letter)
    requires LetterChar(l) == 'B'
    ensures l == 6
  {
  }

  /** In A the G is sharp. */
  lemma SharpG(st: State, l: Letter)
    requires st.dstSig == SigOf(3) && LetterFifths(l) == 1
    ensures st.dstSig[l] == 1
  {
    EuclideanUnique(3 + 5 - LetterFifths(l), 7, 1, 0);
  }

  /** Up a tone to the alteration of the signature: the next letter, printed bare. */
  lemma NoteUp(st: State, t: Token, alt: int)
    requires UpATone(st) && t.Note? && t.letter < 6 && t.acc == Some(alt)
    requires Natural(t.letter) + alt + 2 - Natural(t.letter + 1) == st.dstSig[t.letter + 1] && -2 <= st.dstSig[t.letter + 1] <= 2
    ensures MoveToken(st, t).Ok? && MoveToken(st, t).value.1 == Note(None, t.letter + 1, t.octave)
  {
    StepUp(t.letter, alt, t.octave, st.iv);
  }

  /** F sharp goes to the G sharp of the signature. */
  lemma SharpFGoesUp(st: State, t: Token) returns (u: Token)
    requires UpATone(st) && st.dstSig == SigOf(3) && IsSharpF(t)
    ensures IsBareG(u) && MoveToken(st, t).Ok? && MoveToken(st, t).value.1 == u
  {
    LetterF(t.letter);
    SharpG(st, t.letter + 1);
    NoteUp(st, t, t.acc.value);
    u := MoveToken(st, t).value.1;
  }

  predicate Quiet(toks: seq<Token>) {
    forall i :: 0 <= i < |toks| ==> toks[i].Plain? || toks[i].Bar?
  }

  lemma {:induction false} QuietStays(st: State, toks: seq<Token>)
    requires Quiet(toks)
    ensures MoveTokens(st, toks).Ok? && MoveTokens(st, toks).value.1 == toks
    ensures ResetBar(st) == st ==> MoveTokens(st, toks).value.0 == st
    decreases |toks|
  {
    if toks != [] {
      assert forall i :: 0 <= i < |toks[1..]| ==> toks[1..][i] == toks[i + 1];
      QuietStays(MoveToken(st, toks[0]).value.0, toks[1..]);
      assert [toks[0]] + toks[1..] == toks;
    }
  }

  lemma OneMoves(st: State, t: Token)
    ensures var r := MoveToken(st, t);
      MoveTokens(st, [t]) == if r.Ok? then Ok((r.value.0, [r.value.1])) else Err(r.error)
  {
    assert [t][1..] == [];
    assert MoveToken(st, t).Ok? ==> [MoveToken(st, t).value.1] + [] == [MoveToken(st, t).value.1];
  }

  lemma OnlyOneMoves(st: State, pre: seq<Token>, t: Token, post: seq<Token>)
    requires Quiet(pre) && Quiet(post) && ResetBar(st) == st
    ensures var r, all := MoveToken(st, t), MoveTokens(st, pre + ([t] + post));
      if r.Ok? then all.Ok? && all.value.1 == pre + ([r.value.1] + post) else all == Err(r.error)
  {
    QuietStays(st, pre);
    OneMoves(st, t);
    TokensInParts(st, pre, [t] + post);
    TokensInParts(st, [t], post);
    if MoveToken(st, t).Ok? {
      QuietStays(MoveToken(st, t).value.0, post);
    }
  }

  /** Among quiet tokens only the one at i changes, or refuses. */
  lemma OnlyThisMoves(st: State, toks: seq<Token>, i: nat)
    requires i < |toks| && Quiet(toks[..i]) && Quiet(toks[i + 1..]) && ResetBar(st) == st
    ensures var r, all := MoveToken(st, toks[i]), MoveTokens(st, toks);
      if r.Ok? then all.Ok? && all.value.1 == toks[i := r.value.1] else all == Err(r.error)
  {
    OnlyOneMoves(st, toks[..i], toks[i], toks[i + 1..]);
    Apart(toks, i);
    if MoveToken(st, toks[i]).Ok? {
      Apart(toks[i := MoveToken(st, toks[i]).value.1], i);
    }
  }

  lemma Apart(toks: seq<Token>, i: nat)
    requires i < |toks|
    ensures toks == toks[..i] + ([toks[i]] + toks[i + 1..])
  {
  }

  /** Three tokens with an F sharp at i, in text and up a tone. */
  ghost predicate AroundF(toks: seq<Token>, i: nat, m: string) {
    && |toks| == 3 && i < 3 && IsSharpF(toks[i]) && Quiet(toks[..i]) && Quiet(toks[i + 1..])
    && Clean(toks) && m == Show(toks[0]) + (Show(toks[1]) + Show(toks[2]))
    && KindOf(true, m) == Music && '\n' !in m
  }

  lemma FGoesUp(toks: seq<Token>, i: nat, h: string, m: string, h': string, m': string, semitones: int)
    requires AroundF(toks, i, m) && h == "K:G" && h' == "K:A" && semitones == 2
    requires forall u :: IsBareG(u) ==> var us := toks[i := u]; m' == Show(us[0]) + (Show(us[1]) + Show(us[2]))
    ensures Transpose(h + ['\n'] + m, semitones) == Ok(h' + ['\n'] + m')
  {
    var k, to, iv, st := Start();
    ShowsThree(toks);
    LexShow(toks);
    var u := SharpFGoesUp(st, toks[i]);
    OnlyThisMoves(st, toks, i);
    ShowsThree(toks[i := u]);
    UpFromG(k, to, iv, st, h, m, h', semitones);
  }

  lemma ThreeAroundF(toks: seq<Token>, i: nat)
    requires |toks| == 3 && i < 3 && forall j :: 0 <= j < 3 && j != i ==> toks[j].Plain? || toks[j].Bar?
    ensures Quiet(toks[..i]) && Quiet(toks[i + 1..])
    ensures toks[1..] == [toks[1], toks[2]] && toks[2..] == [toks[2]]
  {
  }

  // ---------- Notes that are lost or changed ----------

  lemma ColonLine(m: string, t: Token) returns (toks: seq<Token>)
    requires m == "^F:|" && IsSharpF(t)
    ensures AroundF(toks, 0, m) && toks == [t, Plain(':'), Bar]
  {
    toks := [t, Plain(':'), Bar];
    ThreeAroundF(toks, 0);
    CleanThree(toks);
    ShowSharp(t);
    Kinds(m);
  }

  /** In G up a tone, ^F:| becomes G:|, a field line. */
  lemma NoteLostBeforeColon(h: string, m: string, h': string, m': string, semitones: int)
    requires h == "K:G" && m == "^F:|" && h' == "K:A" && m' == "G:|" && semitones == 2
    ensures Transpose(h + ['\n'] + m, semitones) == Ok(h' + ['\n'] + m')
  {
    var t := ANote(Some(1), LetterOf('F'), 4);
    var toks := ColonLine(m, t);
    forall u | IsBareG(u)
      ensures var us := toks[0 := u]; m' == Show(us[0]) + (Show(us[1]) + Show(us[2]))
    {
      ShowNatural(u);
    }
    FGoesUp(toks, 0, h, m, h', m', semitones);
  }

  lemma BracketLine(m: string, t: Token) returns (toks: seq<Token>)
    requires m == "[^F:" && IsSharpF(t)
    ensures AroundF(toks, 1, m) && toks == [Plain('['), t, Plain(':')]
  {
    toks := [Plain('['), t, Plain(':')];
    ThreeAroundF(toks, 1);
    CleanThree(toks);
    ShowSharp(t);
    Kinds(m);
  }

  /** After a bracket the same note opens an inline field that never closes. */
  lemma NoteLostAfterBracket(h: string, m: string, h': string, m': string, semitones: int)
    requires h == "K:G" && m == "[^F:" && h' == "K:A" && m' == "[G:" && semitones == 2
    ensures Transpose(h + ['\n'] + m, semitones) == Ok(h' + ['\n'] + m') && LexOne(m').0.Unclosed?
  {
    var t := ANote(Some(1), LetterOf('F'), 4);
    var toks := BracketLine(m, t);
    forall u | IsBareG(u)
      ensures var us := toks[1 := u]; m' == Show(us[0]) + (Show(us[1]) + Show(us[2]))
    {
      ShowNatural(u);
    }
    FGoesUp(toks, 1, h, m, h', m', semitones);
    BracketNeverCloses(m');
  }

  lemma BracketNeverCloses(moved: string)
    requires moved == "[G:"
    ensures LexOne(moved).0.Unclosed?
  {
    assert moved[1..] == "G:";
    assert OpensField(moved[1..]);
    assert IndexOf(moved, ']') < 0;
  }

  /** A bar, a character that is copied, and the F sharp. */
  lemma LastLine(m: string, c: char, t: Token) returns (toks: seq<Token>)
    requires m == ['|', c, '^', 'F'] && (c == '%' || c == '_') && IsSharpF(t) && KindOf(true, m) == Music
    ensures AroundF(toks, 2, m) && toks == [Bar, Plain(c), t]
  {
    toks := [Bar, Plain(c), t];
    ThreeAroundF(toks, 2);
    CleanThree(toks);
    ShowSharp(t);
  }

  lemma LastGoesUp(h: string, m: string, c: char, h': string, m': string, semitones: int)
    requires h == "K:G" && h' == "K:A" && semitones == 2 && (c == '%' || c == '_')
    requires m == ['|', c, '^', 'F'] && KindOf(true, m) == Music && m' == ['|', c, 'G']
    ensures Transpose(h + ['\n'] + m, semitones) == Ok(h' + ['\n'] + m')
  {
    var t := ANote(Some(1), LetterOf('F'), 4);
    var toks := LastLine(m, c, t);
    forall u | IsBareG(u)
      ensures var us := toks[2 := u]; m' == Show(us[0]) + (Show(us[1]) + Show(us[2]))
    {
      ShowNatural(u);
    }
    FGoesUp(toks, 2, h, m, h', m', semitones);
  }

  /** An accidental the source leaves before another one is taken by the moved note: G flat for G sharp. */
  lemma NoteTakesAccidental(h: string, m: string, h': string, m': string, semitones: int)
    requires h == "K:G" && m == "|_^F" && h' == "K:A" && m' == "|_G" && semitones == 2
    ensures Transpose(h + ['\n'] + m, semitones) == Ok(h' + ['\n'] + m')
    ensures LexNote(m'[1..]).Some? && LexNote(m'[1..]).value.0.acc == Some(-1)
  {
    Kinds(m);
    LastGoesUp(h, m, '_', h', m', semitones);
    AccidentalByCharacters(m'[1..]);
  }

  // ---------- Comments ----------

  /** In G up a tone, the comment after a bar moves with the music. */
  lemma CommentIsRewritten(h: string, m: string, h': string, m': string, semitones: int)
    requires h == "K:G" && m == "|%^F" && h' == "K:A" && m' == "|%G" && semitones == 2
    ensures Transpose(h + ['\n'] + m, semitones) == Ok(h' + ['\n'] + m')
  {
    Kinds(m);
    LastGoesUp(h, m, '%', h', m', semitones);
  }

  lemma DoubleSharpBRefused(st: State, t: Token)
    requires UpATone(st) && t.Note? && t.acc == Some(2) && LetterChar(t.letter) == 'B'
    ensures MoveToken(st, t) == Err(UnspellableNote)
  {
    LetterB(t.letter);
    StepUp(t.letter, 2, t.octave, st.iv);
    NoteMoves(st, t.acc, t.letter, t.octave);
  }

  lemma ShowDoubleSharp(t: Token)
    requires t.Note? && t.acc == Some(2) && t.octave == 4
    ensures Show(t) == ['^', '^', LetterChar(t.letter)]
  {
    assert Repeat(',', 0) == "";
  }

  lemma RefusedLine(m: string, t: Token) returns (toks: seq<Token>)
    requires m == "|%^^B" && t.Note? && t.acc == Some(2) && LetterChar(t.letter) == 'B' && t.octave == 4
    ensures toks == [Bar, Plain('%'), t] && Lex(m) == toks
  {
    toks := [Bar, Plain('%'), t];
    ThreeAroundF(toks, 2);
    CleanThree(toks);
    ShowDoubleSharp(t);
    ShowsThree(toks);
    LexShow(toks);
  }

  /** A comment with a B double sharp gets the whole score refused. */
  lemma CommentRefusesScore(h: string, m: string, semitones: int)
    requires h == "K:G" && m == "|%^^B" && semitones == 2
    ensures Transpose(h + ['\n'] + m, semitones) == Err(UnspellableNote)
  {
    var k, to, iv, st := Start();
    var t := ANote(Some(2), LetterOf('B'), 4);
    var toks := RefusedLine(m, t);
    ThreeAroundF(toks, 2);
    DoubleSharpBRefused(st, t);
    OnlyThisMoves(st, toks, 2);
    Kinds(m);
    UpFromG(k, to, iv, st, h, m, "K:A", semitones);
  }

  // ---------- A chord root that takes its quality ----------

  lemma FlatEGoesUp(iv: Interval, l: Letter)
    requires IsTone(iv) && LetterChar(l) == 'E'
    ensures MovePitch(iv, l, -1) == Ok(['F'])
  {
    LetterE(l);
    StepUp(l, -1, 4, iv);
    assert PitchNameText(l + 1, 0) == [LetterChar(l + 1)];
  }

  lemma RootOf(sym: string, c: char, alt: int)
    requires |sym| >= 2 && IsUpperNote(c) && sym[0] == c
    requires (sym == "Eb#5" && alt == -1) || (sym == "F#5" && alt == 1)
    ensures PitchName(sym) == Some((LetterOf(c), alt, 2)) && sym[2..] == if alt == -1 then "#5" else "5"
  {
    PrefixByCharacters(sym[1..]);
  }

  lemma SharpFiveIsNoBass(q: string)
    requires q == "#5"
    ensures Bass(q).None?
  {
    assert LastIndexOf(q, '/') < 0;
  }

  lemma ChordGoesUp(iv: Interval, sym: string, sym': string)
    requires IsTone(iv) && sym == "Eb#5" && sym' == "F#5"
    ensures MoveChord(iv, sym) == Ok(sym')
  {
    RootOf(sym, 'E', -1);
    FlatEGoesUp(iv, LetterOf('E'));
    SharpFiveIsNoBass(sym[2..]);
    ChordFromParts(iv, sym, ['F'], sym[2..]);
    assert ['F'] + sym[2..] == sym';
  }

  lemma ChordLine(m: string, sym: string)
    requires sym == "Eb#5" && m == "\"" + sym + "\""
    ensures Lex(m) == [Quoted(sym)]
  {
    QuotedScans(sym, "");
    assert "\"" + sym + "\"" + "" == m;
    LexUnfolds(m);
    assert m[|m|..] == "" && Lex(m)[1..] == [];
  }

  lemma ChordMusicGoesUp(st: State, m: string, sym: string, m': string, sym': string)
    requires UpATone(st) && sym == "Eb#5" && sym' == "F#5" && m == Show(Quoted(sym)) && m' == Show(Quoted(sym'))
    ensures MoveTokens(st, Lex(m)).Ok? && ShowAll(MoveTokens(st, Lex(m)).value.1) == m'
  {
    ChordLine(m, sym);
    ChordGoesUp(st.iv, sym, sym');
    OneMoves(st, Quoted(sym));
    ShowsOne(Quoted(sym'));
  }

  lemma ShowsOne(t: Token)
    ensures ShowAll([t]) == Show(t)
  {
    assert [t][1..] == [];
    assert Show(t) + "" == Show(t);
  }

  lemma ChordScoreGoesUp(h: string, m: string, sym: string, h': string, m': string, sym': string, semitones: int)
    requires h == "K:G" && sym == "Eb#5" && m == Show(Quoted(sym)) && '\n' !in m
    requires h' == "K:A" && sym' == "F#5" && m' == Show(Quoted(sym')) && semitones == 2
    requires KindOf(true, m) == Music
    ensures Transpose(h + ['\n'] + m, semitones) == Ok(h' + ['\n'] + m')
  {
    var k, to, iv, st := Start();
    ChordMusicGoesUp(st, m, sym, m', sym');
    UpFromG(k, to, iv, st, h, m, h', semitones);
  }

  /** E flat with a raised fifth becomes F with a raised fifth, which is written and read as F sharp. */
  lemma RootTakesQuality(h: string, m: string, sym: string, h': string, m': string, sym': string, semitones: int)
    requires h == "K:G" && sym == "Eb#5" && m == ['"'] + sym + ['"']
    requires h' == "K:A" && sym' == "F#5" && m' == ['"'] + sym' + ['"'] && semitones == 2
    ensures Transpose(h + ['\n'] + m, semitones) == Ok(h' + ['\n'] + m')
    ensures PitchName(sym').Some? && PitchName(sym').value.1 == 1
  {
    Kinds(m);
    ChordScoreGoesUp(h, m, sym, h', m', sym', semitones);
    ReadsAsFSharp(sym');
  }

  lemma ReadsAsFSharp(sym: string)
    requires sym == "F#5"
    ensures PitchName(sym).Some? && PitchName(sym).value.1 == 1
  {
    RootOf(sym, 'F', 1);
  }

  // ---------- A panic ----------

  /** This score makes the program panic, whatever the shift. */
  lemma ScorePanics(h: string, m: string, semitones: int)
    requires h == "K:G" && m == "[]:" && -12 < semitones < 12 && semitones != 0
    ensures Transpose(h + ['\n'] + m, semitones) == Err(EmptyFieldPanic)
  {
    var k, to, iv, st := Start();
    Kinds(m);
    EmptyInlineIsItsText(m);
    LexUnfolds(m);
    HeaderText(k, "G", h);
    SmallScore(k, m, semitones);
  }

  // ---------- What a reader hears ----------

  lemma HearSmallScore(style: Style, k: Key, score: string, music: string)
    requires Accepted(k) && '\n' !in music && score == KeyLineText(k) + ['\n'] + music
    ensures Hear(style, score) == match HearLine(style, Reader(true, SigOf(KeyFifths(k)), map[]), music)
      case None => None
      case Some((_, ps)) => Some(ps)
  {
    var r := Reader(true, SigOf(KeyFifths(k)), map[]);
    KeyLineIsOneLine(k);
    TwoLines(KeyLineText(k), music);
    KeyLineReads(k);
    HearOneLine(style, r, music);
    HearHeader(style, k, music);
  }

  lemma HearOneLine(style: Style, r: Reader, line: string)
    ensures HearLines(style, r, [line]) == match HearLine(style, r, line)
      case None => None
      case Some((_, ps)) => Some(ps)
  {
    assert [line][1..] == [];
    assert HearLine(style, r, line).Some? ==> HearLine(style, r, line).value.1 + [] == HearLine(style, r, line).value.1;
  }

  lemma HearHeader(style: Style, k: Key, music: string)
    requires Accepted(k)
    ensures HearLines(style, Reader(false, NO_SIG, map[]), [KeyLineText(k), music])
      == HearLines(style, Reader(true, SigOf(KeyFifths(k)), map[]), [music])
  {
    KeyLineReads(k);
    assert [KeyLineText(k), music][1..] == [music];
    var rest := HearLines(style, Reader(true, SigOf(KeyFifths(k)), map[]), [music]);
    assert rest.Some? ==> [] + rest.value == rest.value;
  }

  lemma HearHead(style: Style, r: Reader, toks: seq<Token>)
    requires toks != [] && toks[0] != Plain('%')
    ensures HearTokens(style, r, toks) == match HearToken(style.scope, r, toks[0])
      case None => None
      case Some((r1, ps)) =>
        match HearTokens(style, r1, toks[1..])
        case None => None
        case Some((r2, qs)) => Some((r2, ps + qs))
  {
  }

  lemma HearSharpF(style: Style, r: Reader, t: Token, toks: seq<Token>)
    requires IsSharpF(t) && toks == [t, Plain(':'), Bar]
    ensures HearTokens(style, r, toks).Some? && HearTokens(style, r, toks).value.1 == [54]
  {
    var r1 := HearToken(style.scope, r, t).value.0;
    FIsFive(t.letter);
    assert HearToken(style.scope, r, t).value.1 == [54];
    assert toks[1..] == [Plain(':'), Bar] && toks[1..][1..] == [Bar] && toks[1..][1..][1..] == [];
    HearHead(style, r, toks);
    HearHead(style, r1, toks[1..]);
    HearHead(style, r1, toks[1..][1..]);
    var none: seq<int> := [];
    assert none + (none + none) == none && [54] + none == [54];
  }

  lemma SharpFIsHeard(style: Style, k: Key, score: string, music: string)
    requires Accepted(k) && music == "^F:|" && score == KeyLineText(k) + ['\n'] + music
    ensures Hear(style, score) == Some([54])
  {
    var t := ANote(Some(1), LetterOf('F'), 4);
    var toks := ColonLine(music, t);
    ShowsThree(toks);
    LexShow(toks);
    HearSharpF(style, Reader(true, SigOf(KeyFifths(k)), map[]), t, toks);
    HearSmallScore(style, k, score, music);
  }

  lemma FieldIsSilent(style: Style, k: Key, score: string, music: string)
    requires Accepted(k) && music == "G:|" && score == KeyLineText(k) + ['\n'] + music
    ensures Hear(style, score) == Some([])
  {
    Kinds(music);
    HearSmallScore(style, k, score, music);
  }

  /** The F sharp of the source is heard; of the score moved up a tone, nothing is. */
  lemma LostNoteIsNotHeard(style: Style, h: string, m: string, h': string, m': string)
    requires h == "K:G" && m == "^F:|" && h' == "K:A" && m' == "G:|"
    ensures Hear(style, h + ['\n'] + m) == Some([54]) && Hear(style, h' + ['\n'] + m') == Some([])
  {
    var k, to, iv, st := Start();
    HeaderText(k, "G", h);
    HeaderText(to, "A", h');
    SharpFIsHeard(style, k, h + ['\n'] + m, m);
    FieldIsSilent(style, to, h' + ['\n'] + m', m');
  }
}
