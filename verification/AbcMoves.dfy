/**
  What transposition does to tokens, lines and whole scores, as functions of the
  rewriter's state. AbcRewriter proves that the program's byte scanner computes
  these; AbcReading, AbcComposition and AbcSkeleton prove what they are worth.
*/
module AbcMoves {
  import opened Prelude
  import opened GoArith
  import opened GoText
  import opened AbcKeys
  import opened AbcIntervals
  import opened AbcTokens

  type Flags = s: seq<bool> | |s| == 7 witness [false, false, false, false, false, false, false]

  const UNTOUCHED: Flags := [false, false, false, false, false, false, false]
  const NO_SIG: Sig := [0, 0, 0, 0, 0, 0, 0]

  /** The rewriter's memory between tokens. */
  datatype State = State(
    keyed: bool,            // a header key has been met: from here on there is music
    iv: Interval,
    srcSig: Sig,
    dstSig: Sig,
    srcBar: map<int, int>,  // accidentals met since the last bar line, by letter + 7 * octave
    touched: Flags)         // which letters the output has marked since then

  const START: State := State(false, Interval(0, 0), NO_SIG, NO_SIG, map[], UNTOUCHED)

  function ResetBar(st: State): State {
    st.(srcBar := map[], touched := UNTOUCHED)
  }

  // ---------- Keys ----------

  /** The first word, and what follows the first space. */
  function CutAtSpace(s: string): (string, string) {
    var i := IndexOf(s, ' ');
    if i < 0 then (s, "") else (s[..i], s[i + 1..])
  }

  function KeyText(k: Key, rest: string): string {
    if rest != "" then KeyName(k) + " " + rest else KeyName(k)
  }

  /** The header key picks the interval; every later key is moved by it. */
  function TargetFor(st: State, from: Key, semitones: int): Result<(Key, Interval), Error> {
    if !st.keyed then Ok((TargetOf(from, semitones), TargetInterval(from, semitones)))
    else
      match MoveKey(from, st.iv)
      case Ok(to) => Ok((to, st.iv))
      case Err(e) => Err(e)
  }

  function KeyedState(from: Key, to: Key, iv: Interval): State {
    State(true, iv, SigOf(KeyFifths(from)), SigOf(KeyFifths(to)), map[], UNTOUCHED)
  }

  /** Moves a key already read, and prints it with the text that followed it. */
  function ChangeKey(st: State, from: Key, rest: string, semitones: int): Result<(State, string), Error> {
    match TargetFor(st, from, semitones)
    case Err(e) => Err(e)
    case Ok((to, iv)) => Ok((KeyedState(from, to, iv), KeyText(to, rest)))
  }

  function SetKey(st: State, value: string, semitones: int): Result<(State, string), Error> {
    var (name, rest) := CutAtSpace(TrimSpace(value));
    match ParseKey(name)
    case Err(e) => Err(e)
    case Ok(from) => ChangeKey(st, from, rest, semitones)
  }

  // ---------- Notes ----------

  /** The alteration a note is read with: its own, its bar's, or its signature's. */
  function ReadAlt(st: State, acc: Option<int>, letter: Letter, octave: int): int {
    if acc.Some? then acc.value
    else if letter + 7 * octave in st.srcBar then st.srcBar[letter + 7 * octave]
    else st.srcSig[letter]
  }

  function BarAfter(st: State, acc: Option<int>, letter: Letter, octave: int): map<int, int> {
    if acc.Some? then st.srcBar[letter + 7 * octave := acc.value] else st.srcBar
  }

  /**
    Writes a spelled pitch against the target signature: with an accidental when
    it differs from the signature or its letter has already carried one this bar.
  */
  function WriteNote(st: State, bar: map<int, int>, letter: Letter, octave: int, alt: int): Result<(State, Token), Error> {
    if alt < -2 || alt > 2 then Err(UnspellableNote)
    else if alt != st.dstSig[letter] || st.touched[letter] then
      Ok((st.(srcBar := bar, touched := st.touched[letter := true]), Note(Some(alt), letter, octave)))
    else
      Ok((st.(srcBar := bar), Note(None, letter, octave)))
  }

  function MovedOctave(letter: Letter, octave: int, steps: int): int {
    octave + FloorDiv(letter + steps, 7)
  }

  function MoveNote(st: State, acc: Option<int>, letter: Letter, octave: int): Result<(State, Token), Error> {
    WriteNote(st, BarAfter(st, acc, letter, octave),
      MovedLetter(letter, st.iv.steps), MovedOctave(letter, octave, st.iv.steps),
      MovedAlt(letter, ReadAlt(st, acc, letter, octave), st.iv))
  }

  // ---------- Chord symbols ----------

  /** A chord-symbol pitch that starts `s`: letter, alteration, characters used. */
  function PitchName(s: string): (r: Option<(Letter, int, nat)>)
    ensures r.Some? ==> 0 < r.value.2 <= |s| && -2 <= r.value.1 <= 2
  {
    if s == "" || !IsUpperNote(s[0]) then None
    else
      var l := LetterOf(s[0]);
      if "##" <= s[1..] then Some((l, 2, 3))
      else if "bb" <= s[1..] then Some((l, -2, 3))
      else if "#" <= s[1..] then Some((l, 1, 2))
      else if "b" <= s[1..] then Some((l, -1, 2))
      else Some((l, 0, 1))
  }

  function PitchNameText(l: Letter, alt: int): string {
    [LetterChar(l)]
    + (if alt == 2 then "##" else if alt == 1 then "#" else if alt == -1 then "b" else if alt == -2 then "bb" else "")
  }

  function WritePitch(l: Letter, alt: int): Result<string, Error> {
    if alt < -2 || alt > 2 then Err(UnspellableChord) else Ok(PitchNameText(l, alt))
  }

  function MovePitch(iv: Interval, l: Letter, alt: int): Result<string, Error> {
    WritePitch(MovedLetter(l, iv.steps), MovedAlt(l, alt, iv))
  }

  /** The same, as the program writes it: with no octave to hand, it folds the alteration. */
  function MovePitchAsWritten(iv: Interval, l: Letter, alt: int): Result<string, Error> {
    var l2 := Mod(l + iv.steps, 7);
    var alt2 := WrapAlt(Natural(l) + alt + iv.semitones - Natural(l2));
    if alt2 < -2 || alt2 > 2 then Err(UnspellableChord) else Ok(PitchNameText(l2, alt2))
  }

  lemma MovePitchFoldsNothing(iv: Interval, l: Letter, alt: int)
    requires -13 <= Delta(iv) <= 12 && -2 <= alt <= 2
    ensures MovePitchAsWritten(iv, l, alt) == MovePitch(iv, l, alt)
  {
    WrapHidesNothing(l, alt, iv);
  }

  /** The bass after the last slash, when everything after it is a pitch name. */
  function Bass(quality: string): (r: Option<(nat, Letter, int)>)
    ensures r.Some? ==> r.value.0 < |quality| && quality[r.value.0] == '/' && -2 <= r.value.2 <= 2
  {
    var slash := LastIndexOf(quality, '/');
    if slash < 0 then None
    else
      match PitchName(quality[slash + 1..])
      case Some((l, alt, n)) => if n == |quality| - slash - 1 then Some((slash, l, alt)) else None
      case None => None
  }

  /** What follows a chord's root once its bass, if it has one, has moved. */
  function MoveQuality(iv: Interval, quality: string): Result<string, Error> {
    match Bass(quality)
    case None => Ok(quality)
    case Some((slash, l, alt)) =>
      match MovePitch(iv, l, alt)
      case Err(e) => Err(e)
      case Ok(text) => Ok(quality[..slash] + "/" + text)
  }

  function MoveChord(iv: Interval, sym: string): Result<string, Error> {
    match PitchName(sym)
    case None => Ok(sym)
    case Some((l, alt, n)) =>
      match MoveQuality(iv, sym[n..])
      case Err(e) => Err(e)
      case Ok(quality) =>
        match MovePitch(iv, l, alt)
        case Err(e) => Err(e)
        case Ok(root) => Ok(root + quality)
  }

  // ---------- Tokens ----------

  predicate IsKeyField(t: Token) {
    t.Inline? && "K" <= t.text && |t.text| >= 2
  }

  function MoveToken(st: State, t: Token): Result<(State, Token), Error> {
    match t
    case Note(acc, letter, octave) => MoveNote(st, acc, letter, octave)
    case Quoted(text) =>
      (match MoveChord(st.iv, text)
       case Ok(moved) => Ok((st, Quoted(moved)))
       case Err(e) => Err(e))
    case Inline(text) =>
      if "K" <= text && |text| >= 2 then
        match SetKey(st, text[2..], st.iv.semitones)
        case Ok((st', k)) => Ok((st', Inline("K:" + k)))
        case Err(e) => Err(e)
      else Ok((st, t))
    case EmptyInline => Err(Error.EmptyFieldPanic)
    case Bar => Ok((ResetBar(st), t))
    case _ => Ok((st, t))
  }

  function MoveTokens(st: State, toks: seq<Token>): (r: Result<(State, seq<Token>), Error>)
    ensures r.Ok? ==> |r.value.1| == |toks|
    decreases |toks|
  {
    if toks == [] then Ok((st, []))
    else
      match MoveToken(st, toks[0])
      case Err(e) => Err(e)
      case Ok((st1, t)) =>
        match MoveTokens(st1, toks[1..])
        case Err(e) => Err(e)
        case Ok((st2, ts)) => Ok((st2, [t] + ts))
  }

  // ---------- Lines and scores ----------

  predicate IsField(line: string) {
    |line| >= 2 && line[1] == ':' && ('A' <= line[0] <= 'Z' || 'a' <= line[0] <= 'z')
  }

  datatype LineKind = KeyLine(value: string) | Copied | Music

  function KindOf(keyed: bool, line: string): LineKind {
    var trimmed := TrimSpace(line);
    if "K:" <= trimmed then KeyLine(trimmed[2..])
    else if !keyed || trimmed == "" || "%" <= trimmed || IsField(trimmed) then Copied
    else Music
  }

  function MoveLine(st: State, line: string, semitones: int): Result<(State, string), Error> {
    match KindOf(st.keyed, line)
    case KeyLine(value) =>
      (match SetKey(st, value, semitones)
       case Ok((st', k)) => Ok((st', "K:" + k))
       case Err(e) => Err(e))
    case Copied => Ok((st, line))
    case Music =>
      match MoveTokens(ResetBar(st), Lex(line))
      case Ok((st', toks)) => Ok((st', ShowAll(toks)))
      case Err(e) => Err(e)
  }

  function MoveLines(st: State, lines: seq<string>, semitones: int): (r: Result<(State, seq<string>), Error>)
    ensures r.Ok? ==> |r.value.1| == |lines|
    decreases |lines|
  {
    if lines == [] then Ok((st, []))
    else
      match MoveLine(st, lines[0], semitones)
      case Err(e) => Err(e)
      case Ok((st1, line)) =>
        match MoveLines(st1, lines[1..], semitones)
        case Err(e) => Err(e)
        case Ok((st2, rest)) => Ok((st2, [line] + rest))
  }

  function Rewrite(score: string, semitones: int): Result<string, Error> {
    match MoveLines(START, Split(score, '\n'), semitones)
    case Err(e) => Err(e)
    case Ok((st, lines)) => if st.keyed then Ok(Join(lines, '\n')) else Err(NoKeyField)
  }

  function Transpose(score: string, semitones: int): Result<string, Error> {
    if semitones < -MAX_SEMITONES || semitones > MAX_SEMITONES then Err(OutOfRange)
    else if semitones == 0 then Ok(score)
    else Rewrite(score, semitones)
  }

  function TransposeKey(name: string, semitones: int): Result<string, Error> {
    match ParseKey(name)
    case Err(e) => Err(e)
    case Ok(from) => Ok(KeyName(TargetOf(from, semitones)))
  }

  // ---------- Notes that run into their neighbours ----------

  /** The accidental a note is printed with. */
  function PrintedAcc(st: State, acc: Option<int>, l: Letter, octave: int): Option<int> {
    var l2, alt2 := MovedLetter(l, st.iv.steps), MovedAlt(l, ReadAlt(st, acc, l, octave), st.iv);
    if alt2 != st.dstSig[l2] || st.touched[l2] then Some(alt2) else None
  }

  /** A note that will be printed as a bare letter: no accidental and no octave mark. */
  predicate PrintsBare(st: State, acc: Option<int>, l: Letter, octave: int) {
    PrintedAcc(st, acc, l, octave).None? && 4 <= MovedOctave(l, octave, st.iv.steps) <= 5
  }

  predicate BareBeforeColon(st: State, toks: seq<Token>) {
    && |toks| > 1 && toks[1] == Plain(':')
    && toks[0].Note? && PrintsBare(st, toks[0].acc, toks[0].letter, toks[0].octave)
  }

  /** An accidental character on its own, before a note that is printed so that it takes it. */
  predicate TakenBefore(st: State, c: char, toks: seq<Token>) {
    && IsAccidental(c) && toks != []
    && (|| (toks[0].Note? && Takes(c, PrintedAcc(st, toks[0].acc, toks[0].letter, toks[0].octave)))
        || (c != '=' && toks[0] == Plain(c) && |toks| > 1 && toks[1].Note?
            && PrintedAcc(st, toks[1].acc, toks[1].letter, toks[1].octave).None?))
  }

  /** The line would start like a field: its first visible token is a bare note before a colon. */
  predicate BecomesField(st: State, toks: seq<Token>)
    decreases |toks|
  {
    toks != [] &&
    if toks[0].Plain? then IsSpace(toks[0].c) && BecomesField(st, toks[1..])
    else BareBeforeColon(st, toks)
  }

  /** No bracket before a bare note and a colon, which would open a field; no accidental that a note would take. */
  predicate RunsApart(st: State, toks: seq<Token>)
    decreases |toks|
  {
    toks != [] ==>
      && (toks[0] == Plain('[') ==> !BareBeforeColon(st, toks[1..]))
      && (toks[0].Plain? ==> !TakenBefore(st, toks[0].c, toks[1..]))
      && (MoveToken(st, toks[0]).Ok? ==> RunsApart(MoveToken(st, toks[0]).value.0, toks[1..]))
  }

  /** A line of music that is still music, with the same tokens, once it has moved. */
  predicate NotesApart(st: State, toks: seq<Token>) {
    !BecomesField(st, toks) && RunsApart(st, toks)
  }

  predicate NotesLegibleLines(st: State, lines: seq<string>, semitones: int)
    decreases |lines|
  {
    lines != [] ==>
      && (KindOf(st.keyed, lines[0]) == Music ==> NotesApart(ResetBar(st), Lex(lines[0])))
      && (MoveLine(st, lines[0], semitones).Ok? ==>
           NotesLegibleLines(MoveLine(st, lines[0], semitones).value.0, lines[1..], semitones))
  }

  /** No note of the moved score runs into what stands before or after it. */
  predicate NotesLegible(score: string, semitones: int) {
    NotesLegibleLines(START, Split(score, '\n'), semitones)
  }

  // ---------- Roots that run into their qualities ----------

  /** Whether a quality after a root with this alteration could be taken for more of the root. */
  predicate StandsApart(alt: int, quality: string) {
    quality != "" ==>
      && (quality[0] == '#' ==> alt != 0 && alt != 1)
      && (quality[0] == 'b' ==> alt != 0 && alt != -1)
  }

  /** A chord symbol whose moved root and whose quality stay apart. */
  predicate ChordApart(iv: Interval, sym: string) {
    match PitchName(sym)
    case None => true
    case Some((l, alt, n)) => StandsApart(MovedAlt(l, alt, iv), sym[n..])
  }

  predicate ChordsApart(iv: Interval, toks: seq<Token>) {
    forall i :: 0 <= i < |toks| && toks[i].Quoted? ==> ChordApart(iv, toks[i].text)
  }

  predicate ChordsLegibleLines(st: State, lines: seq<string>, semitones: int)
    decreases |lines|
  {
    lines != [] ==>
      && (KindOf(st.keyed, lines[0]) == Music ==> ChordsApart(st.iv, Lex(lines[0])))
      && (MoveLine(st, lines[0], semitones).Ok? ==>
           ChordsLegibleLines(MoveLine(st, lines[0], semitones).value.0, lines[1..], semitones))
  }

  /** No chord root of the moved score runs into its quality. */
  predicate ChordsLegible(score: string, semitones: int) {
    ChordsLegibleLines(START, Split(score, '\n'), semitones)
  }

  predicate Legible(score: string, semitones: int) {
    NotesLegible(score, semitones) && ChordsLegible(score, semitones)
  }
}
