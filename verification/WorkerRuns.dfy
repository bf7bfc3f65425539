/**
  The worker's passes are runs of the machine: whatever a tick or a restart does
  to the tables, the machine can do with the same answers at the same times. So
  what every run of the machine keeps, the methods keep.
*/
module WorkerRuns {
  import opened Prelude
  import opened Runpod
  import opened Budgets
  import opened StoreTables
  import opened StorePages
  import opened JobWorker
  import S = SoloWorker

  lemma {:induction false} RunJoins(s: S.Solo, a: seq<S.Event>, b: seq<S.Event>)
    requires S.Run(s, a).Some?
    ensures S.Run(s, a + b) == S.Run(S.Run(s, a).value, b)
    decreases |a|
  {
    if a == [] {
      assert a + b == b;
    } else {
      assert (a + b)[0] == a[0] && (a + b)[1..] == a[1..] + b;
      RunJoins(S.Step(s, a[0]).value, a[1..], b);
    }
  }

  lemma RunsOne(s: S.Solo, e: S.Event)
    requires S.Step(s, e).Some?
    ensures S.Run(s, [e]) == S.Step(s, e)
  {
    assert S.Run(S.Step(s, e).value, []) == S.Step(s, e);
  }

  lemma RunsTwo(s: S.Solo, e: S.Event, f: S.Event)
    requires S.Step(s, e).Some? && S.Step(S.Step(s, e).value, f).Some?
    ensures S.Run(s, [e, f]) == S.Step(S.Step(s, e).value, f)
  {
    assert [e, f][1..] == [f];
    RunsOne(S.Step(s, e).value, f);
  }

  lemma PassIsAStep(s: S.Solo, t: int)
    requires s.now <= t
    ensures S.Step(s, S.Pass(t - s.now)) == Some(s.(now := t))
  {
  }

  /** Waiting until a time, and then one step. */
  lemma WaitAndStep(s: S.Solo, t: int, e: S.Event)
    requires s.now <= t && S.Step(s.(now := t), e).Some?
    ensures S.Run(s, [S.Pass(t - s.now), e]) == S.Step(s.(now := t), e)
  {
    PassIsAStep(s, t);
    RunsTwo(s, S.Pass(t - s.now), e);
  }

  // ---------- Polling ----------

  function Shelf(s: S.Solo): Rows {
    Rows(s.jobs, s.songs)
  }

  /** The word can be had: in order, within the call's timeout, with a fresh song id. */
  predicate CanHear(songs: Songs, word: PollWord, from: int) {
    && from <= word.asked <= word.heard
    && (word.answer.InProgress? ==> word.heard - word.asked <= CALL_TIMEOUT)
    && (word.answer.RemoteCompleted? && word.answer.output.Encoded? ==> word.answer.output.songId !in songs)
  }

  function PollEnd(snap: Snap, word: PollWord): int {
    if S.LookAt(snap.job, word.configured, word.asked) in {S.Leave, S.FailNow} then word.asked else word.heard
  }

  lemma LookIsAStep(s: S.Solo, word: PollWord)
    requires s.phase.Polling? && s.phase.todo != [] && s.now == word.asked
    ensures S.Step(s, S.PollOne(word.configured)) == S.Looking(s, word.configured)
    ensures S.Looking(s, word.configured).Some?
  {
  }

  lemma HearIsAStep(s: S.Solo, answer: S.PollAnswer)
    requires s.phase.Calling? && S.InTime(s, answer)
    ensures S.Step(s, S.Heard(answer)) == S.Hearing(s, answer) && S.Hearing(s, answer).Some?
  {
  }

  /** The call and its answer. */
  lemma CallIsARun(s: S.Solo, word: PollWord) returns (events: seq<S.Event>)
    requires s.phase.Calling? && s.phase.since == s.now == word.asked && CanHear(s.songs, word, s.now)
    ensures S.Run(s, events) == Some(s.(now := word.heard, phase := S.Polling(s.phase.todo),
      jobs := if s.phase.over then Kept(s.jobs, FailJob(s.jobs, s.phase.snap.id, word.heard))
              else S.ApplyStatus(s.jobs, s.songs, s.phase.snap, word.answer, word.heard),
      songs := if s.phase.over then s.songs else S.SongsAfter(s.songs, s.phase.snap, word.answer)))
  {
    var answer := if s.phase.over then S.UnknownStatus else word.answer;
    HearIsAStep(s.(now := word.heard), answer);
    WaitAndStep(s, word.heard, S.Heard(answer));
    events := [S.Pass(word.heard - s.now), S.Heard(answer)];
  }

  lemma PollOneIsARun(s: S.Solo, word: PollWord) returns (events: seq<S.Event>)
    requires s.phase.Polling? && s.phase.todo != [] && CanHear(s.songs, word, s.now)
    ensures var snap := s.phase.todo[0];
      var r := PollRow(Shelf(s), snap, word);
      S.Run(s, events) == Some(s.(jobs := r.jobs, songs := r.songs, phase := S.Polling(s.phase.todo[1..]), now := PollEnd(snap, word)))
  {
    var at := s.(now := word.asked);
    var look := S.PollOne(word.configured);
    LookIsAStep(at, word);
    WaitAndStep(s, word.asked, look);
    events := [S.Pass(word.asked - s.now), look];
    var s1 := S.Looking(at, word.configured).value;
    if s1.phase.Calling? {
      var rest := CallIsARun(s1, word);
      RunJoins(s, events, rest);
      events := events + rest;
    }
  }

  /** The words can be had one after the other. */
  predicate CanHearAll(r: Rows, todo: seq<Snap>, words: string -> PollWord, from: int)
    decreases |todo|
  {
    todo == [] ||
    var word := words(todo[0].id);
    CanHear(r.songs, word, from) && CanHearAll(PollRow(r, todo[0], word), todo[1..], words, PollEnd(todo[0], word))
  }

  function PollsEnd(todo: seq<Snap>, words: string -> PollWord, from: int): int
    decreases |todo|
  {
    if todo == [] then from else PollsEnd(todo[1..], words, PollEnd(todo[0], words(todo[0].id)))
  }

  /** A polling pass is a run of the machine. */
  lemma {:induction false} PollActiveIsARun(s: S.Solo, words: string -> PollWord) returns (events: seq<S.Event>)
    requires s.phase.Polling? && CanHearAll(Shelf(s), s.phase.todo, words, s.now)
    ensures var r := PollRows(Shelf(s), s.phase.todo, words);
      S.Run(s, events) == Some(s.(jobs := r.jobs, songs := r.songs, phase := S.Polling([]), now := PollsEnd(s.phase.todo, words, s.now)))
    decreases |s.phase.todo|
  {
    if s.phase.todo == [] {
      events := [];
    } else {
      events := PollOneIsARun(s, words(s.phase.todo[0].id));
      var rest := PollActiveIsARun(S.Run(s, events).value, words);
      RunJoins(s, events, rest);
      events := events + rest;
    }
  }

  // ---------- Submitting ----------

  predicate CanAnswer(word: PostWord, from: int) {
    from <= word.tested <= word.claimed <= word.answered && word.answer != S.Id("")
  }

  function SubmitEnd(jobs: Jobs, snap: Snap, word: PostWord): int {
    if S.Decide(snap.job, word.tested) != S.TryClaim then word.tested
    else if TransitionJob(jobs, snap.id, Queued, Submitting, NOTHING, word.claimed).Err? || !word.configured then word.claimed
    else word.answered
  }

  lemma SendIsAStep(s: S.Solo, configured: bool)
    requires s.phase.Claimed?
    ensures S.Step(s, S.Send(configured)) == S.Sending(s, configured) && S.Sending(s, configured).Some?
  {
  }

  lemma AnswerIsAStep(s: S.Solo, answer: S.SubmitAnswer)
    requires s.phase.Posting? && answer != S.Id("")
    ensures S.Step(s, S.Answer(answer)) == S.Answering(s, answer) && S.Answering(s, answer).Some?
  {
  }

  lemma ClaimIsAStep(s: S.Solo)
    requires s.phase.Due?
    ensures S.Step(s, S.Claim) == S.Claiming(s) && S.Claiming(s).Some?
  {
  }

  lemma SubmitIsAStep(s: S.Solo)
    requires s.phase.Draining? && s.phase.todo != []
    ensures S.Step(s, S.SubmitOne) == S.SubmittingOne(s) && S.SubmittingOne(s).Some?
  {
  }

  /** What a pass does to the machine besides its POST count. */
  ghost predicate Reaches(s: S.Solo, s': S.Solo, jobs: Jobs, phase: S.Phase, now: int) {
    s' == s.(jobs := jobs, phase := phase, now := now, posted := s'.posted)
  }

  /** From the claim on. */
  lemma PostIsARun(s: S.Solo, word: PostWord) returns (events: seq<S.Event>)
    requires s.phase.Claimed? && s.now == word.claimed && CanAnswer(word, word.tested)
    ensures var jobs := if word.configured then S.RecordAnswer(s.jobs, s.phase.snap.id, word.answer, word.answered)
                        else Kept(s.jobs, FailJob(s.jobs, s.phase.snap.id, word.claimed));
      var r := S.Run(s, events);
      r.Some? && Reaches(s, r.value, jobs, S.Draining(s.phase.todo), if word.configured then word.answered else word.claimed)
  {
    SendIsAStep(s, word.configured);
    RunsOne(s, S.Send(word.configured));
    events := [S.Send(word.configured)];
    if word.configured {
      var s1 := S.Sending(s, true).value;
      AnswerIsAStep(s1.(now := word.answered), word.answer);
      WaitAndStep(s1, word.answered, S.Answer(word.answer));
      var rest := [S.Pass(word.answered - s1.now), S.Answer(word.answer)];
      RunJoins(s, events, rest);
      events := events + rest;
    }
  }

  /** The claim and what follows. */
  lemma ClaimIsARun(s: S.Solo, word: PostWord) returns (events: seq<S.Event>)
    requires s.phase.Due? && s.now == word.tested && CanAnswer(word, word.tested)
    ensures var snap := s.phase.snap;
      var r := S.Run(s, events);
      r.Some? && r.value.phase == S.Draining(s.phase.todo) &&
      match TransitionJob(s.jobs, snap.id, Queued, Submitting, NOTHING, word.claimed)
      case Err(_) => Reaches(s, r.value, s.jobs, r.value.phase, word.claimed)
      case Ok(claimed) =>
        var jobs := if word.configured then S.RecordAnswer(claimed, snap.id, word.answer, word.answered)
                    else Kept(claimed, FailJob(claimed, snap.id, word.claimed));
        Reaches(s, r.value, jobs, r.value.phase, if word.configured then word.answered else word.claimed)
  {
    var at := s.(now := word.claimed);
    ClaimIsAStep(at);
    WaitAndStep(s, word.claimed, S.Claim);
    events := [S.Pass(word.claimed - s.now), S.Claim];
    var s1 := S.Claiming(at).value;
    if s1.phase.Claimed? {
      var rest := PostIsARun(s1, word);
      RunJoins(s, events, rest);
      events := events + rest;
    }
  }

  /** Submitting one job is a run: its test, its claim, its POST and its answer. */
  lemma SubmitOneIsARun(s: S.Solo, word: PostWord) returns (events: seq<S.Event>)
    requires s.phase.Draining? && s.phase.todo != [] && CanAnswer(word, s.now)
    ensures var snap := s.phase.todo[0];
      var r := S.Run(s, events);
      r.Some? && Reaches(s, r.value, SubmitRow(s.jobs, snap, word), S.Draining(s.phase.todo[1..]), SubmitEnd(s.jobs, snap, word))
  {
    var at := s.(now := word.tested);
    SubmitIsAStep(at);
    WaitAndStep(s, word.tested, S.SubmitOne);
    events := [S.Pass(word.tested - s.now), S.SubmitOne];
    var s1 := S.SubmittingOne(at).value;
    if s1.phase.Due? {
      var rest := ClaimIsARun(s1, word);
      RunJoins(s, events, rest);
      events := events + rest;
    }
  }

  predicate CanAnswerAll(jobs: Jobs, todo: seq<Snap>, words: string -> PostWord, from: int)
    decreases |todo|
  {
    todo == [] ||
    var word := words(todo[0].id);
    CanAnswer(word, from)
    && CanAnswerAll(SubmitRow(jobs, todo[0], word), todo[1..], words, SubmitEnd(jobs, todo[0], word))
  }

  /** A submitting pass is a run of the machine. */
  lemma {:induction false} SubmitQueuedIsARun(s: S.Solo, words: string -> PostWord) returns (events: seq<S.Event>)
    requires s.phase.Draining? && CanAnswerAll(s.jobs, s.phase.todo, words, s.now)
    ensures var r := S.Run(s, events);
      r.Some? && Reaches(s, r.value, SubmitRows(s.jobs, s.phase.todo, words), S.Draining([]), r.value.now)
    decreases |s.phase.todo|
  {
    if s.phase.todo == [] {
      events := [];
    } else {
      events := SubmitOneIsARun(s, words(s.phase.todo[0].id));
      var s1 := S.Run(s, events).value;
      var rest := SubmitQueuedIsARun(s1, words);
      RunJoins(s, events, rest);
      events := events + rest;
    }
  }

  // ---------- A tick ----------

  lemma BeginIsAStep(s: S.Solo, submitted: seq<Snap>, running: seq<Snap>)
    requires s.phase.Resting? && ActiveScan(s.jobs, submitted, running)
    ensures S.Step(s, S.BeginTick(Ids(submitted), Ids(running))) == Some(s.(phase := S.Polling(submitted + running)))
  {
  }

  lemma ChooseIsAStep(s: S.Solo, submitted: seq<Snap>, running: seq<Snap>, queued: seq<Snap>)
    requires s.phase == S.Polling([]) && Chosen(s.jobs, s.limit, submitted, running, queued)
    ensures S.Step(s, S.BeginSubmit(Ids(submitted), Ids(running), Ids(queued))) == Some(s.(phase := S.Draining(queued)))
  {
    assert |Ids(submitted) + Ids(running)| == |submitted + running|;
  }

  lemma EndIsAStep(s: S.Solo)
    requires s.phase == S.Draining([])
    ensures S.Step(s, S.EndTick) == Some(s.(phase := S.Resting, ticks := s.ticks + 1))
  {
  }

  /**
    A tick of the program, polling and then submitting, is a run of the machine:
    whatever PollActive and SubmitQueued may do to the tables, with answers and
    times that can be had, the machine reaches with one more tick finished.
  */
  lemma TickIsARun(s: S.Solo, words: string -> PollWord, posts: string -> PostWord,
      submitted: seq<Snap>, running: seq<Snap>, submitted': seq<Snap>, running': seq<Snap>, queued: seq<Snap>)
    returns (events: seq<S.Event>)
    requires s.phase.Resting? && ActiveScan(s.jobs, submitted, running)
    requires CanHearAll(Shelf(s), submitted + running, words, s.now)
    requires var r := PollRows(Shelf(s), submitted + running, words);
      && Chosen(r.jobs, s.limit, submitted', running', queued)
      && CanAnswerAll(r.jobs, queued, posts, PollsEnd(submitted + running, words, s.now))
    ensures var r := PollRows(Shelf(s), submitted + running, words);
      && S.Run(s, events).Some?
      && var s' := S.Run(s, events).value;
         && s'.phase.Resting? && s'.ticks == s.ticks + 1
         && s'.jobs == SubmitRows(r.jobs, queued, posts) && s'.songs == r.songs
  {
    var begin := S.BeginTick(Ids(submitted), Ids(running));
    BeginIsAStep(s, submitted, running);
    RunsOne(s, begin);
    var s1 := S.Run(s, [begin]).value;
    var polls := PollActiveIsARun(s1, words);
    RunJoins(s, [begin], polls);
    var s2 := S.Run(s, [begin] + polls).value;
    var choose := S.BeginSubmit(Ids(submitted'), Ids(running'), Ids(queued));
    ChooseIsAStep(s2, submitted', running', queued);
    RunsOne(s2, choose);
    RunJoins(s, [begin] + polls, [choose]);
    var rest := DrainIsARun(S.Run(s2, [choose]).value, posts);
    RunJoins(s, [begin] + polls + [choose], rest);
    events := [begin] + polls + [choose] + rest;
  }

  lemma DrainIsARun(s: S.Solo, posts: string -> PostWord) returns (events: seq<S.Event>)
    requires s.phase.Draining? && CanAnswerAll(s.jobs, s.phase.todo, posts, s.now)
    ensures var r := S.Run(s, events);
      && r.Some? && r.value.phase.Resting? && r.value.ticks == s.ticks + 1
      && r.value.jobs == SubmitRows(s.jobs, s.phase.todo, posts) && r.value.songs == s.songs
  {
    events := SubmitQueuedIsARun(s, posts);
    var s1 := S.Run(s, events).value;
    EndIsAStep(s1);
    RunsOne(s1, S.EndTick);
    RunJoins(s, events, [S.EndTick]);
    events := events + [S.EndTick];
  }

  // ---------- A restart ----------

  /** The rows are as they were read, each read once. */
  ghost predicate AsRead(jobs: Jobs, rows: seq<Snap>) {
    && (forall i :: 0 <= i < |rows| ==> rows[i].id in jobs && jobs[rows[i].id] == rows[i].job)
    && (forall i, j :: 0 <= i < j < |rows| ==> rows[i].id != rows[j].id)
  }

  lemma ScanIsAsRead(jobs: Jobs, state: JobState, limit: nat, rows: seq<Snap>)
    requires IsScan(jobs, state, limit, rows)
    ensures AsRead(jobs, rows) && forall i :: 0 <= i < |rows| ==> rows[i].job.state == state
  {
    var page := Ids(rows);
    assert forall i :: 0 <= i < |rows| ==> rows[i].id == page[i] && rows[i] == Snaps(jobs, page)[i];
    assert forall i, j :: 0 <= i < j < |rows| ==> page[i] != page[j];
  }

  lemma RestIsAsRead(jobs: Jobs, jobs': Jobs, rows: seq<Snap>)
    requires rows != [] && AsRead(jobs, rows) && jobs'.Keys == jobs.Keys
    requires forall id :: id in jobs && id != rows[0].id ==> jobs'[id] == jobs[id]
    ensures AsRead(jobs', rows[1..])
  {
    assert forall i :: 0 <= i < |rows[1..]| ==> rows[1..][i] == rows[i + 1];
  }

  function Recoveries(rows: seq<Snap>): seq<S.Event> {
    seq(|rows|, i requires 0 <= i < |rows| => S.Recover(rows[i].id))
  }

  lemma {:induction false} RecoveryIsARun(s: S.Solo, rows: seq<Snap>)
    requires s.phase.Down? && AsRead(s.jobs, rows)
    ensures S.Run(s, Recoveries(rows)) == Some(s.(jobs := OrphanRows(s.jobs, rows, s.now)))
    decreases |rows|
  {
    if rows != [] {
      var s1 := S.Step(s, S.Recover(rows[0].id)).value;
      RestIsAsRead(s.jobs, s1.jobs, rows);
      RecoveryIsARun(s1, rows[1..]);
      assert Recoveries(rows)[1..] == Recoveries(rows[1..]);
    }
  }

  lemma {:induction false} OrphanRowsIs(jobs: Jobs, rows: seq<Snap>, now: int, id: string)
    requires AsRead(jobs, rows) && (forall i :: 0 <= i < |rows| ==> rows[i].job.state == Submitting) && id in jobs
    ensures OrphanRows(jobs, rows, now).Keys == jobs.Keys
    ensures OrphanRows(jobs, rows, now)[id] ==
      if id in Ids(rows) then jobs[id].(state := Failed, updatedAt := now) else jobs[id]
    decreases |rows|
  {
    if rows != [] {
      var first := Kept(jobs, OrphanSubmission(jobs, rows[0].id, rows[0].job.remoteId, now));
      RestIsAsRead(jobs, first, rows);
      OrphanRowsIs(first, rows[1..], now, id);
      assert Ids(rows)[0] == rows[0].id && Ids(rows)[1..] == Ids(rows[1..]);
      assert rows[0].id !in Ids(rows[1..]) by {
        assert forall i :: 0 <= i < |rows[1..]| ==> Ids(rows[1..])[i] == rows[i + 1].id;
      }
    }
  }

  /**
    After a restart no submission is half way: each is failed, none goes back to the
    queue, and no other row changes. This holds exactly when no more submissions were
    half way than the scan returns.
  */
  lemma RecoveryClearsSubmissions(jobs: Jobs, rows: seq<Snap>, now: int)
    requires IsScan(jobs, Submitting, SCAN_LIMIT, rows)
    ensures var after := OrphanRows(jobs, rows, now);
      && after.Keys == jobs.Keys
      && (forall id :: id in jobs && jobs[id].state != Submitting ==> after[id] == jobs[id])
      && (forall id :: id in jobs && jobs[id].state == Submitting ==> after[id].state == Failed || after[id] == jobs[id])
      && ((forall id :: id in jobs ==> after[id].state != Submitting) <==> |InState(jobs, Submitting)| <= SCAN_LIMIT)
  {
    var after := OrphanRows(jobs, rows, now);
    ScanIsAsRead(jobs, Submitting, SCAN_LIMIT, rows);
    OrphanKeys(jobs, rows, now);
    forall id | id in jobs
      ensures after[id] == if id in Ids(rows) then jobs[id].(state := Failed, updatedAt := now) else jobs[id]
    {
      OrphanRowsIs(jobs, rows, now, id);
    }
    PageMissesSome(jobs, Submitting, SCAN_LIMIT, Ids(rows));
    if |InState(jobs, Submitting)| > SCAN_LIMIT {
      var id :| id in InState(jobs, Submitting) && id !in Ids(rows);
      assert after[id].state == Submitting;
    }
  }

  lemma {:induction false} OrphanKeys(jobs: Jobs, rows: seq<Snap>, now: int)
    ensures OrphanRows(jobs, rows, now).Keys == jobs.Keys
    decreases |rows|
  {
    if rows != [] {
      OrphanKeys(Kept(jobs, OrphanSubmission(jobs, rows[0].id, rows[0].job.remoteId, now)), rows[1..], now);
    }
  }

  // ---------- The active rows of a restart ----------

  lemma {:induction false} FailExpiredIsARun(s: S.Solo, rows: seq<Snap>) returns (events: seq<S.Event>)
    requires s.phase.Down? && AsRead(s.jobs, rows) && forall i :: 0 <= i < |rows| ==> Active(rows[i].job.state)
    ensures S.Run(s, events) == Some(s.(jobs := FailStaleRows(s.jobs, rows, s.now)))
    decreases |rows|
  {
    events := [];
    if rows != [] {
      var s1 := s;
      if Expired(rows[0].job, s.now) {
        events := [S.FailStale(rows[0].id)];
        s1 := S.Step(s, events[0]).value;
        RunsOne(s, events[0]);
      }
      RestIsAsRead(s.jobs, s1.jobs, rows);
      var rest := FailExpiredIsARun(s1, rows[1..]);
      RunJoins(s, events, rest);
      events := events + rest;
    }
  }

  lemma ActiveIsAsRead(jobs: Jobs, submitted: seq<Snap>, running: seq<Snap>)
    requires ActiveScan(jobs, submitted, running)
    ensures AsRead(jobs, submitted + running)
    ensures forall i :: 0 <= i < |submitted + running| ==> Active((submitted + running)[i].job.state)
  {
    ScanIsAsRead(jobs, Submitted, SCAN_LIMIT, submitted);
    ScanIsAsRead(jobs, Running, SCAN_LIMIT, running);
    var rows := submitted + running;
    assert forall i :: 0 <= i < |rows| ==> rows[i] == if i < |submitted| then submitted[i] else running[i - |submitted|];
    forall i, j | 0 <= i < j < |rows|
      ensures rows[i].id != rows[j].id
    {
      if i < |submitted| <= j {
        assert rows[i].job.state != rows[j].job.state;
      }
    }
  }

  lemma {:induction false} StaleAreActive(jobs: Jobs, rows: seq<Snap>, now: int, id: string)
    requires AsRead(jobs, rows) && id in jobs
    ensures FailStaleRows(jobs, rows, now).Keys == jobs.Keys
    ensures var after := FailStaleRows(jobs, rows, now)[id]; after == jobs[id] || after.state == Failed
    decreases |rows|
  {
    if rows != [] {
      var first := if Expired(rows[0].job, now) then Kept(jobs, FailJob(jobs, rows[0].id, now)) else jobs;
      RestIsAsRead(jobs, first, rows);
      StaleAreActive(first, rows[1..], now, id);
    }
  }

  lemma BootIsAStep(s: S.Solo)
    requires s.phase.Down? && forall id :: id in s.jobs ==> s.jobs[id].state != Submitting
    ensures S.Step(s, S.Boot) == Some(s.(phase := S.Resting))
  {
  }

  lemma NoneIsSubmitting(s: S.Solo, rows: seq<Snap>, stale: seq<Snap>, later: int)
    requires IsScan(s.jobs, Submitting, SCAN_LIMIT, rows) && |InState(s.jobs, Submitting)| <= SCAN_LIMIT
    requires AsRead(OrphanRows(s.jobs, rows, s.now), stale)
    ensures var after := FailStaleRows(OrphanRows(s.jobs, rows, s.now), stale, later);
      forall id :: id in after ==> after[id].state != Submitting
  {
    RecoveryClearsSubmissions(s.jobs, rows, s.now);
    var orphaned := OrphanRows(s.jobs, rows, s.now);
    StaleKeys(orphaned, stale, later);
    forall id | id in orphaned
      ensures FailStaleRows(orphaned, stale, later)[id].state != Submitting
    {
      StaleAreActive(orphaned, stale, later, id);
    }
  }

  lemma {:induction false} StaleKeys(jobs: Jobs, rows: seq<Snap>, now: int)
    ensures FailStaleRows(jobs, rows, now).Keys == jobs.Keys
    decreases |rows|
  {
    if rows != [] {
      StaleKeys(if Expired(rows[0].job, now) then Kept(jobs, FailJob(jobs, rows[0].id, now)) else jobs, rows[1..], now);
    }
  }

  lemma RecoverAndWait(s: S.Solo, rows: seq<Snap>, later: int) returns (events: seq<S.Event>)
    requires s.phase.Down? && s.now <= later && AsRead(s.jobs, rows)
    ensures S.Run(s, events) == Some(s.(now := later, jobs := OrphanRows(s.jobs, rows, s.now)))
  {
    RecoveryIsARun(s, rows);
    var s1 := s.(jobs := OrphanRows(s.jobs, rows, s.now));
    RunsOne(s1, S.Pass(later - s.now));
    RunJoins(s, Recoveries(rows), [S.Pass(later - s.now)]);
    events := Recoveries(rows) + [S.Pass(later - s.now)];
  }

  lemma ExpireAndBoot(s: S.Solo, rows: seq<Snap>) returns (events: seq<S.Event>)
    requires s.phase.Down? && AsRead(s.jobs, rows) && forall i :: 0 <= i < |rows| ==> Active(rows[i].job.state)
    requires forall id :: id in FailStaleRows(s.jobs, rows, s.now) ==> FailStaleRows(s.jobs, rows, s.now)[id].state != Submitting
    ensures S.Run(s, events) == Some(s.(phase := S.Resting, jobs := FailStaleRows(s.jobs, rows, s.now)))
  {
    events := FailExpiredIsARun(s, rows);
    var s1 := s.(jobs := FailStaleRows(s.jobs, rows, s.now));
    BootIsAStep(s1);
    RunsOne(s1, S.Boot);
    RunJoins(s, events, [S.Boot]);
    events := events + [S.Boot];
  }

  /** A restart is a run of the machine, from a dead process to one that takes ticks. */
  lemma RestartIsARun(s: S.Solo, rows: seq<Snap>, submitted: seq<Snap>, running: seq<Snap>, later: int)
    returns (events: seq<S.Event>)
    requires s.phase.Down? && s.now <= later
    requires IsScan(s.jobs, Submitting, SCAN_LIMIT, rows) && |InState(s.jobs, Submitting)| <= SCAN_LIMIT
    requires ActiveScan(OrphanRows(s.jobs, rows, s.now), submitted, running)
    ensures S.Run(s, events) == Some(s.(now := later, phase := S.Resting,
      jobs := FailStaleRows(OrphanRows(s.jobs, rows, s.now), submitted + running, later)))
  {
    ScanIsAsRead(s.jobs, Submitting, SCAN_LIMIT, rows);
    var s1 := s.(now := later, jobs := OrphanRows(s.jobs, rows, s.now));
    ActiveIsAsRead(s1.jobs, submitted, running);
    NoneIsSubmitting(s, rows, submitted + running, later);
    events := RecoverAndWait(s, rows, later);
    var rest := ExpireAndBoot(s1, submitted + running);
    RunJoins(s, events, rest);
    events := events + rest;
  }
}
