/**
  What one worker keeps in every run: its snapshots stay true, a job is POSTed
  at most twenty-five times, started_at is written once, and the jobs in flight
  never exceed the limit.
*/
module SoloSafety {
  import opened Prelude
  import opened StoreTables
  import opened Runpod
  import opened Budgets
  import opened SoloWorker

  // ---------- Rows ----------

  /** What a job refused this many times has waited at least when it is back in the queue. */
  function Since(refusals: nat): int {
    if refusals == 0 then 0 else Waited(refusals - 1)
  }

  /** A start is recorded when the call comes back that began within the queue budget. */
  predicate StartOk(job: Job, now: int) {
    match job.startedAt
    case None => true
    case Some(started) => job.createdAt <= started <= job.createdAt + QUEUE_BUDGET + CALL_TIMEOUT && started <= now
  }

  /** A row's times, its remote id, and, in the queue, its count of refusals. */
  predicate RowOk(job: Job, posted: nat, now: int) {
    && job.createdAt <= job.updatedAt <= now
    && job.state != Cancelled
    && StartOk(job, now)
    && (job.state == Queued || job.state == Submitting ==> job.remoteId == "" && job.startedAt.None?)
    && (Active(job.state) ==> job.remoteId != "")
    && (job.state == Queued ==> posted == job.retries && job.updatedAt >= job.createdAt + Since(job.retries))
  }

  ghost predicate RowsFit(jobs: Jobs, used: set<string>, posted: map<string, nat>, now: int) {
    && jobs.Keys <= used && posted.Keys <= used
    && (forall id :: id in jobs ==> RowOk(jobs[id], Count(posted, id), now))
    && (forall id :: id in posted ==> posted[id] <= MAX_POSTS)
  }

  ghost predicate Rows(s: Solo) {
    RowsFit(s.jobs, s.used, s.posted, s.now)
  }

  // ---------- Snapshots ----------

  /** Snapshots of rows that are still what they were, or gone; each row once. */
  ghost predicate Current(jobs: Jobs, used: set<string>, todo: seq<Snap>) {
    && (forall i :: 0 <= i < |todo| ==> todo[i].id in used)
    && (forall i :: 0 <= i < |todo| && todo[i].id in jobs ==> jobs[todo[i].id] == todo[i].job)
    && (forall i, j :: 0 <= i < j < |todo| ==> todo[i].id != todo[j].id)
  }

  ghost predicate AllIn(todo: seq<Snap>, queued: bool) {
    forall i :: 0 <= i < |todo| ==> if queued then todo[i].job.state == Queued else Active(todo[i].job.state)
  }

  ghost predicate Without(todo: seq<Snap>, id: string) {
    forall i :: 0 <= i < |todo| ==> todo[i].id != id
  }

  /** The job in hand: its row is what was read, or gone, and no snapshot still to come. */
  ghost predicate Held(jobs: Jobs, used: set<string>, snap: Snap, todo: seq<Snap>) {
    && snap.id in used && Without(todo, snap.id)
    && (snap.id in jobs ==> jobs[snap.id] == snap.job)
  }

  /** A call about an active job, asking for its status only within its budget. */
  ghost predicate CallOk(s: Solo, snap: Snap, todo: seq<Snap>, over: bool, since: int) {
    && Held(s.jobs, s.used, snap, todo) && Active(snap.job.state) && since <= s.now
    && (!over ==> !Expired(snap.job, since))
  }

  /** A claimed job: spaced from its last refusal, within its budget, its row as the claim left it. */
  ghost predicate ClaimOk(s: Solo, snap: Snap, todo: seq<Snap>, since: int, sent: bool) {
    && snap.id in s.used && Without(todo, snap.id)
    && snap.job.state == Queued && snap.job.startedAt.None? && snap.job.remoteId == ""
    && Posted(s, snap.id) == snap.job.retries + (if sent then 1 else 0)
    && snap.job.retries < MAX_POSTS
    && snap.job.createdAt + Waited(snap.job.retries) <= since <= s.now
    && since <= snap.job.createdAt + QUEUE_BUDGET
    && (snap.id in s.jobs ==>
         s.jobs[snap.id] == snap.job.(state := Submitting, updatedAt := s.jobs[snap.id].updatedAt))
  }

  /** What is still to be polled, or to be submitted, in this tick. */
  function Todo(phase: Phase): seq<Snap> {
    match phase
    case Polling(todo) => todo
    case Calling(_, todo, _, _) => todo
    case Draining(todo) => todo
    case Due(_, todo, _) => todo
    case Claimed(_, todo, _) => todo
    case Posting(_, todo, _) => todo
    case _ => []
  }

  predicate Submits(phase: Phase) {
    phase.Draining? || phase.Due? || phase.Claimed? || phase.Posting?
  }

  ghost predicate InHandOk(s: Solo) {
    match s.phase
    case Calling(snap, todo, over, since) => CallOk(s, snap, todo, over, since)
    case Due(snap, todo, since) =>
      Held(s.jobs, s.used, snap, todo) && snap.job.state == Queued && Decide(snap.job, since) == TryClaim && since <= s.now
    case Claimed(snap, todo, since) => ClaimOk(s, snap, todo, since, false)
    case Posting(snap, todo, since) => ClaimOk(s, snap, todo, since, true)
    case _ => true
  }

  ghost predicate PhaseOk(s: Solo) {
    Current(s.jobs, s.used, Todo(s.phase)) && AllIn(Todo(s.phase), Submits(s.phase)) && InHandOk(s)
  }

  predicate MaySubmit(phase: Phase, id: string) {
    phase.Down? || ((phase.Claimed? || phase.Posting?) && phase.snap.id == id)
  }

  /** Only the job in hand is being submitted. */
  ghost predicate OneSubmitting(s: Solo) {
    forall id :: id in s.jobs && s.jobs[id].state == Submitting ==> MaySubmit(s.phase, id)
  }

  ghost predicate SoloOk(s: Solo) {
    Rows(s) && PhaseOk(s) && OneSubmitting(s)
  }

  // ---------- Changes to one row ----------

  /** What polling may do to an active row. */
  predicate PollMove(a: Job, b: Job, now: int) {
    && SameIdentity(a, b) && b.remoteId == a.remoteId
    && (Active(b.state) || b.state == Succeeded || b.state == Failed)
    && (b.updatedAt == a.updatedAt || b.updatedAt == now)
    && (b.startedAt == a.startedAt || (a.startedAt.None? && b.startedAt == Some(now) && now <= a.createdAt + QUEUE_BUDGET + CALL_TIMEOUT))
  }

  lemma CountingMoves(jobs: Jobs, id: string, cap: nat, now: int)
    requires id in jobs && Active(jobs[id].state)
    ensures OnlyRow(jobs, CountFailure(jobs, id, cap, now), id)
    ensures PollMove(jobs[id], CountFailure(jobs, id, cap, now)[id], now)
  {
  }

  lemma TransitionMoves(jobs: Jobs, id: string, to: JobState, set_: Assignments, now: int)
    requires id in jobs && Active(jobs[id].state) && (Active(to) || to == Succeeded) && set_.remoteId.None?
    requires set_.startedAt.Some? ==> jobs[id].startedAt.None? && set_.startedAt == Some(now) && now <= jobs[id].createdAt + QUEUE_BUDGET + CALL_TIMEOUT
    ensures var after := Kept(jobs, TransitionJob(jobs, id, jobs[id].state, to, set_, now));
      OnlyRow(jobs, after, id) && PollMove(jobs[id], after[id], now)
  {
  }

  lemma FailingMoves(jobs: Jobs, id: string, now: int)
    requires id in jobs && Active(jobs[id].state)
    ensures var after := Kept(jobs, FailJob(jobs, id, now));
      OnlyRow(jobs, after, id) && PollMove(jobs[id], after[id], now) && after[id].state == Failed
  {
  }

  lemma CompletionMoves(jobs: Jobs, songs: Songs, snap: Snap, output: Completion, now: int)
    requires snap.id in jobs && jobs[snap.id] == snap.job && Active(snap.job.state)
    ensures var after := ApplyCompletion(jobs, songs, snap, snap.job.state, output, now);
      OnlyRow(jobs, after, snap.id) && PollMove(snap.job, after[snap.id], now)
  {
    TransitionMoves(jobs, snap.id, Succeeded, Assignments(None, Some(0), None), now);
    CountingMoves(jobs, snap.id, MAX_STORE_RETRIES, now);
    FailingMoves(jobs, snap.id, now);
  }

  /** A start stamped now is in time. */
  predicate StampsInTime(snap: Snap, answer: PollAnswer, now: int) {
    answer.InProgress? && snap.job.startedAt.None? ==> now <= snap.job.createdAt + QUEUE_BUDGET + CALL_TIMEOUT
  }

  lemma StatusMoves(jobs: Jobs, songs: Songs, snap: Snap, answer: PollAnswer, now: int)
    requires snap.id in jobs && jobs[snap.id] == snap.job && Active(snap.job.state) && StampsInTime(snap, answer, now)
    ensures var after := ApplyStatus(jobs, songs, snap, answer, now);
      OnlyRow(jobs, after, snap.id) && PollMove(snap.job, after[snap.id], now)
  {
    match answer {
      case CallFailed(e) =>
        CountingMoves(jobs, snap.id, MAX_TRANSIENT, now);
        FailingMoves(jobs, snap.id, now);
      case InQueue => TransitionMoves(jobs, snap.id, Submitted, Assignments(None, Some(0), None), now);
      case InProgress =>
        var started := if snap.job.startedAt.None? then Some(now) else None;
        TransitionMoves(jobs, snap.id, Running, Assignments(None, Some(0), started), now);
      case RemoteCompleted(output) => CompletionMoves(jobs, songs, snap, output, now);
      case _ => FailingMoves(jobs, snap.id, now);
    }
  }

  lemma GoneStaysGone(jobs: Jobs, songs: Songs, snap: Snap, answer: PollAnswer, now: int)
    requires snap.id !in jobs
    ensures ApplyStatus(jobs, songs, snap, answer, now) == jobs
  {
  }

  /** How a submission may end: recorded, refused and queued again, or failed. */
  predicate SubmitMove(a: Job, b: Job, now: int) {
    && SameIdentity(a, b) && b.startedAt == a.startedAt && b.updatedAt == now
    && (|| b.state == Failed
        || (b.state == Submitted && b.remoteId != "")
        || (b.state == Queued && b.remoteId == a.remoteId && b.retries == a.retries + 1))
  }

  lemma AnswerMoves(jobs: Jobs, id: string, answer: SubmitAnswer, now: int)
    requires id in jobs && jobs[id].state == Submitting && answer != Id("")
    ensures OnlyRow(jobs, RecordAnswer(jobs, id, answer, now), id)
    ensures SubmitMove(jobs[id], RecordAnswer(jobs, id, answer, now)[id], now)
  {
  }

  lemma AnswerToNothing(jobs: Jobs, id: string, answer: SubmitAnswer, now: int)
    requires id !in jobs
    ensures RecordAnswer(jobs, id, answer, now) == jobs
  {
  }

  /** One row changed, or none: the others still fit. */
  lemma RowChangeKeepsRows(s: Solo, s': Solo, id: string)
    requires Rows(s) && s'.used == s.used && s'.posted == s.posted && s'.now == s.now
    requires OnlyRow(s.jobs, s'.jobs, id) && (id in s'.jobs ==> RowOk(s'.jobs[id], Posted(s, id), s.now))
    ensures Rows(s')
  {
    forall j | j in s'.jobs
      ensures RowOk(s'.jobs[j], Posted(s', j), s'.now)
    {
    }
  }

  lemma RowChangeKeepsCurrent(s: Solo, s': Solo, todo: seq<Snap>, id: string)
    requires Current(s.jobs, s.used, todo) && Without(todo, id) && s'.used == s.used && OnlyRow(s.jobs, s'.jobs, id)
    ensures Current(s'.jobs, s'.used, todo)
  {
  }

  lemma TailIsCurrent(s: Solo, todo: seq<Snap>, queued: bool)
    requires todo != [] && Current(s.jobs, s.used, todo) && AllIn(todo, queued)
    ensures Current(s.jobs, s.used, todo[1..]) && AllIn(todo[1..], queued) && Without(todo[1..], todo[0].id)
  {
  }

  // ---------- Steps ----------

  lemma PassKeepsRow(job: Job, posted: nat, now: int, dt: nat)
    requires RowOk(job, posted, now)
    ensures RowOk(job, posted, now + dt)
  {
  }

  lemma PassKeepsSolo(s: Solo, dt: nat)
    requires SoloOk(s)
    ensures SoloOk(s.(now := s.now + dt))
  {
    forall id | id in s.jobs
      ensures RowOk(s.jobs[id], Posted(s, id), s.now + dt)
    {
      PassKeepsRow(s.jobs[id], Posted(s, id), s.now, dt);
    }
  }

  lemma CreateKeepsSolo(s: Solo, id: string, userId: string, engine: string, mode: string)
    requires SoloOk(s) && id !in s.used
    ensures SoloOk(s.(jobs := s.jobs[id := NewJob(userId, engine, mode, s.now)], used := s.used + {id}))
  {
    var s' := s.(jobs := s.jobs[id := NewJob(userId, engine, mode, s.now)], used := s.used + {id});
    assert Posted(s, id) == 0;
    assert Rows(s') && OneSubmitting(s');
    assert PhaseOk(s') by {
      assert forall j :: j in s.used ==> (j in s'.jobs <==> j in s.jobs) && (j in s.jobs ==> s'.jobs[j] == s.jobs[j]);
    }
  }

  /** Rows deleted, the rest as it was. */
  lemma FewerJobsKeepSolo(s: Solo, s': Solo)
    requires SoloOk(s) && s' == s.(jobs := s'.jobs, songs := s'.songs) && s'.jobs.Keys <= s.jobs.Keys
    requires forall id :: id in s'.jobs ==> s'.jobs[id] == s.jobs[id]
    ensures SoloOk(s')
  {
    assert Rows(s') && OneSubmitting(s');
  }

  lemma DeleteKeepsSolo(s: Solo, id: string)
    requires SoloOk(s)
    ensures SoloOk(StepOutside(s, Delete(id)).value)
  {
    FewerJobsKeepSolo(s, StepOutside(s, Delete(id)).value);
  }

  lemma FailedRowOk(job: Job, posted: nat, now: int, remoteId: string)
    requires RowOk(job, posted, now)
    ensures RowOk(job.(state := Failed, updatedAt := now), posted, now)
    ensures RowOk(job.(state := Failed, remoteId := remoteId, updatedAt := now), posted, now)
  {
  }

  lemma DownKeepsSolo(s: Solo, e: Event)
    requires SoloOk(s) && (e.Crash? || e.Recover? || e.FailStale? || e.Boot?) && StepOutside(s, e).Some?
    ensures SoloOk(StepOutside(s, e).value)
  {
    if e.Recover? || e.FailStale? {
      FailedRowOk(s.jobs[e.id], Posted(s, e.id), s.now, s.jobs[e.id].remoteId);
      RowChangeKeepsRows(s, StepOutside(s, e).value, e.id);
    }
  }

  lemma OutsideKeepsSolo(s: Solo, e: Event)
    requires SoloOk(s) && StepOutside(s, e).Some?
    ensures SoloOk(StepOutside(s, e).value)
  {
    match e {
      case Pass(dt) => PassKeepsSolo(s, dt);
      case Create(id, userId, engine, mode) => CreateKeepsSolo(s, id, userId, engine, mode);
      case Delete(id) => DeleteKeepsSolo(s, id);
      case _ => DownKeepsSolo(s, e);
    }
  }

  lemma PageIsCurrent(s: Solo, state: JobState, limit: nat, page: seq<string>)
    requires Rows(s) && IsPage(s.jobs, state, limit, page)
    ensures Current(s.jobs, s.used, Snaps(s.jobs, page))
    ensures forall i :: 0 <= i < |page| ==> Snaps(s.jobs, page)[i].job.state == state
  {
  }

  lemma BeginTickKeepsSolo(s: Solo, submitted: seq<string>, running: seq<string>)
    requires SoloOk(s) && Beginning(s, submitted, running).Some?
    ensures SoloOk(Beginning(s, submitted, running).value)
  {
    PageIsCurrent(s, Submitted, SCAN_LIMIT, submitted);
    PageIsCurrent(s, Running, SCAN_LIMIT, running);
    var a, b := Snaps(s.jobs, submitted), Snaps(s.jobs, running);
    forall i, j | 0 <= i < |a| && 0 <= j < |b|
      ensures a[i].id != b[j].id
    {
      assert s.jobs[a[i].id].state != s.jobs[b[j].id].state;
    }
    SumIsCurrent(s.jobs, s.used, a, b);
    PhaseKeepsSolo(s, Beginning(s, submitted, running).value);
  }

  lemma SumIsCurrent(jobs: Jobs, used: set<string>, a: seq<Snap>, b: seq<Snap>)
    requires Current(jobs, used, a) && Current(jobs, used, b) && AllIn(a, false) && AllIn(b, false)
    requires forall i, j :: 0 <= i < |a| && 0 <= j < |b| ==> a[i].id != b[j].id
    ensures Current(jobs, used, a + b) && AllIn(a + b, false)
  {
    var todo := a + b;
    assert forall i :: 0 <= i < |todo| ==> todo[i] == if i < |a| then a[i] else b[i - |a|];
  }

  lemma PollMoveRowOk(a: Job, b: Job, posted: nat, now: int)
    requires RowOk(a, posted, now) && Active(a.state) && PollMove(a, b, now)
    ensures RowOk(b, posted, now)
  {
  }

  /** The worker moves on and no table changes. */
  lemma PhaseKeepsSolo(s: Solo, s': Solo)
    requires SoloOk(s) && s' == s.(phase := s'.phase, ticks := s'.ticks) && PhaseOk(s')
    requires forall id :: MaySubmit(s.phase, id) ==> MaySubmit(s'.phase, id)
    ensures SoloOk(s')
  {
  }

  /** The row is failed and nothing is in hand. */
  lemma FailingKeepsSolo(s: Solo, s': Solo, id: string)
    requires Rows(s) && OneSubmitting(s) && Current(s.jobs, s.used, Todo(s'.phase)) && Without(Todo(s'.phase), id)
    requires AllIn(Todo(s'.phase), Submits(s'.phase)) && (s'.phase.Polling? || s'.phase.Draining?)
    requires forall j :: MaySubmit(s.phase, j) ==> j == id
    requires s' == s.(jobs := Kept(s.jobs, FailJob(s.jobs, id, s.now)), phase := s'.phase)
    ensures SoloOk(s')
  {
    if id in s.jobs {
      FailedRowOk(s.jobs[id], Posted(s, id), s.now, "");
    }
    RowChangeKeepsRows(s, s', id);
    RowChangeKeepsCurrent(s, s', Todo(s'.phase), id);
  }

  lemma LookKeepsSolo(s: Solo, configured: bool)
    requires SoloOk(s) && Looking(s, configured).Some?
    ensures SoloOk(Looking(s, configured).value)
  {
    var s', snap := Looking(s, configured).value, s.phase.todo[0];
    TailIsCurrent(s, s.phase.todo, false);
    if LookAt(snap.job, configured, s.now) == FailNow {
      FailingKeepsSolo(s, s', snap.id);
    } else {
      PhaseKeepsSolo(s, s');
    }
  }

  lemma StampIsInTime(s: Solo, answer: PollAnswer)
    requires SoloOk(s) && s.phase.Calling? && !s.phase.over && InTime(s, answer)
    ensures StampsInTime(s.phase.snap, answer, s.now)
  {
    assert !Expired(s.phase.snap.job, s.phase.since);
  }

  lemma HeardKeepsSolo(s: Solo, answer: PollAnswer)
    requires SoloOk(s) && Hearing(s, answer).Some?
    ensures SoloOk(Hearing(s, answer).value)
  {
    var s', snap := Hearing(s, answer).value, s.phase.snap;
    if s.phase.over {
      FailingKeepsSolo(s, s', snap.id);
    } else if snap.id in s.jobs {
      StampIsInTime(s, answer);
      StatusMoves(s.jobs, s.songs, snap, answer, s.now);
      PollMoveRowOk(snap.job, s'.jobs[snap.id], Posted(s, snap.id), s.now);
      RowChangeKeepsRows(s, s', snap.id);
      RowChangeKeepsCurrent(s, s', s'.phase.todo, snap.id);
    } else {
      GoneStaysGone(s.jobs, s.songs, snap, answer, s.now);
    }
  }

  lemma ChoosingKeepsSolo(s: Solo, submitted: seq<string>, running: seq<string>, queued: seq<string>)
    requires SoloOk(s) && Choosing(s, submitted, running, queued).Some?
    ensures SoloOk(Choosing(s, submitted, running, queued).value)
  {
    var budget := s.limit - |submitted + running|;
    if budget > 0 {
      PageIsCurrent(s, Queued, budget, queued);
    }
  }

  /** A claim comes late enough after the last refusal and early enough in the budget to be one of twenty-five. */
  lemma ClaimIsSpaced(job: Job, posted: nat, now: int, since: int)
    requires RowOk(job, posted, now) && job.state == Queued && Decide(job, since) == TryClaim
    ensures job.createdAt + Waited(job.retries) <= since <= job.createdAt + QUEUE_BUDGET
    ensures job.retries < MAX_POSTS && posted == job.retries
  {
    WaitsFitTheBudget(job.retries);
  }

  lemma ClaimKeepsSolo(s: Solo)
    requires SoloOk(s) && Claiming(s).Some?
    ensures SoloOk(Claiming(s).value)
  {
    var s', snap := Claiming(s).value, s.phase.snap;
    if s'.phase.Claimed? {
      ClaimIsSpaced(snap.job, Posted(s, snap.id), s.now, s.phase.since);
      RowChangeKeepsRows(s, s', snap.id);
      RowChangeKeepsCurrent(s, s', s'.phase.todo, snap.id);
    }
  }

  lemma SubmitOneKeepsSolo(s: Solo)
    requires SoloOk(s) && SubmittingOne(s).Some?
    ensures SoloOk(SubmittingOne(s).value)
  {
    var s', snap := SubmittingOne(s).value, s.phase.todo[0];
    TailIsCurrent(s, s.phase.todo, true);
    if Decide(snap.job, s.now) == GiveUp {
      FailingKeepsSolo(s, s', snap.id);
    } else {
      PhaseKeepsSolo(s, s');
    }
  }

  lemma SendKeepsSolo(s: Solo, configured: bool)
    requires SoloOk(s) && Sending(s, configured).Some?
    ensures SoloOk(Sending(s, configured).value)
  {
    var s', snap := Sending(s, configured).value, s.phase.snap;
    if configured {
      assert forall id :: id != snap.id ==> Posted(s', id) == Posted(s, id);
      assert forall id :: id in s'.jobs ==> RowOk(s.jobs[id], Posted(s, id), s.now);
      assert snap.id in s.jobs ==> s.jobs[snap.id].state == Submitting;
    } else {
      FailingKeepsSolo(s, s', snap.id);
    }
  }

  lemma SubmitMoveRowOk(snap: Job, a: Job, b: Job, posted: nat, now: int)
    requires RowOk(a, posted, now) && a == snap.(state := Submitting, updatedAt := a.updatedAt)
    requires SubmitMove(a, b, now) && posted == snap.retries + 1 && snap.createdAt + Waited(snap.retries) <= now
    ensures RowOk(b, posted, now)
  {
  }

  lemma AnswerKeepsSolo(s: Solo, answer: SubmitAnswer)
    requires SoloOk(s) && Answering(s, answer).Some?
    ensures SoloOk(Answering(s, answer).value)
  {
    var s' := Answering(s, answer).value;
    var snap := s.phase.snap;
    if snap.id in s.jobs {
      AnswerMoves(s.jobs, snap.id, answer, s.now);
      SubmitMoveRowOk(snap.job, s.jobs[snap.id], s'.jobs[snap.id], Posted(s, snap.id), s.now);
      RowChangeKeepsRows(s, s', snap.id);
      RowChangeKeepsCurrent(s, s', s.phase.todo, snap.id);
    } else {
      AnswerToNothing(s.jobs, snap.id, answer, s.now);
    }
  }

  lemma SubmitKeepsSolo(s: Solo, e: Event)
    requires SoloOk(s) && StepSubmit(s, e).Some?
    ensures SoloOk(StepSubmit(s, e).value)
  {
    match e {
      case BeginSubmit(submitted, running, queued) => ChoosingKeepsSolo(s, submitted, running, queued);
      case SubmitOne => SubmitOneKeepsSolo(s);
      case Claim => ClaimKeepsSolo(s);
      case Send(configured) => SendKeepsSolo(s, configured);
      case Answer(answer) => AnswerKeepsSolo(s, answer);
      case EndTick =>
    }
  }

  lemma StepKeepsSolo(s: Solo, e: Event)
    requires SoloOk(s) && Step(s, e).Some?
    ensures SoloOk(Step(s, e).value)
  {
    if StepOutside(s, e).Some? {
      OutsideKeepsSolo(s, e);
    } else if StepPoll(s, e).Some? {
      match e {
        case BeginTick(submitted, running) => BeginTickKeepsSolo(s, submitted, running);
        case PollOne(configured) => LookKeepsSolo(s, configured);
        case Heard(answer) => HeardKeepsSolo(s, answer);
      }
    } else {
      SubmitKeepsSolo(s, e);
    }
  }

  lemma {:induction false} RunKeepsSolo(s: Solo, events: seq<Event>)
    requires SoloOk(s) && Run(s, events).Some?
    ensures SoloOk(Run(s, events).value)
    decreases |events|
  {
    if events != [] {
      StepKeepsSolo(s, events[0]);
      RunKeepsSolo(Step(s, events[0]).value, events[1..]);
    }
  }

  // ---------- Twenty-five submissions ----------

  /** In every run, across restarts, no job is ever POSTed more than twenty-five times. */
  lemma AtMostTwentyFivePosts(limit: nat, events: seq<Event>, id: string)
    requires Run(Start(limit), events).Some?
    ensures Posted(Run(Start(limit), events).value, id) <= MAX_POSTS
  {
    RunKeepsSolo(Start(limit), events);
  }
}
