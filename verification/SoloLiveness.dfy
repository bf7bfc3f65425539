/**
  Every job ends. Once a job is two queue budgets and a call old, each tick that
  finishes ends it or one of the jobs queued before it, so it outlives at most
  two ticks more than there are such jobs: a bound on any run in which ticks
  keep coming, whatever the remote answers and however often the process dies.
*/
module SoloLiveness {
  import opened Prelude
  import opened StoreTables
  import opened Runpod
  import opened Budgets
  import opened StorePages
  import opened SoloWorker
  import opened SoloSafety
  import opened SoloHistory
  import opened SoloSlots

  /** Jobs still waiting that are no younger than the given time. */
  function Old(jobs: Jobs, created: int): set<string> {
    set k | k in jobs && Waiting(jobs[k]) && jobs[k].createdAt <= created
  }

  predicate OldQueued(jobs: Jobs, id: string, created: int) {
    id in jobs && jobs[id].state == Queued && jobs[id].createdAt <= created
  }

  /** The tick still has an old job to submit. */
  ghost predicate HasOld(s: Solo, created: int) {
    exists i :: 0 <= i < |Todo(s.phase)| && OldQueued(s.jobs, Todo(s.phase)[i].id, created)
  }

  ghost predicate Listed(todo: seq<Snap>, id: string) {
    exists i :: 0 <= i < |todo| && todo[i].id == id
  }

  /** The tick still has this active job to poll, or is cancelling it. */
  ghost predicate Ahead(phase: Phase, id: string) {
    Listed(Todo(phase), id) || (phase.Calling? && phase.over && phase.snap.id == id)
  }

  /** Every old active job is still to be polled in this tick. */
  ghost predicate Covered(jobs: Jobs, phase: Phase, created: int) {
    forall k :: k in jobs && Active(jobs[k].state) && jobs[k].createdAt <= created ==> Ahead(phase, k)
  }

  predicate Polls(phase: Phase) {
    phase.Polling? || phase.Calling?
  }

  /** One more tick may finish without ending an old job. */
  ghost function Owed(s: Solo, created: int): nat {
    if Polls(s.phase) then (if Covered(s.jobs, s.phase, created) then 0 else 1)
    else if Submits(s.phase) then (if HasOld(s, created) then 0 else 1)
    else 0
  }

  /** One more tick may finish before an active job is polled. */
  ghost function Unpolled(s: Solo, id: string): nat {
    if Polls(s.phase) then (if Ahead(s.phase, id) then 0 else 1)
    else if Submits(s.phase) then 1
    else 0
  }

  /** How many more ticks a job may outlive. */
  ghost function TicksLeft(s: Solo, id: string): nat {
    if id !in s.jobs || Terminal(s.jobs[id].state) then 0
    else if Waiting(s.jobs[id]) then |Old(s.jobs, s.jobs[id].createdAt)| + Owed(s, s.jobs[id].createdAt) + 1
    else Unpolled(s, id)
  }

  ghost predicate Unfinished(s: Solo, id: string) {
    id in s.jobs && !Terminal(s.jobs[id].state)
  }

  const DEADLINE: int := 2 * QUEUE_BUDGET + CALL_TIMEOUT

  ghost predicate Overdue(s: Solo, id: string) {
    id in s.jobs && s.now > s.jobs[id].createdAt + DEADLINE
  }

  // ---------- Overdue jobs, and those before them, are out of budget ----------

  lemma OldActiveIsExpired(job: Job, posted: nat, now: int, created: int)
    requires RowOk(job, posted, now) && Active(job.state) && job.createdAt <= created && now > created + DEADLINE
    ensures Expired(job, now)
  {
  }

  lemma OldIsExpired(s: Solo, id: string, k: string)
    requires SoloOk(s) && Overdue(s, id) && OldQueued(s.jobs, k, s.jobs[id].createdAt)
    ensures Decide(s.jobs[k], s.now) == GiveUp
  {
    assert RowOk(s.jobs[k], Posted(s, k), s.now);
  }

  // ---------- Counting old jobs ----------

  lemma OldShrinks(s: Solo, s': Solo, created: int)
    requires Evolves(s, s') && s'.now > created
    ensures Old(s'.jobs, created) <= Old(s.jobs, created)
    ensures |Old(s'.jobs, created)| <= |Old(s.jobs, created)|
  {
    forall k | k in Old(s'.jobs, created)
      ensures k in Old(s.jobs, created)
    {
    }
    Fewer(Old(s'.jobs, created), Old(s.jobs, created));
  }

  lemma OldLosesOne(s: Solo, s': Solo, created: int, k: string)
    requires Evolves(s, s') && s'.now > created && k in Old(s.jobs, created) && k !in Old(s'.jobs, created)
    ensures |Old(s'.jobs, created)| < |Old(s.jobs, created)|
  {
    OldShrinks(s, s', created);
    Fewer(Old(s'.jobs, created), Old(s.jobs, created) - {k});
  }

  /** The ticks left have not grown, and a finished tick has used one up. */
  ghost predicate Counts(s: Solo, s': Solo, created: int) {
    |Old(s'.jobs, created)| + Owed(s', created) + (s'.ticks - s.ticks) <= |Old(s.jobs, created)| + Owed(s, created)
  }

  /** Handlers leave the tick's snapshots as they are, and make no job active. */
  lemma StillOwed(s: Solo, s': Solo, created: int)
    requires s'.phase == s.phase && Evolves(s, s') && NoneNew(s.jobs, s'.jobs)
    requires forall k :: OldQueued(s.jobs, k, created) ==> OldQueued(s'.jobs, k, created)
    ensures Owed(s', created) <= Owed(s, created)
  {
    if HasOld(s, created) {
      var i :| 0 <= i < |Todo(s.phase)| && OldQueued(s.jobs, Todo(s.phase)[i].id, created);
      assert OldQueued(s'.jobs, Todo(s'.phase)[i].id, created);
    }
    if Covered(s.jobs, s.phase, created) {
      StillCovered(s, s', created);
    }
  }

  lemma StillCovered(s: Solo, s': Solo, created: int)
    requires Evolves(s, s') && NoneNew(s.jobs, s'.jobs) && Covered(s.jobs, s.phase, created)
    ensures Covered(s'.jobs, s.phase, created)
  {
    forall k | k in s'.jobs && Active(s'.jobs[k].state) && s'.jobs[k].createdAt <= created
      ensures Ahead(s.phase, k)
    {
      assert RowMove(s.jobs[k], s'.jobs[k]);
    }
  }

  lemma DeleteCounts(s: Solo, id: string, created: int)
    requires SoloOk(s) && s.now > created
    ensures Counts(s, StepOutside(s, Delete(id)).value, created)
  {
    var s' := StepOutside(s, Delete(id)).value;
    OutsideEvolves(s, Delete(id));
    OldShrinks(s, s', created);
    if id in Old(s.jobs, created) {
      OldLosesOne(s, s', created, id);
    }
    if !OldQueued(s.jobs, id, created) {
      StillOwed(s, s', created);
    }
  }

  lemma HandlersCount(s: Solo, e: Event, created: int)
    requires Working(s) && (e.Pass? || e.Create? || e.Delete?) && StepOutside(s, e).Some? && s.now > created
    ensures Counts(s, StepOutside(s, e).value, created)
  {
    var s' := StepOutside(s, e).value;
    if e.Delete? {
      DeleteCounts(s, e.id, created);
    } else {
      OutsideEvolves(s, e);
      OldShrinks(s, s', created);
      StillOwed(s, s', created);
    }
  }

  lemma RestartsCount(s: Solo, e: Event, created: int)
    requires Working(s) && (e.Crash? || e.Recover? || e.FailStale? || e.Boot?) && StepOutside(s, e).Some? && s.now > created
    ensures Counts(s, StepOutside(s, e).value, created)
  {
    OutsideEvolves(s, e);
    OldShrinks(s, StepOutside(s, e).value, created);
  }

  // ---------- A tick begins: every active job is listed ----------

  lemma PageLists(jobs: Jobs, state: JobState, page: seq<string>, id: string)
    requires IsPage(jobs, state, SCAN_LIMIT, page) && |InState(jobs, state)| <= SCAN_LIMIT
    requires id in jobs && jobs[id].state == state
    ensures Listed(Snaps(jobs, page), id)
  {
    PageIsAll(jobs, state, SCAN_LIMIT, page);
    assert id in IdsOf(page);
    var i :| 0 <= i < |page| && page[i] == id;
    assert Snaps(jobs, page)[i].id == id;
  }

  lemma ListedInSum(a: seq<Snap>, b: seq<Snap>, id: string)
    requires Listed(a, id) || Listed(b, id)
    ensures Listed(a + b, id)
  {
    if Listed(a, id) {
      var i :| 0 <= i < |a| && a[i].id == id;
      assert (a + b)[i].id == id;
    } else {
      var i :| 0 <= i < |b| && b[i].id == id;
      assert (a + b)[|a| + i].id == id;
    }
  }

  lemma TickListsActive(s: Solo, submitted: seq<string>, running: seq<string>, id: string)
    requires Working(s) && Scanned(s.jobs, submitted, running) && id in s.jobs && Active(s.jobs[id].state)
    ensures Listed(Snaps(s.jobs, submitted) + Snaps(s.jobs, running), id)
  {
    InFlightIsBoth(s.jobs);
    if s.jobs[id].state == Submitted {
      PageLists(s.jobs, Submitted, submitted, id);
    } else {
      PageLists(s.jobs, Running, running, id);
    }
    ListedInSum(Snaps(s.jobs, submitted), Snaps(s.jobs, running), id);
  }

  lemma BeginCovers(s: Solo, submitted: seq<string>, running: seq<string>, created: int)
    requires Working(s) && Beginning(s, submitted, running).Some?
    ensures Covered(s.jobs, Beginning(s, submitted, running).value.phase, created)
  {
    forall k | k in s.jobs && Active(s.jobs[k].state)
      ensures Ahead(Beginning(s, submitted, running).value.phase, k)
    {
      TickListsActive(s, submitted, running, k);
    }
  }

  // ---------- Polling ----------

  lemma StillListed(todo: seq<Snap>, id: string)
    requires todo != [] && Listed(todo, id) && todo[0].id != id
    ensures Listed(todo[1..], id)
  {
    var i :| 0 <= i < |todo| && todo[i].id == id;
    assert todo[1..][i - 1].id == id;
  }

  /** Looking at an expired active job fails it or starts to cancel it. */
  lemma LookKeepsAhead(s: Solo, configured: bool, k: string)
    requires SoloOk(s) && Looking(s, configured).Some? && Ahead(s.phase, k)
    requires k in s.jobs && Active(s.jobs[k].state) && Expired(s.jobs[k], s.now)
    requires var s' := Looking(s, configured).value; k in s'.jobs && Active(s'.jobs[k].state)
    ensures Ahead(Looking(s, configured).value.phase, k)
  {
    if s.phase.todo[0].id == k {
      assert RowOk(s.jobs[k], Posted(s, k), s.now);
    } else {
      StillListed(s.phase.todo, k);
    }
  }

  /** What is heard ends the job that was being cancelled. */
  lemma HeardKeepsAhead(s: Solo, answer: PollAnswer, k: string)
    requires Hearing(s, answer).Some? && Ahead(s.phase, k)
    requires var s' := Hearing(s, answer).value; k in s'.jobs && Active(s'.jobs[k].state)
    ensures Ahead(Hearing(s, answer).value.phase, k)
  {
  }

  /** With an overdue job there, an old active job is ahead of the tick until the tick has ended it. */
  lemma PollKeepsAhead(s: Solo, e: Event, id: string, k: string)
    requires SoloOk(s) && Overdue(s, id) && StepPoll(s, e).Some? && (e.PollOne? || e.Heard?) && Ahead(s.phase, k)
    requires k in s.jobs && Active(s.jobs[k].state) && s.jobs[k].createdAt <= s.jobs[id].createdAt
    requires var s' := StepPoll(s, e).value; k in s'.jobs && Active(s'.jobs[k].state)
    ensures Ahead(StepPoll(s, e).value.phase, k)
  {
    if e.PollOne? {
      OldActiveIsExpired(s.jobs[k], Posted(s, k), s.now, s.jobs[id].createdAt);
      LookKeepsAhead(s, e.configured, k);
    } else {
      HeardKeepsAhead(s, e.status, k);
    }
  }

  lemma PollKeepsCovered(s: Solo, e: Event, id: string)
    requires SoloOk(s) && Overdue(s, id) && StepPoll(s, e).Some? && (e.PollOne? || e.Heard?)
    requires Covered(s.jobs, s.phase, s.jobs[id].createdAt)
    ensures Covered(StepPoll(s, e).value.jobs, StepPoll(s, e).value.phase, s.jobs[id].createdAt)
  {
    var s' := StepPoll(s, e).value;
    PollEvolves(s, e);
    forall k | k in s'.jobs && Active(s'.jobs[k].state) && s'.jobs[k].createdAt <= s.jobs[id].createdAt
      ensures Ahead(s'.phase, k)
    {
      assert RowMove(s.jobs[k], s'.jobs[k]);
      PollKeepsAhead(s, e, id, k);
    }
  }

  lemma PollsCount(s: Solo, e: Event, id: string)
    requires Working(s) && Overdue(s, id) && StepPoll(s, e).Some?
    ensures Counts(s, StepPoll(s, e).value, s.jobs[id].createdAt)
  {
    PollEvolves(s, e);
    OldShrinks(s, StepPoll(s, e).value, s.jobs[id].createdAt);
    if e.BeginTick? {
      BeginCovers(s, e.submitted, e.running, s.jobs[id].createdAt);
    } else if Covered(s.jobs, s.phase, s.jobs[id].createdAt) {
      PollKeepsCovered(s, e, id);
    }
  }

  // ---------- Submitting ----------

  /** No old job is in flight, so those that are leave a place, and the queue's oldest is old. */
  lemma ChoosingFindsOld(s: Solo, submitted: seq<string>, running: seq<string>, queued: seq<string>, id: string)
    requires Working(s) && id in s.jobs && Waiting(s.jobs[id]) && Covered(s.jobs, Polling([]), s.jobs[id].createdAt)
    requires s.phase == Polling([]) && Choosing(s, submitted, running, queued).Some?
    ensures HasOld(Choosing(s, submitted, running, queued).value, s.jobs[id].createdAt)
  {
    var created, budget := s.jobs[id].createdAt, s.limit - |submitted + running|;
    OnlyYoungAreActive(s.jobs, created);
    InFlightIsBoth(s.jobs);
    ScanIsExact(s.jobs, submitted, running);
    assert YoungOnes(s, created) < s.limit;
    assert MaySubmit(s.phase, id) || s.jobs[id].state == Queued;
    OldestIsOld(s.jobs, budget, queued, id);
    var s' := Choosing(s, submitted, running, queued).value;
    assert Todo(s'.phase)[0].id == queued[0];
  }

  lemma OnlyYoungAreActive(jobs: Jobs, created: int)
    requires Covered(jobs, Polling([]), created)
    ensures InFlight(jobs) == YoungInFlight(jobs, created)
  {
    forall k | k in InFlight(jobs)
      ensures jobs[k].createdAt > created
    {
      assert !Ahead(Polling([]), k);
    }
  }

  lemma OldestIsOld(jobs: Jobs, limit: nat, queued: seq<string>, id: string)
    requires IsPage(jobs, Queued, limit, queued) && limit > 0 && id in jobs && jobs[id].state == Queued
    ensures queued != [] && OldQueued(jobs, queued[0], jobs[id].createdAt)
  {
    if id in queued {
      var i :| 0 <= i < |queued| && queued[i] == id;
    }
  }

  lemma ChoosingCounts(s: Solo, submitted: seq<string>, running: seq<string>, queued: seq<string>, id: string)
    requires Working(s) && id in s.jobs && Waiting(s.jobs[id]) && Choosing(s, submitted, running, queued).Some?
    ensures Counts(s, Choosing(s, submitted, running, queued).value, s.jobs[id].createdAt)
  {
    if Covered(s.jobs, Polling([]), s.jobs[id].createdAt) {
      ChoosingFindsOld(s, submitted, running, queued, id);
    }
  }

  /** An old job that stands elsewhere in the queue is still there. */
  lemma TailHasOld(s: Solo, s': Solo, todo: seq<Snap>, created: int)
    requires todo != [] && Todo(s.phase) == todo && Todo(s'.phase) == todo[1..] && OnlyRow(s.jobs, s'.jobs, todo[0].id)
    requires HasOld(s, created) && !OldQueued(s.jobs, todo[0].id, created) && SoloOk(s)
    ensures HasOld(s', created)
  {
    var i :| 0 <= i < |todo| && OldQueued(s.jobs, todo[i].id, created);
    assert todo[1..][i - 1] == todo[i];
    assert OldQueued(s'.jobs, todo[i].id, created);
  }

  lemma SubmitOneShape(s: Solo)
    requires SoloOk(s) && SubmittingOne(s).Some?
    ensures var s', todo := SubmittingOne(s).value, s.phase.todo;
      && s'.ticks == s.ticks && OnlyRow(s.jobs, s'.jobs, todo[0].id)
      && Submits(s'.phase) && Todo(s'.phase) == todo[1..]
  {
  }

  lemma OldFrontEnds(s: Solo, id: string)
    requires SoloOk(s) && Overdue(s, id) && SubmittingOne(s).Some?
    requires OldQueued(s.jobs, s.phase.todo[0].id, s.jobs[id].createdAt)
    ensures s.phase.todo[0].id !in Old(SubmittingOne(s).value.jobs, s.jobs[id].createdAt)
  {
    OldIsExpired(s, id, s.phase.todo[0].id);
    assert s.jobs[s.phase.todo[0].id] == s.phase.todo[0].job;
  }

  /** The front of the list is taken: it was old and has ended, or the old one stands behind it. */
  lemma FrontCounts(s: Solo, s': Solo, todo: seq<Snap>, created: int)
    requires SoloOk(s) && Evolves(s, s') && s'.now > created && s'.ticks == s.ticks
    requires Submits(s.phase) && Submits(s'.phase)
    requires todo != [] && Todo(s.phase) == todo && Todo(s'.phase) == todo[1..] && OnlyRow(s.jobs, s'.jobs, todo[0].id)
    requires OldQueued(s.jobs, todo[0].id, created) ==> todo[0].id !in Old(s'.jobs, created)
    ensures Counts(s, s', created)
  {
    OldShrinks(s, s', created);
    if OldQueued(s.jobs, todo[0].id, created) {
      OldLosesOne(s, s', created, todo[0].id);
    } else if HasOld(s, created) {
      TailHasOld(s, s', todo, created);
    }
  }

  lemma SubmitOneCounts(s: Solo, id: string)
    requires Working(s) && Overdue(s, id) && SubmittingOne(s).Some?
    ensures Counts(s, SubmittingOne(s).value, s.jobs[id].createdAt)
  {
    SubmitOneEvolves(s);
    SubmitOneShape(s);
    if OldQueued(s.jobs, s.phase.todo[0].id, s.jobs[id].createdAt) {
      OldFrontEnds(s, id);
    }
    FrontCounts(s, SubmittingOne(s).value, s.phase.todo, s.jobs[id].createdAt);
  }

  lemma SameTodoHasOld(s: Solo, s': Solo, id: string, created: int)
    requires Todo(s'.phase) == Todo(s.phase) && Without(Todo(s.phase), id) && OnlyRow(s.jobs, s'.jobs, id)
    requires HasOld(s, created)
    ensures HasOld(s', created)
  {
    var i :| 0 <= i < |Todo(s.phase)| && OldQueued(s.jobs, Todo(s.phase)[i].id, created);
    assert OldQueued(s'.jobs, Todo(s'.phase)[i].id, created);
  }

  /** Only the job in hand changes. */
  lemma InHandCounts(s: Solo, s': Solo, id: string, created: int)
    requires Evolves(s, s') && s'.now > created && s'.ticks == s.ticks && OnlyRow(s.jobs, s'.jobs, id)
    requires Submits(s.phase) && Submits(s'.phase) && Todo(s'.phase) == Todo(s.phase) && Without(Todo(s.phase), id)
    ensures Counts(s, s', created)
  {
    OldShrinks(s, s', created);
    if HasOld(s, created) {
      SameTodoHasOld(s, s', id, created);
    }
  }

  lemma ClaimCounts(s: Solo, created: int)
    requires SoloOk(s) && s.now > created && Claiming(s).Some?
    ensures Counts(s, Claiming(s).value, created)
  {
    ClaimEvolves(s);
    InHandCounts(s, Claiming(s).value, s.phase.snap.id, created);
  }

  lemma SendCounts(s: Solo, configured: bool, created: int)
    requires SoloOk(s) && s.now > created && Sending(s, configured).Some?
    ensures Counts(s, Sending(s, configured).value, created)
  {
    SendEvolves(s, configured);
    InHandCounts(s, Sending(s, configured).value, s.phase.snap.id, created);
  }

  lemma AnswerCounts(s: Solo, answer: SubmitAnswer, created: int)
    requires SoloOk(s) && s.now > created && Answering(s, answer).Some?
    ensures Counts(s, Answering(s, answer).value, created)
  {
    AnswerEvolves(s, answer);
    InHandCounts(s, Answering(s, answer).value, s.phase.snap.id, created);
  }

  lemma SubmitCounts(s: Solo, e: Event, id: string)
    requires Working(s) && Overdue(s, id) && Waiting(s.jobs[id]) && StepSubmit(s, e).Some?
    ensures Counts(s, StepSubmit(s, e).value, s.jobs[id].createdAt)
  {
    match e {
      case BeginSubmit(submitted, running, queued) => ChoosingCounts(s, submitted, running, queued, id);
      case SubmitOne => SubmitOneCounts(s, id);
      case Claim => ClaimCounts(s, s.jobs[id].createdAt);
      case Send(configured) => SendCounts(s, configured, s.jobs[id].createdAt);
      case Answer(answer) => AnswerCounts(s, answer, s.jobs[id].createdAt);
      case EndTick => assert !HasOld(s, s.jobs[id].createdAt);
    }
  }

  lemma StepCounts(s: Solo, e: Event, id: string)
    requires Working(s) && Overdue(s, id) && Waiting(s.jobs[id]) && Step(s, e).Some?
    ensures Counts(s, Step(s, e).value, s.jobs[id].createdAt)
  {
    if StepOutside(s, e).Some? {
      if e.Pass? || e.Create? || e.Delete? {
        HandlersCount(s, e, s.jobs[id].createdAt);
      } else {
        RestartsCount(s, e, s.jobs[id].createdAt);
      }
    } else if StepPoll(s, e).Some? {
      PollsCount(s, e, id);
    } else {
      SubmitCounts(s, e, id);
    }
  }

  // ---------- An active job ----------

  lemma PollsListed(s: Solo, e: Event, id: string)
    requires Working(s) && Overdue(s, id) && Active(s.jobs[id].state) && StepPoll(s, e).Some?
    requires Unfinished(StepPoll(s, e).value, id)
    ensures Unpolled(StepPoll(s, e).value, id) <= Unpolled(s, id)
  {
    PollEvolves(s, e);
    assert RowMove(s.jobs[id], StepPoll(s, e).value.jobs[id]);
    if e.BeginTick? {
      TickListsActive(s, e.submitted, e.running, id);
    } else if Ahead(s.phase, id) {
      PollKeepsAhead(s, e, id, id);
    }
  }

  lemma OutsideKeepsAhead(s: Solo, e: Event, id: string)
    requires StepOutside(s, e).Some?
    ensures Unpolled(StepOutside(s, e).value, id) <= Unpolled(s, id) && StepOutside(s, e).value.ticks == s.ticks
  {
  }

  lemma SubmitsUnpolled(s: Solo, e: Event, id: string)
    requires StepSubmit(s, e).Some?
    ensures Unpolled(StepSubmit(s, e).value, id) + (StepSubmit(s, e).value.ticks - s.ticks) <= Unpolled(s, id)
  {
    if e.BeginSubmit? {
      assert !Ahead(s.phase, id);
    }
  }

  lemma ActiveStep(s: Solo, e: Event, id: string)
    requires Working(s) && Overdue(s, id) && Active(s.jobs[id].state) && Step(s, e).Some?
    requires Unfinished(Step(s, e).value, id)
    ensures Unpolled(Step(s, e).value, id) + (Step(s, e).value.ticks - s.ticks) <= Unpolled(s, id)
  {
    if StepOutside(s, e).Some? {
      OutsideKeepsAhead(s, e, id);
    } else if StepPoll(s, e).Some? {
      PollEvolves(s, e);
      PollsListed(s, e, id);
    } else {
      SubmitsUnpolled(s, e, id);
    }
  }

  // ---------- Every step, every run ----------

  lemma OldIsPositive(s: Solo, id: string)
    requires id in s.jobs && Waiting(s.jobs[id])
    ensures |Old(s.jobs, s.jobs[id].createdAt)| >= 1
  {
    assert id in Old(s.jobs, s.jobs[id].createdAt);
  }

  /** While a job is unfinished, the ticks it may outlive go down with every tick. */
  lemma StepUsesTicks(s: Solo, e: Event, id: string)
    requires Working(s) && Overdue(s, id) && Step(s, e).Some? && Unfinished(Step(s, e).value, id)
    ensures Unfinished(s, id) && TicksLeft(Step(s, e).value, id) + (Step(s, e).value.ticks - s.ticks) <= TicksLeft(s, id)
  {
    var s' := Step(s, e).value;
    StepEvolves(s, e);
    assert id in s.used && RowMove(s.jobs[id], s'.jobs[id]);
    assert RowOk(s.jobs[id], Posted(s, id), s.now);
    if Waiting(s.jobs[id]) {
      OldIsPositive(s, id);
      StepCounts(s, e, id);
    } else {
      ActiveStep(s, e, id);
    }
  }

  lemma {:induction false} RunUsesTicks(s: Solo, events: seq<Event>, id: string)
    requires Working(s) && Run(s, events).Some? && Overdue(s, id) && Unfinished(Run(s, events).value, id)
    ensures TicksLeft(Run(s, events).value, id) + (Run(s, events).value.ticks - s.ticks) <= TicksLeft(s, id)
    decreases |events|
  {
    if events != [] {
      var s1 := Step(s, events[0]).value;
      StepEvolves(s, events[0]);
      StepKeepsWorking(s, events[0]);
      StartedOnce(s1, events[1..], id);
      assert RowMove(s.jobs[id], s1.jobs[id]);
      RunUsesTicks(s1, events[1..], id);
      StepUsesTicks(s, events[0], id);
    }
  }

  /**
    Every job ends. In any run of a worker with a limit between one and a hundred,
    take a moment when a job is more than two queue budgets and a call old: once two more
    ticks have finished than there are waiting jobs as old as it, the job is
    terminal or its row is gone.
  */
  lemma EveryJobEnds(limit: nat, before: seq<Event>, after: seq<Event>, id: string)
    requires 1 <= limit <= 100 && Run(Start(limit), before).Some?
    requires Overdue(Run(Start(limit), before).value, id)
    requires Run(Run(Start(limit), before).value, after).Some?
    requires var s := Run(Start(limit), before).value;
      Run(s, after).value.ticks > s.ticks + |Old(s.jobs, s.jobs[id].createdAt)| + 2
    ensures !Unfinished(Run(Run(Start(limit), before).value, after).value, id)
  {
    RunKeepsWorking(Start(limit), before);
    var s := Run(Start(limit), before).value;
    if Unfinished(Run(s, after).value, id) {
      RunUsesTicks(s, after, id);
    }
  }
}
