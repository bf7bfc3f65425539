/**
  Oldest first: while a job waits, the younger jobs that are in flight or chosen
  to go out next leave at least one place under the limit. A younger job is only
  ever chosen together with every job queued before it.
*/
module SoloSlots {
  import opened Prelude
  import opened StoreTables
  import opened Runpod
  import opened Budgets
  import opened StorePages
  import opened SoloWorker
  import opened SoloSafety
  import opened SoloHistory

  /** Not yet at the remote, as far as the row knows. */
  predicate Waiting(job: Job) {
    job.state == Queued || job.state == Submitting
  }

  /** Jobs in flight that were created after the given time. */
  function YoungInFlight(jobs: Jobs, created: int): set<string> {
    set k | k in jobs && Active(jobs[k].state) && jobs[k].createdAt > created
  }

  function Young(todo: seq<Snap>, created: int): (n: nat)
    ensures n <= |todo|
  {
    if todo == [] then 0 else (if todo[0].job.createdAt > created then 1 else 0) + Young(todo[1..], created)
  }

  /** Younger jobs that this tick may still send out, the one in hand among them. */
  function YoungPending(phase: Phase, created: int): nat {
    if phase.Draining? then Young(phase.todo, created)
    else if Submits(phase) then Young(phase.todo, created) + (if phase.snap.job.createdAt > created then 1 else 0)
    else 0
  }

  function YoungOnes(s: Solo, created: int): nat {
    |YoungInFlight(s.jobs, created)| + YoungPending(s.phase, created)
  }

  ghost predicate LeavesAPlace(s: Solo) {
    forall id :: id in s.jobs && Waiting(s.jobs[id]) ==> YoungOnes(s, s.jobs[id].createdAt) < s.limit
  }

  /** Nothing was read before it was created. */
  ghost predicate BornBefore(phase: Phase, now: int) {
    && (forall i :: 0 <= i < |Todo(phase)| ==> Todo(phase)[i].job.createdAt <= now)
    && (Submits(phase) && !phase.Draining? ==> phase.snap.job.createdAt <= now)
  }

  ghost predicate Working(s: Solo) {
    SoloOk(s) && Capped(s) && LeavesAPlace(s) && BornBefore(s.phase, s.now) && 1 <= s.limit <= SCAN_LIMIT
  }

  // ---------- Counting the young ----------

  /** If anything on the list is no younger, not everything is. */
  lemma {:induction false} OneIsNotYoung(todo: seq<Snap>, created: int, i: nat)
    requires i < |todo| && todo[i].job.createdAt <= created
    ensures Young(todo, created) < |todo|
    decreases |todo|
  {
    if i > 0 {
      OneIsNotYoung(todo[1..], created, i - 1);
    }
  }

  lemma {:induction false} SomeIsYoung(todo: seq<Snap>, created: int) returns (i: nat)
    requires Young(todo, created) > 0
    ensures i < |todo| && todo[i].job.createdAt > created
    decreases |todo|
  {
    if todo[0].job.createdAt > created {
      i := 0;
    } else {
      var j := SomeIsYoung(todo[1..], created);
      i := j + 1;
    }
  }

  /** A page that holds a younger job holds the waiting one as well: not all of it is younger. */
  lemma PageLeavesAPlace(jobs: Jobs, limit: nat, page: seq<string>, id: string)
    requires IsPage(jobs, Queued, limit, page) && id in jobs && jobs[id].state == Queued
    ensures Young(Snaps(jobs, page), jobs[id].createdAt) > 0 ==> Young(Snaps(jobs, page), jobs[id].createdAt) < limit
  {
    var todo, created := Snaps(jobs, page), jobs[id].createdAt;
    if Young(todo, created) > 0 {
      var i := SomeIsYoung(todo, created);
      assert jobs[page[i]].createdAt > created;
      assert id in page;
      var h: nat :| h < |page| && page[h] == id;
      assert todo[h].job == jobs[id];
      OneIsNotYoung(todo, created, h);
    }
  }

  lemma YoungAreInFlight(jobs: Jobs, created: int)
    ensures |YoungInFlight(jobs, created)| <= |InFlight(jobs)|
  {
    Fewer(YoungInFlight(jobs, created), InFlight(jobs));
  }

  // ---------- Steps ----------

  /** No job turns young and active, and fewer young are pending. */
  lemma QuietKeepsPlace(s: Solo, s': Solo)
    requires LeavesAPlace(s) && Evolves(s, s') && NoneNew(s.jobs, s'.jobs) && s'.limit == s.limit
    requires s'.jobs.Keys <= s.jobs.Keys
    requires forall created :: YoungPending(s'.phase, created) <= YoungPending(s.phase, created)
    ensures LeavesAPlace(s')
  {
    forall id | id in s'.jobs && Waiting(s'.jobs[id])
      ensures YoungOnes(s', s'.jobs[id].createdAt) < s'.limit
    {
      var created := s.jobs[id].createdAt;
      assert RowMove(s.jobs[id], s'.jobs[id]);
      YoungInFlightShrinks(s, s', created);
    }
  }

  lemma YoungInFlightShrinks(s: Solo, s': Solo, created: int)
    requires Evolves(s, s') && NoneNew(s.jobs, s'.jobs)
    ensures |YoungInFlight(s'.jobs, created)| <= |YoungInFlight(s.jobs, created)|
  {
    forall k | k in YoungInFlight(s'.jobs, created)
      ensures k in YoungInFlight(s.jobs, created)
    {
      assert RowMove(s.jobs[k], s'.jobs[k]);
    }
    Fewer(YoungInFlight(s'.jobs, created), YoungInFlight(s.jobs, created));
  }

  // ---------- Handlers ----------

  /** Nothing there is younger than a job created now. */
  lemma NoneIsYounger(s: Solo)
    requires Working(s)
    ensures YoungOnes(s, s.now) == 0
  {
    forall k | k in s.jobs
      ensures s.jobs[k].createdAt <= s.now
    {
      assert RowOk(s.jobs[k], Posted(s, k), s.now);
    }
    assert YoungInFlight(s.jobs, s.now) == {};
    if Young(Todo(s.phase), s.now) > 0 {
      var i := SomeIsYoung(Todo(s.phase), s.now);
    }
  }

  lemma CreateKeepsPlace(s: Solo, e: Event)
    requires Working(s) && e.Create? && StepOutside(s, e).Some?
    ensures LeavesAPlace(StepOutside(s, e).value)
  {
    var s' := StepOutside(s, e).value;
    NoneIsYounger(s);
    forall id | id in s'.jobs && Waiting(s'.jobs[id])
      ensures YoungOnes(s', s'.jobs[id].createdAt) < s'.limit
    {
      var created := s'.jobs[id].createdAt;
      assert YoungInFlight(s'.jobs, created) == YoungInFlight(s.jobs, created);
    }
  }

  lemma OutsideKeepsPlace(s: Solo, e: Event)
    requires Working(s) && StepOutside(s, e).Some?
    ensures LeavesAPlace(StepOutside(s, e).value)
  {
    if e.Create? {
      CreateKeepsPlace(s, e);
    } else {
      OutsideEvolves(s, e);
      QuietKeepsPlace(s, StepOutside(s, e).value);
    }
  }

  // ---------- Choosing ----------

  /** The room under the limit is what the active jobs leave, and the young do not fill it. */
  lemma ChoosingKeepsPlace(s: Solo, submitted: seq<string>, running: seq<string>, queued: seq<string>)
    requires Working(s) && Choosing(s, submitted, running, queued).Some?
    ensures LeavesAPlace(Choosing(s, submitted, running, queued).value)
  {
    var s' := Choosing(s, submitted, running, queued).value;
    forall id | id in s'.jobs && Waiting(s'.jobs[id])
      ensures YoungOnes(s', s'.jobs[id].createdAt) < s'.limit
    {
      ChosenLeaveAPlace(s, submitted, running, queued, id);
    }
  }

  lemma ChosenLeaveAPlace(s: Solo, submitted: seq<string>, running: seq<string>, queued: seq<string>, id: string)
    requires Working(s) && Choosing(s, submitted, running, queued).Some? && id in s.jobs && Waiting(s.jobs[id])
    ensures YoungOnes(Choosing(s, submitted, running, queued).value, s.jobs[id].createdAt) < s.limit
  {
    var budget, created := s.limit - |submitted + running|, s.jobs[id].createdAt;
    assert YoungOnes(s, created) < s.limit;
    if budget > 0 && Young(Snaps(s.jobs, queued), created) > 0 {
      assert s.jobs[id].state == Queued;
      PageLeavesAPlace(s.jobs, budget, queued, id);
      YoungAreInFlight(s.jobs, created);
      InFlightIsBoth(s.jobs);
      ScanIsExact(s.jobs, submitted, running);
    }
  }

  // ---------- Submitting ----------

  lemma SubmitOneKeepsPlace(s: Solo)
    requires Working(s) && SubmittingOne(s).Some?
    ensures LeavesAPlace(SubmittingOne(s).value)
  {
    var s' := SubmittingOne(s).value;
    SubmitOneEvolves(s);
    forall created
      ensures YoungPending(s'.phase, created) <= YoungPending(s.phase, created)
    {
      assert Young(s.phase.todo, created)
        == (if s.phase.todo[0].job.createdAt > created then 1 else 0) + Young(s.phase.todo[1..], created);
    }
    QuietKeepsPlace(s, s');
  }

  /** The job in hand may become active; it was counted before. */
  lemma AnswerAddsNoYoung(s: Solo, answer: SubmitAnswer, created: int)
    requires Working(s) && Answering(s, answer).Some?
    ensures YoungOnes(Answering(s, answer).value, created) <= YoungOnes(s, created)
  {
    var s', snap := Answering(s, answer).value, s.phase.snap;
    AnswerEvolves(s, answer);
    var a, b := YoungInFlight(s'.jobs, created), YoungInFlight(s.jobs, created);
    forall k | k in a && k != snap.id
      ensures k in b
    {
      assert s'.jobs[k] == s.jobs[k];
    }
    if snap.job.createdAt > created {
      Fewer(a, b + {snap.id});
    } else {
      assert snap.id in s.jobs ==> RowMove(s.jobs[snap.id], s'.jobs[snap.id]);
      Fewer(a, b);
    }
  }

  lemma AnswerKeepsPlace(s: Solo, answer: SubmitAnswer)
    requires Working(s) && Answering(s, answer).Some?
    ensures LeavesAPlace(Answering(s, answer).value)
  {
    var s' := Answering(s, answer).value;
    AnswerEvolves(s, answer);
    forall id | id in s'.jobs && Waiting(s'.jobs[id])
      ensures YoungOnes(s', s'.jobs[id].createdAt) < s'.limit
    {
      assert RowMove(s.jobs[id], s'.jobs[id]);
      AnswerAddsNoYoung(s, answer, s.jobs[id].createdAt);
    }
  }

  lemma ClaimKeepsPlace(s: Solo)
    requires Working(s) && Claiming(s).Some?
    ensures LeavesAPlace(Claiming(s).value)
  {
    ClaimEvolves(s);
    QuietKeepsPlace(s, Claiming(s).value);
  }

  lemma SendKeepsPlace(s: Solo, configured: bool)
    requires Working(s) && Sending(s, configured).Some?
    ensures LeavesAPlace(Sending(s, configured).value)
  {
    SendEvolves(s, configured);
    QuietKeepsPlace(s, Sending(s, configured).value);
  }

  lemma SubmitKeepsPlace(s: Solo, e: Event)
    requires Working(s) && StepSubmit(s, e).Some?
    ensures LeavesAPlace(StepSubmit(s, e).value)
  {
    match e {
      case BeginSubmit(submitted, running, queued) => ChoosingKeepsPlace(s, submitted, running, queued);
      case SubmitOne => SubmitOneKeepsPlace(s);
      case Claim => ClaimKeepsPlace(s);
      case Send(configured) => SendKeepsPlace(s, configured);
      case Answer(answer) => AnswerKeepsPlace(s, answer);
      case EndTick => QuietKeepsPlace(s, StepSubmit(s, e).value);
    }
  }

  // ---------- Births ----------

  lemma PageIsBorn(s: Solo, page: seq<string>)
    requires SoloOk(s) && forall i :: 0 <= i < |page| ==> page[i] in s.jobs
    ensures forall i :: 0 <= i < |page| ==> Snaps(s.jobs, page)[i].job.createdAt <= s.now
  {
    assert forall id :: id in s.jobs ==> RowOk(s.jobs[id], Posted(s, id), s.now);
  }

  lemma BeginIsBorn(s: Solo, submitted: seq<string>, running: seq<string>)
    requires SoloOk(s) && Beginning(s, submitted, running).Some?
    ensures BornBefore(Beginning(s, submitted, running).value.phase, s.now)
  {
    PageIsBorn(s, submitted);
    PageIsBorn(s, running);
    var a, b := Snaps(s.jobs, submitted), Snaps(s.jobs, running);
    assert forall i :: 0 <= i < |a + b| ==> (a + b)[i] == if i < |a| then a[i] else b[i - |a|];
  }

  lemma TailIsBorn(todo: seq<Snap>, now: int)
    requires todo != [] && forall i :: 0 <= i < |todo| ==> todo[i].job.createdAt <= now
    ensures forall i :: 0 <= i < |todo[1..]| ==> todo[1..][i].job.createdAt <= now
    ensures todo[0].job.createdAt <= now
  {
    assert forall i :: 0 <= i < |todo[1..]| ==> todo[1..][i] == todo[i + 1];
  }

  lemma LookIsBorn(s: Solo, configured: bool)
    requires BornBefore(s.phase, s.now) && Looking(s, configured).Some?
    ensures BornBefore(Looking(s, configured).value.phase, s.now) && Looking(s, configured).value.now == s.now
  {
    TailIsBorn(Todo(s.phase), s.now);
  }

  lemma SubmitOneIsBorn(s: Solo)
    requires BornBefore(s.phase, s.now) && SubmittingOne(s).Some?
    ensures BornBefore(SubmittingOne(s).value.phase, s.now) && SubmittingOne(s).value.now == s.now
  {
    TailIsBorn(Todo(s.phase), s.now);
  }

  lemma ChoosingIsBorn(s: Solo, submitted: seq<string>, running: seq<string>, queued: seq<string>)
    requires SoloOk(s) && Choosing(s, submitted, running, queued).Some?
    ensures BornBefore(Choosing(s, submitted, running, queued).value.phase, s.now)
    ensures Choosing(s, submitted, running, queued).value.now == s.now
  {
    if s.limit - |submitted + running| > 0 {
      PageIsBorn(s, queued);
    }
  }

  lemma WorkIsBorn(s: Solo, e: Event)
    requires Working(s) && StepOutside(s, e).None? && Step(s, e).Some?
    ensures BornBefore(Step(s, e).value.phase, s.now) && Step(s, e).value.now == s.now
  {
    match e {
      case BeginTick(submitted, running) => BeginIsBorn(s, submitted, running);
      case PollOne(configured) => LookIsBorn(s, configured);
      case BeginSubmit(submitted, running, queued) => ChoosingIsBorn(s, submitted, running, queued);
      case SubmitOne => SubmitOneIsBorn(s);
      case _ =>
    }
  }

  // ---------- Every step ----------

  lemma StepKeepsWorking(s: Solo, e: Event)
    requires Working(s) && Step(s, e).Some?
    ensures Working(Step(s, e).value)
  {
    StepKeepsSolo(s, e);
    StepIsCapped(s, e);
    if StepOutside(s, e).Some? {
      OutsideKeepsPlace(s, e);
    } else if StepPoll(s, e).Some? {
      PollEvolves(s, e);
      QuietKeepsPlace(s, StepPoll(s, e).value);
      WorkIsBorn(s, e);
    } else {
      SubmitKeepsPlace(s, e);
      WorkIsBorn(s, e);
    }
  }

  /** In every run, while a job waits, the younger ones leave it a place under the limit. */
  lemma {:induction false} RunKeepsWorking(s: Solo, events: seq<Event>)
    requires Working(s) && Run(s, events).Some?
    ensures Working(Run(s, events).value)
    decreases |events|
  {
    if events != [] {
      StepKeepsWorking(s, events[0]);
      RunKeepsWorking(Step(s, events[0]).value, events[1..]);
    }
  }
}
