/**
  The rows the job protocol leaves behind, in every interleaving: states move
  only along the closed machine, a remote id is present exactly where the
  machine says, and a succeeded job has one song, with the job's owner.
*/
module JobRecords {
  import opened Prelude
  import opened StoreTables
  import opened Runpod
  import opened JobProtocol

  // ---------- The closed machine ----------

  /** The moves a row may make; a state may also stay as it is. */
  predicate Edge(a: JobState, b: JobState) {
    || a == b
    || (a == Queued && (b == Submitting || b == Failed))
    || (a == Submitting && (b == Queued || b == Submitted || b == Failed))
    || (Active(a) && (Active(b) || b == Succeeded || b == Failed))
  }

  predicate RecordOk(job: Job) {
    && job.state != Cancelled
    && (job.state == Queued || job.state == Submitting ==> job.remoteId == "")
    && (Active(job.state) || job.state == Succeeded ==> job.remoteId != "")
  }

  predicate PcOk(pc: Pc) {
    match pc
    case Accepted(_, remoteId) => remoteId != ""
    case Completed(_, from, _) => Active(from)
    case Stored(_, from) => Active(from)
    case _ => true
  }

  ghost predicate Recorded(w: World) {
    && (forall id :: id in w.t.jobs ==> id in w.used && RecordOk(w.t.jobs[id]))
    && (forall p :: p in w.posts && w.posts[p].fate.Taken? ==> w.posts[p].fate.remoteId != "")
    && (forall k :: k in w.pcs ==> PcOk(w.pcs[k]))
  }

  /** Rows keep who they are and move along edges; a new row has a new id. */
  ghost predicate Moves(w: World, w': World) {
    && w.used <= w'.used
    && forall id :: id in w'.t.jobs ==>
         if id in w.t.jobs then
           SameIdentity(w.t.jobs[id], w'.t.jobs[id]) && Edge(w.t.jobs[id].state, w'.t.jobs[id].state)
         else id !in w.used
  }

  ghost predicate Sound(w: World, w': World) {
    Recorded(w') && Moves(w, w')
  }

  /** A change to the jobs table alone. */
  ghost predicate JobsSound(jobs: Jobs, jobs': Jobs) {
    && jobs'.Keys <= jobs.Keys
    && forall id :: id in jobs' ==>
         RecordOk(jobs'[id]) && SameIdentity(jobs[id], jobs'[id]) && Edge(jobs[id].state, jobs'[id].state)
  }

  lemma ChangeIsSound(w: World, w': World, k: nat)
    requires Recorded(w) && JobsSound(w.t.jobs, w'.t.jobs) && w'.used == w.used && w'.posts == w.posts
    requires forall l :: l in w'.pcs && l != k ==> l in w.pcs && w'.pcs[l] == w.pcs[l]
    requires k in w'.pcs ==> PcOk(w'.pcs[k])
    ensures Sound(w, w')
  {
  }

  lemma TransitionIsSound(jobs: Jobs, id: string, from: JobState, to: JobState, set_: Assignments, now: int)
    requires forall j :: j in jobs ==> RecordOk(jobs[j])
    requires Edge(from, to) && to != Cancelled && set_.remoteId.None? && (to == Succeeded || Active(to) ==> Active(from))
    ensures JobsSound(jobs, AfterCall(jobs, true, TransitionJob(jobs, id, from, to, set_, now)))
  {
  }

  lemma RecordingIsSound(jobs: Jobs, id: string, remoteId: string, now: int)
    requires (forall j :: j in jobs ==> RecordOk(jobs[j])) && remoteId != ""
    ensures JobsSound(jobs, AfterCall(jobs, true, TransitionJob(jobs, id, Submitting, Submitted, Assignments(Some(remoteId), Some(0), None), now)))
  {
  }

  lemma FailingIsSound(jobs: Jobs, id: string, remoteId: string, now: int)
    requires forall j :: j in jobs ==> RecordOk(jobs[j])
    ensures JobsSound(jobs, AfterCall(jobs, true, FailJob(jobs, id, now)))
    ensures JobsSound(jobs, AfterCall(jobs, true, OrphanSubmission(jobs, id, remoteId, now)))
  {
    RowsAreSound(jobs, AfterCall(jobs, true, FailJob(jobs, id, now)), id);
    RowsAreSound(jobs, AfterCall(jobs, true, OrphanSubmission(jobs, id, remoteId, now)), id);
  }

  /** One row changed. */
  lemma RowsAreSound(jobs: Jobs, jobs': Jobs, id: string)
    requires (forall j :: j in jobs ==> RecordOk(jobs[j])) && jobs'.Keys == jobs.Keys
    requires forall j :: j in jobs && j != id ==> jobs'[j] == jobs[j]
    requires id in jobs ==>
      RecordOk(jobs'[id]) && SameIdentity(jobs[id], jobs'[id]) && Edge(jobs[id].state, jobs'[id].state)
    ensures JobsSound(jobs, jobs')
  {
  }

  lemma BumpingIsSound(jobs: Jobs, id: string, now: int)
    requires forall j :: j in jobs ==> RecordOk(jobs[j])
    ensures JobsSound(jobs, jobs)
    ensures match BumpRetries(jobs, id, now)
      case Ok((after, _)) => JobsSound(jobs, after)
      case Err(_) => true
  {
  }

  lemma HandlersAreSound(w: World, e: Event)
    requires Recorded(w) && StepHandler(w, e).Some?
    ensures Sound(w, StepHandler(w, e).value)
  {
  }

  lemma WorkersAreSound(w: World, e: Event)
    requires Recorded(w) && StepWorker(w, e).Some?
    ensures Sound(w, StepWorker(w, e).value)
  {
    match e {
      case Recover(id) =>
        FailingIsSound(w.t.jobs, id, w.t.jobs[id].remoteId, w.clock);
      case _ =>
    }
  }

  lemma ClaimIsSound(w: World, k: nat, id: string)
    requires Recorded(w) && Claiming(w, k, id).Some?
    ensures Sound(w, Claiming(w, k, id).value)
  {
    TransitionIsSound(w.t.jobs, id, Queued, Submitting, NOTHING, w.clock);
    ChangeIsSound(w, Claiming(w, k, id).value, k);
  }

  lemma UnconfiguredIsSound(w: World, k: nat)
    requires Recorded(w) && WithoutEndpoint(w, k).Some?
    ensures Sound(w, WithoutEndpoint(w, k).value)
  {
    FailingIsSound(w.t.jobs, w.pcs[k].job, "", w.clock);
    ChangeIsSound(w, WithoutEndpoint(w, k).value, k);
  }

  lemma CountIsSound(w: World, k: nat, ok: bool)
    requires Recorded(w) && Counting(w, k, ok).Some?
    ensures Sound(w, Counting(w, k, ok).value)
  {
    BumpingIsSound(w.t.jobs, w.pcs[k].job, w.clock);
    ChangeIsSound(w, Counting(w, k, ok).value, k);
  }

  lemma RequeueIsSound(w: World, k: nat, ok: bool)
    requires Recorded(w) && Requeueing(w, k, ok).Some?
    ensures Sound(w, Requeueing(w, k, ok).value)
  {
    BumpingIsSound(w.t.jobs, w.pcs[k].job, w.clock);
    TransitionIsSound(w.t.jobs, w.pcs[k].job, Submitting, Queued, NOTHING, w.clock);
    ChangeIsSound(w, Requeueing(w, k, ok).value, k);
  }

  lemma RecordIsSound(w: World, k: nat, ok: bool)
    requires Recorded(w) && Recording(w, k, ok).Some?
    ensures Sound(w, Recording(w, k, ok).value)
  {
    BumpingIsSound(w.t.jobs, w.pcs[k].job, w.clock);
    assert PcOk(w.pcs[k]);
    RecordingIsSound(w.t.jobs, w.pcs[k].job, w.pcs[k].remoteId, w.clock);
    ChangeIsSound(w, Recording(w, k, ok).value, k);
  }

  lemma OrphanIsSound(w: World, k: nat, ok: bool)
    requires Recorded(w) && OrphaningStep(w, k, ok).Some?
    ensures Sound(w, OrphaningStep(w, k, ok).value)
  {
    BumpingIsSound(w.t.jobs, w.pcs[k].job, w.clock);
    FailingIsSound(w.t.jobs, w.pcs[k].job, w.pcs[k].remoteId, w.clock);
    ChangeIsSound(w, OrphaningStep(w, k, ok).value, k);
  }

  lemma MessageIsSound(w: World, e: Event)
    requires Recorded(w) && (e.Send? || e.HearId? || e.HearError?) && StepSubmit(w, e).Some?
    ensures Sound(w, StepSubmit(w, e).value)
  {
    BumpingIsSound(w.t.jobs, "", w.clock);
  }

  lemma SubmissionsAreSound(w: World, e: Event)
    requires Recorded(w) && StepSubmit(w, e).Some?
    ensures Sound(w, StepSubmit(w, e).value)
  {
    match e {
      case Claim(k, id) => ClaimIsSound(w, k, id);
      case Unconfigured(k) => UnconfiguredIsSound(w, k);
      case Count(k, ok) => CountIsSound(w, k, ok);
      case Requeue(k, ok) => RequeueIsSound(w, k, ok);
      case Record(k, ok) => RecordIsSound(w, k, ok);
      case Orphan(k, ok) => OrphanIsSound(w, k, ok);
      case _ => MessageIsSound(w, e);
    }
  }

  lemma ProgressIsSound(w: World, e: Event)
    requires Recorded(w) && e.Progress? && StepPoll(w, e).Some?
    ensures Sound(w, StepPoll(w, e).value)
  {
    TransitionIsSound(w.t.jobs, e.id, e.from, e.to, Assignments(None, Some(0), e.started), w.clock);
  }

  lemma TouchIsSound(w: World, e: Event)
    requires Recorded(w) && (e.Bump? || e.Fail? || e.Pass?) && StepPoll(w, e).Some?
    ensures Sound(w, StepPoll(w, e).value)
  {
    var id := if e.Pass? then "" else e.id;
    BumpingIsSound(w.t.jobs, id, w.clock);
    FailingIsSound(w.t.jobs, id, "", w.clock);
  }

  lemma SongStepIsSound(w: World, e: Event)
    requires Recorded(w) && (e.FindCompleted? || e.StoreSong?) && StepPoll(w, e).Some?
    ensures Sound(w, StepPoll(w, e).value)
  {
    BumpingIsSound(w.t.jobs, "", w.clock);
    ChangeIsSound(w, StepPoll(w, e).value, e.w);
  }

  lemma MarkIsSound(w: World, k: nat, ok: bool)
    requires Recorded(w) && Marking(w, k, ok).Some?
    ensures Sound(w, Marking(w, k, ok).value)
  {
    BumpingIsSound(w.t.jobs, "", w.clock);
    assert PcOk(w.pcs[k]);
    TransitionIsSound(w.t.jobs, w.pcs[k].job, w.pcs[k].from, Succeeded, Assignments(None, Some(0), None), w.clock);
    ChangeIsSound(w, Marking(w, k, ok).value, k);
  }

  lemma PollsAreSound(w: World, e: Event)
    requires Recorded(w) && StepPoll(w, e).Some?
    ensures Sound(w, StepPoll(w, e).value)
  {
    match e {
      case Progress(_, _, _, _) => ProgressIsSound(w, e);
      case FindCompleted(_, _, _, _) => SongStepIsSound(w, e);
      case StoreSong(_, _, _, _) => SongStepIsSound(w, e);
      case MarkSucceeded(k, ok) => MarkIsSound(w, k, ok);
      case _ => TouchIsSound(w, e);
    }
  }

  /** Every step moves every row along the closed machine, and keeps remote ids where it says. */
  lemma StepIsSound(w: World, e: Event)
    requires Recorded(w) && Step(w, e).Some?
    ensures Sound(w, Step(w, e).value)
  {
    if StepHandler(w, e) == Step(w, e) {
      HandlersAreSound(w, e);
    } else if StepWorker(w, e) == Step(w, e) {
      WorkersAreSound(w, e);
    } else if StepRemote(w, e) == Step(w, e) {
    } else if StepPoll(w, e) == Step(w, e) {
      PollsAreSound(w, e);
    } else {
      SubmissionsAreSound(w, e);
    }
  }

  lemma {:induction false} RunIsRecorded(w: World, events: seq<Event>)
    requires Recorded(w) && Run(w, events).Some?
    ensures Recorded(Run(w, events).value)
    decreases |events|
  {
    if events != [] {
      StepIsSound(w, events[0]);
      RunIsRecorded(Step(w, events[0]).value, events[1..]);
    }
  }

  /** Whatever happened between, a row still there has the same owner, and keeps a terminal state. */
  lemma {:induction false} TerminalIsForever(w: World, events: seq<Event>, id: string)
    requires Recorded(w) && Run(w, events).Some? && id in w.used
    requires id in Run(w, events).value.t.jobs
    ensures id in w.t.jobs
    ensures var now, later := w.t.jobs[id], Run(w, events).value.t.jobs[id];
      SameIdentity(now, later) && (Terminal(now.state) ==> later.state == now.state)
    decreases |events|
  {
    if events != [] {
      StepIsSound(w, events[0]);
      TerminalIsForever(Step(w, events[0]).value, events[1..], id);
    }
  }

  /** In every run: no remote id before it is recorded, one ever after. */
  lemma RemoteIdsAreWhereTheMachineSays(events: seq<Event>, id: string)
    requires Run(EMPTY, events).Some? && id in Run(EMPTY, events).value.t.jobs
    ensures RecordOk(Run(EMPTY, events).value.t.jobs[id])
  {
    RunIsRecorded(EMPTY, events);
  }
}
