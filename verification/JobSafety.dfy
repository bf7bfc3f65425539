/**
  What every interleaving of the job protocol keeps: the remote takes at most
  one generation per job, rows move only along the closed machine, and a
  succeeded job has exactly one song, its owner's.
*/
module JobSafety {
  import opened Prelude
  import opened StoreTables
  import opened Runpod
  import opened JobProtocol

  // ---------- At most one generation ----------

  /** The job whose submission a worker is in the middle of. */
  function Holds(pc: Pc): Option<string> {
    match pc
    case Claimed(id) => Some(id)
    case Posting(id, _) => Some(id)
    case Refused(id) => Some(id)
    case Counted(id) => Some(id)
    case Accepted(id, _) => Some(id)
    case Orphaning(id, _) => Some(id)
    case _ => None
  }

  /** A worker that has sent nothing, or whose POST was definitely declined. */
  predicate Unsent(pc: Pc) {
    pc.Claimed? || pc.Refused? || pc.Counted?
  }

  /** A POST the remote has taken or still may take. */
  ghost predicate Live(posts: map<nat, Post>, p: nat, id: string) {
    p in posts && posts[p].job == id && !posts[p].fate.Declined?
  }

  ghost predicate Free(w: World, id: string) {
    && (forall p :: p in w.posts ==> !Live(w.posts, p, id))
    && (forall k :: k in w.pcs ==> Holds(w.pcs[k]) != Some(id))
  }

  ghost predicate OneLive(posts: map<nat, Post>) {
    forall p, q :: p in posts && q in posts && Live(posts, p, posts[p].job) && Live(posts, q, posts[p].job) ==> p == q
  }

  ghost predicate OneHolder(pcs: map<nat, Pc>) {
    forall k, l :: k in pcs && l in pcs && Holds(pcs[k]).Some? && Holds(pcs[k]) == Holds(pcs[l]) ==> k == l
  }

  ghost predicate QueuedAreFree(w: World) {
    forall id :: id in w.t.jobs && w.t.jobs[id].state == Queued ==> Free(w, id)
  }

  /** What a worker in the middle of a submission knows of its POST. */
  ghost predicate Knows(posts: map<nat, Post>, pc: Pc) {
    && (Unsent(pc) ==> forall p :: p in posts ==> !Live(posts, p, pc.job))
    && (pc.Posting? ==> forall p :: p in posts && Live(posts, p, pc.job) ==> p == pc.post)
  }

  ghost predicate AllKnow(w: World) {
    forall k :: k in w.pcs ==> Knows(w.posts, w.pcs[k])
  }

  ghost predicate AllUsed(w: World) {
    && w.t.jobs.Keys <= w.used
    && (forall p :: p in w.posts ==> w.posts[p].job in w.used)
    && (forall k :: k in w.pcs && Holds(w.pcs[k]).Some? ==> Holds(w.pcs[k]).value in w.used)
  }

  ghost predicate Billing(w: World) {
    OneLive(w.posts) && OneHolder(w.pcs) && QueuedAreFree(w) && AllKnow(w) && AllUsed(w)
  }

  /** Steps that send nothing, requeue nothing and at most let go of a submission. */
  ghost predicate Settles(w: World, w': World) {
    && w'.posts == w.posts && w.used <= w'.used && w'.t.jobs.Keys <= w'.used
    && (forall id :: id in w'.t.jobs && w'.t.jobs[id].state == Queued ==> id in w.t.jobs && w.t.jobs[id].state == Queued)
    && (forall k :: k in w'.pcs ==> Holds(w'.pcs[k]).None? || (k in w.pcs && LetsGo(w.pcs[k], w'.pcs[k])))
  }

  /** A worker stays where it was, or moves on with the same job. */
  ghost predicate LetsGo(pc: Pc, pc': Pc) {
    pc' == pc
    || (Holds(pc') == Holds(pc) && !pc'.Posting? && (Unsent(pc') ==> Unsent(pc)))
  }

  lemma SettlingKeepsBilling(w: World, w': World)
    requires Billing(w) && Settles(w, w')
    ensures Billing(w')
  {
    forall k | k in w'.pcs && Holds(w'.pcs[k]).Some?
      ensures k in w.pcs && Holds(w.pcs[k]) == Holds(w'.pcs[k])
    {
    }
    forall id | id in w'.t.jobs && w'.t.jobs[id].state == Queued
      ensures Free(w', id)
    {
      assert Free(w, id);
    }
    forall k | k in w'.pcs
      ensures Knows(w'.posts, w'.pcs[k])
    {
      if Holds(w'.pcs[k]).Some? {
        assert Knows(w.posts, w.pcs[k]);
      }
    }
  }

  lemma HandlersKeepBilling(w: World, e: Event)
    requires Billing(w) && StepHandler(w, e).Some?
    ensures Billing(StepHandler(w, e).value)
  {
    if e.Create? {
      CreateKeepsBilling(w, e);
    } else {
      SettlingKeepsBilling(w, StepHandler(w, e).value);
    }
  }

  lemma CreateKeepsBilling(w: World, e: Event)
    requires Billing(w) && e.Create? && StepHandler(w, e).Some?
    ensures Billing(StepHandler(w, e).value)
  {
    var w' := StepHandler(w, e).value;
    assert Free(w', e.id);
    assert forall j :: j in w'.t.jobs && w'.t.jobs[j].state == Queued && j != e.id ==> Free(w, j);
  }

  /** Only the jobs table changes, and no row becomes queued. */
  lemma JobsSettle(w: World, w': World)
    requires Billing(w) && w' == WithJobs(w, w'.t.jobs).(clock := w'.clock) && w'.t.jobs.Keys <= w.t.jobs.Keys
    requires forall id :: id in w'.t.jobs && w'.t.jobs[id].state == Queued ==> w.t.jobs[id].state == Queued
    ensures Billing(w')
  {
    SettlingKeepsBilling(w, w');
  }

  /** Only the jobs table and one worker change; the worker lets go or moves on. */
  lemma WorkerSettles(w: World, w': World, k: nat)
    requires Billing(w) && k in w.pcs && k in w'.pcs && w'.posts == w.posts && w'.used == w.used
    requires w'.pcs == w.pcs[k := w'.pcs[k]] && (Holds(w'.pcs[k]).None? || LetsGo(w.pcs[k], w'.pcs[k]))
    requires w'.t.jobs.Keys <= w.t.jobs.Keys
    requires forall id :: id in w'.t.jobs && w'.t.jobs[id].state == Queued ==> w.t.jobs[id].state == Queued
    ensures Billing(w')
  {
    SettlingKeepsBilling(w, w');
  }

  lemma WorkersKeepBilling(w: World, e: Event)
    requires Billing(w) && StepWorker(w, e).Some?
    ensures Billing(StepWorker(w, e).value)
  {
    SettlingKeepsBilling(w, StepWorker(w, e).value);
  }

  lemma FindKeepsBilling(w: World, k: nat, id: string, from: JobState, userId: string)
    requires Billing(w) && Finding(w, k, id, from, userId).Some?
    ensures Billing(Finding(w, k, id, from, userId).value)
  {
    WorkerSettles(w, Finding(w, k, id, from, userId).value, k);
  }

  lemma StoreSongKeepsBilling(w: World, k: nat, songId: string, path: string, ok: bool)
    requires Billing(w) && StoringSong(w, k, songId, path, ok).Some?
    ensures Billing(StoringSong(w, k, songId, path, ok).value)
  {
    WorkerSettles(w, StoringSong(w, k, songId, path, ok).value, k);
  }

  lemma MarkKeepsBilling(w: World, k: nat, ok: bool)
    requires Billing(w) && Marking(w, k, ok).Some?
    ensures Billing(Marking(w, k, ok).value)
  {
    WorkerSettles(w, Marking(w, k, ok).value, k);
  }

  lemma ProgressKeepsBilling(w: World, e: Event)
    requires Billing(w) && e.Progress? && StepPoll(w, e).Some?
    ensures Billing(StepPoll(w, e).value)
  {
    JobsSettle(w, StepPoll(w, e).value);
  }

  lemma TouchKeepsBilling(w: World, e: Event)
    requires Billing(w) && (e.Bump? || e.Fail? || e.Pass?) && StepPoll(w, e).Some?
    ensures Billing(StepPoll(w, e).value)
  {
    JobsSettle(w, StepPoll(w, e).value);
  }

  lemma PollsKeepBilling(w: World, e: Event)
    requires Billing(w) && StepPoll(w, e).Some?
    ensures Billing(StepPoll(w, e).value)
  {
    match e {
      case Progress(_, _, _, _) => ProgressKeepsBilling(w, e);
      case FindCompleted(k, id, from, userId) => FindKeepsBilling(w, k, id, from, userId);
      case StoreSong(k, songId, path, ok) => StoreSongKeepsBilling(w, k, songId, path, ok);
      case MarkSucceeded(k, ok) => MarkKeepsBilling(w, k, ok);
      case _ => TouchKeepsBilling(w, e);
    }
  }

  lemma RemoteKeepsBilling(w: World, e: Event)
    requires Billing(w) && StepRemote(w, e).Some?
    ensures Billing(StepRemote(w, e).value)
  {
    var w' := StepRemote(w, e).value;
    assert forall q, id :: q in w'.posts && Live(w'.posts, q, id) ==> Live(w.posts, q, id);
    assert forall q :: q in w'.posts ==> w'.posts[q].job == w.posts[q].job;
    forall id | id in w'.t.jobs && w'.t.jobs[id].state == Queued
      ensures Free(w', id)
    {
      assert Free(w, id);
    }
    forall k | k in w'.pcs
      ensures Knows(w'.posts, w'.pcs[k])
    {
      assert Knows(w.posts, w.pcs[k]);
    }
  }

  lemma ClaimKeepsBilling(w: World, k: nat, id: string)
    requires Billing(w) && Claiming(w, k, id).Some?
    ensures Billing(Claiming(w, k, id).value)
  {
    var w' := Claiming(w, k, id).value;
    assert Free(w, id);
    forall j | j in w'.t.jobs && w'.t.jobs[j].state == Queued
      ensures Free(w', j)
    {
      assert j != id && Free(w, j);
    }
  }

  lemma SendKeepsBilling(w: World, k: nat, p: nat)
    requires Billing(w) && Sending(w, k, p).Some?
    ensures Billing(Sending(w, k, p).value)
  {
    var w' := Sending(w, k, p).value;
    var id := w.pcs[k].job;
    assert Knows(w.posts, w.pcs[k]);
    assert forall q, j :: q in w'.posts && Live(w'.posts, q, j) ==> (q == p && j == id) || (q != p && Live(w.posts, q, j));
    assert forall q :: q in w.posts ==> w'.posts[q] == w.posts[q];
    forall j | j in w'.t.jobs && w'.t.jobs[j].state == Queued
      ensures Free(w', j)
    {
      assert Free(w, j) && j != id;
    }
    forall l | l in w'.pcs
      ensures Knows(w'.posts, w'.pcs[l])
    {
      if l != k {
        assert Knows(w.posts, w.pcs[l]) && Holds(w.pcs[l]) != Holds(w.pcs[k]);
      }
    }
  }

  /** A declined POST was the job's only live one, so nothing of it is left at the remote. */
  lemma HearErrorKeepsBilling(w: World, k: nat, e: CallError)
    requires Billing(w) && HearingError(w, k, e).Some?
    ensures Billing(HearingError(w, k, e).value)
  {
    var w' := HearingError(w, k, e).value;
    assert Knows(w.posts, w.pcs[k]);
    assert Knows(w'.posts, w'.pcs[k]);
    assert forall l :: l in w'.pcs ==> Holds(w'.pcs[l]) == Holds(w.pcs[l]);
    forall j | j in w'.t.jobs && w'.t.jobs[j].state == Queued
      ensures Free(w', j)
    {
      assert Free(w, j);
    }
    assert forall l :: l in w'.pcs && l != k ==> Knows(w.posts, w.pcs[l]);
  }

  lemma RequeueKeepsBilling(w: World, k: nat, ok: bool)
    requires Billing(w) && Requeueing(w, k, ok).Some?
    ensures Billing(Requeueing(w, k, ok).value)
  {
    var w' := Requeueing(w, k, ok).value;
    var id := w.pcs[k].job;
    if w'.pcs[k] == Idle {
      assert Knows(w.posts, w.pcs[k]);
      forall j | j in w'.t.jobs && w'.t.jobs[j].state == Queued
        ensures Free(w', j)
      {
        if j != id {
          assert Free(w, j);
        }
      }
      assert forall l :: l in w'.pcs && l != k ==> Knows(w.posts, w.pcs[l]);
    } else {
      SettlingKeepsBilling(w, w');
    }
  }

  lemma UnconfiguredKeepsBilling(w: World, k: nat)
    requires Billing(w) && WithoutEndpoint(w, k).Some?
    ensures Billing(WithoutEndpoint(w, k).value)
  {
    WorkerSettles(w, WithoutEndpoint(w, k).value, k);
  }

  lemma HearIdKeepsBilling(w: World, k: nat)
    requires Billing(w) && HearingId(w, k).Some?
    ensures Billing(HearingId(w, k).value)
  {
    WorkerSettles(w, HearingId(w, k).value, k);
  }

  lemma CountKeepsBilling(w: World, k: nat, ok: bool)
    requires Billing(w) && Counting(w, k, ok).Some?
    ensures Billing(Counting(w, k, ok).value)
  {
    WorkerSettles(w, Counting(w, k, ok).value, k);
  }

  lemma RecordKeepsBilling(w: World, k: nat, ok: bool)
    requires Billing(w) && Recording(w, k, ok).Some?
    ensures Billing(Recording(w, k, ok).value)
  {
    WorkerSettles(w, Recording(w, k, ok).value, k);
  }

  lemma OrphanKeepsBilling(w: World, k: nat, ok: bool)
    requires Billing(w) && OrphaningStep(w, k, ok).Some?
    ensures Billing(OrphaningStep(w, k, ok).value)
  {
    WorkerSettles(w, OrphaningStep(w, k, ok).value, k);
  }

  lemma SubmissionsKeepBilling(w: World, e: Event)
    requires Billing(w) && StepSubmit(w, e).Some?
    ensures Billing(StepSubmit(w, e).value)
  {
    match e {
      case Claim(k, id) => ClaimKeepsBilling(w, k, id);
      case Send(k, p) => SendKeepsBilling(w, k, p);
      case HearError(k, err) => HearErrorKeepsBilling(w, k, err);
      case Requeue(k, ok) => RequeueKeepsBilling(w, k, ok);
      case Unconfigured(k) => UnconfiguredKeepsBilling(w, k);
      case HearId(k) => HearIdKeepsBilling(w, k);
      case Count(k, ok) => CountKeepsBilling(w, k, ok);
      case Record(k, ok) => RecordKeepsBilling(w, k, ok);
      case Orphan(k, ok) => OrphanKeepsBilling(w, k, ok);
    }
  }

  lemma StepKeepsBilling(w: World, e: Event)
    requires Billing(w) && Step(w, e).Some?
    ensures Billing(Step(w, e).value)
  {
    if StepHandler(w, e) == Step(w, e) {
      HandlersKeepBilling(w, e);
    } else if StepWorker(w, e) == Step(w, e) {
      WorkersKeepBilling(w, e);
    } else if StepRemote(w, e) == Step(w, e) {
      RemoteKeepsBilling(w, e);
    } else if StepPoll(w, e) == Step(w, e) {
      PollsKeepBilling(w, e);
    } else {
      SubmissionsKeepBilling(w, e);
    }
  }

  lemma {:induction false} RunKeepsBilling(w: World, events: seq<Event>)
    requires Billing(w) && Run(w, events).Some?
    ensures Billing(Run(w, events).value)
    decreases |events|
  {
    if events != [] {
      StepKeepsBilling(w, events[0]);
      RunKeepsBilling(Step(w, events[0]).value, events[1..]);
    }
  }

  /** The generations the remote has taken for a job: what is billed. */
  function Generations(w: World, id: string): set<nat> {
    set p | p in w.posts && w.posts[p].job == id && w.posts[p].fate.Taken?
  }

  lemma AtMostOne(s: set<nat>)
    requires forall p, q :: p in s && q in s ==> p == q
    ensures |s| <= 1
  {
    if s != {} {
      var p :| p in s;
      assert s == {p};
    }
  }

  /**
    In every run, from an empty store, the remote takes at most one generation for
    a job; and while a row is queued it has taken none.
  */
  lemma AtMostOneGeneration(events: seq<Event>, id: string)
    requires Run(EMPTY, events).Some?
    ensures var w := Run(EMPTY, events).value;
      && |Generations(w, id)| <= 1
      && (id in w.t.jobs && w.t.jobs[id].state == Queued ==> Generations(w, id) == {})
  {
    RunKeepsBilling(EMPTY, events);
    var w := Run(EMPTY, events).value;
    forall p, q | p in Generations(w, id) && q in Generations(w, id)
      ensures p == q
    {
      assert Live(w.posts, p, w.posts[p].job) && Live(w.posts, q, w.posts[p].job);
    }
    AtMostOne(Generations(w, id));
    if id in w.t.jobs && w.t.jobs[id].state == Queued {
      assert Free(w, id);
      forall p | p in Generations(w, id)
        ensures false
      {
        assert Live(w.posts, p, id);
      }
    }
  }
}
