/**
  The job protocol: any number of workers, a remote that accepts, refuses or
  loses what it is sent, crashes at every point, and handlers that create and
  delete rows, all interleaved one atomic step at a time.

  Each worker has a program counter; each POST is a message the remote may
  accept at any time, even after its sender gave up or died. Store calls may
  fail without effect.
*/
module JobProtocol {
  import opened Prelude
  import opened StoreTables
  import opened Runpod

  // ---------- The world ----------

  /** What has become of a POST at the remote. */
  datatype Fate = Open | Taken(remoteId: string) | Declined

  datatype Post = Post(job: string, fate: Fate)

  /** Where a worker is between two atomic steps, with what it remembers. */
  datatype Pc =
    | Idle
    | Claimed(job: string)
    | Posting(job: string, post: nat)
    | Refused(job: string)                    // a refusal was heard, the retry not counted yet
    | Counted(job: string)                    // the retry is counted, the row not requeued yet
    | Accepted(job: string, remoteId: string) // the id was heard, not recorded yet
    | Orphaning(job: string, remoteId: string)
    | Completed(job: string, from: JobState, userId: string) // a poll found the job finished
    | Stored(job: string, from: JobState)                    // its song is stored, the row not marked yet

  datatype World = World(
    t: Tables,
    pcs: map<nat, Pc>,     // the workers that are up
    posts: map<nat, Post>,
    used: set<string>,     // every job id ever handed out
    clock: int)

  datatype Event =
    // handlers
    | Create(id: string, userId: string, engine: string, mode: string)
    | RemoveSong(id: string, a: Access)
    | RemoveUser(id: string)
    | RemoveJob(id: string)
    // workers coming and going
    | Boot(w: nat)
    | Crash(w: nat)
    | Recover(id: string)
    // submission
    | Claim(w: nat, id: string)
    | Unconfigured(w: nat)
    | Send(w: nat, p: nat)
    | HearId(w: nat)
    | HearError(w: nat, e: CallError)
    | Count(w: nat, ok: bool)
    | Requeue(w: nat, ok: bool)
    | Record(w: nat, ok: bool)
    | Orphan(w: nat, ok: bool)
    // the remote
    | Take(p: nat, remoteId: string)
    | Decline(p: nat)
    // polling
    | Progress(id: string, from: JobState, to: JobState, started: Option<int>)
    | Bump(id: string)
    | Fail(id: string)
    | FindCompleted(w: nat, id: string, from: JobState, userId: string)
    | StoreSong(w: nat, songId: string, path: string, ok: bool)
    | MarkSucceeded(w: nat, ok: bool)
    | Pass(dt: nat)

  // ---------- Steps ----------

  function WithJobs(w: World, jobs: Jobs): World {
    w.(t := w.t.(jobs := jobs))
  }

  /** The jobs after a store call, unchanged when it was refused or failed. */
  function AfterCall(jobs: Jobs, ok: bool, r: Result<Jobs, StoreError>): Jobs {
    if ok then Kept(jobs, r) else jobs
  }

  function StepHandler(w: World, e: Event): Option<World> {
    match e
    case Create(id, userId, engine, mode) =>
      if id == "" || id in w.used || id in w.t.jobs then None
      else Some(WithJobs(w, w.t.jobs[id := NewJob(userId, engine, mode, w.clock)]).(used := w.used + {id}))
    case RemoveSong(id, a) =>
      (match DeleteSong(w.t, id, a)
       case Some(t) => Some(w.(t := t))
       case None => None)
    case RemoveUser(id) =>
      (match DeleteUser(w.t, id)
       case Ok(t) => Some(w.(t := t))
       case Err(_) => None)
    case RemoveJob(id) => Some(w.(t := w.t.(jobs := w.t.jobs - {id}, songs := WithoutSongsOf(w.t.songs, id))))
    case _ => None
  }

  function StepWorker(w: World, e: Event): Option<World> {
    match e
    case Boot(k) => if k in w.pcs then None else Some(w.(pcs := w.pcs[k := Idle]))
    case Crash(k) => Some(w.(pcs := w.pcs - {k}))
    case Recover(id) =>
      if id !in w.t.jobs then None
      else Some(WithJobs(w, AfterCall(w.t.jobs, true, OrphanSubmission(w.t.jobs, id, w.t.jobs[id].remoteId, w.clock))))
    case _ => None
  }

  function Claiming(w: World, k: nat, id: string): Option<World> {
    if k !in w.pcs || w.pcs[k] != Idle then None
    else
      match TransitionJob(w.t.jobs, id, Queued, Submitting, NOTHING, w.clock)
      case Ok(jobs) => Some(WithJobs(w, jobs).(pcs := w.pcs[k := Claimed(id)]))
      case Err(_) => None
  }

  /** No endpoint is configured for the job's engine: it fails before anything is sent. */
  function WithoutEndpoint(w: World, k: nat): Option<World> {
    if k !in w.pcs || !w.pcs[k].Claimed? then None
    else Some(WithJobs(w, AfterCall(w.t.jobs, true, FailJob(w.t.jobs, w.pcs[k].job, w.clock))).(pcs := w.pcs[k := Idle]))
  }

  function Sending(w: World, k: nat, p: nat): Option<World> {
    if k !in w.pcs || !w.pcs[k].Claimed? || p in w.posts then None
    else
      var id := w.pcs[k].job;
      Some(w.(posts := w.posts[p := Post(id, Open)], pcs := w.pcs[k := Posting(id, p)]))
  }

  function HearingId(w: World, k: nat): Option<World> {
    if k !in w.pcs || !w.pcs[k].Posting? then None
    else
      var Posting(id, p) := w.pcs[k];
      if p in w.posts && w.posts[p].fate.Taken? then
        Some(w.(pcs := w.pcs[k := Accepted(id, w.posts[p].fate.remoteId)]))
      else None
  }

  function HearingError(w: World, k: nat, e: CallError): Option<World> {
    if k !in w.pcs || !w.pcs[k].Posting? then None
    else
      var Posting(id, p) := w.pcs[k];
      if NothingEnqueued(e) && (p !in w.posts || !w.posts[p].fate.Declined?) then None
      else if IsRetryableSubmit(e) then Some(w.(pcs := w.pcs[k := Refused(id)]))
      else Some(w.(pcs := w.pcs[k := Orphaning(id, "")]))
  }

  function Counting(w: World, k: nat, ok: bool): Option<World> {
    if k !in w.pcs || !w.pcs[k].Refused? then None
    else
      var id := w.pcs[k].job;
      match BumpRetries(w.t.jobs, id, w.clock)
      case Ok((jobs, _)) =>
        if ok then Some(WithJobs(w, jobs).(pcs := w.pcs[k := Counted(id)]))
        else Some(w.(pcs := w.pcs[k := Idle]))
      case Err(_) => Some(w.(pcs := w.pcs[k := Idle]))
  }

  function Requeueing(w: World, k: nat, ok: bool): Option<World> {
    if k !in w.pcs || !w.pcs[k].Counted? then None
    else
      var id := w.pcs[k].job;
      match TransitionJob(w.t.jobs, id, Submitting, Queued, NOTHING, w.clock)
      case Ok(jobs) =>
        if ok then Some(WithJobs(w, jobs).(pcs := w.pcs[k := Idle]))
        else Some(w.(pcs := w.pcs[k := Orphaning(id, "")]))
      case Err(_) => Some(w.(pcs := w.pcs[k := Orphaning(id, "")]))
  }

  function Recording(w: World, k: nat, ok: bool): Option<World> {
    if k !in w.pcs || !w.pcs[k].Accepted? then None
    else
      var Accepted(id, remoteId) := w.pcs[k];
      match TransitionJob(w.t.jobs, id, Submitting, Submitted, Assignments(Some(remoteId), Some(0), None), w.clock)
      case Ok(jobs) =>
        if ok then Some(WithJobs(w, jobs).(pcs := w.pcs[k := Idle]))
        else Some(w.(pcs := w.pcs[k := Orphaning(id, remoteId)]))
      case Err(_) => Some(w.(pcs := w.pcs[k := Orphaning(id, remoteId)]))
  }

  function OrphaningStep(w: World, k: nat, ok: bool): Option<World> {
    if k !in w.pcs || !w.pcs[k].Orphaning? then None
    else
      var Orphaning(id, remoteId) := w.pcs[k];
      Some(WithJobs(w, AfterCall(w.t.jobs, ok, OrphanSubmission(w.t.jobs, id, remoteId, w.clock))).(pcs := w.pcs[k := Idle]))
  }

  function StepSubmit(w: World, e: Event): Option<World> {
    match e
    case Claim(k, id) => Claiming(w, k, id)
    case Unconfigured(k) => WithoutEndpoint(w, k)
    case Send(k, p) => Sending(w, k, p)
    case HearId(k) => HearingId(w, k)
    case HearError(k, err) => HearingError(w, k, err)
    case Count(k, ok) => Counting(w, k, ok)
    case Requeue(k, ok) => Requeueing(w, k, ok)
    case Record(k, ok) => Recording(w, k, ok)
    case Orphan(k, ok) => OrphaningStep(w, k, ok)
    case _ => None
  }

  function StepRemote(w: World, e: Event): Option<World> {
    match e
    case Take(p, remoteId) =>
      if p in w.posts && w.posts[p].fate.Open? && remoteId != "" then
        Some(w.(posts := w.posts[p := w.posts[p].(fate := Taken(remoteId))]))
      else None
    case Decline(p) =>
      if p in w.posts && w.posts[p].fate.Open? then
        Some(w.(posts := w.posts[p := w.posts[p].(fate := Declined)]))
      else None
    case _ => None
  }

  /** A poller works from a row it read earlier: its state may be another by now, its owner is not, and it may be gone. */
  function Finding(w: World, k: nat, id: string, from: JobState, userId: string): Option<World> {
    if k in w.pcs && w.pcs[k] == Idle && Active(from) && id in w.used && (id in w.t.jobs ==> w.t.jobs[id].userId == userId) then
      Some(w.(pcs := w.pcs[k := Completed(id, from, userId)]))
    else None
  }

  /** Storing comes first; a failed store leaves the job for a later poll. */
  function StoringSong(w: World, k: nat, songId: string, path: string, ok: bool): Option<World> {
    if k !in w.pcs || !w.pcs[k].Completed? then None
    else
      var Completed(id, from, userId) := w.pcs[k];
      if HasSong(w.t.songs, id) then Some(w.(pcs := w.pcs[k := Stored(id, from)]))
      else if songId in w.t.songs then None
      else if !ok then Some(w.(pcs := w.pcs[k := Idle]))
      else
        var songs := CreateSong(w.t.songs, songId, Song(id, OrElse(userId, LEGACY_USER), path));
        Some(w.(t := w.t.(songs := songs), pcs := w.pcs[k := Stored(id, from)]))
  }

  function Marking(w: World, k: nat, ok: bool): Option<World> {
    if k !in w.pcs || !w.pcs[k].Stored? then None
    else
      var Stored(id, from) := w.pcs[k];
      Some(WithJobs(w, AfterCall(w.t.jobs, ok, TransitionJob(w.t.jobs, id, from, Succeeded, Assignments(None, Some(0), None), w.clock)))
           .(pcs := w.pcs[k := Idle]))
  }

  function StepPoll(w: World, e: Event): Option<World> {
    match e
    case Progress(id, from, to, started) =>
      if Active(from) && Active(to) then
        Some(WithJobs(w, AfterCall(w.t.jobs, true, TransitionJob(w.t.jobs, id, from, to, Assignments(None, Some(0), started), w.clock))))
      else None
    case Bump(id) =>
      (match BumpRetries(w.t.jobs, id, w.clock)
       case Ok((jobs, _)) => Some(WithJobs(w, jobs))
       case Err(_) => None)
    case Fail(id) => Some(WithJobs(w, AfterCall(w.t.jobs, true, FailJob(w.t.jobs, id, w.clock))))
    case FindCompleted(k, id, from, userId) => Finding(w, k, id, from, userId)
    case StoreSong(k, songId, path, ok) => StoringSong(w, k, songId, path, ok)
    case MarkSucceeded(k, ok) => Marking(w, k, ok)
    case Pass(dt) => Some(w.(clock := w.clock + dt))
    case _ => None
  }

  /** One step of the world: none when the event cannot happen here. */
  function Step(w: World, e: Event): Option<World> {
    match e
    case Create(_, _, _, _) => StepHandler(w, e)
    case RemoveSong(_, _) => StepHandler(w, e)
    case RemoveUser(_) => StepHandler(w, e)
    case RemoveJob(_) => StepHandler(w, e)
    case Boot(_) => StepWorker(w, e)
    case Crash(_) => StepWorker(w, e)
    case Recover(_) => StepWorker(w, e)
    case Take(_, _) => StepRemote(w, e)
    case Decline(_) => StepRemote(w, e)
    case Progress(_, _, _, _) => StepPoll(w, e)
    case Bump(_) => StepPoll(w, e)
    case Fail(_) => StepPoll(w, e)
    case FindCompleted(_, _, _, _) => StepPoll(w, e)
    case StoreSong(_, _, _, _) => StepPoll(w, e)
    case MarkSucceeded(_, _) => StepPoll(w, e)
    case Pass(_) => StepPoll(w, e)
    case _ => StepSubmit(w, e)
  }

  function Run(w: World, events: seq<Event>): Option<World>
    decreases |events|
  {
    if events == [] then Some(w)
    else
      match Step(w, events[0])
      case Some(w1) => Run(w1, events[1..])
      case None => None
  }

  const EMPTY := World(Tables(map[], map[], map[], map[], map[], map[]), map[], map[], {}, 0)
}
