/**
  One worker over time: ticks that poll the active jobs and then submit from the
  queue, on snapshots read at the start, while a clock runs, handlers create and
  delete rows between any two steps, and the process may die and restart anywhere.

  A poll is two steps, with its call to the remote between them; a submission is
  four: its budget and backoff are tested, its row is claimed, its POST goes out,
  its answer comes back.
*/
module SoloWorker {
  import opened Prelude
  import opened StoreTables
  import opened Runpod
  import opened Budgets

  datatype Phase =
    | Down
    | Resting
    | Polling(todo: seq<Snap>)
    | Calling(snap: Snap, todo: seq<Snap>, over: bool, since: int)  // asking for its status, or cancelling it
    | Draining(todo: seq<Snap>)
    | Due(snap: Snap, todo: seq<Snap>, since: int)                  // tested, the row not claimed yet
    | Claimed(snap: Snap, todo: seq<Snap>, since: int)              // the row is claimed, nothing is sent
    | Posting(snap: Snap, todo: seq<Snap>, since: int)              // the POST is out

  datatype Solo = Solo(
    limit: nat,                  // how many jobs may be in flight
    jobs: Jobs,
    songs: Songs,
    phase: Phase,
    now: int,
    ticks: nat,                  // ticks finished
    posted: map<string, nat>,    // POSTs sent for each job, ever
    used: set<string>)           // every job id ever handed out

  /** A finished job's output: senseless, turned into a song file, or not to be had for now. */
  datatype Completion = Unreadable | Encoded(songId: string, path: string) | NotStored

  datatype PollAnswer =
    | CallFailed(e: CallError)
    | InQueue
    | InProgress
    | RemoteCompleted(output: Completion)
    | RemoteFailed
    | RemoteCancelled
    | UnknownStatus

  datatype SubmitAnswer = Id(remoteId: string) | Error(e: CallError)

  datatype Event =
    | Pass(dt: nat)
    | Create(id: string, userId: string, engine: string, mode: string)
    | Delete(id: string)
    | Crash
    | Recover(id: string)
    | FailStale(id: string)
    | Boot
    | BeginTick(submitted: seq<string>, running: seq<string>)
    | PollOne(configured: bool)
    | Heard(status: PollAnswer)
    | BeginSubmit(submitted: seq<string>, running: seq<string>, queued: seq<string>)
    | SubmitOne
    | Claim
    | Send(configured: bool)
    | Answer(outcome: SubmitAnswer)
    | EndTick

  function Count(posted: map<string, nat>, id: string): nat {
    if id in posted then posted[id] else 0
  }

  function Posted(s: Solo, id: string): nat {
    Count(s.posted, id)
  }

  // ---------- Polling one job ----------

  datatype Look = Leave | FailNow | CancelIt | Ask

  /** Budget before cadence: an expired job does not wait for its next poll. */
  function LookAt(job: Job, configured: bool, now: int): Look {
    if job.remoteId == "" then Leave
    else if !configured then FailNow
    else if Expired(job, now) then CancelIt
    else if now - job.updatedAt < PollDelay(job, now) then Leave
    else Ask
  }

  /** A transient failure is counted, and fails the job at the cap. */
  function CountFailure(jobs: Jobs, id: string, cap: nat, now: int): Jobs {
    match BumpRetries(jobs, id, now)
    case Err(_) => jobs
    case Ok((bumped, n)) => if n >= cap then Kept(bumped, FailJob(bumped, id, now)) else bumped
  }

  /** The songs after a poll: a finished job's file gets its row, unless the job has one. */
  function SongsAfter(songs: Songs, snap: Snap, answer: PollAnswer): Songs {
    if answer.RemoteCompleted? && answer.output.Encoded? then
      CreateSong(songs, answer.output.songId, Song(snap.id, OrElse(snap.job.userId, LEGACY_USER), answer.output.path))
    else songs
  }

  /** A finished job is marked once it has its song. */
  function ApplyCompletion(jobs: Jobs, songs: Songs, snap: Snap, from: JobState, output: Completion, now: int): Jobs {
    if output.Unreadable? then Kept(jobs, FailJob(jobs, snap.id, now))
    else if HasSong(songs, snap.id) || output.Encoded? then
      Kept(jobs, TransitionJob(jobs, snap.id, from, Succeeded, Assignments(None, Some(0), None), now))
    else CountFailure(jobs, snap.id, MAX_STORE_RETRIES, now)
  }

  /** Every remote status maps to one change of the row. */
  function ApplyStatus(jobs: Jobs, songs: Songs, snap: Snap, answer: PollAnswer, now: int): Jobs {
    var Snap(id, job) := snap;
    var from := if job.state == Running then Running else Submitted;
    match answer
    case CallFailed(e) =>
      if IsPermanent(e) then Kept(jobs, FailJob(jobs, id, now)) else CountFailure(jobs, id, MAX_TRANSIENT, now)
    case InQueue => Kept(jobs, TransitionJob(jobs, id, from, Submitted, Assignments(None, Some(0), None), now))
    case InProgress =>
      var started := if job.startedAt.None? then Some(now) else None;
      Kept(jobs, TransitionJob(jobs, id, from, Running, Assignments(None, Some(0), started), now))
    case RemoteCompleted(output) => ApplyCompletion(jobs, songs, snap, from, output, now)
    case _ => Kept(jobs, FailJob(jobs, id, now))
  }

  // ---------- Submitting one job ----------

  datatype Intent = Skip | GiveUp | TryClaim

  function Decide(job: Job, now: int): Intent {
    if job.remoteId != "" then Skip
    else if Expired(job, now) then GiveUp
    else if now - job.updatedAt < Delay(job.retries) then Skip
    else TryClaim
  }

  /** A refusal goes back to the queue; every other error, and a lost row, ends the submission. */
  function Refuse(jobs: Jobs, id: string, e: CallError, now: int): Jobs {
    if !IsRetryableSubmit(e) then Kept(jobs, OrphanSubmission(jobs, id, "", now))
    else
      match BumpRetries(jobs, id, now)
      case Err(_) => jobs
      case Ok((bumped, _)) =>
        match TransitionJob(bumped, id, Submitting, Queued, NOTHING, now)
        case Ok(after) => after
        case Err(_) => Kept(bumped, OrphanSubmission(bumped, id, "", now))
  }

  function RecordAnswer(jobs: Jobs, id: string, answer: SubmitAnswer, now: int): Jobs {
    match answer
    case Error(e) => Refuse(jobs, id, e, now)
    case Id(remoteId) =>
      match TransitionJob(jobs, id, Submitting, Submitted, Assignments(Some(remoteId), Some(0), None), now)
      case Ok(after) => after
      case Err(_) => Kept(jobs, OrphanSubmission(jobs, id, remoteId, now))
  }

  // ---------- Steps ----------

  ghost predicate Scanned(jobs: Jobs, submitted: seq<string>, running: seq<string>) {
    IsPage(jobs, Submitted, SCAN_LIMIT, submitted) && IsPage(jobs, Running, SCAN_LIMIT, running)
  }

  /** What handlers, time and restarts do. A row goes with its song. */
  ghost function StepOutside(s: Solo, e: Event): Option<Solo> {
    match e
    case Pass(dt) => Some(s.(now := s.now + dt))
    case Create(id, userId, engine, mode) =>
      if id == "" || id in s.used then None
      else Some(s.(jobs := s.jobs[id := NewJob(userId, engine, mode, s.now)], used := s.used + {id}))
    case Delete(id) => Some(s.(jobs := s.jobs - {id}, songs := WithoutSongsOf(s.songs, id)))
    case Crash => Some(s.(phase := Down))
    case Recover(id) =>
      if s.phase != Down || id !in s.jobs then None
      else Some(s.(jobs := Kept(s.jobs, OrphanSubmission(s.jobs, id, s.jobs[id].remoteId, s.now))))
    case FailStale(id) =>
      if s.phase != Down || id !in s.jobs || !Active(s.jobs[id].state) || !Expired(s.jobs[id], s.now) then None
      else Some(s.(jobs := Kept(s.jobs, FailJob(s.jobs, id, s.now))))
    case Boot =>
      if s.phase != Down || exists id :: id in s.jobs && s.jobs[id].state == Submitting then None
      else Some(s.(phase := Resting))
    case _ => None
  }

  ghost function Beginning(s: Solo, submitted: seq<string>, running: seq<string>): Option<Solo> {
    if s.phase == Resting && Scanned(s.jobs, submitted, running) then
      Some(s.(phase := Polling(Snaps(s.jobs, submitted) + Snaps(s.jobs, running))))
    else None
  }

  /** Everything up to the call: a job over its budget is cancelled at the remote before its row fails. */
  ghost function Looking(s: Solo, configured: bool): Option<Solo> {
    if !s.phase.Polling? || s.phase.todo == [] then None
    else
      var snap, rest := s.phase.todo[0], s.phase.todo[1..];
      match LookAt(snap.job, configured, s.now)
      case Leave => Some(s.(phase := Polling(rest)))
      case FailNow => Some(s.(jobs := Kept(s.jobs, FailJob(s.jobs, snap.id, s.now)), phase := Polling(rest)))
      case CancelIt => Some(s.(phase := Calling(snap, rest, true, s.now)))
      case Ask => Some(s.(phase := Calling(snap, rest, false, s.now)))
  }

  /** A status is read within the call's timeout; storing a song may take longer. Song ids are fresh. */
  predicate InTime(s: Solo, answer: PollAnswer)
    requires s.phase.Calling?
  {
    && (answer.InProgress? ==> s.now - s.phase.since <= CALL_TIMEOUT)
    && (answer.RemoteCompleted? && answer.output.Encoded? ==> answer.output.songId !in s.songs)
  }

  /** Everything after the call, at the time it came back. */
  ghost function Hearing(s: Solo, answer: PollAnswer): Option<Solo> {
    if !s.phase.Calling? || !InTime(s, answer) then None
    else
      var Calling(snap, todo, over, _) := s.phase;
      if over then Some(s.(jobs := Kept(s.jobs, FailJob(s.jobs, snap.id, s.now)), phase := Polling(todo)))
      else Some(s.(jobs := ApplyStatus(s.jobs, s.songs, snap, answer, s.now),
                   songs := SongsAfter(s.songs, snap, answer), phase := Polling(todo)))
  }

  ghost function StepPoll(s: Solo, e: Event): Option<Solo> {
    match e
    case BeginTick(submitted, running) => Beginning(s, submitted, running)
    case PollOne(configured) => Looking(s, configured)
    case Heard(answer) => Hearing(s, answer)
    case _ => None
  }

  /** Only the room left under the limit may leave the queue, oldest first. */
  ghost function Choosing(s: Solo, submitted: seq<string>, running: seq<string>, queued: seq<string>): Option<Solo> {
    if s.phase != Polling([]) || !Scanned(s.jobs, submitted, running) then None
    else
      var budget := s.limit - |submitted + running|;
      if budget <= 0 then Some(s.(phase := Draining([])))
      else if IsPage(s.jobs, Queued, budget, queued) then Some(s.(phase := Draining(Snaps(s.jobs, queued))))
      else None
  }

  ghost function SubmittingOne(s: Solo): Option<Solo> {
    if !s.phase.Draining? || s.phase.todo == [] then None
    else
      var snap, rest := s.phase.todo[0], s.phase.todo[1..];
      match Decide(snap.job, s.now)
      case Skip => Some(s.(phase := Draining(rest)))
      case GiveUp => Some(s.(jobs := Kept(s.jobs, FailJob(s.jobs, snap.id, s.now)), phase := Draining(rest)))
      case TryClaim => Some(s.(phase := Due(snap, rest, s.now)))
  }

  ghost function Claiming(s: Solo): Option<Solo> {
    if !s.phase.Due? then None
    else
      var Due(snap, todo, since) := s.phase;
      match TransitionJob(s.jobs, snap.id, Queued, Submitting, NOTHING, s.now)
      case Ok(jobs) => Some(s.(jobs := jobs, phase := Claimed(snap, todo, since)))
      case Err(_) => Some(s.(phase := Draining(todo)))
  }

  ghost function Sending(s: Solo, configured: bool): Option<Solo> {
    if !s.phase.Claimed? then None
    else
      var Claimed(snap, todo, since) := s.phase;
      if configured then
        Some(s.(phase := Posting(snap, todo, since), posted := s.posted[snap.id := Posted(s, snap.id) + 1]))
      else Some(s.(jobs := Kept(s.jobs, FailJob(s.jobs, snap.id, s.now)), phase := Draining(todo)))
  }

  ghost function Answering(s: Solo, answer: SubmitAnswer): Option<Solo> {
    if !s.phase.Posting? || answer == Id("") then None
    else
      var Posting(snap, todo, _) := s.phase;
      Some(s.(jobs := RecordAnswer(s.jobs, snap.id, answer, s.now), phase := Draining(todo)))
  }

  ghost function StepSubmit(s: Solo, e: Event): Option<Solo> {
    match e
    case BeginSubmit(submitted, running, queued) => Choosing(s, submitted, running, queued)
    case SubmitOne => SubmittingOne(s)
    case Claim => Claiming(s)
    case Send(configured) => Sending(s, configured)
    case Answer(answer) => Answering(s, answer)
    case EndTick => if s.phase == Draining([]) then Some(s.(phase := Resting, ticks := s.ticks + 1)) else None
    case _ => None
  }

  ghost function Step(s: Solo, e: Event): Option<Solo> {
    if StepOutside(s, e).Some? then StepOutside(s, e)
    else if StepPoll(s, e).Some? then StepPoll(s, e)
    else StepSubmit(s, e)
  }

  ghost function Run(s: Solo, events: seq<Event>): Option<Solo>
    decreases |events|
  {
    if events == [] then Some(s)
    else
      match Step(s, events[0])
      case Some(s1) => Run(s1, events[1..])
      case None => None
  }

  function Start(limit: nat): Solo {
    Solo(limit, map[], map[], Down, 0, 0, map[], {})
  }
}
