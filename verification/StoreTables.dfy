/**
  The tables of the store and what each of its atomic statements does to them.
  A table is a map from primary key to row; a transaction is one step.
  StoreClass proves that the store's methods are these functions; the protocol
  modules prove what sequences of them keep.
*/
module StoreTables {
  import opened Prelude

  // ---------- Rows ----------

  datatype JobState = Queued | Submitting | Submitted | Running | Succeeded | Failed | Cancelled

  datatype Job = Job(
    state: JobState,
    remoteId: string,          // empty until the remote id is known
    userId: string,
    engine: string,
    mode: string,
    retries: nat,
    createdAt: int,
    startedAt: Option<int>,    // the first time a poll saw the job in progress
    updatedAt: int)

  datatype Song = Song(jobId: string, userId: string, audioPath: string)

  datatype User = User(username: string, status: string, role: string)

  datatype Session = Session(userId: string)

  datatype LinkKind = AudioLink | SourceLink

  datatype Link = Link(kind: LinkKind, ref: string, expiresAt: int)

  datatype Upload = Upload(userId: string, createdAt: int)

  datatype Tables = Tables(
    users: map<string, User>,
    sessions: map<string, Session>,
    jobs: map<string, Job>,
    songs: map<string, Song>,
    uploads: map<string, Upload>,
    links: map<string, Link>)

  datatype StoreError =
    | NoRows
    | TransitionRejected
    | LastAdmin
    | UsernameTaken
    | UnknownStatus
    | DuplicateKey

  datatype Access = Access(userId: string, admin: bool)

  const LEGACY_USER := "legacy"
  const MINIMAX := "minimax"
  const YUE2 := "yue2"
  const CREATE := "create"
  const COVER := "cover"
  const PENDING := "pending"
  const APPROVED := "approved"
  const DISABLED := "disabled"
  const ROLE_USER := "user"
  const ROLE_ADMIN := "admin"
  const UPLOAD_DIR := "/data/sources/"

  function OrElse(v: string, default: string): string {
    if v == "" then default else v
  }

  predicate OwnedBy(a: Access, userId: string) {
    userId == a.userId || a.admin
  }

  predicate Terminal(s: JobState) {
    s == Succeeded || s == Failed || s == Cancelled
  }

  predicate Active(s: JobState) {
    s == Submitted || s == Running
  }

  // ---------- Jobs ----------

  type Jobs = map<string, Job>

  function NewJob(userId: string, engine: string, mode: string, createdAt: int): Job {
    Job(Queued, "", OrElse(userId, LEGACY_USER), OrElse(engine, MINIMAX), OrElse(mode, CREATE), 0, createdAt, None, createdAt)
  }

  function CreateJob(jobs: Jobs, id: string, job: Job): Result<Jobs, StoreError> {
    if id in jobs then Err(DuplicateKey) else Ok(jobs[id := job])
  }

  /** What a store call leaves behind: nothing new when it was refused. */
  function Kept(jobs: Jobs, r: Result<Jobs, StoreError>): Jobs {
    match r
    case Ok(after) => after
    case Err(_) => jobs
  }

  /** What no update of a row ever writes. */
  predicate SameIdentity(a: Job, b: Job) {
    a.userId == b.userId && a.engine == b.engine && a.mode == b.mode && a.createdAt == b.createdAt
  }

  /** The same rows, and only this one changed, if it is there at all. */
  ghost predicate OnlyRow(jobs: Jobs, jobs': Jobs, id: string) {
    jobs'.Keys == jobs.Keys && forall j :: j in jobs && j != id ==> jobs'[j] == jobs[j]
  }

  function InState(jobs: Jobs, state: JobState): set<string> {
    set id | id in jobs && jobs[id].state == state
  }

  /** The columns a transition may set besides state and update time. */
  datatype Assignments = Assignments(remoteId: Option<string>, retries: Option<nat>, startedAt: Option<int>)

  const NOTHING := Assignments(None, None, None)

  function Assigned(job: Job, to: JobState, set_: Assignments, now: int): Job {
    job.(state := to, updatedAt := now,
         remoteId := if set_.remoteId.Some? then set_.remoteId.value else job.remoteId,
         retries := if set_.retries.Some? then set_.retries.value else job.retries,
         startedAt := if set_.startedAt.Some? then set_.startedAt else job.startedAt)
  }

  /** Compare and set: moves a job only from the state the caller believes it is in. */
  function TransitionJob(jobs: Jobs, id: string, from: JobState, to: JobState, set_: Assignments, now: int): Result<Jobs, StoreError> {
    if id in jobs && jobs[id].state == from then Ok(jobs[id := Assigned(jobs[id], to, set_, now)])
    else Err(TransitionRejected)
  }

  function FailJob(jobs: Jobs, id: string, now: int): Result<Jobs, StoreError> {
    if id in jobs && !Terminal(jobs[id].state) then Ok(jobs[id := jobs[id].(state := Failed, updatedAt := now)])
    else Err(TransitionRejected)
  }

  /** Fails a claimed submission and records the remote id, when one is known. */
  function OrphanSubmission(jobs: Jobs, id: string, remoteId: string, now: int): Result<Jobs, StoreError> {
    if id in jobs && jobs[id].state == Submitting then
      Ok(jobs[id := jobs[id].(state := Failed, remoteId := remoteId, updatedAt := now)])
    else Err(TransitionRejected)
  }

  function BumpRetries(jobs: Jobs, id: string, now: int): Result<(Jobs, nat), StoreError> {
    if id in jobs then
      var n := jobs[id].retries + 1;
      Ok((jobs[id := jobs[id].(retries := n, updatedAt := now)], n))
    else Err(NoRows)
  }

  /** The rows `ORDER BY created_at LIMIT limit` may answer with; ties come in any order. */
  ghost predicate IsPage(jobs: Jobs, state: JobState, limit: nat, page: seq<string>) {
    && |page| <= limit
    && (forall i :: 0 <= i < |page| ==> page[i] in jobs && jobs[page[i]].state == state)
    && (forall i, j :: 0 <= i < j < |page| ==> page[i] != page[j])
    && (forall i, j :: 0 <= i < j < |page| ==> jobs[page[i]].createdAt <= jobs[page[j]].createdAt)
    && (forall id, i :: id in jobs && jobs[id].state == state && id !in page && 0 <= i < |page| ==>
          jobs[page[i]].createdAt <= jobs[id].createdAt)
    && (|page| < limit ==> forall id :: id in jobs && jobs[id].state == state ==> id in page)
  }

  /** How many rows the fixed scans of the store return at most. */
  const SCAN_LIMIT := 100

  /** A row as it was read. */
  datatype Snap = Snap(id: string, job: Job)

  function Snaps(jobs: Jobs, page: seq<string>): seq<Snap>
    requires forall i :: 0 <= i < |page| ==> page[i] in jobs
  {
    seq(|page|, i requires 0 <= i < |page| => Snap(page[i], jobs[page[i]]))
  }

  function Ids(rows: seq<Snap>): seq<string> {
    seq(|rows|, i requires 0 <= i < |rows| => rows[i].id)
  }

  /** What a scan of one state may answer with. */
  ghost predicate IsScan(jobs: Jobs, state: JobState, limit: nat, rows: seq<Snap>) {
    IsPage(jobs, state, limit, Ids(rows)) && rows == Snaps(jobs, Ids(rows))
  }

  // ---------- Songs ----------

  type Songs = map<string, Song>

  /** Ignored when the song's id, or its job's, already has a row. */
  function CreateSong(songs: Songs, id: string, song: Song): Songs {
    if id in songs || HasSong(songs, song.jobId) then songs else songs[id := song]
  }

  predicate HasSong(songs: Songs, jobId: string) {
    exists id :: id in songs && songs[id].jobId == jobId
  }

  function WithoutSongsOf(songs: Songs, jobId: string): Songs {
    map k | k in songs && songs[k].jobId != jobId :: songs[k]
  }

  /** Removes a song the caller may see, and its job with it. */
  function DeleteSong(t: Tables, id: string, a: Access): Option<Tables> {
    if id in t.songs && OwnedBy(a, t.songs[id].userId) then
      var jobId := t.songs[id].jobId;
      Some(t.(songs := t.songs - {id}, jobs := if jobId == "" then t.jobs else t.jobs - {jobId}))
    else None
  }

  // ---------- Accounts ----------

  predicate ApprovedAdmin(u: User) {
    u.role == ROLE_ADMIN && u.status == APPROVED
  }

  predicate OtherAdmin(users: map<string, User>, id: string) {
    exists other :: other in users && other != id && ApprovedAdmin(users[other])
  }

  /** ASCII lower case: how the username column compares. */
  function FoldChar(c: char): char {
    if 'A' <= c <= 'Z' then (c as int + 32) as char else c
  }

  function Fold(s: string): string {
    seq(|s|, i requires 0 <= i < |s| => FoldChar(s[i]))
  }

  predicate NameTaken(users: map<string, User>, username: string) {
    exists id :: id in users && Fold(users[id].username) == Fold(username)
  }

  function CreateUser(users: map<string, User>, id: string, u: User): Result<map<string, User>, StoreError> {
    if id in users || NameTaken(users, u.username) then Err(UsernameTaken)
    else Ok(users[id := User(u.username, OrElse(u.status, PENDING), OrElse(u.role, ROLE_USER))])
  }

  /** Refuses to take away the last approved administrator. */
  function GuardLastAdmin(users: map<string, User>, id: string): Option<StoreError> {
    if id !in users then Some(NoRows)
    else if ApprovedAdmin(users[id]) && !OtherAdmin(users, id) then Some(LastAdmin)
    else None
  }

  predicate KnownStatus(status: string) {
    status == PENDING || status == APPROVED || status == DISABLED
  }

  function SessionsWithout(sessions: map<string, Session>, userId: string): map<string, Session> {
    map k | k in sessions && sessions[k].userId != userId :: sessions[k]
  }

  function UpdateUserStatus(t: Tables, id: string, status: string): Result<Tables, StoreError> {
    if !KnownStatus(status) then Err(UnknownStatus)
    else if status != APPROVED && GuardLastAdmin(t.users, id).Some? then Err(GuardLastAdmin(t.users, id).value)
    else if id !in t.users then Err(NoRows)
    else
      var users := t.users[id := t.users[id].(status := status)];
      if status == APPROVED then Ok(t.(users := users))
      else Ok(t.(users := users, sessions := SessionsWithout(t.sessions, id)))
  }

  /** Whether a link serves a song or an upload of this account. */
  predicate LinkOf(t: Tables, link: Link, userId: string) {
    match link.kind
    case AudioLink => link.ref in t.songs && t.songs[link.ref].userId == userId
    case SourceLink => link.ref in t.uploads && t.uploads[link.ref].userId == userId
  }

  /** Every row filed under an account gone, and nothing else. */
  function WithoutUser(t: Tables, id: string): Tables {
    Tables(
      t.users - {id},
      SessionsWithout(t.sessions, id),
      map k | k in t.jobs && t.jobs[k].userId != id :: t.jobs[k],
      map k | k in t.songs && t.songs[k].userId != id :: t.songs[k],
      map k | k in t.uploads && t.uploads[k].userId != id :: t.uploads[k],
      map k | k in t.links && !LinkOf(t, t.links[k], id) :: t.links[k])
  }

  /** The files on disk that an account's rows name. */
  function UserFiles(t: Tables, id: string): set<string> {
    (set k | k in t.songs && t.songs[k].userId == id && t.songs[k].audioPath != "" :: t.songs[k].audioPath)
    + (set k | k in t.uploads && t.uploads[k].userId == id && k != "" :: UPLOAD_DIR + k)
  }

  function DeleteUser(t: Tables, id: string): Result<Tables, StoreError> {
    match GuardLastAdmin(t.users, id)
    case Some(e) => Err(e)
    case None => Ok(WithoutUser(t, id))
  }
}
