/**
  Uploaded recordings and the signed links that serve them. The link a cover
  job carries, and the upload behind it, outlive every budget of the job: the
  POST finds the link with 75 minutes left, and a started job has 30, less the
  time its status call took, the form's delay, and what it is over its budget.
*/
module CoverLinks {
  import opened Prelude
  import opened StoreTables
  import opened Budgets
  import SoloWorker
  import opened SoloSafety
  import SoloHistory

  type Solo = SoloWorker.Solo

  const LINK_TTL: int := 2 * HOUR
  const UPLOAD_TTL: int := 24 * HOUR

  /** A cover job as it was queued: its link, its owner and when. */
  datatype Cover = Cover(token: string, userId: string, queuedAt: int)

  /** A link once minted: what it serves, and when its upload and itself were recorded. */
  datatype Minted = Minted(name: string, userId: string, stagedAt: int, mintedAt: int)

  datatype World = World(
    solo: Solo,
    uploads: map<string, Upload>,
    links: map<string, Link>,
    staged: map<string, Upload>,   // every upload ever recorded
    minted: map<string, Minted>,   // every link ever minted
    source: map<string, Cover>,    // every cover job ever queued
    removed: set<string>)          // accounts deleted

  datatype Event =
    | Worker(e: SoloWorker.Event)
    | Stage(name: string, userId: string)
    | Mint(token: string, name: string)
    | QueueCover(id: string, token: string)
    | PurgeLinks
    | PurgeUploads
    | RemoveUser(userId: string)

  // ---------- Operations on links and uploads ----------

  /** What a token serves, if it has not lapsed. */
  function Resolve(links: map<string, Link>, token: string, now: int): Option<Link> {
    if token in links && links[token].expiresAt > now then Some(links[token]) else None
  }

  function PurgeExpiredLinks(links: map<string, Link>, now: int): map<string, Link> {
    map k | k in links && links[k].expiresAt > now :: links[k]
  }

  function PurgeStaleUploads(uploads: map<string, Upload>, now: int): map<string, Upload> {
    map k | k in uploads && uploads[k].createdAt > now - UPLOAD_TTL :: uploads[k]
  }

  function JobTables(w: World): Tables {
    Tables(map[], map[], w.solo.jobs, w.solo.songs, w.uploads, w.links)
  }

  ghost function Step(w: World, e: Event): Option<World> {
    match e
    case Worker(f) =>
      (match SoloWorker.Step(w.solo, f)
       case Some(solo) => Some(w.(solo := solo))
       case None => None)
    case Stage(name, userId) =>
      if name in w.staged || name == "" then None
      else
        var row := Upload(OrElse(userId, LEGACY_USER), w.solo.now);
        Some(w.(uploads := w.uploads[name := row], staged := w.staged[name := row]))
    case Mint(token, name) =>
      if token in w.minted || name !in w.staged then None
      else
        var row := w.staged[name];
        Some(w.(links := w.links[token := Link(SourceLink, name, w.solo.now + LINK_TTL)],
                minted := w.minted[token := Minted(name, row.userId, row.createdAt, w.solo.now)]))
    case QueueCover(id, token) =>
      if token !in w.minted then None
      else
        (match SoloWorker.StepOutside(w.solo, SoloWorker.Create(id, w.minted[token].userId, YUE2, COVER))
         case Some(solo) => Some(w.(solo := solo, source := w.source[id := Cover(token, w.minted[token].userId, w.solo.now)]))
         case None => None)
    case PurgeLinks => Some(w.(links := PurgeExpiredLinks(w.links, w.solo.now)))
    case PurgeUploads => Some(w.(uploads := PurgeStaleUploads(w.uploads, w.solo.now)))
    case RemoveUser(userId) =>
      var t := WithoutUser(JobTables(w), userId);
      Some(w.(solo := w.solo.(jobs := t.jobs, songs := t.songs), uploads := t.uploads, links := t.links, removed := w.removed + {userId}))
  }

  ghost function Run(w: World, events: seq<Event>): Option<World>
    decreases |events|
  {
    if events == [] then Some(w)
    else
      match Step(w, events[0])
      case Some(w1) => Run(w1, events[1..])
      case None => None
  }

  function Start(limit: nat): World {
    World(SoloWorker.Start(limit), map[], map[], map[], map[], map[], {})
  }

  // ---------- What is kept ----------

  /** An upload is there until it is a day old or its account is deleted. */
  ghost predicate UploadKept(w: World, name: string) {
    name in w.staged ==>
      && w.staged[name].createdAt <= w.solo.now && w.staged[name].userId != ""
      && (|| (name in w.uploads && w.uploads[name] == w.staged[name])
          || w.staged[name].createdAt + UPLOAD_TTL <= w.solo.now
          || w.staged[name].userId in w.removed)
  }

  /** A link is there until it lapses or its account is deleted. */
  ghost predicate LinkKept(w: World, token: string) {
    token in w.minted ==>
      var m := w.minted[token];
      && m.name in w.staged && w.staged[m.name] == Upload(m.userId, m.stagedAt)
      && m.stagedAt <= m.mintedAt <= w.solo.now
      && (|| (token in w.links && w.links[token] == Link(SourceLink, m.name, m.mintedAt + LINK_TTL))
          || m.mintedAt + LINK_TTL <= w.solo.now
          || m.userId in w.removed)
  }

  predicate IsCover(cover: Cover, job: Job) {
    job.userId == cover.userId && job.createdAt == cover.queuedAt
  }

  /** A cover job has its link's owner and was queued after the link was minted. */
  ghost predicate CoverKept(w: World, id: string) {
    id in w.source ==>
      var cover := w.source[id];
      && id in w.solo.used && cover.token in w.minted
      && cover.userId == w.minted[cover.token].userId
      && w.minted[cover.token].mintedAt <= cover.queuedAt
      && (id in w.solo.jobs ==> IsCover(cover, w.solo.jobs[id]))
  }

  predicate Submitting(phase: SoloWorker.Phase) {
    phase.Claimed? || phase.Posting?
  }

  /** The job being submitted is the one that was queued, even when its row is gone. */
  ghost predicate InHandKept(w: World) {
    Submitting(w.solo.phase) && w.solo.phase.snap.id in w.source ==>
      IsCover(w.source[w.solo.phase.snap.id], w.solo.phase.snap.job)
  }

  ghost predicate RecordsKept(w: World) {
    && (forall name :: name in w.staged ==> UploadKept(w, name))
    && (forall token :: token in w.minted ==> LinkKept(w, token))
  }

  /** Every link and upload there is was minted or staged, and is as it was then. */
  ghost predicate OnRecord(w: World) {
    && (forall token :: token in w.links ==>
          token in w.minted && w.links[token] == Link(SourceLink, w.minted[token].name, w.minted[token].mintedAt + LINK_TTL))
    && (forall name :: name in w.uploads ==> name in w.staged && w.uploads[name] == w.staged[name])
  }

  ghost predicate SourcesKept(w: World) {
    && SoloOk(w.solo)
    && RecordsKept(w)
    && OnRecord(w)
    && (forall id :: id in w.source ==> CoverKept(w, id))
    && InHandKept(w)
  }

  /** Time passes over uploads and links. */
  lemma RecordsStay(w: World, w': World)
    requires RecordsKept(w) && w' == w.(solo := w'.solo, source := w'.source) && w.solo.now <= w'.solo.now
    ensures RecordsKept(w')
  {
    forall token | token in w'.minted
      ensures LinkKept(w', token)
    {
      assert LinkKept(w, token);
    }
    forall name | name in w'.staged
      ensures UploadKept(w', name)
    {
      assert UploadKept(w, name);
    }
  }

  lemma CoversFollow(w: World, f: SoloWorker.Event, id: string)
    requires SoloOk(w.solo) && SoloWorker.Step(w.solo, f).Some? && CoverKept(w, id)
    ensures CoverKept(w.(solo := SoloWorker.Step(w.solo, f).value), id)
  {
    Evolution(w.solo, f);
  }

  lemma InHandFollows(w: World, f: SoloWorker.Event)
    requires SourcesKept(w) && SoloWorker.Step(w.solo, f).Some?
    ensures InHandKept(w.(solo := SoloWorker.Step(w.solo, f).value))
  {
    var s' := SoloWorker.Step(w.solo, f).value;
    if Submitting(s'.phase) && s'.phase.snap.id in w.source {
      InHandIsRead(w.solo, f);
      assert CoverKept(w, s'.phase.snap.id);
    }
  }

  lemma WorkerKeeps(w: World, f: SoloWorker.Event)
    requires SourcesKept(w) && SoloWorker.Step(w.solo, f).Some?
    ensures SourcesKept(w.(solo := SoloWorker.Step(w.solo, f).value))
  {
    var w' := w.(solo := SoloWorker.Step(w.solo, f).value);
    StepKeepsSolo(w.solo, f);
    Evolution(w.solo, f);
    RecordsStay(w, w');
    InHandFollows(w, f);
    forall id | id in w'.source
      ensures CoverKept(w', id)
    {
      CoversFollow(w, f, id);
    }
  }

  /** What is being submitted was being submitted before, or is a row as it is now. */
  lemma InHandIsRead(s: Solo, f: SoloWorker.Event)
    requires SoloOk(s) && SoloWorker.Step(s, f).Some? && Submitting(SoloWorker.Step(s, f).value.phase)
    ensures var snap := SoloWorker.Step(s, f).value.phase.snap;
      (Submitting(s.phase) && s.phase.snap == snap) || (snap.id in s.jobs && s.jobs[snap.id] == snap.job)
  {
  }

  lemma Evolution(s: Solo, f: SoloWorker.Event)
    requires SoloOk(s) && SoloWorker.Step(s, f).Some?
    ensures var s' := SoloWorker.Step(s, f).value;
      && s.used <= s'.used && s.now <= s'.now
      && forall id :: id in s'.jobs && id in s.used ==> id in s.jobs && SameIdentity(s.jobs[id], s'.jobs[id])
  {
    SoloHistory.StepEvolves(s, f);
  }

  /** The jobs and what is known of each cover stay as they are. */
  lemma CoversStay(w: World, w': World)
    requires SourcesKept(w) && w'.solo == w.solo && w'.source == w.source
    requires forall t :: t in w.minted ==> t in w'.minted && w'.minted[t] == w.minted[t]
    ensures forall id :: id in w'.source ==> CoverKept(w', id)
  {
    forall id | id in w'.source
      ensures CoverKept(w', id)
    {
      assert CoverKept(w, id);
    }
  }

  lemma StageKeepsRecords(w: World, name: string, userId: string)
    requires SourcesKept(w) && Step(w, Stage(name, userId)).Some?
    ensures RecordsKept(Step(w, Stage(name, userId)).value)
  {
    var w' := Step(w, Stage(name, userId)).value;
    forall n | n in w'.staged
      ensures UploadKept(w', n)
    {
      if n != name {
        assert UploadKept(w, n);
      }
    }
    forall token | token in w'.minted
      ensures LinkKept(w', token)
    {
      assert LinkKept(w, token);
    }
  }

  lemma StageKeeps(w: World, name: string, userId: string)
    requires SourcesKept(w) && Step(w, Stage(name, userId)).Some?
    ensures SourcesKept(Step(w, Stage(name, userId)).value)
  {
    StageKeepsRecords(w, name, userId);
    CoversStay(w, Step(w, Stage(name, userId)).value);
  }

  lemma MintKeepsRecords(w: World, token: string, name: string)
    requires SourcesKept(w) && Step(w, Mint(token, name)).Some?
    ensures RecordsKept(Step(w, Mint(token, name)).value)
  {
    var w' := Step(w, Mint(token, name)).value;
    assert UploadKept(w, name);
    forall n | n in w'.staged
      ensures UploadKept(w', n)
    {
      assert UploadKept(w, n);
    }
    forall t | t in w'.minted
      ensures LinkKept(w', t)
    {
      if t != token {
        assert LinkKept(w, t);
      }
    }
  }

  lemma MintKeeps(w: World, token: string, name: string)
    requires SourcesKept(w) && Step(w, Mint(token, name)).Some?
    ensures SourcesKept(Step(w, Mint(token, name)).value)
  {
    MintKeepsRecords(w, token, name);
    CoversStay(w, Step(w, Mint(token, name)).value);
  }

  lemma QueueKeepsCovers(w: World, id: string, token: string, j: string)
    requires SourcesKept(w) && Step(w, QueueCover(id, token)).Some? && (j in w.source || j == id)
    ensures CoverKept(Step(w, QueueCover(id, token)).value, j)
  {
    if j == id {
      assert LinkKept(w, token) && UploadKept(w, w.minted[token].name);
    } else {
      assert CoverKept(w, j);
    }
  }

  lemma QueueKeeps(w: World, id: string, token: string)
    requires SourcesKept(w) && Step(w, QueueCover(id, token)).Some?
    ensures SourcesKept(Step(w, QueueCover(id, token)).value)
  {
    var w' := Step(w, QueueCover(id, token)).value;
    CreateKeepsSolo(w.solo, id, w.minted[token].userId, YUE2, COVER);
    RecordsStay(w, w');
    forall j | j in w'.source
      ensures CoverKept(w', j)
    {
      QueueKeepsCovers(w, id, token, j);
    }
  }

  lemma PurgesKeepRecords(w: World, e: Event)
    requires SourcesKept(w) && (e.PurgeLinks? || e.PurgeUploads?)
    ensures RecordsKept(Step(w, e).value)
  {
    var w' := Step(w, e).value;
    forall name | name in w'.staged
      ensures UploadKept(w', name)
    {
      assert UploadKept(w, name);
    }
    forall token | token in w'.minted
      ensures LinkKept(w', token)
    {
      assert LinkKept(w, token);
    }
  }

  lemma PurgesStayOnRecord(w: World, e: Event)
    requires OnRecord(w) && (e.PurgeLinks? || e.PurgeUploads?)
    ensures OnRecord(Step(w, e).value)
  {
  }

  lemma PurgesKeep(w: World, e: Event)
    requires SourcesKept(w) && (e.PurgeLinks? || e.PurgeUploads?)
    ensures SourcesKept(Step(w, e).value)
  {
    PurgesKeepRecords(w, e);
    PurgesStayOnRecord(w, e);
    CoversStay(w, Step(w, e).value);
  }

  /** A link to one of the account's uploads, and no other, goes with it. */
  lemma RemovalKeepsLink(w: World, userId: string, token: string)
    requires SourcesKept(w) && token in w.minted
    ensures LinkKept(Step(w, RemoveUser(userId)).value, token)
  {
    assert LinkKept(w, token);
    var m := w.minted[token];
    assert m.name in w.uploads ==> w.uploads[m.name] == w.staged[m.name];
  }

  lemma RemovalKeepsUpload(w: World, userId: string, name: string)
    requires SourcesKept(w) && name in w.staged
    ensures UploadKept(Step(w, RemoveUser(userId)).value, name)
  {
    assert UploadKept(w, name);
  }

  lemma RemovalKeeps(w: World, userId: string)
    requires SourcesKept(w)
    ensures SourcesKept(Step(w, RemoveUser(userId)).value)
  {
    var w' := Step(w, RemoveUser(userId)).value;
    FewerJobsKeepSolo(w.solo, w'.solo);
    forall name | name in w'.staged
      ensures UploadKept(w', name)
    {
      RemovalKeepsUpload(w, userId, name);
    }
    forall token | token in w'.minted
      ensures LinkKept(w', token)
    {
      RemovalKeepsLink(w, userId, token);
    }
    forall id | id in w'.source
      ensures CoverKept(w', id)
    {
      assert CoverKept(w, id);
    }
  }

  lemma StepKeeps(w: World, e: Event)
    requires SourcesKept(w) && Step(w, e).Some?
    ensures SourcesKept(Step(w, e).value)
  {
    match e {
      case Worker(f) => WorkerKeeps(w, f);
      case Stage(name, userId) => StageKeeps(w, name, userId);
      case Mint(token, name) => MintKeeps(w, token, name);
      case QueueCover(id, token) => QueueKeeps(w, id, token);
      case PurgeLinks => PurgesKeep(w, e);
      case PurgeUploads => PurgesKeep(w, e);
      case RemoveUser(userId) => RemovalKeeps(w, userId);
    }
  }

  lemma {:induction false} RunKeeps(w: World, events: seq<Event>)
    requires SourcesKept(w) && Run(w, events).Some?
    ensures SourcesKept(Run(w, events).value)
    decreases |events|
  {
    if events != [] {
      StepKeeps(w, events[0]);
      RunKeeps(Step(w, events[0]).value, events[1..]);
    }
  }

  // ---------- Links lapse, and uploads go ----------

  /** In every run a token serves its upload until it is two hours old, and never after, unless its account goes first. */
  lemma LinkLapses(limit: nat, events: seq<Event>, token: string)
    requires Run(Start(limit), events).Some?
    ensures var w := Run(Start(limit), events).value;
      && (Resolve(w.links, token, w.solo.now).Some?
          ==> token in w.minted && w.solo.now - w.minted[token].mintedAt < 120 * MINUTE)
      && (token in w.minted && w.solo.now - w.minted[token].mintedAt < 120 * MINUTE && w.minted[token].userId !in w.removed
          ==> Resolve(w.links, token, w.solo.now) == Some(Link(SourceLink, w.minted[token].name, w.minted[token].mintedAt + 120 * MINUTE)))
  {
    RunKeeps(Start(limit), events);
    var w := Run(Start(limit), events).value;
    assert token in w.minted ==> LinkKept(w, token);
  }

  /** A purge takes every lapsed link, and no token that serves stops serving. */
  lemma LinkPurgeIsExact(w: World, token: string)
    ensures var after := Step(w, PurgeLinks).value;
      && after == w.(links := after.links)
      && (token in after.links ==> w.solo.now < after.links[token].expiresAt)
      && Resolve(after.links, token, w.solo.now) == Resolve(w.links, token, w.solo.now)
  {
  }

  /** In every run a purge leaves the uploads of the last day, as they were staged, and no other. */
  lemma UploadPurgeIsExact(limit: nat, events: seq<Event>, name: string)
    requires Run(Start(limit), events).Some?
    ensures var w := Run(Start(limit), events).value;
      var after := Step(w, PurgeUploads).value;
      && after == w.(uploads := after.uploads)
      && (name in after.uploads ==>
           name in w.staged && after.uploads[name] == w.staged[name] && w.solo.now - w.staged[name].createdAt < 24 * 60 * MINUTE)
      && (name in w.staged && w.solo.now - w.staged[name].createdAt < 24 * 60 * MINUTE && w.staged[name].userId !in w.removed
          ==> name in after.uploads)
  {
    RunKeeps(Start(limit), events);
    var w := Run(Start(limit), events).value;
    assert name in w.staged ==> UploadKept(w, name);
  }

  // ---------- Links outlive jobs ----------

  /** When a job's budget runs out. */
  function BudgetEnd(job: Job): int {
    match job.startedAt
    case None => job.createdAt + QUEUE_BUDGET
    case Some(started) => started + RunBudget(job)
  }

  /** How long a job is past its budget: a poll gap, or a call, that delays its end. */
  function Overtime(job: Job, now: int): (t: int)
    ensures t >= 0 && (t > 0 <==> Expired(job, now))
  {
    if now > BudgetEnd(job) then now - BudgetEnd(job) else 0
  }

  /** What is left of a link at the end of a job's budget, before the form's own delay. */
  function Margin(job: Job): int {
    if job.startedAt.None? then 75 * MINUTE else 30 * MINUTE - CALL_TIMEOUT
  }

  /** From recording the upload, or minting its link, to queueing the job. */
  function UploadDelay(w: World, id: string): int
    requires id in w.source && w.source[id].token in w.minted
  {
    w.source[id].queuedAt - w.minted[w.source[id].token].stagedAt
  }

  function FormDelay(w: World, id: string): int
    requires id in w.source && w.source[id].token in w.minted
  {
    w.source[id].queuedAt - w.minted[w.source[id].token].mintedAt
  }

  /** The link of a cover serves its upload, and will for at least this long. */
  ghost predicate LinkServes(w: World, id: string, left: int)
    requires id in w.source && w.source[id].token in w.minted
  {
    var cover := w.source[id];
    var m := w.minted[cover.token];
    && Resolve(w.links, cover.token, w.solo.now) == Some(Link(SourceLink, m.name, m.mintedAt + LINK_TTL))
    && m.mintedAt + LINK_TTL - w.solo.now >= left
  }

  ghost predicate UploadThere(w: World, id: string)
    requires id in w.source && w.source[id].token in w.minted
  {
    var m := w.minted[w.source[id].token];
    m.name in w.uploads && w.uploads[m.name] == Upload(m.userId, m.stagedAt)
  }

  lemma BudgetEndsEarly(job: Job, posted: nat, now: int)
    requires RowOk(job, posted, now)
    ensures BudgetEnd(job) + Margin(job) <= job.createdAt + LINK_TTL
  {
  }

  /** Up to this time, whatever has become of the job, its link and upload are there. */
  lemma SourceOutlives(w: World, id: string, left: int)
    requires SourcesKept(w) && id in w.source && w.source[id].userId !in w.removed && left > 0
    requires w.source[id].token in w.minted
    requires w.solo.now + left + FormDelay(w, id) <= w.source[id].queuedAt + LINK_TTL
    ensures LinkServes(w, id, left)
    ensures UploadDelay(w, id) - FormDelay(w, id) < UPLOAD_TTL - LINK_TTL ==> UploadThere(w, id)
  {
    var cover := w.source[id];
    assert CoverKept(w, id) && LinkKept(w, cover.token) && UploadKept(w, w.minted[cover.token].name);
  }

  /**
    In every run, for every cover job whose row and account are still there, active
    or not, within its budget or past it and not yet ended: as long as the time past
    its budget, the call and the form's delay leave something of its margin, its link
    serves its upload for at least what they leave. A started job's margin is thirty
    minutes less the call. The upload itself is there if it was not recorded more
    than twenty-two hours before its link was minted.
  */
  lemma CoverSourceIsAlive(limit: nat, events: seq<Event>, id: string)
    requires Run(Start(limit), events).Some?
    requires var w := Run(Start(limit), events).value;
      && id in w.solo.jobs && id in w.source && w.solo.jobs[id].userId !in w.removed && w.source[id].token in w.minted
      && Overtime(w.solo.jobs[id], w.solo.now) + FormDelay(w, id) < Margin(w.solo.jobs[id])
    ensures var w := Run(Start(limit), events).value;
      && LinkServes(w, id, Margin(w.solo.jobs[id]) - Overtime(w.solo.jobs[id], w.solo.now) - FormDelay(w, id))
      && (UploadDelay(w, id) - FormDelay(w, id) < 22 * HOUR ==> UploadThere(w, id))
  {
    RunKeeps(Start(limit), events);
    var w := Run(Start(limit), events).value;
    var job := w.solo.jobs[id];
    assert CoverKept(w, id);
    BudgetEndsEarly(job, SoloWorker.Posted(w.solo, id), w.solo.now);
    SourceOutlives(w, id, Margin(job) - Overtime(job, w.solo.now) - FormDelay(w, id));
  }

  /** Every cover that was ever queued has its link on record. */
  lemma SourceIsMinted(limit: nat, events: seq<Event>, id: string)
    requires Run(Start(limit), events).Some? && id in Run(Start(limit), events).value.source
    ensures var w := Run(Start(limit), events).value; w.source[id].token in w.minted
  {
    RunKeeps(Start(limit), events);
    assert CoverKept(Run(Start(limit), events).value, id);
  }

  /**
    In every run, when the POST of a cover is about to go out, or is out, its link has
    75 minutes left, less the form's delay and the time since its budget was tested,
    just before its claim; whether or not its row is still there.
  */
  lemma PostFindsItsLink(limit: nat, events: seq<Event>)
    requires Run(Start(limit), events).Some? && Submitting(Run(Start(limit), events).value.solo.phase)
    requires var w := Run(Start(limit), events).value;
      var id := w.solo.phase.snap.id;
      && id in w.source && w.source[id].token in w.minted && w.source[id].userId !in w.removed
      && FormDelay(w, id) + (w.solo.now - w.solo.phase.since) < 75 * MINUTE
    ensures var w := Run(Start(limit), events).value;
      var id := w.solo.phase.snap.id;
      && LinkServes(w, id, 75 * MINUTE - FormDelay(w, id) - (w.solo.now - w.solo.phase.since))
      && (UploadDelay(w, id) - FormDelay(w, id) < 22 * HOUR ==> UploadThere(w, id))
  {
    RunKeeps(Start(limit), events);
    var w := Run(Start(limit), events).value;
    var id := w.solo.phase.snap.id;
    SourceOutlives(w, id, 75 * MINUTE - FormDelay(w, id) - (w.solo.now - w.solo.phase.since));
  }
}
