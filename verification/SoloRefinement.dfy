/**
  The single worker is one worker of the protocol: every run of SoloWorker is
  matched, step by step, by a run of JobProtocol on the same rows and songs, with
  one message for every POST. So what every interleaving of the protocol keeps
  holds of the worker: one generation and one song for each job.
*/
module SoloRefinement {
  import opened Prelude
  import opened StoreTables
  import opened Runpod
  import opened Budgets
  import opened SoloSafety
  import opened StorePages
  import S = SoloWorker
  import P = JobProtocol
  import JobSafety
  import JobSongs

  // ---------- The protocol's side of a state ----------

  /** The worker is worker zero; its last POST is the one that may still be out. */
  function Pcs(phase: S.Phase, posts: nat): map<nat, P.Pc> {
    match phase
    case Down => map[]
    case Claimed(snap, _, _) => map[0 := P.Claimed(snap.id)]
    case Posting(snap, _, _) => if posts > 0 then map[0 := P.Posting(snap.id, posts - 1)] else map[]
    case _ => map[0 := P.Idle]
  }

  function PostsOf(posts: map<nat, P.Post>, id: string): set<nat> {
    set p | p in posts && posts[p].job == id
  }

  ghost predicate Counted(s: S.Solo, posts: map<nat, P.Post>) {
    forall id :: |PostsOf(posts, id)| == S.Posted(s, id)
  }

  ghost predicate Numbered(posts: map<nat, P.Post>, n: nat) {
    forall p: nat :: p in posts <==> p < n
  }

  ghost predicate Matches(s: S.Solo, w: P.World, n: nat) {
    && w.t.jobs == s.jobs && w.t.songs == s.songs && w.used == s.used && w.clock == s.now
    && w.pcs == Pcs(s.phase, n)
    && Numbered(w.posts, n) && Counted(s, w.posts)
    && (s.phase.Posting? ==> n > 0 && w.posts[n - 1] == P.Post(s.phase.snap.id, P.Open))
  }

  // ---------- Runs of the protocol ----------

  lemma {:induction false} RunJoins(w: P.World, a: seq<P.Event>, b: seq<P.Event>)
    requires P.Run(w, a).Some?
    ensures P.Run(w, a + b) == P.Run(P.Run(w, a).value, b)
    decreases |a|
  {
    if a == [] {
      assert a + b == b;
    } else {
      assert (a + b)[0] == a[0] && (a + b)[1..] == a[1..] + b;
      RunJoins(P.Step(w, a[0]).value, a[1..], b);
    }
  }

  lemma RunsOne(w: P.World, e: P.Event)
    requires P.Step(w, e).Some?
    ensures P.Run(w, [e]) == P.Step(w, e)
  {
    assert P.Run(P.Step(w, e).value, []) == P.Step(w, e);
  }

  lemma ThenOne(w: P.World, a: seq<P.Event>, e: P.Event)
    requires P.Run(w, a).Some? && P.Step(P.Run(w, a).value, e).Some?
    ensures P.Run(w, a + [e]) == P.Step(P.Run(w, a).value, e)
  {
    RunsOne(P.Run(w, a).value, e);
    RunJoins(w, a, [e]);
  }

  lemma RunsThree(w: P.World, a: P.Event, w1: P.World, b: P.Event, w2: P.World, c: P.Event, w3: P.World)
    requires P.Step(w, a) == Some(w1) && P.Step(w1, b) == Some(w2) && P.Step(w2, c) == Some(w3)
    ensures P.Run(w, [a, b, c]) == Some(w3)
  {
    RunsOne(w, a);
    ThenOne(w, [a], b);
    ThenOne(w, [a] + [b], c);
    assert [a] + [b] + [c] == [a, b, c];
  }

  /** Only the tables and the clock have changed, and the worker is where it was. */
  lemma StillMatches(s: S.Solo, s': S.Solo, w: P.World, w': P.World, n: nat)
    requires Matches(s, w, n) && s'.posted == s.posted && Pcs(s'.phase, n) == w'.pcs && !s'.phase.Posting?
    requires w'.posts == w.posts
    requires w'.t.jobs == s'.jobs && w'.t.songs == s'.songs && w'.used == s'.used && w'.clock == s'.now
    ensures Matches(s', w', n)
  {
    assert forall id :: S.Posted(s', id) == S.Posted(s, id);
  }

  lemma PostingStillMatches(s: S.Solo, s': S.Solo, w: P.World, w': P.World, n: nat)
    requires Matches(s, w, n) && s'.posted == s.posted && s'.phase == s.phase && w'.pcs == w.pcs
    requires w'.posts == w.posts
    requires w'.t.jobs == s'.jobs && w'.t.songs == s'.songs && w'.used == s'.used && w'.clock == s'.now
    ensures Matches(s', w', n)
  {
    assert forall id :: S.Posted(s', id) == S.Posted(s, id);
  }

  // ---------- Handlers, time and restarts ----------

  function OutsideEvent(e: S.Event): P.Event {
    match e
    case Create(id, userId, engine, mode) => P.Create(id, userId, engine, mode)
    case Delete(id) => P.RemoveJob(id)
    case Crash => P.Crash(0)
    case Recover(id) => P.Recover(id)
    case FailStale(id) => P.Fail(id)
    case Boot => P.Boot(0)
    case Pass(dt) => P.Pass(dt)
    case _ => P.Pass(0)
  }

  /** The protocol takes the same step on the same tables. */
  lemma OutsideStep(s: S.Solo, e: S.Event, w: P.World, n: nat)
    requires s.jobs.Keys <= s.used && Matches(s, w, n) && S.StepOutside(s, e).Some?
    ensures P.Step(w, OutsideEvent(e)).Some?
    ensures var s', w' := S.StepOutside(s, e).value, P.Step(w, OutsideEvent(e)).value;
      && w'.t.jobs == s'.jobs && w'.t.songs == s'.songs && w'.used == s'.used && w'.clock == s'.now
      && w'.pcs == Pcs(s'.phase, n) && w'.posts == w.posts && s'.posted == s.posted
      && (s'.phase.Posting? ==> s'.phase == s.phase)
  {
  }

  lemma OutsideMatches(s: S.Solo, e: S.Event, w: P.World, n: nat) returns (events: seq<P.Event>)
    requires SoloOk(s) && Matches(s, w, n) && S.StepOutside(s, e).Some?
    ensures P.Run(w, events).Some? && Matches(S.StepOutside(s, e).value, P.Run(w, events).value, n)
  {
    var s', w' := S.StepOutside(s, e).value, P.Step(w, OutsideEvent(e)).value;
    OutsideStep(s, e, w, n);
    events := [OutsideEvent(e)];
    RunsOne(w, OutsideEvent(e));
    if s'.phase.Posting? {
      PostingStillMatches(s, s', w, w', n);
    } else {
      StillMatches(s, s', w, w', n);
    }
  }

  // ---------- Polling ----------

  lemma FailingMatches(w: P.World, id: string)
    ensures P.Run(w, [P.Fail(id)]) == Some(P.WithJobs(w, Kept(w.t.jobs, FailJob(w.t.jobs, id, w.clock))))
  {
    RunsOne(w, P.Fail(id));
  }

  lemma CountingMatches(w: P.World, id: string, cap: nat) returns (events: seq<P.Event>)
    ensures P.Run(w, events) == Some(P.WithJobs(w, S.CountFailure(w.t.jobs, id, cap, w.clock)))
  {
    events := [];
    if id in w.t.jobs {
      events := [P.Bump(id)];
      RunsOne(w, P.Bump(id));
      if w.t.jobs[id].retries + 1 >= cap {
        ThenOne(w, events, P.Fail(id));
        events := events + [P.Fail(id)];
      }
    }
  }

  lemma ProgressMatches(w: P.World, id: string, from: JobState, to: JobState, started: Option<int>)
    requires Active(from) && Active(to)
    ensures P.Run(w, [P.Progress(id, from, to, started)]) == Some(P.WithJobs(w,
      Kept(w.t.jobs, TransitionJob(w.t.jobs, id, from, to, Assignments(None, Some(0), started), w.clock))))
  {
    RunsOne(w, P.Progress(id, from, to, started));
  }

  function Found(w: P.World, snap: Snap, from: JobState): P.World {
    w.(pcs := map[0 := P.Completed(snap.id, from, snap.job.userId)])
  }

  function WithSong(w: P.World, snap: Snap, from: JobState, songId: string, path: string): P.World {
    w.(pcs := map[0 := P.Stored(snap.id, from)],
       t := w.t.(songs := CreateSong(w.t.songs, songId, Song(snap.id, OrElse(snap.job.userId, LEGACY_USER), path))))
  }

  function Marked(w: P.World, id: string, from: JobState): P.World {
    w.(pcs := map[0 := P.Idle],
       t := w.t.(jobs := Kept(w.t.jobs, TransitionJob(w.t.jobs, id, from, Succeeded, Assignments(None, Some(0), None), w.clock))))
  }

  lemma FindStep(w: P.World, snap: Snap, from: JobState)
    requires w.pcs == map[0 := P.Idle] && Active(from) && snap.id in w.used
    requires snap.id in w.t.jobs ==> w.t.jobs[snap.id] == snap.job
    ensures P.Step(w, P.FindCompleted(0, snap.id, from, snap.job.userId)) == Some(Found(w, snap, from))
  {
    assert w.pcs[0 := P.Completed(snap.id, from, snap.job.userId)] == Found(w, snap, from).pcs;
  }

  lemma StoreStep(w: P.World, snap: Snap, from: JobState, songId: string, path: string)
    requires HasSong(w.t.songs, snap.id) || songId !in w.t.songs
    ensures P.Step(Found(w, snap, from), P.StoreSong(0, songId, path, true)) == Some(WithSong(w, snap, from, songId, path))
  {
    assert Found(w, snap, from).pcs[0 := P.Stored(snap.id, from)] == WithSong(w, snap, from, songId, path).pcs;
  }

  lemma MarkStep(w: P.World, id: string, from: JobState)
    requires w.pcs == map[0 := P.Stored(id, from)]
    ensures P.Step(w, P.MarkSucceeded(0, true)) == Some(Marked(w, id, from))
  {
    assert w.pcs[0 := P.Idle] == Marked(w, id, from).pcs;
  }

  /** Finding the output, storing its song unless it is there, marking the row. */
  lemma SongMatches(w: P.World, snap: Snap, from: JobState, songId: string, path: string) returns (events: seq<P.Event>)
    requires w.pcs == map[0 := P.Idle] && Active(from) && snap.id in w.used
    requires snap.id in w.t.jobs ==> w.t.jobs[snap.id] == snap.job
    requires HasSong(w.t.songs, snap.id) || songId !in w.t.songs
    ensures P.Run(w, events) == Some(Marked(WithSong(w, snap, from, songId, path), snap.id, from))
  {
    var w1, w2 := Found(w, snap, from), WithSong(w, snap, from, songId, path);
    var find := P.FindCompleted(0, snap.id, from, snap.job.userId);
    FindStep(w, snap, from);
    StoreStep(w, snap, from, songId, path);
    MarkStep(w2, snap.id, from);
    RunsThree(w, find, w1, P.StoreSong(0, songId, path, true), w2, P.MarkSucceeded(0, true), Marked(w2, snap.id, from));
    events := [find, P.StoreSong(0, songId, path, true), P.MarkSucceeded(0, true)];
  }

  /** The tables after a poll's answer. */
  function Answered(s: S.Solo, w: P.World, snap: Snap, answer: S.PollAnswer): P.World {
    w.(t := w.t.(jobs := S.ApplyStatus(s.jobs, s.songs, snap, answer, s.now), songs := S.SongsAfter(s.songs, snap, answer)))
  }

  lemma CompletionMatches(s: S.Solo, w: P.World, n: nat, output: S.Completion) returns (events: seq<P.Event>)
    requires SoloOk(s) && Matches(s, w, n) && s.phase.Calling? && S.InTime(s, S.RemoteCompleted(output))
    ensures P.Run(w, events) == Some(Answered(s, w, s.phase.snap, S.RemoteCompleted(output)))
  {
    var snap := s.phase.snap;
    var from := if snap.job.state == Running then Running else Submitted;
    if output.Unreadable? {
      FailingMatches(w, snap.id);
      events := [P.Fail(snap.id)];
    } else if output.Encoded? {
      events := SongMatches(w, snap, from, output.songId, output.path);
    } else if HasSong(s.songs, snap.id) {
      events := SongMatches(w, snap, from, "", "");
    } else {
      events := CountingMatches(w, snap.id, MAX_STORE_RETRIES);
    }
  }

  lemma StatusMatches(s: S.Solo, w: P.World, n: nat, answer: S.PollAnswer) returns (events: seq<P.Event>)
    requires SoloOk(s) && Matches(s, w, n) && s.phase.Calling? && S.InTime(s, answer)
    ensures P.Run(w, events) == Some(Answered(s, w, s.phase.snap, answer))
  {
    var snap := s.phase.snap;
    var from := if snap.job.state == Running then Running else Submitted;
    match answer {
      case CallFailed(e) =>
        if IsPermanent(e) {
          FailingMatches(w, snap.id);
          events := [P.Fail(snap.id)];
        } else {
          events := CountingMatches(w, snap.id, MAX_TRANSIENT);
        }
      case InQueue =>
        ProgressMatches(w, snap.id, from, Submitted, None);
        events := [P.Progress(snap.id, from, Submitted, None)];
      case InProgress =>
        var started := if snap.job.startedAt.None? then Some(s.now) else None;
        ProgressMatches(w, snap.id, from, Running, started);
        events := [P.Progress(snap.id, from, Running, started)];
      case RemoteCompleted(output) => events := CompletionMatches(s, w, n, output);
      case _ =>
        FailingMatches(w, snap.id);
        events := [P.Fail(snap.id)];
    }
  }

  lemma CancelledMatches(s: S.Solo, answer: S.PollAnswer, w: P.World, n: nat) returns (events: seq<P.Event>)
    requires Matches(s, w, n) && S.Hearing(s, answer).Some? && s.phase.over
    ensures P.Run(w, events).Some? && Matches(S.Hearing(s, answer).value, P.Run(w, events).value, n)
  {
    events := FailOrNothing(s, S.Hearing(s, answer).value, w, n, s.phase.snap.id);
  }

  lemma AnsweredMatches(s: S.Solo, answer: S.PollAnswer, w: P.World, n: nat) returns (events: seq<P.Event>)
    requires SoloOk(s) && Matches(s, w, n) && S.Hearing(s, answer).Some? && !s.phase.over
    ensures P.Run(w, events).Some? && Matches(S.Hearing(s, answer).value, P.Run(w, events).value, n)
  {
    events := StatusMatches(s, w, n, answer);
    StillMatches(s, S.Hearing(s, answer).value, w, Answered(s, w, s.phase.snap, answer), n);
  }

  lemma HeardMatches(s: S.Solo, answer: S.PollAnswer, w: P.World, n: nat) returns (events: seq<P.Event>)
    requires SoloOk(s) && Matches(s, w, n) && S.Hearing(s, answer).Some?
    ensures P.Run(w, events).Some? && Matches(S.Hearing(s, answer).value, P.Run(w, events).value, n)
  {
    if s.phase.over {
      events := CancelledMatches(s, answer, w, n);
    } else {
      events := AnsweredMatches(s, answer, w, n);
    }
  }

  /** The row fails, or nothing changes but what the worker is about. */
  lemma FailOrNothing(s: S.Solo, s': S.Solo, w: P.World, n: nat, id: string) returns (events: seq<P.Event>)
    requires Matches(s, w, n) && Pcs(s.phase, n) == Pcs(s'.phase, n) && !s'.phase.Posting?
    requires s' == s.(jobs := s'.jobs, phase := s'.phase, ticks := s'.ticks)
    requires s'.jobs == s.jobs || s'.jobs == Kept(s.jobs, FailJob(s.jobs, id, s.now))
    ensures P.Run(w, events).Some? && Matches(s', P.Run(w, events).value, n)
  {
    if s'.jobs == s.jobs {
      events := [];
    } else {
      FailingMatches(w, id);
      events := [P.Fail(id)];
    }
    StillMatches(s, s', w, P.Run(w, events).value, n);
  }

  lemma PollMatches(s: S.Solo, e: S.Event, w: P.World, n: nat) returns (events: seq<P.Event>)
    requires SoloOk(s) && Matches(s, w, n) && S.StepPoll(s, e).Some?
    ensures P.Run(w, events).Some? && Matches(S.StepPoll(s, e).value, P.Run(w, events).value, n)
  {
    match e {
      case BeginTick(submitted, running) => events := FailOrNothing(s, S.StepPoll(s, e).value, w, n, "");
      case PollOne(configured) => events := FailOrNothing(s, S.StepPoll(s, e).value, w, n, s.phase.todo[0].id);
      case Heard(answer) => events := HeardMatches(s, answer, w, n);
    }
  }

  // ---------- Submitting ----------

  lemma ClaimMatches(s: S.Solo, w: P.World, n: nat) returns (events: seq<P.Event>)
    requires Matches(s, w, n) && S.Claiming(s).Some?
    ensures P.Run(w, events).Some? && Matches(S.Claiming(s).value, P.Run(w, events).value, n)
  {
    events := [];
    if S.Claiming(s).value.phase.Claimed? {
      events := [P.Claim(0, s.phase.snap.id)];
      RunsOne(w, events[0]);
    }
    StillMatches(s, S.Claiming(s).value, w, P.Run(w, events).value, n);
  }

  lemma OneMorePost(posts: map<nat, P.Post>, n: nat, id: string, j: string)
    requires Numbered(posts, n)
    ensures |PostsOf(posts[n := P.Post(id, P.Open)], j)| == |PostsOf(posts, j)| + (if j == id then 1 else 0)
  {
    var after := posts[n := P.Post(id, P.Open)];
    if j == id {
      assert PostsOf(after, j) == PostsOf(posts, j) + {n};
    } else {
      assert PostsOf(after, j) == PostsOf(posts, j);
    }
  }

  function WithPost(w: P.World, n: nat, id: string): P.World {
    w.(posts := w.posts[n := P.Post(id, P.Open)], pcs := map[0 := P.Posting(id, n)])
  }

  lemma SendStep(w: P.World, n: nat, id: string)
    requires w.pcs == map[0 := P.Claimed(id)] && Numbered(w.posts, n)
    ensures P.Step(w, P.Send(0, n)) == Some(WithPost(w, n, id))
  {
    assert w.pcs[0 := P.Posting(id, n)] == WithPost(w, n, id).pcs;
  }

  /** A message of its own for the POST. */
  lemma SendMatches(s: S.Solo, w: P.World, n: nat) returns (events: seq<P.Event>)
    requires Matches(s, w, n) && S.Sending(s, true).Some?
    ensures P.Run(w, events).Some? && Matches(S.Sending(s, true).value, P.Run(w, events).value, n + 1)
  {
    var s', id := S.Sending(s, true).value, s.phase.snap.id;
    SendStep(w, n, id);
    events := [P.Send(0, n)];
    RunsOne(w, P.Send(0, n));
    forall j
      ensures |PostsOf(WithPost(w, n, id).posts, j)| == S.Posted(s', j)
    {
      OneMorePost(w.posts, n, id, j);
    }
  }

  lemma UnconfiguredMatches(s: S.Solo, w: P.World, n: nat) returns (events: seq<P.Event>)
    requires Matches(s, w, n) && S.Sending(s, false).Some?
    ensures P.Run(w, events).Some? && Matches(S.Sending(s, false).value, P.Run(w, events).value, n)
  {
    events := [P.Unconfigured(0)];
    RunsOne(w, P.Unconfigured(0));
    StillMatches(s, S.Sending(s, false).value, w, P.Run(w, events).value, n);
  }

  /** The worker is done with the job and its row is as the answer left it. */
  ghost predicate Settled(s: S.Solo, w: P.World, w': P.World, n: nat, jobs: Jobs) {
    && w' == w.(t := w.t.(jobs := jobs), pcs := map[0 := P.Idle], posts := w'.posts)
    && Numbered(w'.posts, n) && forall p :: p in w.posts ==> p in w'.posts && w'.posts[p].job == w.posts[p].job
  }

  lemma OrphanMatches(w: P.World, id: string, remoteId: string)
    requires w.pcs == map[0 := P.Orphaning(id, remoteId)]
    ensures P.Step(w, P.Orphan(0, true)) == Some(w.(pcs := map[0 := P.Idle],
      t := w.t.(jobs := Kept(w.t.jobs, OrphanSubmission(w.t.jobs, id, remoteId, w.clock)))))
  {
    assert w.pcs[0 := P.Idle] == map[0 := P.Idle];
  }

  /** The tables and the worker's place, after a store call of a submission. */
  function At(w: P.World, jobs: Jobs, pc: P.Pc): P.World {
    w.(t := w.t.(jobs := jobs), pcs := map[0 := pc])
  }

  lemma TakeStep(w: P.World, n: nat, id: string, remoteId: string)
    requires n > 0 && n - 1 in w.posts && w.posts[n - 1] == P.Post(id, P.Open) && remoteId != ""
    ensures P.Step(w, P.Take(n - 1, remoteId)) == Some(w.(posts := w.posts[n - 1 := P.Post(id, P.Taken(remoteId))]))
  {
  }

  lemma HearStep(w: P.World, n: nat, id: string, remoteId: string)
    requires n > 0 && n - 1 in w.posts && w.posts[n - 1] == P.Post(id, P.Taken(remoteId))
    requires w.pcs == map[0 := P.Posting(id, n - 1)]
    ensures P.Step(w, P.HearId(0)) == Some(At(w, w.t.jobs, P.Accepted(id, remoteId)))
  {
    assert w.pcs[0 := P.Accepted(id, remoteId)] == map[0 := P.Accepted(id, remoteId)];
  }

  /** Recording the id, or filing it with a row that moved on. */
  lemma RecordSteps(w: P.World, id: string, remoteId: string) returns (events: seq<P.Event>)
    requires w.pcs == map[0 := P.Accepted(id, remoteId)]
    ensures P.Run(w, events) == Some(At(w, S.RecordAnswer(w.t.jobs, id, S.Id(remoteId), w.clock), P.Idle))
  {
    RunsOne(w, P.Record(0, true));
    events := [P.Record(0, true)];
    var w1 := P.Step(w, P.Record(0, true)).value;
    if TransitionJob(w.t.jobs, id, Submitting, Submitted, Assignments(Some(remoteId), Some(0), None), w.clock).Err? {
      assert w1.pcs == map[0 := P.Orphaning(id, remoteId)];
      OrphanMatches(w1, id, remoteId);
      ThenOne(w, events, P.Orphan(0, true));
      events := events + [P.Orphan(0, true)];
    } else {
      assert w1.pcs == map[0 := P.Idle];
    }
  }

  /** The remote takes the POST, its id is heard and recorded, or filed with a row that moved on. */
  lemma IdMatches(s: S.Solo, w: P.World, n: nat, remoteId: string) returns (events: seq<P.Event>)
    requires Matches(s, w, n) && s.phase.Posting? && remoteId != ""
    ensures P.Run(w, events).Some?
    ensures Settled(s, w, P.Run(w, events).value, n, S.RecordAnswer(s.jobs, s.phase.snap.id, S.Id(remoteId), s.now))
  {
    var id := s.phase.snap.id;
    var w1 := w.(posts := w.posts[n - 1 := P.Post(id, P.Taken(remoteId))]);
    TakeStep(w, n, id, remoteId);
    HearStep(w1, n, id, remoteId);
    RunsOne(w, P.Take(n - 1, remoteId));
    ThenOne(w, [P.Take(n - 1, remoteId)], P.HearId(0));
    events := [P.Take(n - 1, remoteId)] + [P.HearId(0)];
    var rest := RecordSteps(At(w1, w1.t.jobs, P.Accepted(id, remoteId)), id, remoteId);
    RunJoins(w, events, rest);
    events := events + rest;
  }

  lemma DeclineStep(w: P.World, n: nat, id: string)
    requires n > 0 && n - 1 in w.posts && w.posts[n - 1] == P.Post(id, P.Open)
    ensures P.Step(w, P.Decline(n - 1)) == Some(w.(posts := w.posts[n - 1 := P.Post(id, P.Declined)]))
  {
  }

  lemma HearRefusalStep(w: P.World, n: nat, id: string, e: CallError)
    requires n > 0 && n - 1 in w.posts && w.posts[n - 1] == P.Post(id, P.Declined) && IsRetryableSubmit(e)
    requires w.pcs == map[0 := P.Posting(id, n - 1)]
    ensures P.Step(w, P.HearError(0, e)) == Some(At(w, w.t.jobs, P.Refused(id)))
  {
    assert w.pcs[0 := P.Refused(id)] == map[0 := P.Refused(id)];
  }

  lemma CountStep(w: P.World, id: string)
    requires w.pcs == map[0 := P.Refused(id)]
    ensures P.Step(w, P.Count(0, true)) == Some(
      if id in w.t.jobs then At(w, BumpRetries(w.t.jobs, id, w.clock).value.0, P.Counted(id)) else At(w, w.t.jobs, P.Idle))
  {
    assert w.pcs[0 := P.Counted(id)] == map[0 := P.Counted(id)];
    assert w.pcs[0 := P.Idle] == map[0 := P.Idle];
  }

  /** A counted refusal goes back to the queue; a row that moved on is failed. */
  lemma RequeueSteps(w: P.World, id: string) returns (events: seq<P.Event>)
    requires w.pcs == map[0 := P.Counted(id)]
    ensures P.Run(w, events) == Some(At(w,
      match TransitionJob(w.t.jobs, id, Submitting, Queued, NOTHING, w.clock)
      case Ok(after) => after
      case Err(_) => Kept(w.t.jobs, OrphanSubmission(w.t.jobs, id, "", w.clock)), P.Idle))
  {
    RunsOne(w, P.Requeue(0, true));
    events := [P.Requeue(0, true)];
    var w1 := P.Step(w, P.Requeue(0, true)).value;
    if TransitionJob(w.t.jobs, id, Submitting, Queued, NOTHING, w.clock).Err? {
      assert w1.pcs == map[0 := P.Orphaning(id, "")];
      OrphanMatches(w1, id, "");
      ThenOne(w, events, P.Orphan(0, true));
      events := events + [P.Orphan(0, true)];
    } else {
      assert w1.pcs == map[0 := P.Idle];
    }
  }

  /** From a heard refusal on. */
  lemma CountSteps(w: P.World, id: string, e: CallError) returns (events: seq<P.Event>)
    requires w.pcs == map[0 := P.Refused(id)] && IsRetryableSubmit(e)
    ensures P.Run(w, events) == Some(At(w, S.Refuse(w.t.jobs, id, e, w.clock), P.Idle))
  {
    CountStep(w, id);
    RunsOne(w, P.Count(0, true));
    events := [P.Count(0, true)];
    if id in w.t.jobs {
      var rest := RequeueSteps(At(w, BumpRetries(w.t.jobs, id, w.clock).value.0, P.Counted(id)), id);
      RunJoins(w, events, rest);
      events := events + rest;
    }
  }

  /** The remote declines the POST; the refusal is counted and the row goes back to the queue. */
  lemma RefusalMatches(s: S.Solo, w: P.World, n: nat, e: CallError) returns (events: seq<P.Event>)
    requires Matches(s, w, n) && s.phase.Posting? && IsRetryableSubmit(e)
    ensures P.Run(w, events).Some?
    ensures Settled(s, w, P.Run(w, events).value, n, S.Refuse(s.jobs, s.phase.snap.id, e, s.now))
  {
    var id := s.phase.snap.id;
    var w1 := w.(posts := w.posts[n - 1 := P.Post(id, P.Declined)]);
    DeclineStep(w, n, id);
    HearRefusalStep(w1, n, id, e);
    RunsOne(w, P.Decline(n - 1));
    ThenOne(w, [P.Decline(n - 1)], P.HearError(0, e));
    events := [P.Decline(n - 1)] + [P.HearError(0, e)];
    var rest := CountSteps(At(w1, w1.t.jobs, P.Refused(id)), id, e);
    RunJoins(w, events, rest);
    events := events + rest;
  }

  /** Any other error may hide a POST that was taken: the submission ends there. */
  lemma LossMatches(s: S.Solo, w: P.World, n: nat, e: CallError) returns (events: seq<P.Event>)
    requires Matches(s, w, n) && s.phase.Posting? && !IsRetryableSubmit(e)
    ensures P.Run(w, events).Some?
    ensures Settled(s, w, P.Run(w, events).value, n, S.Refuse(s.jobs, s.phase.snap.id, e, s.now))
  {
    events := [P.HearError(0, e)];
    RunsOne(w, P.HearError(0, e));
    OrphanMatches(P.Run(w, events).value, s.phase.snap.id, "");
    ThenOne(w, events, P.Orphan(0, true));
    events := events + [P.Orphan(0, true)];
  }

  lemma SettledMatches(s: S.Solo, s': S.Solo, w: P.World, w': P.World, n: nat)
    requires Matches(s, w, n) && s.phase.Posting? && s' == s.(jobs := s'.jobs, phase := s'.phase) && s'.phase.Draining?
    requires Settled(s, w, w', n, s'.jobs)
    ensures Matches(s', w', n)
  {
    forall id
      ensures |PostsOf(w'.posts, id)| == S.Posted(s', id)
    {
      assert |PostsOf(w.posts, id)| == S.Posted(s, id);
      assert PostsOf(w'.posts, id) == PostsOf(w.posts, id);
    }
  }

  lemma AnswerMatches(s: S.Solo, answer: S.SubmitAnswer, w: P.World, n: nat) returns (events: seq<P.Event>)
    requires Matches(s, w, n) && S.Answering(s, answer).Some?
    ensures P.Run(w, events).Some? && Matches(S.Answering(s, answer).value, P.Run(w, events).value, n)
  {
    match answer {
      case Id(remoteId) => events := IdMatches(s, w, n, remoteId);
      case Error(e) =>
        if IsRetryableSubmit(e) {
          events := RefusalMatches(s, w, n, e);
        } else {
          events := LossMatches(s, w, n, e);
        }
    }
    SettledMatches(s, S.Answering(s, answer).value, w, P.Run(w, events).value, n);
  }

  lemma SubmitMatches(s: S.Solo, e: S.Event, w: P.World, n: nat) returns (events: seq<P.Event>, n': nat)
    requires SoloOk(s) && Matches(s, w, n) && S.StepSubmit(s, e).Some?
    ensures P.Run(w, events).Some? && Matches(S.StepSubmit(s, e).value, P.Run(w, events).value, n')
  {
    n' := n;
    match e {
      case BeginSubmit(_, _, _) => events := FailOrNothing(s, S.StepSubmit(s, e).value, w, n, "");
      case SubmitOne => events := FailOrNothing(s, S.StepSubmit(s, e).value, w, n, s.phase.todo[0].id);
      case Claim => events := ClaimMatches(s, w, n);
      case Send(configured) =>
        if configured {
          events := SendMatches(s, w, n);
          n' := n + 1;
        } else {
          events := UnconfiguredMatches(s, w, n);
        }
      case Answer(answer) => events := AnswerMatches(s, answer, w, n);
      case EndTick => events := FailOrNothing(s, S.StepSubmit(s, e).value, w, n, "");
    }
  }

  // ---------- Every run ----------

  /** Every step of the worker is matched by steps of the protocol. */
  lemma StepMatches(s: S.Solo, e: S.Event, w: P.World, n: nat) returns (events: seq<P.Event>, n': nat)
    requires SoloOk(s) && Matches(s, w, n) && S.Step(s, e).Some?
    ensures P.Run(w, events).Some? && Matches(S.Step(s, e).value, P.Run(w, events).value, n')
  {
    n' := n;
    if S.StepOutside(s, e).Some? {
      events := OutsideMatches(s, e, w, n);
    } else if S.StepPoll(s, e).Some? {
      events := PollMatches(s, e, w, n);
    } else {
      events, n' := SubmitMatches(s, e, w, n);
    }
  }

  lemma {:induction false} RunMatches(s: S.Solo, run: seq<S.Event>, w: P.World, n: nat) returns (events: seq<P.Event>, n': nat)
    requires SoloOk(s) && Matches(s, w, n) && S.Run(s, run).Some?
    ensures P.Run(w, events).Some? && Matches(S.Run(s, run).value, P.Run(w, events).value, n')
    decreases |run|
  {
    if run == [] {
      events, n' := [], n;
    } else {
      var first, n1 := StepMatches(s, run[0], w, n);
      StepKeepsSolo(s, run[0]);
      var rest, n2 := RunMatches(S.Step(s, run[0]).value, run[1..], P.Run(w, first).value, n1);
      RunJoins(w, first, rest);
      events, n' := first + rest, n2;
    }
  }

  lemma StartMatches(limit: nat)
    ensures Matches(S.Start(limit), P.EMPTY, 0)
  {
    var s := S.Start(limit);
    forall id
      ensures |PostsOf(P.EMPTY.posts, id)| == S.Posted(s, id)
    {
      assert PostsOf(P.EMPTY.posts, id) == {};
    }
    assert Numbered(P.EMPTY.posts, 0);
    assert P.EMPTY.pcs == Pcs(s.phase, 0);
    assert Counted(s, P.EMPTY.posts);
  }

  /** Every run of the single worker is a run of the protocol, on the same tables, with a message for every POST. */
  lemma WorkerRefinesProtocol(limit: nat, run: seq<S.Event>) returns (events: seq<P.Event>)
    requires S.Run(S.Start(limit), run).Some?
    ensures P.Run(P.EMPTY, events).Some?
    ensures var s, w := S.Run(S.Start(limit), run).value, P.Run(P.EMPTY, events).value;
      && w.t.jobs == s.jobs && w.t.songs == s.songs && w.used == s.used && w.clock == s.now
      && forall id :: |PostsOf(w.posts, id)| == S.Posted(s, id)
  {
    StartMatches(limit);
    var n: nat;
    events, n := RunMatches(S.Start(limit), run, P.EMPTY, 0);
  }

  /** A job's one song, with the job's owner. */
  predicate TheSong(songs: Songs, id: string, userId: string, song: string) {
    song in songs && songs[song].userId == userId && forall k :: k in songs ==> (songs[k].jobId == id <==> k == song)
  }

  /** So in every run of the single worker a succeeded row has exactly one song, its owner's. */
  lemma SucceededHasOneSong(limit: nat, run: seq<S.Event>, id: string) returns (song: string)
    requires S.Run(S.Start(limit), run).Some?
    requires var s := S.Run(S.Start(limit), run).value; id in s.jobs && s.jobs[id].state == Succeeded
    ensures var s := S.Run(S.Start(limit), run).value; TheSong(s.songs, id, s.jobs[id].userId, song)
  {
    var events := WorkerRefinesProtocol(limit, run);
    song := JobSongs.SucceededHasOneSong(events, id);
    var t := P.Run(P.EMPTY, events).value.t;
    assert song in JobSongs.SongsFor(t, id);
    assert forall k :: k in t.songs && t.songs[k].jobId == id ==> k in JobSongs.SongsFor(t, id);
  }
}
