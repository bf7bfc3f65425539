/**
  How one worker's rows change over time: they keep their identity and their
  start, terminal rows stay as they are, and only a recorded submission makes a
  row active, so the jobs in flight never exceed the limit.
*/
module SoloHistory {
  import opened Prelude
  import opened StoreTables
  import opened Runpod
  import opened Budgets
  import opened StorePages
  import opened SoloWorker
  import opened SoloSafety
  import RowOutcomes

  // ---------- One step on one row ----------

  predicate RowMove(a: Job, b: Job) {
    && SameIdentity(a, b)
    && (a.startedAt.Some? ==> b.startedAt == a.startedAt)
    && (Terminal(a.state) ==> b.state == a.state)
    && (Active(b.state) ==> Active(a.state) || a.state == Submitting)
    && (b.state == Queued || b.state == Submitting ==> a.state == Queued || a.state == Submitting)
  }

  /** Rows move, go, or are created now under a new id. */
  ghost predicate Evolves(s: Solo, s': Solo) {
    && s.used <= s'.used && s.now <= s'.now && s.ticks <= s'.ticks
    && forall id :: id in s'.jobs ==>
         if id in s.jobs then RowMove(s.jobs[id], s'.jobs[id])
         else id !in s.used && s'.jobs[id].state == Queued && s'.jobs[id].createdAt == s'.now
  }

  /** None is active that was not. */
  ghost predicate NoneNew(jobs: Jobs, jobs': Jobs) {
    forall id :: id in jobs' && Active(jobs'[id].state) ==> id in jobs && Active(jobs[id].state)
  }

  lemma OneRowEvolves(s: Solo, s': Solo, id: string)
    requires s'.used == s.used && s'.now == s.now && s.ticks <= s'.ticks && OnlyRow(s.jobs, s'.jobs, id)
    requires id in s.jobs ==> RowMove(s.jobs[id], s'.jobs[id])
    ensures Evolves(s, s')
    ensures (id in s.jobs && Active(s'.jobs[id].state) ==> Active(s.jobs[id].state)) ==> NoneNew(s.jobs, s'.jobs)
  {
  }

  lemma SameRowsEvolve(s: Solo, s': Solo)
    requires s'.used == s.used && s.now <= s'.now && s.ticks <= s'.ticks && s'.jobs == s.jobs
    ensures Evolves(s, s') && NoneNew(s.jobs, s'.jobs)
  {
  }

  lemma FailingEvolves(s: Solo, s': Solo, id: string)
    requires s'.used == s.used && s'.now == s.now && s'.ticks == s.ticks
    requires s'.jobs == Kept(s.jobs, FailJob(s.jobs, id, s.now))
    ensures Evolves(s, s') && OnlyRow(s.jobs, s'.jobs, id) && NoneNew(s.jobs, s'.jobs)
  {
    OneRowEvolves(s, s', id);
  }

  lemma HandlersEvolve(s: Solo, e: Event)
    requires SoloOk(s) && (e.Create? || e.Delete?) && StepOutside(s, e).Some?
    ensures Evolves(s, StepOutside(s, e).value) && NoneNew(s.jobs, StepOutside(s, e).value.jobs)
  {
  }

  lemma RecoveryEvolves(s: Solo, id: string)
    requires SoloOk(s) && StepOutside(s, Recover(id)).Some?
    ensures Evolves(s, StepOutside(s, Recover(id)).value) && NoneNew(s.jobs, StepOutside(s, Recover(id)).value.jobs)
  {
    OneRowEvolves(s, StepOutside(s, Recover(id)).value, id);
  }

  lemma OutsideEvolves(s: Solo, e: Event)
    requires SoloOk(s) && StepOutside(s, e).Some?
    ensures Evolves(s, StepOutside(s, e).value) && NoneNew(s.jobs, StepOutside(s, e).value.jobs)
  {
    if e.Create? || e.Delete? {
      HandlersEvolve(s, e);
    } else if e.Recover? {
      RecoveryEvolves(s, e.id);
    } else if e.FailStale? {
      FailingEvolves(s, StepOutside(s, e).value, e.id);
    } else {
      SameRowsEvolve(s, StepOutside(s, e).value);
    }
  }

  lemma LookEvolves(s: Solo, configured: bool)
    requires Looking(s, configured).Some?
    ensures Evolves(s, Looking(s, configured).value) && NoneNew(s.jobs, Looking(s, configured).value.jobs)
  {
    var s', snap := Looking(s, configured).value, s.phase.todo[0];
    if LookAt(snap.job, configured, s.now) == FailNow {
      FailingEvolves(s, s', snap.id);
    } else {
      SameRowsEvolve(s, s');
    }
  }

  /** What is heard changes at most the row it is about. */
  lemma HeardEvolves(s: Solo, answer: PollAnswer)
    requires SoloOk(s) && Hearing(s, answer).Some?
    ensures Evolves(s, Hearing(s, answer).value) && NoneNew(s.jobs, Hearing(s, answer).value.jobs)
  {
    var s', snap := Hearing(s, answer).value, s.phase.snap;
    if s.phase.over {
      FailingEvolves(s, s', snap.id);
    } else if snap.id in s.jobs {
      StampIsInTime(s, answer);
      StatusMoves(s.jobs, s.songs, snap, answer, s.now);
      OneRowEvolves(s, s', snap.id);
    } else {
      GoneStaysGone(s.jobs, s.songs, snap, answer, s.now);
      SameRowsEvolve(s, s');
    }
  }

  lemma PollEvolves(s: Solo, e: Event)
    requires SoloOk(s) && StepPoll(s, e).Some?
    ensures var s' := StepPoll(s, e).value;
      Evolves(s, s') && NoneNew(s.jobs, s'.jobs) && s'.used == s.used && s'.ticks == s.ticks && s'.limit == s.limit
        && (s'.phase.Polling? || s'.phase.Calling?)
  {
    match e {
      case BeginTick(submitted, running) => SameRowsEvolve(s, StepPoll(s, e).value);
      case PollOne(configured) => LookEvolves(s, configured);
      case Heard(answer) => HeardEvolves(s, answer);
    }
  }

  lemma AnswerEvolves(s: Solo, answer: SubmitAnswer)
    requires SoloOk(s) && Answering(s, answer).Some?
    ensures Evolves(s, Answering(s, answer).value)
    ensures OnlyRow(s.jobs, Answering(s, answer).value.jobs, s.phase.snap.id)
  {
    var s', snap := Answering(s, answer).value, s.phase.snap;
    if snap.id in s.jobs {
      AnswerMoves(s.jobs, snap.id, answer, s.now);
    } else {
      AnswerToNothing(s.jobs, snap.id, answer, s.now);
    }
    OneRowEvolves(s, s', snap.id);
  }

  lemma SubmitOneEvolves(s: Solo)
    requires SubmittingOne(s).Some?
    ensures Evolves(s, SubmittingOne(s).value) && NoneNew(s.jobs, SubmittingOne(s).value.jobs)
  {
    var s', snap := SubmittingOne(s).value, s.phase.todo[0];
    if Decide(snap.job, s.now) == GiveUp {
      FailingEvolves(s, s', snap.id);
    } else {
      SameRowsEvolve(s, s');
    }
  }

  lemma ClaimEvolves(s: Solo)
    requires SoloOk(s) && Claiming(s).Some?
    ensures Evolves(s, Claiming(s).value) && NoneNew(s.jobs, Claiming(s).value.jobs)
    ensures OnlyRow(s.jobs, Claiming(s).value.jobs, s.phase.snap.id)
  {
    OneRowEvolves(s, Claiming(s).value, s.phase.snap.id);
  }

  lemma SendEvolves(s: Solo, configured: bool)
    requires Sending(s, configured).Some?
    ensures Evolves(s, Sending(s, configured).value) && NoneNew(s.jobs, Sending(s, configured).value.jobs)
    ensures OnlyRow(s.jobs, Sending(s, configured).value.jobs, s.phase.snap.id)
  {
    if configured {
      SameRowsEvolve(s, Sending(s, configured).value);
    } else {
      FailingEvolves(s, Sending(s, configured).value, s.phase.snap.id);
    }
  }

  lemma SubmitEvolves(s: Solo, e: Event)
    requires SoloOk(s) && StepSubmit(s, e).Some?
    ensures Evolves(s, StepSubmit(s, e).value)
  {
    match e {
      case SubmitOne => SubmitOneEvolves(s);
      case Answer(answer) => AnswerEvolves(s, answer);
      case Claim => ClaimEvolves(s);
      case Send(configured) => SendEvolves(s, configured);
      case BeginSubmit(submitted, running, queued) =>
        SameRowsEvolve(s, Choosing(s, submitted, running, queued).value);
      case EndTick => SameRowsEvolve(s, StepSubmit(s, e).value);
    }
  }

  lemma StepEvolves(s: Solo, e: Event)
    requires SoloOk(s) && Step(s, e).Some?
    ensures Evolves(s, Step(s, e).value)
  {
    if StepOutside(s, e).Some? {
      OutsideEvolves(s, e);
    } else if StepPoll(s, e).Some? {
      PollEvolves(s, e);
    } else {
      SubmitEvolves(s, e);
    }
  }

  /** Over every run: a start once recorded is never rewritten, and a terminal state never changes. */
  lemma {:induction false} StartedOnce(s: Solo, events: seq<Event>, id: string)
    requires SoloOk(s) && Run(s, events).Some? && id in s.used && id in Run(s, events).value.jobs
    ensures id in s.jobs
    ensures var a, b := s.jobs[id], Run(s, events).value.jobs[id];
      && SameIdentity(a, b)
      && (a.startedAt.Some? ==> b.startedAt == a.startedAt)
      && (Terminal(a.state) ==> b.state == a.state)
    decreases |events|
  {
    if events != [] {
      StepEvolves(s, events[0]);
      StepKeepsSolo(s, events[0]);
      StartedOnce(Step(s, events[0]).value, events[1..], id);
    }
  }

  // ---------- What polls come to ----------

  /**
    A poll marks a job succeeded exactly when its output could be read and it now
    has its song, filed under its owner; any progress clears its failures.
  */
  lemma PollOutcome(s: Solo, answer: PollAnswer)
    requires SoloOk(s) && Hearing(s, answer).Some? && s.phase.snap.id in s.jobs && !s.phase.over
    ensures var id, s' := s.phase.snap.id, Hearing(s, answer).value;
      && id in s'.jobs
      && RowOutcomes.Answered(s.jobs[id], HasSong(s.songs, id), answer, s.now, s'.jobs[id])
      && (s'.jobs[id].state == Succeeded <==>
           answer.RemoteCompleted? && !answer.output.Unreadable? && HasSong(s'.songs, id))
      && (HasSong(s'.songs, id) <==> HasSong(s.songs, id) || (answer.RemoteCompleted? && answer.output.Encoded?))
      && (s'.songs == if answer.RemoteCompleted? && answer.output.Encoded? && !HasSong(s.songs, id)
                      then s.songs[answer.output.songId := Song(id, OrElse(s.jobs[id].userId, "legacy"), answer.output.path)]
                      else s.songs)
      && (answer.InQueue? || answer.InProgress? ==> Active(s'.jobs[id].state) && s'.jobs[id].retries == 0)
      && (answer.InProgress? ==> s'.jobs[id].state == Running && s'.jobs[id].startedAt.Some?)
  {
    var snap, s' := s.phase.snap, Hearing(s, answer).value;
    RowOutcomes.StatusIsApplied(s.jobs, s.songs, snap, answer, s.now);
    assert forall k :: k in s.songs ==> k in s'.songs && s'.songs[k] == s.songs[k];
    if answer.RemoteCompleted? {
      CompletionOutcome(s.jobs, s.songs, snap, answer.output, s.now);
      if answer.output.Encoded? && !HasSong(s.songs, snap.id) {
        assert s'.songs[answer.output.songId].jobId == snap.id;
      }
    }
  }

  lemma CompletionOutcome(jobs: Jobs, songs: Songs, snap: Snap, output: Completion, now: int)
    requires snap.id in jobs && jobs[snap.id] == snap.job && Active(snap.job.state)
    ensures var after := ApplyCompletion(jobs, songs, snap, snap.job.state, output, now);
      && snap.id in after
      && (after[snap.id].state == Succeeded <==> !output.Unreadable? && (HasSong(songs, snap.id) || output.Encoded?))
  {
  }

  /** What went wrong with a poll: the call, or storing the finished song. */
  datatype Failure = CallFailure | SongFailure

  function Cap(f: Failure): nat {
    match f
    case CallFailure => MAX_TRANSIENT
    case SongFailure => MAX_STORE_RETRIES
  }

  /** The rows after these failures of one job in a row. */
  function AfterFailures(jobs: Jobs, id: string, failures: seq<Failure>, now: int): Jobs
    decreases |failures|
  {
    if failures == [] then jobs
    else
      var n := |failures| - 1;
      CountFailure(AfterFailures(jobs, id, failures[..n], now), id, Cap(failures[n]), now)
  }

  /** Some failure comes at or after the position that is its kind's cap. */
  predicate ReachesACap(failures: seq<Failure>) {
    exists i :: 0 <= i < |failures| && i + 1 >= Cap(failures[i])
  }

  lemma LastReachesACap(failures: seq<Failure>, n: nat)
    requires |failures| == n + 1
    ensures ReachesACap(failures) <==> ReachesACap(failures[..n]) || n + 1 >= Cap(failures[n])
  {
    assert forall i :: 0 <= i < n ==> failures[..n][i] == failures[i];
  }

  lemma CountsOne(jobs: Jobs, id: string, cap: nat, now: int)
    requires id in jobs
    ensures var after := CountFailure(jobs, id, cap, now);
      && id in after && after[id].retries == jobs[id].retries + 1
      && after[id].state == if jobs[id].retries + 1 >= cap && !Terminal(jobs[id].state) then Failed else jobs[id].state
  {
  }

  /** Both kinds count on one counter, so a job fails exactly when some failure reaches the cap of its kind. */
  lemma {:induction false} FailuresEndAtTheCap(jobs: Jobs, id: string, failures: seq<Failure>, now: int)
    requires id in jobs && Active(jobs[id].state) && jobs[id].retries == 0
    ensures var after := AfterFailures(jobs, id, failures, now);
      && id in after && after[id].retries == |failures|
      && after[id].state == if ReachesACap(failures) then Failed else jobs[id].state
    decreases |failures|
  {
    if failures != [] {
      var n := |failures| - 1;
      FailuresEndAtTheCap(jobs, id, failures[..n], now);
      CountsOne(AfterFailures(jobs, id, failures[..n], now), id, Cap(failures[n]), now);
      LastReachesACap(failures, n);
    }
  }

  // ---------- Jobs in flight ----------

  function InFlight(jobs: Jobs): set<string> {
    set id | id in jobs && Active(jobs[id].state)
  }

  /** Jobs the worker may still make active in this tick. */
  function Pending(phase: Phase): nat {
    if phase.Draining? then |phase.todo|
    else if Submits(phase) then |phase.todo| + 1
    else 0
  }

  ghost predicate Capped(s: Solo) {
    |InFlight(s.jobs)| + Pending(s.phase) <= s.limit
  }

  lemma InFlightIsBoth(jobs: Jobs)
    ensures |InFlight(jobs)| == |InState(jobs, Submitted)| + |InState(jobs, Running)|
  {
    assert InFlight(jobs) == InState(jobs, Submitted) + InState(jobs, Running);
    assert InState(jobs, Submitted) !! InState(jobs, Running);
  }

  /** The worker's count of active jobs is right exactly when neither state has more rows than one scan returns. */
  lemma ScanIsExact(jobs: Jobs, submitted: seq<string>, running: seq<string>)
    requires Scanned(jobs, submitted, running)
    ensures |submitted + running| == |InFlight(jobs)|
      <==> |InState(jobs, Submitted)| <= SCAN_LIMIT && |InState(jobs, Running)| <= SCAN_LIMIT
  {
    PageCounts(jobs, Submitted, SCAN_LIMIT, submitted);
    PageCounts(jobs, Running, SCAN_LIMIT, running);
    InFlightIsBoth(jobs);
  }

  lemma FewerIsCapped(s: Solo, s': Solo)
    requires Capped(s) && NoneNew(s.jobs, s'.jobs) && Pending(s'.phase) <= Pending(s.phase) && s'.limit == s.limit
    ensures Capped(s')
  {
    Fewer(InFlight(s'.jobs), InFlight(s.jobs));
  }

  lemma ChoosingIsCapped(s: Solo, submitted: seq<string>, running: seq<string>, queued: seq<string>)
    requires Capped(s) && s.limit <= SCAN_LIMIT && Choosing(s, submitted, running, queued).Some?
    ensures Capped(Choosing(s, submitted, running, queued).value)
  {
    InFlightIsBoth(s.jobs);
    ScanIsExact(s.jobs, submitted, running);
  }

  lemma AnswerIsCapped(s: Solo, answer: SubmitAnswer)
    requires SoloOk(s) && Capped(s) && Answering(s, answer).Some?
    ensures Capped(Answering(s, answer).value)
  {
    var s' := Answering(s, answer).value;
    AnswerEvolves(s, answer);
    assert InFlight(s'.jobs) <= InFlight(s.jobs) + {s.phase.snap.id};
    Fewer(InFlight(s'.jobs), InFlight(s.jobs) + {s.phase.snap.id});
  }

  lemma SubmitIsCapped(s: Solo, e: Event)
    requires SoloOk(s) && Capped(s) && s.limit <= SCAN_LIMIT && StepSubmit(s, e).Some?
    ensures Capped(StepSubmit(s, e).value)
  {
    match e {
      case BeginSubmit(submitted, running, queued) => ChoosingIsCapped(s, submitted, running, queued);
      case SubmitOne =>
        SubmitOneEvolves(s);
        FewerIsCapped(s, StepSubmit(s, e).value);
      case Claim =>
        ClaimEvolves(s);
        FewerIsCapped(s, StepSubmit(s, e).value);
      case Send(configured) =>
        SendEvolves(s, configured);
        FewerIsCapped(s, StepSubmit(s, e).value);
      case Answer(answer) => AnswerIsCapped(s, answer);
      case EndTick =>
    }
  }

  lemma StepIsCapped(s: Solo, e: Event)
    requires SoloOk(s) && Capped(s) && s.limit <= SCAN_LIMIT && Step(s, e).Some?
    ensures Capped(Step(s, e).value) && Step(s, e).value.limit == s.limit
  {
    if StepOutside(s, e).Some? {
      OutsideEvolves(s, e);
      FewerIsCapped(s, Step(s, e).value);
    } else if StepPoll(s, e).Some? {
      PollEvolves(s, e);
      FewerIsCapped(s, Step(s, e).value);
    } else {
      SubmitIsCapped(s, e);
    }
  }

  lemma {:induction false} RunIsCapped(s: Solo, events: seq<Event>)
    requires SoloOk(s) && Capped(s) && s.limit <= SCAN_LIMIT && Run(s, events).Some?
    ensures Capped(Run(s, events).value) && Run(s, events).value.limit == s.limit
    decreases |events|
  {
    if events != [] {
      StepIsCapped(s, events[0]);
      StepKeepsSolo(s, events[0]);
      RunIsCapped(Step(s, events[0]).value, events[1..]);
    }
  }

  /** In every run with a limit of at most a hundred, the jobs in flight never exceed it. */
  lemma InFlightStaysUnderTheLimit(limit: nat, events: seq<Event>)
    requires limit <= 100 && Run(Start(limit), events).Some?
    ensures |InFlight(Run(Start(limit), events).value.jobs)| <= limit
  {
    RunIsCapped(Start(limit), events);
  }
}
