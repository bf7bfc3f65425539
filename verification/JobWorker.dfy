/**
  The worker's methods as the program runs them, on the store it shares with
  the handlers. What the remote answers, and what the clock reads at each call,
  are parameters. Each method is proved to leave the tables as functions of
  SoloWorker say, and each pass, a whole tick and a restart to be runs of that
  machine: the method has the store to itself, the machine lets everything else
  happen in between.
*/
module JobWorker {
  import opened Prelude
  import opened Runpod
  import opened Budgets
  import opened StorePages
  import opened RowOutcomes
  import T = StoreTables
  import S = SoloWorker
  import StoreClass

  /** A poll's answer, when its budget and cadence were tested and when the call came back. */
  datatype PollWord = PollWord(configured: bool, answer: S.PollAnswer, asked: int, heard: int)

  /** A submission's answer, when its budget and backoff were tested, when it was claimed, when the POST came back. */
  datatype PostWord = PostWord(configured: bool, answer: S.SubmitAnswer, tested: int, claimed: int, answered: int)

  datatype Rows = Rows(jobs: T.Jobs, songs: T.Songs)

  class Worker {
    const st: StoreClass.Store
    const maxInFlight: nat

    constructor (st: StoreClass.Store, maxInFlight: nat)
      ensures this.st == st && this.maxInFlight == maxInFlight
    {
      this.st, this.maxInFlight := st, maxInFlight;
    }

    // ---------- Failing ----------

    method Fail(id: string, now: int)
      modifies st`jobs
      ensures st.jobs == T.Kept(old(st.jobs), T.FailJob(old(st.jobs), id, now))
    {
      var _ := st.FailJob(id, now);
    }

    method Transition(id: string, from: T.JobState, to: T.JobState, set_: T.Assignments, now: int)
      modifies st`jobs
      ensures st.jobs == T.Kept(old(st.jobs), T.TransitionJob(old(st.jobs), id, from, to, set_, now))
    {
      var _ := st.TransitionJob(id, from, to, set_, now);
    }

    method Orphan(id: string, remoteId: string, now: int)
      modifies st`jobs
      ensures st.jobs == T.Kept(old(st.jobs), T.OrphanSubmission(old(st.jobs), id, remoteId, now))
    {
      var _ := st.OrphanSubmission(id, remoteId, now);
    }

    /** Counts a transient failure and gives up at the cap. */
    method CountFailure(id: string, cap: nat, now: int)
      modifies st`jobs
      ensures st.jobs == S.CountFailure(old(st.jobs), id, cap, now)
    {
      var n := st.BumpRetries(id, now);
      if n.Ok? && n.value >= cap {
        Fail(id, now);
      }
    }

    // ---------- Submitting ----------

    /** Claims a queued job and posts it, unless it is out of budget or waiting out a refusal. */
    method SubmitOne(snap: T.Snap, word: PostWord)
      modifies st`jobs
      ensures st.jobs == SubmitRow(old(st.jobs), snap, word)
      ensures T.OnlyRow(old(st.jobs), st.jobs, snap.id)
      ensures IsQueued(old(st.jobs), snap) ==> SubmittedAs(snap, word, st.jobs)
      ensures LeftTheQueue(old(st.jobs), snap.id) && !OutOfTime(snap.job, word.tested) ==> st.jobs == old(st.jobs)
    {
      RowIsSubmitted(st.jobs, snap, word);
      if snap.job.remoteId != "" {
        return;
      }
      if Expired(snap.job, word.tested) {
        Fail(snap.id, word.tested);
        return;
      }
      var delay := SubmitDelay(snap.job.retries);
      if word.tested - snap.job.updatedAt < delay {
        return;
      }
      var claimed := st.TransitionJob(snap.id, T.Queued, T.Submitting, T.NOTHING, word.claimed);
      if claimed.Err? {
        return;
      }
      if !word.configured {
        Fail(snap.id, word.claimed);
        return;
      }
      Post(snap.id, word.answer, word.answered);
    }

    /** Records the remote id, or what the refusal means. */
    method Post(id: string, answer: S.SubmitAnswer, now: int)
      modifies st`jobs
      ensures st.jobs == S.RecordAnswer(old(st.jobs), id, answer, now)
      ensures id in old(st.jobs) && old(st.jobs)[id].state == T.Submitting ==>
        id in st.jobs && Recorded(old(st.jobs)[id], answer, now, st.jobs[id])
    {
      AnswerIsRecorded(st.jobs, id, answer, now);
      if answer.Error? {
        ClassifySubmit(id, answer.e, now);
        return;
      }
      var recorded := st.TransitionJob(id, T.Submitting, T.Submitted, T.Assignments(Some(answer.remoteId), Some(0), None), now);
      if recorded.Err? {
        Orphan(id, answer.remoteId, now);
      }
    }

    /** Only an answer that says nothing was enqueued goes back to the queue. */
    method ClassifySubmit(id: string, e: CallError, now: int)
      modifies st`jobs
      ensures st.jobs == S.Refuse(old(st.jobs), id, e, now)
    {
      if IsRetryableSubmit(e) {
        var n := st.BumpRetries(id, now);
        if n.Err? {
          return;
        }
        var requeued := st.TransitionJob(id, T.Submitting, T.Queued, T.NOTHING, now);
        if requeued.Ok? {
          return;
        }
      }
      Orphan(id, "", now);
    }

    // ---------- Polling ----------

    /** One job of the scan: left alone, failed, or asked about. */
    method PollOne(snap: T.Snap, word: PollWord)
      modifies st`jobs, st`songs
      ensures Rows(st.jobs, st.songs) == PollRow(old(Rows(st.jobs, st.songs)), snap, word)
      ensures T.OnlyRow(old(st.jobs), st.jobs, snap.id)
      ensures IsActive(old(st.jobs), snap) ==> PolledAs(snap, T.HasSong(old(st.songs), snap.id), word, st.jobs)
    {
      RowIsPolled(Rows(st.jobs, st.songs), snap, word);
      if snap.job.remoteId == "" {
        return;
      }
      if !word.configured {
        Fail(snap.id, word.asked);
        return;
      }
      if Expired(snap.job, word.asked) {
        Fail(snap.id, word.heard);
        return;
      }
      if word.asked - snap.job.updatedAt < PollDelay(snap.job, word.asked) {
        return;
      }
      ApplyStatus(snap, word.answer, word.heard);
    }

    /** Maps every remote status to exactly one change of the row. */
    method ApplyStatus(snap: T.Snap, answer: S.PollAnswer, now: int)
      modifies st`jobs, st`songs
      ensures st.jobs == S.ApplyStatus(old(st.jobs), old(st.songs), snap, answer, now)
      ensures st.songs == S.SongsAfter(old(st.songs), snap, answer)
      ensures T.OnlyRow(old(st.jobs), st.jobs, snap.id)
      ensures IsActive(old(st.jobs), snap) ==>
        snap.id in st.jobs && Answered(snap.job, T.HasSong(old(st.songs), snap.id), answer, now, st.jobs[snap.id])
    {
      StatusOfRow(Rows(st.jobs, st.songs), snap, answer, now);
      var from := if snap.job.state == T.Running then T.Running else T.Submitted;
      match answer {
        case CallFailed(e) => Classify(snap.id, e, now);
        case InQueue => Transition(snap.id, from, T.Submitted, T.Assignments(None, Some(0), None), now);
        case InProgress =>
          var started := if snap.job.startedAt.None? then Some(now) else None;
          Transition(snap.id, from, T.Running, T.Assignments(None, Some(0), started), now);
        case RemoteCompleted(output) => Complete(snap, from, output, now);
        case _ => Fail(snap.id, now);
      }
    }

    method Classify(id: string, e: CallError, now: int)
      modifies st`jobs
      ensures st.jobs == if IsPermanent(e) then T.Kept(old(st.jobs), T.FailJob(old(st.jobs), id, now))
                         else S.CountFailure(old(st.jobs), id, MAX_TRANSIENT, now)
    {
      if IsPermanent(e) {
        Fail(id, now);
      } else {
        CountFailure(id, MAX_TRANSIENT, now);
      }
    }

    /** Stores a finished job's song first, then marks the row. */
    method Complete(snap: T.Snap, from: T.JobState, output: S.Completion, now: int)
      modifies st`jobs, st`songs
      ensures st.jobs == S.ApplyCompletion(old(st.jobs), old(st.songs), snap, from, output, now)
      ensures st.songs == S.SongsAfter(old(st.songs), snap, S.RemoteCompleted(output))
    {
      if output.Unreadable? {
        Fail(snap.id, now);
        return;
      }
      var stored := Finish(snap, output);
      if stored {
        Transition(snap.id, from, T.Succeeded, T.Assignments(None, Some(0), None), now);
      } else {
        CountFailure(snap.id, MAX_STORE_RETRIES, now);
      }
    }

    /** Whether the job has its song, storing it if need be; one that is there is not stored twice. */
    method Finish(snap: T.Snap, output: S.Completion) returns (ok: bool)
      requires !output.Unreadable?
      modifies st`songs
      ensures ok == (T.HasSong(old(st.songs), snap.id) || output.Encoded?)
      ensures st.songs == S.SongsAfter(old(st.songs), snap, S.RemoteCompleted(output))
    {
      var existing := st.SongForJob(snap.id);
      if existing.Some? {
        return true;
      }
      if output.NotStored? {
        return false;
      }
      st.CreateSong(output.songId, snap.id, snap.job.userId, output.path);
      return true;
    }

    // ---------- Passes ----------

    /** Polls every active job, in the order of the scans. */
    method PollActive(words: string -> PollWord) returns (submitted: seq<T.Snap>, running: seq<T.Snap>)
      modifies st`jobs, st`songs
      ensures ActiveScan(old(st.jobs), submitted, running)
      ensures Rows(st.jobs, st.songs) == PollRows(old(Rows(st.jobs, st.songs)), submitted + running, words)
      ensures forall snap :: snap in submitted + running ==>
        PolledAs(snap, T.HasSong(old(st.songs), snap.id), words(snap.id), st.jobs)
      ensures OnlyRows(old(st.jobs), st.jobs, submitted + running)
    {
      submitted, running := st.ActiveJobs();
      var todo := submitted + running;
      ghost var before := Rows(st.jobs, st.songs);
      for i := 0 to |todo|
        invariant PollRows(before, todo, words) == PollRows(Rows(st.jobs, st.songs), todo[i..], words)
      {
        assert todo[i..][1..] == todo[i + 1..];
        PollOne(todo[i], words(todo[i].id));
      }
      assert todo[|todo|..] == [];
      ScansArePolled(before, submitted, running, words);
    }

    /** Submits from the queue, oldest first, no more jobs than there is room for beside the active ones. */
    method SubmitQueued(words: string -> PostWord)
      returns (submitted: seq<T.Snap>, running: seq<T.Snap>, queued: seq<T.Snap>)
      modifies st`jobs
      ensures Chosen(old(st.jobs), maxInFlight, submitted, running, queued)
      ensures st.jobs == SubmitRows(old(st.jobs), queued, words)
      ensures TurnsTaken(old(st.jobs), maxInFlight - |submitted + running|, queued, words, st.jobs)
    {
      submitted, running := st.ActiveJobs();
      queued := [];
      var budget := maxInFlight - |submitted + running|;
      if budget <= 0 {
        ChosenAreSubmitted(st.jobs, maxInFlight, submitted, running, queued, words);
        return;
      }
      queued := st.DequeueQueued(budget);
      ghost var before := st.jobs;
      for i := 0 to |queued|
        invariant SubmitRows(before, queued, words) == SubmitRows(st.jobs, queued[i..], words)
      {
        assert queued[i..][1..] == queued[i + 1..];
        SubmitOne(queued[i], words(queued[i].id));
      }
      assert queued[|queued|..] == [];
      ChosenAreSubmitted(before, maxInFlight, submitted, running, queued, words);
    }

    // ---------- Restart ----------

    /** Fails every submission the last process left half way, before anything else runs. */
    method FailAmbiguousSubmissions(now: int) returns (rows: seq<T.Snap>)
      modifies st`jobs
      ensures T.IsScan(old(st.jobs), T.Submitting, T.SCAN_LIMIT, rows)
      ensures st.jobs == OrphanRows(old(st.jobs), rows, now)
    {
      rows := st.SubmittingJobs();
      ghost var before := st.jobs;
      for i := 0 to |rows|
        invariant OrphanRows(before, rows, now) == OrphanRows(st.jobs, rows[i..], now)
      {
        assert rows[i..][1..] == rows[i + 1..];
        Orphan(rows[i].id, rows[i].job.remoteId, now);
      }
      assert rows[|rows|..] == [];
    }

    /** Fails the active jobs that ran out of budget while no process was up. */
    method FailExpired(now: int) returns (submitted: seq<T.Snap>, running: seq<T.Snap>)
      modifies st`jobs
      ensures ActiveScan(old(st.jobs), submitted, running)
      ensures st.jobs == FailStaleRows(old(st.jobs), submitted + running, now)
      ensures forall snap :: snap in submitted + running ==> StaleAs(snap, now, st.jobs)
      ensures OnlyRows(old(st.jobs), st.jobs, submitted + running)
    {
      submitted, running := st.ActiveJobs();
      var rows := submitted + running;
      ghost var before := st.jobs;
      for i := 0 to |rows|
        invariant FailStaleRows(before, rows, now) == FailStaleRows(st.jobs, rows[i..], now)
      {
        assert rows[i..][1..] == rows[i + 1..];
        if Expired(rows[i].job, now) {
          Fail(rows[i].id, now);
        }
      }
      assert rows[|rows|..] == [];
      ScansAreStale(before, submitted, running, now);
    }
  }

  // ---------- What the methods do to the tables ----------

  ghost predicate ActiveScan(jobs: T.Jobs, submitted: seq<T.Snap>, running: seq<T.Snap>) {
    T.IsScan(jobs, T.Submitted, T.SCAN_LIMIT, submitted) && T.IsScan(jobs, T.Running, T.SCAN_LIMIT, running)
  }

  /** The queue's oldest, as many as the limit leaves room for. */
  ghost predicate Chosen(jobs: T.Jobs, limit: nat, submitted: seq<T.Snap>, running: seq<T.Snap>, queued: seq<T.Snap>) {
    && ActiveScan(jobs, submitted, running)
    && var budget := limit - |submitted + running|;
       if budget <= 0 then queued == [] else T.IsScan(jobs, T.Queued, budget, queued)
  }

  function PollRow(r: Rows, snap: T.Snap, word: PollWord): Rows {
    match S.LookAt(snap.job, word.configured, word.asked)
    case Leave => r
    case FailNow => r.(jobs := T.Kept(r.jobs, T.FailJob(r.jobs, snap.id, word.asked)))
    case CancelIt => r.(jobs := T.Kept(r.jobs, T.FailJob(r.jobs, snap.id, word.heard)))
    case Ask => Rows(S.ApplyStatus(r.jobs, r.songs, snap, word.answer, word.heard), S.SongsAfter(r.songs, snap, word.answer))
  }

  function PollRows(r: Rows, todo: seq<T.Snap>, words: string -> PollWord): Rows
    decreases |todo|
  {
    if todo == [] then r else PollRows(PollRow(r, todo[0], words(todo[0].id)), todo[1..], words)
  }

  function SubmitRow(jobs: T.Jobs, snap: T.Snap, word: PostWord): T.Jobs {
    match S.Decide(snap.job, word.tested)
    case Skip => jobs
    case GiveUp => T.Kept(jobs, T.FailJob(jobs, snap.id, word.tested))
    case TryClaim =>
      match T.TransitionJob(jobs, snap.id, T.Queued, T.Submitting, T.NOTHING, word.claimed)
      case Err(_) => jobs
      case Ok(claimed) =>
        if word.configured then S.RecordAnswer(claimed, snap.id, word.answer, word.answered)
        else T.Kept(claimed, T.FailJob(claimed, snap.id, word.claimed))
  }

  function SubmitRows(jobs: T.Jobs, todo: seq<T.Snap>, words: string -> PostWord): T.Jobs
    decreases |todo|
  {
    if todo == [] then jobs else SubmitRows(SubmitRow(jobs, todo[0], words(todo[0].id)), todo[1..], words)
  }

  function OrphanRows(jobs: T.Jobs, rows: seq<T.Snap>, now: int): T.Jobs
    decreases |rows|
  {
    if rows == [] then jobs
    else OrphanRows(T.Kept(jobs, T.OrphanSubmission(jobs, rows[0].id, rows[0].job.remoteId, now)), rows[1..], now)
  }

  function FailStaleRows(jobs: T.Jobs, rows: seq<T.Snap>, now: int): T.Jobs
    decreases |rows|
  {
    if rows == [] then jobs
    else
      var after := if Expired(rows[0].job, now) then T.Kept(jobs, T.FailJob(jobs, rows[0].id, now)) else jobs;
      FailStaleRows(after, rows[1..], now)
  }

  // ---------- What becomes of each row ----------

  predicate IsQueued(jobs: T.Jobs, snap: T.Snap) {
    snap.id in jobs && jobs[snap.id] == snap.job && snap.job.state == T.Queued
  }

  predicate IsActive(jobs: T.Jobs, snap: T.Snap) {
    snap.id in jobs && jobs[snap.id] == snap.job && T.Active(snap.job.state)
  }

  predicate LeftTheQueue(jobs: T.Jobs, id: string) {
    id in jobs ==> jobs[id].state != T.Queued
  }

  predicate SubmittedAs(snap: T.Snap, word: PostWord, after: T.Jobs) {
    snap.id in after && Submission(snap.job, word.configured, word.answer, word.tested, word.answered, after[snap.id])
  }

  predicate PolledAs(snap: T.Snap, stored: bool, word: PollWord, after: T.Jobs) {
    snap.id in after && Polled(snap.job, stored, word.configured, word.answer, word.asked, word.heard, after[snap.id])
  }

  /** At a restart an active job is failed for being out of time and for nothing else. */
  predicate StaleAs(snap: T.Snap, now: int, after: T.Jobs) {
    && snap.id in after
    && (after[snap.id].state == T.Failed <==> OutOfTime(snap.job, now))
    && (after[snap.id].state != T.Failed ==> after[snap.id] == snap.job)
  }

  ghost predicate OnlyRows(jobs: T.Jobs, after: T.Jobs, rows: seq<T.Snap>) {
    after.Keys == jobs.Keys && forall k :: k in jobs && (forall i :: 0 <= i < |rows| ==> rows[i].id != k) ==> after[k] == jobs[k]
  }

  ghost predicate Apart(rows: seq<T.Snap>) {
    forall i, j :: 0 <= i < j < |rows| ==> rows[i].id != rows[j].id
  }

  /** A queued job with all the rows as old as it within the room there is. */
  ghost predicate HasTurn(jobs: T.Jobs, room: int, id: string) {
    id in jobs && jobs[id].state == T.Queued && |Ahead(jobs, id)| <= room
  }

  /** The chosen rows are submitted, every row whose turn it is among them, and no other row changes. */
  ghost predicate TurnsTaken(jobs: T.Jobs, room: int, queued: seq<T.Snap>, words: string -> PostWord, after: T.Jobs) {
    && OnlyRows(jobs, after, queued)
    && (forall snap :: snap in queued ==> SubmittedAs(snap, words(snap.id), after))
    && (forall id :: HasTurn(jobs, room, id) ==> SubmittedAs(T.Snap(id, jobs[id]), words(id), after))
  }

  lemma RowIsSubmitted(jobs: T.Jobs, snap: T.Snap, word: PostWord)
    ensures var after := SubmitRow(jobs, snap, word);
      && T.OnlyRow(jobs, after, snap.id)
      && (IsQueued(jobs, snap) ==> SubmittedAs(snap, word, after))
      && (LeftTheQueue(jobs, snap.id) && !OutOfTime(snap.job, word.tested) ==> after == jobs)
  {
    DecidesExactly(snap.job, word.tested);
    var claim := T.TransitionJob(jobs, snap.id, T.Queued, T.Submitting, T.NOTHING, word.claimed);
    if claim.Ok? {
      AnswerIsRecorded(claim.value, snap.id, word.answer, word.answered);
    }
  }

  lemma StatusOfRow(r: Rows, snap: T.Snap, answer: S.PollAnswer, now: int)
    ensures var after := S.ApplyStatus(r.jobs, r.songs, snap, answer, now);
      && T.OnlyRow(r.jobs, after, snap.id)
      && (IsActive(r.jobs, snap) ==>
           snap.id in after && Answered(snap.job, T.HasSong(r.songs, snap.id), answer, now, after[snap.id]))
  {
    StatusTouchesOneRow(r.jobs, r.songs, snap, answer, now);
    if IsActive(r.jobs, snap) {
      StatusIsApplied(r.jobs, r.songs, snap, answer, now);
    }
  }

  lemma RowIsPolled(r: Rows, snap: T.Snap, word: PollWord)
    ensures var after := PollRow(r, snap, word).jobs;
      && T.OnlyRow(r.jobs, after, snap.id)
      && (IsActive(r.jobs, snap) ==> PolledAs(snap, T.HasSong(r.songs, snap.id), word, after))
  {
    LooksExactly(snap.job, word.configured, word.asked);
    StatusOfRow(r, snap, word.answer, word.heard);
  }

  lemma SongsOfOthers(r: Rows, snap: T.Snap, word: PollWord, id: string)
    requires id != snap.id
    ensures T.HasSong(PollRow(r, snap, word).songs, id) <==> T.HasSong(r.songs, id)
  {
    OthersSongsStay(r.songs, snap, word.answer, id);
  }

  lemma {:induction false} RowsAreSubmitted(jobs: T.Jobs, rows: seq<T.Snap>, words: string -> PostWord)
    requires Apart(rows) && forall i :: 0 <= i < |rows| ==> IsQueued(jobs, rows[i])
    ensures var after := SubmitRows(jobs, rows, words);
      OnlyRows(jobs, after, rows) && forall snap :: snap in rows ==> SubmittedAs(snap, words(snap.id), after)
    decreases |rows|
  {
    if rows != [] {
      RowIsSubmitted(jobs, rows[0], words(rows[0].id));
      RowsAreSubmitted(SubmitRow(jobs, rows[0], words(rows[0].id)), rows[1..], words);
    }
  }

  lemma {:induction false} RowsArePolled(r: Rows, rows: seq<T.Snap>, words: string -> PollWord)
    requires Apart(rows) && forall i :: 0 <= i < |rows| ==> IsActive(r.jobs, rows[i])
    ensures var after := PollRows(r, rows, words).jobs;
      && OnlyRows(r.jobs, after, rows)
      && forall snap :: snap in rows ==> PolledAs(snap, T.HasSong(r.songs, snap.id), words(snap.id), after)
    decreases |rows|
  {
    if rows != [] {
      RowIsPolled(r, rows[0], words(rows[0].id));
      forall k | k != rows[0].id
        ensures T.HasSong(PollRow(r, rows[0], words(rows[0].id)).songs, k) <==> T.HasSong(r.songs, k)
      {
        SongsOfOthers(r, rows[0], words(rows[0].id), k);
      }
      RowsArePolled(PollRow(r, rows[0], words(rows[0].id)), rows[1..], words);
    }
  }

  lemma {:induction false} RowsAreStale(jobs: T.Jobs, rows: seq<T.Snap>, now: int)
    requires Apart(rows) && forall i :: 0 <= i < |rows| ==> IsActive(jobs, rows[i])
    ensures var after := FailStaleRows(jobs, rows, now);
      OnlyRows(jobs, after, rows) && forall snap :: snap in rows ==> StaleAs(snap, now, after)
    decreases |rows|
  {
    if rows != [] {
      OutOfTimeIsExpired(rows[0].job, now);
      var jobs1 := if Expired(rows[0].job, now) then T.Kept(jobs, T.FailJob(jobs, rows[0].id, now)) else jobs;
      RowsAreStale(jobs1, rows[1..], now);
    }
  }

  lemma ScanRows(jobs: T.Jobs, state: T.JobState, limit: nat, rows: seq<T.Snap>)
    requires T.IsScan(jobs, state, limit, rows)
    ensures Apart(rows)
    ensures forall i :: 0 <= i < |rows| ==> rows[i].id in jobs && jobs[rows[i].id] == rows[i].job && rows[i].job.state == state
  {
    var page := T.Ids(rows);
    assert forall i :: 0 <= i < |rows| ==> page[i] == rows[i].id;
  }

  lemma ScansAreActive(jobs: T.Jobs, submitted: seq<T.Snap>, running: seq<T.Snap>)
    requires ActiveScan(jobs, submitted, running)
    ensures var rows := submitted + running;
      Apart(rows) && forall i :: 0 <= i < |rows| ==> IsActive(jobs, rows[i])
  {
    ScanRows(jobs, T.Submitted, T.SCAN_LIMIT, submitted);
    ScanRows(jobs, T.Running, T.SCAN_LIMIT, running);
  }

  lemma NobodysTurn(jobs: T.Jobs, room: int)
    requires room <= 0
    ensures forall id :: !HasTurn(jobs, room, id)
  {
    assert forall id :: id in jobs && jobs[id].state == T.Queued ==> id in Ahead(jobs, id);
  }

  lemma ScanIsQueued(jobs: T.Jobs, room: nat, rows: seq<T.Snap>)
    requires T.IsScan(jobs, T.Queued, room, rows)
    ensures Apart(rows) && forall i :: 0 <= i < |rows| ==> IsQueued(jobs, rows[i])
    ensures forall id :: HasTurn(jobs, room, id) ==> T.Snap(id, jobs[id]) in rows
  {
    ScanRows(jobs, T.Queued, room, rows);
    var page := T.Ids(rows);
    forall id | HasTurn(jobs, room, id)
      ensures T.Snap(id, jobs[id]) in rows
    {
      TurnComes(jobs, room, page, id);
      var i: nat :| i < |page| && page[i] == id;
      assert rows[i] == T.Snap(id, jobs[id]);
    }
  }

  lemma TurnsAreTaken(jobs: T.Jobs, room: nat, queued: seq<T.Snap>, words: string -> PostWord)
    requires T.IsScan(jobs, T.Queued, room, queued)
    ensures TurnsTaken(jobs, room, queued, words, SubmitRows(jobs, queued, words))
  {
    ScanIsQueued(jobs, room, queued);
    RowsAreSubmitted(jobs, queued, words);
    var after := SubmitRows(jobs, queued, words);
    forall id | HasTurn(jobs, room, id)
      ensures SubmittedAs(T.Snap(id, jobs[id]), words(id), after)
    {
      assert T.Snap(id, jobs[id]) in queued;
    }
  }

  lemma ChosenAreSubmitted(jobs: T.Jobs, limit: nat, submitted: seq<T.Snap>, running: seq<T.Snap>,
      queued: seq<T.Snap>, words: string -> PostWord)
    requires Chosen(jobs, limit, submitted, running, queued)
    ensures TurnsTaken(jobs, limit - |submitted + running|, queued, words, SubmitRows(jobs, queued, words))
  {
    var room := limit - |submitted + running|;
    if room <= 0 {
      NobodysTurn(jobs, room);
    } else {
      TurnsAreTaken(jobs, room, queued, words);
    }
  }

  lemma ScansArePolled(r: Rows, submitted: seq<T.Snap>, running: seq<T.Snap>, words: string -> PollWord)
    requires ActiveScan(r.jobs, submitted, running)
    ensures var after := PollRows(r, submitted + running, words).jobs;
      && OnlyRows(r.jobs, after, submitted + running)
      && forall snap :: snap in submitted + running ==> PolledAs(snap, T.HasSong(r.songs, snap.id), words(snap.id), after)
  {
    ScansAreActive(r.jobs, submitted, running);
    RowsArePolled(r, submitted + running, words);
  }

  lemma ScansAreStale(jobs: T.Jobs, submitted: seq<T.Snap>, running: seq<T.Snap>, now: int)
    requires ActiveScan(jobs, submitted, running)
    ensures var after := FailStaleRows(jobs, submitted + running, now);
      && OnlyRows(jobs, after, submitted + running)
      && forall snap :: snap in submitted + running ==> StaleAs(snap, now, after)
  {
    ScansAreActive(jobs, submitted, running);
    RowsAreStale(jobs, submitted + running, now);
  }
}
