/**
  What becomes of one row when the worker gets to it: which queued job goes out
  and what its answer makes of it, which active job is failed, asked about or
  left alone, and what each answer makes of it. Everything is said in minutes,
  attempts and answers; the machine's own functions are proved to come to it.
*/
module RowOutcomes {
  import opened Prelude
  import opened StoreTables
  import opened StorePages
  import opened Runpod
  import opened Budgets
  import opened SoloWorker

  // ---------- Time ----------

  /** 45 minutes to get a GPU; then 8, or 20 on YuE2, or 45 for a cover on YuE2. */
  predicate OutOfTime(job: Job, now: int) {
    var seconds := 1_000_000_000;
    match job.startedAt
    case None => now - job.createdAt > 45 * 60 * seconds
    case Some(started) =>
      || now - started > 45 * 60 * seconds
      || (now - started > 20 * 60 * seconds && !(job.engine == "yue2" && job.mode == "cover"))
      || (now - started > 8 * 60 * seconds && job.engine != "yue2")
  }

  /** No wait before the first attempt, then 15, 30 and 60 seconds, then two minutes each time. */
  predicate WaitIsOver(job: Job, now: int) {
    var seconds := 1_000_000_000;
    var wait :=
      if job.retries == 0 then 0
      else if job.retries == 1 then 15
      else if job.retries == 2 then 30
      else if job.retries == 3 then 60
      else 120;
    now - job.updatedAt >= wait * seconds
  }

  predicate Ready(job: Job, now: int) {
    job.remoteId == "" && !OutOfTime(job, now) && WaitIsOver(job, now)
  }

  /** Polled every three seconds in its first minute, every ten after. */
  predicate TooSoon(job: Job, now: int) {
    var seconds := 1_000_000_000;
    now - job.updatedAt < (if now - job.createdAt < 60 * seconds then 3 else 10) * seconds
  }

  lemma OutOfTimeIsExpired(job: Job, now: int)
    ensures OutOfTime(job, now) <==> Expired(job, now)
  {
  }

  lemma WaitIsDelay(job: Job, now: int)
    ensures WaitIsOver(job, now) <==> now - job.updatedAt >= Delay(job.retries)
  {
    FirstDelays();
  }

  /** A job is created once; it waits from its creation, ready at once, and blank columns mean a MiniMax generation. */
  lemma NewJobStartsAfresh(jobs: Jobs, id: string, userId: string, engine: string, mode: string, createdAt: int)
    ensures var job := NewJob(userId, engine, mode, createdAt);
      && job.state == Queued && job.userId != "" && Ready(job, createdAt)
      && (forall now :: OutOfTime(job, now) <==> now - createdAt > 2_700_000_000_000)
      && (forall started, now :: OutOfTime(job.(startedAt := Some(started)), now) <==>
           now - started > if engine != "yue2" then 480_000_000_000 else if mode != "cover" then 1_200_000_000_000 else 2_700_000_000_000)
      && (CreateJob(jobs, id, job).Ok? <==> id !in jobs)
      && (id !in jobs ==> CreateJob(jobs, id, job).value == jobs[id := job])
  {
  }

  // ---------- Submitting ----------

  /** What a queued row comes to when the worker gets to it, tested and answered at these times. */
  predicate Submission(job: Job, configured: bool, answer: SubmitAnswer, tested: int, answered: int, after: Job) {
    var posted := Ready(job, tested) && configured;
    var requeued := answer.Error? && NothingEnqueued(answer.e);
    && SameIdentity(job, after) && after.startedAt == job.startedAt
    && (after.state == Submitted <==> posted && answer.Id?)
    && (after.state == Submitted ==> after.remoteId == answer.remoteId && after.retries == 0 && after.updatedAt == answered)
    && (after.state == Queued && after.retries == job.retries + 1 <==> posted && requeued)
    && (posted && requeued ==> after.updatedAt == answered)
    && (after == job <==> job.remoteId != "" || !(OutOfTime(job, tested) || WaitIsOver(job, tested)))
    && (after.state == Failed <==>
         && job.remoteId == ""
         && (OutOfTime(job, tested) || (WaitIsOver(job, tested) && (!configured || (answer.Error? && !requeued)))))
    && (after.state != Submitted ==> after.remoteId == job.remoteId)
  }

  /** What a claimed row comes to when the POST's answer is in. */
  predicate Recorded(job: Job, answer: SubmitAnswer, answered: int, after: Job) {
    && SameIdentity(job, after) && after.startedAt == job.startedAt && after.updatedAt == answered
    && (after.state == Submitted <==> answer.Id?)
    && (after.state == Queued <==> answer.Error? && NothingEnqueued(answer.e))
    && (after.state == Failed <==> answer.Error? && !NothingEnqueued(answer.e))
    && after.remoteId == (if answer.Id? then answer.remoteId else if after.state == Queued then job.remoteId else "")
    && after.retries == (if answer.Id? then 0 else if after.state == Queued then job.retries + 1 else job.retries)
  }

  /** A row that is not being submitted any more is only spoken of, never brought back. */
  lemma AnswerIsRecorded(jobs: Jobs, id: string, answer: SubmitAnswer, now: int)
    ensures var after := RecordAnswer(jobs, id, answer, now);
      && OnlyRow(jobs, after, id)
      && (id in jobs && jobs[id].state == Submitting ==> Recorded(jobs[id], answer, now, after[id]))
      && (id in jobs && jobs[id].state != Submitting ==> after[id].state == jobs[id].state && after[id].remoteId == jobs[id].remoteId)
  {
  }

  /** The machine's own test of a queued job. */
  lemma DecidesExactly(job: Job, now: int)
    ensures Decide(job, now) == TryClaim <==> Ready(job, now)
    ensures Decide(job, now) == GiveUp <==> job.remoteId == "" && OutOfTime(job, now)
  {
    OutOfTimeIsExpired(job, now);
    WaitIsDelay(job, now);
  }

  /** In the machine: a job that is ready, and no other, is claimed and POSTed once more. */
  lemma ReadyJobGoesOut(s: Solo)
    requires s.phase.Draining? && s.phase.todo != [] && s.phase.todo[0].id in s.jobs
    requires s.jobs[s.phase.todo[0].id] == s.phase.todo[0].job && s.phase.todo[0].job.state == Queued
    ensures var Snap(id, job) := s.phase.todo[0];
      if Ready(job, s.now) then
        Run(s, [SubmitOne, Claim, Send(true)]) == Some(s.(
          jobs := s.jobs[id := job.(state := Submitting, updatedAt := s.now)],
          phase := Posting(s.phase.todo[0], s.phase.todo[1..], s.now),
          posted := s.posted[id := Posted(s, id) + 1]))
      else Run(s, [SubmitOne, Claim, Send(true)]).None?
  {
    var snap := s.phase.todo[0];
    var es := [SubmitOne, Claim, Send(true)];
    assert es[1..] == [Claim, Send(true)] && es[1..][1..] == [Send(true)] && es[1..][1..][1..] == [];
    DecidesExactly(snap.job, s.now);
    var s1 := Step(s, SubmitOne).value;
    if Ready(snap.job, s.now) {
      var s2 := Step(s1, Claim).value;
      var s3 := Step(s2, Send(true)).value;
      assert Run(s3, []) == Some(s3);
      assert Run(s2, es[1..][1..]) == Some(s3);
      assert Run(s1, es[1..]) == Some(s3);
      assert s3.jobs == s.jobs[snap.id := snap.job.(state := Submitting, updatedAt := s.now)];
    } else {
      assert Step(s1, Claim).None?;
    }
  }

  // ---------- Polling ----------

  /** Errors that asking again cannot mend. */
  predicate Final(e: CallError) {
    || e == NoEndpoint || e == NoApiKey || e == WorkerReported || e == Undecodable
    || e == Http(400) || e == Http(401) || e == Http(403) || e == Http(404)
  }

  /** A call that failed for now, or a finished song that cannot be stored for now. */
  predicate Hitch(stored: bool, answer: PollAnswer) {
    || (answer.CallFailed? && !Final(answer.e))
    || (answer.RemoteCompleted? && answer.output.NotStored? && !stored)
  }

  predicate Delivered(stored: bool, answer: PollAnswer) {
    answer.RemoteCompleted? && (answer.output.Encoded? || (answer.output.NotStored? && stored))
  }

  /** The answers that end a job: every failure the remote reports, and a third failed call or a fifth failed store. */
  predicate EndsInFailure(job: Job, stored: bool, answer: PollAnswer) {
    || answer.RemoteFailed? || answer.RemoteCancelled? || answer.UnknownStatus?
    || (answer.RemoteCompleted? && answer.output.Unreadable?)
    || (answer.CallFailed? && Final(answer.e))
    || (Hitch(stored, answer) && job.retries + 1 >= if answer.CallFailed? then 3 else 5)
  }

  /** What an active row comes to when the remote's answer is heard; `stored` says whether it had its song. */
  predicate Answered(job: Job, stored: bool, answer: PollAnswer, now: int, after: Job) {
    && SameIdentity(job, after) && after.remoteId == job.remoteId && after.updatedAt == now
    && (after.state == Failed <==> EndsInFailure(job, stored, answer))
    && (after.state == Succeeded <==> Delivered(stored, answer))
    && (answer.InQueue? ==> after.state == Submitted)
    && (answer.InProgress? ==> after.state == Running)
    && (Hitch(stored, answer) && after.state != Failed ==> after.state == job.state)
    && after.startedAt == (if answer.InProgress? && job.startedAt.None? then Some(now) else job.startedAt)
    && after.retries ==
         (if answer.InQueue? || answer.InProgress? || Delivered(stored, answer) then 0
          else if Hitch(stored, answer) then job.retries + 1
          else job.retries)
  }

  lemma FinalIsPermanent(e: CallError)
    ensures Final(e) <==> IsPermanent(e)
    ensures NothingEnqueued(e) <==> IsRetryableSubmit(e)
  {
  }

  lemma CountTouchesOneRow(jobs: Jobs, id: string, cap: nat, now: int)
    ensures OnlyRow(jobs, CountFailure(jobs, id, cap, now), id)
  {
  }

  lemma CompletionTouchesOneRow(jobs: Jobs, songs: Songs, snap: Snap, from: JobState, output: Completion, now: int)
    ensures OnlyRow(jobs, ApplyCompletion(jobs, songs, snap, from, output, now), snap.id)
  {
    CountTouchesOneRow(jobs, snap.id, MAX_STORE_RETRIES, now);
  }

  lemma StatusTouchesOneRow(jobs: Jobs, songs: Songs, snap: Snap, answer: PollAnswer, now: int)
    ensures OnlyRow(jobs, ApplyStatus(jobs, songs, snap, answer, now), snap.id)
  {
    CountTouchesOneRow(jobs, snap.id, MAX_TRANSIENT, now);
    if answer.RemoteCompleted? {
      var from := if snap.job.state == Running then Running else Submitted;
      CompletionTouchesOneRow(jobs, songs, snap, from, answer.output, now);
    }
  }

  /** A poll gives no other job a song. */
  lemma OthersSongsStay(songs: Songs, snap: Snap, answer: PollAnswer, id: string)
    requires id != snap.id
    ensures HasSong(SongsAfter(songs, snap, answer), id) <==> HasSong(songs, id)
  {
    var after := SongsAfter(songs, snap, answer);
    assert forall k :: k in songs ==> k in after && after[k] == songs[k];
  }

  lemma FailureIsApplied(jobs: Jobs, songs: Songs, snap: Snap, e: CallError, now: int)
    requires snap.id in jobs && jobs[snap.id] == snap.job && Active(snap.job.state)
    ensures var after := ApplyStatus(jobs, songs, snap, CallFailed(e), now);
      OnlyRow(jobs, after, snap.id) && Answered(snap.job, HasSong(songs, snap.id), CallFailed(e), now, after[snap.id])
  {
    FinalIsPermanent(e);
  }

  lemma CompletionIsApplied(jobs: Jobs, songs: Songs, snap: Snap, output: Completion, now: int)
    requires snap.id in jobs && jobs[snap.id] == snap.job && Active(snap.job.state)
    ensures var after := ApplyStatus(jobs, songs, snap, RemoteCompleted(output), now);
      OnlyRow(jobs, after, snap.id) && Answered(snap.job, HasSong(songs, snap.id), RemoteCompleted(output), now, after[snap.id])
  {
  }

  lemma WordIsApplied(jobs: Jobs, songs: Songs, snap: Snap, answer: PollAnswer, now: int)
    requires snap.id in jobs && jobs[snap.id] == snap.job && Active(snap.job.state)
    requires !answer.CallFailed? && !answer.RemoteCompleted?
    ensures var after := ApplyStatus(jobs, songs, snap, answer, now);
      OnlyRow(jobs, after, snap.id) && Answered(snap.job, HasSong(songs, snap.id), answer, now, after[snap.id])
  {
  }

  lemma StatusIsApplied(jobs: Jobs, songs: Songs, snap: Snap, answer: PollAnswer, now: int)
    requires snap.id in jobs && jobs[snap.id] == snap.job && Active(snap.job.state)
    ensures var after := ApplyStatus(jobs, songs, snap, answer, now);
      OnlyRow(jobs, after, snap.id) && Answered(snap.job, HasSong(songs, snap.id), answer, now, after[snap.id])
  {
    if answer.CallFailed? {
      FailureIsApplied(jobs, songs, snap, answer.e, now);
    } else if answer.RemoteCompleted? {
      CompletionIsApplied(jobs, songs, snap, answer.output, now);
    } else {
      WordIsApplied(jobs, songs, snap, answer, now);
    }
  }

  /** Whether the remote is asked about an active job at all. */
  predicate Asked(job: Job, configured: bool, now: int) {
    job.remoteId != "" && configured && !OutOfTime(job, now) && !TooSoon(job, now)
  }

  /** What an active row comes to when the worker gets to it, asked and heard about at these times. */
  predicate Polled(job: Job, stored: bool, configured: bool, answer: PollAnswer, asked: int, heard: int, after: Job) {
    && (Asked(job, configured, asked) ==> Answered(job, stored, answer, heard, after))
    && (after.state == Failed <==>
         && job.remoteId != ""
         && (!configured || OutOfTime(job, asked) || (!TooSoon(job, asked) && EndsInFailure(job, stored, answer))))
    && (!Asked(job, configured, asked) ==> after == job.(state := after.state, updatedAt := after.updatedAt))
    && (!Asked(job, configured, asked) && after.state != Failed ==> after == job)
  }

  /** The machine's own look at an active job. */
  lemma LooksExactly(job: Job, configured: bool, now: int)
    ensures LookAt(job, configured, now) == Leave <==>
      job.remoteId == "" || (configured && !OutOfTime(job, now) && TooSoon(job, now))
    ensures LookAt(job, configured, now) == FailNow <==> job.remoteId != "" && !configured
    ensures LookAt(job, configured, now) == CancelIt <==> job.remoteId != "" && configured && OutOfTime(job, now)
    ensures LookAt(job, configured, now) == Ask <==> Asked(job, configured, now)
  {
    OutOfTimeIsExpired(job, now);
  }

  // ---------- Turns in the queue ----------

  /** The queued rows that a scan may put before this one, itself among them. */
  function Ahead(jobs: Jobs, id: string): set<string>
    requires id in jobs
  {
    set k | k in jobs && jobs[k].state == Queued && jobs[k].createdAt <= jobs[id].createdAt
  }

  /** A queued job is in every scan that has room for all the rows as old as it. */
  lemma TurnComes(jobs: Jobs, limit: nat, page: seq<string>, id: string)
    requires IsPage(jobs, Queued, limit, page) && id in jobs && jobs[id].state == Queued
    requires |Ahead(jobs, id)| <= limit
    ensures id in page
  {
    if id !in page {
      DistinctCount(page);
      assert IdsOf(page) <= Ahead(jobs, id) - {id};
      Fewer(IdsOf(page), Ahead(jobs, id) - {id});
    }
  }
}
