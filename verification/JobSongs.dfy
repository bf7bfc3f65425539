/**
  Jobs and songs. Storing the song before marking the job is what makes every
  succeeded row have one song, whatever polls, crashes and deletions come between.
*/
module JobSongs {
  import opened Prelude
  import opened StoreTables
  import opened Runpod
  import opened JobProtocol

  ghost predicate UniqueSongs(songs: Songs) {
    forall s, r :: s in songs && r in songs && songs[s].jobId == songs[r].jobId ==> s == r
  }

  ghost predicate OwnersAgree(t: Tables) {
    forall s :: s in t.songs && t.songs[s].jobId in t.jobs ==> t.songs[s].userId == t.jobs[t.songs[s].jobId].userId
  }

  ghost predicate SucceededHaveSongs(t: Tables) {
    forall id :: id in t.jobs && t.jobs[id].state == Succeeded ==> HasSong(t.songs, id)
  }

  /** What a poller remembers of a job, as long as the job is there. */
  ghost predicate PollerOk(t: Tables, pc: Pc) {
    match pc
    case Completed(id, _, userId) => id in t.jobs ==> userId == t.jobs[id].userId
    case Stored(id, _) => id in t.jobs ==> HasSong(t.songs, id)
    case _ => true
  }

  function PolledJob(pc: Pc): Option<string> {
    match pc
    case Completed(id, _, _) => Some(id)
    case Stored(id, _) => Some(id)
    case _ => None
  }

  ghost predicate NamesUsed(w: World) {
    && "" !in w.used && w.t.jobs.Keys <= w.used
    && (forall s :: s in w.t.songs ==> w.t.songs[s].jobId in w.used)
    && (forall k :: k in w.pcs && PolledJob(w.pcs[k]).Some? ==> PolledJob(w.pcs[k]).value in w.used)
    && (forall id :: id in w.t.jobs ==> w.t.jobs[id].userId != "")
  }

  ghost predicate SongsOk(w: World) {
    && UniqueSongs(w.t.songs) && OwnersAgree(w.t) && SucceededHaveSongs(w.t) && NamesUsed(w)
    && forall k :: k in w.pcs ==> PollerOk(w.t, w.pcs[k])
  }

  /** Steps that leave songs alone, add no job, and no poller that knows of one. */
  ghost predicate LeavesSongs(w: World, w': World) {
    && w'.t.songs == w.t.songs && w'.used == w.used && w'.t.jobs.Keys <= w.t.jobs.Keys
    && (forall id :: id in w'.t.jobs ==> w'.t.jobs[id].userId == w.t.jobs[id].userId)
    && (forall id :: id in w'.t.jobs && w'.t.jobs[id].state == Succeeded ==> w.t.jobs[id].state == Succeeded)
    && (forall k :: k in w'.pcs ==> PolledJob(w'.pcs[k]).None? || (k in w.pcs && w'.pcs[k] == w.pcs[k]))
  }

  lemma LeavingKeepsSongs(w: World, w': World)
    requires SongsOk(w) && LeavesSongs(w, w')
    ensures SongsOk(w')
  {
    forall k | k in w'.pcs
      ensures PollerOk(w'.t, w'.pcs[k])
    {
      if k in w.pcs && w'.pcs[k] == w.pcs[k] {
        assert PollerOk(w.t, w.pcs[k]);
      }
    }
  }

  lemma CreateKeepsSongs(w: World, e: Event)
    requires SongsOk(w) && e.Create? && StepHandler(w, e).Some?
    ensures SongsOk(StepHandler(w, e).value)
  {
    var w' := StepHandler(w, e).value;
    assert forall s :: s in w.t.songs ==> w.t.songs[s].jobId != e.id;
    assert forall k :: k in w.pcs ==> PolledJob(w.pcs[k]) != Some(e.id);
    forall k | k in w'.pcs
      ensures PollerOk(w'.t, w'.pcs[k])
    {
      assert PollerOk(w.t, w.pcs[k]);
    }
  }

  /** After a deletion: the rows that remain, and the songs of the jobs that remain. */
  ghost predicate Shrinks(t: Tables, t': Tables) {
    && t'.jobs.Keys <= t.jobs.Keys && t'.songs.Keys <= t.songs.Keys
    && (forall id :: id in t'.jobs ==> t'.jobs[id] == t.jobs[id])
    && (forall s :: s in t'.songs ==> t'.songs[s] == t.songs[s])
    && (forall s :: s in t.songs && t.songs[s].jobId in t'.jobs ==> s in t'.songs)
  }

  lemma ShrinkingKeepsHasSong(t: Tables, t': Tables, id: string)
    requires Shrinks(t, t') && id in t'.jobs && HasSong(t.songs, id)
    ensures HasSong(t'.songs, id)
  {
    var s :| s in t.songs && t.songs[s].jobId == id;
    assert s in t'.songs && t'.songs[s].jobId == id;
  }

  lemma ShrinkingKeepsSongs(w: World, w': World)
    requires SongsOk(w) && w' == w.(t := w'.t) && Shrinks(w.t, w'.t)
    ensures SongsOk(w')
  {
    forall id | id in w'.t.jobs && w'.t.jobs[id].state == Succeeded
      ensures HasSong(w'.t.songs, id)
    {
      ShrinkingKeepsHasSong(w.t, w'.t, id);
    }
    forall k | k in w'.pcs
      ensures PollerOk(w'.t, w'.pcs[k])
    {
      assert PollerOk(w.t, w.pcs[k]);
      if w.pcs[k].Stored? && w.pcs[k].job in w'.t.jobs {
        ShrinkingKeepsHasSong(w.t, w'.t, w.pcs[k].job);
      }
    }
  }

  /** Deleting a song takes its job with it; deleting a user takes both, for they have one owner. */
  lemma DeletionsShrink(w: World, e: Event)
    requires SongsOk(w) && (e.RemoveSong? || e.RemoveUser? || e.RemoveJob?) && StepHandler(w, e).Some?
    ensures Shrinks(w.t, StepHandler(w, e).value.t)
  {
    if e.RemoveSong? {
      assert w.t.songs[e.id].jobId in w.used;
    }
  }

  lemma HandlersKeepSongs(w: World, e: Event)
    requires SongsOk(w) && StepHandler(w, e).Some?
    ensures SongsOk(StepHandler(w, e).value)
  {
    if e.Create? {
      CreateKeepsSongs(w, e);
    } else {
      DeletionsShrink(w, e);
      ShrinkingKeepsSongs(w, StepHandler(w, e).value);
    }
  }

  lemma StoreKeepsSongs(w: World, k: nat, songId: string, path: string, ok: bool)
    requires SongsOk(w) && StoringSong(w, k, songId, path, ok).Some?
    ensures SongsOk(StoringSong(w, k, songId, path, ok).value)
  {
    var w' := StoringSong(w, k, songId, path, ok).value;
    assert PollerOk(w.t, w.pcs[k]);
    var id := w.pcs[k].job;
    if w'.t.songs != w.t.songs {
      assert w'.t.songs[songId].jobId == id;
      assert forall s :: s in w.t.songs ==> w'.t.songs[s] == w.t.songs[s];
      assert forall j :: HasSong(w.t.songs, j) ==> HasSong(w'.t.songs, j);
    }
    forall l | l in w'.pcs
      ensures PollerOk(w'.t, w'.pcs[l])
    {
      assert PollerOk(w.t, w.pcs[l]);
    }
  }

  lemma FindKeepsSongs(w: World, k: nat, id: string, from: JobState, userId: string)
    requires SongsOk(w) && Finding(w, k, id, from, userId).Some?
    ensures SongsOk(Finding(w, k, id, from, userId).value)
  {
    var w' := Finding(w, k, id, from, userId).value;
    assert forall l :: l in w'.pcs && l != k ==> PollerOk(w.t, w.pcs[l]);
  }

  /** The song is there before the row says so. */
  lemma MarkKeepsSongs(w: World, k: nat, ok: bool)
    requires SongsOk(w) && Marking(w, k, ok).Some?
    ensures SongsOk(Marking(w, k, ok).value)
  {
    var w' := Marking(w, k, ok).value;
    var id := w.pcs[k].job;
    assert PollerOk(w.t, w.pcs[k]);
    forall j | j in w'.t.jobs && w'.t.jobs[j].state == Succeeded
      ensures HasSong(w'.t.songs, j)
    {
    }
    assert forall l :: l in w'.pcs && l != k ==> PollerOk(w.t, w.pcs[l]);
  }

  lemma PollsKeepSongs(w: World, e: Event)
    requires SongsOk(w) && StepPoll(w, e).Some?
    ensures SongsOk(StepPoll(w, e).value)
  {
    match e {
      case FindCompleted(k, id, from, userId) => FindKeepsSongs(w, k, id, from, userId);
      case StoreSong(k, songId, path, ok) => StoreKeepsSongs(w, k, songId, path, ok);
      case MarkSucceeded(k, ok) => MarkKeepsSongs(w, k, ok);
      case _ => TouchKeepsSongs(w, e);
    }
  }

  lemma TouchKeepsSongs(w: World, e: Event)
    requires SongsOk(w) && (e.Progress? || e.Bump? || e.Fail? || e.Pass?) && StepPoll(w, e).Some?
    ensures SongsOk(StepPoll(w, e).value)
  {
    LeavingKeepsSongs(w, StepPoll(w, e).value);
  }

  lemma ClaimKeepsSongs(w: World, k: nat, id: string)
    requires SongsOk(w) && Claiming(w, k, id).Some?
    ensures SongsOk(Claiming(w, k, id).value)
  {
    LeavingKeepsSongs(w, Claiming(w, k, id).value);
  }

  lemma UnconfiguredKeepsSongs(w: World, k: nat)
    requires SongsOk(w) && WithoutEndpoint(w, k).Some?
    ensures SongsOk(WithoutEndpoint(w, k).value)
  {
    LeavingKeepsSongs(w, WithoutEndpoint(w, k).value);
  }

  lemma CountKeepsSongs(w: World, k: nat, ok: bool)
    requires SongsOk(w) && Counting(w, k, ok).Some?
    ensures SongsOk(Counting(w, k, ok).value)
  {
    LeavingKeepsSongs(w, Counting(w, k, ok).value);
  }

  lemma RequeueKeepsSongs(w: World, k: nat, ok: bool)
    requires SongsOk(w) && Requeueing(w, k, ok).Some?
    ensures SongsOk(Requeueing(w, k, ok).value)
  {
    LeavingKeepsSongs(w, Requeueing(w, k, ok).value);
  }

  lemma RecordKeepsSongs(w: World, k: nat, ok: bool)
    requires SongsOk(w) && Recording(w, k, ok).Some?
    ensures SongsOk(Recording(w, k, ok).value)
  {
    LeavingKeepsSongs(w, Recording(w, k, ok).value);
  }

  lemma OrphanKeepsSongs(w: World, k: nat, ok: bool)
    requires SongsOk(w) && OrphaningStep(w, k, ok).Some?
    ensures SongsOk(OrphaningStep(w, k, ok).value)
  {
    LeavingKeepsSongs(w, OrphaningStep(w, k, ok).value);
  }

  lemma MessageKeepsSongs(w: World, e: Event)
    requires SongsOk(w) && (e.Send? || e.HearId? || e.HearError?) && StepSubmit(w, e).Some?
    ensures SongsOk(StepSubmit(w, e).value)
  {
    LeavingKeepsSongs(w, StepSubmit(w, e).value);
  }

  lemma SubmissionsKeepSongs(w: World, e: Event)
    requires SongsOk(w) && StepSubmit(w, e).Some?
    ensures SongsOk(StepSubmit(w, e).value)
  {
    match e {
      case Claim(k, id) => ClaimKeepsSongs(w, k, id);
      case Unconfigured(k) => UnconfiguredKeepsSongs(w, k);
      case Count(k, ok) => CountKeepsSongs(w, k, ok);
      case Requeue(k, ok) => RequeueKeepsSongs(w, k, ok);
      case Record(k, ok) => RecordKeepsSongs(w, k, ok);
      case Orphan(k, ok) => OrphanKeepsSongs(w, k, ok);
      case _ => MessageKeepsSongs(w, e);
    }
  }

  lemma StepKeepsSongs(w: World, e: Event)
    requires SongsOk(w) && Step(w, e).Some?
    ensures SongsOk(Step(w, e).value)
  {
    if StepHandler(w, e) == Step(w, e) {
      HandlersKeepSongs(w, e);
    } else if StepWorker(w, e) == Step(w, e) {
      LeavingKeepsSongs(w, StepWorker(w, e).value);
    } else if StepRemote(w, e) == Step(w, e) {
      LeavingKeepsSongs(w, StepRemote(w, e).value);
    } else if StepPoll(w, e) == Step(w, e) {
      PollsKeepSongs(w, e);
    } else {
      SubmissionsKeepSongs(w, e);
    }
  }

  lemma {:induction false} RunKeepsSongs(w: World, events: seq<Event>)
    requires SongsOk(w) && Run(w, events).Some?
    ensures SongsOk(Run(w, events).value)
    decreases |events|
  {
    if events != [] {
      StepKeepsSongs(w, events[0]);
      RunKeepsSongs(Step(w, events[0]).value, events[1..]);
    }
  }

  function SongsFor(t: Tables, jobId: string): set<string> {
    set s | s in t.songs && t.songs[s].jobId == jobId
  }

  /** In every run, a succeeded row has exactly one song, and both have the same owner. */
  lemma SucceededHasOneSong(events: seq<Event>, id: string) returns (song: string)
    requires Run(EMPTY, events).Some?
    requires id in Run(EMPTY, events).value.t.jobs && Run(EMPTY, events).value.t.jobs[id].state == Succeeded
    ensures var t := Run(EMPTY, events).value.t;
      SongsFor(t, id) == {song} && t.songs[song].userId == t.jobs[id].userId
  {
    RunKeepsSongs(EMPTY, events);
    var t := Run(EMPTY, events).value.t;
    assert HasSong(t.songs, id);
    song :| song in t.songs && t.songs[song].jobId == id;
    assert forall s :: s in SongsFor(t, id) ==> s == song;
  }
}
