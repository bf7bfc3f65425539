/**
  The store: tables updated in place, one method for each statement or
  transaction. Each method is proved to do to the tables what StoreTables says.
*/
module StoreClass {
  import opened Prelude
  import T = StoreTables

  class Store {
    var users: map<string, T.User>
    var sessions: map<string, T.Session>
    var jobs: map<string, T.Job>
    var songs: map<string, T.Song>
    var uploads: map<string, T.Upload>
    var links: map<string, T.Link>

    function View(): T.Tables
      reads this
    {
      T.Tables(users, sessions, jobs, songs, uploads, links)
    }

    constructor ()
      ensures View() == T.Tables(map[], map[], map[], map[], map[], map[])
    {
      users, sessions, jobs, songs, uploads, links := map[], map[], map[], map[], map[], map[];
    }

    // ---------- Jobs ----------

    method CreateJob(id: string, userId: string, engine: string, mode: string, createdAt: int) returns (r: Result<(), T.StoreError>)
      modifies this`jobs
      ensures match T.CreateJob(old(jobs), id, T.NewJob(userId, engine, mode, createdAt))
        case Ok(after) => r == Ok(()) && jobs == after
        case Err(e) => r == Err(e) && jobs == old(jobs)
    {
      if id in jobs {
        return Err(T.DuplicateKey);
      }
      jobs := jobs[id := T.Job(T.Queued, "", T.OrElse(userId, T.LEGACY_USER), T.OrElse(engine, T.MINIMAX),
        T.OrElse(mode, T.CREATE), 0, createdAt, None, createdAt)];
      return Ok(());
    }

    method TransitionJob(id: string, from: T.JobState, to: T.JobState, set_: T.Assignments, now: int) returns (r: Result<(), T.StoreError>)
      modifies this`jobs
      ensures match T.TransitionJob(old(jobs), id, from, to, set_, now)
        case Ok(after) => r == Ok(()) && jobs == after
        case Err(e) => r == Err(e) && jobs == old(jobs)
    {
      if id !in jobs || jobs[id].state != from {
        return Err(T.TransitionRejected);
      }
      var row := jobs[id].(state := to, updatedAt := now);
      if set_.remoteId.Some? {
        row := row.(remoteId := set_.remoteId.value);
      }
      if set_.retries.Some? {
        row := row.(retries := set_.retries.value);
      }
      if set_.startedAt.Some? {
        row := row.(startedAt := set_.startedAt);
      }
      jobs := jobs[id := row];
      return Ok(());
    }

    method FailJob(id: string, now: int) returns (r: Result<(), T.StoreError>)
      modifies this`jobs
      ensures match T.FailJob(old(jobs), id, now)
        case Ok(after) => r == Ok(()) && jobs == after
        case Err(e) => r == Err(e) && jobs == old(jobs)
    {
      if id !in jobs || T.Terminal(jobs[id].state) {
        return Err(T.TransitionRejected);
      }
      jobs := jobs[id := jobs[id].(state := T.Failed, updatedAt := now)];
      return Ok(());
    }

    method OrphanSubmission(id: string, remoteId: string, now: int) returns (r: Result<(), T.StoreError>)
      modifies this`jobs
      ensures match T.OrphanSubmission(old(jobs), id, remoteId, now)
        case Ok(after) => r == Ok(()) && jobs == after
        case Err(e) => r == Err(e) && jobs == old(jobs)
    {
      if id !in jobs || jobs[id].state != T.Submitting {
        return Err(T.TransitionRejected);
      }
      jobs := jobs[id := jobs[id].(state := T.Failed, remoteId := remoteId, updatedAt := now)];
      return Ok(());
    }

    method BumpRetries(id: string, now: int) returns (r: Result<nat, T.StoreError>)
      modifies this`jobs
      ensures match T.BumpRetries(old(jobs), id, now)
        case Ok((after, n)) => r == Ok(n) && jobs == after
        case Err(e) => r == Err(e) && jobs == old(jobs)
    {
      if id !in jobs {
        return Err(T.NoRows);
      }
      var n := jobs[id].retries + 1;
      jobs := jobs[id := jobs[id].(retries := n, updatedAt := now)];
      return Ok(n);
    }

    /** One of the oldest rows of a set. */
    method Oldest(rest: set<string>) returns (id: string)
      requires rest != {} && rest <= jobs.Keys
      ensures id in rest && forall k :: k in rest ==> jobs[id].createdAt <= jobs[k].createdAt
    {
      id :| id in rest;
      var left := rest - {id};
      while left != {}
        invariant id in rest && left <= rest
        invariant forall k :: k in rest - left ==> jobs[id].createdAt <= jobs[k].createdAt
        decreases |left|
      {
        var k :| k in left;
        if jobs[k].createdAt < jobs[id].createdAt {
          id := k;
        }
        left := left - {k};
      }
    }

    /** The oldest rows in a state, no more than the limit. */
    method JobsByState(state: T.JobState, limit: nat) returns (rows: seq<T.Snap>)
      ensures T.IsScan(jobs, state, limit, rows)
    {
      var page: seq<string> := [];
      var rest := T.InState(jobs, state);
      while |page| < limit && rest != {}
        invariant |page| <= limit && rest <= T.InState(jobs, state)
        invariant forall id :: id in T.InState(jobs, state) ==> (id in rest <==> id !in page)
        invariant forall i :: 0 <= i < |page| ==> page[i] in T.InState(jobs, state)
        invariant forall i, j :: 0 <= i < j < |page| ==> page[i] != page[j]
        invariant forall i, j :: 0 <= i < j < |page| ==> jobs[page[i]].createdAt <= jobs[page[j]].createdAt
        invariant forall i, id :: 0 <= i < |page| && id in rest ==> jobs[page[i]].createdAt <= jobs[id].createdAt
        decreases |rest|
      {
        var id := Oldest(rest);
        page := page + [id];
        rest := rest - {id};
      }
      rows := T.Snaps(jobs, page);
      assert T.Ids(rows) == page;
    }

    method DequeueQueued(limit: nat) returns (rows: seq<T.Snap>)
      ensures T.IsScan(jobs, T.Queued, limit, rows)
    {
      rows := JobsByState(T.Queued, limit);
    }

    method SubmittingJobs() returns (rows: seq<T.Snap>)
      ensures T.IsScan(jobs, T.Submitting, T.SCAN_LIMIT, rows)
    {
      rows := JobsByState(T.Submitting, T.SCAN_LIMIT);
    }

    /** Submitted rows and then running ones. */
    method ActiveJobs() returns (submitted: seq<T.Snap>, running: seq<T.Snap>)
      ensures T.IsScan(jobs, T.Submitted, T.SCAN_LIMIT, submitted)
      ensures T.IsScan(jobs, T.Running, T.SCAN_LIMIT, running)
    {
      submitted := JobsByState(T.Submitted, T.SCAN_LIMIT);
      running := JobsByState(T.Running, T.SCAN_LIMIT);
    }

    // ---------- Songs ----------

    method CreateSong(id: string, jobId: string, userId: string, audioPath: string)
      modifies this`songs
      ensures songs == T.CreateSong(old(songs), id, T.Song(jobId, T.OrElse(userId, T.LEGACY_USER), audioPath))
    {
      var existing := SongForJob(jobId);
      if id in songs || existing.Some? {
        return;
      }
      songs := songs[id := T.Song(jobId, T.OrElse(userId, T.LEGACY_USER), audioPath)];
    }

    /** The id of the song a job produced. */
    method SongForJob(jobId: string) returns (r: Option<string>)
      ensures r.Some? <==> T.HasSong(songs, jobId)
      ensures r.Some? ==> r.value in songs && songs[r.value].jobId == jobId
    {
      var rest := songs.Keys;
      while rest != {}
        invariant rest <= songs.Keys
        invariant forall id :: id in songs.Keys - rest ==> songs[id].jobId != jobId
        decreases |rest|
      {
        var id :| id in rest;
        if songs[id].jobId == jobId {
          return Some(id);
        }
        rest := rest - {id};
      }
      return None;
    }

    method DeleteSong(id: string, a: T.Access) returns (r: Option<T.Song>)
      modifies this`songs, this`jobs
      ensures match T.DeleteSong(old(View()), id, a)
        case Some(after) => id in old(songs) && r == Some(old(songs)[id]) && View() == after
        case None => r == None && View() == old(View())
    {
      if id !in songs || !T.OwnedBy(a, songs[id].userId) {
        return None;
      }
      var song := songs[id];
      songs := songs - {id};
      if song.jobId != "" {
        jobs := jobs - {song.jobId};
      }
      return Some(song);
    }

    // ---------- Accounts ----------

    method CreateUser(id: string, u: T.User) returns (r: Result<(), T.StoreError>)
      modifies this`users
      ensures match T.CreateUser(old(users), id, u)
        case Ok(after) => r == Ok(()) && users == after
        case Err(e) => r == Err(e) && users == old(users)
    {
      if id in users || T.NameTaken(users, u.username) {
        return Err(T.UsernameTaken);
      }
      users := users[id := T.User(u.username, T.OrElse(u.status, T.PENDING), T.OrElse(u.role, T.ROLE_USER))];
      return Ok(());
    }

    method GuardLastAdmin(id: string) returns (refusal: Option<T.StoreError>)
      ensures refusal == T.GuardLastAdmin(users, id)
    {
      if id !in users {
        return Some(T.NoRows);
      }
      if users[id].role != T.ROLE_ADMIN || users[id].status != T.APPROVED {
        return None;
      }
      var others := CountOtherAdmins(id);
      return if others == 0 then Some(T.LastAdmin) else None;
    }

    method CountOtherAdmins(id: string) returns (others: nat)
      ensures others > 0 <==> T.OtherAdmin(users, id)
    {
      others := 0;
      var rest := users.Keys;
      while rest != {}
        invariant rest <= users.Keys
        invariant others > 0 <==> exists k :: k in users.Keys - rest && k != id && T.ApprovedAdmin(users[k])
        decreases |rest|
      {
        var k :| k in rest;
        if k != id && T.ApprovedAdmin(users[k]) {
          others := others + 1;
        }
        rest := rest - {k};
      }
    }

    /** An account that is no longer approved loses its sessions in the same step. */
    method UpdateUserStatus(id: string, status: string) returns (r: Result<(), T.StoreError>)
      modifies this`users, this`sessions
      ensures match T.UpdateUserStatus(old(View()), id, status)
        case Ok(after) => r == Ok(()) && View() == after
        case Err(e) => r == Err(e) && View() == old(View())
    {
      if !T.KnownStatus(status) {
        return Err(T.UnknownStatus);
      }
      if status != T.APPROVED {
        var refusal := GuardLastAdmin(id);
        if refusal.Some? {
          return Err(refusal.value);
        }
      }
      if id !in users {
        return Err(T.NoRows);
      }
      users := users[id := users[id].(status := status)];
      if status != T.APPROVED {
        sessions := T.SessionsWithout(sessions, id);
      }
      return Ok(());
    }

    method UserFiles(id: string) returns (paths: seq<string>)
      ensures forall p :: p in paths <==> p in T.UserFiles(View(), id)
    {
      var audio := SongFiles(id);
      var staged := UploadFiles(id);
      return audio + staged;
    }

    method SongFiles(id: string) returns (paths: seq<string>)
      ensures forall p :: p in paths <==>
        exists k :: k in songs && songs[k].userId == id && songs[k].audioPath != "" && songs[k].audioPath == p
    {
      paths := [];
      var rest := songs.Keys;
      while rest != {}
        invariant rest <= songs.Keys
        invariant forall p :: p in paths <==>
          exists k :: k in songs.Keys - rest && songs[k].userId == id && songs[k].audioPath != "" && songs[k].audioPath == p
        decreases |rest|
      {
        var k :| k in rest;
        if songs[k].userId == id && songs[k].audioPath != "" {
          paths := paths + [songs[k].audioPath];
        }
        rest := rest - {k};
      }
    }

    method UploadFiles(id: string) returns (paths: seq<string>)
      ensures forall p :: p in paths <==>
        exists k :: k in uploads && uploads[k].userId == id && k != "" && T.UPLOAD_DIR + k == p
    {
      paths := [];
      var rest := uploads.Keys;
      while rest != {}
        invariant rest <= uploads.Keys
        invariant forall p :: p in paths <==>
          exists k :: k in uploads.Keys - rest && uploads[k].userId == id && k != "" && T.UPLOAD_DIR + k == p
        decreases |rest|
      {
        var k :| k in rest;
        if uploads[k].userId == id && k != "" {
          paths := paths + [T.UPLOAD_DIR + k];
        }
        rest := rest - {k};
      }
    }

    /** Removes an account with everything filed under it and names the files to unlink. */
    method DeleteUser(id: string) returns (r: Result<seq<string>, T.StoreError>)
      modifies this
      ensures match T.DeleteUser(old(View()), id)
        case Ok(after) => r.Ok? && View() == after && forall p :: p in r.value <==> p in T.UserFiles(old(View()), id)
        case Err(e) => r == Err(e) && View() == old(View())
    {
      var refusal := GuardLastAdmin(id);
      if refusal.Some? {
        return Err(refusal.value);
      }
      var paths := UserFiles(id);
      DeleteUserRows(id);
      return Ok(paths);
    }

    method DeleteUserRows(id: string)
      modifies this
      ensures View() == T.WithoutUser(old(View()), id)
    {
      DeleteLinks(id);
      uploads := map k | k in uploads && uploads[k].userId != id :: uploads[k];
      songs := map k | k in songs && songs[k].userId != id :: songs[k];
      jobs := map k | k in jobs && jobs[k].userId != id :: jobs[k];
      sessions := T.SessionsWithout(sessions, id);
      users := users - {id};
    }

    /** The links to an account's songs, then those to its uploads. */
    method DeleteLinks(id: string)
      modifies this`links
      ensures links == T.WithoutUser(old(View()), id).links
    {
      links := map k | k in links && !(links[k].kind.AudioLink? && T.LinkOf(View(), links[k], id)) :: links[k];
      links := map k | k in links && !(links[k].kind.SourceLink? && T.LinkOf(View(), links[k], id)) :: links[k];
    }
  }
}
