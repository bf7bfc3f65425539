/**
  Accounts: no sequence of sign-ups, status changes and deletions takes away the
  last approved administrator, two accounts never share a name, and a deletion
  removes one account's rows and no one else's.
*/
module Accounts {
  import opened Prelude
  import opened StoreTables

  datatype Op =
    | SignUp(id: string, user: User)
    | SetStatus(id: string, status: string)
    | Remove(id: string)

  /** A refused operation writes nothing. */
  function Apply(t: Tables, op: Op): Tables {
    match op
    case SignUp(id, user) =>
      (match CreateUser(t.users, id, user)
       case Ok(users) => t.(users := users)
       case Err(_) => t)
    case SetStatus(id, status) =>
      (match UpdateUserStatus(t, id, status)
       case Ok(after) => after
       case Err(_) => t)
    case Remove(id) =>
      match DeleteUser(t, id)
      case Ok(after) => after
      case Err(_) => t
  }

  function ApplyAll(t: Tables, ops: seq<Op>): Tables
    decreases |ops|
  {
    if ops == [] then t else ApplyAll(Apply(t, ops[0]), ops[1..])
  }

  // ---------- The last administrator ----------

  ghost predicate HasAdmin(users: map<string, User>) {
    exists id :: id in users && users[id].role == "admin" && users[id].status == "approved"
  }

  ghost predicate OnlyAdmin(users: map<string, User>, id: string) {
    forall k :: k in users && users[k].role == "admin" && users[k].status == "approved" <==> k == id
  }

  /** An unguarded step leaves an administrator: this one, if it was not one, or another. */
  lemma GuardLeavesAdmin(users: map<string, User>, id: string)
    requires HasAdmin(users) && GuardLastAdmin(users, id).None?
    ensures exists other :: other in users && other != id && ApprovedAdmin(users[other])
  {
    if !ApprovedAdmin(users[id]) {
      var k :| k in users && ApprovedAdmin(users[k]);
      assert k != id;
    }
  }

  lemma AdminSurvives(users: map<string, User>, after: map<string, User>, id: string)
    requires exists other :: other in users && other != id && ApprovedAdmin(users[other])
    requires forall k :: k in users && k != id ==> k in after && after[k] == users[k]
    ensures HasAdmin(after)
  {
    var other :| other in users && other != id && ApprovedAdmin(users[other]);
    assert other in after && ApprovedAdmin(after[other]);
  }

  lemma StatusKeepsAdmin(t: Tables, id: string, status: string)
    requires HasAdmin(t.users) && UpdateUserStatus(t, id, status).Ok?
    ensures HasAdmin(UpdateUserStatus(t, id, status).value.users)
  {
    var after := UpdateUserStatus(t, id, status).value.users;
    if status == APPROVED {
      var k :| k in t.users && t.users[k].role == "admin" && t.users[k].status == "approved";
      assert after == t.users[id := t.users[id].(status := status)];
      assert k in after && after[k].role == "admin" && after[k].status == "approved";
    } else {
      GuardLeavesAdmin(t.users, id);
      AdminSurvives(t.users, after, id);
    }
  }

  lemma RemovalKeepsAdmin(t: Tables, id: string)
    requires HasAdmin(t.users) && DeleteUser(t, id).Ok?
    ensures HasAdmin(DeleteUser(t, id).value.users)
  {
    GuardLeavesAdmin(t.users, id);
    AdminSurvives(t.users, DeleteUser(t, id).value.users, id);
  }

  lemma OpKeepsAdmin(t: Tables, op: Op)
    requires HasAdmin(t.users)
    ensures HasAdmin(Apply(t, op).users)
  {
    match op {
      case SignUp(id, user) =>
        var k :| k in t.users && t.users[k].role == "admin" && t.users[k].status == "approved";
        assert k in Apply(t, op).users && Apply(t, op).users[k] == t.users[k];
      case SetStatus(id, status) =>
        if UpdateUserStatus(t, id, status).Ok? {
          StatusKeepsAdmin(t, id, status);
        }
      case Remove(id) =>
        if DeleteUser(t, id).Ok? {
          RemovalKeepsAdmin(t, id);
        }
    }
  }

  /** Once there is an approved administrator, there always is one. */
  lemma {:induction false} AdminIsNeverLost(t: Tables, ops: seq<Op>)
    requires HasAdmin(t.users)
    ensures HasAdmin(ApplyAll(t, ops).users)
    decreases |ops|
  {
    if ops != [] {
      OpKeepsAdmin(t, ops[0]);
      AdminIsNeverLost(Apply(t, ops[0]), ops[1..]);
    }
  }

  /** The guard refuses exactly the steps that would leave none. */
  lemma RefusalIsExact(t: Tables, id: string, status: string)
    ensures DeleteUser(t, id) == Err(StoreError.LastAdmin) <==> OnlyAdmin(t.users, id)
    ensures UpdateUserStatus(t, id, status) == Err(StoreError.LastAdmin)
      <==> OnlyAdmin(t.users, id) && KnownStatus(status) && status != APPROVED
  {
    if OnlyAdmin(t.users, id) {
      assert id in t.users && ApprovedAdmin(t.users[id]);
      assert !OtherAdmin(t.users, id);
    } else if id in t.users && ApprovedAdmin(t.users[id]) {
      var k :| !(k in t.users && ApprovedAdmin(t.users[k]) <==> k == id);
      assert k in t.users && k != id && ApprovedAdmin(t.users[k]);
    }
  }

  /** A status change, and a deletion, go through exactly for accounts that are there, unless the guard refuses. */
  lemma ChangesAreAccepted(t: Tables, id: string, status: string)
    ensures DeleteUser(t, id).Ok? <==> id in t.users && !OnlyAdmin(t.users, id)
    ensures UpdateUserStatus(t, id, status).Ok?
      <==> id in t.users && status in {"pending", "approved", "disabled"} && (status == "approved" || !OnlyAdmin(t.users, id))
  {
    RefusalIsExact(t, id, status);
  }

  // ---------- Signing up ----------

  /** A sign-up through the form asks for no status and no role, or for a pending user's. */
  predicate ThroughTheForm(op: Op) {
    op.SignUp? ==> op.user.status in {"", "pending"} && op.user.role in {"", "user"}
  }

  lemma SignUpIsPending(t: Tables, op: Op)
    requires op.SignUp? && ThroughTheForm(op)
    ensures var after := Apply(t, op);
      && (after == t || (op.id !in t.users && after == t.(users := t.users[op.id := User(op.user.username, "pending", "user")])))
  {
  }

  /** Who is an administrator, or gets in, after one operation: who did before, or whom it approves. */
  lemma ApprovalIsGiven(t: Tables, op: Op, id: string)
    requires ThroughTheForm(op) && id in Apply(t, op).users
    ensures Apply(t, op).users[id].role == "admin" ==> id in t.users && t.users[id].role == "admin"
    ensures Apply(t, op).users[id].status == "approved"
      ==> op == SetStatus(id, "approved") || (id in t.users && t.users[id].status == "approved")
  {
    match op {
      case SignUp(_, _) => SignUpIsPending(t, op);
      case SetStatus(k, status) => StatusIsGiven(t, k, status);
      case Remove(k) => RemovalTakesUsers(t, k);
    }
  }

  lemma StatusIsGiven(t: Tables, id: string, status: string)
    ensures var users := Apply(t, SetStatus(id, status)).users;
      users == t.users || (id in t.users && users == t.users[id := t.users[id].(status := status)])
  {
  }

  lemma RemovalTakesUsers(t: Tables, id: string)
    ensures var users := Apply(t, Remove(id)).users; users == t.users || users == t.users - {id}
  {
  }

  /** Over any operations with sign-ups through the form, no one becomes an administrator, and only an approval approves. */
  lemma {:induction false} NoOneApprovesThemselves(t: Tables, ops: seq<Op>, id: string)
    requires (forall op :: op in ops ==> ThroughTheForm(op)) && id in ApplyAll(t, ops).users
    ensures ApplyAll(t, ops).users[id].role == "admin" ==> id in t.users && t.users[id].role == "admin"
    ensures ApplyAll(t, ops).users[id].status == "approved"
      ==> SetStatus(id, "approved") in ops || (id in t.users && t.users[id].status == "approved")
    decreases |ops|
  {
    if ops != [] {
      NoOneApprovesThemselves(Apply(t, ops[0]), ops[1..], id);
      if id in Apply(t, ops[0]).users {
        ApprovalIsGiven(t, ops[0], id);
      }
    }
  }

  // ---------- Names ----------

  /** The same letter, or the two cases of one letter from A to Z. */
  predicate SameButForCase(c: char, d: char) {
    c == d || ('A' <= c <= 'Z' && d as int == c as int + 32) || ('A' <= d <= 'Z' && c as int == d as int + 32)
  }

  predicate SameName(a: string, b: string) {
    |a| == |b| && forall i :: 0 <= i < |a| ==> SameButForCase(a[i], b[i])
  }

  lemma FoldsAlike(a: string, b: string)
    ensures Fold(a) == Fold(b) <==> SameName(a, b)
  {
    if Fold(a) == Fold(b) {
      assert |a| == |Fold(a)| && |b| == |Fold(b)|;
      forall i | 0 <= i < |a|
        ensures SameButForCase(a[i], b[i])
      {
        assert Fold(a)[i] == FoldChar(a[i]) && Fold(b)[i] == FoldChar(b[i]);
      }
    }
  }

  lemma SymmetricNames(a: string)
    ensures forall b :: SameName(a, b) <==> SameName(b, a)
  {
  }

  ghost predicate DistinctNames(users: map<string, User>) {
    forall a, b :: a in users && b in users && a != b ==> !SameName(users[a].username, users[b].username)
  }

  /** No two accounts ever have names that differ only in case. */
  lemma {:induction false} NamesStayDistinct(t: Tables, ops: seq<Op>)
    requires DistinctNames(t.users)
    ensures DistinctNames(ApplyAll(t, ops).users)
    decreases |ops|
  {
    if ops != [] {
      OpKeepsNames(t, ops[0]);
      NamesStayDistinct(Apply(t, ops[0]), ops[1..]);
    }
  }

  /** A sign-up goes through exactly when its id is new and no name is the same but for case. */
  lemma SignUpIsAccepted(users: map<string, User>, id: string, u: User)
    ensures CreateUser(users, id, u).Ok? <==>
      id !in users && forall k :: k in users ==> !SameName(users[k].username, u.username)
  {
    forall k | k in users
      ensures SameName(users[k].username, u.username) <==> Fold(users[k].username) == Fold(u.username)
    {
      FoldsAlike(users[k].username, u.username);
    }
  }

  lemma SignUpKeepsNames(users: map<string, User>, id: string, user: User)
    requires DistinctNames(users) && CreateUser(users, id, user).Ok?
    ensures DistinctNames(CreateUser(users, id, user).value)
  {
    SignUpIsAccepted(users, id, user);
    SymmetricNames(user.username);
  }

  lemma OpKeepsNames(t: Tables, op: Op)
    requires DistinctNames(t.users)
    ensures DistinctNames(Apply(t, op).users)
  {
    if op.SignUp? {
      if CreateUser(t.users, op.id, op.user).Ok? {
        SignUpKeepsNames(t.users, op.id, op.user);
      }
    } else {
      NamesAreNotChanged(t, op);
    }
  }

  lemma NamesAreNotChanged(t: Tables, op: Op)
    requires !op.SignUp?
    ensures forall k :: k in Apply(t, op).users ==> k in t.users && Apply(t, op).users[k].username == t.users[k].username
  {
  }

  // ---------- Deletion ----------

  /** What is filed under an account: its own row, its rows, and the links that serve them. */
  ghost predicate Nothing(t: Tables, id: string) {
    && id !in t.users
    && (forall k :: k in t.sessions ==> t.sessions[k].userId != id)
    && (forall k :: k in t.jobs ==> t.jobs[k].userId != id)
    && (forall k :: k in t.songs ==> t.songs[k].userId != id)
    && (forall k :: k in t.uploads ==> t.uploads[k].userId != id)
  }

  ghost predicate AllBut<V>(m: map<string, V>, after: map<string, V>, theirs: set<string>) {
    after.Keys == m.Keys - theirs && forall k :: k in after ==> after[k] == m[k]
  }

  /** A deletion removes exactly this account's rows and the links to them; every other row is untouched. */
  lemma DeletionIsExact(t: Tables, id: string)
    requires DeleteUser(t, id).Ok?
    ensures var after := DeleteUser(t, id).value;
      && Nothing(after, id)
      && AllBut(t.users, after.users, {id})
      && AllBut(t.sessions, after.sessions, set k | k in t.sessions && t.sessions[k].userId == id)
      && AllBut(t.jobs, after.jobs, set k | k in t.jobs && t.jobs[k].userId == id)
      && AllBut(t.songs, after.songs, set k | k in t.songs && t.songs[k].userId == id)
      && AllBut(t.uploads, after.uploads, set k | k in t.uploads && t.uploads[k].userId == id)
      && AllBut(t.links, after.links, set k | k in t.links && LinkOf(t, t.links[k], id))
  {
    var after := WithoutUser(t, id);
    var mine := set k | k in t.links && LinkOf(t, t.links[k], id);
    assert after.links.Keys == t.links.Keys - mine;
  }

  /** The files to unlink are those the removed rows name, and no others. */
  lemma FilesAreTheirs(t: Tables, id: string, path: string)
    ensures path in UserFiles(t, id) <==>
      || (exists k :: k in t.songs && t.songs[k].userId == id && path != "" && t.songs[k].audioPath == path)
      || (exists k :: k in t.uploads && t.uploads[k].userId == id && k != "" && path == "/data/sources/" + k)
  {
  }

  /** A song goes, and the job it names with it, exactly when its owner or an administrator asks; no other row does. */
  lemma SongDeletionIsExact(t: Tables, id: string, a: Access)
    ensures DeleteSong(t, id, a).Some? <==> id in t.songs && (a.admin || t.songs[id].userId == a.userId)
    ensures DeleteSong(t, id, a).Some? ==>
      var after, jobId := DeleteSong(t, id, a).value, t.songs[id].jobId;
      && AllBut(t.songs, after.songs, {id})
      && AllBut(t.jobs, after.jobs, if jobId == "" then {} else {jobId})
      && after == t.(songs := after.songs, jobs := after.jobs)
  {
  }

  ghost predicate Resolves(t: Tables, link: Link) {
    match link.kind
    case AudioLink => link.ref in t.songs
    case SourceLink => link.ref in t.uploads
  }

  /** No link is left pointing at something the deletion took away. */
  lemma DeletionLeavesNoDanglingLink(t: Tables, id: string)
    requires DeleteUser(t, id).Ok? && forall k :: k in t.links ==> Resolves(t, t.links[k])
    ensures var after := DeleteUser(t, id).value; forall k :: k in after.links ==> Resolves(after, after.links[k])
  {
    var after := DeleteUser(t, id).value;
    forall k | k in after.links
      ensures Resolves(after, after.links[k])
    {
      assert Resolves(t, t.links[k]) && !LinkOf(t, t.links[k], id);
    }
  }

  /** Taking an account off approved ends its sessions, and no one else's; approving ends none. */
  lemma DisablingEndsSessions(t: Tables, id: string, status: string)
    requires UpdateUserStatus(t, id, status).Ok?
    ensures var after := UpdateUserStatus(t, id, status).value;
      && after.users == t.users[id := t.users[id].(status := status)]
      && AllBut(t.sessions, after.sessions,
           if status == APPROVED then {} else set k | k in t.sessions && t.sessions[k].userId == id)
      && after == t.(users := after.users, sessions := after.sessions)
  {
  }
}
