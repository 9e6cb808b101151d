/** org.service.ts: membership, and the guard that keeps the last privileged member. */
module OrgService {
  import opened Core
  import opened MetaStore
  import opened World

  // ---------- Specification ----------

  function PrivilegedMembers(members: map<Id, Member>): set<Id> {
    set m | m in members && IsPrivileged(members[m].role)
  }

  predicate IsMember(members: map<Id, Member>, uid: Id) { exists m :: m in members && members[m].userId == uid }

  /**
   * An unknown email gets a user row first, in an update of its own. `uid` and `mid` are the keys of
   * new rows; a clash of keys fails the insert.
   */
  function AddMemberSpec(w: World, mid: Id, uid: Id, email: string, role: Role, scope: seq<Id>, env: Env): (World, Result<Id>) {
    if email !in w.users && (!env.commitOk || uid in w.users.Values) then (w, Err(DatabaseFailure))
    else
      var known := if email in w.users then w else w.(users := w.users[email := uid]);
      var user := known.users[email];
      if IsMember(known.members, user) then (known, Err(AlreadyMember))
      else if !env.followUpOk || mid in known.members then (known, Err(DatabaseFailure))
      else (known.(members := known.members[mid := Member(user, role, scope)]), Ok(mid))
  }

  function UpdateMemberSpec(w: World, mid: Id, role: Option<Role>, scope: Option<seq<Id>>, env: Env): (World, Result<Done>) {
    if mid !in w.members then (w, Err(NotFound))
    else
      var m := w.members[mid];
      if role.Some? && IsPrivileged(m.role) && !IsPrivileged(role.value) && PrivilegedMembers(w.members) - {mid} == {} then
        (w, Err(LastOwner))
      else if !env.commitOk then (w, Err(DatabaseFailure))
      else
        (w.(members := w.members[mid := Member(m.userId, role.GetOr(m.role), scope.GetOr(m.clientScope))]), Ok(Done))
  }

  function RemoveMemberSpec(w: World, mid: Id, env: Env): (World, Result<Done>) {
    if mid !in w.members then (w, Err(NotFound))
    else if IsPrivileged(w.members[mid].role) && PrivilegedMembers(w.members) - {mid} == {} then (w, Err(LastOwner))
    else if !env.commitOk then (w, Err(DatabaseFailure))
    else (w.(members := w.members - {mid}), Ok(Done))
  }

  // ---------- The service ----------

  method AddMember(db: Database, mc: MetaConnector, mid: Id, uid: Id, email: string, role: Role, scope: seq<Id>, env: Env)
    returns (r: Result<Id>)
    modifies db
    ensures (View(db, mc), r) == AddMemberSpec(old(View(db, mc)), mid, uid, email, role, scope, env)
  {
    if email !in db.users {
      if !env.commitOk || uid in db.users.Values { return Err(DatabaseFailure); }
      db.users := db.users[email := uid];
    }
    var user := db.users[email];
    if exists m :: m in db.members && db.members[m].userId == user { return Err(AlreadyMember); }
    if !env.followUpOk || mid in db.members { return Err(DatabaseFailure); }
    db.members := db.members[mid := Member(user, role, scope)];
    return Ok(mid);
  }

  /** Counts the privileged members other than one; refuses to go on when there are none. */
  method AssertNotLastPrivileged(db: Database, mid: Id) returns (ok: bool)
    ensures ok <==> PrivilegedMembers(db.members) - {mid} != {}
  {
    var others := set m | m in db.members && IsPrivileged(db.members[m].role) && m != mid;
    assert others == PrivilegedMembers(db.members) - {mid};
    ok := |others| != 0;
  }

  method UpdateMember(db: Database, mc: MetaConnector, mid: Id, role: Option<Role>, scope: Option<seq<Id>>, env: Env)
    returns (r: Result<Done>)
    modifies db
    ensures (View(db, mc), r) == UpdateMemberSpec(old(View(db, mc)), mid, role, scope, env)
  {
    if mid !in db.members { return Err(NotFound); }
    var member := db.members[mid];
    if role.Some? && IsPrivileged(member.role) && !IsPrivileged(role.value) {
      var ok := AssertNotLastPrivileged(db, mid);
      if !ok { return Err(LastOwner); }
    }
    if !env.commitOk { return Err(DatabaseFailure); }
    db.members := db.members[mid := Member(member.userId, role.GetOr(member.role), scope.GetOr(member.clientScope))];
    return Ok(Done);
  }

  method RemoveMember(db: Database, mc: MetaConnector, mid: Id, env: Env) returns (r: Result<Done>)
    modifies db
    ensures (View(db, mc), r) == RemoveMemberSpec(old(View(db, mc)), mid, env)
  {
    if mid !in db.members { return Err(NotFound); }
    if IsPrivileged(db.members[mid].role) {
      var ok := AssertNotLastPrivileged(db, mid);
      if !ok { return Err(LastOwner); }
    }
    if !env.commitOk { return Err(DatabaseFailure); }
    db.members := db.members - {mid};
    return Ok(Done);
  }

  // ---------- The guard ----------

  ghost predicate HasPrivileged(members: map<Id, Member>) { exists m :: m in members && members[m].role in {Admin, AgencyOwner} }

  lemma AddKeepsPrivileged(w: World, mid: Id, uid: Id, email: string, role: Role, scope: seq<Id>, env: Env)
    requires HasPrivileged(w.members)
    ensures HasPrivileged(AddMemberSpec(w, mid, uid, email, role, scope, env).0.members)
  {
    var m :| m in w.members && w.members[m].role in {Admin, AgencyOwner};
    var added := AddMemberSpec(w, mid, uid, email, role, scope, env).0.members;
    assert m in added && added[m] == w.members[m];
  }

  /** A demotion that goes through leaves another privileged member, or this one. */
  lemma UpdateKeepsPrivileged(w: World, mid: Id, change: Option<Role>, scope: Option<seq<Id>>, env: Env)
    requires HasPrivileged(w.members)
    ensures HasPrivileged(UpdateMemberSpec(w, mid, change, scope, env).0.members)
  {
    var m :| m in w.members && w.members[m].role in {Admin, AgencyOwner};
    var updated := UpdateMemberSpec(w, mid, change, scope, env).0.members;
    var o := AnotherIfAny(w.members, mid, m);
    assert o in updated;
    if o != mid { assert updated[o] == w.members[o]; }
  }

  lemma RemoveKeepsPrivileged(w: World, mid: Id, env: Env)
    requires HasPrivileged(w.members)
    ensures HasPrivileged(RemoveMemberSpec(w, mid, env).0.members)
  {
    var m :| m in w.members && w.members[m].role in {Admin, AgencyOwner};
    var removed := RemoveMemberSpec(w, mid, env).0.members;
    var o := AnotherIfAny(w.members, mid, m);
    assert o in removed;
  }

  /** A privileged member other than `mid` if there is one. */
  lemma AnotherIfAny(members: map<Id, Member>, mid: Id, m: Id) returns (o: Id)
    requires m in members && IsPrivileged(members[m].role)
    ensures o in members && IsPrivileged(members[o].role)
    ensures o == mid <==> PrivilegedMembers(members) - {mid} == {}
  {
    var others := PrivilegedMembers(members) - {mid};
    assert m in PrivilegedMembers(members);
    o := m;
    if others != {} { o :| o in others; } else { assert m !in others; }
  }

  // ---------- One row each ----------

  /** No two users share a key, and no two memberships a user. */
  ghost predicate OneRowEach(w: World) {
    && (forall e, f :: e in w.users && f in w.users && w.users[e] == w.users[f] ==> e == f)
    && (forall m, n :: m in w.members && n in w.members && w.members[m].userId == w.members[n].userId ==> m == n)
  }

  lemma AddKeepsOneRowEach(w: World, mid: Id, uid: Id, email: string, role: Role, scope: seq<Id>, env: Env)
    requires OneRowEach(w)
    ensures OneRowEach(AddMemberSpec(w, mid, uid, email, role, scope, env).0)
  {
  }

  lemma UpdateKeepsOneRowEach(w: World, mid: Id, change: Option<Role>, scope: Option<seq<Id>>, env: Env)
    requires OneRowEach(w)
    ensures OneRowEach(UpdateMemberSpec(w, mid, change, scope, env).0)
  {
  }

  lemma RemoveKeepsOneRowEach(w: World, mid: Id, env: Env)
    requires OneRowEach(w)
    ensures OneRowEach(RemoveMemberSpec(w, mid, env).0)
  {
  }

  // ---------- What is stored ----------

  /** A change that goes through stores exactly what was given, of one member. */
  lemma UpdateStores(w: World, mid: Id, change: Option<Role>, scope: Option<seq<Id>>, env: Env)
    requires UpdateMemberSpec(w, mid, change, scope, env).1.Ok?
    ensures mid in w.members
    ensures var was, now := w.members, UpdateMemberSpec(w, mid, change, scope, env).0.members;
      && now.Keys == was.Keys && (forall m :: m in was && m != mid ==> now[m] == was[m])
      && now[mid].userId == was[mid].userId
      && (if change.Some? then now[mid].role == change.value else now[mid].role == was[mid].role)
      && (if scope.Some? then now[mid].clientScope == scope.value else now[mid].clientScope == was[mid].clientScope)
  {
  }

  /** A new member has the role and scope given, and is the user of the email. */
  lemma AddStores(w: World, mid: Id, uid: Id, email: string, role: Role, scope: seq<Id>, env: Env)
    requires AddMemberSpec(w, mid, uid, email, role, scope, env).1.Ok?
    ensures var v := AddMemberSpec(w, mid, uid, email, role, scope, env).0;
      && mid !in w.members && v.members.Keys == w.members.Keys + {mid}
      && (forall m :: m in w.members ==> v.members[m] == w.members[m])
      && email in v.users && v.users[email] == (if email in w.users then w.users[email] else uid)
      && v.members[mid].userId == v.users[email] && v.members[mid].role == role && v.members[mid].clientScope == scope
  {
  }

  /** Removing takes away one row. */
  lemma RemoveTakesOne(w: World, mid: Id, env: Env)
    requires RemoveMemberSpec(w, mid, env).1.Ok?
    ensures var was, now := w.members, RemoveMemberSpec(w, mid, env).0.members;
      mid in was && now.Keys == was.Keys - {mid} && forall m :: m in now ==> now[m] == was[m]
  {
  }

  /** Removing, and demoting, is refused exactly to the only privileged member. */
  lemma LastOwnerIff(w: World, mid: Id, change: Role, scope: Option<seq<Id>>, env: Env)
    requires mid in w.members
    ensures var last := w.members[mid].role in {Admin, AgencyOwner}
                        && forall m :: m in w.members && w.members[m].role in {Admin, AgencyOwner} ==> m == mid;
      && (RemoveMemberSpec(w, mid, env) == (w, Err(LastOwner)) <==> last)
      && (UpdateMemberSpec(w, mid, Some(change), scope, env) == (w, Err(LastOwner)) <==> last && change !in {Admin, AgencyOwner})
  {
    var others := PrivilegedMembers(w.members) - {mid};
    forall m | m in w.members ensures m in others <==> w.members[m].role in {Admin, AgencyOwner} && m != mid {}
  }

  /** A user is added exactly when not a member yet, known or new, and the rows go in. */
  lemma AddGoesThroughIff(w: World, mid: Id, uid: Id, email: string, role: Role, scope: seq<Id>, env: Env)
    ensures AddMemberSpec(w, mid, uid, email, role, scope, env).1.Ok? <==>
      && (email in w.users || (env.commitOk && forall e :: e in w.users ==> w.users[e] != uid))
      && (forall m :: m in w.members ==> w.members[m].userId != if email in w.users then w.users[email] else uid)
      && env.followUpOk && mid !in w.members
  {
    assert uid in w.users.Values <==> exists e :: e in w.users && w.users[e] == uid;
  }
}
