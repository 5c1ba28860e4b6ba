/** The in-memory store of the user service: users created or updated from
    verified token claims, indexed by id and by OIDC subject, and the clan
    members, kept in insertion order. Generated ids and timestamps are
    parameters. */
module UserStore {
  import opened Common
  import opened Json
  import Auth

  const Leader: string := "LEADER"
  const MemberRole: string := "MEMBER"
  const Provider: string := "keycloak"
  const MissingSubMessage: string := "Token missing sub"
  const PlaceholderDomain: string := "@placeholder.local"
  const UsernamePrefix: string := "user_"

  datatype User = User(
    id: string, oidcSub: string, provider: string, email: Json, username: Json,
    role: string, isActive: bool, createdAt: string, updatedAt: string)

  datatype Member = Member(id: string, email: Json, username: Option<Json>, role: Json, isActive: bool, createdAt: string)

  // ---------------------------------------------------------------------
  // Users

  /** The two user indexes. */
  datatype Users = Users(byId: map<string, User>, bySub: map<string, User>)

  /** Every user is stored under its own id, and every subject leads to
      the user of that subject, the same one the id index holds. */
  ghost predicate UsersOk(users: Users) {
    && (forall k :: k in users.byId ==> users.byId[k].id == k)
    && (forall s :: s in users.bySub ==>
          && users.bySub[s].oidcSub == s
          && users.bySub[s].id in users.byId
          && users.byId[users.bySub[s].id] == users.bySub[s])
  }

  /** The role claim as `token?.realm_access?.roles || []` reads it. */
  function RolesClaim(token: Json): Json {
    var found := Auth.GetValueByPath(Some(token), Auth.DefaultRolePath);
    if Truthy(found) then found.value else JArr([])
  }

  /** Whether `roles.includes('LEADER')` holds: array membership, or a
      substring when the claim is a string. */
  predicate IncludesLeader(roles: Json) {
    (roles.JArr? && JStr(Leader) in roles.items) || (roles.JStr? && Contains(roles.s, Leader))
  }

  /** The role a token grants: LEADER when its roles include LEADER,
      otherwise MEMBER. A roles claim without `includes` is a TypeError. */
  function TokenRole(token: Json): (r: Result<string, Error>)
    ensures r.Success? <==> RolesClaim(token).JArr? || RolesClaim(token).JStr?
    ensures r.Success? ==> (r.value == Leader <==> IncludesLeader(RolesClaim(token)))
    ensures r.Success? ==> r.value == Leader || r.value == MemberRole
  {
    var roles := RolesClaim(token);
    if roles.JArr? || roles.JStr? then Success(if IncludesLeader(roles) then Leader else MemberRole)
    else Failure(Error("TypeError", "roles.includes is not a function", None))
  }

  /** The roles claim read from a token's own claims. */
  lemma RolesClaimOfClaims(claims: map<string, Json>)
    ensures Auth.RealmRoles(claims).Some? ==> RolesClaim(JObj(claims)) == JArr(Auth.RealmRoles(claims).value)
    ensures Auth.RealmAccessKey !in claims ==> RolesClaim(JObj(claims)) == JArr([])
  {
    Auth.DefaultPathReadsRealmRoles(claims);
    if Auth.RealmAccessKey !in claims {
      Auth.DefaultRolePathKeys();
      Auth.GetValueByPathDot(Some(JObj(claims)), Auth.RealmAccessKey, Auth.RolesKey);
      Auth.GetValueByPathKey(Some(JObj(claims)), Auth.RealmAccessKey);
      Auth.GetValueByPathOfFalsy(None, Auth.RolesKey);
    }
  }

  /** A token whose `realm_access.roles` claim is an array is a LEADER's
      exactly when the array holds "LEADER"; a token without such a claim
      is a MEMBER's. */
  lemma TokenRoleOfClaims(claims: map<string, Json>)
    ensures Auth.RealmRoles(claims).Some? ==>
              TokenRole(JObj(claims)) == Success(if JStr(Leader) in Auth.RealmRoles(claims).value then Leader else MemberRole)
    ensures Auth.RealmAccessKey !in claims ==> TokenRole(JObj(claims)) == Success(MemberRole)
  {
    RolesClaimOfClaims(claims);
  }

  /** The outcome of an upsert: the indexes afterwards and the user returned
      (or the error thrown). */
  datatype Upserted = Upserted(users: Users, result: Result<User, Error>)

  /** The user created for a first token: the claims' email and
      preferred_username, or placeholders derived from the subject. */
  function NewUser(token: Json, sub: string, role: string, newId: string, now: string): (u: User)
    ensures u.id == newId && u.oidcSub == sub && u.role == role && u.isActive
    ensures u.createdAt == now && u.updatedAt == now && u.provider == Provider
    ensures Truthy(Prop(token, "email")) ==> u.email == Prop(token, "email").value
    ensures !Truthy(Prop(token, "email")) ==> u.email == JStr(sub + PlaceholderDomain)
    ensures Truthy(Prop(token, "preferred_username")) ==> u.username == Prop(token, "preferred_username").value
    ensures !Truthy(Prop(token, "preferred_username")) ==>
              u.username == JStr(UsernamePrefix + sub[..if |sub| < 8 then |sub| else 8])
  {
    var email := Prop(token, "email");
    var name := Prop(token, "preferred_username");
    User(newId, sub, Provider,
         if Truthy(email) then email.value else JStr(sub + PlaceholderDomain),
         if Truthy(name) then name.value else JStr(UsernamePrefix + JsSlice(sub, 0, 8)),
         role, true, now, now)
  }

  /** The indexes after the token of subject `sub` granting `role` was
      accepted: a new user for a new subject, otherwise the same user with
      the role updated when it changed. */
  function Record(users: Users, token: Json, sub: string, role: string, newId: string, now: string): (u: Upserted)
    ensures u.result.Success?
  {
    if sub !in users.bySub then
      var user := NewUser(token, sub, role, newId, now);
      Upserted(Users(users.byId[newId := user], users.bySub[sub := user]), Success(user))
    else
      var user := users.bySub[sub];
      if user.role == role then Upserted(users, Success(user))
      else
        var changed := user.(role := role, updatedAt := now);
        Upserted(Users(users.byId[user.id := changed], users.bySub[sub := changed]), Success(changed))
  }

  /** `upsertUserFromToken(token)` on the indexes `users`. */
  function Upsert(users: Users, token: Json, newId: string, now: string): (u: Upserted)
    ensures !Truthy(Prop(token, "sub")) ==> u == Upserted(users, Failure(Raise(MissingSubMessage)))
    ensures u.result.Failure? ==> u.users == users
    ensures u.result.Success? <==> HasSub(token) && TokenRole(token).Success?
    ensures u.result.Success? ==> u == Record(users, token, SubOf(token), TokenRole(token).value, newId, now)
  {
    var sub := Prop(token, "sub");
    if !Truthy(sub) then Upserted(users, Failure(Raise(MissingSubMessage)))
    else if !sub.value.JStr? then Upserted(users, Failure(Error("TypeError", "sub.slice is not a function", None)))
    else
      match TokenRole(token)
      case Failure(e) => Upserted(users, Failure(e))
      case Success(role) => Record(users, token, sub.value.s, role, newId, now)
  }

  /** The subject of a token the upsert accepts. */
  predicate HasSub(token: Json) {
    Truthy(Prop(token, "sub")) && Prop(token, "sub").value.JStr?
  }

  function SubOf(token: Json): string
    requires HasSub(token)
  {
    Prop(token, "sub").value.s
  }

  /** The first token of a subject creates one user, under the new id and
      under the subject, with the role the token grants. */
  lemma UpsertCreates(users: Users, token: Json, newId: string, now: string)
    requires HasSub(token) && TokenRole(token).Success? && SubOf(token) !in users.bySub
    ensures var u := Upsert(users, token, newId, now);
            && u.result.Success?
            && u.result.value == NewUser(token, SubOf(token), TokenRole(token).value, newId, now)
            && u.users.byId == users.byId[newId := u.result.value]
            && u.users.bySub == users.bySub[SubOf(token) := u.result.value]
  {
  }

  /** A later token of the same subject returns the same user; only its
      role and, when the role changed, its update time differ, and no other
      user is touched. */
  lemma UpsertExisting(users: Users, token: Json, newId: string, now: string)
    requires UsersOk(users)
    requires HasSub(token) && TokenRole(token).Success? && SubOf(token) in users.bySub
    ensures var before := users.bySub[SubOf(token)];
            var role := TokenRole(token).value;
            var u := Upsert(users, token, newId, now);
            && u.result.Success?
            && u.result.value == before.(role := role, updatedAt := if before.role == role then before.updatedAt else now)
            && u.users.byId.Keys == users.byId.Keys
            && (forall k :: k in users.byId && k != before.id ==> u.users.byId[k] == users.byId[k])
  {
    RecordExisting(users, token, SubOf(token), TokenRole(token).value, newId, now);
  }

  lemma RecordExisting(users: Users, token: Json, sub: string, role: string, newId: string, now: string)
    requires UsersOk(users) && sub in users.bySub
    ensures var before := users.bySub[sub];
            var u := Record(users, token, sub, role, newId, now);
            && u.result.value == before.(role := role, updatedAt := if before.role == role then before.updatedAt else now)
            && u.users.byId.Keys == users.byId.Keys
            && (forall k :: k in users.byId && k != before.id ==> u.users.byId[k] == users.byId[k])
  {
  }

  /** Recording a subject on valid indexes with an unused id keeps them valid. */
  lemma RecordKeepsUsersOk(users: Users, token: Json, sub: string, role: string, newId: string, now: string)
    requires UsersOk(users) && newId !in users.byId
    ensures UsersOk(Record(users, token, sub, role, newId, now).users)
  {
    var u := Record(users, token, sub, role, newId, now);
    if sub !in users.bySub {
      forall t | t in u.users.bySub
        ensures u.users.bySub[t].oidcSub == t && u.users.bySub[t].id in u.users.byId
                && u.users.byId[u.users.bySub[t].id] == u.users.bySub[t]
      {
        if t != sub {
          assert users.bySub[t].id != newId;
        }
      }
    } else {
      var before := users.bySub[sub];
      forall t | t in u.users.bySub
        ensures u.users.bySub[t].oidcSub == t && u.users.bySub[t].id in u.users.byId
                && u.users.byId[u.users.bySub[t].id] == u.users.bySub[t]
      {
        if t != sub {
          assert users.bySub[t].oidcSub != sub;
        }
      }
    }
  }

  /** Upserting valid indexes with an unused id keeps them valid. */
  lemma UpsertKeepsUsersOk(users: Users, token: Json, newId: string, now: string)
    requires UsersOk(users) && newId !in users.byId
    ensures UsersOk(Upsert(users, token, newId, now).users)
  {
    if HasSub(token) && TokenRole(token).Success? {
      RecordKeepsUsersOk(users, token, SubOf(token), TokenRole(token).value, newId, now);
    }
  }

  /** Recording the same subject and role again changes nothing. */
  lemma RecordAgain(users: Users, token: Json, sub: string, role: string, id1: string, id2: string, now1: string, now2: string)
    requires UsersOk(users) && id1 !in users.byId
    ensures var first := Record(users, token, sub, role, id1, now1);
            Record(first.users, token, sub, role, id2, now2) == first
  {
    var first := Record(users, token, sub, role, id1, now1);
    RecordKeepsUsersOk(users, token, sub, role, id1, now1);
    assert sub in first.users.bySub && first.users.bySub[sub] == first.result.value;
    assert first.result.value.role == role;
  }

  /** A second upsert of the same token changes nothing and returns the
      same user. */
  lemma UpsertIdempotent(users: Users, token: Json, id1: string, id2: string, now1: string, now2: string)
    requires UsersOk(users) && id1 !in users.byId
    ensures var first := Upsert(users, token, id1, now1);
            Upsert(first.users, token, id2, now2) == first
  {
    if HasSub(token) && TokenRole(token).Success? {
      RecordAgain(users, token, SubOf(token), TokenRole(token).value, id1, id2, now1, now2);
    }
  }

  // ---------------------------------------------------------------------
  // Members

  /** The member map and the order in which its keys were inserted. */
  datatype Members = Members(byId: map<string, Member>, order: seq<string>)

  ghost predicate Distinct(s: seq<string>) {
    forall i, j :: 0 <= i < j < |s| ==> s[i] != s[j]
  }

  /** The order lists every key once, and every member is stored under its id. */
  ghost predicate MembersOk(ms: Members) {
    && Distinct(ms.order)
    && (forall k :: k in ms.byId <==> k in ms.order)
    && (forall k :: k in ms.byId ==> ms.byId[k].id == k)
  }

  /** The member `addMember` builds: a null email when none is given, the
      role MEMBER when none is given, and active. */
  function NewMember(email: Option<Json>, username: Option<Json>, role: Option<Json>, newId: string, now: string): (m: Member)
    ensures m.id == newId && m.isActive && m.createdAt == now
    ensures m.email == (if Truthy(email) then email.value else JNull)
    ensures m.username == username
    ensures m.role == (if role.None? then JStr(MemberRole) else role.value)
  {
    Member(newId, if Truthy(email) then email.value else JNull, username,
           if role.None? then JStr(MemberRole) else role.value, true, now)
  }

  /** `membersById.set(id, m)`: a new key goes last, an existing key keeps its place. */
  function AddTo(ms: Members, m: Member): (r: Members)
    ensures r.byId == ms.byId[m.id := m]
  {
    Members(ms.byId[m.id := m], if m.id in ms.byId then ms.order else ms.order + [m.id])
  }

  /** The keys of `s` other than `id`, in order. */
  function Without(s: seq<string>, id: string): (r: seq<string>)
    ensures forall x :: x in r <==> x in s && x != id
    ensures Distinct(s) ==> Distinct(r)
  {
    if s == [] then []
    else if s[0] == id then Without(s[1..], id)
    else
      var rest := Without(s[1..], id);
      assert Distinct(s) ==> s[0] !in s[1..];
      [s[0]] + rest
  }

  /** `membersById.delete(id)`: whether the key was there, and the map without it. */
  function DeleteFrom(ms: Members, id: string): (r: (Members, bool))
    ensures r.1 <==> id in ms.byId
    ensures r.0.byId == ms.byId - {id}
  {
    (Members(ms.byId - {id}, Without(ms.order, id)), id in ms.byId)
  }

  /** `Array.from(membersById.values())`: the members in insertion order. */
  function List(ms: Members): (r: seq<Member>)
    requires MembersOk(ms)
    ensures |r| == |ms.order|
    ensures forall i :: 0 <= i < |r| ==> r[i] == ms.byId[ms.order[i]]
  {
    seq(|ms.order|, i requires 0 <= i < |ms.order| && MembersOk(ms) => ms.byId[ms.order[i]])
  }

  /** Adding keeps the members consistent. */
  lemma AddKeepsMembersOk(ms: Members, m: Member)
    requires MembersOk(ms)
    ensures MembersOk(AddTo(ms, m))
  {
    var r := AddTo(ms, m);
    if m.id !in ms.byId {
      forall i, j | 0 <= i < j < |r.order|
        ensures r.order[i] != r.order[j]
      {
        if j == |ms.order| {
          assert r.order[i] in ms.order;
        }
      }
    }
  }

  /** Deleting keeps the members consistent, removes the key, and leaves
      every other member and the order of the rest as they were. */
  lemma DeleteKeepsMembersOk(ms: Members, id: string)
    requires MembersOk(ms)
    ensures var r := DeleteFrom(ms, id).0;
            && MembersOk(r)
            && id !in r.byId
            && (forall k :: k in ms.byId && k != id ==> k in r.byId && r.byId[k] == ms.byId[k])
  {
  }

  /** The list holds every stored member exactly once. */
  lemma ListEachOnce(ms: Members)
    requires MembersOk(ms)
    ensures var r := List(ms);
            && (forall k :: k in ms.byId <==> exists i :: 0 <= i < |r| && r[i].id == k)
            && (forall i, j :: 0 <= i < j < |r| ==> r[i].id != r[j].id)
            && (forall i :: 0 <= i < |r| ==> r[i] == ms.byId[r[i].id])
  {
    var r := List(ms);
    forall k | k in ms.byId
      ensures exists i :: 0 <= i < |r| && r[i].id == k
    {
      var i :| 0 <= i < |ms.order| && ms.order[i] == k;
      assert r[i].id == k;
    }
  }

  /** A consistent member list has one entry per stored member. */
  lemma ListLength(ms: Members)
    requires MembersOk(ms)
    ensures |List(ms)| == |ms.byId|
  {
    DistinctCard(ms.order);
    assert ms.byId.Keys == set k | k in ms.order;
  }

  lemma {:induction false} DistinctCard(s: seq<string>)
    requires Distinct(s)
    ensures |set k | k in s| == |s|
  {
    if s != [] {
      DistinctCard(s[1..]);
      assert (set k | k in s) == {s[0]} + (set k | k in s[1..]);
      assert s[0] !in s[1..];
    }
  }

  /** An added member is found under its id, and listed last when new. */
  lemma AddThenList(ms: Members, m: Member)
    requires MembersOk(ms) && m.id !in ms.byId
    ensures MembersOk(AddTo(ms, m)) && List(AddTo(ms, m)) == List(ms) + [m]
  {
    AddKeepsMembersOk(ms, m);
    var r := AddTo(ms, m);
    assert forall i :: 0 <= i < |ms.order| ==> r.order[i] == ms.order[i] && ms.order[i] != m.id;
  }

  // ---------------------------------------------------------------------
  // The store

  class MemoryStore {
    var usersById: map<string, User>
    var usersBySub: map<string, User>
    var membersById: map<string, Member>
    var memberOrder: seq<string>

    function UsersState(): Users
      reads this
    {
      Users(usersById, usersBySub)
    }

    function MembersState(): Members
      reads this
    {
      Members(membersById, memberOrder)
    }

    ghost predicate Valid()
      reads this
    {
      MembersOk(MembersState()) && UsersOk(UsersState())
    }

    constructor ()
      ensures Valid()
      ensures usersById == map[] && usersBySub == map[] && membersById == map[] && memberOrder == []
    {
      usersById := map[];
      usersBySub := map[];
      membersById := map[];
      memberOrder := [];
    }

    /** `upsertUserFromToken(token)`, with the id `genId` would draw. */
    method UpsertUserFromToken(token: Json, newId: string, now: string) returns (r: Result<User, Error>)
      requires Valid()
      modifies this
      ensures Upserted(UsersState(), r) == Upsert(old(UsersState()), token, newId, now)
      ensures membersById == old(membersById) && memberOrder == old(memberOrder)
      ensures newId !in old(usersById) ==> Valid()
    {
      var u := Upsert(UsersState(), token, newId, now);
      if newId !in usersById {
        UpsertKeepsUsersOk(UsersState(), token, newId, now);
      }
      usersById := u.users.byId;
      usersBySub := u.users.bySub;
      r := u.result;
    }

    /** `getUserById(id)`: the user, or null. */
    function GetUserById(id: string): (r: Option<User>)
      reads this
      ensures r.Some? <==> id in usersById
      ensures r.Some? ==> r.value == usersById[id]
    {
      if id in usersById then Some(usersById[id]) else None
    }

    /** `listMembers()` */
    function ListMembers(): (r: seq<Member>)
      requires Valid()
      reads this
      ensures r == List(MembersState())
    {
      List(MembersState())
    }

    /** `addMember({ email, username, role })`, with the id `genId` would draw. */
    method AddMember(email: Option<Json>, username: Option<Json>, role: Option<Json>, newId: string, now: string)
      returns (m: Member)
      requires Valid()
      modifies this
      ensures Valid()
      ensures m == NewMember(email, username, role, newId, now)
      ensures MembersState() == AddTo(old(MembersState()), m)
      ensures usersById == old(usersById) && usersBySub == old(usersBySub)
    {
      m := NewMember(email, username, role, newId, now);
      AddKeepsMembersOk(MembersState(), m);
      var r := AddTo(MembersState(), m);
      membersById := r.byId;
      memberOrder := r.order;
    }

    /** `getMember(id)`: the member, or null. */
    function GetMember(id: string): (r: Option<Member>)
      reads this
      ensures r.Some? <==> id in membersById
      ensures r.Some? ==> r.value == membersById[id]
    {
      if id in membersById then Some(membersById[id]) else None
    }

    /** `deleteMember(id)`: true exactly when the member was there. */
    method DeleteMember(id: string) returns (ok: bool)
      requires Valid()
      modifies this
      ensures Valid()
      ensures (MembersState(), ok) == DeleteFrom(old(MembersState()), id)
      ensures usersById == old(usersById) && usersBySub == old(usersBySub)
    {
      DeleteKeepsMembersOk(MembersState(), id);
      var r := DeleteFrom(MembersState(), id);
      membersById := r.0.byId;
      memberOrder := r.0.order;
      ok := r.1;
    }
  }
}
