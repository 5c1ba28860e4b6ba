/** The clan controller of the user service: listing, adding, reading and
    deleting clan members over the memory store, with the statuses and
    bodies it answers with. */
module ClanController {
  import opened Common
  import opened Json
  import opened UserStore

  const InvalidInput: string := "INVALID_INPUT"
  const NotFound: string := "NOT_FOUND"
  const UsernameRequired: string := "username is required"
  const MemberNotFound: string := "Member not found"
  const MemberDeleted: string := "Member deleted successfully"

  /** A member as its JSON object; an undefined username is left out, as
      `JSON.stringify` drops undefined properties. */
  function MemberJson(m: Member): Json {
    var fields := map["id" := JStr(m.id), "email" := m.email, "role" := m.role,
                      "isActive" := JBool(m.isActive), "createdAt" := JStr(m.createdAt)];
    JObj(if m.username.Some? then fields["username" := m.username.value] else fields)
  }

  /** `{ page: 1, limit: n, total: n, totalPages: 1 }` */
  function Pagination(n: nat): Json {
    JObj(map["page" := JNum(1), "limit" := JNum(n), "total" := JNum(n), "totalPages" := JNum(1)])
  }

  /** The 404 of an unknown member id. */
  function MemberNotFoundResponse(): Response {
    Response(404, ErrorBody(NotFound, MemberNotFound))
  }

  class ClanController {
    const store: MemoryStore

    constructor (store: MemoryStore)
      ensures this.store == store
    {
      this.store := store;
    }

    /** `listMembers`: every member in insertion order, with a single page
        as large as the list. */
    function ListMembers(): (r: Response)
      requires store.Valid()
      reads store
      ensures r.status == 200 && Prop(r.body, "success") == Some(JBool(true))
      ensures Prop(r.body, "data").Some? && Prop(Prop(r.body, "data").value, "members").Some?
      ensures var members := Prop(Prop(r.body, "data").value, "members").value;
              && members.JArr? && |members.items| == |store.memberOrder|
              && forall i :: 0 <= i < |members.items| ==>
                   members.items[i] == MemberJson(store.membersById[store.memberOrder[i]])
    {
      var members := store.ListMembers();
      Response(200, OkBody(JObj(map["members" := JArr(seq(|members|, i requires 0 <= i < |members| => MemberJson(members[i]))),
                                    "pagination" := Pagination(|members|)])))
    }

    /** `addMember`: 400 INVALID_INPUT, with the store untouched, when the
        body has no truthy `username`; otherwise 201 with the member added. */
    method AddMember(body: Option<Json>, newId: string, now: string) returns (r: Response)
      requires store.Valid()
      modifies store
      ensures store.Valid()
      ensures var b := if Truthy(body) then body.value else JObj(map[]);
              if !Truthy(Prop(b, "username")) then
                r == Response(400, ErrorBody(InvalidInput, UsernameRequired))
                && store.MembersState() == old(store.MembersState())
              else
                var m := NewMember(Prop(b, "email"), Prop(b, "username"), Prop(b, "role"), newId, now);
                r == Response(201, OkBody(MemberJson(m)))
                && store.MembersState() == AddTo(old(store.MembersState()), m)
      ensures store.usersById == old(store.usersById) && store.usersBySub == old(store.usersBySub)
    {
      var b := if Truthy(body) then body.value else JObj(map[]);
      var username := Prop(b, "username");
      if !Truthy(username) {
        return Response(400, ErrorBody(InvalidInput, UsernameRequired));
      }
      var m := store.AddMember(Prop(b, "email"), username, Prop(b, "role"), newId, now);
      r := Response(201, OkBody(MemberJson(m)));
    }

    /** `getMember`: 200 with the member, or 404 NOT_FOUND. */
    function GetMember(userId: string): (r: Response)
      reads store
      ensures r.status == 200 <==> userId in store.membersById
      ensures r.status == 200 ==> r.body == OkBody(MemberJson(store.membersById[userId]))
      ensures r.status != 200 ==> r == MemberNotFoundResponse()
    {
      var m := store.GetMember(userId);
      if m.None? then MemberNotFoundResponse() else Response(200, OkBody(MemberJson(m.value)))
    }

    /** `deleteMember`: 200 when the member was there (and is now gone),
        404 NOT_FOUND otherwise. */
    method DeleteMember(userId: string) returns (r: Response)
      requires store.Valid()
      modifies store
      ensures store.Valid()
      ensures r.status == 200 <==> userId in old(store.membersById)
      ensures r.status == 200 ==> r.body == JObj(map["success" := JBool(true), "message" := JStr(MemberDeleted)])
      ensures r.status != 200 ==> r == MemberNotFoundResponse()
      ensures store.MembersState() == DeleteFrom(old(store.MembersState()), userId).0
      ensures store.usersById == old(store.usersById) && store.usersBySub == old(store.usersBySub)
    {
      var ok := store.DeleteMember(userId);
      if !ok {
        return MemberNotFoundResponse();
      }
      r := Response(200, JObj(map["success" := JBool(true), "message" := JStr(MemberDeleted)]));
    }
  }

  /** The page a listing reports always covers the whole list: its limit
      and total are the number of members listed, and every stored member
      is among them. */
  lemma ListIsOnePage(c: ClanController)
    requires c.store.Valid()
    ensures var body := c.ListMembers().body;
            var data := Prop(body, "data").value;
            && Prop(data, "members").value.JArr?
            && Prop(data, "pagination") == Some(Pagination(|Prop(data, "members").value.items|))
            && |Prop(data, "members").value.items| == |c.store.membersById|
            && forall k :: k in c.store.membersById ==> MemberJson(c.store.membersById[k]) in Prop(data, "members").value.items
  {
    var ms := c.store.MembersState();
    ListLength(ms);
    var items := Prop(Prop(c.ListMembers().body, "data").value, "members").value.items;
    forall k | k in c.store.membersById
      ensures MemberJson(c.store.membersById[k]) in items
    {
      var i :| 0 <= i < |ms.order| && ms.order[i] == k;
      assert items[i] == MemberJson(c.store.membersById[k]);
    }
  }
}
