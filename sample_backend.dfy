/** The sample backend: a members table with an autoincrement id, a
    matches table keyed by match id and filled with INSERT OR IGNORE, the
    member-by-name lookup in front of the Riot routes, and the paged
    match list with its per-match fallback. The Riot replies are an
    `Upstream` value and `toISOString` is a parameter. */
module SampleBackend {
  import opened Common
  import opened Json
  import opened RiotData
  import opened SampleRiot

  const NameRequired: string := "name 필수"
  const NoSuchMember: string := "해당 멤버 없음"
  const NothingToRegister: string := "등록할 경기가 없습니다."
  const DefaultPage: int := 1
  const DefaultPageSize: int := 5
  const NoQueue: string := "-"

  /** A route's answer: a 200 with its JSON value, an `{ error }` body with
      a status, or an error thrown out of the handler. */
  datatype Answer<T> = Sent(value: T) | Refused(status: int, error: string) | Thrown(thrown: Error)

  /** What a TEXT column holds for a bound value: NULL for undefined and
      null, the text of a string, the decimal text of a number, 1 or 0 for
      a boolean, and the string form of anything else. */
  function SqlText(v: Option<Json>): (t: Option<string>)
    ensures t.None? <==> v.None? || v.value.JNull?
    ensures v.Some? && v.value.JStr? ==> t == Some(v.value.s)
  {
    if v.None? then None
    else
      match v.value
      case JNull => None
      case JStr(s) => Some(s)
      case JNum(n) => Some(IntToString(n))
      case JBool(b) => Some(if b then "1" else "0")
      case _ => Some(ToJsString(v.value))
  }

  // ---------------------------------------------------------------------
  // The members table

  datatype MemberRow = MemberRow(id: nat, name: string, tag: Option<string>)

  /** The `{ id, name, tag }` echoed after an insert; an undefined tag is
      left out of the JSON. */
  datatype MemberEcho = MemberEcho(id: nat, name: Json, tag: Option<Json>)

  /** `SELECT tag FROM members WHERE name = ?` with `db.get`: the tag of
      the first row with that name, None when there is no such row. */
  function TagOf(rows: seq<MemberRow>, name: string): (r: Option<Option<string>>)
    ensures r.Some? <==> exists i :: 0 <= i < |rows| && rows[i].name == name
    ensures r.Some? ==> exists i :: 0 <= i < |rows| && rows[i].name == name && rows[i].tag == r.value
                                    && forall j :: 0 <= j < i ==> rows[j].name != name
  {
    if rows == [] then None
    else if rows[0].name == name then Some(rows[0].tag)
    else
      var rest := TagOf(rows[1..], name);
      assert forall i :: 1 <= i < |rows| ==> rows[i] == rows[1..][i - 1];
      rest
  }

  /** Names are not unique: a later row with a name already present never
      changes what the lookup answers, and a new name is found with the
      tag it was added with. */
  lemma {:induction false} LookupAfterInsert(rows: seq<MemberRow>, row: MemberRow, name: string)
    ensures TagOf(rows, name).Some? ==> TagOf(rows + [row], name) == TagOf(rows, name)
    ensures TagOf(rows, name).None? && row.name == name ==> TagOf(rows + [row], name) == Some(row.tag)
    ensures TagOf(rows, name).None? && row.name != name ==> TagOf(rows + [row], name).None?
  {
    if rows != [] {
      assert (rows + [row])[1..] == rows[1..] + [row];
      LookupAfterInsert(rows[1..], row, name);
    }
  }

  /** Ids are positive, strictly increasing in table order, and never
      above the last id handed out. */
  ghost predicate IdsIncreasing(rows: seq<MemberRow>, lastId: nat) {
    && (forall i :: 0 <= i < |rows| ==> 1 <= rows[i].id <= lastId)
    && (forall i, j :: 0 <= i < j < |rows| ==> rows[i].id < rows[j].id)
  }

  // ---------------------------------------------------------------------
  // The matches table

  datatype MatchRow = MatchRow(matchId: Option<string>, registeredAt: string, registrant: string)

  /** The row `stmt.run(match.matchId, now, match.registrant || '')` binds. */
  function RowOf(item: Json, now: string): (row: MatchRow)
    ensures row.matchId == SqlText(Prop(item, "matchId")) && row.registeredAt == now
    ensures !Truthy(Prop(item, "registrant")) ==> row.registrant == ""
  {
    var registrant := Prop(item, "registrant");
    MatchRow(SqlText(Prop(item, "matchId")), now,
             if Truthy(registrant) then SqlText(registrant).value else "")
  }

  /** Whether a row with this (non-NULL) match id is in the table. */
  predicate Registered(table: seq<MatchRow>, id: string) {
    exists i :: 0 <= i < |table| && table[i].matchId == Some(id)
  }

  /** INSERT OR IGNORE on the primary key `matchId`: a row whose id is
      already present is ignored; a NULL id never conflicts. */
  function InsertOrIgnore(table: seq<MatchRow>, row: MatchRow): (t: seq<MatchRow>)
    ensures row.matchId.Some? && Registered(table, row.matchId.value) ==> t == table
    ensures !(row.matchId.Some? && Registered(table, row.matchId.value)) ==> t == table + [row]
  {
    if row.matchId.Some? && Registered(table, row.matchId.value) then table else table + [row]
  }

  /** The table after binding each item in order. */
  function InsertAll(table: seq<MatchRow>, items: seq<Json>, now: string): seq<MatchRow>
    decreases |items|
  {
    if items == [] then table
    else InsertOrIgnore(InsertAll(table, items[..|items| - 1], now), RowOf(items[|items| - 1], now))
  }

  /** Binding one more item extends the fold by that item. */
  lemma InsertAllStep(table: seq<MatchRow>, items: seq<Json>, i: nat, now: string)
    requires i < |items|
    ensures InsertAll(table, items[..i + 1], now) == InsertOrIgnore(InsertAll(table, items[..i], now), RowOf(items[i], now))
  {
    assert items[..i + 1][..i] == items[..i];
  }

  /** The index of the first null item (whose `matchId` cannot be read),
      or the length when there is none. */
  function FirstNull(items: seq<Json>): (k: nat)
    ensures k <= |items|
    ensures forall i :: 0 <= i < k ==> !items[i].JNull?
    ensures k < |items| ==> items[k].JNull?
  {
    if items == [] then 0
    else if items[0].JNull? then 0
    else
      var k := 1 + FirstNull(items[1..]);
      assert forall i :: 1 <= i < |items| ==> items[i] == items[1..][i - 1];
      k
  }

  /** Non-NULL match ids are unique in the table. */
  ghost predicate KeysDistinct(table: seq<MatchRow>) {
    forall i, j :: 0 <= i < j < |table| && table[i].matchId.Some? ==> table[i].matchId != table[j].matchId
  }

  /** Registering never touches a row already in the table: an id that is
      registered again keeps its original time and registrant. */
  lemma {:induction false} InsertAllKeepsRows(table: seq<MatchRow>, items: seq<Json>, now: string)
    ensures |InsertAll(table, items, now)| >= |table|
    ensures InsertAll(table, items, now)[..|table|] == table
    decreases |items|
  {
    if items != [] {
      InsertAllKeepsRows(table, items[..|items| - 1], now);
      var before := InsertAll(table, items[..|items| - 1], now);
      assert (before + [RowOf(items[|items| - 1], now)])[..|table|] == before[..|table|];
    }
  }

  /** INSERT OR IGNORE keeps match ids unique. */
  lemma {:induction false} InsertAllKeepsKeysDistinct(table: seq<MatchRow>, items: seq<Json>, now: string)
    requires KeysDistinct(table)
    ensures KeysDistinct(InsertAll(table, items, now))
    decreases |items|
  {
    if items != [] {
      InsertAllKeepsKeysDistinct(table, items[..|items| - 1], now);
      var before := InsertAll(table, items[..|items| - 1], now);
      var row := RowOf(items[|items| - 1], now);
      if !(row.matchId.Some? && Registered(before, row.matchId.value)) {
        var after := before + [row];
        forall i, j | 0 <= i < j < |after| && after[i].matchId.Some?
          ensures after[i].matchId != after[j].matchId
        {
          if j == |before| {
            assert after[i] == before[i];
          }
        }
      }
    }
  }

  /** After registering, every item with a readable non-null id is in the table. */
  lemma {:induction false} InsertAllRegisters(table: seq<MatchRow>, items: seq<Json>, now: string, k: nat)
    requires k < |items| && RowOf(items[k], now).matchId.Some?
    ensures Registered(InsertAll(table, items, now), RowOf(items[k], now).matchId.value)
    decreases |items|
  {
    var before := InsertAll(table, items[..|items| - 1], now);
    var row := RowOf(items[|items| - 1], now);
    var id := RowOf(items[k], now).matchId.value;
    if k < |items| - 1 {
      assert items[..|items| - 1][k] == items[k];
      InsertAllRegisters(table, items[..|items| - 1], now, k);
      var i :| 0 <= i < |before| && before[i].matchId == Some(id);
      InsertAllKeepsRows(before, [items[|items| - 1]], now);
      assert InsertAll(table, items, now) == InsertOrIgnore(before, row);
      assert InsertOrIgnore(before, row)[i] == before[i];
    } else if !Registered(before, id) {
      assert InsertAll(table, items, now)[|before|] == row;
    }
  }

  /** Items whose ids are all registered already change nothing. */
  lemma {:induction false} InsertAllOfRegistered(table: seq<MatchRow>, items: seq<Json>, now: string)
    requires forall k :: 0 <= k < |items| ==> RowOf(items[k], now).matchId.Some?
                                               && Registered(table, RowOf(items[k], now).matchId.value)
    ensures InsertAll(table, items, now) == table
    decreases |items|
  {
    if items != [] {
      InsertAllOfRegistered(table, items[..|items| - 1], now);
    }
  }

  /** Registering the same ids twice is the same as registering them
      once, at any later time: the second pass is ignored entirely. */
  lemma Reregistering(table: seq<MatchRow>, items: seq<Json>, now: string, later: string)
    requires forall k :: 0 <= k < |items| ==> Prop(items[k], "matchId").Some? && !Prop(items[k], "matchId").value.JNull?
    ensures InsertAll(InsertAll(table, items, now), items, later) == InsertAll(table, items, now)
  {
    var once := InsertAll(table, items, now);
    forall k | 0 <= k < |items|
      ensures RowOf(items[k], later).matchId.Some? && Registered(once, RowOf(items[k], later).matchId.value)
    {
      InsertAllRegisters(table, items, now, k);
    }
    InsertAllOfRegistered(once, items, later);
  }

  // ---------------------------------------------------------------------
  // The paged match list

  /** `parseInt(req.query.page, 10) || 1` and `parseInt(req.query.pageSize, 10) || 5` */
  function PageOf(q: Option<string>): int {
    ParseIntOr(q, true, DefaultPage)
  }

  function PageSizeOf(q: Option<string>): int {
    ParseIntOr(q, true, DefaultPageSize)
  }

  /** `matchIds.slice(start, start + pageSize)` with `start = (page - 1) * pageSize`. */
  function Window(ids: seq<string>, page: int, size: int): seq<string> {
    var start := (page - 1) * size;
    JsSlice(ids, start, start + size)
  }

  function Min(a: int, b: int): int {
    if a <= b then a else b
  }

  /** A page of a positive number with a positive size is the slice
      `[(page-1)*size, page*size)` of the ids, cut off at their end. */
  lemma WindowOfPage(ids: seq<string>, page: int, size: int)
    requires page >= 1 && size >= 1
    ensures (page - 1) * size >= 0 && (page - 1) * size + size == page * size
    ensures Window(ids, page, size) == ids[Min((page - 1) * size, |ids|)..Min(page * size, |ids|)]
    ensures |Window(ids, page, size)| <= size
  {
    assert (page - 1) * size + size == page * size;
    assert (page - 1) * size >= 0 by {
      assert page - 1 >= 0;
    }
  }

  /** Pages 1 to k, one after the other. */
  function Pages(ids: seq<string>, size: int, k: nat): seq<string> {
    if k == 0 then [] else Pages(ids, size, k - 1) + Window(ids, k, size)
  }

  /** Walking the pages in order visits each id once, in list order: the
      first k pages are exactly the first k*size ids. */
  lemma {:induction false} PagesCover(ids: seq<string>, size: int, k: nat)
    requires size >= 1
    ensures k * size >= 0
    ensures Pages(ids, size, k) == ids[..Min(k * size, |ids|)]
  {
    if k > 0 {
      PagesCover(ids, size, k - 1);
      WindowOfPage(ids, k, size);
      var a := Min((k - 1) * size, |ids|);
      var b := Min(k * size, |ids|);
      assert Pages(ids, size, k) == ids[..a] + ids[a..b];
      assert ids[..a] + ids[a..b] == ids[..b];
    }
  }

  /** The count of each side of a KDA, any of them possibly undefined. */
  datatype KdaCounts = KdaCounts(kills: Option<int>, deaths: Option<int>, assists: Option<int>)

  /** One entry of the list: `queueType` is the queue id or `-`, `date`
      the ISO start time or null, `kda` the player's counts or null. */
  datatype MatchSummary = MatchSummary(matchId: string, queueType: Json, date: Option<string>, kda: Option<KdaCounts>)

  /** The entry of a match whose detail could not be used. */
  function Fallback(id: string): MatchSummary {
    MatchSummary(id, JStr(NoQueue), None, None)
  }

  /** The participant whose `puuid` equals the player's (both possibly undefined). */
  predicate IsPlayerOf(p: Participant, puuid: Option<string>) {
    p.puuid == puuid
  }

  /** The KDA counts of the first participant with the player's PUUID;
      None when the detail has no participants or none of them matches. */
  function KdaOf(d: Detail, puuid: Option<string>): (r: Option<KdaCounts>)
    ensures r.Some? <==> (ParticipantsOf(Some(d)).Some?
                          && exists i :: 0 <= i < |ParticipantsOf(Some(d)).value|
                                         && IsPlayerOf(ParticipantsOf(Some(d)).value[i], puuid))
    ensures r.Some? ==> exists i :: 0 <= i < |ParticipantsOf(Some(d)).value|
                                    && IsPlayerOf(ParticipantsOf(Some(d)).value[i], puuid)
                                    && (forall j :: 0 <= j < i ==> !IsPlayerOf(ParticipantsOf(Some(d)).value[j], puuid))
                                    && var p := ParticipantsOf(Some(d)).value[i];
                                       r.value == KdaCounts(p.kills, p.deaths, p.assists)
  {
    var ps := ParticipantsOf(Some(d));
    if ps.None? then None
    else
      match FindFirst(ps.value, p => IsPlayerOf(p, puuid))
      case None => None
      case Some(i) => Some(KdaCounts(ps.value[i].kills, ps.value[i].deaths, ps.value[i].assists))
  }

  /** The start time of a match, undefined when it has no `info`. */
  function StartOf(d: Detail): Option<int> {
    if d.info.Some? then d.info.value.gameStartTimestamp else None
  }

  /** The entry of one id, given the reply to its detail request and
      `toISOString` (None for a time it throws on). A failed request, an
      absent body, or a start time that cannot be formatted gives the
      fallback entry. */
  function SummaryOf(id: string, puuid: Option<string>, reply: Reply<Detail>, iso: int -> Option<string>): (s: MatchSummary)
    ensures s.matchId == id
    ensures reply.Failure? || reply.value.None? ==> s == Fallback(id)
    ensures reply.Success? && reply.value.Some? && s != Fallback(id) ==> s.kda == KdaOf(reply.value.value, puuid)
    ensures reply.Success? && reply.value.Some? ==>
              var d := reply.value.value;
              && (StartOf(d).Some? && StartOf(d).value != 0 && iso(StartOf(d).value).None? ==> s == Fallback(id))
              && (StartOf(d).Some? && StartOf(d).value != 0 && iso(StartOf(d).value).Some? ==>
                    s.date == iso(StartOf(d).value))
              && (StartOf(d).None? || StartOf(d).value == 0 ==> s.date.None?)
              && (s != Fallback(id) && d.info.Some? && d.info.value.queueId.Some? && d.info.value.queueId.value != 0 ==>
                    s.queueType == JNum(d.info.value.queueId.value))
              && (!(d.info.Some? && d.info.value.queueId.Some? && d.info.value.queueId.value != 0) ==>
                    s.queueType == JStr(NoQueue))
  {
    if reply.Failure? || reply.value.None? then Fallback(id)
    else
      var d := reply.value.value;
      var info := d.info;
      var queue := if info.Some? && info.value.queueId.Some? && info.value.queueId.value != 0
                   then JNum(info.value.queueId.value) else JStr(NoQueue);
      var start := StartOf(d);
      if start.Some? && start.value != 0 && iso(start.value).None? then Fallback(id)
      else
        var date := if start.Some? && start.value != 0 then iso(start.value) else None;
        MatchSummary(id, queue, date, KdaOf(d, puuid))
  }

  /** The entries of a window, the j-th answered by `detail(j)`. */
  function Summaries(window: seq<string>, puuid: Option<string>, detail: nat -> Reply<Detail>,
                     iso: int -> Option<string>): (r: seq<MatchSummary>)
    ensures |r| == |window|
    ensures forall j :: 0 <= j < |window| ==> r[j] == SummaryOf(window[j], puuid, detail(j), iso)
  {
    seq(|window|, j requires 0 <= j < |window| => SummaryOf(window[j], puuid, detail(j), iso))
  }

  /** The body of the list: the entries of the page and the length of the
      whole listing. */
  datatype PageBody = PageBody(matches: seq<MatchSummary>, total: nat)

  // ---------------------------------------------------------------------
  // The database and the routes

  class Db {
    var members: seq<MemberRow>
    var lastId: nat
    var matches: seq<MatchRow>

    ghost predicate Valid()
      reads this
    {
      IdsIncreasing(members, lastId) && KeysDistinct(matches)
    }

    /** Both tables empty. */
    constructor ()
      ensures Valid()
      ensures members == [] && lastId == 0 && matches == []
    {
      members := [];
      lastId := 0;
      matches := [];
    }

    /** `POST /api/members`: 400 without a truthy name; otherwise the row
        is inserted with the next id and the tag (NULL when undefined or
        null), and the id, name and tag are echoed. */
    method AddMember(body: Json) returns (r: Answer<MemberEcho>)
      requires Valid()
      modifies this
      ensures Valid()
      ensures matches == old(matches)
      ensures !Truthy(Prop(body, "name")) ==> r == Refused(400, NameRequired)
                                              && members == old(members) && lastId == old(lastId)
      ensures Truthy(Prop(body, "name")) ==>
                && lastId == old(lastId) + 1
                && members == old(members) + [MemberRow(lastId, SqlText(Prop(body, "name")).value, SqlText(Prop(body, "tag")))]
                && r == Sent(MemberEcho(lastId, Prop(body, "name").value, Prop(body, "tag")))
    {
      var name := Prop(body, "name");
      if !Truthy(name) {
        return Refused(400, NameRequired);
      }
      lastId := lastId + 1;
      members := members + [MemberRow(lastId, SqlText(name).value, SqlText(Prop(body, "tag")))];
      r := Sent(MemberEcho(lastId, name.value, Prop(body, "tag")));
    }

    /** `POST /api/matches`: 400 unless the body is a non-empty array;
        otherwise each item is bound in order with INSERT OR IGNORE. A null
        item throws when its `matchId` is read, after the items before it. */
    method RegisterMatches(body: Json, now: string) returns (r: Answer<bool>)
      requires Valid()
      modifies this
      ensures Valid()
      ensures members == old(members) && lastId == old(lastId)
      ensures !(body.JArr? && |body.items| > 0) ==> r == Refused(400, NothingToRegister) && matches == old(matches)
      ensures body.JArr? && |body.items| > 0 ==>
                var k := FirstNull(body.items);
                && matches == InsertAll(old(matches), body.items[..k], now)
                && (k == |body.items| ==> r == Sent(true))
                && (k < |body.items| ==> r == Thrown(Error("TypeError", "Cannot read properties of null (reading 'matchId')", None)))
    {
      if !(body.JArr? && |body.items| > 0) {
        return Refused(400, NothingToRegister);
      }
      var items := body.items;
      var k := FirstNull(items);
      ghost var table := matches;
      var i := 0;
      while i < k
        invariant 0 <= i <= k
        invariant matches == InsertAll(table, items[..i], now)
        invariant KeysDistinct(matches)
        invariant members == old(members) && lastId == old(lastId)
      {
        InsertAllStep(table, items, i, now);
        InsertAllKeepsKeysDistinct(matches, [items[i]], now);
        matches := InsertOrIgnore(matches, RowOf(items[i], now));
        i := i + 1;
      }
      if k < |items| {
        return Thrown(Error("TypeError", "Cannot read properties of null (reading 'matchId')", None));
      }
      r := Sent(true);
    }

    /** `GET /api/riot/latest-match/:name`: 404 for an unknown member;
        otherwise the latest match of the name and the member's tag (a
        NULL tag is sent as `null`), or 400 with the error's message. */
    function LatestMatchRoute(name: string, up: Upstream): (r: Answer<Option<Detail>>)
      reads this
      ensures TagOf(members, name).None? <==> r == Refused(404, NoSuchMember)
      ensures TagOf(members, name).Some? ==>
                var o := LatestMatch(name, TagText(TagOf(members, name).value), up);
                && (o.result.Success? ==> r == Sent(o.result.value))
                && (o.result.Failure? ==> r == Refused(400, o.result.error.message))
    {
      match TagOf(members, name)
      case None => Refused(404, NoSuchMember)
      case Some(tag) =>
        var o := LatestMatch(name, TagText(tag), up);
        if o.result.Success? then Sent(o.result.value) else Refused(400, o.result.error.message)
    }

    /** `GET /api/riot/matches/:name`: 404 for an unknown member, 400 with
        the message of a failed PUUID or listing request, and otherwise the
        window's entries in window order with the length of the listing. */
    function MatchesRoute(name: string, pageQ: Option<string>, sizeQ: Option<string>,
                          up: Upstream, iso: int -> Option<string>): (r: Answer<PageBody>)
      reads this
      ensures TagOf(members, name).None? <==> r == Refused(404, NoSuchMember)
      ensures TagOf(members, name).Some? && up.account.Failure? ==> r == Refused(400, up.account.error.message)
      ensures (TagOf(members, name).Some? && up.account.Success? && up.matchIds.Failure?)
                ==> r == Refused(400, up.matchIds.error.message)
      ensures r.Sent? <==> TagOf(members, name).Some? && up.account.Success? && up.matchIds.Success?
                           && up.matchIds.value.Some?
      ensures r.Sent? ==> var ids := up.matchIds.value.value;
                          var window := Window(ids, PageOf(pageQ), PageSizeOf(sizeQ));
                          && r.value.total == |ids|
                          && |r.value.matches| == |window|
                          && (forall j :: 0 <= j < |window| ==> r.value.matches[j].matchId == window[j])
                          && r.value.matches == Summaries(window, up.account.value, up.detail, iso)
    {
      match TagOf(members, name)
      case None => Refused(404, NoSuchMember)
      case Some(_) =>
        if up.account.Failure? then Refused(400, up.account.error.message)
        else if up.matchIds.Failure? then Refused(400, up.matchIds.error.message)
        else if up.matchIds.value.None? then Refused(400, ReadOfUndefined("slice").message)
        else
          var ids := up.matchIds.value.value;
          var window := Window(ids, PageOf(pageQ), PageSizeOf(sizeQ));
          Sent(PageBody(Summaries(window, up.account.value, up.detail, iso), |ids|))
    }
  }

  /** `${tag}` for a column value that may be NULL. */
  function TagText(tag: Option<string>): string {
    if tag.Some? then tag.value else "null"
  }

  /** Without query parameters the list is the first five ids of the
      listing, or all of them when there are fewer. */
  lemma DefaultPageIsFirstFive(ids: seq<string>)
    ensures Window(ids, PageOf(None), PageSizeOf(None)) == ids[..Min(5, |ids|)]
  {
    WindowOfPage(ids, 1, 5);
  }
}
