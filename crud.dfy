/**
 * The database operations behind the API, over an in-memory store: the viewing-request table
 * is a sequence of rows that the status update and the insert change, and the room table is a
 * sequence the room query reads.
 */
module Crud {
  import opened Wrappers
  import opened Sorting
  import Schemas

  /** A row of the viewing-request table; `createdAt` is the insertion time as a number. */
  datatype ViewingRequest = ViewingRequest(
    id: int,
    propertyId: int,
    name: string,
    email: string,
    phone: string,
    preferredDate: string,
    preferredTime: Option<string>,
    message: Option<string>,
    createdAt: int,
    status: string)

  /** A row of the room table. */
  datatype RoomRow = RoomRow(
    id: int,
    propertyId: int,
    name: string,
    roomType: string,
    description: string,
    dimensions: Option<string>,
    features: seq<string>,
    images: seq<string>,
    displayOrder: int)

  const AllowedStatuses: set<string> := {"pending", "approved", "rejected"}
  const InvalidStatus := "Invalid status"
  const DefaultStatus := "pending"

  /** The largest page a listing returns, whatever limit is asked for. */
  const MaxPage := 100

  /** No two rows share an id (the primary key). */
  predicate UniqueIds(requests: seq<ViewingRequest>) {
    forall i, j :: 0 <= i < j < |requests| ==> requests[i].id != requests[j].id
  }

  predicate StatusesAllowed(requests: seq<ViewingRequest>) {
    forall k :: 0 <= k < |requests| ==> requests[k].status in AllowedStatuses
  }

  // ---- Lookups ----

  /** `get_viewing_request`: where the row with this id is, if any. */
  function FindRequest(requests: seq<ViewingRequest>, id: int): (r: Option<nat>)
    ensures r.Some? ==> r.value < |requests| && requests[r.value].id == id
    ensures r.None? <==> forall k :: 0 <= k < |requests| ==> requests[k].id != id
  {
    if requests == [] then None
    else if requests[0].id == id then Some(0)
    else
      match FindRequest(requests[1..], id)
      case None => None
      case Some(k) => Some(k + 1)
  }

  /** With unique ids, the row found is the only one with that id. */
  lemma FindRequestUnique(requests: seq<ViewingRequest>, id: int, k: nat)
    requires UniqueIds(requests)
    requires k < |requests| && requests[k].id == id
    ensures FindRequest(requests, id) == Some(k)
  {
  }

  // ---- Listing viewing requests ----

  /** The property filter applies only when the id is truthy: absent or 0 keeps every row. */
  predicate Selected(propertyId: Option<int>, r: ViewingRequest) {
    propertyId.None? || propertyId.value == 0 || r.propertyId == propertyId.value
  }

  /** The rows the property filter keeps, in store order. */
  function FilterRequests(requests: seq<ViewingRequest>, propertyId: Option<int>): (r: seq<ViewingRequest>)
    ensures |r| <= |requests|
    ensures forall x :: x in r <==> x in requests && Selected(propertyId, x)
    ensures multiset(r) <= multiset(requests)
  {
    if requests == [] then []
    else
      var init := requests[..|requests| - 1];
      var last := requests[|requests| - 1];
      assert requests == init + [last];
      if Selected(propertyId, last) then FilterRequests(init, propertyId) + [last]
      else FilterRequests(init, propertyId)
  }

  /** The filter keeps every selected row as often as the table holds it and drops every other row. */
  lemma {:induction false} FilterRequestsCounts(requests: seq<ViewingRequest>, propertyId: Option<int>)
    ensures forall x :: multiset(FilterRequests(requests, propertyId))[x] == if Selected(propertyId, x) then multiset(requests)[x] else 0
    decreases |requests|
  {
    if requests != [] {
      var init, last := requests[..|requests| - 1], requests[|requests| - 1];
      FilterRequestsCounts(init, propertyId);
      assert requests == init + [last];
      assert multiset(requests) == multiset(init) + multiset{last};
    }
  }

  /** Without a truthy property id nothing is filtered out. */
  lemma {:induction false} NoFilterWhenFalsy(requests: seq<ViewingRequest>, propertyId: Option<int>)
    requires propertyId.None? || propertyId.value == 0
    ensures FilterRequests(requests, propertyId) == requests
    decreases |requests|
  {
    if requests != [] {
      NoFilterWhenFalsy(requests[..|requests| - 1], propertyId);
      assert requests == requests[..|requests| - 1] + [requests[|requests| - 1]];
    }
  }

  /** Newest first: the sort key is the negated creation time. */
  function NewestFirstKey(r: ViewingRequest): int {
    -r.createdAt
  }

  /** The filtered rows, newest first. */
  function OrderedRequests(requests: seq<ViewingRequest>, propertyId: Option<int>): (r: seq<ViewingRequest>)
    ensures |r| == |FilterRequests(requests, propertyId)|
    ensures multiset(r) == multiset(FilterRequests(requests, propertyId))
    ensures forall i, j :: 0 <= i < j < |r| ==> r[i].createdAt >= r[j].createdAt
    ensures forall x :: x in r <==> x in requests && Selected(propertyId, x)
  {
    var filtered := FilterRequests(requests, propertyId);
    var ordered := SortBy(filtered, NewestFirstKey);
    assert forall x :: x in ordered <==> x in filtered by {
      forall x ensures x in ordered <==> x in filtered {
        SortByMembers(filtered, NewestFirstKey, x);
      }
    }
    assert forall i, j :: 0 <= i < j < |ordered| ==> NewestFirstKey(ordered[i]) <= NewestFirstKey(ordered[j]);
    ordered
  }

  function Min(a: int, b: int): int {
    if a <= b then a else b
  }

  /** `.offset(skip).limit(n)`: the rows from position `skip` on, at most `n` of them. */
  function Page<T>(s: seq<T>, skip: nat, n: nat): (r: seq<T>)
    ensures |r| == if skip >= |s| then 0 else Min(n, |s| - skip)
    ensures forall k :: 0 <= k < |r| ==> r[k] == s[skip + k]
  {
    if skip >= |s| then [] else s[skip..skip + Min(n, |s| - skip)]
  }

  /** Two consecutive pages of the same size join into the page of twice the size. */
  lemma PageJoin<T>(s: seq<T>, skip: nat, n: nat)
    ensures Page(s, skip, n) + Page(s, skip + n, n) == Page(s, skip, 2 * n)
  {
    var a, b, c := Page(s, skip, n), Page(s, skip + n, n), Page(s, skip, 2 * n);
    assert |a + b| == |c|;
    forall k | 0 <= k < |c|
      ensures (a + b)[k] == c[k]
    {
      if k >= |a| {
        assert (a + b)[k] == b[k - |a|] == s[skip + n + (k - |a|)];
      }
    }
  }

  /**
   * `get_viewing_requests`: filter, count, order by creation time descending, skip `skip` rows,
   * return at most `min(limit, 100)`; the total counts every filtered row, whatever the paging.
   */
  function GetViewingRequests(requests: seq<ViewingRequest>, propertyId: Option<int>, skip: nat, limit: nat): (r: (seq<ViewingRequest>, nat))
    ensures r.1 == |FilterRequests(requests, propertyId)|
    ensures r.0 == Page(OrderedRequests(requests, propertyId), skip, Min(limit, MaxPage))
    ensures |r.0| <= Min(limit, MaxPage)
    ensures forall x :: x in r.0 ==> x in requests && Selected(propertyId, x)
    ensures forall i, j :: 0 <= i < j < |r.0| ==> r.0[i].createdAt >= r.0[j].createdAt
  {
    var ordered := OrderedRequests(requests, propertyId);
    var page := Page(ordered, skip, Min(limit, MaxPage));
    assert forall x :: x in page ==> x in ordered;
    (page, |ordered|)
  }

  /** Two consecutive listings of the same size join into one listing of twice the size (up to the cap). */
  lemma PagesJoin(requests: seq<ViewingRequest>, propertyId: Option<int>, skip: nat, limit: nat)
    requires 2 * limit <= MaxPage
    ensures GetViewingRequests(requests, propertyId, skip, limit).0 + GetViewingRequests(requests, propertyId, skip + limit, limit).0
      == GetViewingRequests(requests, propertyId, skip, 2 * limit).0
  {
    PageJoin(OrderedRequests(requests, propertyId), skip, limit);
  }

  // ---- Rooms ----

  function DisplayOrderKey(r: RoomRow): int {
    r.displayOrder
  }

  /** The rows of one property, in store order. */
  function RoomsOf(rooms: seq<RoomRow>, propertyId: int): (r: seq<RoomRow>)
    ensures forall x :: x in r <==> x in rooms && x.propertyId == propertyId
    ensures multiset(r) <= multiset(rooms)
  {
    if rooms == [] then []
    else
      var init := rooms[..|rooms| - 1];
      var last := rooms[|rooms| - 1];
      assert rooms == init + [last];
      if last.propertyId == propertyId then RoomsOf(init, propertyId) + [last]
      else RoomsOf(init, propertyId)
  }

  /** The room filter keeps each of the property's rooms as often as the table holds it, and no other room. */
  lemma {:induction false} RoomsOfCounts(rooms: seq<RoomRow>, propertyId: int)
    ensures forall x :: multiset(RoomsOf(rooms, propertyId))[x] == if x.propertyId == propertyId then multiset(rooms)[x] else 0
    decreases |rooms|
  {
    if rooms != [] {
      var init, last := rooms[..|rooms| - 1], rooms[|rooms| - 1];
      RoomsOfCounts(init, propertyId);
      assert rooms == init + [last];
      assert multiset(rooms) == multiset(init) + multiset{last};
    }
  }

  /** `get_rooms_by_property`: exactly that property's rooms, ordered by display order. */
  function GetRoomsByProperty(rooms: seq<RoomRow>, propertyId: int): (r: seq<RoomRow>)
    ensures forall x :: x in r <==> x in rooms && x.propertyId == propertyId
    ensures multiset(r) == multiset(RoomsOf(rooms, propertyId))
    ensures forall i, j :: 0 <= i < j < |r| ==> r[i].displayOrder <= r[j].displayOrder
  {
    var mine := RoomsOf(rooms, propertyId);
    var r := SortBy(mine, DisplayOrderKey);
    assert forall x :: x in r <==> x in mine by {
      forall x ensures x in r <==> x in mine {
        SortByMembers(mine, DisplayOrderKey, x);
      }
    }
    assert forall i, j :: 0 <= i < j < |r| ==> DisplayOrderKey(r[i]) <= DisplayOrderKey(r[j]);
    r
  }

  // ---- Changing the store ----

  /** The row with a new status and every other column as it was. */
  function WithStatus(r: ViewingRequest, status: string): (s: ViewingRequest)
    ensures s.status == status && s.(status := r.status) == r
  {
    r.(status := status)
  }

  /** The largest id in the table, 0 for an empty table. */
  function MaxId(requests: seq<ViewingRequest>): (m: int)
    ensures forall k :: 0 <= k < |requests| ==> requests[k].id <= m
    ensures requests == [] ==> m == 0
  {
    if requests == [] then 0
    else
      var m := MaxId(requests[..|requests| - 1]);
      var last := requests[|requests| - 1].id;
      if last > m then last else m
  }

  /** Two tables whose rows agree on the property column keep equally many rows under any filter. */
  lemma {:induction false} FilterCountByProperty(a: seq<ViewingRequest>, b: seq<ViewingRequest>, propertyId: Option<int>)
    requires |a| == |b|
    requires forall k :: 0 <= k < |a| ==> a[k].propertyId == b[k].propertyId
    ensures |FilterRequests(a, propertyId)| == |FilterRequests(b, propertyId)|
    decreases |a|
  {
    if a != [] {
      var n := |a|;
      var a', b' := a[..|a| - 1], b[..|b| - 1];
      assert forall k :: 0 <= k < |a'| ==> a'[k].propertyId == b'[k].propertyId by {
        assert forall k :: 0 <= k < |a'| ==> a'[k] == a[k] && b'[k] == b[k];
      }
      FilterCountByProperty(a', b', propertyId);
      assert Selected(propertyId, a[n - 1]) == Selected(propertyId, b[n - 1]);
      FilterCountStep(a, propertyId);
      FilterCountStep(b, propertyId);
    }
  }

  /** Filtering a non-empty table keeps the count of its prefix, plus one if its last row is selected. */
  lemma FilterCountStep(a: seq<ViewingRequest>, propertyId: Option<int>)
    requires a != []
    ensures |FilterRequests(a, propertyId)| == |FilterRequests(a[..|a| - 1], propertyId)| + if Selected(propertyId, a[|a| - 1]) then 1 else 0
  {
  }

  /** A status change touches no column the listing filters on, so every listing total stays. */
  lemma StatusChangeKeepsTotals(requests: seq<ViewingRequest>, k: nat, status: string, propertyId: Option<int>)
    requires k < |requests|
    ensures |FilterRequests(requests[k := WithStatus(requests[k], status)], propertyId)| == |FilterRequests(requests, propertyId)|
  {
    FilterCountByProperty(requests[k := WithStatus(requests[k], status)], requests, propertyId);
  }

  class Database {
    var viewingRequests: seq<ViewingRequest>
    const rooms: seq<RoomRow>

    ghost predicate Valid()
      reads this
    {
      UniqueIds(viewingRequests) && StatusesAllowed(viewingRequests)
    }

    constructor (rooms: seq<RoomRow>, requests: seq<ViewingRequest>)
      requires UniqueIds(requests) && StatusesAllowed(requests)
      ensures this.rooms == rooms && viewingRequests == requests
      ensures Valid()
    {
      this.rooms := rooms;
      viewingRequests := requests;
    }

    /**
     * `update_viewing_request_status`: a status outside the whitelist is refused before any
     * lookup; an unknown id gives nothing and changes nothing; otherwise only that row's status
     * changes and the updated row is returned.
     */
    method UpdateViewingRequestStatus(requestId: int, status: string) returns (r: Result<Option<ViewingRequest>, string>)
      requires Valid()
      modifies this
      ensures status !in AllowedStatuses ==> r == Failure(InvalidStatus) && viewingRequests == old(viewingRequests)
      ensures status in AllowedStatuses && FindRequest(old(viewingRequests), requestId).None? ==>
        r == Success(None) && viewingRequests == old(viewingRequests)
      ensures status in AllowedStatuses && FindRequest(old(viewingRequests), requestId).Some? ==>
        var k := FindRequest(old(viewingRequests), requestId).value;
        && viewingRequests == old(viewingRequests)[k := WithStatus(old(viewingRequests)[k], status)]
        && r == Success(Some(viewingRequests[k]))
      ensures Valid()
    {
      if status !in AllowedStatuses {
        return Failure(InvalidStatus);
      }
      var found := FindRequest(viewingRequests, requestId);
      if found.None? {
        return Success(None);
      }
      var k := found.value;
      viewingRequests := viewingRequests[k := WithStatus(viewingRequests[k], status)];
      r := Success(Some(viewingRequests[k]));
    }

    /**
     * `create_viewing_request`: appends a row built from a validated body, with a fresh id (one
     * more than the largest), the creation time `now` and the default status.
     */
    method CreateViewingRequest(req: Schemas.ViewingRequestCreate, now: int) returns (created: ViewingRequest)
      requires Valid()
      requires Schemas.ValidateCreate(req).Success?
      modifies this
      ensures forall k :: 0 <= k < |old(viewingRequests)| ==> old(viewingRequests)[k].id != created.id
      ensures created == ViewingRequest(created.id, req.propertyId, req.name, req.email, req.phone,
        req.preferredDate, req.preferredTime, req.message, now, DefaultStatus)
      ensures viewingRequests == old(viewingRequests) + [created]
      ensures Valid()
    {
      created := ViewingRequest(MaxId(viewingRequests) + 1, req.propertyId, req.name, req.email, req.phone,
        req.preferredDate, req.preferredTime, req.message, now, DefaultStatus);
      viewingRequests := viewingRequests + [created];
    }
  }
}
