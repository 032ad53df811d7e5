/**
 * The backend's client order controller: intake validation and record
 * construction for `postOder`, the per-user listing `view`, the lookup
 * `detail` and the status overwrite `editstatus`, over an order collection.
 */
module OrderController {
  import opened Common
  import opened Sorting

  /** A GeoJSON point; coordinates are `[longitude, latitude]`. */
  datatype Point = Point(kind: string, coordinates: seq<real>)

  /**
   * One product line as the client sends it and as the collection stores it.
   * Absent numeric fields are `None`; prices are whole VND.
   */
  datatype OrderLine = OrderLine(
    productId: string,
    price: Option<int>,
    discountPercentage: Option<int>,
    quantity: Option<int>)

  /** `userInfo.toadoa` in a request; `coordinates` is `None` when it is not an array. */
  datatype LocationIn = LocationIn(kind: string, coordinates: Option<seq<real>>)

  /** `userInfo` in a request, every field possibly absent. */
  datatype UserInfoIn = UserInfoIn(
    fullName: Option<string>,
    phone: Option<string>,
    address: Option<string>,
    toadoa: Option<LocationIn>)

  /** The request body of `POST /order/post`; `products` is `None` when it is not an array. */
  datatype OrderRequest = OrderRequest(
    status: Option<string>,
    userInfo: Option<UserInfoIn>,
    products: Option<seq<OrderLine>>)

  datatype UserInfo = UserInfo(fullName: string, phone: string, address: string, toadoa: Point)

  /** A stored order document. */
  datatype Order = Order(
    userId: string,
    status: string,
    userInfo: UserInfo,
    toadoaDon: Point,
    products: seq<OrderLine>,
    deleted: bool,
    createdAt: int)

  /** The fixed origin (store) coordinates written into every new order. */
  const StoreOrigin: seq<real> := [105.854444, 21.028511]

  /** The reply of `postOder`. */
  datatype PostReply = BadRequest | Created(id: nat, order: Order) | ServerError

  /**
   * The intake check: the caller's id and the customer's name, phone,
   * address and location are present, the location has exactly two
   * coordinates, and `products` is a non-empty array.
   */
  predicate RequestOk(userId: Option<string>, req: OrderRequest) {
    && Truthy(userId)
    && req.userInfo.Some?
    && Truthy(req.userInfo.value.fullName)
    && Truthy(req.userInfo.value.phone)
    && Truthy(req.userInfo.value.address)
    && req.userInfo.value.toadoa.Some?
    && req.userInfo.value.toadoa.value.coordinates.Some?
    && |req.userInfo.value.toadoa.value.coordinates.value| == 2
    && req.products.Some?
    && |req.products.value| != 0
  }

  /** `status || 'pending'`. */
  function InitialStatus(requested: Option<string>): (s: string)
    ensures Truthy(requested) ==> s == requested.value
    ensures !Truthy(requested) ==> s == "pending"
    ensures s != ""
  {
    if Truthy(requested) then requested.value else "pending"
  }

  /** The document `postOder` saves for an accepted request. */
  function BuildOrder(userId: Option<string>, req: OrderRequest, createdAt: int): (o: Order)
    requires RequestOk(userId, req)
    ensures o.userId == userId.value
    ensures o.status == InitialStatus(req.status)
    ensures o.userInfo.fullName == req.userInfo.value.fullName.value
    ensures o.userInfo.phone == req.userInfo.value.phone.value
    ensures o.userInfo.address == req.userInfo.value.address.value
    ensures o.userInfo.toadoa == Point("Point", req.userInfo.value.toadoa.value.coordinates.value)
    ensures o.toadoaDon == Point("Point", StoreOrigin)
    ensures o.products == req.products.value && o.products != []
    ensures !o.deleted && o.createdAt == createdAt
  {
    var info := req.userInfo.value;
    Order(
      userId.value,
      InitialStatus(req.status),
      UserInfo(info.fullName.value, info.phone.value, info.address.value,
               Point("Point", info.toadoa.value.coordinates.value)),
      Point("Point", StoreOrigin),
      req.products.value,
      false,
      createdAt)
  }

  /** The origin does not depend on the request: any two accepted requests get the same one. */
  lemma OriginIndependentOfRequest(u1: Option<string>, r1: OrderRequest, u2: Option<string>, r2: OrderRequest, t1: int, t2: int)
    requires RequestOk(u1, r1) && RequestOk(u2, r2)
    ensures BuildOrder(u1, r1, t1).toadoaDon == BuildOrder(u2, r2, t2).toadoaDon
    ensures |BuildOrder(u1, r1, t1).toadoaDon.coordinates| == 2
  {
  }

  /** The orders of `user` that `view` lists: owned by the user and not soft-deleted. */
  predicate Listed(o: Order, user: string) {
    o.userId == user && !o.deleted
  }

  /** `updateOne({_id: id}, {status})` on the collection: nothing else changes. */
  function SetStatus(orders: map<nat, Order>, id: nat, status: Option<string>): (r: map<nat, Order>)
    ensures r.Keys == orders.Keys
    ensures forall k :: k in orders && k != id ==> r[k] == orders[k]
    ensures id in orders && status.Some? ==> r[id] == orders[id].(status := status.value)
    ensures status.None? ==> r == orders
  {
    if id in orders && status.Some? then orders[id := orders[id].(status := status.value)] else orders
  }

  /**
   * There is no transition table: from any stored status, any string can be
   * written, including moving a cancelled or delivered order back to
   * pending, and a soft-deleted order is updated as well.
   */
  lemma {:induction false} AnyStatusReachable(orders: map<nat, Order>, id: nat, target: string)
    requires id in orders
    ensures id in SetStatus(orders, id, Some(target))
    ensures SetStatus(orders, id, Some(target))[id].status == target
    ensures SetStatus(orders, id, Some(target))[id].deleted == orders[id].deleted
    ensures SetStatus(orders, id, Some(target))[id].products == orders[id].products
  {
    var r := SetStatus(orders, id, Some(target));
    assert r[id] == orders[id].(status := target);
  }

  /** The ids below `n` of orders in `orders` listed for `user`, ascending. */
  function IdsBelow(orders: map<nat, Order>, user: string, n: nat): (ids: seq<nat>)
    ensures forall k :: k in ids <==> k < n && k in orders && Listed(orders[k], user)
    ensures forall i, j :: 0 <= i < j < |ids| ==> ids[i] < ids[j]
  {
    if n == 0 then []
    else
      var prev := IdsBelow(orders, user, n - 1);
      assert forall i :: 0 <= i < |prev| ==> prev[i] in prev;
      if n - 1 in orders && Listed(orders[n - 1], user) then prev + [n - 1] else prev
  }

  /** The sort key of `sort({createdAt: -1})`: larger timestamps first. */
  function NewestFirst(orders: map<nat, Order>): (nat -> int) {
    (k: nat) => if k in orders then -orders[k].createdAt else 0
  }

  /**
   * The ids `find({user_id, deleted: false}).sort({createdAt: -1})` returns
   * among the ids below `n`: exactly the user's non-deleted orders.
   */
  function ListingIds(orders: map<nat, Order>, user: string, n: nat): (ids: seq<nat>)
    ensures forall k :: k in ids <==> k < n && k in orders && Listed(orders[k], user)
  {
    var listed := IdsBelow(orders, user, n);
    SortByMembers(listed, NewestFirst(orders));
    SortBy(listed, NewestFirst(orders))
  }

  /** The listing names each order once, newest first. */
  lemma ListingIdsOrdered(orders: map<nat, Order>, user: string, n: nat)
    ensures var ids := ListingIds(orders, user, n);
      && (forall i :: 0 <= i < |ids| ==> ids[i] in orders && Listed(orders[ids[i]], user))
      && (forall i, j :: 0 <= i < j < |ids| ==> ids[i] != ids[j])
      && (forall i, j :: 0 <= i < j < |ids| ==> orders[ids[i]].createdAt >= orders[ids[j]].createdAt)
  {
    ListingIdsListed(orders, user, n);
    ListingIdsDistinct(orders, user, n);
    ListingIdsNewestFirst(orders, user, n);
  }

  lemma ListingIdsListed(orders: map<nat, Order>, user: string, n: nat)
    ensures var ids := ListingIds(orders, user, n);
      forall i :: 0 <= i < |ids| ==> ids[i] in orders && Listed(orders[ids[i]], user)
  {
    var ids := ListingIds(orders, user, n);
    assert forall i :: 0 <= i < |ids| ==> ids[i] in ids;
  }

  lemma ListingIdsDistinct(orders: map<nat, Order>, user: string, n: nat)
    ensures var ids := ListingIds(orders, user, n);
      forall i, j :: 0 <= i < j < |ids| ==> ids[i] != ids[j]
  {
    var listed := IdsBelow(orders, user, n);
    var ids := SortBy(listed, NewestFirst(orders));
    forall x ensures multiset(ids)[x] <= 1 {
      DistinctCount(listed, x);
    }
    UniqueIndices(ids);
  }

  lemma ListingIdsNewestFirst(orders: map<nat, Order>, user: string, n: nat)
    ensures var ids := ListingIds(orders, user, n);
      forall i, j :: 0 <= i < j < |ids| ==> orders[ids[i]].createdAt >= orders[ids[j]].createdAt
  {
    var listed := IdsBelow(orders, user, n);
    var key := NewestFirst(orders);
    var ids := SortBy(listed, key);
    ListingIdsListed(orders, user, n);
    SortBySorted(listed, key);
    forall i, j | 0 <= i < j < |ids| ensures orders[ids[i]].createdAt >= orders[ids[j]].createdAt {
      assert key(ids[i]) <= key(ids[j]);
    }
  }


  /** The documents stored under `ids`, in that order. */
  function Lookup(orders: map<nat, Order>, ids: seq<nat>): (docs: seq<Order>)
    requires forall i :: 0 <= i < |ids| ==> ids[i] in orders
    ensures |docs| == |ids|
    ensures forall i :: 0 <= i < |ids| ==> docs[i] == orders[ids[i]]
  {
    if ids == [] then [] else [orders[ids[0]]] + Lookup(orders, ids[1..])
  }

  /** The documents looked up for the listed ids are exactly the user's listed orders. */
  lemma LookupMembers(orders: map<nat, Order>, ids: seq<nat>, user: string, n: nat)
    requires forall k :: k in ids <==> k < n && k in orders && Listed(orders[k], user)
    requires forall i :: 0 <= i < |ids| ==> ids[i] in orders
    ensures forall k :: k in orders && k < n && Listed(orders[k], user) ==> orders[k] in Lookup(orders, ids)
    ensures forall o :: o in Lookup(orders, ids) ==> o in orders.Values && Listed(o, user)
  {
    var docs := Lookup(orders, ids);
    forall k | k in orders && k < n && Listed(orders[k], user) ensures orders[k] in docs {
      var i :| 0 <= i < |ids| && ids[i] == k;
      assert docs[i] == orders[k];
    }
    forall o | o in docs ensures o in orders.Values && Listed(o, user) {
      var i :| 0 <= i < |docs| && docs[i] == o;
      assert ids[i] in ids;
    }
  }

  /** In a strictly ascending sequence, every element occurs at most once. */
  lemma {:induction false} DistinctCount(s: seq<nat>, x: nat)
    requires forall i, j :: 0 <= i < j < |s| ==> s[i] < s[j]
    ensures multiset(s)[x] <= 1
  {
    if s != [] {
      assert s == [s[0]] + s[1..];
      DistinctCount(s[1..], x);
      if x == s[0] {
        assert forall k :: 0 <= k < |s[1..]| ==> s[1..][k] > x;
        assert x !in s[1..];
      }
    }
  }

  /** A sequence in which no value occurs twice has no repeated positions. */
  lemma UniqueIndices(s: seq<nat>)
    requires forall x :: multiset(s)[x] <= 1
    ensures forall i, j :: 0 <= i < j < |s| ==> s[i] != s[j]
  {
    forall i, j | 0 <= i < j < |s| ensures s[i] != s[j] {
      var a, b := s[..j], s[j..];
      assert s == a + b;
      assert s[i] in a by { assert a[i] == s[i]; }
      assert s[j] in b by { assert b[0] == s[j]; }
      assert multiset(s)[s[i]] == multiset(a)[s[i]] + multiset(b)[s[i]];
    }
  }

  /** Every id in the listing names a stored order, so the listing can be looked up. */
  predicate ListingIdsStored(orders: map<nat, Order>, user: string, n: nat) {
    forall i :: 0 <= i < |ListingIds(orders, user, n)| ==> ListingIds(orders, user, n)[i] in orders
  }

  /** The ids of the user's non-deleted orders. */
  function ListedKeys(orders: map<nat, Order>, user: string): set<nat> {
    set k | k in orders && Listed(orders[k], user)
  }

  /** The ids a list names. */
  function Elements(s: seq<nat>): set<nat> {
    set x | x in s
  }

  /** A list without repeats has as many elements as the set of its elements. */
  lemma {:induction false} DistinctCard(s: seq<nat>)
    requires forall i, j :: 0 <= i < j < |s| ==> s[i] != s[j]
    ensures |Elements(s)| == |s|
  {
    if s == [] {
      assert Elements(s) == {};
    } else {
      var t := s[1..];
      assert forall i, j :: 0 <= i < j < |t| ==> t[i] != t[j] by {
        forall i, j | 0 <= i < j < |t| ensures t[i] != t[j] {
          assert t[i] == s[i + 1] && t[j] == s[j + 1];
        }
      }
      DistinctCard(t);
      assert s[0] !in Elements(t);
      assert Elements(s) == Elements(t) + {s[0]} by {
        assert s == [s[0]] + t;
      }
    }
  }

  /** When every stored id lies below `n`, the listing has one entry per listed order. */
  lemma ListingIdsCount(orders: map<nat, Order>, user: string, n: nat)
    requires forall k :: k in orders ==> k < n
    ensures |ListingIds(orders, user, n)| == |ListedKeys(orders, user)|
  {
    var ids := ListingIds(orders, user, n);
    ListingIdsDistinct(orders, user, n);
    DistinctCard(ids);
    assert Elements(ids) == ListedKeys(orders, user);
  }

  /**
   * The stored state of the collection: every id was handed out by the
   * counter `nextId` (the database's id generator).
   */
  class OrderStore {
    var orders: map<nat, Order>
    var nextId: nat

    ghost predicate Valid()
      reads this
    {
      forall id :: id in orders ==> id < nextId
    }

    constructor ()
      ensures Valid() && orders == map[] && nextId == 0
    {
      orders := map[];
      nextId := 0;
    }

    /**
     * `POST /order/post`. A rejected request saves nothing; an accepted one
     * saves `BuildOrder` under a fresh id, unless storage fails (`saveOk`
     * false), which is the 500 reply.
     */
    method PostOrder(userId: Option<string>, req: OrderRequest, now: int, saveOk: bool) returns (reply: PostReply)
      requires Valid()
      modifies this
      ensures Valid()
      ensures !RequestOk(userId, req) ==> reply == BadRequest && orders == old(orders) && nextId == old(nextId)
      ensures RequestOk(userId, req) && !saveOk ==> reply == ServerError && orders == old(orders) && nextId == old(nextId)
      ensures RequestOk(userId, req) && saveOk ==>
                && old(nextId) !in old(orders)
                && reply == Created(old(nextId), BuildOrder(userId, req, now))
                && orders == old(orders)[old(nextId) := BuildOrder(userId, req, now)]
                && nextId == old(nextId) + 1
    {
      if !RequestOk(userId, req) {
        return BadRequest;
      }
      var order := BuildOrder(userId, req, now);
      if !saveOk {
        return ServerError;
      }
      var id := nextId;
      orders := orders[id := order];
      nextId := nextId + 1;
      reply := Created(id, order);
    }

    /**
     * `GET /order/view`: code 200 with the user's non-deleted orders, newest
     * first, or 500 with nothing when the query fails.
     */
    method View(user: string, queryOk: bool) returns (code: int, records: seq<Order>)
      requires Valid()
      ensures !queryOk ==> code == 500 && records == []
      ensures queryOk ==> code == 200
      ensures queryOk ==> forall id :: id in orders && Listed(orders[id], user) ==> orders[id] in records
      ensures forall o :: o in records ==> o in orders.Values && Listed(o, user)
      ensures forall i, j :: 0 <= i < j < |records| ==> records[i].createdAt >= records[j].createdAt
      ensures queryOk ==> |records| == |ListedKeys(orders, user)|
      ensures queryOk ==> ListingIdsStored(orders, user, nextId) && records == Lookup(orders, ListingIds(orders, user, nextId))
    {
      if !queryOk {
        return 500, [];
      }
      var ids := ListingIds(orders, user, nextId);
      ListingIdsListed(orders, user, nextId);
      ListingIdsNewestFirst(orders, user, nextId);
      ListingIdsCount(orders, user, nextId);
      records := Lookup(orders, ids);
      LookupMembers(orders, ids, user, nextId);
      code := 200;
    }

    /**
     * `GET /order/detail/:id`: code 200 with the order when the id is
     * stored, soft-deleted or not, and `null` otherwise. The handler has no
     * `try`: when the query fails (`queryOk` false, such as an id that is
     * not a valid ObjectId) the rejection goes unhandled and no reply is
     * sent, which is `code == None`.
     */
    method Detail(id: nat, queryOk: bool) returns (code: Option<int>, order: Option<Order>)
      ensures !queryOk ==> code == None && order == None
      ensures queryOk ==> code == Some(200)
      ensures queryOk && id in orders ==> order == Some(orders[id])
      ensures id !in orders ==> order == None
    {
      if !queryOk {
        return None, None;
      }
      code := Some(200);
      order := if id in orders then Some(orders[id]) else None;
    }

    /**
     * `PATCH /order/edit/:id`: overwrite the status with whatever was sent
     * and reply 200, whether or not an order matched. With no `try`, a
     * failed update (`updateOk` false) writes nothing and sends no reply.
     */
    method EditStatus(id: nat, status: Option<string>, updateOk: bool) returns (code: Option<int>)
      requires Valid()
      modifies this
      ensures Valid() && nextId == old(nextId)
      ensures !updateOk ==> orders == old(orders) && code == None
      ensures updateOk ==> orders == SetStatus(old(orders), id, status) && code == Some(200)
    {
      if !updateOk {
        return None;
      }
      orders := SetStatus(orders, id, status);
      code := Some(200);
    }
  }
}
