/** `Order`: a user's order, grouping its lines, with a side, a total price and
    a status derived from the statuses of its lines. */
module Orders {
  import opened Values
  import opened Statuses

  datatype OrderRow = OrderRow(
    id: Id,
    user: Id,
    status: OrderStatus,
    orderType: OrderType,
    totalPrice: Money,
    deleted: bool,
    createdAt: int,
    updatedAt: int,
    lines: seq<Id>)

  /** The `Order` constructor: a CREATED, not deleted order with no lines yet. */
  function NewOrder(id: Id, user: Id, orderType: OrderType, totalPrice: Money, now: int): (r: OrderRow)
    ensures r.status == CREATED && !r.deleted && r.lines == []
    ensures r.user == user && r.orderType == orderType && r.totalPrice == totalPrice
  {
    OrderRow(id, user, CREATED, orderType, totalPrice, false, now, now, [])
  }

  /** `Order.createBuyOrder`: the line it is given is not attached, so the new
      order has no lines. */
  function CreateBuyOrder(id: Id, user: Id, line: Id, orderType: OrderType, totalPrice: Money, now: int): (r: OrderRow)
    ensures r.status == CREATED && r.lines == [] && line !in r.lines
    ensures r.user == user && r.orderType == orderType && r.totalPrice == totalPrice
  {
    NewOrder(id, user, orderType, totalPrice, now)
  }

  /** `Order.createSingleOrder`, which the services call and which `Order.java`
      does not define: a CREATED order holding the one given line. */
  function CreateSingleOrder(id: Id, user: Id, line: Id, orderType: OrderType, totalPrice: Money, now: int): (r: OrderRow)
    ensures r.status == CREATED && r.lines == [line]
    ensures r.user == user && r.orderType == orderType && r.totalPrice == totalPrice
  {
    NewOrder(id, user, orderType, totalPrice, now).(lines := [line])
  }

  /** `updateStatus` replaces the status and the update time only. */
  function UpdateStatus(o: OrderRow, status: OrderStatus, now: int): (r: OrderRow)
    ensures r.status == status && r.updatedAt == now
    ensures r.(status := o.status, updatedAt := o.updatedAt) == o
  {
    o.(status := status, updatedAt := now)
  }

  /** `aggregateStatusFromChildren`, called by settlement and missing from
      `Order.java`: the status the aggregation rule derives from the lines. */
  function AggregateStatusFromChildren(o: OrderRow, children: seq<LineStatus>, now: int): (r: OrderRow)
    ensures r.status == Aggregate(children) && r.updatedAt == now
    ensures r.(status := o.status, updatedAt := o.updatedAt) == o
    ensures r.status == CANCELED <==> |children| > 0 && forall i :: 0 <= i < |children| ==> children[i] == CANCELLED
    ensures r.status == COMPLETED <==>
      (exists i :: 0 <= i < |children| && children[i] == FILLED) &&
      (forall i :: 0 <= i < |children| ==> children[i] in {FILLED, CANCELLED})
    ensures r.status == COMPLETED ==> forall i :: 0 <= i < |children| ==> children[i] in {FILLED, CANCELLED}
    ensures (forall i :: 0 <= i < |children| ==> children[i] == FILLED) && |children| > 0 ==> r.status == COMPLETED
    ensures r.status == CREATED <==> forall i :: 0 <= i < |children| ==> children[i] == PENDING
  {
    UpdateStatus(o, Aggregate(children), now)
  }

  /** Re-aggregating after the children changed only in order gives the same status. */
  lemma AggregationIgnoresLineOrder(o: OrderRow, a: seq<LineStatus>, b: seq<LineStatus>, now: int)
    requires multiset(a) == multiset(b)
    ensures AggregateStatusFromChildren(o, a, now) == AggregateStatusFromChildren(o, b, now)
  {
    forall s
      ensures s in a <==> s in b
    {
      assert s in a <==> s in multiset(a);
      assert s in b <==> s in multiset(b);
    }
    AggregateIgnoresOrder(a, b);
  }
}
