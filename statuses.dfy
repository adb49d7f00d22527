/** The statuses of an order line (`StockOrderStatus`) and of an order
    (`OrderStatus`), the order's side, and the rule that derives an order's
    status from the statuses of its lines. */
module Statuses {

  datatype LineStatus = PENDING | PARTIALLY_FILLED | FILLED | CANCELLED | EXPIRED

  datatype OrderStatus = CREATED | PROCESSING | COMPLETED | CANCELED

  datatype OrderType = BUY | SELL

  /** The distinct statuses among the lines. */
  function Kinds(children: seq<LineStatus>): (r: set<LineStatus>)
    ensures forall s :: s in r <==> s in children
  {
    if children == [] then {} else {children[0]} + Kinds(children[1..])
  }

  /** The aggregation rule over the set of distinct line statuses:
      - only PENDING lines (or none) give CREATED;
      - only FILLED lines give COMPLETED;
      - only CANCELLED lines give CANCELED;
      - FILLED and CANCELLED lines and nothing else give COMPLETED;
      - every other combination (a partially filled or expired line, filled
        next to pending lines) is still being processed. */
  function RuleFor(kinds: set<LineStatus>): (r: OrderStatus)
    ensures r == CREATED <==> kinds <= {PENDING}
    ensures r == COMPLETED <==> FILLED in kinds && kinds <= {FILLED, CANCELLED}
    ensures r == CANCELED <==> kinds == {CANCELLED}
    ensures r == PROCESSING <==>
      PARTIALLY_FILLED in kinds || EXPIRED in kinds || (PENDING in kinds && (FILLED in kinds || CANCELLED in kinds))
  {
    assert forall s | s in kinds :: s.PENDING? || s.PARTIALLY_FILLED? || s.FILLED? || s.CANCELLED? || s.EXPIRED?;
    if PARTIALLY_FILLED in kinds || EXPIRED in kinds then PROCESSING
    else if PENDING in kinds then
      if FILLED in kinds || CANCELLED in kinds then PROCESSING else CREATED
    else if FILLED in kinds then COMPLETED
    else if CANCELLED in kinds then CANCELED
    else CREATED
  }

  /** `Order.aggregateStatusFromChildren`. */
  function Aggregate(children: seq<LineStatus>): (r: OrderStatus)
    ensures r == CREATED <==> forall i :: 0 <= i < |children| ==> children[i] == PENDING
    ensures r == COMPLETED <==>
      (exists i :: 0 <= i < |children| && children[i] == FILLED) &&
      (forall i :: 0 <= i < |children| ==> children[i] in {FILLED, CANCELLED})
    ensures r == CANCELED <==>
      |children| > 0 && forall i :: 0 <= i < |children| ==> children[i] == CANCELLED
    ensures r == PROCESSING <==>
      (exists i :: 0 <= i < |children| && children[i] in {PARTIALLY_FILLED, EXPIRED}) ||
      ((exists i :: 0 <= i < |children| && children[i] == PENDING) &&
       (exists j :: 0 <= j < |children| && children[j] != PENDING))
  {
    var kinds := Kinds(children);
    assert forall i :: 0 <= i < |children| ==> children[i] in kinds;
    RuleFor(kinds)
  }

  /** The order's status depends on which statuses its lines have, not on
      their order or on how many lines share a status. */
  lemma {:induction false} AggregateIgnoresOrder(a: seq<LineStatus>, b: seq<LineStatus>)
    requires forall s :: s in a <==> s in b
    ensures Aggregate(a) == Aggregate(b)
  {
    assert Kinds(a) == Kinds(b);
  }

  /** A COMPLETED order never has a line that is still open. */
  lemma CompletedHasNoOpenLine(children: seq<LineStatus>, i: int)
    requires Aggregate(children) == COMPLETED
    requires 0 <= i < |children|
    ensures children[i] != PENDING && children[i] != PARTIALLY_FILLED
  {
  }
}
