/**
 * OrderDAO: an order is numbered one past the largest number already used
 * and snapshots the cart it is placed from, one detail per cart line. The
 * snapshot is shared with the server-rendered checkout in MainController.
 */
module Orders {
  import opened Wrappers
  import opened Domain
  import opened CartLines
  import opened Cart
  import opened Stores

  /** The detail a cart line becomes: code, name and price of its product, its quantity and amount. */
  function DetailOf(line: CartLine): (d: OrderDetail)
    ensures d.productCode == line.product.code && d.productName == line.product.name
    ensures d.price == line.product.price && d.quantity == line.quantity
    ensures d.amount == Amount(line)
  {
    OrderDetail(line.product.code, line.product.name, line.quantity, line.product.price, Amount(line))
  }

  /** The details an order gets from a cart: one per line, in line order. */
  function DetailsOf(lines: seq<CartLine>): (r: seq<OrderDetail>)
    ensures |r| == |lines|
    ensures forall i :: 0 <= i < |lines| ==> r[i] == DetailOf(lines[i])
  {
    if |lines| == 0 then [] else DetailsOf(lines[..|lines| - 1]) + [DetailOf(lines[|lines| - 1])]
  }

  /** The sum of the details' amounts. */
  function DetailsAmount(details: seq<OrderDetail>): int {
    if |details| == 0 then 0 else DetailsAmount(details[..|details| - 1]) + details[|details| - 1].amount
  }

  /** The details add up to the cart's amount total, which is the order's amount. */
  lemma {:induction false} DetailsAmountIsTotal(lines: seq<CartLine>)
    ensures DetailsAmount(DetailsOf(lines)) == TotalAmount(lines)
  {
    if |lines| > 0 {
      var init := lines[..|lines| - 1];
      DetailsAmountIsTotal(init);
      assert DetailsOf(lines)[..|lines| - 1] == DetailsOf(init);
    }
  }

  /** The loop over the cart lines that fills the order's details. */
  method SnapshotLines(lines: seq<CartLine>) returns (details: seq<OrderDetail>)
    ensures details == DetailsOf(lines)
  {
    details := [];
    var k := 0;
    while k < |lines|
      invariant 0 <= k <= |lines|
      invariant details == DetailsOf(lines[..k])
    {
      assert lines[..k + 1][..k] == lines[..k];
      details := details + [DetailOf(lines[k])];
      k := k + 1;
    }
    assert lines[..k] == lines;
  }

  /** getMaxOrderNum: `max(orderNum)` over the orders, 0 when there are none. */
  function MaxOrderNum(orders: seq<Order>): (r: int)
    ensures |orders| == 0 ==> r == 0
    ensures forall i :: 0 <= i < |orders| ==> orders[i].orderNum <= r
    ensures |orders| > 0 ==> exists i :: 0 <= i < |orders| && orders[i].orderNum == r
  {
    if |orders| == 0 then 0
    else if |orders| == 1 then orders[0].orderNum
    else
      var rest := MaxOrderNum(orders[..|orders| - 1]);
      var last := orders[|orders| - 1].orderNum;
      assert forall i :: 0 <= i < |orders| - 1 ==> orders[i] == orders[..|orders| - 1][i];
      if last > rest then last else rest
  }

  /** No two orders share a number. */
  predicate UniqueOrderNums(orders: seq<Order>) {
    forall i, j :: 0 <= i < j < |orders| ==> orders[i].orderNum != orders[j].orderNum
  }

  /** The number saveOrder allocates is used by no existing order. */
  lemma NextOrderNumFresh(orders: seq<Order>, next: Order)
    requires next.orderNum == MaxOrderNum(orders) + 1
    ensures forall i :: 0 <= i < |orders| ==> orders[i].orderNum < next.orderNum
    ensures UniqueOrderNums(orders) ==> UniqueOrderNums(orders + [next])
  {
  }

  /** The order placed from a cart with number `num` at clock reading `now`. */
  function OrderFrom(num: int, now: Timestamp, c: CustomerInfo, lines: seq<CartLine>): (o: Order)
    ensures o.orderNum == num && o.orderDate == now && o.amount == TotalAmount(lines)
    ensures o.customerName == c.name && o.customerAddress == c.address
    ensures o.customerEmail == c.email && o.customerPhone == c.phone
    ensures o.details == DetailsOf(lines)
  {
    Order(num, now, TotalAmount(lines), c.name, c.address, c.email, c.phone, DetailsOf(lines))
  }

  class OrderDAO {
    const repository: OrderRepository

    constructor (repository: OrderRepository)
      ensures this.repository == repository
    {
      this.repository := repository;
    }

    /**
     * saveOrder. A cart without customer information fails on the customer's
     * name before anything is persisted; a persist or flush that fails
     * (`persistOk` false) rolls the order back. Only a stored order stamps its
     * number on the cart.
     */
    method SaveOrder(cart: CartInfo, now: Timestamp, persistOk: bool) returns (outcome: Outcome<Error>)
      modifies repository`orders, cart`orderNum
      ensures old(UniqueOrderNums(repository.orders)) ==> UniqueOrderNums(repository.orders)
      ensures cart.customerInfo.None? ==>
        outcome == Fail(NullReference) && repository.orders == old(repository.orders) && cart.orderNum == old(cart.orderNum)
      ensures cart.customerInfo.Some? && !persistOk ==>
        outcome == Fail(StorageFailure) && repository.orders == old(repository.orders) && cart.orderNum == old(cart.orderNum)
      ensures cart.customerInfo.Some? && persistOk ==>
        && outcome == Pass
        && cart.orderNum == MaxOrderNum(old(repository.orders)) + 1
        && repository.orders == old(repository.orders) + [OrderFrom(cart.orderNum, now, cart.customerInfo.value, cart.lines)]
    {
      var orderNum := MaxOrderNum(repository.orders) + 1;
      var amount := cart.GetAmountTotal();
      if cart.customerInfo.None? {
        return Fail(NullReference);
      }
      var customer := cart.customerInfo.value;
      var details := SnapshotLines(cart.lines);
      var order := Order(orderNum, now, amount, customer.name, customer.address, customer.email, customer.phone, details);
      if !persistOk {
        return Fail(StorageFailure);
      }
      NextOrderNumFresh(repository.orders, order);
      repository.orders := repository.orders + [order];
      cart.orderNum := orderNum;
      outcome := Pass;
    }
  }
}
