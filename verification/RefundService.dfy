/** The refund desk as it runs: entries appended, statuses changed, one locked transaction a method. */
module RefundService {
  import opened Common
  import opened Pricing
  import opened RefundModel
  import opened RefundRuns

  class RefundDesk {
    var orders: map<OrderId, Order>
    var ledger: seq<Entry>
    var requests: seq<Request>

    constructor (orders: map<OrderId, Order>)
      ensures Rows() == Db(orders, [], []) && LedgerInv(Rows())
    {
      this.orders, ledger, requests := orders, [], [];
      EmptyLedgerHolds(orders);
    }

    function Rows(): Db
      reads this
    {
      Db(orders, ledger, requests)
    }

    method SumOf(o: OrderId, kind: Kind) returns (sum: int)
      ensures sum == SumKind(ledger, o, kind)
    {
      sum := 0;
      for n := 0 to |ledger|
        invariant sum == SumKind(ledger[..n], o, kind)
      {
        assert ledger[..n + 1][..n] == ledger[..n];
        if ledger[n].order == o && ledger[n].kind == kind { sum := sum + ledger[n].amount; }
      }
      assert ledger[..|ledger|] == ledger;
    }

    method AppendEntry(e: Entry)
      modifies this`ledger
      ensures ledger == Append(old(ledger), e)
    {
      for n := 0 to |ledger|
        invariant ledger == old(ledger) && forall k :: 0 <= k < n ==> ledger[k].key != e.key
      {
        if ledger[n].key == e.key { return; }
      }
      ledger := ledger + [e];
    }

    /** The order is paid; total, tariff and fee enter the ledger unless they are there. */
    method RecordPaidOrder(o: OrderId, efiFee: nat)
      requires o in orders
      modifies this`orders, this`ledger
      ensures Rows() == SettleSale(old(Rows()), o, efiFee)
      ensures LedgerInv(old(Rows())) ==>
        && LedgerInv(Rows()) && Sold(Rows(), o)
        && (Sold(old(Rows()), o) ==> ledger == old(ledger))
        && (!Sold(old(Rows()), o) ==> HasTerms(Rows(), o, orders[o].total, efiFee, orders[o].platformFee))
    {
      SaleFacts(Rows(), o, efiFee);
      EnterSale(o, orders[o], efiFee);
      orders := orders[o := orders[o].(status := Paid)];
    }

    method EnterSale(o: OrderId, order: Order, efiFee: nat)
      modifies this`ledger
      ensures ledger == RecordSale(old(ledger), o, order.total, efiFee, order.platformFee)
    {
      AppendEntry(Entry(SaleKey(o), o, SaleKind, order.total));
      AppendEntry(Entry(EfiFeeKey(o), o, EfiFeeKind, 0 - efiFee));
      AppendEntry(Entry(PlatformFeeKey(o), o, PlatformFeeKind, 0 - order.platformFee));
    }

    method OpenRequest(o: OrderId) returns (open: Option<RequestId>)
      ensures open == FirstOpen(requests, o)
    {
      for n := 0 to |requests|
        invariant FirstOpen(requests[..n], o) == None
      {
        assert requests[..n + 1][..n] == requests[..n];
        if requests[n].order == o && requests[n].status == Requested {
          FirstStays(requests, o, n + 1);
          return Some(n);
        }
      }
      assert requests[..|requests|] == requests;
      return None;
    }

    method CloseOpen(o: OrderId)
      modifies this`requests
      ensures requests == CloseAll(old(requests), o)
    {
      ghost var was := requests;
      for n := 0 to |requests|
        invariant |requests| == |was|
        invariant forall k :: 0 <= k < n ==> requests[k] == Closed(was[k], o)
        invariant forall k :: n <= k < |was| ==> requests[k] == was[k]
      {
        if requests[n].order == o && requests[n].status == Requested {
          requests := requests[n := requests[n].(status := Done)];
        }
      }
    }

    /** The answer tells a refund that is new from one that was known. */
    method RecordRefund(o: OrderId, amount: nat, key: string, fromProvider: bool, now: int) returns (r: Result<bool, Refusal>)
      modifies this
      ensures match Record(old(Rows()), o, amount, key, fromProvider, now)
        case Failure(error) => r == Failure(error) && Rows() == old(Rows())
        case Success(Repeated) => r == Success(false) && Rows() == old(Rows())
        case Success(Recorded(after)) => r == Success(true) && Rows() == after
      ensures LedgerInv(old(Rows())) && KeyFree(old(Rows()), o, key) ==> LedgerInv(Rows())
    {
      if LedgerInv(Rows()) && KeyFree(Rows(), o, key) && Record(Rows(), o, amount, key, fromProvider, now).Success?
        && Record(Rows(), o, amount, key, fromProvider, now).value.Recorded?
      {
        RecordKeeps(Rows(), o, amount, key, fromProvider, now);
      }
      if o !in orders { return Failure(OrderNotFound); }
      if Known(Rows(), o, key) { return Success(false); }
      if !fromProvider {
        var refused := CheckByHand(o, amount, now);
        if refused.Some? { return Failure(refused.value); }
      }
      WriteRefund(o, amount, key);
      return Success(true);
    }

    method CheckByHand(o: OrderId, amount: nat, now: int) returns (refused: Option<Refusal>)
      requires o in orders
      ensures refused == RefusedByHand(Rows(), o, amount, now)
    {
      var open := OpenRequest(o);
      var refundEntries := SumOf(o, RefundKind);
      FirstOpenIs(requests, o);
      if orders[o].status != Paid { return Some(NotAllowed); }
      if amount > orders[o].total + refundEntries { return Some(TooHigh); }
      if open.Some? && requests[open.value].holdUntil.Some? && now < requests[open.value].holdUntil.value { return Some(OnHold); }
      return None;
    }

    method WriteEntries(o: OrderId, amount: nat, key: string, reversal: int)
      modifies this`ledger
      ensures ledger == RefundEntries(old(ledger), o, amount, key, reversal)
    {
      AppendEntry(Entry(RefundKey(key), o, RefundKind, 0 - amount));
      if reversal > 0 { AppendEntry(Entry(ReversalKey(key), o, ReversalKind, reversal)); }
    }

    method WriteRefund(o: OrderId, amount: nat, key: string)
      requires o in orders
      modifies this
      ensures Rows() == RefundWritten(old(Rows()), o, amount, key)
    {
      var order := orders[o];
      var refundEntries := SumOf(o, RefundKind);
      var reversed := SumOf(o, ReversalKind);
      var after := Min(order.total, -refundEntries + amount);
      var reversal := Round(order.platformFee * Max(0, after), order.total) - reversed;
      WriteEntries(o, amount, key, reversal);
      if after >= order.total && order.status == Paid { order := order.(status := Refunded); }
      orders := orders[o := order];
      CloseOpen(o);
    }

    method RefundedItems(o: OrderId) returns (done: set<nat>)
      ensures done == DoneItems(requests, o)
    {
      done := {};
      for n := 0 to |requests|
        invariant done == DoneItems(requests[..n], o)
      {
        assert requests[..n + 1][..n] == requests[..n];
        if requests[n].order == o && requests[n].status == Done { done := done + requests[n].items; }
      }
      assert requests[..|requests|] == requests;
    }

    /** What was read decides and prices the request; creating it comes later and looks at nothing again. */
    method ReadRequest(o: OrderId, origin: RequestOrigin, items: set<nat>, now: int) returns (row: Result<Request, Refusal>, ghost shares: seq<nat>)
      ensures o in orders ==> AreShares(orders[o].lines, orders[o].total, shares)
      ensures row == AskRow(Rows(), o, shares, origin, items, now)
    {
      if o !in orders { return Failure(OrderNotFound), []; }
      var order := orders[o];
      var split := ItemShares(order.lines, order.total);
      shares := split;
      if order.status != Paid { return Failure(NotAllowed), shares; }
      var open := OpenRequest(o);
      if open.Some? { return Failure(AlreadyRequested), shares; }
      var refundEntries := SumOf(o, RefundKind);
      var remaining := Max(0, order.total + refundEntries);
      if exists i :: i in items && i >= |order.lines| { return Failure(ItemInvalid), shares; }
      var done := RefundedItems(o);
      if items * done != {} { return Failure(ItemRefunded), shares; }
      var whole := IsWhole(order, done, items);
      var amount := remaining;
      if !whole {
        var cost := 0;
        for n := 0 to |split|
          invariant cost == SumChosen(split, items, n)
        {
          if n in items { cost := cost + split[n]; }
        }
        amount := Min(remaining, cost);
      }
      row := Success(Request(
        o, Requested, if whole then {} else items, amount, if origin == ByBuyer then Some(now + REFUND_HOLD_MS) else None));
    }

    method CreateRequest(row: Request)
      modifies this`requests
      ensures Rows() == old(Rows()).(requests := old(requests) + [row])
    {
      requests := requests + [row];
    }

    /** The two with nothing in between. */
    method RequestRefund(o: OrderId, origin: RequestOrigin, items: set<nat>, now: int) returns (refused: Option<Refusal>, ghost shares: seq<nat>)
      modifies this`requests
      ensures o in orders ==> AreShares(orders[o].lines, orders[o].total, shares)
      ensures match Ask(old(Rows()), o, shares, origin, items, now)
        case Success(after) => refused == None && Rows() == after
        case Failure(error) => refused == Some(error) && Rows() == old(Rows())
    {
      var row, split := ReadRequest(o, origin, items, now);
      shares := split;
      if row.Failure? { return Some(row.error), shares; }
      CreateRequest(row.value);
      return None, shares;
    }

    method EndRequest(r: RequestId, to: RequestStatus) returns (refused: Option<Refusal>)
      requires to == Withdrawn || to == Rejected
      modifies this`requests
      ensures match Settle(old(Rows()), r, to)
        case Success(after) => refused == None && Rows() == after
        case Failure(error) => refused == Some(error) && Rows() == old(Rows())
    {
      if r >= |requests| || requests[r].status != Requested { return Some(NotOpen); }
      requests := requests[r := requests[r].(status := to)];
      return None;
    }
  }

  lemma {:induction false} SaleFacts(db: Db, o: OrderId, efiFee: nat)
    requires o in db.orders
    ensures var after := SettleSale(db, o, efiFee);
      LedgerInv(db) ==>
        && LedgerInv(after) && Sold(after, o)
        && (Sold(db, o) ==> after.ledger == db.ledger)
        && (!Sold(db, o) ==> HasTerms(after, o, db.orders[o].total, efiFee, db.orders[o].platformFee))
  {
    if LedgerInv(db) { SaleKeeps(db, o, efiFee); SaleEntersOnce(db, o, efiFee); }
  }

  lemma {:induction false} FirstStays(requests: seq<Request>, o: OrderId, n: nat)
    requires n <= |requests| && FirstOpen(requests[..n], o).Some?
    ensures FirstOpen(requests, o) == FirstOpen(requests[..n], o)
    decreases |requests|
  {
    if n < |requests| {
      assert requests[..|requests| - 1][..n] == requests[..n];
      FirstStays(requests[..|requests| - 1], o, n);
    } else {
      assert requests[..n] == requests;
    }
  }
}
