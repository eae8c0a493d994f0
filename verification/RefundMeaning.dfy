/** What a refund and a request for one do, case by case: who is refused and why, and which rows change to what. */
module RefundMeaning {
  import opened Common
  import opened Pricing
  import opened RefundModel

  /** An entry under a key that is taken is left out, any other comes last. */
  lemma {:induction false} AppendMeans(ledger: seq<Entry>, e: Entry)
    ensures (exists n :: 0 <= n < |ledger| && ledger[n].key == e.key) ==> Append(ledger, e) == ledger
    ensures (forall n :: 0 <= n < |ledger| ==> ledger[n].key != e.key) ==> Append(ledger, e) == ledger + [e]
  {}

  /** The part of the total that is back, never more than all of it. */
  function BackOf(order: Order, refunded: int): nat { if refunded < 0 then 0 else if refunded > order.total then order.total else refunded }

  /** The fee to return is the platform's part of what is back, to the nearest cent. */
  lemma {:induction false} FeeMeans(order: Order, refunded: int)
    ensures var due, share := FeeFor(order, refunded), order.platformFee * BackOf(order, refunded);
      2 * share - order.total < 2 * order.total * due <= 2 * share + order.total
  {
    RoundIs(order.platformFee * BackOf(order, refunded), order.total);
  }

  predicate OpenAt(db: Db, o: OrderId, r: RequestId) { r < |db.requests| && db.requests[r].order == o && db.requests[r].status == Requested }

  predicate FirstOpenAt(db: Db, o: OrderId, r: RequestId) { OpenAt(db, o, r) && forall q: nat :: q < r ==> !OpenAt(db, o, q) }

  /** The buyer's request that is open is still held for the seller. */
  predicate OnHoldAt(db: Db, o: OrderId, now: int) {
    exists r: nat :: r < |db.requests| && FirstOpenAt(db, o, r) && db.requests[r].holdUntil.Some? && now < db.requests[r].holdUntil.value
  }

  lemma {:induction false} FirstOpenMeans(db: Db, requests: seq<Request>, o: OrderId)
    requires |requests| <= |db.requests| && requests == db.requests[..|requests|]
    ensures var first := FirstOpen(requests, o);
      && (first.Some? ==> first.value < |requests| && FirstOpenAt(db, o, first.value))
      && (first.None? ==> forall r: nat :: r < |requests| ==> !OpenAt(db, o, r))
  {
    if requests != [] {
      var n := |requests| - 1;
      FirstOpenMeans(db, requests[..n], o);
      assert requests[n] == db.requests[n];
    }
  }

  /** The refund of this key is in the ledger already. */
  predicate AlreadyIn(db: Db, o: OrderId, key: string) {
    exists n :: 0 <= n < |db.ledger| && db.ledger[n].order == o && db.ledger[n].key == RefundKey(key) && db.ledger[n].kind in {RefundKind, ReversalKind}
  }

  /** A refund by hand is of a paid order, at most what is left, and not while the open request is held; one the provider made is a fact. */
  lemma {:induction false} RecordRefuses(db: Db, o: OrderId, amount: nat, key: string, fromProvider: bool, now: int)
    ensures var r := Record(db, o, amount, key, fromProvider, now);
      if o !in db.orders then r == Failure(OrderNotFound)
      else if AlreadyIn(db, o, key) then r == Success(Repeated)
      else if !fromProvider && db.orders[o].status != Paid then r == Failure(NotAllowed)
      else if !fromProvider && RefundedOf(db, o) + amount > db.orders[o].total then r == Failure(TooHigh)
      else if !fromProvider && OnHoldAt(db, o, now) then r == Failure(OnHold)
      else r.Success? && r.value.Recorded?
  {
    assert db.requests[..|db.requests|] == db.requests;
    FirstOpenMeans(db, db.requests, o);
    FirstOpenIs(db.requests, o);
  }

  /** What a recorded refund writes: its entry and that of the fee that comes back, the status if all is back, and every open request done. */
  lemma {:induction false} RecordMeans(db: Db, o: OrderId, amount: nat, key: string, fromProvider: bool, now: int)
    requires Record(db, o, amount, key, fromProvider, now).Success? && Record(db, o, amount, key, fromProvider, now).value.Recorded?
    ensures var after := Record(db, o, amount, key, fromProvider, now).value.db; var order, back := db.orders[o], RefundedOf(db, o) + amount;
      && after.orders == db.orders[o := order.(status := if order.status == Paid && back >= order.total then Refunded else order.status)]
      && |after.requests| == |db.requests|
      && (forall r :: 0 <= r < |db.requests| ==>
           after.requests[r] == db.requests[r].(status := if OpenAt(db, o, r) then Done else db.requests[r].status))
      && var fee := FeeFor(order, back) - ReversedOf(db, o);
         after.ledger == (if fee > 0 then Append(Append(db.ledger, Entry(RefundKey(key), o, RefundKind, 0 - amount)), Entry(ReversalKey(key), o, ReversalKind, fee))
                          else Append(db.ledger, Entry(RefundKey(key), o, RefundKind, 0 - amount)))
  {}

  // ---- requests --------------------------------------------------------------------------------------

  predicate RefundedItem(db: Db, o: OrderId, i: nat) {
    exists r :: 0 <= r < |db.requests| && db.requests[r].order == o && db.requests[r].status == Done && i in db.requests[r].items
  }

  lemma {:induction false} DoneItemsMean(requests: seq<Request>, o: OrderId, i: nat)
    ensures i in DoneItems(requests, o) <==>
      exists r :: 0 <= r < |requests| && requests[r].order == o && requests[r].status == Done && i in requests[r].items
  {
    if requests != [] {
      var front := requests[..|requests| - 1];
      DoneItemsMean(front, o, i);
      if i in DoneItems(front, o) {
        var r :| 0 <= r < |front| && front[r].order == o && front[r].status == Done && i in front[r].items;
        assert requests[r] == front[r];
      }
      if exists r :: 0 <= r < |requests| && requests[r].order == o && requests[r].status == Done && i in requests[r].items {
        var r :| 0 <= r < |requests| && requests[r].order == o && requests[r].status == Done && i in requests[r].items;
        if r < |front| { assert front[r] == requests[r]; }
      }
    }
  }

  /** Nothing named, or nothing left besides. */
  predicate WholeOrder(db: Db, o: OrderId, items: set<nat>)
    requires o in db.orders
  {
    items == {} || forall i: nat :: i < |db.orders[o].lines| ==> i in items || RefundedItem(db, o, i)
  }

  /** A request is made for a paid order with no request open, of items it has and that were not refunded. */
  lemma {:induction false} AskRefuses(db: Db, o: OrderId, shares: seq<nat>, origin: RequestOrigin, items: set<nat>, now: int)
    requires o in db.orders ==> |shares| == |db.orders[o].lines|
    ensures var r := AskRow(db, o, shares, origin, items, now);
      if o !in db.orders then r == Failure(OrderNotFound)
      else if db.orders[o].status != Paid then r == Failure(NotAllowed)
      else if exists q: nat :: q < |db.requests| && OpenAt(db, o, q) then r == Failure(AlreadyRequested)
      else if exists i :: i in items && i >= |db.orders[o].lines| then r == Failure(ItemInvalid)
      else if exists i :: i in items && RefundedItem(db, o, i) then r == Failure(ItemRefunded)
      else r.Success?
  {
    assert db.requests[..|db.requests|] == db.requests;
    FirstOpenMeans(db, db.requests, o);
    var done := DoneItems(db.requests, o);
    forall i ensures i in done <==> RefundedItem(db, o, i) { DoneItemsMean(db.requests, o, i); }
    if exists i :: i in items && RefundedItem(db, o, i) {
      var i :| i in items && RefundedItem(db, o, i);
      assert i in items * done;
    }
    if items * done != {} {
      var i :| i in items * done;
      assert i in items && RefundedItem(db, o, i);
    }
  }

  /** It costs the rest of the order or the shares of its items while they last; a buyer's is held for a week. */
  lemma {:induction false} AskMeans(db: Db, o: OrderId, shares: seq<nat>, origin: RequestOrigin, items: set<nat>, now: int)
    requires o in db.orders && |shares| == |db.orders[o].lines| && AskRow(db, o, shares, origin, items, now).Success?
    ensures var q := AskRow(db, o, shares, origin, items, now).value; var left := db.orders[o].total - RefundedOf(db, o);
      && q.order == o && q.status == Requested
      && q.items == (if WholeOrder(db, o, items) then {} else items)
      && (left >= 0 ==> q.amount == (if WholeOrder(db, o, items) || SumChosen(shares, items, |shares|) > left then left else SumChosen(shares, items, |shares|)))
      && (left < 0 ==> q.amount == 0)
      && q.holdUntil == (if origin == ByBuyer then Some(now + 7 * 24 * 3600 * 1000) else None)
  {
    forall i ensures i in DoneItems(db.requests, o) <==> RefundedItem(db, o, i) { DoneItemsMean(db.requests, o, i); }
    assert IsWhole(db.orders[o], DoneItems(db.requests, o), items) <==> WholeOrder(db, o, items);
  }

  /** The shares of the chosen items, each once. */
  lemma {:induction false} ChosenMeans(shares: seq<nat>, items: set<nat>, n: nat)
    requires n < |shares|
    ensures SumChosen(shares, items, 0) == 0
    ensures SumChosen(shares, items, n + 1) - SumChosen(shares, items, n) == if n in items then shares[n] else 0
  {}

  lemma {:induction false} OpenMeans(db: Db, o: OrderId, r: RequestId)
    ensures IsOpen(db, r, o) <==> OpenAt(db, o, r)
  {}

  /** Only an open request is withdrawn or turned down. */
  lemma {:induction false} SettleMeans(db: Db, r: RequestId, to: RequestStatus)
    requires to == Withdrawn || to == Rejected
    ensures Settle(db, r, to) == if r < |db.requests| && db.requests[r].status == Requested
      then Success(db.(requests := db.requests[r := db.requests[r].(status := to)])) else Failure(NotOpen)
  {}
}
