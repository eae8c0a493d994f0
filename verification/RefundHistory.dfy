/**
 Histories of one order in which every refund pays the request that is open: what a request
 costs, and what the buyer has back in the end.
 */
module RefundHistory {
  import opened Pricing
  import opened RefundModel
  import opened RefundRuns

  datatype Event =
    | AskRefund(origin: RequestOrigin, items: set<nat>, now: int)
    | PayOpen(key: string, fromProvider: bool, now: int)
    | CloseRequest(r: RequestId, to: RequestStatus)

  // ---- sums over items -------------------------------------------------------------------

  lemma {:induction false} ChosenApart(shares: seq<nat>, a: set<nat>, b: set<nat>, n: nat)
    requires n <= |shares| && a !! b
    ensures SumChosen(shares, a + b, n) == SumChosen(shares, a, n) + SumChosen(shares, b, n)
  {
    if n > 0 { ChosenApart(shares, a, b, n - 1); }
  }

  lemma {:induction false} ChosenAtMost(shares: seq<nat>, a: set<nat>, n: nat)
    requires n <= |shares|
    ensures SumChosen(shares, a, n) <= Sum(shares[..n])
    ensures (forall i: nat :: i < n ==> i in a) ==> SumChosen(shares, a, n) == Sum(shares[..n])
  {
    if n > 0 {
      ChosenAtMost(shares, a, n - 1);
      assert shares[..n][..n - 1] == shares[..n - 1];
    }
  }

  lemma {:induction false} AllShares(order: Order, shares: seq<nat>, a: set<nat>)
    requires AreShares(order.lines, order.total, shares) && order.lines != []
    ensures SumChosen(shares, a, |shares|) <= order.total
    ensures (forall i: nat :: i < |order.lines| ==> i in a) ==> SumChosen(shares, a, |shares|) == order.total
  {
    SharesAddUp(order.lines, order.total, shares);
    ChosenAtMost(shares, a, |shares|);
    assert shares[..|shares|] == shares;
  }

  lemma {:induction false} NoneChosen(shares: seq<nat>, n: nat)
    requires n <= |shares|
    ensures SumChosen(shares, {}, n) == 0
  {
    if n > 0 { NoneChosen(shares, n - 1); }
  }

  // ---- the invariant ---------------------------------------------------------------------

  /** A request that names items costs their shares. */
  predicate RequestFits(db: Db, o: OrderId, shares: seq<nat>, r: RequestId) {
    r < |db.requests| && db.requests[r].order == o ==>
      var q := db.requests[r];
      && Indexes(q.items, |shares|)
      && (q.items != {} ==> q.amount == SumChosen(shares, q.items, |shares|))
      && (q.status == Requested && o in db.orders && db.orders[o].status == Paid ==>
           && q.items !! DoneItems(db.requests, o)
           && (q.items == {} ==> q.amount == db.orders[o].total - RefundedOf(db, o)))
  }

  predicate OneOpen(db: Db, o: OrderId, r: RequestId, t: RequestId) {
    IsOpen(db, r, o) && IsOpen(db, t, o) ==> r == t
  }

  /** Paid orders have back exactly the shares of the items refunded; refunded ones all of it. */
  ghost predicate HistoryInv(db: Db, o: OrderId, shares: seq<nat>) {
    && LedgerInv(db) && o in db.orders && db.orders[o].lines != []
    && AreShares(db.orders[o].lines, db.orders[o].total, shares)
    && (db.orders[o].status == Paid ==> RefundedOf(db, o) == SumChosen(shares, DoneItems(db.requests, o), |shares|) < db.orders[o].total)
    && (db.orders[o].status == Refunded ==> RefundedOf(db, o) == db.orders[o].total)
    && (db.orders[o].status == Paid || db.orders[o].status == Refunded)
    && (forall r: nat {:trigger RequestFits(db, o, shares, r)} :: RequestFits(db, o, shares, r))
    && (forall r: nat, t: nat {:trigger OneOpen(db, o, r, t)} :: OneOpen(db, o, r, t))
  }

  predicate Enabled(db: Db, o: OrderId, shares: seq<nat>, e: Event) {
    match e
    case AskRefund(origin, items, now) => o in db.orders && |shares| == |db.orders[o].lines|
    case PayOpen(key, fromProvider, now) =>
      o in db.orders && db.orders[o].status == Paid && FirstOpen(db.requests, o).Some?
      && FirstOpen(db.requests, o).value < |db.requests| && KeyFree(db, o, key) && !Known(db, o, key)
    case CloseRequest(r, to) => to == Withdrawn || to == Rejected
  }

  function Next(db: Db, o: OrderId, shares: seq<nat>, e: Event): Db
    requires Enabled(db, o, shares, e)
  {
    match e
    case AskRefund(origin, items, now) =>
      var asked := Ask(db, o, shares, origin, items, now);
      if asked.Success? then asked.value else db
    case PayOpen(key, fromProvider, now) =>
      var outcome := Record(db, o, db.requests[FirstOpen(db.requests, o).value].amount, key, fromProvider, now);
      if outcome.Success? && outcome.value.Recorded? then outcome.value.db else db
    case CloseRequest(r, to) =>
      var closed := Settle(db, r, to);
      if closed.Success? then closed.value else db
  }

  /** A new request costs exactly the shares of its items, the rest of the order when it names none. */
  lemma {:induction false} AskCosts(db: Db, o: OrderId, shares: seq<nat>, origin: RequestOrigin, items: set<nat>, now: int)
    requires HistoryInv(db, o, shares) && Ask(db, o, shares, origin, items, now).Success?
    ensures var order, done := db.orders[o], DoneItems(db.requests, o);
      && RefundedOf(db, o) == SumChosen(shares, done, |shares|)
      && (IsWhole(order, done, items) ==> CostOf(order, shares, RefundedOf(db, o), done, items) == order.total - RefundedOf(db, o))
      && (items != {} ==> CostOf(order, shares, RefundedOf(db, o), done, items) == SumChosen(shares, items, |shares|))
  {
    assert items * DoneItems(db.requests, o) == {};
    CostIs(db.orders[o], shares, DoneItems(db.requests, o), items);
  }

  lemma {:induction false} CostIs(order: Order, shares: seq<nat>, done: set<nat>, items: set<nat>)
    requires AreShares(order.lines, order.total, shares) && order.lines != [] && items * done == {}
    ensures var refunded := SumChosen(shares, done, |shares|);
      && refunded <= order.total
      && (IsWhole(order, done, items) ==> CostOf(order, shares, refunded, done, items) == order.total - refunded)
      && (items != {} ==> CostOf(order, shares, refunded, done, items) == SumChosen(shares, items, |shares|))
  {
    forall i | i in done ensures i !in items { assert (i in items * done) == (i in items); }
    ChosenApart(shares, done, items, |shares|);
    AllShares(order, shares, done + items);
    AllShares(order, shares, done);
  }

  /** What a second look at creation would find: nothing open, and what was chosen and priced still to refund. */
  predicate StillCurrent(db: Db, o: OrderId, q: Request) {
    && FirstOpen(db.requests, o).None?
    && (o in db.orders && db.orders[o].status == Paid ==>
         && q.items !! DoneItems(db.requests, o)
         && (q.items == {} ==> q.amount == db.orders[o].total - RefundedOf(db, o)))
  }

  predicate ReadFits(o: OrderId, shares: seq<nat>, q: Request) {
    && q.order == o && q.status == Requested && Indexes(q.items, |shares|)
    && (q.items != {} ==> q.amount == SumChosen(shares, q.items, |shares|))
  }

  lemma {:induction false} ReadFitsThen(db: Db, o: OrderId, shares: seq<nat>, origin: RequestOrigin, items: set<nat>, now: int)
    requires HistoryInv(db, o, shares) && AskRow(db, o, shares, origin, items, now).Success?
    ensures ReadFits(o, shares, AskRow(db, o, shares, origin, items, now).value)
    ensures StillCurrent(db, o, AskRow(db, o, shares, origin, items, now).value)
  {
    AskCosts(db, o, shares, origin, items, now);
    var done := DoneItems(db.requests, o);
    forall i | i in items ensures i !in done { assert (i in items * done) == (i in done); }
  }

  lemma {:induction false} CurrentKeeps(db: Db, o: OrderId, shares: seq<nat>, q: Request)
    requires HistoryInv(db, o, shares) && ReadFits(o, shares, q) && StillCurrent(db, o, q)
    ensures HistoryInv(db.(requests := db.requests + [q]), o, shares)
  {
    var after := db.(requests := db.requests + [q]);
    assert after.requests[..|db.requests|] == db.requests;
    assert DoneItems(after.requests, o) == DoneItems(db.requests, o);
    FirstOpenIs(db.requests, o);
    forall t: nat ensures RequestFits(after, o, shares, t) { assert RequestFits(db, o, shares, t); }
    forall s: nat, t: nat ensures OneOpen(after, o, s, t) { assert OneOpen(db, o, s, t); }
    SameLedger(db, after);
  }

  lemma {:induction false} AskKeeps(db: Db, o: OrderId, shares: seq<nat>, origin: RequestOrigin, items: set<nat>, now: int)
    requires HistoryInv(db, o, shares) && Ask(db, o, shares, origin, items, now).Success?
    ensures HistoryInv(Ask(db, o, shares, origin, items, now).value, o, shares)
  {
    ReadFitsThen(db, o, shares, origin, items, now);
    CurrentKeeps(db, o, shares, AskRow(db, o, shares, origin, items, now).value);
  }

  lemma {:induction false} SameLedger(db: Db, after: Db)
    requires LedgerInv(db) && after.ledger == db.ledger && after.orders == db.orders
    ensures LedgerInv(after)
  {
    forall n: nat ensures EntryFits(after, n) {
      assert EntryFits(db, n);
      if n < |db.ledger| && db.ledger[n].key.ReversalKey? { StillKnown(db, after, db.ledger[n].order, db.ledger[n].key.key); }
    }
    forall p ensures Balanced(after, p) { assert Balanced(db, p); }
    forall p ensures SoldWhole(after, p) { assert SoldWhole(db, p); }
  }

  lemma {:induction false} DoneUnchanged(before: seq<Request>, after: seq<Request>, o: OrderId)
    requires |before| == |after|
    requires forall r :: 0 <= r < |before| ==> before[r] == after[r] || (before[r].status != Done && after[r].status != Done)
    ensures DoneItems(after, o) == DoneItems(before, o)
  {
    if before != [] { DoneUnchanged(before[..|before| - 1], after[..|after| - 1], o); }
  }

  lemma {:induction false} CloseKeeps(db: Db, o: OrderId, shares: seq<nat>, r: RequestId, to: RequestStatus)
    requires HistoryInv(db, o, shares) && (to == Withdrawn || to == Rejected) && Settle(db, r, to).Success?
    ensures HistoryInv(Settle(db, r, to).value, o, shares)
  {
    var after := Settle(db, r, to).value;
    DoneUnchanged(db.requests, after.requests, o);
    forall t: nat ensures RequestFits(after, o, shares, t) { assert RequestFits(db, o, shares, t); }
    forall s: nat, t: nat ensures OneOpen(after, o, s, t) { assert OneOpen(db, o, s, t); }
    SameLedger(db, after);
  }

  /** Closing the open request adds its items, and only its items. */
  lemma {:induction false} DoneAfter(requests: seq<Request>, o: OrderId, r: RequestId)
    requires r < |requests| && requests[r].order == o && requests[r].status == Requested
    requires forall t :: 0 <= t < |requests| && requests[t].order == o && requests[t].status == Requested ==> t == r
    ensures DoneItems(CloseAll(requests, o), o) == DoneItems(requests, o) + requests[r].items
  {
    var front := requests[..|requests| - 1];
    assert CloseAll(requests, o)[..|requests| - 1] == CloseAll(front, o);
    if r < |front| {
      DoneAfter(front, o, r);
    } else {
      DoneUnchanged(front, CloseAll(front, o), o);
    }
  }

  lemma {:induction false} PayKeeps(db: Db, o: OrderId, shares: seq<nat>, key: string, fromProvider: bool, now: int)
    requires HistoryInv(db, o, shares) && Enabled(db, o, shares, PayOpen(key, fromProvider, now))
    ensures HistoryInv(Next(db, o, shares, PayOpen(key, fromProvider, now)), o, shares)
  {
    var r := FirstOpen(db.requests, o).value;
    var amount := db.requests[r].amount;
    var outcome := Record(db, o, amount, key, fromProvider, now);
    FirstOpenIs(db.requests, o);
    if outcome.Success? && outcome.value.Recorded? {
      var after := outcome.value.db;
      RecordWrites(db, o, amount, key, fromProvider, now);
      RecordKeeps(db, o, amount, key, fromProvider, now);
      PaidBack(db, o, shares, r);
      forall t: nat ensures RequestFits(after, o, shares, t) { PaidRequestFits(db, after, o, shares, r, t); }
      forall s: nat, t: nat ensures OneOpen(after, o, s, t) {}
    }
  }

  /** With the open request paid, no request of the order is left open. */
  lemma {:induction false} PaidRequestFits(db: Db, after: Db, o: OrderId, shares: seq<nat>, r: RequestId, t: RequestId)
    requires after.requests == CloseAll(db.requests, o) && RequestFits(db, o, shares, t)
    ensures RequestFits(after, o, shares, t)
  {}

  /** The open request brings the refunds to the shares of one more set of items, or to the total. */
  lemma {:induction false} PaidBack(db: Db, o: OrderId, shares: seq<nat>, r: RequestId)
    requires HistoryInv(db, o, shares) && db.orders[o].status == Paid && IsOpen(db, r, o)
    ensures var done, total, back := DoneItems(CloseAll(db.requests, o), o), db.orders[o].total, RefundedOf(db, o) + db.requests[r].amount;
      && back <= total && (back < total ==> back == SumChosen(shares, done, |shares|))
  {
    assert RequestFits(db, o, shares, r);
    forall t: nat | t < |db.requests| && db.requests[t].order == o && db.requests[t].status == Requested ensures t == r {
      assert OneOpen(db, o, r, t);
    }
    DoneAfter(db.requests, o, r);
    var before, items := DoneItems(db.requests, o), db.requests[r].items;
    ChosenApart(shares, before, items, |shares|);
    AllShares(db.orders[o], shares, before + items);
  }

  lemma {:induction false} NextKeeps(db: Db, o: OrderId, shares: seq<nat>, e: Event)
    requires HistoryInv(db, o, shares) && Enabled(db, o, shares, e)
    ensures HistoryInv(Next(db, o, shares, e), o, shares)
  {
    match e
    case AskRefund(origin, items, now) =>
      if Ask(db, o, shares, origin, items, now).Success? { AskKeeps(db, o, shares, origin, items, now); }
    case PayOpen(key, fromProvider, now) => PayKeeps(db, o, shares, key, fromProvider, now);
    case CloseRequest(r, to) => if Settle(db, r, to).Success? { CloseKeeps(db, o, shares, r, to); }
  }

  // ---- every history ---------------------------------------------------------------------

  predicate CanFollow(db: Db, o: OrderId, shares: seq<nat>, es: seq<Event>)
    decreases |es|
  {
    es == [] || (Enabled(db, o, shares, es[0]) && CanFollow(Next(db, o, shares, es[0]), o, shares, es[1..]))
  }

  function Followed(db: Db, o: OrderId, shares: seq<nat>, es: seq<Event>): Db
    requires CanFollow(db, o, shares, es)
    decreases |es|
  {
    if es == [] then db else Followed(Next(db, o, shares, es[0]), o, shares, es[1..])
  }

  lemma {:induction false} NextLeavesSale(db: Db, o: OrderId, shares: seq<nat>, e: Event, total: int, efiFee: int, platformFee: int)
    requires LedgerInv(db) && Enabled(db, o, shares, e) && HasTerms(db, o, total, efiFee, platformFee)
    ensures var after := Next(db, o, shares, e);
      && HasTerms(after, o, total, efiFee, platformFee)
      && (o in db.orders ==> o in after.orders && after.orders[o].(status := db.orders[o].status) == db.orders[o])
  {
    if e.PayOpen? {
      var amount := db.requests[FirstOpen(db.requests, o).value].amount;
      var outcome := Record(db, o, amount, e.key, e.fromProvider, e.now);
      if outcome.Success? && outcome.value.Recorded? {
        RecordEntries(db, o, amount, e.key, e.fromProvider, e.now);
        SalesLeft(db, o, amount, ReversalFor(db, o, amount), e.key, o);
      }
    }
  }

  lemma {:induction false} HistoryKeeps(db: Db, o: OrderId, shares: seq<nat>, es: seq<Event>, total: int, efiFee: int, platformFee: int)
    requires HistoryInv(db, o, shares) && CanFollow(db, o, shares, es) && HasTerms(db, o, total, efiFee, platformFee)
    ensures var end := Followed(db, o, shares, es);
      && HistoryInv(end, o, shares) && HasTerms(end, o, total, efiFee, platformFee)
      && end.orders[o].(status := db.orders[o].status) == db.orders[o]
    decreases |es|
  {
    if es != [] {
      NextKeeps(db, o, shares, es[0]);
      NextLeavesSale(db, o, shares, es[0], total, efiFee, platformFee);
      HistoryKeeps(Next(db, o, shares, es[0]), o, shares, es[1..], total, efiFee, platformFee);
    }
  }

  /** Nothing of the order is in the ledger or asked for. */
  predicate Untouched(db: Db, o: OrderId) {
    && (forall n :: 0 <= n < |db.ledger| ==> db.ledger[n].order != o)
    && (forall r :: 0 <= r < |db.requests| ==> db.requests[r].order != o)
  }

  lemma {:induction false} NothingDone(requests: seq<Request>, o: OrderId)
    requires forall r :: 0 <= r < |requests| ==> requests[r].order != o
    ensures DoneItems(requests, o) == {}
  {
    if requests != [] { NothingDone(requests[..|requests| - 1], o); }
  }

  lemma {:induction false} NothingMoved(ledger: seq<Entry>, o: OrderId, kind: Kind)
    requires forall n :: 0 <= n < |ledger| ==> ledger[n].order != o
    ensures SumKind(ledger, o, kind) == 0
  {
    if ledger != [] { NothingMoved(ledger[..|ledger| - 1], o, kind); }
  }

  lemma {:induction false} FreshSale(before: Db, o: OrderId, efiFee: nat, shares: seq<nat>)
    requires LedgerInv(before) && Untouched(before, o) && o in before.orders && before.orders[o].lines != []
    requires AreShares(before.orders[o].lines, before.orders[o].total, shares)
    ensures var sold := SettleSale(before, o, efiFee); var order := before.orders[o];
      HistoryInv(sold, o, shares) && HasTerms(sold, o, order.total, efiFee, order.platformFee)
  {
    var sold := SettleSale(before, o, efiFee);
    SaleKeeps(before, o, efiFee);
    forall n | 0 <= n < |before.ledger| ensures before.ledger[n].key != SaleKey(o) { assert EntryFits(before, n); }
    SaleEntersOnce(before, o, efiFee);
    NothingMoved(before.ledger, o, RefundKind);
    NothingDone(before.requests, o);
    NoneChosen(shares, |shares|);
    forall r: nat ensures RequestFits(sold, o, shares, r) {}
    forall r: nat, t: nat ensures OneOpen(sold, o, r, t) {}
  }

  /**
   In every such history from the sale of an order on, requests cost the shares of the items
   they name, what was returned is the shares of the items refunded so far, the order ends as
   refunded exactly when the whole total is back, and the entries come to what was received
   less tariff, refunds and the fee not returned.
   */
  lemma {:induction false} RefundsFollowShares(before: Db, o: OrderId, efiFee: nat, shares: seq<nat>, es: seq<Event>)
    requires LedgerInv(before) && Untouched(before, o) && o in before.orders && before.orders[o].lines != []
    requires AreShares(before.orders[o].lines, before.orders[o].total, shares)
    requires CanFollow(SettleSale(before, o, efiFee), o, shares, es)
    ensures var end := Followed(SettleSale(before, o, efiFee), o, shares, es);
      var order, done, back := before.orders[o], DoneItems(end.requests, o), RefundedOf(end, o);
      && o in end.orders && end.orders[o] == order.(status := if back == order.total then Refunded else Paid)
      && (forall r :: 0 <= r < |end.requests| && end.requests[r].order == o && end.requests[r].items != {} ==>
           end.requests[r].amount == SumChosen(shares, end.requests[r].items, |shares|))
      && (back < order.total ==> back == SumChosen(shares, done, |shares|))
      && ((forall i: nat :: i < |shares| ==> i in done) ==> back == order.total)
      && Net(end.ledger, o) == order.total - efiFee - back - order.platformFee + FeeFor(order, back)
  {
    FreshSale(before, o, efiFee, shares);
    var sold, order := SettleSale(before, o, efiFee), before.orders[o];
    HistoryKeeps(sold, o, shares, es, order.total, efiFee, order.platformFee);
    var end := Followed(sold, o, shares, es);
    forall r | 0 <= r < |end.requests| && end.requests[r].order == o && end.requests[r].items != {}
      ensures end.requests[r].amount == SumChosen(shares, end.requests[r].items, |shares|)
    {
      assert RequestFits(end, o, shares, r);
    }
    AllShares(end.orders[o], shares, DoneItems(end.requests, o));
    NetIsKinds(end.ledger, o);
    assert Balanced(end, o);
  }
}
