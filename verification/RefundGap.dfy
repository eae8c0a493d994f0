/**
 Asking for a refund as it runs: the order is read first, the request created later without a lock.
 When what is back of an order still follows the shares of the items refunded.
 */
module RefundGap {
  import opened Common
  import opened Pricing
  import opened RefundModel
  import opened RefundRuns
  import opened RefundHistory

  type Reader = nat

  /** The rows, and the requests that readers are about to create. */
  datatype Desk = Desk(db: Db, read: map<Reader, Request>)

  datatype DeskEvent =
    | AskRead(x: Reader, origin: RequestOrigin, items: set<nat>, now: int)
    | AskCreate(x: Reader)
    | PayRequest(r: RequestId, key: string, fromProvider: bool, now: int)
    | DropRequest(r: RequestId, to: RequestStatus)

  /** A refund pays one of the open requests of the order. */
  predicate CanStep(d: Desk, o: OrderId, shares: seq<nat>, e: DeskEvent) {
    match e
    case AskRead(x, origin, items, now) =>
      o in d.db.orders && |shares| == |d.db.orders[o].lines| && AskRow(d.db, o, shares, origin, items, now).Success?
    case AskCreate(x) => x in d.read
    case PayRequest(r, key, fromProvider, now) =>
      o in d.db.orders && d.db.orders[o].status == Paid && IsOpen(d.db, r, o) && KeyFree(d.db, o, key) && !Known(d.db, o, key)
    case DropRequest(r, to) => to == Withdrawn || to == Rejected
  }

  function Recording(d: Desk, o: OrderId, e: DeskEvent): Result<Outcome, Refusal>
    requires e.PayRequest? && e.r < |d.db.requests|
  {
    Record(d.db, o, d.db.requests[e.r].amount, e.key, e.fromProvider, e.now)
  }

  function Stepped(d: Desk, o: OrderId, shares: seq<nat>, e: DeskEvent): Desk
    requires CanStep(d, o, shares, e)
  {
    match e
    case AskRead(x, origin, items, now) => d.(read := d.read[x := AskRow(d.db, o, shares, origin, items, now).value])
    case AskCreate(x) => Desk(d.db.(requests := d.db.requests + [d.read[x]]), d.read - {x})
    case PayRequest(r, key, fromProvider, now) =>
      var outcome := Recording(d, o, e);
      if outcome.Success? && outcome.value.Recorded? then d.(db := outcome.value.db) else d
    case DropRequest(r, to) =>
      var closed := Settle(d.db, r, to);
      if closed.Success? then d.(db := closed.value) else d
  }

  predicate CanRun(d: Desk, o: OrderId, shares: seq<nat>, es: seq<DeskEvent>)
    decreases |es|
  {
    es == [] || (CanStep(d, o, shares, es[0]) && CanRun(Stepped(d, o, shares, es[0]), o, shares, es[1..]))
  }

  function Ran(d: Desk, o: OrderId, shares: seq<nat>, es: seq<DeskEvent>): Desk
    requires CanRun(d, o, shares, es)
    decreases |es|
  {
    if es == [] then d else Ran(Stepped(d, o, shares, es[0]), o, shares, es[1..])
  }

  // ---- what is back and what is marked ----------------------------------------------------------

  /** While the order is paid, what is back is the shares of the items refunded. */
  predicate FollowsShares(db: Db, o: OrderId, shares: seq<nat>) {
    o in db.orders && db.orders[o].status == Paid ==> RefundedOf(db, o) == SumChosen(shares, DoneItems(db.requests, o), |shares|)
  }

  function OpenItems(requests: seq<Request>, o: OrderId): set<nat> {
    if requests == [] then {} else
    var last := requests[|requests| - 1];
    OpenItems(requests[..|requests| - 1], o) + (if last.order == o && last.status == Requested then last.items else {})
  }

  /** A refund marks the items of every open request. */
  lemma {:induction false} DoneAfterAll(requests: seq<Request>, o: OrderId)
    ensures DoneItems(CloseAll(requests, o), o) == DoneItems(requests, o) + OpenItems(requests, o)
  {
    if requests != [] {
      var front := requests[..|requests| - 1];
      assert CloseAll(requests, o)[..|requests| - 1] == CloseAll(front, o);
      DoneAfterAll(front, o);
    }
  }

  /** The refund brings the whole total back, or pays exactly what it marks and was not marked before. */
  predicate PaysWhatItMarks(d: Desk, o: OrderId, shares: seq<nat>, e: DeskEvent)
    requires CanStep(d, o, shares, e)
  {
    e.PayRequest? && Recording(d, o, e).Success? ==>
      var amount := d.db.requests[e.r].amount;
      || RefundedOf(d.db, o) + amount >= d.db.orders[o].total
      || amount == SumChosen(shares, OpenItems(d.db.requests, o) - DoneItems(d.db.requests, o), |shares|)
  }

  ghost predicate MarkInv(d: Desk, o: OrderId, shares: seq<nat>) {
    && LedgerInv(d.db) && o in d.db.orders && FollowsShares(d.db, o, shares)
    && (forall x :: x in d.read ==> d.read[x].status == Requested)
  }

  lemma {:induction false} SameRequestsFollow(db: Db, after: Db, o: OrderId, shares: seq<nat>)
    requires LedgerInv(db) && after.ledger == db.ledger && after.orders == db.orders && DoneItems(after.requests, o) == DoneItems(db.requests, o)
    ensures LedgerInv(after) && (FollowsShares(after, o, shares) <==> FollowsShares(db, o, shares))
  {
    SameLedger(db, after);
  }

  lemma {:induction false} PayFollows(d: Desk, o: OrderId, shares: seq<nat>, e: DeskEvent)
    requires MarkInv(d, o, shares) && CanStep(d, o, shares, e) && e.PayRequest?
    ensures LedgerInv(Stepped(d, o, shares, e).db) && o in Stepped(d, o, shares, e).db.orders
    ensures FollowsShares(Stepped(d, o, shares, e).db, o, shares) <==> PaysWhatItMarks(d, o, shares, e)
  {
    var outcome, amount := Recording(d, o, e), d.db.requests[e.r].amount;
    if outcome.Success? {
      RecordKeeps(d.db, o, amount, e.key, e.fromProvider, e.now);
      RecordWrites(d.db, o, amount, e.key, e.fromProvider, e.now);
      DoneAfterAll(d.db.requests, o);
      var done, open := DoneItems(d.db.requests, o), OpenItems(d.db.requests, o);
      ChosenApart(shares, done, open - done, |shares|);
      assert done + (open - done) == done + open;
    }
  }

  lemma {:induction false} StepFollows(d: Desk, o: OrderId, shares: seq<nat>, e: DeskEvent)
    requires MarkInv(d, o, shares) && CanStep(d, o, shares, e)
    ensures FollowsShares(Stepped(d, o, shares, e).db, o, shares) <==> PaysWhatItMarks(d, o, shares, e)
    ensures PaysWhatItMarks(d, o, shares, e) ==> MarkInv(Stepped(d, o, shares, e), o, shares)
  {
    var after := Stepped(d, o, shares, e);
    match e
    case AskRead(x, origin, items, now) =>
    case AskCreate(x) =>
      assert after.db.requests[..|after.db.requests| - 1] == d.db.requests;
      SameRequestsFollow(d.db, after.db, o, shares);
    case PayRequest(r, key, fromProvider, now) => PayFollows(d, o, shares, e);
    case DropRequest(r, to) =>
      DoneUnchanged(d.db.requests, after.db.requests, o);
      SameRequestsFollow(d.db, after.db, o, shares);
  }

  predicate FollowsThroughout(d: Desk, o: OrderId, shares: seq<nat>, es: seq<DeskEvent>)
    requires CanRun(d, o, shares, es)
    decreases |es|
  {
    FollowsShares(d.db, o, shares) && (es == [] || FollowsThroughout(Stepped(d, o, shares, es[0]), o, shares, es[1..]))
  }

  predicate AllPayWhatTheyMark(d: Desk, o: OrderId, shares: seq<nat>, es: seq<DeskEvent>)
    requires CanRun(d, o, shares, es)
    decreases |es|
  {
    es == [] || (PaysWhatItMarks(d, o, shares, es[0]) && AllPayWhatTheyMark(Stepped(d, o, shares, es[0]), o, shares, es[1..]))
  }

  /**
   What is back follows the shares all through a run exactly when every refund brought the whole
   total back or paid what it marked, whoever created requests in between.
   */
  lemma {:induction false} FollowsIffPaid(d: Desk, o: OrderId, shares: seq<nat>, es: seq<DeskEvent>)
    requires MarkInv(d, o, shares) && CanRun(d, o, shares, es)
    ensures FollowsThroughout(d, o, shares, es) <==> AllPayWhatTheyMark(d, o, shares, es)
    decreases |es|
  {
    if es != [] {
      StepFollows(d, o, shares, es[0]);
      if PaysWhatItMarks(d, o, shares, es[0]) { FollowsIffPaid(Stepped(d, o, shares, es[0]), o, shares, es[1..]); }
    }
  }

  // ---- requests created as they were read ---------------------------------------------------------

  predicate CurrentStep(d: Desk, o: OrderId, e: DeskEvent) { e.AskCreate? && e.x in d.read ==> StillCurrent(d.db, o, d.read[e.x]) }

  ghost predicate DeskInv(d: Desk, o: OrderId, shares: seq<nat>) {
    HistoryInv(d.db, o, shares) && forall x :: x in d.read ==> ReadFits(o, shares, d.read[x])
  }

  lemma {:induction false} CreateIff(db: Db, o: OrderId, shares: seq<nat>, q: Request)
    requires HistoryInv(db, o, shares) && ReadFits(o, shares, q)
    ensures HistoryInv(db.(requests := db.requests + [q]), o, shares) <==> StillCurrent(db, o, q)
  {
    var after := db.(requests := db.requests + [q]);
    var r := |db.requests|;
    assert after.requests[..r] == db.requests && after.requests[r] == q;
    assert DoneItems(after.requests, o) == DoneItems(db.requests, o);
    FirstOpenIs(db.requests, o);
    if HistoryInv(after, o, shares) {
      assert RequestFits(after, o, shares, r);
      var first := FirstOpen(db.requests, o);
      assert OneOpen(after, o, if first.Some? then first.value else r, r);
    }
    if StillCurrent(db, o, q) { CurrentKeeps(db, o, shares, q); }
  }

  lemma {:induction false} StepCurrent(d: Desk, o: OrderId, shares: seq<nat>, e: DeskEvent)
    requires DeskInv(d, o, shares) && CanStep(d, o, shares, e)
    ensures HistoryInv(Stepped(d, o, shares, e).db, o, shares) <==> CurrentStep(d, o, e)
    ensures CurrentStep(d, o, e) ==> DeskInv(Stepped(d, o, shares, e), o, shares)
  {
    match e
    case AskRead(x, origin, items, now) => ReadFitsThen(d.db, o, shares, origin, items, now);
    case AskCreate(x) => CreateIff(d.db, o, shares, d.read[x]);
    case PayRequest(r, key, fromProvider, now) =>
      FirstOpenIs(d.db.requests, o);
      assert OneOpen(d.db, o, r, FirstOpen(d.db.requests, o).value);
      PayKeeps(d.db, o, shares, key, fromProvider, now);
    case DropRequest(r, to) => if Settle(d.db, r, to).Success? { CloseKeeps(d.db, o, shares, r, to); }
  }

  ghost predicate SoundThroughout(d: Desk, o: OrderId, shares: seq<nat>, es: seq<DeskEvent>)
    requires CanRun(d, o, shares, es)
    decreases |es|
  {
    HistoryInv(d.db, o, shares) && (es == [] || SoundThroughout(Stepped(d, o, shares, es[0]), o, shares, es[1..]))
  }

  predicate AllCurrent(d: Desk, o: OrderId, shares: seq<nat>, es: seq<DeskEvent>)
    requires CanRun(d, o, shares, es)
    decreases |es|
  {
    es == [] || (CurrentStep(d, o, es[0]) && AllCurrent(Stepped(d, o, shares, es[0]), o, shares, es[1..]))
  }

  /**
   One request at a time, each for items still to refund at their shares, all through a run exactly
   when every request was still current when it was created; then what is back follows the shares.
   */
  lemma {:induction false} SoundIffCurrent(d: Desk, o: OrderId, shares: seq<nat>, es: seq<DeskEvent>)
    requires DeskInv(d, o, shares) && CanRun(d, o, shares, es)
    ensures SoundThroughout(d, o, shares, es) <==> AllCurrent(d, o, shares, es)
    ensures AllCurrent(d, o, shares, es) ==> FollowsThroughout(d, o, shares, es)
    decreases |es|
  {
    if es != [] {
      StepCurrent(d, o, shares, es[0]);
      if CurrentStep(d, o, es[0]) { SoundIffCurrent(Stepped(d, o, shares, es[0]), o, shares, es[1..]); }
    }
  }

  // ---- two readings before one creation -------------------------------------------------------------

  lemma {:induction false} FirstStep(d: Desk, o: OrderId, shares: seq<nat>, e: DeskEvent, es: seq<DeskEvent>)
    requires CanStep(d, o, shares, e) && CanRun(Stepped(d, o, shares, e), o, shares, es)
    ensures CanRun(d, o, shares, [e] + es) && Ran(d, o, shares, [e] + es) == Ran(Stepped(d, o, shares, e), o, shares, es)
  {
    assert ([e] + es)[1..] == es;
  }

  lemma {:induction false} OneChosen(shares: seq<nat>, i: nat, n: nat)
    requires i < |shares| && n <= |shares|
    ensures SumChosen(shares, {i}, n) == if i < n then shares[i] else 0
  {
    if n > 0 { OneChosen(shares, i, n - 1); }
  }

  lemma {:induction false} NoneOpen(requests: seq<Request>, o: OrderId)
    requires forall r :: 0 <= r < |requests| ==> requests[r].order != o
    ensures OpenItems(requests, o) == {} && DoneItems(requests, o) == {} && FirstOpen(requests, o).None?
  {
    if requests != [] { NoneOpen(requests[..|requests| - 1], o); }
    FirstOpenIs(requests, o);
  }

  /** An order just sold, with two items that cost something. */
  ghost predicate TwoItems(db: Db, o: OrderId, shares: seq<nat>, i: nat, j: nat) {
    && HistoryInv(db, o, shares) && db.orders[o].status == Paid
    && (forall r :: 0 <= r < |db.requests| ==> db.requests[r].order != o)
    && i < |shares| && j < |shares| && i != j && shares[i] > 0 && shares[j] > 0
  }

  function Asked(o: OrderId, shares: seq<nat>, i: nat): Request
    requires i < |shares|
  {
    Request(o, Requested, {i}, shares[i], None)
  }

  lemma {:induction false} ReadOne(db: Db, o: OrderId, shares: seq<nat>, i: nat, j: nat)
    requires TwoItems(db, o, shares, i, j)
    ensures |shares| == |db.orders[o].lines| && AskRow(db, o, shares, BySeller, {i}, 0) == Success(Asked(o, shares, i))
    ensures shares[i] + shares[j] <= db.orders[o].total && RefundedOf(db, o) == 0
  {
    NoneOpen(db.requests, o);
    NoneChosen(shares, |shares|);
    assert {i} * {} == {};
    assert !IsWhole(db.orders[o], {}, {i}) by { assert j < |db.orders[o].lines| && j !in {i}; }
    AskCosts(db, o, shares, BySeller, {i}, 0);
    OneChosen(shares, i, |shares|);
    OneChosen(shares, j, |shares|);
    ChosenApart(shares, {i}, {j}, |shares|);
    AllShares(db.orders[o], shares, {i} + {j});
  }

  function BothRequested(db: Db, o: OrderId, shares: seq<nat>, i: nat, j: nat): Db
    requires i < |shares| && j < |shares|
  {
    db.(requests := db.requests + [Asked(o, shares, i)] + [Asked(o, shares, j)])
  }

  lemma {:induction false} BothOpen(requests: seq<Request>, o: OrderId, a: Request, b: Request)
    requires OpenItems(requests, o) == {} && DoneItems(requests, o) == {}
    requires a.order == o && b.order == o && a.status == Requested && b.status == Requested
    ensures OpenItems(requests + [a] + [b], o) == a.items + b.items && DoneItems(requests + [a] + [b], o) == {}
  {
    assert (requests + [a] + [b])[..|requests| + 1] == requests + [a];
    assert (requests + [a])[..|requests|] == requests;
  }

  /** The refund of one marks both. */
  lemma {:induction false} PayMarksBoth(d: Desk, o: OrderId, shares: seq<nat>, i: nat, j: nat, r: RequestId, key: string)
    requires i < |shares| && j < |shares| && i != j && shares[j] > 0
    requires LedgerInv(d.db) && o in d.db.orders && d.db.orders[o].status == Paid && RefundedOf(d.db, o) == 0
    requires shares[i] + shares[j] <= d.db.orders[o].total
    requires DoneItems(d.db.requests, o) == {} && OpenItems(d.db.requests, o) == {i} + {j}
    requires IsOpen(d.db, r, o) && d.db.requests[r].amount == shares[i] && KeyFree(d.db, o, key) && !Known(d.db, o, key)
    ensures var e := PayRequest(r, key, true, 0);
      CanStep(d, o, shares, e) && var end := Stepped(d, o, shares, e).db;
        && o in end.orders && end.orders[o].status == Paid && RefundedOf(end, o) == shares[i]
        && DoneItems(end.requests, o) == {i, j} && !FollowsShares(end, o, shares)
  {
    var e := PayRequest(r, key, true, 0);
    RecordWrites(d.db, o, shares[i], key, true, 0);
    DoneAfterAll(d.db.requests, o);
    OneChosen(shares, i, |shares|);
    OneChosen(shares, j, |shares|);
    ChosenApart(shares, {i}, {j}, |shares|);
    assert {i} + {j} == {i, j};
  }

  function AskBoth(i: nat, j: nat): seq<DeskEvent> {
    [AskRead(0, BySeller, {i}, 0)] + ([AskRead(1, BySeller, {j}, 0)] + ([AskCreate(0)] + ([AskCreate(1)] + [])))
  }

  lemma {:induction false} BothCreated(db: Db, o: OrderId, shares: seq<nat>, i: nat, j: nat)
    requires TwoItems(db, o, shares, i, j)
    ensures CanRun(Desk(db, map[]), o, shares, AskBoth(i, j))
    ensures Ran(Desk(db, map[]), o, shares, AskBoth(i, j)) == Desk(BothRequested(db, o, shares, i, j), map[])
  {
    ReadOne(db, o, shares, i, j);
    ReadOne(db, o, shares, j, i);
    var one := Desk(db, map[0 := Asked(o, shares, i)]);
    var two := Desk(db, map[0 := Asked(o, shares, i), 1 := Asked(o, shares, j)]);
    var three := Desk(db.(requests := db.requests + [Asked(o, shares, i)]), map[1 := Asked(o, shares, j)]);
    assert Stepped(Desk(db, map[]), o, shares, AskRead(0, BySeller, {i}, 0)) == one;
    assert Stepped(one, o, shares, AskRead(1, BySeller, {j}, 0)) == two;
    assert Stepped(two, o, shares, AskCreate(0)) == three;
    assert Stepped(three, o, shares, AskCreate(1)) == Desk(BothRequested(db, o, shares, i, j), map[]);
    FirstStep(three, o, shares, AskCreate(1), []);
    FirstStep(two, o, shares, AskCreate(0), [AskCreate(1)] + []);
    FirstStep(one, o, shares, AskRead(1, BySeller, {j}, 0), [AskCreate(0)] + ([AskCreate(1)] + []));
    FirstStep(Desk(db, map[]), o, shares, AskRead(0, BySeller, {i}, 0), [AskRead(1, BySeller, {j}, 0)] + ([AskCreate(0)] + ([AskCreate(1)] + [])));
  }

  lemma {:induction false} RunOn(d: Desk, o: OrderId, shares: seq<nat>, es: seq<DeskEvent>, more: seq<DeskEvent>)
    requires CanRun(d, o, shares, es) && CanRun(Ran(d, o, shares, es), o, shares, more)
    ensures CanRun(d, o, shares, es + more) && Ran(d, o, shares, es + more) == Ran(Ran(d, o, shares, es), o, shares, more)
    decreases |es|
  {
    if es == [] {
      assert es + more == more;
    } else {
      assert (es + more)[1..] == es[1..] + more;
      RunOn(Stepped(d, o, shares, es[0]), o, shares, es[1..], more);
    }
  }

  /**
   On every order just sold with two items that cost something: buyer and seller ask for one each,
   both read before either creates, one refund is made. Both items are marked, one amount is back.
   */
  lemma {:induction false} TwoOpenOneRefund(db: Db, o: OrderId, shares: seq<nat>, i: nat, j: nat, key: string)
    requires TwoItems(db, o, shares, i, j) && KeyFree(db, o, key) && !Known(db, o, key)
    ensures var es := AskBoth(i, j) + ([PayRequest(|db.requests|, key, true, 0)] + []); var d := Desk(db, map[]);
      CanRun(d, o, shares, es) && var end := Ran(d, o, shares, es).db;
        && o in end.orders && end.orders[o].status == Paid && RefundedOf(end, o) == shares[i]
        && DoneItems(end.requests, o) == {i, j} && !FollowsShares(end, o, shares)
  {
    var both := BothRequested(db, o, shares, i, j);
    BothCreated(db, o, shares, i, j);
    ReadOne(db, o, shares, i, j);
    NoneOpen(db.requests, o);
    BothOpen(db.requests, o, Asked(o, shares, i), Asked(o, shares, j));
    SameLedger(db, both);
    var d, pay := Desk(both, map[]), PayRequest(|db.requests|, key, true, 0);
    PayMarksBoth(d, o, shares, i, j, |db.requests|, key);
    FirstStep(d, o, shares, pay, []);
    RunOn(Desk(db, map[]), o, shares, AskBoth(i, j), [pay] + []);
  }

  // ---- one item read twice, created and refunded in turn ---------------------------------------------

  /** A refund that leaves the order paid, and another key as free as before. */
  lemma {:induction false} PayAdds(d: Desk, o: OrderId, shares: seq<nat>, r: RequestId, key: string, other: string)
    requires LedgerInv(d.db) && o in d.db.orders && d.db.orders[o].status == Paid && IsOpen(d.db, r, o)
    requires KeyFree(d.db, o, key) && !Known(d.db, o, key)
    requires RefundedOf(d.db, o) + d.db.requests[r].amount < d.db.orders[o].total
    ensures var e := PayRequest(r, key, true, 0);
      CanStep(d, o, shares, e) && var after := Stepped(d, o, shares, e);
        && after.read == d.read && LedgerInv(after.db) && after.db.orders == d.db.orders
        && RefundedOf(after.db, o) == RefundedOf(d.db, o) + d.db.requests[r].amount
        && after.db.requests == CloseAll(d.db.requests, o)
        && (key != other && KeyFree(d.db, o, other) && !Known(d.db, o, other) ==> KeyFree(after.db, o, other) && !Known(after.db, o, other))
  {
    RecordWrites(d.db, o, d.db.requests[r].amount, key, true, 0);
    RecordKeeps(d.db, o, d.db.requests[r].amount, key, true, 0);
  }

  /** Two readers of one item: the second creates its request after the first was refunded, when none is open. */
  function AskTwice(r: RequestId, i: nat, key: string, other: string): seq<DeskEvent> {
    [AskRead(0, BySeller, {i}, 0)] + ([AskRead(1, BySeller, {i}, 0)] + ([AskCreate(0)] + ([PayRequest(r, key, true, 0)] + CreateThenPay(r + 1, other))))
  }

  function CreateThenPay(r: RequestId, key: string): seq<DeskEvent> { [AskCreate(1)] + ([PayRequest(r, key, true, 0)] + []) }

  /** What is back after the first refund. */
  ghost predicate RefundedOnce(d: Desk, o: OrderId, shares: seq<nat>, i: nat, r: RequestId, other: string) {
    && LedgerInv(d.db) && o in d.db.orders && d.db.orders[o].status == Paid && i < |shares| && RefundedOf(d.db, o) == shares[i]
    && DoneItems(d.db.requests, o) == {i} && OpenItems(d.db.requests, o) == {} && FirstOpen(d.db.requests, o).None? && |d.db.requests| == r
    && d.read == map[1 := Asked(o, shares, i)] && KeyFree(d.db, o, other) && !Known(d.db, o, other)
  }

  lemma {:induction false} OneMore(requests: seq<Request>, o: OrderId, q: Request)
    requires q.order == o && q.status == Requested
    ensures DoneItems(requests + [q], o) == DoneItems(requests, o) && OpenItems(requests + [q], o) == OpenItems(requests, o) + q.items
  {
    assert (requests + [q])[..|requests|] == requests;
  }

  lemma {:induction false} SecondTime(d: Desk, o: OrderId, shares: seq<nat>, i: nat, r: RequestId, other: string)
    requires RefundedOnce(d, o, shares, i, r, other) && shares[i] > 0 && 2 * shares[i] < d.db.orders[o].total
    ensures CanRun(d, o, shares, CreateThenPay(r, other))
    ensures var end := Ran(d, o, shares, CreateThenPay(r, other)).db;
      && o in end.orders && end.orders[o].status == Paid && RefundedOf(end, o) == 2 * shares[i]
      && DoneItems(end.requests, o) == {i} && !FollowsShares(end, o, shares)
  {
    var q, pay := Asked(o, shares, i), PayRequest(r, other, true, 0);
    var created := Stepped(d, o, shares, AskCreate(1));
    assert created.db.requests == d.db.requests + [q];
    OneMore(d.db.requests, o, q);
    SameLedger(d.db, created.db);
    PayAdds(created, o, shares, r, other, other);
    DoneAfterAll(created.db.requests, o);
    OneChosen(shares, i, |shares|);
    FirstStep(created, o, shares, pay, []);
    FirstStep(d, o, shares, AskCreate(1), [pay] + []);
  }

  lemma {:induction false} FirstTime(db: Db, o: OrderId, shares: seq<nat>, i: nat, j: nat, key: string, other: string) returns (d: Desk)
    requires TwoItems(db, o, shares, i, j) && KeyFree(db, o, key) && !Known(db, o, key)
    requires KeyFree(db, o, other) && !Known(db, o, other) && key != other
    ensures RefundedOnce(d, o, shares, i, |db.requests| + 1, other) && d.db.orders == db.orders
    ensures var created, pay := Created(db, o, shares, i), PayRequest(|db.requests|, key, true, 0);
      CanStep(created, o, shares, pay) && d == Stepped(created, o, shares, pay)
  {
    var q, created := Asked(o, shares, i), Created(db, o, shares, i);
    ReadOne(db, o, shares, i, j);
    NoneOpen(db.requests, o);
    OneMore(db.requests, o, q);
    SameLedger(db, created.db);
    PayAdds(created, o, shares, |db.requests|, key, other);
    DoneAfterAll(created.db.requests, o);
    d := Stepped(created, o, shares, PayRequest(|db.requests|, key, true, 0));
    NothingLeft(created.db.requests, o);
  }

  lemma {:induction false} NothingLeft(requests: seq<Request>, o: OrderId)
    ensures OpenItems(CloseAll(requests, o), o) == {} && FirstOpen(CloseAll(requests, o), o).None?
  {
    if requests != [] {
      assert CloseAll(requests, o)[..|requests| - 1] == CloseAll(requests[..|requests| - 1], o);
      NothingLeft(requests[..|requests| - 1], o);
    }
  }

  /**
   On every order just sold with two items that cost something: two readers of one item whose
   requests are created and refunded one after the other. No request ever meets another open one,
   and the item is paid back twice.
   */
  lemma {:induction false} StaleReadingPaysTwice(db: Db, o: OrderId, shares: seq<nat>, i: nat, j: nat, key: string, other: string)
    requires TwoItems(db, o, shares, i, j) && KeyFree(db, o, key) && !Known(db, o, key)
    requires KeyFree(db, o, other) && !Known(db, o, other) && key != other && 2 * shares[i] < db.orders[o].total
    ensures CanRun(Desk(db, map[]), o, shares, AskTwice(|db.requests|, i, key, other))
    ensures var end := Ran(Desk(db, map[]), o, shares, AskTwice(|db.requests|, i, key, other)).db;
      && o in end.orders && end.orders[o].status == Paid && RefundedOf(end, o) == 2 * shares[i]
      && DoneItems(end.requests, o) == {i} && !FollowsShares(end, o, shares)
  {
    var pay, last := PayRequest(|db.requests|, key, true, 0), CreateThenPay(|db.requests| + 1, other);
    var d := FirstTime(db, o, shares, i, j, key, other);
    SecondTime(d, o, shares, i, |db.requests| + 1, other);
    FirstStep(Created(db, o, shares, i), o, shares, pay, last);
    ReadTwice(db, o, shares, i, j, [pay] + last);
  }

  /** The first of two requests for one item is there, the second still to create. */
  function Created(db: Db, o: OrderId, shares: seq<nat>, i: nat): Desk
    requires i < |shares|
  {
    Desk(db.(requests := db.requests + [Asked(o, shares, i)]), map[1 := Asked(o, shares, i)])
  }

  lemma {:induction false} ReadTwice(db: Db, o: OrderId, shares: seq<nat>, i: nat, j: nat, rest: seq<DeskEvent>)
    requires TwoItems(db, o, shares, i, j) && CanRun(Created(db, o, shares, i), o, shares, rest)
    ensures var es := [AskRead(0, BySeller, {i}, 0)] + ([AskRead(1, BySeller, {i}, 0)] + ([AskCreate(0)] + rest));
      CanRun(Desk(db, map[]), o, shares, es) && Ran(Desk(db, map[]), o, shares, es) == Ran(Created(db, o, shares, i), o, shares, rest)
  {
    ReadOne(db, o, shares, i, j);
    var q, read0, read1 := Asked(o, shares, i), AskRead(0, BySeller, {i}, 0), AskRead(1, BySeller, {i}, 0);
    var one, two := Desk(db, map[0 := q]), Desk(db, map[0 := q, 1 := q]);
    assert Stepped(Desk(db, map[]), o, shares, read0) == one && Stepped(one, o, shares, read1) == two;
    assert Stepped(two, o, shares, AskCreate(0)) == Created(db, o, shares, i);
    FirstStep(two, o, shares, AskCreate(0), rest);
    FirstStep(one, o, shares, read1, [AskCreate(0)] + rest);
    FirstStep(Desk(db, map[]), o, shares, read0, [read1] + ([AskCreate(0)] + rest));
  }

  // ---- an instance -------------------------------------------------------------------------------

  const HALVES: seq<nat> := [500, 500]
  const SOLD_TWO := Order(Pending, 1000, 50, [Line(500, 0), Line(500, 0)])

  lemma {:induction false} HalfShares()
    ensures AreShares(SOLD_TWO.lines, SOLD_TWO.total, HALVES)
  {
    var w := Weights(SOLD_TWO.lines);
    assert w == [500, 500] && [500, 500][..1] == [500] && [500][..0] == [];
    assert Sum([500]) == 500 && Sum([500, 500]) == 1000;
  }

  const JUST_SOLD := Db(map[0 := SOLD_TWO.(status := Paid)], SaleEntries(0, 1000, 10, 50), [])

  lemma {:induction false} SoldTwo()
    ensures SettleSale(Db(map[0 := SOLD_TWO], [], []), 0, 10) == JUST_SOLD
  {
    var start := Db(map[0 := SOLD_TWO], [], []);
    EmptyLedgerHolds(start.orders);
    SaleAfter(start, 0, []);
    assert [] + SaleEntries(0, 1000, 10, 50) == SaleEntries(0, 1000, 10, 50);
  }

  lemma {:induction false} SoldTwoItems()
    ensures TwoItems(JUST_SOLD, 0, HALVES, 0, 1)
  {
    SoldTwo();
    EmptyLedgerHolds(map[0 := SOLD_TWO]);
    HalfShares();
    FreshSale(Db(map[0 := SOLD_TWO], [], []), 0, 10, HALVES);
  }

  lemma {:induction false} NoRefundYet(db: Db, key: string)
    requires db.ledger == SaleEntries(0, 1000, 10, 50)
    ensures KeyFree(db, 0, key) && !Known(db, 0, key)
  {}

  function ThenPay(key: string): seq<DeskEvent> { AskBoth(0, 1) + ([PayRequest(0, key, true, 0)] + []) }

  /** Such an order sold from the empty ledger: both items end as refunded and half of the money is back. */
  lemma {:induction false} TwoOpenFromSale(key: string)
    ensures SettleSale(Db(map[0 := SOLD_TWO], [], []), 0, 10) == JUST_SOLD && CanRun(Desk(JUST_SOLD, map[]), 0, HALVES, ThenPay(key))
    ensures !AllPayWhatTheyMark(Desk(JUST_SOLD, map[]), 0, HALVES, ThenPay(key)) && !AllCurrent(Desk(JUST_SOLD, map[]), 0, HALVES, ThenPay(key))
    ensures var end := Ran(Desk(JUST_SOLD, map[]), 0, HALVES, ThenPay(key)).db; RefundedOf(end, 0) == 500 && DoneItems(end.requests, 0) == {0, 1}
  {
    SoldTwo();
    SoldTwoItems();
    NoRefundYet(JUST_SOLD, key);
    TwoOpenOneRefund(JUST_SOLD, 0, HALVES, 0, 1, key);
    var d := Desk(JUST_SOLD, map[]);
    FollowsIffPaid(d, 0, HALVES, ThenPay(key));
    SoundIffCurrent(d, 0, HALVES, ThenPay(key));
    FollowsAtEnd(d, 0, HALVES, ThenPay(key));
  }

  lemma {:induction false} FollowsAtEnd(d: Desk, o: OrderId, shares: seq<nat>, es: seq<DeskEvent>)
    requires CanRun(d, o, shares, es)
    ensures FollowsThroughout(d, o, shares, es) ==> FollowsShares(Ran(d, o, shares, es).db, o, shares)
    decreases |es|
  {
    if es != [] { FollowsAtEnd(Stepped(d, o, shares, es[0]), o, shares, es[1..]); }
  }
}
