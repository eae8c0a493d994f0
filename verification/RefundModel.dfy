/**
 Refunds of paid orders: an append-only ledger with keyed entries, the cumulative return of
 the platform fee, and the requests that refunds pay.
 */
module RefundModel {
  import opened Common
  import opened Pricing

  type OrderId = nat
  type RequestId = nat

  const REFUND_HOLD_MS := 7 * 86400000

  datatype OrderStatus = Pending | Paid | OrderExpired | OrderFailed | Refunded | Chargeback | OrderDeclined

  /** No order is free. */
  type Total = n: nat | n > 0 witness MIN_PRICE_CENTS

  datatype Order = Order(status: OrderStatus, total: Total, platformFee: nat, lines: seq<Line>)

  datatype Kind = SaleKind | EfiFeeKind | PlatformFeeKind | RefundKind | ReversalKind

  /** Keys carry their kind as a prefix. */
  datatype Key = SaleKey(order: OrderId) | EfiFeeKey(order: OrderId) | PlatformFeeKey(order: OrderId) | RefundKey(key: string) | ReversalKey(key: string)

  datatype Entry = Entry(key: Key, order: OrderId, kind: Kind, amount: int)

  datatype RequestStatus = Requested | Done | Rejected | Withdrawn

  datatype RequestOrigin = ByBuyer | BySeller

  /** No items named is what remains of the order. */
  datatype Request = Request(order: OrderId, status: RequestStatus, items: set<nat>, amount: nat, holdUntil: Option<int>)

  datatype Db = Db(orders: map<OrderId, Order>, ledger: seq<Entry>, requests: seq<Request>)

  // ---- ledger ----------------------------------------------------------------------------

  predicate HasKey(ledger: seq<Entry>, key: Key) { exists n :: 0 <= n < |ledger| && ledger[n].key == key }

  function SumKind(ledger: seq<Entry>, o: OrderId, kind: Kind): int {
    if ledger == [] then 0 else
    var last := ledger[|ledger| - 1];
    SumKind(ledger[..|ledger| - 1], o, kind) + (if last.order == o && last.kind == kind then last.amount else 0)
  }

  /** Everything an order moved. */
  function Net(ledger: seq<Entry>, o: OrderId): int {
    if ledger == [] then 0 else
    Net(ledger[..|ledger| - 1], o) + (if ledger[|ledger| - 1].order == o then ledger[|ledger| - 1].amount else 0)
  }

  /** An entry whose key is taken is left out. */
  function Append(ledger: seq<Entry>, e: Entry): seq<Entry> {
    if HasKey(ledger, e.key) then ledger else ledger + [e]
  }

  function RefundedOf(db: Db, o: OrderId): int { -SumKind(db.ledger, o, RefundKind) }

  function ReversedOf(db: Db, o: OrderId): int { SumKind(db.ledger, o, ReversalKind) }

  lemma {:induction false} SumAppend(ledger: seq<Entry>, e: Entry, o: OrderId, kind: Kind)
    ensures SumKind(ledger + [e], o, kind) == SumKind(ledger, o, kind) + (if e.order == o && e.kind == kind then e.amount else 0)
    ensures Net(ledger + [e], o) == Net(ledger, o) + (if e.order == o then e.amount else 0)
  {
    assert (ledger + [e])[..|ledger|] == ledger;
  }

  lemma {:induction false} NetIsKinds(ledger: seq<Entry>, o: OrderId)
    ensures Net(ledger, o) == SumKind(ledger, o, SaleKind) + SumKind(ledger, o, EfiFeeKind) + SumKind(ledger, o, PlatformFeeKind)
      + SumKind(ledger, o, RefundKind) + SumKind(ledger, o, ReversalKind)
  {
    if ledger != [] { NetIsKinds(ledger[..|ledger| - 1], o); }
  }

  /** What was received, the tariff and the platform fee of an order. */
  function RecordSale(ledger: seq<Entry>, o: OrderId, total: nat, efiFee: nat, platformFee: nat): seq<Entry> {
    Append(Append(Append(ledger,
      Entry(SaleKey(o), o, SaleKind, total)),
      Entry(EfiFeeKey(o), o, EfiFeeKind, 0 - efiFee)),
      Entry(PlatformFeeKey(o), o, PlatformFeeKind, 0 - platformFee))
  }

  // ---- refunds ---------------------------------------------------------------------------

  datatype Refusal = OrderNotFound | NotAllowed | TooHigh | OnHold | AlreadyRequested | ItemInvalid | ItemRefunded | NotOpen

  predicate IsOpen(db: Db, r: RequestId, o: OrderId) {
    r < |db.requests| && db.requests[r].order == o && db.requests[r].status == Requested
  }

  function FirstOpen(requests: seq<Request>, o: OrderId): Option<RequestId> {
    if requests == [] then None else
    var before := FirstOpen(requests[..|requests| - 1], o);
    if before.Some? then before
    else if requests[|requests| - 1].order == o && requests[|requests| - 1].status == Requested then Some(|requests| - 1)
    else None
  }

  lemma {:induction false} FirstOpenIs(requests: seq<Request>, o: OrderId)
    ensures var first := FirstOpen(requests, o);
      && (first.Some? ==> first.value < |requests| && requests[first.value].order == o && requests[first.value].status == Requested)
      && (first.None? ==> forall r :: 0 <= r < |requests| ==> !(requests[r].order == o && requests[r].status == Requested))
  {
    if requests != [] { FirstOpenIs(requests[..|requests| - 1], o); }
  }

  function CloseAll(requests: seq<Request>, o: OrderId): (r: seq<Request>)
    ensures |r| == |requests|
    ensures forall k :: 0 <= k < |r| ==> r[k] == Closed(requests[k], o)
  {
    if requests == [] then [] else CloseAll(requests[..|requests| - 1], o) + [Closed(requests[|requests| - 1], o)]
  }

  function Closed(r: Request, o: OrderId): Request {
    if r.order == o && r.status == Requested then r.(status := Done) else r
  }

  /** Refunded at most the total, and the platform fee that goes with it. */
  function FeeFor(order: Order, refunded: int): nat {
    Round(order.platformFee * Max(0, Min(order.total, refunded)), order.total)
  }

  /** The fee still to return once the amount is refunded. */
  function ReversalFor(db: Db, o: OrderId, amount: nat): int
    requires o in db.orders
  {
    FeeFor(db.orders[o], RefundedOf(db, o) + amount) - ReversedOf(db, o)
  }

  predicate Known(db: Db, o: OrderId, key: string) {
    exists n :: 0 <= n < |db.ledger| && db.ledger[n].order == o && db.ledger[n].kind in {RefundKind, ReversalKind}
      && db.ledger[n].key == RefundKey(key)
  }

  /** Recorded now, or known already. */
  datatype Outcome = Recorded(db: Db) | Repeated

  /** A Pix refund the provider reports is a fact; one made by hand is checked. */
  function RefusedByHand(db: Db, o: OrderId, amount: nat, now: int): Option<Refusal>
    requires o in db.orders
  {
    FirstOpenIs(db.requests, o);
    var open := FirstOpen(db.requests, o);
    if db.orders[o].status != Paid then Some(NotAllowed)
    else if amount > db.orders[o].total - RefundedOf(db, o) then Some(TooHigh)
    else if open.Some? && db.requests[open.value].holdUntil.Some? && now < db.requests[open.value].holdUntil.value then Some(OnHold)
    else None
  }

  /** The refund and the fee that comes back with it, under keys of one name. */
  function RefundEntries(ledger: seq<Entry>, o: OrderId, amount: nat, key: string, reversal: int): seq<Entry> {
    var refunded := Append(ledger, Entry(RefundKey(key), o, RefundKind, 0 - amount));
    if reversal > 0 then Append(refunded, Entry(ReversalKey(key), o, ReversalKind, reversal)) else refunded
  }

  function RefundWritten(db: Db, o: OrderId, amount: nat, key: string): Db
    requires o in db.orders
  {
    var order := db.orders[o];
    Db(db.orders[o :=
         if Min(order.total, RefundedOf(db, o) + amount) >= order.total && order.status == Paid then order.(status := Refunded) else order],
       RefundEntries(db.ledger, o, amount, key, ReversalFor(db, o, amount)),
       CloseAll(db.requests, o))
  }

  function Record(db: Db, o: OrderId, amount: nat, key: string, fromProvider: bool, now: int): Result<Outcome, Refusal> {
    if o !in db.orders then Failure(OrderNotFound)
    else if Known(db, o, key) then Success(Repeated)
    else if !fromProvider && RefusedByHand(db, o, amount, now).Some? then Failure(RefusedByHand(db, o, amount, now).value)
    else Success(Recorded(RefundWritten(db, o, amount, key)))
  }

  // ---- requests --------------------------------------------------------------------------

  /** Shares of the chosen items among the first n. */
  function SumChosen(shares: seq<nat>, chosen: set<nat>, n: nat): nat
    requires n <= |shares|
  {
    if n == 0 then 0 else SumChosen(shares, chosen, n - 1) + (if n - 1 in chosen then shares[n - 1] else 0)
  }

  function DoneItems(requests: seq<Request>, o: OrderId): set<nat> {
    if requests == [] then {} else
    var last := requests[|requests| - 1];
    DoneItems(requests[..|requests| - 1], o) + (if last.order == o && last.status == Done then last.items else {})
  }

  predicate Indexes(items: set<nat>, n: nat) { forall i :: i in items ==> i < n }

  predicate IsWhole(order: Order, done: set<nat>, items: set<nat>) {
    items == {} || forall i: nat :: i < |order.lines| ==> i in items || i in done
  }

  /** What a request costs: the rest of the order, or the shares of its items while they last. */
  function CostOf(order: Order, shares: seq<nat>, refunded: int, done: set<nat>, items: set<nat>): nat
    requires |shares| == |order.lines|
  {
    var remaining := Max(0, order.total - refunded);
    if IsWhole(order, done, items) then remaining else Min(remaining, SumChosen(shares, items, |shares|))
  }

  /** The request that is made of what was read, or the reason why none is. */
  function AskRow(db: Db, o: OrderId, shares: seq<nat>, origin: RequestOrigin, items: set<nat>, now: int): Result<Request, Refusal>
    requires o in db.orders ==> |shares| == |db.orders[o].lines|
  {
    if o !in db.orders then Failure(OrderNotFound) else
    var order := db.orders[o];
    var done := DoneItems(db.requests, o);
    if order.status != Paid then Failure(NotAllowed)
    else if FirstOpen(db.requests, o).Some? then Failure(AlreadyRequested)
    else if !Indexes(items, |order.lines|) then Failure(ItemInvalid)
    else if items * done != {} then Failure(ItemRefunded)
    else Success(Request(
      o, Requested, if IsWhole(order, done, items) then {} else items,
      CostOf(order, shares, RefundedOf(db, o), done, items),
      if origin == ByBuyer then Some(now + REFUND_HOLD_MS) else None))
  }

  function Ask(db: Db, o: OrderId, shares: seq<nat>, origin: RequestOrigin, items: set<nat>, now: int): Result<Db, Refusal>
    requires o in db.orders ==> |shares| == |db.orders[o].lines|
  {
    var row := AskRow(db, o, shares, origin, items, now);
    if row.Failure? then Failure(row.error) else Success(db.(requests := db.requests + [row.value]))
  }

  /** The buyer gives up, or the admin turns the request down. */
  function Settle(db: Db, r: RequestId, to: RequestStatus): Result<Db, Refusal>
    requires to == Withdrawn || to == Rejected
  {
    if r < |db.requests| && db.requests[r].status == Requested
    then Success(db.(requests := db.requests[r := db.requests[r].(status := to)]))
    else Failure(NotOpen)
  }

  // ---- what every refund keeps -----------------------------------------------------------------

  /** No entry of another order uses this refund key. */
  predicate KeyFree(db: Db, o: OrderId, key: string) {
    forall n :: 0 <= n < |db.ledger| && db.ledger[n].order != o ==> db.ledger[n].key != RefundKey(key) && db.ledger[n].key != ReversalKey(key)
  }

  /** Entry keys say what they are, and no fee is returned without its refund. */
  predicate EntryFits(db: Db, n: nat) {
    n < |db.ledger| ==>
      var e := db.ledger[n];
      && (e.kind == RefundKind <==> e.key.RefundKey?) && (e.kind == ReversalKind <==> e.key.ReversalKey?)
      && (e.kind == SaleKind <==> e.key.SaleKey?) && (e.kind == EfiFeeKind <==> e.key.EfiFeeKey?)
      && (e.kind == PlatformFeeKind <==> e.key.PlatformFeeKey?)
      && (OfSale(e.kind) ==> e.key.order == e.order)
      && (e.key.ReversalKey? ==> Known(db, e.order, e.key.key))
  }

  predicate OfSale(kind: Kind) { kind == SaleKind || kind == EfiFeeKind || kind == PlatformFeeKind }

  predicate Sold(db: Db, o: OrderId) { HasKey(db.ledger, SaleKey(o)) }

  /** The three entries of a sale come together. */
  predicate SoldWhole(db: Db, o: OrderId) {
    (Sold(db, o) <==> HasKey(db.ledger, EfiFeeKey(o))) && (Sold(db, o) <==> HasKey(db.ledger, PlatformFeeKey(o)))
  }

  /** The fee returned is exactly the rounded share of what was refunded. */
  predicate Balanced(db: Db, o: OrderId) {
    o in db.orders ==>
      && RefundedOf(db, o) >= 0 && ReversedOf(db, o) == FeeFor(db.orders[o], RefundedOf(db, o))
  }

  ghost predicate LedgerInv(db: Db) {
    && (forall n: nat {:trigger EntryFits(db, n)} :: EntryFits(db, n))
    && (forall o {:trigger Balanced(db, o)} :: Balanced(db, o))
    && (forall o {:trigger SoldWhole(db, o)} :: SoldWhole(db, o))
  }

  lemma {:induction false} RoundGrows(a: nat, b: nat, d: nat)
    requires d > 0 && a <= b
    ensures Round(a, d) <= Round(b, d)
  {
    DivideGrows(2 * a + d, 2 * b + d, 2 * d);
  }

  lemma {:induction false} RoundShift(n: nat, k: nat, d: nat)
    requires d > 0
    ensures Round(n + k * d, d) == Round(n, d) + k
  {
    RoundIs(n, d);
    RoundIs(n + k * d, d);
    var p, q := Round(n, d), Round(n + k * d, d);
    assert 2 * d * (p + k) == 2 * d * p + 2 * (k * d);
    assert 2 * (n + k * d) == 2 * n + 2 * (k * d);
    NearestIs(2 * n + 2 * (k * d), d, p + k, q);
  }

  lemma {:induction false} NearestIs(n: nat, d: nat, p: nat, q: nat)
    requires d > 0 && n - d < 2 * d * p <= n + d && n - d < 2 * d * q <= n + d
    ensures p == q
  {
    assert p * (2 * d) == 2 * d * p && q * (2 * d) == 2 * d * q;
    assert (p + 1) * (2 * d) == p * (2 * d) + 2 * d && (q + 1) * (2 * d) == q * (2 * d) + 2 * d;
    LessFactor(p, q + 1, 2 * d);
    LessFactor(q, p + 1, 2 * d);
  }

  /** A fee no larger than the total comes back no faster than the money. */
  lemma {:induction false} FeeGrowsSlowly(order: Order, refunded: nat, amount: nat)
    ensures FeeFor(order, refunded) <= FeeFor(order, refunded + amount)
    ensures order.platformFee <= order.total ==> FeeFor(order, refunded + amount) <= FeeFor(order, refunded) + amount
  {
    var a, b := Min(order.total, refunded), Min(order.total, refunded + amount);
    PartGrows(order.platformFee, a, b, order.total);
    if order.platformFee <= order.total { PartGrowsSlowly(order.platformFee, a, b - a, order.total); }
  }

  lemma {:induction false} PartGrows(fee: nat, a: nat, b: nat, total: nat)
    requires total > 0 && a <= b
    ensures Round(fee * a, total) <= Round(fee * b, total)
  {
    MultiplyGrows(a, b, fee);
    RoundGrows(fee * a, fee * b, total);
  }

  lemma {:induction false} PartGrowsSlowly(fee: nat, a: nat, k: nat, total: nat)
    requires total > 0 && fee <= total
    ensures Round(fee * (a + k), total) <= Round(fee * a, total) + k
  {
    Distribute(fee, a, k);
    MultiplyGrows(fee, total, k);
    RoundGrows(fee * a + fee * k, fee * a + k * total, total);
    RoundShift(fee * a, k, total);
  }

  lemma {:induction false} FeeOfAll(order: Order)
    ensures FeeFor(order, order.total) == order.platformFee && FeeFor(order, 0) == 0
  {
    RoundShift(0, order.platformFee, order.total);
    assert order.platformFee * 0 == 0;
  }

  lemma {:induction false} KnownKey(db: Db, o: OrderId, key: string)
    requires LedgerInv(db) && KeyFree(db, o, key) && !Known(db, o, key)
    ensures !HasKey(db.ledger, RefundKey(key)) && !HasKey(db.ledger, ReversalKey(key))
  {
    forall n | 0 <= n < |db.ledger| ensures db.ledger[n].key != RefundKey(key) && db.ledger[n].key != ReversalKey(key) {
      assert EntryFits(db, n);
    }
  }

  /** The entries a recorded refund writes when its key is this order's own. */
  lemma {:induction false} RecordEntries(db: Db, o: OrderId, amount: nat, key: string, fromProvider: bool, now: int)
    requires LedgerInv(db) && KeyFree(db, o, key)
    requires Record(db, o, amount, key, fromProvider, now).Success? && Record(db, o, amount, key, fromProvider, now).value.Recorded?
    ensures ReversalFor(db, o, amount) >= 0
    ensures Record(db, o, amount, key, fromProvider, now).value.db.ledger == Written(db.ledger, o, amount, ReversalFor(db, o, amount), key)
  {
    assert Balanced(db, o);
    FeeGrowsSlowly(db.orders[o], RefundedOf(db, o), amount);
    KnownKey(db, o, key);
    NewKey(db.ledger, Entry(RefundKey(key), o, RefundKind, 0 - amount), ReversalKey(key));
  }

  function Written(ledger: seq<Entry>, o: OrderId, amount: nat, reversal: int, key: string): seq<Entry> {
    ledger + [Entry(RefundKey(key), o, RefundKind, 0 - amount)]
      + (if reversal > 0 then [Entry(ReversalKey(key), o, ReversalKind, reversal)] else [])
  }

  /** What a recorded refund changes, and that other orders keep their sums. */
  lemma {:induction false} RecordWrites(db: Db, o: OrderId, amount: nat, key: string, fromProvider: bool, now: int)
    requires LedgerInv(db) && KeyFree(db, o, key)
    requires Record(db, o, amount, key, fromProvider, now).Success? && Record(db, o, amount, key, fromProvider, now).value.Recorded?
    ensures var after := Record(db, o, amount, key, fromProvider, now).value.db;
      && ReversalFor(db, o, amount) >= 0
      && after.ledger == Written(db.ledger, o, amount, ReversalFor(db, o, amount), key)
      && RefundedOf(after, o) == RefundedOf(db, o) + amount
      && ReversedOf(after, o) == ReversedOf(db, o) + ReversalFor(db, o, amount)
      && forall p :: p != o ==> RefundedOf(after, p) == RefundedOf(db, p) && ReversedOf(after, p) == ReversedOf(db, p)
  {
    RecordEntries(db, o, amount, key, fromProvider, now);
    var after := Record(db, o, amount, key, fromProvider, now).value.db;
    forall p ensures p != o ==> RefundedOf(after, p) == RefundedOf(db, p) && ReversedOf(after, p) == ReversedOf(db, p) {
      TwoAppended(db.ledger, o, amount, ReversalFor(db, o, amount), key, p);
    }
    TwoAppended(db.ledger, o, amount, ReversalFor(db, o, amount), key, o);
  }

  lemma {:induction false} NewKey(ledger: seq<Entry>, e: Entry, key: Key)
    requires !HasKey(ledger, key) && e.key != key
    ensures !HasKey(ledger + [e], key)
  {}

  lemma {:induction false} TwoAppended(ledger: seq<Entry>, o: OrderId, amount: nat, reversal: int, key: string, p: OrderId)
    requires reversal >= 0
    ensures var written := Written(ledger, o, amount, reversal, key);
      && SumKind(written, p, RefundKind) == SumKind(ledger, p, RefundKind) - (if p == o then amount else 0)
      && SumKind(written, p, ReversalKind) == SumKind(ledger, p, ReversalKind) + (if p == o then reversal else 0)
  {
    var first, second := Entry(RefundKey(key), o, RefundKind, 0 - amount), Entry(ReversalKey(key), o, ReversalKind, reversal);
    SumAppend(ledger, first, p, RefundKind);
    SumAppend(ledger, first, p, ReversalKind);
    SumAppend(ledger + [first], second, p, RefundKind);
    SumAppend(ledger + [first], second, p, ReversalKind);
    assert ledger + [first] + [] == ledger + [first];
  }

  /** A refund leaves the sales as they are, their entries and their sums. */
  lemma {:induction false} SalesLeft(db: Db, o: OrderId, amount: nat, reversal: int, key: string, p: OrderId)
    ensures var written := Written(db.ledger, o, amount, reversal, key);
      && (HasKey(written, SaleKey(p)) <==> HasKey(db.ledger, SaleKey(p)))
      && (HasKey(written, EfiFeeKey(p)) <==> HasKey(db.ledger, EfiFeeKey(p)))
      && (HasKey(written, PlatformFeeKey(p)) <==> HasKey(db.ledger, PlatformFeeKey(p)))
      && SumKind(written, p, SaleKind) == SumKind(db.ledger, p, SaleKind)
      && SumKind(written, p, EfiFeeKind) == SumKind(db.ledger, p, EfiFeeKind)
      && SumKind(written, p, PlatformFeeKind) == SumKind(db.ledger, p, PlatformFeeKind)
  {
    var first, second := Entry(RefundKey(key), o, RefundKind, 0 - amount), Entry(ReversalKey(key), o, ReversalKind, reversal);
    forall kind ensures OfSale(kind) ==>
      SumKind(db.ledger + [first], p, kind) == SumKind(db.ledger, p, kind) == SumKind(db.ledger + [first] + [second], p, kind)
    {
      SumAppend(db.ledger, first, p, kind);
      SumAppend(db.ledger + [first], second, p, kind);
    }
    assert db.ledger + [first] + [] == db.ledger + [first];
    OtherKey(db.ledger, first, SaleKey(p));
    OtherKey(db.ledger, first, EfiFeeKey(p));
    OtherKey(db.ledger, first, PlatformFeeKey(p));
    OtherKey(db.ledger + [first], second, SaleKey(p));
    OtherKey(db.ledger + [first], second, EfiFeeKey(p));
    OtherKey(db.ledger + [first], second, PlatformFeeKey(p));
  }

  lemma {:induction false} OtherKey(ledger: seq<Entry>, e: Entry, key: Key)
    requires e.key != key
    ensures HasKey(ledger + [e], key) <==> HasKey(ledger, key)
  {
    if HasKey(ledger, key) {
      var n :| 0 <= n < |ledger| && ledger[n].key == key;
      assert (ledger + [e])[n] == ledger[n];
    }
  }

  /** Every refund under its own key keeps the returned fee exact. */
  lemma {:induction false} RecordKeeps(db: Db, o: OrderId, amount: nat, key: string, fromProvider: bool, now: int)
    requires LedgerInv(db) && KeyFree(db, o, key)
    requires Record(db, o, amount, key, fromProvider, now).Success? && Record(db, o, amount, key, fromProvider, now).value.Recorded?
    ensures LedgerInv(Record(db, o, amount, key, fromProvider, now).value.db)
  {
    var after := Record(db, o, amount, key, fromProvider, now).value.db;
    RecordWrites(db, o, amount, key, fromProvider, now);
    forall p ensures Balanced(after, p) { assert Balanced(db, p); }
    forall p ensures SoldWhole(after, p) { assert SoldWhole(db, p); SalesLeft(db, o, amount, ReversalFor(db, o, amount), key, p); }
    forall n: nat ensures EntryFits(after, n) { RecordKeepsEntry(db, o, amount, key, fromProvider, now, n); }
  }

  lemma {:induction false} RecordKeepsEntry(db: Db, o: OrderId, amount: nat, key: string, fromProvider: bool, now: int, n: nat)
    requires LedgerInv(db) && KeyFree(db, o, key)
    requires Record(db, o, amount, key, fromProvider, now).Success? && Record(db, o, amount, key, fromProvider, now).value.Recorded?
    ensures EntryFits(Record(db, o, amount, key, fromProvider, now).value.db, n)
  {
    var after := Record(db, o, amount, key, fromProvider, now).value.db;
    RecordWrites(db, o, amount, key, fromProvider, now);
    if n < |db.ledger| {
      assert EntryFits(db, n) && after.ledger[n] == db.ledger[n];
      var e := db.ledger[n];
      if e.key.ReversalKey? { StillKnown(db, after, e.order, e.key.key); }
    } else {
      assert after.ledger[|db.ledger|] == Entry(RefundKey(key), o, RefundKind, 0 - amount);
      assert Known(after, o, key);
    }
  }

  lemma {:induction false} StillKnown(db: Db, after: Db, o: OrderId, key: string)
    requires |db.ledger| <= |after.ledger| && after.ledger[..|db.ledger|] == db.ledger && Known(db, o, key)
    ensures Known(after, o, key)
  {
    var n :| 0 <= n < |db.ledger| && db.ledger[n].order == o && db.ledger[n].kind in {RefundKind, ReversalKind}
      && db.ledger[n].key == RefundKey(key);
    assert after.ledger[n] == after.ledger[..|db.ledger|][n];
  }

  /** The fee returned with a refund is never more than the refund; a manual refund never passes the total. */
  lemma {:induction false} RefundBounds(db: Db, o: OrderId, amount: nat, key: string, fromProvider: bool, now: int)
    requires LedgerInv(db) && KeyFree(db, o, key)
    requires Record(db, o, amount, key, fromProvider, now).Success? && Record(db, o, amount, key, fromProvider, now).value.Recorded?
    ensures var after := Record(db, o, amount, key, fromProvider, now).value.db;
      && 0 <= ReversedOf(after, o) - ReversedOf(db, o)
      && (db.orders[o].platformFee <= db.orders[o].total ==> ReversedOf(after, o) - ReversedOf(db, o) <= amount)
      && (!fromProvider ==> RefundedOf(after, o) <= db.orders[o].total)
      && (db.orders[o].status == Paid ==> (after.orders[o].status == Refunded <==> RefundedOf(after, o) >= db.orders[o].total))
  {
    RecordWrites(db, o, amount, key, fromProvider, now);
    assert Balanced(db, o);
    FeeGrowsSlowly(db.orders[o], RefundedOf(db, o), amount);
  }

  /** A refund reported again under its key is known, whatever its amount, and nothing is written. */
  lemma {:induction false} ReplayKnown(db: Db, o: OrderId, amount: nat, key: string, fromProvider: bool, now: int, again: nat, provider: bool, later: int)
    requires LedgerInv(db) && KeyFree(db, o, key)
    requires Record(db, o, amount, key, fromProvider, now).Success? && Record(db, o, amount, key, fromProvider, now).value.Recorded?
    ensures Record(Record(db, o, amount, key, fromProvider, now).value.db, o, again, key, provider, later) == Success(Repeated)
  {
    var after := Record(db, o, amount, key, fromProvider, now).value.db;
    RecordWrites(db, o, amount, key, fromProvider, now);
    assert after.ledger[|db.ledger|] == Entry(RefundKey(key), o, RefundKind, 0 - amount);
  }

  // ---- keys of other orders ----------------------------------------------------------------

  lemma {:induction false} EntriesSum(ledger: seq<Entry>, o: OrderId, amount: nat, key: string, reversal: int)
    ensures SumKind(RefundEntries(ledger, o, amount, key, reversal), o, RefundKind)
      == SumKind(ledger, o, RefundKind) - (if HasKey(ledger, RefundKey(key)) then 0 else amount)
  {
    var first := Entry(RefundKey(key), o, RefundKind, 0 - amount);
    SumAppend(ledger, first, o, RefundKind);
    SumAppend(Append(ledger, first), Entry(ReversalKey(key), o, ReversalKind, reversal), o, RefundKind);
  }

  lemma {:induction false} WrittenCounts(db: Db, o: OrderId, amount: nat, key: string)
    requires o in db.orders
    ensures RefundedOf(RefundWritten(db, o, amount, key), o) == RefundedOf(db, o) + (if HasKey(db.ledger, RefundKey(key)) then 0 else amount)
  {
    EntriesSum(db.ledger, o, amount, key, ReversalFor(db, o, amount));
  }

  /** A recorded refund is in the ledger with its amount exactly when no entry carried its key before. */
  lemma {:induction false} CountedIffKeyNew(db: Db, o: OrderId, amount: nat, key: string, fromProvider: bool, now: int)
    requires amount > 0
    requires Record(db, o, amount, key, fromProvider, now).Success? && Record(db, o, amount, key, fromProvider, now).value.Recorded?
    ensures var after := Record(db, o, amount, key, fromProvider, now).value.db;
      && RefundedOf(after, o) == RefundedOf(db, o) + (if HasKey(db.ledger, RefundKey(key)) then 0 else amount)
      && (RefundedOf(after, o) == RefundedOf(db, o) + amount <==> !HasKey(db.ledger, RefundKey(key)))
  {
    WrittenCounts(db, o, amount, key);
    assert Record(db, o, amount, key, fromProvider, now).value.db == RefundWritten(db, o, amount, key);
  }

  /** By hand, the whole of a paid order: it ends as refunded, whether or not its key leaves the refund in the ledger. */
  lemma {:induction false} RefundedByHand(db: Db, o: OrderId, key: string, now: int)
    requires o in db.orders && db.orders[o].status == Paid && RefundedOf(db, o) == 0 && FirstOpen(db.requests, o).None?
    requires !Known(db, o, key)
    ensures var outcome := Record(db, o, db.orders[o].total, key, false, now);
      && outcome.Success? && outcome.value.Recorded?
      && outcome.value.db.orders[o].status == Refunded
      && RefundedOf(outcome.value.db, o) == (if HasKey(db.ledger, RefundKey(key)) then 0 else db.orders[o].total)
  {
    CountedIffKeyNew(db, o, db.orders[o].total, key, false, now);
  }
}
