/**
 The ledger over whole histories: orders are settled, more than once if the payments race, and
 money goes back, from the empty ledger on.
 */
module RefundRuns {
  import opened Common
  import opened Pricing
  import opened RefundModel

  datatype Refund = Refund(order: OrderId, amount: nat, key: string, fromProvider: bool, now: int)

  /** The tariff is what the notice of a payment says, or the one the order was sold with. */
  datatype Movement = Sale(order: OrderId, efiFee: nat) | Back(refund: Refund)

  /** The order is paid now, and its sale is entered unless it was. */
  function SettleSale(db: Db, o: OrderId, efiFee: nat): Db {
    if o !in db.orders then db else
    db.(orders := db.orders[o := db.orders[o].(status := Paid)],
        ledger := RecordSale(db.ledger, o, db.orders[o].total, efiFee, db.orders[o].platformFee))
  }

  function Apply(db: Db, r: Refund): Db {
    var outcome := Record(db, r.order, r.amount, r.key, r.fromProvider, r.now);
    if outcome.Success? && outcome.value.Recorded? then outcome.value.db else db
  }

  function Move(db: Db, m: Movement): Db {
    match m
    case Sale(o, efiFee) => SettleSale(db, o, efiFee)
    case Back(r) => Apply(db, r)
  }

  function After(db: Db, ms: seq<Movement>): Db {
    if ms == [] then db else Move(After(db, ms[..|ms| - 1]), ms[|ms| - 1])
  }

  // ---- sales -------------------------------------------------------------------------------

  /** What the sale of an order left in the ledger. */
  predicate HasTerms(db: Db, o: OrderId, total: int, efiFee: int, platformFee: int) {
    && SumKind(db.ledger, o, SaleKind) == total
    && SumKind(db.ledger, o, EfiFeeKind) == 0 - efiFee
    && SumKind(db.ledger, o, PlatformFeeKind) == 0 - platformFee
  }

  function SaleEntries(o: OrderId, total: nat, efiFee: nat, platformFee: nat): seq<Entry> {
    [Entry(SaleKey(o), o, SaleKind, total), Entry(EfiFeeKey(o), o, EfiFeeKind, 0 - efiFee),
     Entry(PlatformFeeKey(o), o, PlatformFeeKind, 0 - platformFee)]
  }

  lemma {:induction false} SaleWrites(db: Db, o: OrderId, total: nat, efiFee: nat, platformFee: nat)
    requires SoldWhole(db, o)
    ensures RecordSale(db.ledger, o, total, efiFee, platformFee)
      == if Sold(db, o) then db.ledger else db.ledger + SaleEntries(o, total, efiFee, platformFee)
  {
    if !Sold(db, o) {
      var es := SaleEntries(o, total, efiFee, platformFee);
      NewKey(db.ledger, es[0], EfiFeeKey(o));
      NewKey(db.ledger, es[0], PlatformFeeKey(o));
      NewKey(db.ledger + [es[0]], es[1], PlatformFeeKey(o));
      assert db.ledger + es == db.ledger + [es[0]] + [es[1]] + [es[2]];
    }
  }

  lemma {:induction false} ThreeAppended(ledger: seq<Entry>, es: seq<Entry>, p: OrderId, kind: Kind)
    requires |es| == 3
    ensures SumKind(ledger + es, p, kind) == SumKind(ledger, p, kind) + Part(es[0], p, kind) + Part(es[1], p, kind) + Part(es[2], p, kind)
  {
    SumAppend(ledger, es[0], p, kind);
    SumAppend(ledger + [es[0]], es[1], p, kind);
    SumAppend(ledger + [es[0]] + [es[1]], es[2], p, kind);
    assert ledger + es == ledger + [es[0]] + [es[1]] + [es[2]];
  }

  function Part(e: Entry, o: OrderId, kind: Kind): int { if e.order == o && e.kind == kind then e.amount else 0 }

  /** Nothing of an order that was not sold is in the ledger as a sale. */
  lemma {:induction false} UnsoldSums(db: Db, ledger: seq<Entry>, o: OrderId, kind: Kind)
    requires |ledger| <= |db.ledger| && ledger == db.ledger[..|ledger|]
    requires forall n: nat {:trigger EntryFits(db, n)} :: EntryFits(db, n)
    requires SoldWhole(db, o) && !Sold(db, o) && OfSale(kind)
    ensures SumKind(ledger, o, kind) == 0
    decreases |ledger|
  {
    if ledger != [] {
      var n := |ledger| - 1;
      assert EntryFits(db, n) && ledger[n] == db.ledger[n];
      UnsoldSums(db, ledger[..n], o, kind);
    }
  }

  /** The first settlement enters total, tariff and fee; any later one enters nothing; other orders and refunds keep their sums. */
  lemma {:induction false} SaleEntersOnce(db: Db, o: OrderId, efiFee: nat)
    requires LedgerInv(db) && o in db.orders
    ensures var after := SettleSale(db, o, efiFee); var order := db.orders[o];
      && Sold(after, o)
      && (Sold(db, o) ==> after.ledger == db.ledger)
      && (!Sold(db, o) ==> HasTerms(after, o, order.total, efiFee, order.platformFee))
      && RefundedOf(after, o) == RefundedOf(db, o) && ReversedOf(after, o) == ReversedOf(db, o)
  {
    assert SoldWhole(db, o);
    var order := db.orders[o];
    SaleWrites(db, o, order.total, efiFee, order.platformFee);
    var es := SaleEntries(o, order.total, efiFee, order.platformFee);
    if !Sold(db, o) { NewTerms(db, db.(ledger := db.ledger + es), o, efiFee); }
  }

  lemma {:induction false} NewTerms(db: Db, after: Db, o: OrderId, efiFee: nat)
    requires LedgerInv(db) && o in db.orders && !Sold(db, o)
    requires after.ledger == db.ledger + SaleEntries(o, db.orders[o].total, efiFee, db.orders[o].platformFee)
    ensures Sold(after, o) && HasTerms(after, o, db.orders[o].total, efiFee, db.orders[o].platformFee)
    ensures RefundedOf(after, o) == RefundedOf(db, o) && ReversedOf(after, o) == ReversedOf(db, o)
  {
    NewSums(db, o, efiFee, SaleKind);
    NewSums(db, o, efiFee, EfiFeeKind);
    NewSums(db, o, efiFee, PlatformFeeKind);
    NewSums(db, o, efiFee, RefundKind);
    NewSums(db, o, efiFee, ReversalKind);
    assert after.ledger[|db.ledger|].key == SaleKey(o);
  }

  lemma {:induction false} NewSums(db: Db, o: OrderId, efiFee: nat, kind: Kind)
    requires LedgerInv(db) && o in db.orders && !Sold(db, o)
    ensures var es := SaleEntries(o, db.orders[o].total, efiFee, db.orders[o].platformFee);
      SumKind(db.ledger + es, o, kind) == match kind
        case SaleKind => db.orders[o].total
        case EfiFeeKind => 0 - efiFee
        case PlatformFeeKind => 0 - db.orders[o].platformFee
        case _ => SumKind(db.ledger, o, kind)
  {
    var es := SaleEntries(o, db.orders[o].total, efiFee, db.orders[o].platformFee);
    ThreeAppended(db.ledger, es, o, kind);
    assert SoldWhole(db, o) && db.ledger[..|db.ledger|] == db.ledger;
    if OfSale(kind) { UnsoldSums(db, db.ledger, o, kind); }
  }

  /** The entries of another order, whatever their kind. */
  predicate SameSums(db: Db, after: Db, o: OrderId) {
    && SumKind(after.ledger, o, SaleKind) == SumKind(db.ledger, o, SaleKind)
    && SumKind(after.ledger, o, EfiFeeKind) == SumKind(db.ledger, o, EfiFeeKind)
    && SumKind(after.ledger, o, PlatformFeeKind) == SumKind(db.ledger, o, PlatformFeeKind)
    && SumKind(after.ledger, o, RefundKind) == SumKind(db.ledger, o, RefundKind)
    && SumKind(after.ledger, o, ReversalKind) == SumKind(db.ledger, o, ReversalKind)
  }

  /** A sale leaves the entries of every other order as they are. */
  lemma {:induction false} OthersKeepSums(db: Db, o: OrderId, efiFee: nat, p: OrderId)
    requires LedgerInv(db) && p != o
    ensures SameSums(db, SettleSale(db, o, efiFee), p) && (Sold(SettleSale(db, o, efiFee), p) <==> Sold(db, p))
  {
    assert SoldWhole(db, o);
    if o in db.orders {
      var order := db.orders[o];
      var es := SaleEntries(o, order.total, efiFee, order.platformFee);
      SaleWrites(db, o, order.total, efiFee, order.platformFee);
      ThreeAppended(db.ledger, es, p, SaleKind);
      ThreeAppended(db.ledger, es, p, EfiFeeKind);
      ThreeAppended(db.ledger, es, p, PlatformFeeKind);
      ThreeAppended(db.ledger, es, p, RefundKind);
      ThreeAppended(db.ledger, es, p, ReversalKind);
      KeyIn(db.ledger, es, SaleKey(p));
    }
  }

  lemma {:induction false} SaleKeeps(db: Db, o: OrderId, efiFee: nat)
    requires LedgerInv(db)
    ensures LedgerInv(SettleSale(db, o, efiFee))
  {
    var after := SettleSale(db, o, efiFee);
    assert SoldWhole(db, o);
    if o in db.orders {
      var order := db.orders[o];
      var es := SaleEntries(o, order.total, efiFee, order.platformFee);
      SaleWrites(db, o, order.total, efiFee, order.platformFee);
      forall p ensures Balanced(after, p) {
        assert Balanced(db, p);
        if p == o { SaleEntersOnce(db, o, efiFee); } else { OthersKeepSums(db, o, efiFee, p); }
      }
      forall n: nat ensures EntryFits(after, n) { SaleKeepsEntry(db, after, es, n); }
      forall p ensures SoldWhole(after, p) { assert SoldWhole(db, p); SaleKeepsWhole(db, after, o, es, p); }
    }
  }

  lemma {:induction false} SaleKeepsEntry(db: Db, after: Db, es: seq<Entry>, n: nat)
    requires forall k: nat {:trigger EntryFits(db, k)} :: EntryFits(db, k)
    requires after.ledger == db.ledger || after.ledger == db.ledger + es
    requires forall k :: 0 <= k < |es| ==> OfSale(es[k].kind) && es[k].key == SaleKeyOf(es[k])
    ensures EntryFits(after, n)
  {
    if n < |db.ledger| {
      assert EntryFits(db, n) && after.ledger[n] == db.ledger[n];
      var e := db.ledger[n];
      assert after.ledger[..|db.ledger|] == db.ledger;
      if e.key.ReversalKey? { StillKnown(db, after, e.order, e.key.key); }
    }
  }

  function SaleKeyOf(e: Entry): Key {
    match e.kind
    case SaleKind => SaleKey(e.order)
    case EfiFeeKind => EfiFeeKey(e.order)
    case _ => PlatformFeeKey(e.order)
  }

  lemma {:induction false} KeyIn(ledger: seq<Entry>, es: seq<Entry>, key: Key)
    requires |es| == 3
    ensures HasKey(ledger + es, key) <==> HasKey(ledger, key) || es[0].key == key || es[1].key == key || es[2].key == key
  {
    if HasKey(ledger, key) {
      var n :| 0 <= n < |ledger| && ledger[n].key == key;
      assert (ledger + es)[n] == ledger[n];
    }
    assert (ledger + es)[|ledger|] == es[0] && (ledger + es)[|ledger| + 1] == es[1] && (ledger + es)[|ledger| + 2] == es[2];
  }

  lemma {:induction false} SaleKeepsWhole(db: Db, after: Db, o: OrderId, es: seq<Entry>, p: OrderId)
    requires SoldWhole(db, p) && |es| == 3 && es[0].key == SaleKey(o) && es[1].key == EfiFeeKey(o) && es[2].key == PlatformFeeKey(o)
    requires after.ledger == db.ledger || after.ledger == db.ledger + es
    ensures SoldWhole(after, p)
  {
    KeyIn(db.ledger, es, SaleKey(p));
    KeyIn(db.ledger, es, EfiFeeKey(p));
    KeyIn(db.ledger, es, PlatformFeeKey(p));
  }

  // ---- histories ---------------------------------------------------------------------------

  /** A refund key names one order. */
  predicate KeysApart(ms: seq<Movement>) {
    forall j, k :: 0 <= j < |ms| && 0 <= k < |ms| && ms[j].Back? && ms[k].Back? && ms[j].refund.key == ms[k].refund.key ==>
      ms[j].refund.order == ms[k].refund.order
  }

  /** The tariff of the first settlement. */
  function FirstTariff(ms: seq<Movement>, o: OrderId): Option<nat> {
    if ms == [] then None else
    var before := FirstTariff(ms[..|ms| - 1], o);
    var last := ms[|ms| - 1];
    if before.Some? then before else if last.Sale? && last.order == o then Some(last.efiFee) else None
  }

  predicate ByRefund(e: Entry, r: Refund) {
    e.order == r.order && (e.key == RefundKey(r.key) || e.key == ReversalKey(r.key))
  }

  /** Every refund entry is one of the refunds'. */
  predicate Traced(ms: seq<Movement>, e: Entry) {
    OfSale(e.kind) || exists k :: 0 <= k < |ms| && ms[k].Back? && ByRefund(e, ms[k].refund)
  }

  /** Totals and fees of orders never change by a movement; what was sold is what the first settlement said. */
  predicate Told(orders: map<OrderId, Order>, ms: seq<Movement>, db: Db, o: OrderId) {
    o in orders ==>
      && o in db.orders && db.orders[o].total == orders[o].total && db.orders[o].platformFee == orders[o].platformFee
      && db.orders[o].lines == orders[o].lines
      && (Sold(db, o) <==> FirstTariff(ms, o).Some?)
      && match FirstTariff(ms, o)
         case None => HasTerms(db, o, 0, 0, 0)
         case Some(efiFee) => HasTerms(db, o, orders[o].total, efiFee, orders[o].platformFee)
  }

  ghost predicate Follows(orders: map<OrderId, Order>, ms: seq<Movement>, db: Db) {
    && LedgerInv(db) && db.orders.Keys == orders.Keys
    && (forall n :: 0 <= n < |db.ledger| ==> Traced(ms, db.ledger[n]))
    && (forall o {:trigger Told(orders, ms, db, o)} :: Told(orders, ms, db, o))
  }

  lemma {:induction false} EmptyLedgerHolds(orders: map<OrderId, Order>)
    ensures LedgerInv(Db(orders, [], []))
  {
    var db := Db(orders, [], []);
    forall o ensures Balanced(db, o) { if o in orders { FeeOfAll(orders[o]); } }
  }

  lemma {:induction false} OwnKeyFree(ms: seq<Movement>, r: Refund, db: Db)
    requires KeysApart(ms + [Back(r)]) && LedgerInv(db) && forall n :: 0 <= n < |db.ledger| ==> Traced(ms, db.ledger[n])
    ensures KeyFree(db, r.order, r.key)
  {
    var all := ms + [Back(r)];
    forall n | 0 <= n < |db.ledger| && db.ledger[n].order != r.order
      ensures db.ledger[n].key != RefundKey(r.key) && db.ledger[n].key != ReversalKey(r.key)
    {
      var e := db.ledger[n];
      assert Traced(ms, e) && EntryFits(db, n);
      if !OfSale(e.kind) {
        var k :| 0 <= k < |ms| && ms[k].Back? && ByRefund(e, ms[k].refund);
        assert all[k] == ms[k] && all[|ms|] == Back(r);
      }
    }
  }

  lemma {:induction false} StillTraced(ms: seq<Movement>, m: Movement, e: Entry)
    requires Traced(ms, e)
    ensures Traced(ms + [m], e)
  {
    if !OfSale(e.kind) {
      var k :| 0 <= k < |ms| && ms[k].Back? && ByRefund(e, ms[k].refund);
      assert (ms + [m])[k] == ms[k];
    }
  }

  lemma {:induction false} BackTraced(ms: seq<Movement>, db: Db, r: Refund, n: nat)
    requires LedgerInv(db) && KeyFree(db, r.order, r.key) && forall k :: 0 <= k < |db.ledger| ==> Traced(ms, db.ledger[k])
    requires n < |Apply(db, r).ledger|
    ensures Traced(ms + [Back(r)], Apply(db, r).ledger[n])
  {
    var outcome := Record(db, r.order, r.amount, r.key, r.fromProvider, r.now);
    if outcome.Success? && outcome.value.Recorded? { RecordEntries(db, r.order, r.amount, r.key, r.fromProvider, r.now); }
    if n < |db.ledger| {
      StillTraced(ms, Back(r), db.ledger[n]);
    } else {
      assert (ms + [Back(r)])[|ms|] == Back(r) && ByRefund(Apply(db, r).ledger[n], r);
    }
  }

  lemma {:induction false} BackTold(orders: map<OrderId, Order>, ms: seq<Movement>, db: Db, r: Refund, o: OrderId)
    requires LedgerInv(db) && KeyFree(db, r.order, r.key) && Told(orders, ms, db, o)
    ensures Told(orders, ms + [Back(r)], Apply(db, r), o)
  {
    assert (ms + [Back(r)])[..|ms|] == ms;
    var outcome := Record(db, r.order, r.amount, r.key, r.fromProvider, r.now);
    if outcome.Success? && outcome.value.Recorded? {
      RecordEntries(db, r.order, r.amount, r.key, r.fromProvider, r.now);
      SalesLeft(db, r.order, r.amount, ReversalFor(db, r.order, r.amount), r.key, o);
    }
  }

  lemma {:induction false} BackFollows(orders: map<OrderId, Order>, ms: seq<Movement>, db: Db, r: Refund)
    requires Follows(orders, ms, db) && KeysApart(ms + [Back(r)])
    ensures Follows(orders, ms + [Back(r)], Apply(db, r))
  {
    var after := Apply(db, r);
    OwnKeyFree(ms, r, db);
    var outcome := Record(db, r.order, r.amount, r.key, r.fromProvider, r.now);
    if outcome.Success? && outcome.value.Recorded? { RecordKeeps(db, r.order, r.amount, r.key, r.fromProvider, r.now); }
    forall n | 0 <= n < |after.ledger| ensures Traced(ms + [Back(r)], after.ledger[n]) { BackTraced(ms, db, r, n); }
    forall o ensures Told(orders, ms + [Back(r)], after, o) {
      assert Told(orders, ms, db, o);
      BackTold(orders, ms, db, r, o);
    }
  }

  lemma {:induction false} SaleTraced(ms: seq<Movement>, db: Db, o: OrderId, efiFee: nat, n: nat)
    requires LedgerInv(db) && forall k :: 0 <= k < |db.ledger| ==> Traced(ms, db.ledger[k])
    requires n < |SettleSale(db, o, efiFee).ledger|
    ensures Traced(ms + [Sale(o, efiFee)], SettleSale(db, o, efiFee).ledger[n])
  {
    assert SoldWhole(db, o);
    if o in db.orders { SaleWrites(db, o, db.orders[o].total, efiFee, db.orders[o].platformFee); }
    if n < |db.ledger| { StillTraced(ms, Sale(o, efiFee), db.ledger[n]); }
  }

  lemma {:induction false} SaleTold(orders: map<OrderId, Order>, ms: seq<Movement>, db: Db, o: OrderId, efiFee: nat, p: OrderId)
    requires LedgerInv(db) && db.orders.Keys == orders.Keys && Told(orders, ms, db, p)
    ensures Told(orders, ms + [Sale(o, efiFee)], SettleSale(db, o, efiFee), p)
  {
    assert (ms + [Sale(o, efiFee)])[..|ms|] == ms;
    if p != o { OthersKeepSums(db, o, efiFee, p); } else if o in db.orders { SaleEntersOnce(db, o, efiFee); }
  }

  lemma {:induction false} SaleFollows(orders: map<OrderId, Order>, ms: seq<Movement>, db: Db, o: OrderId, efiFee: nat)
    requires Follows(orders, ms, db)
    ensures Follows(orders, ms + [Sale(o, efiFee)], SettleSale(db, o, efiFee))
  {
    var after := SettleSale(db, o, efiFee);
    SaleKeeps(db, o, efiFee);
    forall n | 0 <= n < |after.ledger| ensures Traced(ms + [Sale(o, efiFee)], after.ledger[n]) { SaleTraced(ms, db, o, efiFee, n); }
    forall p ensures Told(orders, ms + [Sale(o, efiFee)], after, p) {
      assert Told(orders, ms, db, p);
      SaleTold(orders, ms, db, o, efiFee, p);
    }
  }

  lemma {:induction false} RunFollows(orders: map<OrderId, Order>, ms: seq<Movement>)
    requires KeysApart(ms)
    ensures Follows(orders, ms, After(Db(orders, [], []), ms))
    decreases |ms|
  {
    if ms == [] {
      EmptyLedgerHolds(orders);
      forall o ensures Told(orders, ms, Db(orders, [], []), o) {}
    } else {
      var front, m := ms[..|ms| - 1], ms[|ms| - 1];
      assert front + [m] == ms;
      forall j | 0 <= j < |front| ensures front[j] == ms[j] {}
      RunFollows(orders, front);
      var before := After(Db(orders, [], []), front);
      match m
      case Sale(o, efiFee) => SaleFollows(orders, front, before, o, efiFee);
      case Back(r) => BackFollows(orders, front, before, r);
    }
  }

  /**
   In every history from the empty ledger with refund keys of their own, the entries of a sold
   order come to what was received less tariff, refunds and the platform fee not returned;
   fully refunded, only the tariff is lost. Before it is sold only refunds can have moved.
   */
  lemma {:induction false} NetAfterRefunds(orders: map<OrderId, Order>, ms: seq<Movement>, o: OrderId)
    requires KeysApart(ms) && o in orders
    ensures var end := After(Db(orders, [], []), ms); var order, refunded := orders[o], RefundedOf(end, o);
      && ReversedOf(end, o) == FeeFor(order, refunded)
      && match FirstTariff(ms, o)
         case None => Net(end.ledger, o) == FeeFor(order, refunded) - refunded
         case Some(efiFee) =>
           && Net(end.ledger, o) == order.total - efiFee - refunded - order.platformFee + FeeFor(order, refunded)
           && (refunded == order.total ==> Net(end.ledger, o) == 0 - efiFee)
  {
    RunFollows(orders, ms);
    var end := After(Db(orders, [], []), ms);
    assert Told(orders, ms, end, o) && Balanced(end, o);
    NetIsKinds(end.ledger, o);
    FeeOfAll(orders[o]);
  }

  // ---- one manual key on two orders ---------------------------------------------------------

  const ORDER := Order(Pending, 1000, 50, [Line(1000, 0)])
  const TWO := map[0 := ORDER, 1 := ORDER]
  const SOLD := Db(map[0 := ORDER.(status := Paid), 1 := ORDER.(status := Paid)], SaleEntries(0, 1000, 10, 50) + SaleEntries(1, 1000, 10, 50), [])

  function ByHand(o: OrderId, key: string): Refund { Refund(o, 1000, key, false, 0) }

  /** A sale of ten with a fee of a twentieth, entered after others. */
  lemma {:induction false} SaleAfter(db: Db, o: OrderId, ledger: seq<Entry>)
    requires LedgerInv(db) && db.ledger == ledger && o in db.orders && db.orders[o].total == 1000 && db.orders[o].platformFee == 50
    requires forall n :: 0 <= n < |ledger| ==> ledger[n].key != SaleKey(o)
    ensures SettleSale(db, o, 10) == Db(db.orders[o := db.orders[o].(status := Paid)], ledger + SaleEntries(o, 1000, 10, 50), db.requests)
    ensures LedgerInv(SettleSale(db, o, 10))
  {
    SaleKeeps(db, o, 10);
    assert SoldWhole(db, o);
    SaleWrites(db, o, 1000, 10, 50);
  }

  lemma {:induction false} ReachSold()
    ensures After(Db(TWO, [], []), [Sale(0, 10), Sale(1, 10)]) == SOLD && LedgerInv(SOLD)
  {
    var start := Db(TWO, [], []);
    EmptyLedgerHolds(TWO);
    SaleAfter(start, 0, []);
    var one := SettleSale(start, 0, 10);
    assert one.ledger == SaleEntries(0, 1000, 10, 50);
    SaleAfter(one, 1, SaleEntries(0, 1000, 10, 50));
    assert SettleSale(one, 1, 10).orders == SOLD.orders;
    var ms := [Sale(0, 10), Sale(1, 10)];
    assert ms[..1] == [Sale(0, 10)] && ms[..1][..0] == [];
    assert After(start, ms[..1]) == one;
  }

  function SoldSum(o: OrderId, kind: Kind): int {
    if o > 1 then 0 else
    match kind
    case SaleKind => 1000
    case EfiFeeKind => -10
    case PlatformFeeKind => -50
    case _ => 0
  }

  lemma {:induction false} SoldSums(o: OrderId, kind: Kind)
    ensures SumKind(SOLD.ledger, o, kind) == SoldSum(o, kind)
  {
    ThreeAppended([], SaleEntries(0, 1000, 10, 50), o, kind);
    assert [] + SaleEntries(0, 1000, 10, 50) == SaleEntries(0, 1000, 10, 50);
    ThreeAppended(SaleEntries(0, 1000, 10, 50), SaleEntries(1, 1000, 10, 50), o, kind);
  }

  lemma {:induction false} SoldKeys(n: nat)
    requires n < |SOLD.ledger|
    ensures OfSale(SOLD.ledger[n].kind) && !SOLD.ledger[n].key.RefundKey? && !SOLD.ledger[n].key.ReversalKey?
  {}

  /** The first of the two refunds is entered with the whole fee. */
  lemma {:induction false} FirstByHand(sold: Db, key: string)
    requires LedgerInv(sold) && sold.orders == SOLD.orders && sold.requests == []
    requires forall n :: 0 <= n < |sold.ledger| ==> !sold.ledger[n].key.RefundKey? && !sold.ledger[n].key.ReversalKey?
    requires RefundedOf(sold, 0) == 0 && ReversedOf(sold, 0) == 0
    ensures Apply(sold, ByHand(0, key)).orders == map[0 := ORDER.(status := Refunded), 1 := ORDER.(status := Paid)]
    ensures Apply(sold, ByHand(0, key)).ledger == Written(sold.ledger, 0, 1000, 50, key)
    ensures Apply(sold, ByHand(0, key)).requests == []
  {
    RefundedByHand(sold, 0, key, 0);
    FeeOfAll(ORDER);
    assert FeeFor(sold.orders[0], 1000) == FeeFor(ORDER, 1000);
    RecordEntries(sold, 0, 1000, key, false, 0);
  }

  lemma {:induction false} KeyTaken(sold: Db, db: Db, key: string)
    requires db.ledger == Written(sold.ledger, 0, 1000, 50, key)
    requires forall n :: 0 <= n < |sold.ledger| ==> OfSale(sold.ledger[n].kind)
    requires RefundedOf(sold, 1) == 0 && ReversedOf(sold, 1) == 0 && HasTerms(sold, 1, 1000, 10, 50)
    ensures HasKey(db.ledger, RefundKey(key)) && HasKey(db.ledger, ReversalKey(key)) && !Known(db, 1, key)
    ensures RefundedOf(db, 1) == 0 && ReversedOf(db, 1) == 0 && HasTerms(db, 1, 1000, 10, 50)
    ensures RefundedOf(db, 0) == RefundedOf(sold, 0) + 1000
  {
    var n := |sold.ledger|;
    assert db.ledger[n].key == RefundKey(key) && db.ledger[n + 1].key == ReversalKey(key);
    SalesLeft(sold, 0, 1000, 50, key, 1);
    TwoAppended(sold.ledger, 0, 1000, 50, key, 1);
    TwoAppended(sold.ledger, 0, 1000, 50, key, 0);
  }

  /** The second finds both keys taken. */
  lemma {:induction false} SecondByHand(db: Db, key: string)
    requires db.orders == map[0 := ORDER.(status := Refunded), 1 := ORDER.(status := Paid)] && db.requests == []
    requires HasKey(db.ledger, RefundKey(key)) && HasKey(db.ledger, ReversalKey(key)) && !Known(db, 1, key) && RefundedOf(db, 1) == 0
    ensures Apply(db, ByHand(1, key)).ledger == db.ledger
    ensures Apply(db, ByHand(1, key)).orders == map[0 := ORDER.(status := Refunded), 1 := ORDER.(status := Refunded)]
  {
    RefundedByHand(db, 1, key, 0);
  }

  /** Two sales refunded in full by hand under one key: both end refunded, and the second still counts for its seller. */
  lemma {:induction false} ManualKeyReused(key: string)
    ensures var end := After(Db(TWO, [], []), [Sale(0, 10), Sale(1, 10)] + [Back(ByHand(0, key))] + [Back(ByHand(1, key))]);
      && end.orders.Keys == {0, 1}
      && end.orders[0].status == Refunded && RefundedOf(end, 0) == 1000
      && end.orders[1].status == Refunded && RefundedOf(end, 1) == 0 && Net(end.ledger, 1) == 940
  {
    var start, sales := Db(TWO, [], []), [Sale(0, 10), Sale(1, 10)];
    ReachSold();
    BothByHand(key);
    AfterMore(start, sales, Back(ByHand(0, key)));
    AfterMore(start, sales + [Back(ByHand(0, key))], Back(ByHand(1, key)));
  }

  lemma {:induction false} SoldFacts()
    ensures LedgerInv(SOLD)
    ensures forall n :: 0 <= n < |SOLD.ledger| ==> OfSale(SOLD.ledger[n].kind) && !SOLD.ledger[n].key.RefundKey? && !SOLD.ledger[n].key.ReversalKey?
    ensures RefundedOf(SOLD, 0) == 0 && ReversedOf(SOLD, 0) == 0 && RefundedOf(SOLD, 1) == 0 && ReversedOf(SOLD, 1) == 0
    ensures HasTerms(SOLD, 1, 1000, 10, 50)
  {
    ReachSold();
    forall n | 0 <= n < |SOLD.ledger| ensures OfSale(SOLD.ledger[n].kind) && !SOLD.ledger[n].key.RefundKey? && !SOLD.ledger[n].key.ReversalKey? { SoldKeys(n); }
    forall o, kind ensures SumKind(SOLD.ledger, o, kind) == SoldSum(o, kind) { SoldSums(o, kind); }
  }

  lemma {:induction false} BothByHand(key: string)
    ensures var end := Move(Move(SOLD, Back(ByHand(0, key))), Back(ByHand(1, key)));
      && end.orders == map[0 := ORDER.(status := Refunded), 1 := ORDER.(status := Refunded)]
      && RefundedOf(end, 0) == 1000 && RefundedOf(end, 1) == 0 && Net(end.ledger, 1) == 940
  {
    SoldFacts();
    var one := Apply(SOLD, ByHand(0, key));
    FirstByHand(SOLD, key);
    KeyTaken(SOLD, one, key);
    SecondByHand(one, key);
    NetIsKinds(one.ledger, 1);
  }

  lemma {:induction false} AfterMore(db: Db, ms: seq<Movement>, m: Movement)
    ensures After(db, ms + [m]) == Move(After(db, ms), m)
  {
    assert (ms + [m])[..|ms|] == ms;
  }
}
