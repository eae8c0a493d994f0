/**
 What an order costs: coupon, gross-up of the Pix tariff, and the split of the total over its
 items. Money is whole cents; rates are basis points; rounding is half up, on exact fractions.
 */
module Pricing {
  import opened Common
  import opened Sorting

  const MIN_PRICE_CENTS := 500
  const WHOLE := 10000

  datatype FeePayer = Seller | Buyer

  datatype CouponKind = Percent | Fixed

  datatype Coupon = Coupon(
    kind: CouponKind, value: nat, active: bool, starts: Option<int>, expires: Option<int>,
    maxUses: Option<nat>, used: nat, allProducts: bool, products: set<nat>)

  datatype Line = Line(price: nat, discount: nat)

  datatype Quote = Quote(
    lines: seq<Line>, discount: nat, subtotal: nat, surcharge: int, total: nat, efiFee: nat, platformFee: nat)

  function CeilDiv(n: nat, d: nat): nat
    requires d > 0
  {
    (n + d - 1) / d
  }

  function Round(n: nat, d: nat): nat
    requires d > 0
  {
    (2 * n + d) / (2 * d)
  }

  // ---- coupons ---------------------------------------------------------------------------

  datatype CouponIssue = CouponUnknown | NotStarted | Expired | UsedUp | OtherProduct

  /** The first thing that stands in the way, in this order. */
  function IssueOf(coupon: Option<Coupon>, product: nat, now: int): (r: Option<CouponIssue>)
    ensures r == Some(CouponUnknown) <==> !(coupon.Some? && coupon.value.active)
    ensures r == Some(NotStarted) ==> coupon.value.starts.Some? && now < coupon.value.starts.value
    ensures r == Some(Expired) ==> coupon.value.expires.Some? && now > coupon.value.expires.value
    ensures r == Some(UsedUp) ==> coupon.value.maxUses.Some? && coupon.value.used >= coupon.value.maxUses.value
    ensures r == Some(OtherProduct) ==> !coupon.value.allProducts && product !in coupon.value.products
    ensures r.None? <==> (
      && coupon.Some? && coupon.value.active
      && (coupon.value.starts.Some? ==> coupon.value.starts.value <= now)
      && (coupon.value.expires.Some? ==> now <= coupon.value.expires.value)
      && (coupon.value.maxUses.Some? ==> coupon.value.used < coupon.value.maxUses.value)
      && (coupon.value.allProducts || product in coupon.value.products))
  {
    if coupon.None? || !coupon.value.active then Some(CouponUnknown)
    else if coupon.value.starts.Some? && now < coupon.value.starts.value then Some(NotStarted)
    else if coupon.value.expires.Some? && now > coupon.value.expires.value then Some(Expired)
    else if coupon.value.maxUses.Some? && coupon.value.used >= coupon.value.maxUses.value then Some(UsedUp)
    else if !coupon.value.allProducts && product !in coupon.value.products then Some(OtherProduct)
    else None
  }

  function Discount(price: nat, coupon: Coupon): (r: nat) {
    var wanted := if coupon.kind == Percent then price * coupon.value / WHOLE else coupon.value;
    Max(0, Min(wanted, price - MIN_PRICE_CENTS))
  }

  /** A coupon never takes a price at the floor or above it below the floor, nor gives more than it says. */
  lemma {:induction false} DiscountKeepsFloor(price: nat, coupon: Coupon)
    ensures price >= MIN_PRICE_CENTS ==> price - Discount(price, coupon) >= MIN_PRICE_CENTS
    ensures price < MIN_PRICE_CENTS ==> Discount(price, coupon) == 0
    ensures coupon.kind == Fixed ==> Discount(price, coupon) <= coupon.value
    ensures coupon.kind == Percent ==> Discount(price, coupon) * WHOLE <= price * coupon.value
    ensures Discount(price, coupon) <= price
  {}

  /** It takes all it says, down to a cent, unless that reaches the floor, and then exactly down to the floor. */
  lemma {:induction false} DiscountExact(price: nat, coupon: Coupon)
    ensures var d := Discount(price, coupon);
      && (price <= MIN_PRICE_CENTS ==> d == 0)
      && (price > MIN_PRICE_CENTS && price - d > MIN_PRICE_CENTS ==>
           && (coupon.kind == Fixed ==> d == coupon.value)
           && (coupon.kind == Percent ==> d * WHOLE <= price * coupon.value < (d + 1) * WHOLE))
      && (price > MIN_PRICE_CENTS ==> price - d >= MIN_PRICE_CENTS)
      && (price > MIN_PRICE_CENTS && price - d == MIN_PRICE_CENTS ==>
           && (coupon.kind == Fixed ==> coupon.value >= d)
           && (coupon.kind == Percent ==> price * coupon.value >= d * WHOLE))
  {}

  // ---- quotes ----------------------------------------------------------------------------

  function Prices(prices: seq<nat>): nat {
    if prices == [] then 0 else Prices(prices[..|prices| - 1]) + prices[|prices| - 1]
  }

  function TotalFor(subtotal: nat, payer: FeePayer, fee: nat): nat
    requires fee < WHOLE
  {
    if payer == Buyer then CeilDiv(subtotal * WHOLE, WHOLE - fee) else subtotal
  }

  function QuoteOrder(price: nat, bumps: seq<nat>, coupon: Option<Coupon>, payer: FeePayer, fee: nat, platform: nat): Quote
    requires fee < WHOLE
  {
    var discount := if coupon.Some? then Discount(price, coupon.value) else 0;
    var lines := [Line(price, discount)] + seq(|bumps|, n requires 0 <= n < |bumps| => Line(bumps[n], 0));
    DiscountAtMost(price, coupon);
    var subtotal := price + Prices(bumps) - discount;
    var total := TotalFor(subtotal, payer, fee);
    Quote(lines, discount, subtotal, total - subtotal, total, Round(total * fee, WHOLE), Round(subtotal * platform, WHOLE))
  }

  lemma {:induction false} DiscountAtMost(price: nat, coupon: Option<Coupon>)
    ensures (if coupon.Some? then Discount(price, coupon.value) else 0) <= price
  {
    if coupon.Some? { DiscountKeepsFloor(price, coupon.value); }
  }

  lemma {:induction false} CeilDivIs(n: nat, d: nat)
    requires d > 0
    ensures d * CeilDiv(n, d) >= n && (CeilDiv(n, d) > 0 ==> d * (CeilDiv(n, d) - 1) < n)
  {
    var q := (n + d - 1) / d;
    assert d * q + (n + d - 1) % d == n + d - 1;
  }

  lemma {:induction false} RoundIs(n: nat, d: nat)
    requires d > 0
    ensures 2 * n - d < 2 * d * Round(n, d) <= 2 * n + d
  {
    var q := Round(n, d);
    assert 2 * d * q + (2 * n + d) % (2 * d) == 2 * n + d;
  }

  /** What the total leaves after its unrounded tariff is at least the subtotal. */
  predicate CoversTariff(total: nat, subtotal: nat, fee: nat)
    requires fee < WHOLE
  {
    total * (WHOLE - fee) >= subtotal * WHOLE
  }

  /**
   Grossed up, the seller keeps the subtotal after the tariff, or one cent more by rounding;
   the total is the least one whose unrounded tariff leaves the subtotal, and never below it.
   */
  lemma {:induction false} GrossUp(subtotal: nat, fee: nat)
    requires fee < WHOLE
    ensures var total := TotalFor(subtotal, Buyer, fee);
      && subtotal <= total - Round(total * fee, WHOLE) <= subtotal + 1
      && subtotal <= total
      && CoversTariff(total, subtotal, fee)
      && forall less: nat {:trigger CoversTariff(less, subtotal, fee)} :: less < total ==> !CoversTariff(less, subtotal, fee)
  {
    var total := TotalFor(subtotal, Buyer, fee);
    var kept := WHOLE - fee;
    CeilDivIs(subtotal * WHOLE, kept);
    assert kept * total == total * kept;
    RoundIs(total * fee, WHOLE);
    assert total * kept == total * WHOLE - total * fee;
    assert total * kept < subtotal * WHOLE + kept by { if total > 0 { assert kept * (total - 1) == kept * total - kept; } }
    forall less: nat | less < total ensures !CoversTariff(less, subtotal, fee) {
      MultiplyGrows(less, total - 1, kept);
      assert kept * (total - 1) == (total - 1) * kept;
    }
    MultiplyGrows(kept, WHOLE, subtotal);
    assert subtotal * kept <= subtotal * WHOLE;
    Cancel(subtotal, total, kept);
  }

  lemma {:induction false} MultiplyGrows(a: nat, b: nat, c: nat)
    requires a <= b
    ensures a * c <= b * c
  {}

  lemma {:induction false} Cancel(a: nat, b: nat, c: nat)
    requires c > 0 && a * c <= b * c
    ensures a <= b
  {}

  /** The quote of any cart, coupon and tariff: surcharge, kept amount, floor and platform fee. */
  lemma {:induction false} QuoteSound(price: nat, bumps: seq<nat>, coupon: Option<Coupon>, payer: FeePayer, fee: nat, platform: nat)
    requires fee < WHOLE && platform <= WHOLE
    ensures var q := QuoteOrder(price, bumps, coupon, payer, fee, platform);
      && q.surcharge >= 0 && q.total == q.subtotal + q.surcharge
      && (payer == Buyer ==> q.subtotal <= q.total - q.efiFee <= q.subtotal + 1)
      && (payer == Seller ==> q.surcharge == 0)
      && (price >= MIN_PRICE_CENTS ==> price - q.discount >= MIN_PRICE_CENTS && q.subtotal >= MIN_PRICE_CENTS)
      && q.platformFee <= q.subtotal && q.efiFee <= q.total
  {
    var q := QuoteOrder(price, bumps, coupon, payer, fee, platform);
    GrossUp(q.subtotal, fee);
    if coupon.Some? { DiscountKeepsFloor(price, coupon.value); }
    RoundAtMost(q.subtotal, platform);
    RoundAtMost(q.total, fee);
  }

  function LinePrices(lines: seq<Line>): seq<nat> { seq(|lines|, n requires 0 <= n < |lines| => lines[n].price) }

  lemma {:induction false} SumOfSplit(first: nat, rest: seq<nat>)
    ensures Sum([first] + rest) == first + Prices(rest)
  {
    if rest == [] {
      assert [first] + rest == [first] && [first][..0] == [];
    } else {
      assert ([first] + rest)[..|rest|] == [first] + rest[..|rest| - 1];
      SumOfSplit(first, rest[..|rest| - 1]);
    }
  }

  /**
   The order is the product and the bumps, each at its own price and only the product discounted;
   the subtotal is what they come to.
   */
  lemma {:induction false} QuoteAddsUp(price: nat, bumps: seq<nat>, coupon: Option<Coupon>, payer: FeePayer, fee: nat, platform: nat)
    requires fee < WHOLE
    ensures var q := QuoteOrder(price, bumps, coupon, payer, fee, platform);
      && |q.lines| == |bumps| + 1 && q.lines[0] == Line(price, q.discount)
      && (forall n :: 0 <= n < |bumps| ==> q.lines[n + 1] == Line(bumps[n], 0))
      && q.discount == (if coupon.Some? then Discount(price, coupon.value) else 0)
      && q.subtotal + q.discount == Sum(LinePrices(q.lines)) && q.subtotal == Sum(Weights(q.lines))
  {
    var q := QuoteOrder(price, bumps, coupon, payer, fee, platform);
    DiscountAtMost(price, coupon);
    assert LinePrices(q.lines) == [price] + bumps;
    assert Weights(q.lines) == [price - q.discount] + bumps;
    SumOfSplit(price, bumps);
    SumOfSplit(price - q.discount, bumps);
  }

  /** Half a cent around the exact fraction, a tie going up. */
  predicate Nearest(fee: nat, amount: nat, rate: nat) {
    2 * (amount * rate) - WHOLE < 2 * WHOLE * fee <= 2 * (amount * rate) + WHOLE
  }

  /** The platform's part is of the subtotal, the tariff of the total, each to the nearest cent; the payer decides the total. */
  lemma {:induction false} QuoteFees(price: nat, bumps: seq<nat>, coupon: Option<Coupon>, payer: FeePayer, fee: nat, platform: nat)
    requires fee < WHOLE
    ensures var q := QuoteOrder(price, bumps, coupon, payer, fee, platform);
      && Nearest(q.platformFee, q.subtotal, platform) && Nearest(q.efiFee, q.total, fee)
      && (payer == Seller ==> q.total == q.subtotal)
      && (payer == Buyer ==> CoversTariff(q.total, q.subtotal, fee) && (q.total > 0 ==> !CoversTariff(q.total - 1, q.subtotal, fee)))
  {
    var q := QuoteOrder(price, bumps, coupon, payer, fee, platform);
    RoundIs(q.subtotal * platform, WHOLE);
    RoundIs(q.total * fee, WHOLE);
    GrossUp(q.subtotal, fee);
  }

  lemma {:induction false} RoundAtMost(amount: nat, rate: nat)
    requires rate <= WHOLE
    ensures Round(amount * rate, WHOLE) <= amount
  {
    RoundIs(amount * rate, WHOLE);
    MultiplyGrows(rate, WHOLE, amount);
  }

  // ---- item shares -----------------------------------------------------------------------

  function WeightOf(line: Line): nat { Max(0, line.price - line.discount) }

  function Weights(lines: seq<Line>): (w: seq<nat>)
    ensures |w| == |lines| && forall k :: 0 <= k < |lines| ==> w[k] == WeightOf(lines[k])
  {
    seq(|lines|, n requires 0 <= n < |lines| => WeightOf(lines[n]))
  }

  function Sum(xs: seq<nat>): nat {
    if xs == [] then 0 else Sum(xs[..|xs| - 1]) + xs[|xs| - 1]
  }

  /** Whole cents of a proportional share, and what is left of it over the sum of weights. */
  function Floor(w: seq<nat>, total: nat, k: nat): nat
    requires k < |w| && Sum(w) > 0
  {
    total * w[k] / Sum(w)
  }

  function Left(w: seq<nat>, total: nat, k: nat): (r: nat)
    requires k < |w| && Sum(w) > 0
    ensures r < Sum(w)
  {
    total * w[k] % Sum(w)
  }

  /** Larger remainders come first, and earlier items among equal ones. */
  predicate Before(w: seq<nat>, total: nat, a: nat, b: nat)
    requires a < |w| && b < |w| && Sum(w) > 0
  {
    Left(w, total, a) > Left(w, total, b) || (Left(w, total, a) == Left(w, total, b) && a < b)
  }

  /** Shares by largest remainder: whole parts, and one cent more for the first ones in that order. */
  predicate LargestRemainder(w: seq<nat>, total: nat, shares: seq<nat>)
    requires Sum(w) > 0
  {
    && |shares| == |w| && Sum(shares) == total
    && (forall k :: 0 <= k < |w| ==> Floor(w, total, k) <= shares[k] <= Floor(w, total, k) + 1)
    && (forall a, b :: 0 <= a < |w| && 0 <= b < |w| && shares[a] > Floor(w, total, a) && shares[b] == Floor(w, total, b) ==>
         Before(w, total, a, b))
  }

  /** What each item of an order was paid with. */
  predicate AreShares(lines: seq<Line>, total: nat, shares: seq<nat>) {
    var w := Weights(lines);
    && |shares| == |lines|
    && if Sum(w) == 0 then forall k :: 0 <= k < |shares| ==> shares[k] == if k == 0 then total else 0
       else LargestRemainder(w, total, shares)
  }

  lemma {:induction false} SumGrows(a: seq<nat>, b: seq<nat>)
    requires |a| == |b| && forall k :: 0 <= k < |a| ==> a[k] <= b[k]
    ensures Sum(a) <= Sum(b)
    ensures forall k :: 0 <= k < |a| && a[k] < b[k] ==> Sum(a) < Sum(b)
    decreases |a|
  {
    if a != [] { SumGrows(a[..|a| - 1], b[..|b| - 1]); }
  }

  /** The shares are fixed by weights and total. */
  lemma {:induction false} SharesUnique(w: seq<nat>, total: nat, s: seq<nat>, t: seq<nat>)
    requires Sum(w) > 0 && LargestRemainder(w, total, s) && LargestRemainder(w, total, t)
    ensures s == t
  {
    if exists k :: 0 <= k < |w| && s[k] > t[k] { NoneAbove(w, total, s, t); }
    if exists k :: 0 <= k < |w| && t[k] > s[k] { NoneAbove(w, total, t, s); }
  }

  lemma {:induction false} NoneAbove(w: seq<nat>, total: nat, s: seq<nat>, t: seq<nat>)
    requires Sum(w) > 0 && LargestRemainder(w, total, s) && LargestRemainder(w, total, t)
    ensures forall k :: 0 <= k < |w| ==> s[k] <= t[k]
  {
    forall a | 0 <= a < |w| ensures s[a] <= t[a] {
      if s[a] > t[a] {
        if forall k :: 0 <= k < |w| ==> t[k] <= s[k] { SumGrows(t, s); }
        var b :| 0 <= b < |w| && s[b] < t[b];
        BeforeOneWay(w, total, a, b);
      }
    }
  }

  lemma {:induction false} BeforeOneWay(w: seq<nat>, total: nat, a: nat, b: nat)
    requires Sum(w) > 0 && a < |w| && b < |w|
    ensures !(Before(w, total, a, b) && Before(w, total, b, a))
  {}

  /** A larger weight never gets a smaller share, nor does the earlier of two equal ones. */
  lemma {:induction false} SharesMonotone(w: seq<nat>, total: nat, shares: seq<nat>, a: nat, b: nat)
    requires Sum(w) > 0 && LargestRemainder(w, total, shares) && a < |w| && b < |w|
    requires w[a] < w[b] || (w[a] == w[b] && a > b)
    ensures shares[a] <= shares[b]
  {
    MultiplyGrows(w[a], w[b], total);
    DivideGrows(total * w[a], total * w[b], Sum(w));
    if Floor(w, total, a) == Floor(w, total, b) { EqualFloors(w, total, shares, a, b); }
  }

  lemma {:induction false} EqualFloors(w: seq<nat>, total: nat, shares: seq<nat>, a: nat, b: nat)
    requires Sum(w) > 0 && LargestRemainder(w, total, shares) && a < |w| && b < |w|
    requires w[a] < w[b] || (w[a] == w[b] && a > b)
    requires Floor(w, total, a) == Floor(w, total, b)
    ensures shares[a] <= shares[b]
  {
    LeftGrows(w, total, a, b);
    ShareAtMost(shares, a);
    assert !Before(w, total, a, b) || total == 0;
  }

  lemma {:induction false} LeftGrows(w: seq<nat>, total: nat, a: nat, b: nat)
    requires Sum(w) > 0 && a < |w| && b < |w| && w[a] <= w[b] && Floor(w, total, a) == Floor(w, total, b)
    ensures Left(w, total, a) <= Left(w, total, b)
    ensures Left(w, total, a) == Left(w, total, b) ==> w[a] == w[b] || total == 0
  {
    var sum := Sum(w);
    assert total * w[a] == sum * Floor(w, total, a) + Left(w, total, a);
    assert total * w[b] == sum * Floor(w, total, b) + Left(w, total, b);
    MultiplyGrows(w[a], w[b], total);
    if total > 0 && total * w[a] == total * w[b] {
      assert w[b] * total <= w[a] * total;
      Cancel(w[b], w[a], total);
    }
  }

  lemma {:induction false} ShareAtMost(xs: seq<nat>, k: nat)
    requires k < |xs|
    ensures xs[k] <= Sum(xs)
    decreases |xs|
  {
    if k < |xs| - 1 { ShareAtMost(xs[..|xs| - 1], k); }
  }

  lemma {:induction false} DivideGrows(a: nat, b: nat, d: nat)
    requires d > 0 && a <= b
    ensures a / d <= b / d
  {
    assert d * (a / d) <= a < d * (b / d) + d;
    assert d * (a / d) < d * (b / d + 1);
    assert (a / d) * d < (b / d + 1) * d;
    LessFactor(a / d, b / d + 1, d);
  }

  lemma {:induction false} LessFactor(a: nat, b: nat, c: nat)
    requires c > 0 && a * c < b * c
    ensures a < b
  {}

  // ---- whole parts and remainders ------------------------------------------------------------

  function FloorSum(w: seq<nat>, total: nat, n: nat): nat
    requires n <= |w| && Sum(w) > 0
  {
    if n == 0 then 0 else FloorSum(w, total, n - 1) + Floor(w, total, n - 1)
  }

  function LeftSum(w: seq<nat>, total: nat, n: nat): nat
    requires n <= |w| && Sum(w) > 0
  {
    if n == 0 then 0 else LeftSum(w, total, n - 1) + Left(w, total, n - 1)
  }

  lemma {:induction false} PartsAddUp(w: seq<nat>, total: nat, n: nat)
    requires n <= |w| && Sum(w) > 0
    ensures total * Sum(w[..n]) == Sum(w) * FloorSum(w, total, n) + LeftSum(w, total, n)
    ensures LeftSum(w, total, n) <= n * (Sum(w) - 1)
  {
    if n == 0 {
      assert w[..0] == [];
    } else {
      PartsAddUp(w, total, n - 1);
      assert w[..n][..n - 1] == w[..n - 1];
      WholeAndLeft(w, total, n - 1);
      AddParts(total, Sum(w), Sum(w[..n - 1]), w[n - 1], FloorSum(w, total, n - 1), Floor(w, total, n - 1),
               LeftSum(w, total, n - 1), Left(w, total, n - 1));
      AddLeft(LeftSum(w, total, n - 1), Left(w, total, n - 1), n - 1, Sum(w) - 1);
    }
  }

  lemma {:induction false} WholeAndLeft(w: seq<nat>, total: nat, k: nat)
    requires k < |w| && Sum(w) > 0
    ensures total * w[k] == Sum(w) * Floor(w, total, k) + Left(w, total, k)
  {}

  lemma {:induction false} AddParts(total: nat, sum: nat, w: nat, x: nat, f: nat, g: nat, l: nat, m: nat)
    requires total * w == sum * f + l && total * x == sum * g + m
    ensures total * (w + x) == sum * (f + g) + (l + m)
  {
    Distribute(total, w, x);
    Distribute(sum, f, g);
  }

  lemma {:induction false} AddLeft(l: nat, m: nat, n: nat, most: nat)
    requires l <= n * most && m <= most
    ensures l + m <= (n + 1) * most
  {}

  lemma {:induction false} Distribute(a: nat, b: nat, c: nat)
    ensures a * (b + c) == a * b + a * c
  {}

  /** The cents to hand out are fewer than the items, and all the remainders together. */
  lemma {:induction false} RestIs(w: seq<nat>, total: nat)
    requires Sum(w) > 0
    ensures FloorSum(w, total, |w|) <= total
    ensures Sum(w) * (total - FloorSum(w, total, |w|)) == LeftSum(w, total, |w|)
    ensures total - FloorSum(w, total, |w|) <= |w|
  {
    PartsAddUp(w, total, |w|);
    assert w[..|w|] == w;
    RestAlgebra(total, Sum(w), FloorSum(w, total, |w|), LeftSum(w, total, |w|), |w|);
  }

  lemma {:induction false} RestAlgebra(total: nat, sum: nat, floors: nat, left: nat, n: nat)
    requires sum > 0 && total * sum == sum * floors + left && left <= n * (sum - 1)
    ensures floors <= total && sum * (total - floors) == left && total - floors <= n
  {
    assert floors * sum <= total * sum;
    Cancel(floors, total, sum);
    Distribute(sum, floors, total - floors);
    assert n * (sum - 1) <= n * sum;
    assert (total - floors) * sum <= n * sum;
    Cancel(total - floors, n, sum);
  }

  /** Cents handed out to the first n items. */
  function Extras(w: seq<nat>, total: nat, shares: seq<nat>, n: nat): nat
    requires n <= |w| == |shares| && Sum(w) > 0
  {
    if n == 0 then 0 else Extras(w, total, shares, n - 1) + (if shares[n - 1] > Floor(w, total, n - 1) then 1 else 0)
  }

  lemma {:induction false} ExtrasAddUp(w: seq<nat>, total: nat, shares: seq<nat>, n: nat)
    requires Sum(w) > 0 && LargestRemainder(w, total, shares) && n <= |w|
    ensures Sum(shares[..n]) == FloorSum(w, total, n) + Extras(w, total, shares, n)
  {
    if n == 0 { assert shares[..0] == []; }
    else {
      ExtrasAddUp(w, total, shares, n - 1);
      assert shares[..n][..n - 1] == shares[..n - 1];
    }
  }

  /** If an exact share got a cent, only extra shares have a remainder, and it has none. */
  lemma {:induction false} LeftAtMostExtras(w: seq<nat>, total: nat, shares: seq<nat>, k: nat, n: nat)
    requires Sum(w) > 0 && LargestRemainder(w, total, shares) && k < |w| && n <= |w|
    requires Left(w, total, k) == 0 && shares[k] > Floor(w, total, k)
    ensures LeftSum(w, total, n) + (if k < n then Sum(w) - 1 else 0) <= (Sum(w) - 1) * Extras(w, total, shares, n)
  {
    if n > 0 {
      LeftAtMostExtras(w, total, shares, k, n - 1);
      var m := n - 1;
      if shares[m] == Floor(w, total, m) { assert Before(w, total, k, m); }
      else { Distribute(Sum(w) - 1, Extras(w, total, shares, m), 1); }
    }
  }

  /** An exact proportion is paid exactly: every share is the floor or the ceiling of its proportion. */
  lemma {:induction false} ExactShare(w: seq<nat>, total: nat, shares: seq<nat>, k: nat)
    requires Sum(w) > 0 && LargestRemainder(w, total, shares) && k < |w|
    ensures Floor(w, total, k) <= shares[k] <= CeilDiv(total * w[k], Sum(w))
  {
    WholeAndLeft(w, total, k);
    CeilOfParts(total * w[k], Floor(w, total, k), Left(w, total, k), Sum(w));
    if Left(w, total, k) == 0 { ExactGetsNone(w, total, shares, k); }
  }

  lemma {:induction false} CeilOfParts(n: nat, q: nat, rest: nat, d: nat)
    requires d > 0 && n == d * q + rest && rest < d
    ensures CeilDiv(n, d) == if rest == 0 then q else q + 1
  {
    if rest == 0 { CeilOfExact(q, d); } else { CeilOfRest(q, rest, d); }
  }

  lemma {:induction false} ExactGetsNone(w: seq<nat>, total: nat, shares: seq<nat>, k: nat)
    requires Sum(w) > 0 && LargestRemainder(w, total, shares) && k < |w| && Left(w, total, k) == 0
    ensures shares[k] == Floor(w, total, k)
  {
    if shares[k] > Floor(w, total, k) {
      LeftAtMostExtras(w, total, shares, k, |w|);
      ExtrasAddUp(w, total, shares, |w|);
      assert shares[..|w|] == shares;
      RestIs(w, total);
      NoExtras(Sum(w), Extras(w, total, shares, |w|), LeftSum(w, total, |w|));
      ExtrasPositive(w, total, shares, k, |w|);
    }
  }

  lemma {:induction false} NoExtras(sum: nat, extras: nat, left: nat)
    requires sum > 0 && left == sum * extras && left + sum - 1 <= (sum - 1) * extras
    ensures extras == 0
  {
    assert sum * extras == (sum - 1) * extras + extras;
  }

  lemma {:induction false} ExtrasPositive(w: seq<nat>, total: nat, shares: seq<nat>, k: nat, n: nat)
    requires k < n <= |w| == |shares| && Sum(w) > 0 && shares[k] > Floor(w, total, k)
    ensures Extras(w, total, shares, n) > 0
  {
    if k < n - 1 { ExtrasPositive(w, total, shares, k, n - 1); }
  }

  lemma {:induction false} CeilOfExact(q: nat, d: nat)
    requires d > 0
    ensures CeilDiv(d * q, d) == q
  {
    CeilDivIs(d * q, d);
    var c := CeilDiv(d * q, d);
    assert q * d <= c * d;
    Cancel(q, c, d);
    if c > q { assert (c - 1) * d < q * d; LessFactor(c - 1, q, d); }
  }

  lemma {:induction false} CeilOfRest(q: nat, rest: nat, d: nat)
    requires 0 < rest < d
    ensures CeilDiv(d * q + rest, d) == q + 1
  {
    CeilDivIs(d * q + rest, d);
    var c := CeilDiv(d * q + rest, d);
    assert q * d < c * d;
    LessFactor(q, c, d);
    assert (c - 1) * d < (q + 1) * d;
    LessFactor(c - 1, q + 1, d);
  }

  // ---- the split -------------------------------------------------------------------------

  lemma {:induction false} OneMoreCent(xs: seq<nat>, k: nat)
    requires k < |xs|
    ensures Sum(xs[k := xs[k] + 1]) == Sum(xs) + 1
    decreases |xs|
  {
    if k < |xs| - 1 {
      OneMoreCent(xs[..|xs| - 1], k);
      assert xs[k := xs[k] + 1][..|xs| - 1] == xs[..|xs| - 1][k := xs[k] + 1];
    } else {
      assert xs[k := xs[k] + 1][..|xs| - 1] == xs[..|xs| - 1];
    }
  }

  lemma {:induction false} FloorsSum(w: seq<nat>, total: nat, floors: seq<nat>, n: nat)
    requires Sum(w) > 0 && |floors| == |w| && n <= |w| && forall k :: 0 <= k < |w| ==> floors[k] == Floor(w, total, k)
    ensures Sum(floors[..n]) == FloorSum(w, total, n)
  {
    if n == 0 { assert floors[..0] == []; }
    else {
      FloorsSum(w, total, floors, n - 1);
      assert floors[..n][..n - 1] == floors[..n - 1];
    }
  }

  /** One number that orders items by larger remainder, then by position. */
  function RankOf(w: seq<nat>, total: nat, k: int): int {
    if 0 <= k < |w| && Sum(w) > 0 then k - Left(w, total, k) * |w| else 0
  }

  lemma {:induction false} RankOrders(w: seq<nat>, total: nat, a: nat, b: nat)
    requires Sum(w) > 0 && a < |w| && b < |w| && a != b && RankOf(w, total, a) <= RankOf(w, total, b)
    ensures Before(w, total, a, b)
  {
    if Left(w, total, a) < Left(w, total, b) { RankAlgebra(a, b, Left(w, total, a), Left(w, total, b), |w|); }
  }

  lemma {:induction false} RankAlgebra(a: nat, b: nat, x: nat, y: nat, n: nat)
    requires a < n && b < n && x < y
    ensures b - y * n < a - x * n
  {
    MultiplyGrows(x + 1, y, n);
    assert (x + 1) * n == x * n + n;
  }

  method ItemShares(lines: seq<Line>, total: nat) returns (result: seq<nat>)
    ensures AreShares(lines, total, result)
  {
    var w := Weights(lines);
    var sum := Sum(w);
    var n := |lines|;
    if sum == 0 {
      return seq(n, k => if k == 0 then total else 0);
    }
    var shares := new nat[n](k requires 0 <= k < n => Floor(w, total, k));
    FloorsSum(w, total, shares[..], n);
    assert shares[..][..n] == shares[..];
    RestIs(w, total);
    var rest := total - Sum(shares[..]);
    var indexes := seq(n, k => k);
    var order, from := SortBy(indexes, k => RankOf(w, total, k));
    OrderedIndexes(w, total, indexes, order, from);
    HandOut(shares, order, rest);
    result := shares[..];
    SharesSplit(w, total, order, rest, result);
  }

  /** One cent more to each of the first `cents` items of the order. */
  method HandOut(shares: array<nat>, order: seq<nat>, cents: nat)
    requires |order| == shares.Length && cents <= |order| && forall k :: 0 <= k < |order| ==> order[k] < shares.Length
    requires forall a, b :: 0 <= a < b < |order| ==> order[a] != order[b]
    modifies shares
    ensures Sum(shares[..]) == Sum(old(shares[..])) + cents
    ensures forall k :: 0 <= k < |order| ==> shares[order[k]] == old(shares[order[k]]) + (if k < cents then 1 else 0)
  {
    var at, rest := 0, cents;
    while at < |order| && rest > 0
      invariant at <= |order| && rest == cents - at
      invariant Sum(shares[..]) == Sum(old(shares[..])) + at
      invariant forall k :: 0 <= k < |order| ==> shares[order[k]] == old(shares[order[k]]) + (if k < at then 1 else 0)
    {
      ghost var before := shares[..];
      OneMoreCent(before, order[at]);
      shares[order[at]] := shares[order[at]] + 1;
      assert shares[..] == before[order[at] := before[order[at]] + 1];
      rest := rest - 1;
      at := at + 1;
    }
  }

  /** Every index once, each before those it outranks. */
  ghost predicate RanksIndexes(w: seq<nat>, total: nat, order: seq<nat>)
    requires Sum(w) > 0
  {
    && |order| == |w| && (forall k :: 0 <= k < |order| ==> order[k] < |w|)
    && (forall a, b :: 0 <= a < b < |order| ==> order[a] != order[b] && Before(w, total, order[a], order[b]))
    && (forall i {:trigger i in order} :: 0 <= i < |w| ==> i in order)
  }

  lemma {:induction false} OrderedIndexes(w: seq<nat>, total: nat, indexes: seq<nat>, order: seq<nat>, from: seq<nat>)
    requires Sum(w) > 0 && |indexes| == |w| && forall k :: 0 <= k < |w| ==> indexes[k] == k
    requires Rearranges(indexes, order, from) && SortedBy(order, k => RankOf(w, total, k)) && multiset(order) == multiset(indexes)
    ensures RanksIndexes(w, total, order)
  {
    forall a, b | 0 <= a < b < |order| ensures order[a] != order[b] && Before(w, total, order[a], order[b]) {
      assert from[a] != from[b];
      assert (k => RankOf(w, total, k))(order[a]) <= (k => RankOf(w, total, k))(order[b]);
      RankOrders(w, total, order[a], order[b]);
    }
    forall i: nat | i < |w| ensures i in order {
      assert indexes[i] in multiset(indexes);
      assert indexes[i] in multiset(order);
    }
  }

  lemma {:induction false} SharesSplit(w: seq<nat>, total: nat, order: seq<nat>, at: nat, shares: seq<nat>)
    requires Sum(w) > 0 && RanksIndexes(w, total, order) && at <= |w| == |shares| && Sum(shares) == total
    requires forall k :: 0 <= k < at ==> shares[order[k]] == Floor(w, total, order[k]) + 1
    requires forall k :: at <= k < |w| ==> shares[order[k]] == Floor(w, total, order[k])
    ensures LargestRemainder(w, total, shares)
  {
    forall i | 0 <= i < |w| ensures Floor(w, total, i) <= shares[i] <= Floor(w, total, i) + 1 {
      assert i in order;
      var k :| 0 <= k < |order| && order[k] == i;
    }
    forall a, b | 0 <= a < |w| && 0 <= b < |w| && shares[a] > Floor(w, total, a) && shares[b] == Floor(w, total, b)
      ensures Before(w, total, a, b)
    {
      assert a in order && b in order;
      var j :| 0 <= j < |order| && order[j] == a;
      var k :| 0 <= k < |order| && order[k] == b;
      assert j < at <= k;
    }
  }

  /** The shares of all items together are the total, to the cent. */
  lemma {:induction false} SharesAddUp(lines: seq<Line>, total: nat, shares: seq<nat>)
    requires AreShares(lines, total, shares) && lines != []
    ensures Sum(shares) == total
  {
    if Sum(Weights(lines)) == 0 { FirstTakesAll(shares, total, |shares|); assert shares[..|shares|] == shares; }
  }

  lemma {:induction false} FirstTakesAll(shares: seq<nat>, total: nat, n: nat)
    requires 0 < n <= |shares| && forall k :: 0 <= k < |shares| ==> shares[k] == if k == 0 then total else 0
    ensures Sum(shares[..n]) == total
  {
    assert shares[..n][..n - 1] == shares[..n - 1];
    if n > 1 { FirstTakesAll(shares, total, n - 1); } else { assert shares[..0] == []; }
  }
}
