/** The company dashboard: its period, the buckets of its chart and the sums it shows. */
module Dashboard {
  import opened Common
  import opened Calendar

  const MAX_CUSTOM_DAYS := 366
  const MAX_DAILY_DAYS := 62

  /** Custom dates are absent when they are not valid dates. */
  datatype Period = Today | SevenDays | ThirtyDays | ThisMonth | ThisYear | Custom(start: Option<Date>, end: Option<Date>)

  datatype Granularity = ByDay | ByMonth

  datatype Range = Range(start: Date, end: Date, previousStart: Date, previousEnd: Date, granularity: Granularity)

  datatype RangeError = InvalidDate | EndBeforeStart | EndsInFuture | TooLong

  predicate RangeFits(r: Range) {
    IsDate(r.start) && IsDate(r.end) && IsDate(r.previousStart) && IsDate(r.previousEnd) && !Earlier(r.end, r.start)
  }

  /** Years before the third are outside this calendar's reach of a previous year. */
  predicate Recent(d: Date) { IsDate(d) && d.year >= 3 }

  lemma {:induction false} RecentDays(d: Date)
    requires Recent(d)
    ensures DayNumber(d) >= 400
  {
    YearsCounted(d.year);
    if d.month > 1 { MonthsGrow(d.year, 1, d.month); }
  }

  predicate CustomRefused(p: Period, today: Date)
    requires IsDate(today)
  {
    p.Custom? && (
      || p.start.None? || p.end.None? || !IsDate(p.start.value) || !IsDate(p.end.value)
      || Earlier(p.end.value, p.start.value) || Earlier(today, p.end.value)
      || DaysBetween(p.start.value, p.end.value) + 1 > MAX_CUSTOM_DAYS)
  }

  /** The window before the range: the same number of days, or the same days of the month or year before. */
  predicate PreviousFits(p: Period, r: Range)
    requires RangeFits(r)
  {
    if p == ThisMonth || p == ThisYear then
      var months := if p == ThisMonth then 1 else 12;
      && MonthIndex(r.previousStart) == MonthIndex(r.start) - months && r.previousStart.day == 1
      && MonthIndex(r.previousEnd) == MonthIndex(r.end) - months
      && r.previousEnd.day == Min(r.end.day, MonthLength(r.previousEnd.year, r.previousEnd.month))
    else
      && DayNumber(r.previousEnd) + 1 == DayNumber(r.start)
      && DaysBetween(r.previousStart, r.previousEnd) == DaysBetween(r.start, r.end)
  }

  predicate StartFits(p: Period, r: Range)
    requires RangeFits(r)
  {
    match p
    case Today => r.start == r.end
    case SevenDays => DaysBetween(r.start, r.end) == 6
    case ThirtyDays => DaysBetween(r.start, r.end) == 29
    case ThisMonth => r.start == Date(r.end.year, r.end.month, 1)
    case ThisYear => r.start == Date(r.end.year, 1, 1)
    case Custom(start, end) => start == Some(r.start) && end == Some(r.end)
  }

  /** Days the period covers. */
  method ResolveDays(p: Period, today: Date) returns (result: Result<(Date, Date), RangeError>)
    requires Recent(today)
    ensures result.Failure? <==> CustomRefused(p, today)
    ensures result.Success? ==> (
      var (start, end) := result.value;
      && IsDate(start) && IsDate(end) && !Earlier(end, start) && !Earlier(today, end) && (!p.Custom? ==> end == today)
      && (p.Custom? ==> p.start == Some(start) && p.end == Some(end))
      && (p == Today ==> start == end) && (p == SevenDays ==> DaysBetween(start, end) == 6)
      && (p == ThirtyDays ==> DaysBetween(start, end) == 29)
      && (p == ThisMonth ==> start == Date(end.year, end.month, 1)) && (p == ThisYear ==> start == Date(end.year, 1, 1)))
  {
    RecentDays(today);
    var start, end := today, today;
    match p {
      case Today =>
      case SevenDays => start := AddDays(today, -6); DayNumberOrders(end, start);
      case ThirtyDays => start := AddDays(today, -29); DayNumberOrders(end, start);
      case ThisMonth => start := Date(today.year, today.month, 1);
      case ThisYear => start := Date(today.year, 1, 1);
      case Custom(first, last) =>
        if first.None? || last.None? || !IsDate(first.value) || !IsDate(last.value) { return Failure(InvalidDate); }
        start, end := first.value, last.value;
        if Earlier(end, start) { return Failure(EndBeforeStart); }
        if Earlier(today, end) { return Failure(EndsInFuture); }
        if DaysBetween(start, end) + 1 > MAX_CUSTOM_DAYS { return Failure(TooLong); }
    }
    return Success((start, end));
  }

  /** Every accepted range ends today or earlier, and its previous window lies wholly before it. */
  method ResolveRange(p: Period, today: Date) returns (result: Result<Range, RangeError>)
    requires Recent(today) && (p.Custom? && p.start.Some? ==> p.start.value.year >= 3)
    ensures result.Failure? <==> CustomRefused(p, today)
    ensures result.Success? ==> RangeFits(result.value)
    ensures result.Success? ==> var r := result.value;
      && StartFits(p, r) && PreviousFits(p, r) && !Earlier(today, r.end) && (!p.Custom? ==> r.end == today)
      && !Earlier(r.previousEnd, r.previousStart) && Earlier(r.previousEnd, r.start)
      && (r.granularity == ByMonth <==> DaysBetween(r.start, r.end) + 1 > MAX_DAILY_DAYS)
  {
    var days := ResolveDays(p, today);
    if days.Failure? { return Failure(days.error); }
    var (start, end) := days.value;
    var granularity := if DaysBetween(start, end) + 1 > MAX_DAILY_DAYS then ByMonth else ByDay;
    if p == ThisMonth || p == ThisYear {
      var months := if p == ThisMonth then 1 else 12;
      ShiftedBefore(start, end, months);
      return Success(Range(start, end, ShiftMonths(start, -months), ShiftMonths(end, -months), granularity));
    }
    ShortWindow(p, today, start, end);
    var (first, last) := WindowBefore(start, DaysBetween(start, end) + 1);
    return Success(Range(start, end, first, last, granularity));
  }

  lemma {:induction false} ShortWindow(p: Period, today: Date, start: Date, end: Date)
    requires Recent(today) && IsDate(start) && IsDate(end) && !Earlier(end, start)
    requires if p.Custom? then start.year >= 3 && DaysBetween(start, end) + 1 <= MAX_CUSTOM_DAYS
      else end == today && DaysBetween(start, end) <= 29
    ensures 1 <= DaysBetween(start, end) + 1 <= DayNumber(start)
  {
    RecentDays(today);
    if p.Custom? { RecentDays(start); }
    DayNumberOrders(end, start);
  }

  lemma {:induction false} ShiftedBefore(start: Date, end: Date, months: int)
    requires Recent(start) && IsDate(end) && !Earlier(end, start) && start.day == 1 && end.year == start.year
    requires (months == 1 && start.month == end.month) || (months == 12 && start.month == 1)
    ensures MonthIndex(start) - months >= 0 && MonthIndex(end) - months >= 0
    ensures !Earlier(ShiftMonths(end, -months), ShiftMonths(start, -months)) && Earlier(ShiftMonths(end, -months), start)
  {
    MonthIndexOrders(ShiftMonths(end, -months), start);
    MonthIndexOrders(ShiftMonths(start, -months), ShiftMonths(end, -months));
  }

  /** The days before a date, as many as given. */
  function WindowBefore(start: Date, length: nat): (r: (Date, Date))
    requires IsDate(start) && 1 <= length <= DayNumber(start)
    ensures IsDate(r.0) && IsDate(r.1) && !Earlier(r.1, r.0) && Earlier(r.1, start)
    ensures DayNumber(r.1) + 1 == DayNumber(start) && DaysBetween(r.0, r.1) + 1 == length
  {
    var last, first := AddDays(start, -1), AddDays(start, 0 - length);
    DayNumberOrders(last, first);
    DayNumberOrders(last, start);
    (first, last)
  }

  // ---- buckets ---------------------------------------------------------------------------

  /** A day, or a month counted from year 0. */
  datatype Label = DayLabel(date: Date) | MonthLabel(index: int)

  function LabelOf(g: Granularity, d: Date): Label {
    if g == ByDay then DayLabel(d) else MonthLabel(MonthIndex(d))
  }

  predicate InRange(r: Range, d: Date) { IsDate(d) && !Earlier(d, r.start) && !Earlier(r.end, d) }

  /** Every day of the range, or every month that has one of its days, in order. */
  predicate AreBuckets(r: Range, labels: seq<Label>)
    requires RangeFits(r)
  {
    if r.granularity == ByDay then
      && |labels| == DaysBetween(r.start, r.end) + 1
      && forall k :: 0 <= k < |labels| ==> (
           labels[k].DayLabel? && IsDate(labels[k].date) && DayNumber(labels[k].date) == DayNumber(r.start) + k)
    else
      && |labels| == MonthIndex(r.end) - MonthIndex(r.start) + 1
      && forall k :: 0 <= k < |labels| ==> labels[k] == MonthLabel(MonthIndex(r.start) + k)
  }

  method Buckets(r: Range) returns (labels: seq<Label>)
    requires RangeFits(r)
    ensures AreBuckets(r, labels)
  {
    if r.granularity == ByDay { labels := DayBuckets(r); } else { labels := MonthBuckets(r); }
  }

  method DayBuckets(r: Range) returns (labels: seq<Label>)
    requires RangeFits(r) && r.granularity == ByDay
    ensures AreBuckets(r, labels)
  {
    labels := [];
    DayNumberOrders(r.end, r.start);
    var date := r.start;
    while !Earlier(r.end, date)
      invariant IsDate(date) && DayNumber(date) == DayNumber(r.start) + |labels|
      invariant DayNumber(date) <= DayNumber(r.end) + 1
      invariant forall k :: 0 <= k < |labels| ==> (
        labels[k].DayLabel? && IsDate(labels[k].date) && DayNumber(labels[k].date) == DayNumber(r.start) + k)
      decreases DayNumber(r.end) - DayNumber(date)
    {
      DayNumberOrders(r.end, date);
      labels := labels + [DayLabel(date)];
      FirstDay(date);
      date := AddDays(date, 1);
    }
    DayNumberOrders(r.end, date);
  }

  method MonthBuckets(r: Range) returns (labels: seq<Label>)
    requires RangeFits(r) && r.granularity == ByMonth
    ensures AreBuckets(r, labels)
  {
    labels := [];
    MonthIndexOrders(r.start, r.end);
    var month := MonthIndex(r.start);
    while month <= MonthIndex(r.end)
      invariant month == MonthIndex(r.start) + |labels| && month <= MonthIndex(r.end) + 1
      invariant forall k :: 0 <= k < |labels| ==> labels[k] == MonthLabel(MonthIndex(r.start) + k)
    {
      labels := labels + [MonthLabel(month)];
      month := month + 1;
    }
  }

  /** Position of the bucket of a date. */
  function BucketOf(r: Range, d: Date): int
    requires RangeFits(r) && IsDate(d)
  {
    if r.granularity == ByDay then DaysBetween(r.start, d) else MonthIndex(d) - MonthIndex(r.start)
  }

  /** A date of the range belongs to exactly one bucket, and a date outside a daily range to none. */
  lemma {:induction false} OneBucket(r: Range, labels: seq<Label>, d: Date)
    requires RangeFits(r) && AreBuckets(r, labels) && InRange(r, d)
    ensures 0 <= BucketOf(r, d) < |labels| && labels[BucketOf(r, d)] == LabelOf(r.granularity, d)
    ensures forall k :: 0 <= k < |labels| && labels[k] == LabelOf(r.granularity, d) ==> k == BucketOf(r, d)
  {
    DayNumberOrders(d, r.start);
    DayNumberOrders(r.end, d);
    DayNumberOrders(r.start, r.end);
    MonthIndexOrders(r.start, d);
    MonthIndexOrders(d, r.end);
    if r.granularity == ByDay { DayNumberOrders(labels[BucketOf(r, d)].date, d); }
  }

  /** No bucket is empty of days: each is the bucket of some date of the range. */
  lemma {:induction false} NoBucketOutside(r: Range, labels: seq<Label>, k: nat) returns (d: Date)
    requires RangeFits(r) && AreBuckets(r, labels) && k < |labels|
    ensures InRange(r, d) && LabelOf(r.granularity, d) == labels[k]
  {
    if r.granularity == ByDay {
      d := labels[k].date;
      DayNumberOrders(d, r.start);
      DayNumberOrders(r.end, d);
    } else if k == 0 {
      d := r.start;
    } else {
      var index := MonthIndex(r.start) + k;
      d := Date(index / 12, index % 12 + 1, 1);
      MonthIndexOrders(r.start, d);
      MonthIndexOrders(d, r.end);
    }
  }

  /** The instants queried are exactly those whose date is in the range. */
  lemma {:induction false} WindowIsRange(r: Range, t: int)
    requires RangeFits(r) && InCalendar(t) && DayNumber(r.start) >= 0 && DayNumber(r.end) >= 0
    ensures SaoPauloStart(r.start) <= t < SaoPauloStart(AddDays(r.end, 1)) <==> InRange(r, SaoPauloDate(t))
  {
    var d := SaoPauloDate(t);
    DayNumberOrders(d, r.start);
    DayNumberOrders(r.end, d);
    NextStart(r.end);
    WholeDays(t - SAO_PAULO_OFFSET_MS, DayNumber(d) - EPOCH);
  }

  // ---- received series --------------------------------------------------------------------

  datatype Method = Pix | Boleto | Card

  /** A paid invoice: when, how much, and how, if that is known. */
  datatype Paid = Paid(at: int, cents: nat, how: Option<Method>)

  datatype Cell = Cell(cents: nat, count: nat)

  const EMPTY := Cell(0, 0)

  function Add(c: Cell, cents: nat): Cell { Cell(c.cents + cents, c.count + 1) }

  function Total(cells: seq<Cell>): Cell {
    if cells == [] then EMPTY else
    var before := Total(cells[..|cells| - 1]);
    Cell(before.cents + cells[|cells| - 1].cents, before.count + cells[|cells| - 1].count)
  }

  function Received(paid: seq<Paid>): Cell {
    if paid == [] then EMPTY else Add(Received(paid[..|paid| - 1]), paid[|paid| - 1].cents)
  }

  predicate AllInRange(r: Range, paid: seq<Paid>)
    requires RangeFits(r)
  {
    forall n :: 0 <= n < |paid| ==> InCalendar(paid[n].at) && InRange(r, SaoPauloDate(paid[n].at))
  }

  /** What was received on the dates of one bucket. */
  function ReceivedIn(r: Range, paid: seq<Paid>, k: int): Cell
    requires RangeFits(r) && AllInRange(r, paid)
  {
    if paid == [] then EMPTY else
    var last := paid[|paid| - 1];
    var before := ReceivedIn(r, paid[..|paid| - 1], k);
    if BucketOf(r, SaoPauloDate(last.at)) == k then Add(before, last.cents) else before
  }

  lemma {:induction false} TotalAdd(cells: seq<Cell>, k: nat, cents: nat)
    requires k < |cells|
    ensures Total(cells[k := Add(cells[k], cents)]) == Add(Total(cells), cents)
    decreases |cells|
  {
    var after := cells[k := Add(cells[k], cents)];
    if k < |cells| - 1 {
      TotalAdd(cells[..|cells| - 1], k, cents);
      assert after[..|cells| - 1] == cells[..|cells| - 1][k := Add(cells[k], cents)];
    } else {
      assert after[..|cells| - 1] == cells[..|cells| - 1];
    }
  }

  lemma {:induction false} TotalEmpty(cells: seq<Cell>)
    requires forall k :: 0 <= k < |cells| ==> cells[k] == EMPTY
    ensures Total(cells) == EMPTY
    decreases |cells|
  {
    if cells != [] { TotalEmpty(cells[..|cells| - 1]); }
  }

  /** One cell a bucket, and together they are everything received. */
  predicate SeriesOf(r: Range, paid: seq<Paid>, series: seq<Cell>, received: Cell)
    requires RangeFits(r) && AllInRange(r, paid)
  {
    && received == Received(paid) && Total(series) == received && received.count == |paid|
    && forall k :: 0 <= k < |series| ==> series[k] == ReceivedIn(r, paid, k)
  }

  /** The chart of the period. */
  method ReceivedSeries(r: Range, paid: seq<Paid>) returns (labels: seq<Label>, series: seq<Cell>, received: Cell)
    requires RangeFits(r) && AllInRange(r, paid)
    ensures AreBuckets(r, labels) && |series| == |labels| && SeriesOf(r, paid, series, received)
  {
    labels := Buckets(r);
    series := seq(|labels|, _ => EMPTY);
    received := EMPTY;
    TotalEmpty(series);
    for n := 0 to |paid|
      invariant |series| == |labels| && AllInRange(r, paid[..n]) && SeriesOf(r, paid[..n], series, received)
    {
      assert paid[..n + 1] == paid[..n] + [paid[n]];
      series, received := AddPaid(r, labels, paid[..n], paid[n], series, received);
    }
    assert paid[..|paid|] == paid;
  }

  method AddPaid(r: Range, labels: seq<Label>, ghost front: seq<Paid>, last: Paid, series: seq<Cell>, received: Cell)
    returns (more: seq<Cell>, total: Cell)
    requires RangeFits(r) && AreBuckets(r, labels) && |series| == |labels|
    requires AllInRange(r, front) && SeriesOf(r, front, series, received)
    requires InCalendar(last.at) && InRange(r, SaoPauloDate(last.at))
    ensures |more| == |labels| && AllInRange(r, front + [last]) && SeriesOf(r, front + [last], more, total)
  {
    var k := FindBucket(r, labels, SaoPauloDate(last.at));
    SeriesStep(r, front, last, series, k, received);
    more, total := series[k := Add(series[k], last.cents)], Add(received, last.cents);
  }

  method FindBucket(r: Range, labels: seq<Label>, d: Date) returns (k: nat)
    requires RangeFits(r) && AreBuckets(r, labels) && InRange(r, d)
    ensures k < |labels| && k == BucketOf(r, d)
  {
    OneBucket(r, labels, d);
    k := FindLabel(labels, LabelOf(r.granularity, d));
  }

  lemma {:induction false} SeriesStep(r: Range, front: seq<Paid>, last: Paid, series: seq<Cell>, k: nat, received: Cell)
    requires RangeFits(r) && AllInRange(r, front) && InCalendar(last.at) && InRange(r, SaoPauloDate(last.at))
    requires k < |series| && k == BucketOf(r, SaoPauloDate(last.at)) && SeriesOf(r, front, series, received)
    ensures AllInRange(r, front + [last])
    ensures SeriesOf(r, front + [last], series[k := Add(series[k], last.cents)], Add(received, last.cents))
  {
    assert (front + [last])[..|front|] == front;
    TotalAdd(series, k, last.cents);
  }

  method FindLabel(labels: seq<Label>, wanted: Label) returns (k: nat)
    ensures k < |labels| ==> labels[k] == wanted
    ensures k >= |labels| ==> wanted !in labels
  {
    k := 0;
    while k < |labels| && labels[k] != wanted
      invariant k <= |labels| && forall j :: 0 <= j < k ==> labels[j] != wanted
    {
      k := k + 1;
    }
  }

  /** A payment more is counted in its own day or month, for what was paid, and nowhere else. */
  lemma {:induction false} ReceivedMeans(r: Range, labels: seq<Label>, paid: seq<Paid>, last: Paid, k: nat)
    requires RangeFits(r) && AreBuckets(r, labels) && AllInRange(r, paid + [last]) && AllInRange(r, paid) && k < |labels|
    ensures Received(paid + [last]) == Cell(Received(paid).cents + last.cents, Received(paid).count + 1)
    ensures Received([]) == ReceivedIn(r, [], k) == Cell(0, 0)
    ensures var d, before := SaoPauloDate(last.at), ReceivedIn(r, paid, k);
      ReceivedIn(r, paid + [last], k) ==
        if labels[k] == (if r.granularity == ByDay then DayLabel(d) else MonthLabel(d.year * 12 + d.month - 1))
        then Cell(before.cents + last.cents, before.count + 1) else before
  {
    var all := paid + [last];
    assert all[..|paid|] == paid && all[|paid|] == last;
    OneBucket(r, labels, SaoPauloDate(last.at));
  }

  function MethodIndex(m: Method): nat { match m case Pix => 0 case Boleto => 1 case Card => 2 }

  predicate AllKnown(paid: seq<Paid>) { forall n :: 0 <= n < |paid| ==> paid[n].how.Some? }

  function PaidBy(paid: seq<Paid>, k: nat): Cell {
    if paid == [] then EMPTY else
    var last, before := paid[|paid| - 1], PaidBy(paid[..|paid| - 1], k);
    if last.how.Some? && MethodIndex(last.how.value) == k then Add(before, last.cents) else before
  }

  /** One cell a method, with what was paid by it. */
  predicate MethodCells(paid: seq<Paid>, cells: seq<Cell>) {
    |cells| == 3 && forall k :: 0 <= k < 3 ==> cells[k] == PaidBy(paid, k)
  }

  method ByMethod(paid: seq<Paid>) returns (cells: seq<Cell>)
    ensures MethodCells(paid, cells)
  {
    cells := [EMPTY, EMPTY, EMPTY];
    for n := 0 to |paid|
      invariant MethodCells(paid[..n], cells)
    {
      assert paid[..n + 1][..n] == paid[..n];
      if paid[n].how.Some? {
        var k := MethodIndex(paid[n].how.value);
        cells := cells[k := Add(cells[k], paid[n].cents)];
      }
    }
    assert paid[..|paid|] == paid;
  }

  /** The first cell is Pix, the second boleto, the third card; a payment more is counted in one if its method is known. */
  lemma {:induction false} MethodMeans(paid: seq<Paid>, last: Paid, k: nat)
    requires k < 3
    ensures PaidBy([], k) == Cell(0, 0)
    ensures var before, how := PaidBy(paid, k), if k == 0 then Pix else if k == 1 then Boleto else Card;
      PaidBy(paid + [last], k) == if last.how == Some(how) then Cell(before.cents + last.cents, before.count + 1) else before
  {
    var all := paid + [last];
    assert all[..|paid|] == paid && all[|paid|] == last;
  }

  /** The methods never add up to more than was received, and to all of it when every method is known. */
  lemma {:induction false} MethodsAddUp(paid: seq<Paid>, cells: seq<Cell>)
    requires MethodCells(paid, cells)
    ensures Total(cells).cents <= Received(paid).cents && Total(cells).count <= Received(paid).count
    ensures AllKnown(paid) ==> Total(cells) == Received(paid)
  {
    ThreeCells(cells);
    MethodSums(paid);
  }

  lemma {:induction false} ThreeCells(cells: seq<Cell>)
    requires |cells| == 3
    ensures Total(cells) == Cell(cells[0].cents + cells[1].cents + cells[2].cents, cells[0].count + cells[1].count + cells[2].count)
  {
    var two, one := cells[..2], cells[..1];
    assert two[..1] == one && one[..0] == [];
    assert Total(one) == cells[0];
  }

  lemma {:induction false} MethodSums(paid: seq<Paid>)
    ensures PaidBy(paid, 0).cents + PaidBy(paid, 1).cents + PaidBy(paid, 2).cents <= Received(paid).cents
    ensures PaidBy(paid, 0).count + PaidBy(paid, 1).count + PaidBy(paid, 2).count <= Received(paid).count
    ensures AllKnown(paid) ==>
      && PaidBy(paid, 0).cents + PaidBy(paid, 1).cents + PaidBy(paid, 2).cents == Received(paid).cents
      && PaidBy(paid, 0).count + PaidBy(paid, 1).count + PaidBy(paid, 2).count == Received(paid).count
    decreases |paid|
  {
    if paid != [] { MethodSums(paid[..|paid| - 1]); }
  }

  // ---- overdue aging ---------------------------------------------------------------------

  datatype Open = Open(due: Date, cents: nat)

  /** Days overdue: up to 15, 30, 60 and beyond. */
  function AgeIndex(days: int): nat { if days <= 15 then 0 else if days <= 30 then 1 else if days <= 60 then 2 else 3 }

  predicate IsOverdue(o: Open, today: Date) { Earlier(o.due, today) }

  function Overdue(pending: seq<Open>, today: Date): Cell {
    if pending == [] then EMPTY else
    var before := Overdue(pending[..|pending| - 1], today);
    var last := pending[|pending| - 1];
    if IsOverdue(last, today) then Add(before, last.cents) else before
  }

  function OpenTotal(pending: seq<Open>): Cell {
    if pending == [] then EMPTY else Add(OpenTotal(pending[..|pending| - 1]), pending[|pending| - 1].cents)
  }

  function OverdueAged(pending: seq<Open>, today: Date, k: nat): Cell
    requires IsDate(today) && forall n :: 0 <= n < |pending| ==> IsDate(pending[n].due)
  {
    if pending == [] then EMPTY else
    var before := OverdueAged(pending[..|pending| - 1], today, k);
    var last := pending[|pending| - 1];
    if IsOverdue(last, today) && AgeIndex(DaysBetween(last.due, today)) == k then Add(before, last.cents) else before
  }

  /** An open invoice more is overdue from the day after it was due, and is counted in the age of its days. */
  lemma {:induction false} AgedMeans(pending: seq<Open>, last: Open, today: Date, k: nat)
    requires IsDate(today) && IsDate(last.due) && (forall n :: 0 <= n < |pending| ==> IsDate(pending[n].due)) && k < 4
    ensures OpenTotal([]) == Overdue([], today) == OverdueAged([], today, k) == Cell(0, 0)
    ensures OpenTotal(pending + [last]) == Cell(OpenTotal(pending).cents + last.cents, OpenTotal(pending).count + 1)
    ensures var before, days := Overdue(pending, today), DayNumber(today) - DayNumber(last.due);
      Overdue(pending + [last], today) == if days >= 1 then Cell(before.cents + last.cents, before.count + 1) else before
    ensures (forall n :: 0 <= n < |pending + [last]| ==> IsDate((pending + [last])[n].due)) ==> (
      var before, days := OverdueAged(pending, today, k), DayNumber(today) - DayNumber(last.due);
      OverdueAged(pending + [last], today, k) ==
        if (k == 0 && 1 <= days <= 15) || (k == 1 && 16 <= days <= 30) || (k == 2 && 31 <= days <= 60) || (k == 3 && days >= 61)
        then Cell(before.cents + last.cents, before.count + 1) else before)
  {
    var all := pending + [last];
    assert all[..|pending|] == pending && all[|pending|] == last;
    DayNumberOrders(last.due, today);
  }

  /** What is open, what of it is overdue, and for how long; the ages add up to the overdue total. */
  method Aging(pending: seq<Open>, today: Date) returns (open: Cell, overdue: Cell, aging: seq<Cell>)
    requires IsDate(today) && forall n :: 0 <= n < |pending| ==> IsDate(pending[n].due)
    ensures open == OpenTotal(pending) && overdue == Overdue(pending, today)
    ensures |aging| == 4 && Total(aging) == overdue
    ensures forall k :: 0 <= k < 4 ==> aging[k] == OverdueAged(pending, today, k)
    ensures overdue.cents <= open.cents && overdue.count <= open.count == |pending|
  {
    open, overdue := EMPTY, EMPTY;
    aging := [EMPTY, EMPTY, EMPTY, EMPTY];
    TotalEmpty(aging);
    for n := 0 to |pending|
      invariant open == OpenTotal(pending[..n]) && overdue == Overdue(pending[..n], today) == Total(aging) && |aging| == 4
      invariant forall k :: 0 <= k < 4 ==> aging[k] == OverdueAged(pending[..n], today, k)
      invariant overdue.cents <= open.cents && overdue.count <= open.count == n
    {
      assert pending[..n + 1] == pending[..n] + [pending[n]];
      AgingStep(pending[..n], pending[n], today, aging);
      open := Add(open, pending[n].cents);
      if Earlier(pending[n].due, today) {
        overdue := Add(overdue, pending[n].cents);
        var k := AgeIndex(DaysBetween(pending[n].due, today));
        aging := aging[k := Add(aging[k], pending[n].cents)];
      }
    }
    assert pending[..|pending|] == pending;
  }

  lemma {:induction false} AgingStep(front: seq<Open>, last: Open, today: Date, aging: seq<Cell>)
    requires IsDate(today) && IsDate(last.due) && forall n :: 0 <= n < |front| ==> IsDate(front[n].due)
    requires |aging| == 4 && Overdue(front, today) == Total(aging)
    requires forall k :: 0 <= k < 4 ==> aging[k] == OverdueAged(front, today, k)
    ensures var all, k := front + [last], AgeIndex(DaysBetween(last.due, today));
      var after := if IsOverdue(last, today) then aging[k := Add(aging[k], last.cents)] else aging;
      && OpenTotal(all) == Add(OpenTotal(front), last.cents)
      && Overdue(all, today) == Total(after) == (if IsOverdue(last, today) then Add(Overdue(front, today), last.cents) else Overdue(front, today))
      && forall j :: 0 <= j < 4 ==> after[j] == OverdueAged(all, today, j)
  {
    assert (front + [last])[..|front|] == front;
    TotalAdd(aging, AgeIndex(DaysBetween(last.due, today)), last.cents);
  }
}
