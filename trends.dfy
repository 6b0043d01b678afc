/**
 * The daily trend report of app/api/metrics/trends/route.ts: tickets are
 * folded into a dictionary keyed by calendar day whose counters are bumped
 * in place, then the entries are sorted by date.
 */
module Trends {
  import Text
  import Tally
  import opened Tickets

  /** The columns the route selects: `created_at, tier, severity, guardrail_blocked`. */
  datatype TicketRow = TicketRow(createdAt: string, tier: TierValue, severity: string, guardrailBlocked: bool)

  /** One day of the report. */
  datatype DayTrend = DayTrend(date: string, total: nat, tier1: nat, tier2: nat, highSeverity: nat, blocked: nat)

  /** `iso.split("T")[0]`: the text before the first `T`, or all of it. */
  function DayOf(iso: string): (day: string)
    ensures |day| <= |iso| && day == iso[..|day|] && 'T' !in day
    ensures |day| < |iso| ==> iso[|day|] == 'T'
  {
    if iso == [] || iso[0] == 'T' then [] else [iso[0]] + DayOf(iso[1..])
  }

  function RowDay(t: TicketRow): string {
    DayOf(t.createdAt)
  }

  predicate IsTier1(t: TierValue) {
    t == Num(1) || t == Label("TIER_1")
  }

  predicate IsTier2(t: TierValue) {
    t == Num(2) || t == Label("TIER_2")
  }

  predicate IsHighSeverity(severity: string) {
    severity == "HIGH" || severity == "High"
  }

  /**
   * The counters of one day after a ticket of that day is added: the total
   * grows by one, and the ticket adds to at most one of the two tier
   * counters and at most one to each other counter.
   */
  function Add(e: DayTrend, t: TicketRow): (r: DayTrend)
    ensures r.date == e.date && r.total == e.total + 1
    ensures e.tier1 + e.tier2 <= r.tier1 + r.tier2 <= e.tier1 + e.tier2 + 1
    ensures e.highSeverity <= r.highSeverity <= e.highSeverity + 1
    ensures e.blocked <= r.blocked <= e.blocked + 1
  {
    DayTrend(e.date, e.total + 1,
      e.tier1 + (if IsTier1(t.tier) then 1 else 0),
      e.tier2 + (if IsTier2(t.tier) then 1 else 0),
      e.highSeverity + (if IsHighSeverity(t.severity) then 1 else 0),
      e.blocked + (if t.guardrailBlocked then 1 else 0))
  }

  /**
   * The entry for `day` that the tickets `rows` give, processed in order:
   * dated `day`, with the tier counters together and each other counter
   * bounded by the total.
   */
  function DayTotals(rows: seq<TicketRow>, day: string): (e: DayTrend)
    ensures e.date == day
    ensures e.tier1 + e.tier2 <= e.total && e.highSeverity <= e.total && e.blocked <= e.total
  {
    if rows == [] then DayTrend(day, 0, 0, 0, 0, 0)
    else
      var prev := DayTotals(rows[..|rows| - 1], day);
      var t := rows[|rows| - 1];
      if RowDay(t) == day then Add(prev, t) else prev
  }

  /** The days that occur among the tickets. */
  function Days(rows: seq<TicketRow>): set<string> {
    Tally.Keys(rows, RowDay)
  }

  /** A day's `total` counts the tickets of that day. */
  lemma {:induction false} DayTotalsCounts(rows: seq<TicketRow>, day: string)
    ensures DayTotals(rows, day).total == Tally.CountKey(rows, RowDay, day)
  {
    if rows != [] {
      DayTotalsCounts(rows[..|rows| - 1], day);
    }
  }

  /**
   * `trends` and `order` are what counting the tickets `rows` gives: one
   * entry per day met, holding that day's totals, and each day listed once.
   */
  predicate Tallied(rows: seq<TicketRow>, trends: map<string, DayTrend>, order: seq<string>) {
    && trends.Keys == Days(rows)
    && (forall d :: d in trends ==> trends[d] == DayTotals(rows, d))
    && Tally.Distinct(order)
    && (forall j :: 0 <= j < |order| ==> order[j] in trends)
    && (forall d :: d in trends ==> d in order)
  }

  /**
   * The counting loop. The dictionary `trends` is updated in place; `order`
   * records the order in which days were first met, as `Object.values`
   * lists them.
   */
  method Aggregate(rows: seq<TicketRow>) returns (trends: map<string, DayTrend>, order: seq<string>)
    ensures Tallied(rows, trends, order)
  {
    trends := map[];
    order := [];
    NothingTallied(rows);
    for i := 0 to |rows|
      invariant Tallied(rows[..i], trends, order)
    {
      ghost var before, orderBefore := trends, order;
      trends, order := CountTicket(trends, order, rows[i]);
      CountTicketKeepsTally(rows, i, before, orderBefore, trends, order);
    }
    assert rows[..|rows|] == rows;
  }

  lemma NothingTallied(rows: seq<TicketRow>)
    ensures Tallied(rows[..0], map[], [])
  {
    assert Days(rows[..0]) == {};
  }

  /** Counting one more ticket, as `CountTicket` does, keeps the tally exact. */
  lemma CountTicketKeepsTally(rows: seq<TicketRow>, i: nat,
                              trends: map<string, DayTrend>, order: seq<string>,
                              trends': map<string, DayTrend>, order': seq<string>)
    requires i < |rows|
    requires Tallied(rows[..i], trends, order)
    requires var day := RowDay(rows[i]);
      && trends'.Keys == trends.Keys + {day}
      && trends'[day] == Add(if day in trends then trends[day] else DayTrend(day, 0, 0, 0, 0, 0), rows[i])
      && (forall d :: d in trends && d != day ==> trends'[d] == trends[d])
      && order' == if day in trends then order else order + [day]
    ensures Tallied(rows[..i + 1], trends', order')
  {
    var done, t := rows[..i], rows[i];
    assert rows[..i + 1] == done + [t];
    var day := RowDay(t);
    Tally.KeysSnoc(done, t, RowDay);
    if day !in trends {
      Tally.CountKeyPositive(done, RowDay, day);
      NoTicketsNoCounts(done, day);
    }
    forall d | d in trends'
      ensures trends'[d] == DayTotals(done + [t], d)
    {
      DayTotalsSnoc(done, t, d);
    }
    OrderKept(trends, order, trends', order', day);
  }

  /** A new day is listed once more at the end; a known day leaves the listing as it was. */
  lemma OrderKept(trends: map<string, DayTrend>, order: seq<string>,
                  trends': map<string, DayTrend>, order': seq<string>, day: string)
    requires Tally.Distinct(order)
    requires (forall j :: 0 <= j < |order| ==> order[j] in trends) && (forall d :: d in trends ==> d in order)
    requires trends'.Keys == trends.Keys + {day}
    requires order' == if day in trends then order else order + [day]
    ensures Tally.Distinct(order')
    ensures (forall j :: 0 <= j < |order'| ==> order'[j] in trends') && (forall d :: d in trends' ==> d in order')
  {
  }

  /**
   * The `forEach` callback: create the ticket's day with all counters at
   * zero if it is new, then bump its counters. No other day changes.
   */
  method CountTicket(trends: map<string, DayTrend>, order: seq<string>, t: TicketRow)
    returns (trends': map<string, DayTrend>, order': seq<string>)
    ensures var day := RowDay(t);
      && trends'.Keys == trends.Keys + {day}
      && trends'[day] == Add(if day in trends then trends[day] else DayTrend(day, 0, 0, 0, 0, 0), t)
      && (forall d :: d in trends && d != day ==> trends'[d] == trends[d])
      && order' == if day in trends then order else order + [day]
  {
    var day := DayOf(t.createdAt);
    trends', order' := trends, order;
    if day !in trends' {
      trends' := trends'[day := DayTrend(day, 0, 0, 0, 0, 0)];
      order' := order' + [day];
    }
    var e := trends'[day];
    e := e.(total := e.total + 1);
    if t.tier == Num(1) || t.tier == Label("TIER_1") {
      e := e.(tier1 := e.tier1 + 1);
    }
    if t.tier == Num(2) || t.tier == Label("TIER_2") {
      e := e.(tier2 := e.tier2 + 1);
    }
    if t.severity == "HIGH" || t.severity == "High" {
      e := e.(highSeverity := e.highSeverity + 1);
    }
    if t.guardrailBlocked {
      e := e.(blocked := e.blocked + 1);
    }
    trends' := trends'[day := e];
  }

  lemma DayTotalsSnoc(rows: seq<TicketRow>, t: TicketRow, day: string)
    ensures DayTotals(rows + [t], day)
         == if RowDay(t) == day then Add(DayTotals(rows, day), t) else DayTotals(rows, day)
  {
    assert (rows + [t])[..|rows|] == rows;
  }

  /** A day with no tickets still has all its counters at zero. */
  lemma {:induction false} NoTicketsNoCounts(rows: seq<TicketRow>, day: string)
    requires Tally.CountKey(rows, RowDay, day) == 0
    ensures DayTotals(rows, day) == DayTrend(day, 0, 0, 0, 0, 0)
  {
    if rows != [] {
      NoTicketsNoCounts(rows[..|rows| - 1], day);
    }
  }

  /** Each entry's date comes strictly before the next one's. */
  predicate Ascending(xs: seq<DayTrend>) {
    forall i :: 0 <= i < |xs| - 1 ==> Text.StrLess(xs[i].date, xs[i + 1].date)
  }

  /** Every earlier entry's date comes strictly before every later one's. */
  predicate StrictlyOrdered(xs: seq<DayTrend>) {
    forall i, j :: 0 <= i < j < |xs| ==> Text.StrLess(xs[i].date, xs[j].date)
  }

  predicate DistinctDates(xs: seq<DayTrend>) {
    forall i, j :: 0 <= i < j < |xs| ==> xs[i].date != xs[j].date
  }

  /** Places `x` before the first entry whose date does not precede it. */
  function InsertByDate(x: DayTrend, xs: seq<DayTrend>): (r: seq<DayTrend>)
    requires Ascending(xs)
    requires forall i :: 0 <= i < |xs| ==> xs[i].date != x.date
    ensures Ascending(r)
    ensures multiset(r) == multiset(xs) + multiset{x}
    ensures r != [] && (r[0] == x || (xs != [] && r[0] == xs[0]))
  {
    if xs == [] || Text.StrLess(x.date, xs[0].date) then
      AscendingCons(x, xs);
      [x] + xs
    else
      AscendingSplit(xs);
      var rest := InsertByDate(x, xs[1..]);
      Text.StrLessTotal(x.date, xs[0].date);
      AscendingCons(xs[0], rest);
      [xs[0]] + rest
  }

  /** The first entry of an ascending sequence, and the ascending rest after it. */
  lemma AscendingSplit(xs: seq<DayTrend>)
    requires Ascending(xs) && xs != []
    ensures Ascending(xs[1..])
    ensures xs == [xs[0]] + xs[1..]
    ensures multiset(xs) == multiset{xs[0]} + multiset(xs[1..])
    ensures |xs| > 1 ==> Text.StrLess(xs[0].date, xs[1..][0].date)
  {
  }

  /** An entry dated before the first of an ascending sequence can go in front. */
  lemma AscendingCons(y: DayTrend, rest: seq<DayTrend>)
    requires Ascending(rest)
    requires rest == [] || Text.StrLess(y.date, rest[0].date)
    ensures Ascending([y] + rest)
  {
  }

  /**
   * `Array.prototype.sort` with `a.date.localeCompare(b.date)` as the
   * comparator, over entries whose dates differ: the entries in ascending
   * date order.
   */
  function SortByDate(xs: seq<DayTrend>): (r: seq<DayTrend>)
    requires DistinctDates(xs)
    ensures Ascending(r)
    ensures multiset(r) == multiset(xs)
  {
    if xs == [] then []
    else
      DistinctDatesSplit(xs);
      var rest := SortByDate(xs[1..]);
      FirstDateNotInRest(xs, rest);
      InsertByDate(xs[0], rest)
  }

  /** The rest of a sequence with distinct dates has distinct dates too. */
  lemma DistinctDatesSplit(xs: seq<DayTrend>)
    requires DistinctDates(xs) && xs != []
    ensures DistinctDates(xs[1..])
    ensures multiset(xs) == multiset(xs[1..]) + multiset{xs[0]}
  {
    assert xs == [xs[0]] + xs[1..];
  }

  /** Any rearrangement of the rest holds no entry dated like the first. */
  lemma FirstDateNotInRest(xs: seq<DayTrend>, rest: seq<DayTrend>)
    requires DistinctDates(xs) && xs != []
    requires multiset(rest) == multiset(xs[1..])
    ensures forall i :: 0 <= i < |rest| ==> rest[i].date != xs[0].date
  {
    forall i | 0 <= i < |rest|
      ensures rest[i].date != xs[0].date
    {
      assert rest[i] in multiset(xs[1..]);
      var j :| 0 <= j < |xs[1..]| && xs[1..][j] == rest[i];
      assert xs[j + 1] == rest[i];
    }
  }

  /** Ascending adjacent pairs make the whole sequence strictly ordered by date. */
  lemma {:induction false} AscendingIsStrict(xs: seq<DayTrend>)
    requires Ascending(xs)
    ensures StrictlyOrdered(xs)
  {
    if |xs| > 1 {
      AscendingIsStrict(xs[1..]);
      forall j | 1 < j < |xs|
        ensures Text.StrLess(xs[0].date, xs[j].date)
      {
        assert xs[1..][0] == xs[1] && xs[1..][j - 1] == xs[j];
        Text.StrLessTransitive(xs[0].date, xs[1].date, xs[j].date);
      }
    }
  }

  /**
   * The sort's result does not depend on the order the entries came in:
   * two strictly ordered sequences holding the same entries are equal.
   */
  lemma {:induction false} OrderedArrangementIsUnique(a: seq<DayTrend>, b: seq<DayTrend>)
    requires StrictlyOrdered(a) && StrictlyOrdered(b)
    requires forall x :: x in a <==> x in b
    ensures a == b
  {
    EmptyAlike(a, b);
    if a != [] {
      SameFirst(a, b);
      OrderedTail(a);
      OrderedTail(b);
      forall x
        ensures x in a[1..] <==> x in b[1..]
      {
        if x in a[1..] {
          AfterFirst(a, x);
        }
        if x in b[1..] {
          AfterFirst(b, x);
        }
      }
      OrderedArrangementIsUnique(a[1..], b[1..]);
      assert a == [a[0]] + a[1..] && b == [b[0]] + b[1..];
    }
  }

  lemma EmptyAlike(a: seq<DayTrend>, b: seq<DayTrend>)
    requires forall x :: x in a <==> x in b
    ensures a == [] <==> b == []
  {
    if a != [] {
      assert a[0] in a;
    }
    if b != [] {
      assert b[0] in b;
    }
  }

  /** Two strictly ordered sequences holding the same entries start alike. */
  lemma SameFirst(a: seq<DayTrend>, b: seq<DayTrend>)
    requires StrictlyOrdered(a) && StrictlyOrdered(b)
    requires (forall x :: x in a <==> x in b) && a != [] && b != []
    ensures a[0] == b[0]
  {
    assert a[0] in b && b[0] in a;
    var k :| 0 <= k < |b| && b[k] == a[0];
    var m :| 0 <= m < |a| && a[m] == b[0];
    if k != 0 {
      assert Text.StrLess(b[0].date, a[0].date);
      if m == 0 {
        Text.StrLessIrreflexive(a[0].date);
      } else {
        Text.StrLessAsymmetric(b[0].date, a[0].date);
      }
      assert false;
    }
  }

  /** In a strictly ordered sequence the first entry does not recur. */
  lemma AfterFirst(a: seq<DayTrend>, x: DayTrend)
    requires StrictlyOrdered(a) && a != [] && x in a[1..]
    ensures x in a && x != a[0]
  {
    var j :| 0 <= j < |a| - 1 && a[1..][j] == x;
    assert a[j + 1] == x;
    if x == a[0] {
      Text.StrLessIrreflexive(x.date);
      assert false;
    }
  }

  lemma OrderedTail(a: seq<DayTrend>)
    requires StrictlyOrdered(a) && a != []
    ensures StrictlyOrdered(a[1..])
  {
    forall i, j | 0 <= i < j < |a| - 1
      ensures Text.StrLess(a[1..][i].date, a[1..][j].date)
    {
      assert a[1..][i] == a[i + 1] && a[1..][j] == a[j + 1];
    }
  }

  /** Tickets exist exactly when some day occurs. */
  lemma NoDaysWithoutTickets(rows: seq<TicketRow>)
    ensures Days(rows) == {} <==> rows == []
    ensures rows != [] ==> RowDay(rows[0]) in Days(rows)
  {
    if rows != [] {
      assert RowDay(rows[0]) in Days(rows);
    }
  }

  /** An entry dated by a ticket's day needs a ticket. */
  lemma EntriesNeedTickets(rows: seq<TicketRow>, report: seq<DayTrend>)
    ensures (forall i :: 0 <= i < |report| ==> report[i].date in Days(rows)) && report != [] ==> rows != []
  {
    if report != [] && report[0].date in Days(rows) {
      NoDaysWithoutTickets(rows);
    }
  }

  /**
   * What the route answers for the tickets `rows`: one entry per day on
   * which tickets were created, holding that day's counters, in ascending
   * date order.
   */
  predicate IsTrendReport(rows: seq<TicketRow>, report: seq<DayTrend>)
    ensures IsTrendReport(rows, report) ==> (report == [] <==> rows == [])
  {
    NoDaysWithoutTickets(rows);
    EntriesNeedTickets(rows, report);
    && StrictlyOrdered(report)
    && (forall i :: 0 <= i < |report| ==>
          report[i].date in Days(rows) && report[i] == DayTotals(rows, report[i].date))
    && (forall d :: d in Days(rows) ==> exists i :: 0 <= i < |report| && report[i].date == d)
  }

  /**
   * The route: a failed query answers status 500 with the client's message;
   * otherwise the tickets are counted per day and the days sorted by date.
   */
  method Get(q: Query<TicketRow>) returns (r: Response<seq<DayTrend>>)
    ensures q.QueryError? ==> r == ServerError(q.message)
    ensures q.Rows? ==> r.Ok? && IsTrendReport(q.data, r.body)
  {
    match q
    case QueryError(message) =>
      r := ServerError(message);
    case Rows(rows) =>
      var trends, order := Aggregate(rows);
      var values := seq(|order|, i requires 0 <= i < |order| => trends[order[i]]);
      ValuesOfTally(rows, trends, order, values);
      var sorted := SortByDate(values);
      AscendingIsStrict(sorted);
      SortedValuesReport(rows, values, sorted);
      r := Ok(sorted);
  }

  /** `Object.values(trends)`: each day's entry once, dated by its key. */
  lemma ValuesOfTally(rows: seq<TicketRow>, trends: map<string, DayTrend>, order: seq<string>,
                      values: seq<DayTrend>)
    requires Tallied(rows, trends, order)
    requires |values| == |order| && forall i :: 0 <= i < |order| ==> values[i] == trends[order[i]]
    ensures DistinctDates(values)
    ensures forall i :: 0 <= i < |values| ==>
              values[i].date in Days(rows) && values[i] == DayTotals(rows, values[i].date)
    ensures forall d :: d in Days(rows) ==> exists i :: 0 <= i < |values| && values[i].date == d
  {
    forall i | 0 <= i < |values|
      ensures values[i].date == order[i]
    {
      DayTotalsCounts(rows, order[i]);
    }
    forall d | d in Days(rows)
      ensures exists i :: 0 <= i < |values| && values[i].date == d
    {
      var i :| 0 <= i < |order| && order[i] == d;
      assert values[i].date == d;
    }
  }

  lemma SortedValuesReport(rows: seq<TicketRow>, values: seq<DayTrend>, sorted: seq<DayTrend>)
    requires multiset(sorted) == multiset(values) && StrictlyOrdered(sorted)
    requires forall i :: 0 <= i < |values| ==>
               values[i].date in Days(rows) && values[i] == DayTotals(rows, values[i].date)
    requires forall d :: d in Days(rows) ==> exists i :: 0 <= i < |values| && values[i].date == d
    ensures IsTrendReport(rows, sorted)
  {
    forall i | 0 <= i < |sorted|
      ensures sorted[i].date in Days(rows) && sorted[i] == DayTotals(rows, sorted[i].date)
    {
      assert sorted[i] in multiset(values);
    }
    forall d | d in Days(rows)
      ensures exists i :: 0 <= i < |sorted| && sorted[i].date == d
    {
      var j :| 0 <= j < |values| && values[j].date == d;
      assert values[j] in multiset(sorted);
    }
  }

  /** The tickets decide the report: two reports for the same tickets are equal. */
  lemma ReportIsDetermined(rows: seq<TicketRow>, a: seq<DayTrend>, b: seq<DayTrend>)
    requires IsTrendReport(rows, a) && IsTrendReport(rows, b)
    ensures a == b
  {
    forall x
      ensures x in a <==> x in b
    {
      if x in a {
        var i :| 0 <= i < |a| && a[i] == x;
        var j :| 0 <= j < |b| && b[j].date == x.date;
      }
      if x in b {
        var i :| 0 <= i < |b| && b[i] == x;
        var j :| 0 <= j < |a| && a[j].date == x.date;
      }
    }
    OrderedArrangementIsUnique(a, b);
  }

  /**
   * Every entry stands for at least one ticket of its day; a ticket adds to
   * at most one of the two tier counters; the severity and guardrail
   * counters never exceed the day's total.
   */
  lemma ReportEntryBounds(rows: seq<TicketRow>, report: seq<DayTrend>, i: nat)
    requires IsTrendReport(rows, report) && i < |report|
    ensures 1 <= report[i].total <= |rows|
    ensures report[i].tier1 + report[i].tier2 <= report[i].total
    ensures report[i].highSeverity <= report[i].total
    ensures report[i].blocked <= report[i].total
  {
    var d := report[i].date;
    DayTotalsCounts(rows, d);
    Tally.CountKeyPositive(rows, RowDay, d);
  }

  function SumTotals(report: seq<DayTrend>): nat {
    if report == [] then 0 else report[0].total + SumTotals(report[1..])
  }

  function Dates(report: seq<DayTrend>): (ds: seq<string>)
    ensures |ds| == |report| && forall i :: 0 <= i < |report| ==> ds[i] == report[i].date
  {
    seq(|report|, i requires 0 <= i < |report| => report[i].date)
  }

  /** The daily totals add up to the number of tickets: each ticket is counted on exactly one day. */
  lemma ReportTotalsCoverAllTickets(rows: seq<TicketRow>, report: seq<DayTrend>)
    requires IsTrendReport(rows, report)
    ensures SumTotals(report) == |rows|
  {
    var ds := Dates(report);
    forall i, j | 0 <= i < j < |ds|
      ensures ds[i] != ds[j]
    {
      if ds[i] == ds[j] {
        Text.StrLessIrreflexive(ds[i]);
      }
    }
    forall k | 0 <= k < |rows|
      ensures RowDay(rows[k]) in ds
    {
      assert RowDay(rows[k]) in Days(rows);
      var i :| 0 <= i < |report| && report[i].date == RowDay(rows[k]);
      assert ds[i] == RowDay(rows[k]);
    }
    Tally.PartitionSum(rows, RowDay, ds);
    TotalsAreCounts(rows, report);
  }

  lemma {:induction false} TotalsAreCounts(rows: seq<TicketRow>, report: seq<DayTrend>)
    requires forall i :: 0 <= i < |report| ==> report[i] == DayTotals(rows, report[i].date)
    ensures SumTotals(report) == Tally.SumCounts(rows, RowDay, Dates(report))
  {
    if report != [] {
      DayTotalsCounts(rows, report[0].date);
      TotalsAreCounts(rows, report[1..]);
      assert Dates(report)[1..] == Dates(report[1..]);
    }
  }

  /**
   * The chat route records tiers 1 and 3 only, so on its tickets the
   * `tier2` counter stays at zero whatever the day.
   */
  lemma {:induction false} ChatRouteTiersNeverCountAsTier2(rows: seq<TicketRow>, day: string)
    requires forall k :: 0 <= k < |rows| ==> rows[k].tier == Num(1) || rows[k].tier == Num(3)
    ensures DayTotals(rows, day).tier2 == 0
  {
    if rows != [] {
      ChatRouteTiersNeverCountAsTier2(rows[..|rows| - 1], day);
    }
  }
}
