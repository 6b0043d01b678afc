/**
 * The summary of app/api/metrics/route.ts: how many tickets fall under each
 * tier, how many were deflected, and the share of deflected tickets.
 */
module Metrics {
  import Text
  import Tally
  import opened Tickets

  /** The two columns of `select("*")` the route reads. */
  datatype TicketRow = TicketRow(tier: TierValue, deflected: bool)

  /** The property name the ticket is counted under in `tierCounts`. */
  function RowKey(t: TicketRow): string {
    TierKey(t.tier)
  }

  /**
   * `deflectionRate`: the string "0" when there are no tickets, otherwise
   * `deflected / total * 100` printed with one decimal. The printing is not
   * part of this model; the ratio it is printed from is.
   */
  datatype Rate = NoTickets | Percentage(deflected: nat, total: nat)

  /** The response body. */
  datatype Summary = Summary(tierCounts: map<string, nat>, deflectionRate: Rate, totalTickets: nat)

  /**
   * The `reduce` over the tickets: the accumulator object gains a property
   * for each new tier and that property is bumped for every ticket.
   */
  method TierCounts(rows: seq<TicketRow>) returns (acc: map<string, nat>)
    ensures acc.Keys == Tally.Keys(rows, RowKey)
    ensures forall k :: k in acc ==> acc[k] == Tally.CountKey(rows, RowKey, k)
  {
    acc := map[];
    for i := 0 to |rows|
      invariant acc.Keys == Tally.Keys(rows[..i], RowKey)
      invariant forall k :: k in acc ==> acc[k] == Tally.CountKey(rows[..i], RowKey, k)
    {
      var k := TierKey(rows[i].tier);
      CountOneMore(rows, i, acc, k);
      acc := acc[k := (if k in acc then acc[k] else 0) + 1];
      assert rows[..i + 1] == rows[..i] + [rows[i]];
    }
    assert rows[..|rows|] == rows;
  }

  lemma CountOneMore(rows: seq<TicketRow>, i: nat, acc: map<string, nat>, k: string)
    requires i < |rows| && k == RowKey(rows[i])
    requires acc.Keys == Tally.Keys(rows[..i], RowKey)
    requires forall j :: j in acc ==> acc[j] == Tally.CountKey(rows[..i], RowKey, j)
    ensures Tally.Keys(rows[..i + 1], RowKey) == acc.Keys + {k}
    ensures Tally.CountKey(rows[..i + 1], RowKey, k) == (if k in acc then acc[k] else 0) + 1
    ensures forall j :: j != k ==> Tally.CountKey(rows[..i + 1], RowKey, j) == Tally.CountKey(rows[..i], RowKey, j)
  {
    var done := rows[..i];
    assert rows[..i + 1][..i] == done;
    Tally.CountKeyPositive(done, RowKey, k);
    Tally.KeysSnoc(done, rows[i], RowKey);
    assert rows[..i + 1] == done + [rows[i]];
  }

  /** `data.filter(t => t.deflected === true).length`. */
  function DeflectedCount(rows: seq<TicketRow>): (n: nat)
    ensures n <= |rows|
    ensures n == 0 <==> forall k :: 0 <= k < |rows| ==> !rows[k].deflected
    ensures n == |rows| <==> forall k :: 0 <= k < |rows| ==> rows[k].deflected
  {
    if rows == [] then 0
    else
      var init := rows[..|rows| - 1];
      assert forall k :: 0 <= k < |init| ==> init[k] == rows[k];
      DeflectedCount(init) + (if rows[|rows| - 1].deflected then 1 else 0)
  }

  /** The label a ticket is counted under when splitting by the `deflected` flag. */
  function DeflectedLabel(t: TicketRow): string {
    if t.deflected then "deflected" else "not deflected"
  }

  /**
   * The filter agrees with counting by label: the deflected tickets are those
   * under "deflected", and with those under "not deflected" they make up all
   * tickets.
   */
  lemma {:induction false} DeflectedCountIsTally(rows: seq<TicketRow>)
    ensures DeflectedCount(rows) == Tally.CountKey(rows, DeflectedLabel, "deflected")
    ensures DeflectedCount(rows) + Tally.CountKey(rows, DeflectedLabel, "not deflected") == |rows|
  {
    if rows != [] {
      DeflectedCountIsTally(rows[..|rows| - 1]);
    }
  }

  /** `total ? … : "0"`: zero tickets give the fixed text, any other count a ratio. */
  function DeflectionRate(deflected: nat, total: nat): (r: Rate)
    requires deflected <= total
    ensures r.NoTickets? <==> total == 0
    ensures r.Percentage? ==> r.deflected <= r.total && r.total == total && r.deflected == deflected
  {
    if total == 0 then NoTickets else Percentage(deflected, total)
  }

  /**
   * What the route answers for the tickets `rows`: the count under every
   * tier key that occurs, the deflected share, and the number of tickets.
   */
  predicate IsSummary(rows: seq<TicketRow>, s: Summary)
    ensures IsSummary(rows, s) ==> (s.tierCounts == map[] <==> s.totalTickets == 0)
  {
    NoKeysWithoutRows(rows);
    && s.tierCounts.Keys == Tally.Keys(rows, RowKey)
    && (forall k :: k in s.tierCounts ==> s.tierCounts[k] == Tally.CountKey(rows, RowKey, k))
    && s.totalTickets == |rows|
    && s.deflectionRate == DeflectionRate(DeflectedCount(rows), |rows|)
  }

  /** Rows exist exactly when some tier key occurs. */
  lemma NoKeysWithoutRows(rows: seq<TicketRow>)
    ensures Tally.Keys(rows, RowKey) == {} <==> rows == []
  {
    if rows != [] {
      assert RowKey(rows[0]) in Tally.Keys(rows, RowKey);
    }
  }

  /** The route: a failed query answers status 500 with the client's message. */
  method Get(q: Query<TicketRow>) returns (r: Response<Summary>)
    ensures q.QueryError? ==> r == ServerError(q.message)
    ensures q.Rows? ==> r.Ok? && IsSummary(q.data, r.body)
  {
    match q
    case QueryError(message) =>
      r := ServerError(message);
    case Rows(data) =>
      var tierCounts := TierCounts(data);
      var total := |data|;
      var deflectedCount := DeflectedCount(data);
      var deflectionRate := if total != 0 then Percentage(deflectedCount, total) else NoTickets;
      r := Ok(Summary(tierCounts, deflectionRate, total));
  }

  /** The counts of the keys `ks`, read from the accumulator. */
  function SumValues(m: map<string, nat>, ks: seq<string>): nat
    requires forall i :: 0 <= i < |ks| ==> ks[i] in m
  {
    if ks == [] then 0 else m[ks[0]] + SumValues(m, ks[1..])
  }

  /**
   * The tier counts add up to `totalTickets`, whatever order the keys are
   * listed in: every ticket is counted under exactly one key.
   */
  lemma TierCountsAddUpToTotal(rows: seq<TicketRow>, s: Summary, ks: seq<string>)
    requires IsSummary(rows, s)
    requires Tally.Distinct(ks) && (forall i :: 0 <= i < |ks| ==> ks[i] in s.tierCounts)
    requires forall k :: k in s.tierCounts ==> k in ks
    ensures SumValues(s.tierCounts, ks) == s.totalTickets
  {
    forall i | 0 <= i < |rows|
      ensures RowKey(rows[i]) in ks
    {
      assert RowKey(rows[i]) in Tally.Keys(rows, RowKey);
    }
    Tally.PartitionSum(rows, RowKey, ks);
    ValuesAreCounts(rows, s.tierCounts, ks);
  }

  lemma {:induction false} ValuesAreCounts(rows: seq<TicketRow>, m: map<string, nat>, ks: seq<string>)
    requires forall i :: 0 <= i < |ks| ==> ks[i] in m
    requires forall k :: k in m ==> m[k] == Tally.CountKey(rows, RowKey, k)
    ensures SumValues(m, ks) == Tally.SumCounts(rows, RowKey, ks)
  {
    if ks != [] {
      ValuesAreCounts(rows, m, ks[1..]);
    }
  }

  /** Every tier that appears is counted at least once and at most `totalTickets` times. */
  lemma TierCountBounds(rows: seq<TicketRow>, s: Summary, k: string)
    requires IsSummary(rows, s) && k in s.tierCounts
    ensures 1 <= s.tierCounts[k] <= s.totalTickets
  {
    Tally.CountKeyPositive(rows, RowKey, k);
  }

  /** The deflected share lies between 0 and 100 percent. */
  lemma RateIsAShare(rows: seq<TicketRow>, s: Summary)
    requires IsSummary(rows, s)
    ensures s.deflectionRate.NoTickets? <==> rows == []
    ensures s.deflectionRate.Percentage? ==>
              s.deflectionRate.deflected <= s.deflectionRate.total == |rows|
  {
  }

  /**
   * The chat route stores tiers 1 and 3 as numbers, so on its tickets the
   * summary has no key but "1" and "3".
   */
  lemma ChatRouteTicketsUseTwoKeys(rows: seq<TicketRow>, s: Summary)
    requires IsSummary(rows, s)
    requires forall i :: 0 <= i < |rows| ==> rows[i].tier == Num(1) || rows[i].tier == Num(3)
    ensures s.tierCounts.Keys <= {"1", "3"}
  {
    assert Text.IntToString(1) == "1" && Text.IntToString(3) == "3";
    forall k | k in s.tierCounts
      ensures k == "1" || k == "3"
    {
      var i :| 0 <= i < |rows| && RowKey(rows[i]) == k;
    }
  }
}
