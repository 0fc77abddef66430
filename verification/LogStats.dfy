/** The two aggregations of log_stats.c and the totals drawn from their table. */
module LogStats {
  import opened Seqs

  /** A log row; the loader refuses rows of unknown services. */
  datatype Record = Record(service: nat, status: nat, duration: nat)

  datatype Stats = Stats(requests: nat, errors: nat, duration: nat, min: nat, max: nat)

  const EMPTY := Stats(0, 0, 0, 0, 0)

  predicate InRange(log: seq<Record>, services: nat) {
    forall k :: 0 <= k < |log| ==> log[k].service < services
  }

  predicate IsError(r: Record) {
    r.status >= 400
  }

  /** add_record. */
  function Add(s: Stats, r: Record): Stats {
    Stats(s.requests + 1, s.errors + (if IsError(r) then 1 else 0), s.duration + r.duration,
          if s.requests == 0 || r.duration < s.min then r.duration else s.min,
          if r.duration > s.max then r.duration else s.max)
  }

  /** The rows of one service, in order. */
  function Rows(log: seq<Record>, service: nat): seq<Record> {
    if log == [] then []
    else Rows(log[..|log| - 1], service) + if log[|log| - 1].service == service then [log[|log| - 1]] else []
  }

  function Folded(rows: seq<Record>): Stats {
    if rows == [] then EMPTY else Add(Folded(rows[..|rows| - 1]), rows[|rows| - 1])
  }

  /** The table that both programs fill. */
  function Table(log: seq<Record>, services: nat): seq<Stats> {
    seq(services, service requires 0 <= service => Folded(Rows(log, service)))
  }

  // ----- what an entry of the table means ---------------------------------

  function Errors(rows: seq<Record>): nat {
    if rows == [] then 0 else Errors(rows[..|rows| - 1]) + if IsError(rows[|rows| - 1]) then 1 else 0
  }

  function Durations(rows: seq<Record>): nat {
    if rows == [] then 0 else Durations(rows[..|rows| - 1]) + rows[|rows| - 1].duration
  }

  ghost predicate Attained(rows: seq<Record>, d: nat) {
    exists k :: 0 <= k < |rows| && rows[k].duration == d
  }

  /** Counts and sums of the service's rows, and their least and greatest duration. */
  lemma {:induction false} EntryIsAggregate(rows: seq<Record>)
    ensures var s := Folded(rows);
      && s.requests == |rows| && s.errors == Errors(rows) && s.duration == Durations(rows)
      && (forall k :: 0 <= k < |rows| ==> s.min <= rows[k].duration <= s.max)
      && (rows != [] ==> Attained(rows, s.min) && Attained(rows, s.max))
  {
    if rows != [] {
      var front, last := rows[..|rows| - 1], rows[|rows| - 1];
      EntryIsAggregate(front);
      if front != [] {
        var a :| 0 <= a < |front| && front[a].duration == Folded(front).min;
        var b :| 0 <= b < |front| && front[b].duration == Folded(front).max;
        assert rows[a].duration == Folded(front).min && rows[b].duration == Folded(front).max;
      }
      assert rows[|rows| - 1].duration == last.duration;
    }
  }

  lemma {:induction false} RowOccurs(log: seq<Record>, service: nat, r: Record)
    ensures multiset(Rows(log, service))[r] == if r.service == service then multiset(log)[r] else 0
  {
    if log != [] {
      var front, last := log[..|log| - 1], log[|log| - 1];
      RowOccurs(front, service, r);
      assert log == front + [last];
      if last.service != service { assert Rows(log, service) == Rows(front, service); }
    }
  }

  /** Exactly the rows of the service, as often as they are in the log. */
  lemma {:induction false} RowsAreTheServices(log: seq<Record>, service: nat)
    ensures multiset(Rows(log, service)) <= multiset(log)
    ensures forall k :: 0 <= k < |Rows(log, service)| ==> Rows(log, service)[k].service == service
    ensures forall r: Record :: r.service == service ==> multiset(Rows(log, service))[r] == multiset(log)[r]
  {
    var rows := Rows(log, service);
    forall r: Record
      ensures multiset(rows)[r] == if r.service == service then multiset(log)[r] else 0
    {
      RowOccurs(log, service, r);
    }
    forall k | 0 <= k < |rows| ensures rows[k].service == service { assert rows[k] in multiset(rows); }
  }

  // ----- totals -----------------------------------------------------------

  datatype Totals = Totals(requests: nat, errors: nat, duration: nat, signature: nat)

  function Weight(s: Stats, service: nat): nat {
    (service + 1) * (s.requests + s.errors + s.duration + s.min + s.max)
  }

  /** summarize. */
  function Summary(table: seq<Stats>): Totals {
    if table == [] then Totals(0, 0, 0, 0)
    else
      var n := |table| - 1;
      var t, s := Summary(table[..n]), table[n];
      Totals(t.requests + s.requests, t.errors + s.errors, t.duration + s.duration, t.signature + Weight(s, n))
  }

  /** The part of the signature that is due to the rows themselves: each weighs as much as its service. */
  function RowWeights(log: seq<Record>): nat {
    if log == [] then 0
    else
      var r := log[|log| - 1];
      RowWeights(log[..|log| - 1]) + (r.service + 1) * (1 + (if r.status >= 400 then 1 else 0) + r.duration)
  }

  /** The part due to the least and greatest durations. */
  function Extremes(table: seq<Stats>): nat {
    if table == [] then 0
    else Extremes(table[..|table| - 1]) + |table| * table[|table| - 1].min + |table| * table[|table| - 1].max
  }

  /** The other part, by services. */
  function Counts(table: seq<Stats>): nat {
    if table == [] then 0
    else
      var s := table[|table| - 1];
      Counts(table[..|table| - 1]) + |table| * (s.requests + s.errors + s.duration)
  }

  lemma {:induction false} SignatureParts(table: seq<Stats>)
    ensures Summary(table).signature == Counts(table) + Extremes(table)
  {
    if table != [] {
      var s := table[|table| - 1];
      SignatureParts(table[..|table| - 1]);
      Distribute(|table|, s.requests + s.errors + s.duration, s.min + s.max);
      Distribute(|table|, s.min, s.max);
    }
  }

  lemma Distribute(a: nat, x: nat, y: nat)
    ensures a * (x + y) == a * x + a * y
  {
  }

  lemma {:induction false} CountsUpdate(table: seq<Stats>, i: nat, s: Stats)
    requires i < |table|
    ensures Counts(table[i := s]) == Counts(table)
      - (i + 1) * (table[i].requests + table[i].errors + table[i].duration)
      + (i + 1) * (s.requests + s.errors + s.duration)
  {
    var n := |table| - 1;
    if i == n {
      assert table[i := s][..n] == table[..n];
    } else {
      assert table[i := s][..n] == table[..n][i := s];
      CountsUpdate(table[..n], i, s);
    }
  }

  /** A row more in one entry is a row more in the summary. */
  lemma {:induction false} SummaryUpdate(table: seq<Stats>, i: nat, s: Stats)
    requires i < |table|
    ensures var a, b := Summary(table), Summary(table[i := s]);
      && b.requests == a.requests - table[i].requests + s.requests
      && b.errors == a.errors - table[i].errors + s.errors
      && b.duration == a.duration - table[i].duration + s.duration
  {
    var n := |table| - 1;
    if i == n {
      assert table[i := s][..n] == table[..n];
    } else {
      assert table[i := s][..n] == table[..n][i := s];
      SummaryUpdate(table[..n], i, s);
    }
  }

  lemma {:induction false} SummaryOfEmpty(services: nat)
    ensures var t := Summary(seq(services, _ => EMPTY));
      t.requests == t.errors == t.duration == Counts(seq(services, _ => EMPTY)) == 0
  {
    if services > 0 {
      assert seq(services, _ => EMPTY)[..services - 1] == seq(services - 1, _ => EMPTY);
      SummaryOfEmpty(services - 1);
    }
  }

  /** One row more changes one entry. */
  lemma TableOneMore(log: seq<Record>, r: Record, services: nat)
    requires r.service < services
    ensures Table(log + [r], services) == Table(log, services)[r.service := Add(Table(log, services)[r.service], r)]
  {
    assert (log + [r])[..|log|] == log;
    var rows := Rows(log, r.service);
    assert Rows(log + [r], r.service) == rows + [r] && (rows + [r])[..|rows|] == rows;
    forall s | 0 <= s < services && s != r.service ensures Rows(log + [r], s) == Rows(log, s) {
      assert Rows(log, s) + [] == Rows(log, s);
    }
  }

  lemma OneRowMore(table: seq<Stats>, r: Record)
    requires r.service < |table|
    ensures var x := table[r.service := Add(table[r.service], r)]; var a, b := Summary(table), Summary(x);
      && b.requests == a.requests + 1 && b.errors == a.errors + Errors([r])
      && b.duration == a.duration + r.duration
      && Counts(x) == Counts(table) + RowWeights([r])
  {
    var before := table[r.service];
    SummaryUpdate(table, r.service, Add(before, r));
    CountsUpdate(table, r.service, Add(before, r));
    Distribute(r.service + 1, before.requests + before.errors + before.duration, 1 + Errors([r]) + r.duration);
  }

  lemma {:induction false} CountsAreRows(log: seq<Record>, services: nat)
    requires InRange(log, services)
    ensures Counts(Table(log, services)) == RowWeights(log)
  {
    if log == [] {
      assert Table(log, services) == seq(services, _ => EMPTY);
      SummaryOfEmpty(services);
    } else {
      var front, last := log[..|log| - 1], log[|log| - 1];
      CountsAreRows(front, services);
      assert log == front + [last];
      TableOneMore(front, last, services);
      OneRowMore(Table(front, services), last);
    }
  }

  lemma {:induction false} TotalsAreRows(log: seq<Record>, services: nat)
    requires InRange(log, services)
    ensures var t := Summary(Table(log, services));
      t.requests == |log| && t.errors == Errors(log) && t.duration == Durations(log)
  {
    if log == [] {
      assert Table(log, services) == seq(services, _ => EMPTY);
      SummaryOfEmpty(services);
    } else {
      var front, last := log[..|log| - 1], log[|log| - 1];
      TotalsAreRows(front, services);
      assert log == front + [last];
      TableOneMore(front, last, services);
      OneRowMore(Table(front, services), last);
    }
  }

  /** summarize conserves rows, errors and durations, and its signature weighs every row by its service. */
  lemma SummaryConserves(log: seq<Record>, services: nat)
    requires InRange(log, services)
    ensures var t := Summary(Table(log, services));
      && t.requests == |log| && t.errors == Errors(log) && t.duration == Durations(log)
      && t.signature == RowWeights(log) + Extremes(Table(log, services))
  {
    TotalsAreRows(log, services);
    CountsAreRows(log, services);
    SignatureParts(Table(log, services));
  }

  // ----- the program ------------------------------------------------------

  method Clear(result: array<Stats>)
    modifies result
    ensures forall s :: 0 <= s < result.Length ==> result[s] == EMPTY
  {
    for s := 0 to result.Length
      invariant forall k :: 0 <= k < s ==> result[k] == EMPTY
    {
      result[s] := EMPTY;
    }
  }

  /** aggregate_rescan: the rows again for each service. */
  method AggregateRescan(log: array<Record>, result: array<Stats>)
    modifies result
    ensures result[..] == Table(log[..], result.Length)
  {
    Clear(result);
    ghost var rows := log[..];
    for service := 0 to result.Length
      invariant forall k :: 0 <= k < service ==> result[k] == Folded(Rows(rows, k))
      invariant forall k :: service <= k < result.Length ==> result[k] == EMPTY
    {
      Rescan(log, service, result);
    }
  }

  /** The inner loop: one service's rows. */
  method Rescan(log: array<Record>, service: nat, result: array<Stats>)
    requires service < result.Length && result[service] == EMPTY
    modifies result
    ensures result[..] == old(result[..])[service := Folded(Rows(log[..], service))]
  {
    ghost var rows := log[..];
    for row := 0 to log.Length
      invariant forall k :: 0 <= k < result.Length && k != service ==> result[k] == old(result[k])
      invariant result[service] == Folded(Rows(rows[..row], service))
    {
      assert rows[..row + 1][..row] == rows[..row];
      if log[row].service == service {
        ghost var before := Rows(rows[..row], service);
        assert (before + [rows[row]])[..|before|] == before;
        result[service] := Add(result[service], log[row]);
      } else {
        assert Rows(rows[..row], service) + [] == Rows(rows[..row], service);
      }
    }
    assert rows[..|rows|] == rows;
  }

  /** aggregate_onepass: each row once, into its service's entry. */
  method AggregateOnepass(log: array<Record>, result: array<Stats>)
    requires InRange(log[..], result.Length)
    modifies result
    ensures result[..] == Table(log[..], result.Length)
  {
    Clear(result);
    ghost var rows := log[..];
    assert result[..] == Table(rows[..0], result.Length);
    for row := 0 to log.Length
      invariant result[..] == Table(rows[..row], result.Length)
    {
      assert rows[..row + 1] == rows[..row] + [rows[row]];
      TableOneMore(rows[..row], rows[row], result.Length);
      var service := log[row].service;
      result[service] := Add(result[service], log[row]);
    }
    assert rows[..|rows|] == rows;
  }

  /** Both programs print the same totals, and these account for every row. */
  method Summarize(stats: array<Stats>) returns (t: Totals)
    ensures t == Summary(stats[..])
    ensures forall log :: InRange(log, stats.Length) && stats[..] == Table(log, stats.Length) ==>
              && t.requests == |log| && t.errors == Errors(log) && t.duration == Durations(log)
              && t.signature == RowWeights(log) + Extremes(stats[..])
  {
    t := Totals(0, 0, 0, 0);
    for service := 0 to stats.Length
      invariant t == Summary(stats[..service])
    {
      assert stats[..service + 1][..service] == stats[..service];
      var s := stats[service];
      t := Totals(t.requests + s.requests, t.errors + s.errors, t.duration + s.duration,
          t.signature + Weight(s, service));
    }
    assert stats[..stats.Length] == stats[..];
    forall log | InRange(log, stats.Length) && stats[..] == Table(log, stats.Length)
      ensures t.requests == |log| && t.errors == Errors(log) && t.duration == Durations(log)
      ensures t.signature == RowWeights(log) + Extremes(stats[..])
    {
      SummaryConserves(log, stats.Length);
    }
  }
}
