/** The pairing loop of irq_summary.py: interrupt entries and exits are matched
    by CPU and nesting with one stack for each CPU. */
module Irq {
  import opened Seqs

  datatype Event = Entry(cpu: nat, irq: nat) | Exit(cpu: nat, irq: nat)

  /** A matched pair: the places of its entry and exit in the trace. */
  datatype Pair = Pair(entry: nat, exit: nat)

  /** For each CPU the places of the entries not yet matched, the pairs, and the exits without an entry. */
  datatype State = State(stacks: seq<seq<nat>>, pairs: seq<Pair>, unmatched: nat)

  predicate Trace(trace: seq<Event>, cpus: nat) {
    forall k :: 0 <= k < |trace| ==> trace[k].cpu < cpus
  }

  predicate Places(trace: seq<Event>, s: State) {
    forall c, i :: 0 <= c < |s.stacks| && 0 <= i < |s.stacks[c]| ==> s.stacks[c][i] < |trace|
  }

  /** What the loop does with event k. */
  function Step(trace: seq<Event>, s: State, k: nat): State
    requires k < |trace| && trace[k].cpu < |s.stacks| && Places(trace, s)
  {
    var c, irq := trace[k].cpu, trace[k].irq;
    var stack := s.stacks[c];
    if trace[k].Entry? then s.(stacks := s.stacks[c := stack + [k]])
    else if stack != [] && trace[stack[|stack| - 1]].irq == irq then
      s.(stacks := s.stacks[c := stack[..|stack| - 1]], pairs := s.pairs + [Pair(stack[|stack| - 1], k)])
    else s.(unmatched := s.unmatched + 1)
  }

  // ----- the account and the nesting --------------------------------------

  function Entries(trace: seq<Event>): nat {
    if trace == [] then 0 else Entries(trace[..|trace| - 1]) + if trace[|trace| - 1].Entry? then 1 else 0
  }

  function Depths(stacks: seq<seq<nat>>): seq<int> {
    seq(|stacks|, c requires 0 <= c < |stacks| => |stacks[c]|)
  }

  /** A stack holds entries of its CPU, the outermost first. */
  ghost predicate StackOk(trace: seq<Event>, k: nat, stack: seq<nat>, c: nat)
    requires k <= |trace|
  {
    && (forall i :: 0 <= i < |stack| ==> stack[i] < k && trace[stack[i]].Entry? && trace[stack[i]].cpu == c)
    && (forall i, j :: 0 <= i < j < |stack| ==> stack[i] < stack[j])
  }

  ghost predicate PairOk(trace: seq<Event>, k: nat, p: Pair)
    requires k <= |trace|
  {
    && p.entry < p.exit < k && trace[p.entry].Entry? && trace[p.exit].Exit?
    && trace[p.entry].cpu == trace[p.exit].cpu && trace[p.entry].irq == trace[p.exit].irq
  }

  /** Two pairs of one CPU do not cross: one is inside the other, or they are apart. */
  predicate Nested(p: Pair, q: Pair) {
    || p.exit < q.entry || q.exit < p.entry
    || (p.entry < q.entry && q.exit < p.exit) || (q.entry < p.entry && p.exit < q.exit)
  }

  ghost predicate NestedPairs(trace: seq<Event>, pairs: seq<Pair>, a: nat, b: nat)
    requires a < |pairs| && b < |pairs|
  {
    && pairs[a].entry < |trace| && pairs[b].entry < |trace|
    && (trace[pairs[a].entry].cpu == trace[pairs[b].entry].cpu ==> Nested(pairs[a], pairs[b]))
  }

  /** An open entry is never between the entry and the exit of a pair of its CPU. */
  ghost predicate Outside(trace: seq<Event>, s: State, a: nat, i: nat)
    requires a < |s.pairs|
  {
    var p := s.pairs[a];
    p.entry < |trace| && trace[p.entry].cpu < |s.stacks| &&
    var stack := s.stacks[trace[p.entry].cpu];
    i < |stack| ==> stack[i] < p.entry || p.exit < stack[i]
  }

  ghost predicate Inv(trace: seq<Event>, s: State, k: nat, cpus: nat) {
    && k <= |trace| && Trace(trace, cpus) && |s.stacks| == cpus
    && (forall c {:trigger StackOk(trace, k, s.stacks[c], c)} :: 0 <= c < cpus ==> StackOk(trace, k, s.stacks[c], c))
    && (forall a {:trigger PairOk(trace, k, s.pairs[a])} :: 0 <= a < |s.pairs| ==> PairOk(trace, k, s.pairs[a]))
    && (forall a, b {:trigger NestedPairs(trace, s.pairs, a, b)} :: 0 <= a < b < |s.pairs| ==>
        NestedPairs(trace, s.pairs, a, b))
    && (forall a, i: nat {:trigger Outside(trace, s, a, i)} :: 0 <= a < |s.pairs| ==> Outside(trace, s, a, i))
    && Entries(trace[..k]) == |s.pairs| + Sum(Depths(s.stacks))
    && k - Entries(trace[..k]) == |s.pairs| + s.unmatched
  }

  lemma InvPlaces(trace: seq<Event>, s: State, k: nat, cpus: nat)
    requires Inv(trace, s, k, cpus)
    ensures Places(trace, s)
  {
    forall c, i | 0 <= c < |s.stacks| && 0 <= i < |s.stacks[c]| ensures s.stacks[c][i] < |trace| {
      assert StackOk(trace, k, s.stacks[c], c);
    }
  }

  /** The count of entries and exits. */
  lemma StepCounts(trace: seq<Event>, s: State, k: nat, cpus: nat)
    requires Inv(trace, s, k, cpus) && k < |trace| && Places(trace, s)
    ensures var r := Step(trace, s, k);
      && Entries(trace[..k + 1]) == |r.pairs| + Sum(Depths(r.stacks))
      && k + 1 - Entries(trace[..k + 1]) == |r.pairs| + r.unmatched
  {
    var r, c := Step(trace, s, k), trace[k].cpu;
    assert trace[..k + 1][..k] == trace[..k];
    SumUpdate(Depths(s.stacks), c, |r.stacks[c]|);
    assert Depths(r.stacks) == Depths(s.stacks)[c := |r.stacks[c]|];
  }

  lemma EntryKeeps(trace: seq<Event>, s: State, k: nat, cpus: nat)
    requires Inv(trace, s, k, cpus) && k < |trace| && Places(trace, s) && trace[k].Entry?
    ensures Inv(trace, Step(trace, s, k), k + 1, cpus)
  {
    var r, c := Step(trace, s, k), trace[k].cpu;
    StepCounts(trace, s, k, cpus);
    forall d | 0 <= d < cpus ensures StackOk(trace, k + 1, r.stacks[d], d) { assert StackOk(trace, k, s.stacks[d], d); }
    forall a | 0 <= a < |r.pairs| ensures PairOk(trace, k + 1, r.pairs[a]) { assert PairOk(trace, k, s.pairs[a]); }
    forall a, b | 0 <= a < b < |r.pairs| ensures NestedPairs(trace, r.pairs, a, b) {
      assert NestedPairs(trace, s.pairs, a, b);
    }
    forall a, i: nat | 0 <= a < |r.pairs| ensures Outside(trace, r, a, i) {
      assert Outside(trace, s, a, i) && PairOk(trace, k, s.pairs[a]);
    }
  }

  /** The exit that closes the innermost open entry of its CPU. */
  lemma MatchKeeps(trace: seq<Event>, s: State, k: nat, cpus: nat)
    requires Inv(trace, s, k, cpus) && k < |trace| && Places(trace, s) && trace[k].Exit?
    requires Step(trace, s, k).pairs != s.pairs
    ensures Inv(trace, Step(trace, s, k), k + 1, cpus)
  {
    var r, c := Step(trace, s, k), trace[k].cpu;
    var stack := s.stacks[c];
    var n, top := |s.pairs|, |stack| - 1;
    StepCounts(trace, s, k, cpus);
    assert StackOk(trace, k, stack, c);
    forall d | 0 <= d < cpus ensures StackOk(trace, k + 1, r.stacks[d], d) { assert StackOk(trace, k, s.stacks[d], d); }
    forall a | 0 <= a < |r.pairs| ensures PairOk(trace, k + 1, r.pairs[a]) {
      if a < n { assert PairOk(trace, k, s.pairs[a]); }
    }
    forall a, b | 0 <= a < b < |r.pairs| ensures NestedPairs(trace, r.pairs, a, b) {
      assert PairOk(trace, k, s.pairs[a]);
      if b < n { assert NestedPairs(trace, s.pairs, a, b); } else { assert Outside(trace, s, a, top); }
    }
    forall a, i: nat | 0 <= a < |r.pairs| ensures Outside(trace, r, a, i) {
      if a < n {
        assert Outside(trace, s, a, i) && PairOk(trace, k, s.pairs[a]);
      } else if i < top {
        assert stack[i] < stack[top];
      }
    }
  }

  lemma UnmatchedKeeps(trace: seq<Event>, s: State, k: nat, cpus: nat)
    requires Inv(trace, s, k, cpus) && k < |trace| && Places(trace, s) && trace[k].Exit?
    requires Step(trace, s, k).pairs == s.pairs
    ensures Inv(trace, Step(trace, s, k), k + 1, cpus)
  {
    var r := Step(trace, s, k);
    StepCounts(trace, s, k, cpus);
    forall d | 0 <= d < cpus ensures StackOk(trace, k + 1, r.stacks[d], d) { assert StackOk(trace, k, s.stacks[d], d); }
    forall a | 0 <= a < |r.pairs| ensures PairOk(trace, k + 1, r.pairs[a]) { assert PairOk(trace, k, s.pairs[a]); }
    forall a, b | 0 <= a < b < |r.pairs| ensures NestedPairs(trace, r.pairs, a, b) {
      assert NestedPairs(trace, s.pairs, a, b);
    }
    forall a, i: nat | 0 <= a < |r.pairs| ensures Outside(trace, r, a, i) { assert Outside(trace, s, a, i); }
  }

  lemma StepKeeps(trace: seq<Event>, s: State, k: nat, cpus: nat)
    requires Inv(trace, s, k, cpus) && k < |trace|
    ensures Places(trace, s) && Inv(trace, Step(trace, s, k), k + 1, cpus)
  {
    InvPlaces(trace, s, k, cpus);
    if trace[k].Entry? {
      EntryKeeps(trace, s, k, cpus);
    } else if Step(trace, s, k).pairs != s.pairs {
      MatchKeeps(trace, s, k, cpus);
    } else {
      UnmatchedKeeps(trace, s, k, cpus);
    }
  }

  lemma StartInv(trace: seq<Event>, cpus: nat)
    requires Trace(trace, cpus)
    ensures Inv(trace, State(seq(cpus, _ => []), [], 0), 0, cpus)
  {
    SumZero(Depths(State(seq(cpus, _ => []), [], 0).stacks));
  }

  /** The state after the first k events. */
  ghost function After(trace: seq<Event>, cpus: nat, k: nat): (s: State)
    requires Trace(trace, cpus) && k <= |trace|
    ensures Inv(trace, s, k, cpus)
  {
    if k == 0 then
      StartInv(trace, cpus);
      State(seq(cpus, _ => []), [], 0)
    else
      StepKeeps(trace, After(trace, cpus, k - 1), k - 1, cpus);
      Step(trace, After(trace, cpus, k - 1), k - 1)
  }

  // ----- one CPU on its own -----------------------------------------------

  /** The events of one CPU, in order. */
  function Of(trace: seq<Event>, c: nat): seq<Event> {
    if trace == [] then []
    else Of(trace[..|trace| - 1], c) + if trace[|trace| - 1].cpu == c then [trace[|trace| - 1]] else []
  }

  /** The interrupts still open, and the exits without an entry, when one CPU's events are paired alone. */
  datatype Alone = Alone(open: seq<nat>, unmatched: nat)

  function AloneStep(a: Alone, e: Event): Alone {
    if e.Entry? then a.(open := a.open + [e.irq])
    else if a.open != [] && a.open[|a.open| - 1] == e.irq then a.(open := a.open[..|a.open| - 1])
    else a.(unmatched := a.unmatched + 1)
  }

  function Paired(events: seq<Event>): Alone {
    if events == [] then Alone([], 0) else AloneStep(Paired(events[..|events| - 1]), events[|events| - 1])
  }

  function Irqs(trace: seq<Event>, stack: seq<nat>): seq<nat>
    requires forall i :: 0 <= i < |stack| ==> stack[i] < |trace|
  {
    seq(|stack|, i requires 0 <= i < |stack| => trace[stack[i]].irq)
  }

  function Unmatched(trace: seq<Event>, cpus: nat): seq<int> {
    seq(cpus, c requires 0 <= c => Paired(Of(trace, c)).unmatched)
  }

  /** What happens on one CPU is what would happen there alone. */
  ghost predicate Independent(trace: seq<Event>, s: State, k: nat, cpus: nat)
    requires k <= |trace|
  {
    && |s.stacks| == cpus && Places(trace, s)
    && (forall c :: 0 <= c < cpus ==> Irqs(trace, s.stacks[c]) == Paired(Of(trace[..k], c)).open)
    && s.unmatched == Sum(Unmatched(trace[..k], cpus))
  }

  lemma {:induction false} CpusAreIndependent(trace: seq<Event>, cpus: nat, k: nat)
    requires Trace(trace, cpus) && k <= |trace|
    ensures Independent(trace, After(trace, cpus, k), k, cpus)
  {
    if k == 0 {
      StartAlone(trace, cpus);
    } else {
      var j := k - 1;
      var s := After(trace, cpus, j);
      CpusAreIndependent(trace, cpus, j);
      StepAlone(trace, s, j, cpus);
      assert After(trace, cpus, k) == Step(trace, s, j);
    }
  }

  lemma StartAlone(trace: seq<Event>, cpus: nat)
    requires Trace(trace, cpus)
    ensures Independent(trace, After(trace, cpus, 0), 0, cpus)
  {
    SumZero(Unmatched(trace[..0], cpus));
  }

  lemma StepAlone(trace: seq<Event>, s: State, k: nat, cpus: nat)
    requires Inv(trace, s, k, cpus) && k < |trace| && Independent(trace, s, k, cpus)
    ensures Independent(trace, Step(trace, s, k), k + 1, cpus)
  {
    var r, e := Step(trace, s, k), trace[k];
    StepKeeps(trace, s, k, cpus);
    InvPlaces(trace, r, k + 1, cpus);
    assert trace[..k + 1] == trace[..k] + [e];
    StepOfCpu(trace, s, k);
    forall c | 0 <= c < cpus && c != e.cpu ensures Of(trace[..k + 1], c) == Of(trace[..k], c) {
      OfOneMore(trace[..k], e, c);
    }
    SumUpdate(Unmatched(trace[..k], cpus), e.cpu, Paired(Of(trace[..k + 1], e.cpu)).unmatched);
    assert Unmatched(trace[..k + 1], cpus)
        == Unmatched(trace[..k], cpus)[e.cpu := Paired(Of(trace[..k + 1], e.cpu)).unmatched];
  }

  lemma OfOneMore(trace: seq<Event>, e: Event, c: nat)
    ensures Of(trace + [e], c) == Of(trace, c) + if e.cpu == c then [e] else []
  {
    assert (trace + [e])[..|trace|] == trace;
  }

  /** On the event's own CPU. */
  lemma StepOfCpu(trace: seq<Event>, s: State, k: nat)
    requires k < |trace| && trace[k].cpu < |s.stacks| && Places(trace, s) && Places(trace, Step(trace, s, k))
    requires Irqs(trace, s.stacks[trace[k].cpu]) == Paired(Of(trace[..k], trace[k].cpu)).open
    ensures var r, c := Step(trace, s, k), trace[k].cpu;
      var before, after := Paired(Of(trace[..k], c)), Paired(Of(trace[..k + 1], c));
      && c < |r.stacks| && Irqs(trace, r.stacks[c]) == after.open
      && r.unmatched - s.unmatched == after.unmatched - before.unmatched
      && (forall d :: 0 <= d < |s.stacks| && d != c ==> d < |r.stacks| && r.stacks[d] == s.stacks[d])
  {
    var e := trace[k];
    assert trace[..k + 1] == trace[..k] + [e];
    OfOneMore(trace[..k], e, e.cpu);
    PairedOne(Of(trace[..k], e.cpu), e);
  }

  // ----- balanced traces --------------------------------------------------

  /** Interrupts one after the other, each with those that interrupted it. */
  datatype Forest = Nothing | Then(front: Forest, irq: nat, inner: Forest)

  function Flatten(f: Forest, c: nat): seq<Event> {
    match f
    case Nothing => []
    case Then(front, irq, inner) => Flatten(front, c) + [Entry(c, irq)] + Flatten(inner, c) + [Exit(c, irq)]
  }

  ghost predicate Balanced(events: seq<Event>, c: nat) {
    exists f :: Flatten(f, c) == events
  }

  predicate OnCpu(events: seq<Event>, c: nat) {
    forall k :: 0 <= k < |events| ==> events[k].cpu == c
  }

  lemma PairedOne(before: seq<Event>, e: Event)
    ensures Paired(before + [e]) == AloneStep(Paired(before), e)
  {
    assert (before + [e])[..|before|] == before;
  }

  /** A balanced piece leaves everything as it was. */
  lemma {:induction false} BalancedLeavesNothing(before: seq<Event>, f: Forest, c: nat)
    ensures Paired(before + Flatten(f, c)) == Paired(before)
    decreases f
  {
    if f.Nothing? {
      assert before + [] == before;
    } else {
      var x, e, y, z := Flatten(f.front, c), Entry(c, f.irq), Flatten(f.inner, c), Exit(c, f.irq);
      Regroup(before, x, [e], y, [z]);
      BalancedLeavesNothing(before, f.front, c);
      PairedOne(before + x, e);
      BalancedLeavesNothing(before + x + [e], f.inner, c);
      PairedOne(before + x + [e] + y, z);
    }
  }

  lemma Regroup(p: seq<Event>, x: seq<Event>, e: seq<Event>, y: seq<Event>, z: seq<Event>)
    ensures p + (x + e + y + z) == p + x + e + y + z
  {
  }

  /** What comes before the innermost open interrupt: a balanced piece and an entry for each open one. */
  function Before(fs: seq<Forest>, open: seq<nat>, c: nat): seq<Event>
    requires |open| <= |fs|
  {
    if open == [] then []
    else var m := |open| - 1; Before(fs, open[..m], c) + Flatten(fs[m], c) + [Entry(c, open[m])]
  }

  lemma {:induction false} BeforeSame(fs: seq<Forest>, gs: seq<Forest>, open: seq<nat>, c: nat)
    requires |open| <= |fs| && |open| <= |gs| && fs[..|open|] == gs[..|open|]
    ensures Before(fs, open, c) == Before(gs, open, c)
  {
    if open != [] {
      var m := |open| - 1;
      assert fs[m] == fs[..|open|][m] == gs[..|open|][m] == gs[m];
      assert fs[..m] == fs[..|open|][..m] == gs[..|open|][..m] == gs[..m];
      BeforeSame(fs, gs, open[..m], c);
    }
  }

  /** The events, as balanced pieces around the open entries. */
  ghost predicate Parsed(events: seq<Event>, open: seq<nat>, fs: seq<Forest>, c: nat) {
    |fs| == |open| + 1 && events == Before(fs, open, c) + Flatten(fs[|open|], c)
  }

  lemma ParseEntry(front: seq<Event>, open: seq<nat>, irq: nat, gs: seq<Forest>, c: nat)
    requires Parsed(front, open, gs, c)
    ensures Parsed(front + [Entry(c, irq)], open + [irq], gs + [Nothing], c)
  {
    BeforeSame(gs, gs + [Nothing], open, c);
    assert (open + [irq])[..|open|] == open;
  }

  lemma ParseExit(front: seq<Event>, open: seq<nat>, irq: nat, gs: seq<Forest>, c: nat)
    requires Parsed(front, open, gs, c) && open != [] && open[|open| - 1] == irq
    ensures var m := |open| - 1; Parsed(front + [Exit(c, irq)], open[..m], gs[..m] + [Then(gs[m], irq, gs[m + 1])], c)
  {
    var m := |open| - 1;
    BeforeSame(gs, gs[..m] + [Then(gs[m], irq, gs[m + 1])], open[..m], c);
    Regroup(Before(gs, open[..m], c), Flatten(gs[m], c), [Entry(c, irq)], Flatten(gs[m + 1], c), [Exit(c, irq)]);
    RegroupFront(Before(gs, open[..m], c), Flatten(gs[m], c), [Entry(c, irq)]);
  }

  /** Events without an unmatched exit can be written so. */
  lemma {:induction false} Parse(events: seq<Event>, c: nat) returns (fs: seq<Forest>)
    requires OnCpu(events, c) && Paired(events).unmatched == 0
    ensures Parsed(events, Paired(events).open, fs, c)
  {
    if events == [] {
      fs := [Nothing];
      return;
    }
    var front, e := events[..|events| - 1], events[|events| - 1];
    var open := Paired(front).open;
    var gs := Parse(front, c);
    assert events == front + [e] && e.cpu == c;
    if e.Entry? {
      ParseEntry(front, open, e.irq, gs, c);
      fs := gs + [Nothing];
    } else {
      ParseExit(front, open, e.irq, gs, c);
      fs := gs[..|open| - 1] + [Then(gs[|open| - 1], e.irq, gs[|open|])];
    }
  }

  lemma RegroupFront(p: seq<Event>, x: seq<Event>, e: seq<Event>)
    ensures p + (x + e) == p + x + e
  {
  }

  /** Pairing one CPU's events leaves nothing over exactly when they are balanced. */
  lemma {:induction false} AllPairedIffBalanced(events: seq<Event>, c: nat)
    requires OnCpu(events, c)
    ensures Paired(events) == Alone([], 0) <==> Balanced(events, c)
  {
    if Paired(events) == Alone([], 0) {
      var fs := Parse(events, c);
      assert Flatten(fs[0], c) == events;
    }
    if f :| Flatten(f, c) == events {
      BalancedLeavesNothing([], f, c);
      assert [] + events == events;
    }
  }

  lemma {:induction false} OfIsOnCpu(trace: seq<Event>, c: nat)
    ensures OnCpu(Of(trace, c), c)
  {
    if trace != [] { OfIsOnCpu(trace[..|trace| - 1], c); }
  }

  ghost predicate NothingLeft(s: State) {
    s.unmatched == 0 && forall c :: 0 <= c < |s.stacks| ==> s.stacks[c] == []
  }

  lemma {:induction false} ZeroSum(s: seq<int>)
    requires Sum(s) == 0 && forall k :: 0 <= k < |s| ==> 0 <= s[k]
    ensures forall k :: 0 <= k < |s| ==> s[k] == 0
  {
    if s != [] {
      SumNotNegative(s[1..]);
      ZeroSum(s[1..]);
      forall k | 0 < k < |s| ensures s[k] == 0 { assert s[k] == s[1..][k - 1]; }
    }
  }

  lemma {:induction false} SumNotNegative(s: seq<int>)
    requires forall k :: 0 <= k < |s| ==> 0 <= s[k]
    ensures 0 <= Sum(s)
  {
    if s != [] { SumNotNegative(s[1..]); }
  }

  /** Nothing is left over on a CPU exactly when its events are balanced. */
  lemma CpuIsClear(trace: seq<Event>, cpus: nat, c: nat)
    requires Trace(trace, cpus) && c < cpus
    ensures After(trace, cpus, |trace|).stacks[c] == [] && NoneUnmatched(trace, c) <==> Balanced(Of(trace, c), c)
  {
    var s, alone := After(trace, cpus, |trace|), Paired(Of(trace, c));
    CpusAreIndependent(trace, cpus, |trace|);
    assert trace[..|trace|] == trace;
    assert |Irqs(trace, s.stacks[c])| == |s.stacks[c]| == |alone.open|;
    assert alone == Alone(alone.open, alone.unmatched);
    OfIsOnCpu(trace, c);
    AllPairedIffBalanced(Of(trace, c), c);
  }

  ghost predicate AllBalanced(trace: seq<Event>, cpus: nat) {
    forall c :: 0 <= c < cpus ==> Balanced(Of(trace, c), c)
  }

  lemma PairedThenBalanced(trace: seq<Event>, cpus: nat, c: nat)
    requires Trace(trace, cpus) && c < cpus && NothingLeft(After(trace, cpus, |trace|))
    ensures Balanced(Of(trace, c), c)
  {
    CpusAreIndependent(trace, cpus, |trace|);
    assert trace[..|trace|] == trace;
    ZeroExactly(trace, cpus);
    assert NoneUnmatched(trace, c);
    CpuIsClear(trace, cpus, c);
  }

  lemma BalancedThenPaired(trace: seq<Event>, cpus: nat)
    requires Trace(trace, cpus) && AllBalanced(trace, cpus)
    ensures NothingLeft(After(trace, cpus, |trace|))
  {
    var s := After(trace, cpus, |trace|);
    CpusAreIndependent(trace, cpus, |trace|);
    assert trace[..|trace|] == trace;
    forall c | 0 <= c < cpus ensures NoneUnmatched(trace, c) && s.stacks[c] == [] { CpuIsClear(trace, cpus, c); }
    ZeroExactly(trace, cpus);
  }

  /** Every event of the trace is paired if and only if the events of every CPU are balanced,
      however the CPUs interleave. */
  lemma {:induction false} EverythingPairsIffBalanced(trace: seq<Event>, cpus: nat)
    requires Trace(trace, cpus)
    ensures NothingLeft(After(trace, cpus, |trace|)) <==> AllBalanced(trace, cpus)
  {
    if NothingLeft(After(trace, cpus, |trace|)) {
      forall c | 0 <= c < cpus ensures Balanced(Of(trace, c), c) { PairedThenBalanced(trace, cpus, c); }
    } else if AllBalanced(trace, cpus) {
      BalancedThenPaired(trace, cpus);
    }
  }

  predicate NoneUnmatched(trace: seq<Event>, c: nat) {
    Paired(Of(trace, c)).unmatched == 0
  }

  lemma ZeroExactly(trace: seq<Event>, cpus: nat)
    ensures Sum(Unmatched(trace, cpus)) == 0 <==> forall c :: 0 <= c < cpus ==> NoneUnmatched(trace, c)
  {
    var counts := Unmatched(trace, cpus);
    if Sum(counts) == 0 {
      ZeroSum(counts);
      forall c | 0 <= c < cpus ensures NoneUnmatched(trace, c) { assert counts[c] == 0; }
    }
    if forall c :: 0 <= c < cpus ==> NoneUnmatched(trace, c) {
      forall c | 0 <= c < cpus ensures counts[c] == 0 { assert NoneUnmatched(trace, c); }
      SumZero(counts);
    }
  }

  // ----- the program ------------------------------------------------------

  /** The body of the loop: push, pop into a pair, or count an exit without an entry. */
  method Handle(trace: seq<Event>, k: nat, s: State) returns (r: State)
    requires k < |trace| && trace[k].cpu < |s.stacks| && Places(trace, s)
    ensures r == Step(trace, s, k)
  {
    var e := trace[k];
    var stack := s.stacks[e.cpu];
    r := s;
    if e.Entry? {
      r := r.(stacks := s.stacks[e.cpu := stack + [k]]);
    } else if stack != [] && trace[stack[|stack| - 1]].irq == e.irq {
      r := r.(stacks := s.stacks[e.cpu := stack[..|stack| - 1]]);
      r := r.(pairs := s.pairs + [Pair(stack[|stack| - 1], k)]);
    } else {
      r := r.(unmatched := s.unmatched + 1);
    }
  }

  lemma AfterNext(trace: seq<Event>, cpus: nat, k: nat)
    requires Trace(trace, cpus) && k < |trace|
    ensures Places(trace, After(trace, cpus, k)) && After(trace, cpus, k + 1) == Step(trace, After(trace, cpus, k), k)
    ensures Entries(trace[..k + 1]) == Entries(trace[..k]) + if trace[k].Entry? then 1 else 0
  {
    StepKeeps(trace, After(trace, cpus, k), k, cpus);
    assert trace[..k + 1][..k] == trace[..k];
  }

  /** The loop over the events of the trace. */
  method PairUp(trace: seq<Event>, cpus: nat) returns (entries: nat, s: State)
    requires Trace(trace, cpus)
    ensures entries == Entries(trace) && s == After(trace, cpus, |trace|)
  {
    entries, s := 0, State(seq(cpus, _ => []), [], 0);
    var k := 0;
    while k < |trace|
      invariant k <= |trace| && entries == Entries(trace[..k])
      invariant s == After(trace, cpus, k)
    {
      AfterNext(trace, cpus, k);
      s := Handle(trace, k, s);
      if trace[k].Entry? { entries := entries + 1; }
      k := k + 1;
    }
    assert trace[..k] == trace;
  }

  /** The numbers the script prints: entries, pairs, entries left on the stacks, exits without an entry. */
  method Summarize(trace: seq<Event>, cpus: nat) returns (entries: nat, pairs: seq<Pair>, left: nat, unmatched: nat)
    requires Trace(trace, cpus)
    ensures entries == Entries(trace) == |pairs| + left && |trace| - entries == |pairs| + unmatched
    ensures forall a :: 0 <= a < |pairs| ==> PairOk(trace, |trace|, pairs[a])
    ensures forall a, b {:trigger NestedPairs(trace, pairs, a, b)} :: 0 <= a < b < |pairs| ==>
        NestedPairs(trace, pairs, a, b)
    ensures left == unmatched == 0 <==> AllBalanced(trace, cpus)
  {
    var s;
    entries, s := PairUp(trace, cpus);
    pairs, unmatched := s.pairs, s.unmatched;
    left := Left(s.stacks);
    EverythingPairsIffBalanced(trace, cpus);
    assert trace[..|trace|] == trace;
    assert NothingLeft(s) <==> left == unmatched == 0;
    forall a | 0 <= a < |pairs| ensures PairOk(trace, |trace|, pairs[a]) { assert PairOk(trace, |trace|, s.pairs[a]); }
  }

  method Left(stacks: seq<seq<nat>>) returns (left: nat)
    ensures left == Sum(Depths(stacks))
    ensures left == 0 <==> forall c :: 0 <= c < |stacks| ==> stacks[c] == []
  {
    left := 0;
    var c := |stacks|;
    ghost var depths := Depths(stacks);
    while c > 0
      invariant 0 <= c <= |stacks| && left == Sum(depths[c..])
      invariant left == 0 <==> forall d :: c <= d < |stacks| ==> stacks[d] == []
    {
      c := c - 1;
      left := left + |stacks[c]|;
      assert depths[c..] == [depths[c]] + depths[c + 1..];
    }
    assert depths[0..] == depths;
  }
}
