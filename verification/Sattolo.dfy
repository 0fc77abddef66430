/** The random cycle of ws_demo.c (Sattolo's algorithm), the generator that
    drives it and the pointer chase that follows it. */
module Sattolo {
  import opened Arith
  import opened Seqs

  /** k steps of the pointer chase from slot x. */
  function Follow(next: seq<nat>, x: nat, k: nat): (y: nat)
    requires x < |next| && forall i :: 0 <= i < |next| ==> next[i] < |next|
    ensures y < |next|
  {
    if k == 0 then x else next[Follow(next, x, k - 1)]
  }

  ghost predicate Slots(next: seq<nat>) {
    forall i :: 0 <= i < |next| ==> next[i] < |next|
  }

  /** Following from slot 0 visits every slot exactly once before it returns. */
  ghost predicate SingleCycle(next: seq<nat>) {
    && 0 < |next| && Slots(next)
    && Follow(next, 0, |next|) == 0
    && (forall a, b :: 0 <= a < b < |next| ==> Follow(next, 0, a) != Follow(next, 0, b))
    && (forall x :: 0 <= x < |next| ==> Visited(next, x))
  }

  ghost predicate Visited(next: seq<nat>, x: nat)
    requires 0 < |next| && Slots(next)
  {
    exists k :: 0 <= k < |next| && Follow(next, 0, k) == x
  }

  // ----- the cycles of the permutation while it is built ------------------

  /** c is a cycle of next, written from its first slot on. */
  ghost predicate Cycle(next: seq<nat>, c: seq<nat>) {
    && c != []
    && forall p :: 0 <= p < |c| ==> c[p] < |next| && next[c[p]] == c[if p + 1 < |c| then p + 1 else 0]
  }

  /** Two cycles, or two places of one, hold different slots. */
  ghost predicate Apart(cs: seq<seq<nat>>) {
    forall r, q, p, o ::
      0 <= r < |cs| && 0 <= q < |cs| && 0 <= p < |cs[r]| && 0 <= o < |cs[q]| && cs[r][p] == cs[q][o] ==>
        r == q && p == o
  }

  ghost function Total(cs: seq<seq<nat>>): nat {
    if cs == [] then 0 else |cs[0]| + Total(cs[1..])
  }

  /** next consists of |cs| cycles, and the r-th of them starts at slot r. */
  ghost predicate Cycles(next: seq<nat>, cs: seq<seq<nat>>) {
    && Apart(cs) && Total(cs) == |next|
    && forall r :: 0 <= r < |cs| ==> Cycle(next, cs[r]) && cs[r][0] == r
  }

  lemma {:induction false} TotalUpdate(cs: seq<seq<nat>>, j: nat, c: seq<nat>)
    requires j < |cs|
    ensures Total(cs[j := c]) == Total(cs) - |cs[j]| + |c|
  {
    if j == 0 {
      assert cs[0 := c][1..] == cs[1..];
    } else {
      assert cs[j := c][1..] == cs[1..][j - 1 := c];
      TotalUpdate(cs[1..], j - 1, c);
    }
  }

  lemma {:induction false} TotalOfTwo(cs: seq<seq<nat>>, c: seq<nat>)
    ensures Total(cs + [c]) == Total(cs) + |c|
  {
    if cs == [] {
      assert [c][1..] == [];
    } else {
      assert (cs + [c])[1..] == cs[1..] + [c];
      TotalOfTwo(cs[1..], c);
    }
  }

  /** The cycle of slot i, cut open at i, is spliced in after slot j. */
  function Spliced(cs: seq<seq<nat>>, i: nat, j: nat): seq<nat>
    requires i < |cs| && j < |cs| && cs[i] != [] && cs[j] != []
  {
    [j] + cs[i][1..] + [i] + cs[j][1..]
  }

  /** The cycles after the splice; the one of slot i is gone. */
  function Merged(cs: seq<seq<nat>>, i: nat, j: nat): seq<seq<nat>>
    requires j < i < |cs| && cs[i] != [] && cs[j] != []
  {
    cs[..i][j := Spliced(cs, i, j)]
  }

  function Swapped(next: seq<nat>, i: nat, j: nat): seq<nat>
    requires i < |next| && j < |next|
  {
    next[i := next[j]][j := next[i]]
  }

  lemma {:induction false} SplicedIsCycle(next: seq<nat>, cs: seq<seq<nat>>, i: nat, j: nat)
    requires Cycles(next, cs) && j < i < |cs|
    ensures i < |next| && Cycle(Swapped(next, i, j), Spliced(cs, i, j))
  {
    var ci, cj, c := cs[i], cs[j], Spliced(cs, i, j);
    assert Cycle(next, ci) && Cycle(next, cj) && ci[0] == i && cj[0] == j;
    var r := Swapped(next, i, j);
    forall p | 0 <= p < |c| ensures c[p] < |r| && r[c[p]] == c[if p + 1 < |c| then p + 1 else 0] {
      if 0 < p < |ci| {
        assert c[p] == ci[p] && ci[p] != ci[0] && ci[p] != cj[0];
      } else if p > |ci| {
        assert c[p] == cj[p - |ci|] && cj[p - |ci|] != cj[0] && cj[p - |ci|] != ci[0];
      }
    }
  }

  lemma {:induction false} OthersStay(next: seq<nat>, cs: seq<seq<nat>>, i: nat, j: nat, r: nat)
    requires Cycles(next, cs) && j < i < |cs| && r < |cs| && r != i && r != j
    ensures i < |next| && Cycle(Swapped(next, i, j), cs[r])
  {
    assert Cycle(next, cs[i]) && Cycle(next, cs[j]) && Cycle(next, cs[r]);
    forall p | 0 <= p < |cs[r]| ensures cs[r][p] != i && cs[r][p] != j {
      assert cs[r][p] != cs[i][0] && cs[r][p] != cs[j][0];
    }
  }

  /** One swap of Sattolo's loop merges two cycles, and leaves one fewer. */
  lemma {:induction false} SwapMerges(next: seq<nat>, cs: seq<seq<nat>>, i: nat, j: nat)
    requires Cycles(next, cs) && j < i && |cs| == i + 1
    ensures i < |next| && Cycles(Swapped(next, i, j), Merged(cs, i, j))
  {
    SplicedIsCycle(next, cs, i, j);
    var c := Spliced(cs, i, j);
    var ds := Merged(cs, i, j);
    forall r | 0 <= r < |ds| ensures Cycle(Swapped(next, i, j), ds[r]) && ds[r][0] == r {
      if r != j { OthersStay(next, cs, i, j, r); }
    }
    TotalUpdate(cs[..i], j, c);
    TotalOfTwo(cs[..i], cs[i]);
    assert cs == cs[..i] + [cs[i]];
    SpliceKeepsApart(cs, i, j);
  }

  /** Where the place p of the spliced cycle comes from. */
  function Origin(cs: seq<seq<nat>>, i: nat, j: nat, r: nat, p: nat): (nat, nat)
    requires i < |cs| && j < |cs|
  {
    if r != j || p == 0 then (r, p)
    else if p < |cs[i]| then (i, p)
    else if p == |cs[i]| then (i, 0)
    else (j, p - |cs[i]|)
  }

  lemma OriginHolds(cs: seq<seq<nat>>, i: nat, j: nat, r: nat, p: nat)
    requires |cs| == i + 1 && j < i && r < i && forall q :: 0 <= q < |cs| ==> cs[q] != [] && cs[q][0] == q
    requires p < |Merged(cs, i, j)[r]|
    ensures var o := Origin(cs, i, j, r, p);
      o.0 < |cs| && o.1 < |cs[o.0]| && Merged(cs, i, j)[r][p] == cs[o.0][o.1]
  {
  }

  lemma {:induction false} SpliceKeepsApart(cs: seq<seq<nat>>, i: nat, j: nat)
    requires |cs| == i + 1 && j < i && Apart(cs) && forall q :: 0 <= q < |cs| ==> cs[q] != [] && cs[q][0] == q
    ensures Apart(Merged(cs, i, j))
  {
    var ds := Merged(cs, i, j);
    forall r, q, p, o
      | 0 <= r < |ds| && 0 <= q < |ds| && 0 <= p < |ds[r]| && 0 <= o < |ds[q]| && ds[r][p] == ds[q][o]
      ensures r == q && p == o
    {
      OriginHolds(cs, i, j, r, p);
      OriginHolds(cs, i, j, q, o);
      assert Origin(cs, i, j, r, p) == Origin(cs, i, j, q, o);
    }
  }

  // ----- one cycle of all slots -------------------------------------------

  lemma FollowsCycle(next: seq<nat>, c: seq<nat>, k: nat)
    requires Slots(next) && Cycle(next, c) && c[0] == 0 && k <= |c|
    ensures Follow(next, 0, k) == if k < |c| then c[k] else 0
  {
    if k > 0 { FollowsCycle(next, c, k - 1); }
  }

  lemma AllSlotsVisited(next: seq<nat>, c: seq<nat>, x: nat)
    requires Slots(next) && Cycle(next, c) && c[0] == 0 && Distinct(c) && |c| == |next| && x < |next|
    ensures Visited(next, x)
  {
    if k :| 0 <= k < |c| && c[k] == x {
      FollowsCycle(next, c, k);
    } else {
      Pigeonhole(c + [x], |next|);
    }
  }

  /** One cycle left: it is the whole permutation. */
  lemma {:induction false} OneCycleIsSingle(next: seq<nat>, cs: seq<seq<nat>>)
    requires Slots(next) && Cycles(next, cs) && |cs| == 1
    ensures SingleCycle(next)
  {
    var c := cs[0];
    assert Cycle(next, c) && Total(cs) == |c| + Total(cs[1..]);
    assert forall p, o :: 0 <= p < o < |c| ==> cs[0][p] != cs[0][o];
    assert Distinct(c);
    FollowsCycle(next, c, |c|);
    forall k | 0 <= k < |c| ensures Follow(next, 0, k) == c[k] { FollowsCycle(next, c, k); }
    forall x | 0 <= x < |next| ensures Visited(next, x) { AllSlotsVisited(next, c, x); }
  }

  lemma {:induction false} FollowFrom(next: seq<nat>, a: nat, b: nat)
    requires 0 < |next| && Slots(next)
    ensures Follow(next, 0, a + b) == Follow(next, Follow(next, 0, a), b)
  {
    if b > 0 { FollowFrom(next, a, b - 1); }
  }

  /** After |next| steps the chase starts over. */
  lemma {:induction false} FollowRounds(next: seq<nat>, q: nat, k: nat)
    requires SingleCycle(next)
    ensures Follow(next, 0, q * |next| + k) == Follow(next, 0, k)
  {
    if q > 0 {
      var before := (q - 1) * |next| + k;
      assert q * |next| + k == |next| + before;
      FollowFrom(next, |next|, before);
      FollowRounds(next, q - 1, k);
    }
  }

  lemma FollowRepeats(next: seq<nat>, k: nat)
    requires SingleCycle(next)
    ensures Follow(next, 0, k) == Follow(next, 0, k % |next|)
  {
    DivMod(k, |next|);
    FollowRounds(next, k / |next|, k % |next|);
  }

  // ----- the choices ------------------------------------------------------

  /** The choices j of Sattolo's loop for i = |js|, ..., 1. */
  ghost predicate Fits(js: seq<nat>) {
    forall k :: 0 <= k < |js| ==> js[k] < |js| - k
  }

  /** What the loop makes of next. */
  ghost function Shuffled(next: seq<nat>, js: seq<nat>): (r: seq<nat>)
    requires Fits(js) && (js == [] || |js| < |next|)
    ensures |r| == |next|
    decreases |js|
  {
    if js == [] then next else Shuffled(Swapped(next, |js|, js[0]), js[1..])
  }

  ghost function Identities(n: nat): (next: seq<nat>)
    ensures |next| == n
  {
    seq(n, k => k)
  }

  /** The loop that starts at i does not touch what lies behind. */
  lemma {:induction false} BehindStays(next: seq<nat>, js: seq<nat>, k: nat)
    requires Fits(js) && |js| < k < |next|
    ensures Shuffled(next, js)[k] == next[k]
    decreases |js|
  {
    if js != [] { BehindStays(Swapped(next, |js|, js[0]), js[1..], k); }
  }

  /** Each swap settles its slot. */
  lemma SlotIsSettled(next: seq<nat>, js: seq<nat>)
    requires Fits(js) && 0 < |js| < |next|
    ensures Shuffled(next, js)[|js|] == next[js[0]]
  {
    BehindStays(Swapped(next, |js|, js[0]), js[1..], |js|);
  }

  /** Different choices make different permutations. */
  lemma {:induction false} ChoicesAreDetermined(next: seq<nat>, a: seq<nat>, b: seq<nat>)
    requires Fits(a) && Fits(b) && |a| == |b| < |next| && Distinct(next)
    requires Shuffled(next, a) == Shuffled(next, b)
    ensures a == b
    decreases |a|
  {
    if a != [] {
      SlotIsSettled(next, a);
      SlotIsSettled(next, b);
      assert a[0] == b[0];
      ChoicesAreDetermined(Swapped(next, |a|, a[0]), a[1..], b[1..]);
      assert a == [a[0]] + a[1..] && b == [b[0]] + b[1..];
    }
  }

  /** The whole loop leaves one cycle. */
  lemma {:induction false} ShuffledIsCycle(next: seq<nat>, cs: seq<seq<nat>>, js: seq<nat>)
    requires Fits(js) && |js| < |next| && |cs| == |js| + 1 && Slots(next) && Cycles(next, cs)
    ensures SingleCycle(Shuffled(next, js))
    decreases |js|
  {
    if js == [] {
      OneCycleIsSingle(next, cs);
    } else {
      SwapMerges(next, cs, |js|, js[0]);
      ShuffledIsCycle(Swapped(next, |js|, js[0]), Merged(cs, |js|, js[0]), js[1..]);
    }
  }

  lemma {:induction false} TotalOfSingles(cs: seq<seq<nat>>)
    requires forall k :: 0 <= k < |cs| ==> |cs[k]| == 1
    ensures Total(cs) == |cs|
  {
    if cs != [] { TotalOfSingles(cs[1..]); }
  }

  /** At the start every slot is a cycle of its own. */
  lemma SlotsAreCycles(n: nat) returns (cs: seq<seq<nat>>)
    ensures |cs| == n && Slots(Identities(n)) && Cycles(Identities(n), cs) && Distinct(Identities(n))
  {
    cs := seq(n, k requires 0 <= k => [k]);
    TotalOfSingles(cs);
  }

  /** A cycle that the whole cycle contains contains slot 0. */
  lemma InsideCycle(p: seq<nat>, c: seq<nat>, k: nat)
    requires Slots(p) && Cycle(p, c)
    ensures Follow(p, c[0], k) in c
  {
    if k > 0 {
      InsideCycle(p, c, k - 1);
      var q :| 0 <= q < |c| && c[q] == Follow(p, c[0], k - 1);
      assert p[c[q]] == c[if q + 1 < |c| then q + 1 else 0];
    }
  }

  lemma CycleHasZero(p: seq<nat>, c: seq<nat>)
    requires SingleCycle(p) && Cycle(p, c)
    ensures 0 in c
  {
    assert Visited(p, c[0]);
    var a :| 0 <= a < |p| && Follow(p, 0, a) == c[0];
    FollowFrom(p, a, |p| - a);
    InsideCycle(p, c, |p| - a);
  }

  /** The loop at i has settled the slots behind i as they are in p. */
  ghost predicate Settled(next: seq<nat>, cs: seq<seq<nat>>, p: seq<nat>) {
    && |next| == |p| && 0 < |cs| <= |p| && Slots(next) && Distinct(next) && Cycles(next, cs)
    && forall k :: |cs| <= k < |p| ==> next[k] == p[k]
  }

  lemma HasValue(next: seq<nat>, x: nat)
    requires Slots(next) && Distinct(next) && x < |next|
    ensures exists q :: 0 <= q < |next| && next[q] == x
  {
    assert Distinct(next + [x]) || exists q :: 0 <= q < |next| && next[q] == x;
    if Distinct(next + [x]) { Pigeonhole(next + [x], |next|); }
  }

  /** What p has at slot i is still in front. */
  lemma StillInFront(next: seq<nat>, cs: seq<seq<nat>>, p: seq<nat>, i: nat) returns (j: nat)
    requires Settled(next, cs, p) && |cs| == i + 1 && Slots(p) && Distinct(p)
    ensures j <= i && next[j] == p[i]
  {
    HasValue(next, p[i]);
    j :| 0 <= j < |next| && next[j] == p[i];
  }

  /** The first slot of cycle r, if there is one. */
  ghost function First(cs: seq<seq<nat>>, r: nat): int {
    if r < |cs| && cs[r] != [] then cs[r][0] else -1
  }

  lemma FirstSlots(next: seq<nat>, cs: seq<seq<nat>>, r: nat)
    requires Cycles(next, cs)
    ensures r < |cs| ==> First(cs, r) == r
  {
    if r < |cs| { assert Cycle(next, cs[r]); }
  }

  /** The rest of a cycle lies behind the cycles' first slots. */
  lemma RestIsBehind(next: seq<nat>, cs: seq<seq<nat>>, i: nat, q: nat)
    requires Cycles(next, cs) && i < |cs| && 0 < q < |cs[i]|
    ensures |cs| <= cs[i][q]
  {
    FirstSlots(next, cs, cs[i][q]);
  }

  /** A slot that is to be settled by itself has a cycle of p's, and p has only one. */
  lemma SettledHasZero(next: seq<nat>, cs: seq<seq<nat>>, p: seq<nat>, i: nat)
    requires Settled(next, cs, p) && |cs| == i + 1 && SingleCycle(p)
    ensures next[i] == p[i] ==> 0 in cs[i]
  {
    var c := cs[i];
    if next[i] == p[i] {
      assert Cycle(next, c);
      forall q | 0 <= q < |c| ensures p[c[q]] == next[c[q]] {
        if q > 0 { RestIsBehind(next, cs, i, q); }
      }
      assert Cycle(p, c);
      CycleHasZero(p, c);
    }
  }

  lemma ZeroIsFirst(next: seq<nat>, cs: seq<seq<nat>>, i: nat)
    requires Cycles(next, cs) && 0 < i < |cs|
    ensures 0 !in cs[i]
  {
    assert Cycle(next, cs[0]) && Cycle(next, cs[i]) && cs[0][0] == 0;
    forall q | 0 <= q < |cs[i]| ensures cs[i][q] != 0 {
      if q > 0 { RestIsBehind(next, cs, i, q); }
    }
  }

  lemma SingleIsDistinct(p: seq<nat>)
    requires SingleCycle(p)
    ensures Distinct(p)
  {
    forall x, y | 0 <= x < y < |p| ensures p[x] != p[y] {
      assert Visited(p, x) && Visited(p, y);
      var a :| 0 <= a < |p| && Follow(p, 0, a) == x;
      var b :| 0 <= b < |p| && Follow(p, 0, b) == y;
      assert Follow(p, 0, a + 1) == p[x] && Follow(p, 0, b + 1) == p[y];
      assert Follow(p, 0, 0) == 0 == Follow(p, 0, |p|) && a != b;
    }
  }

  /** Any single cycle is made by some choices. */
  lemma {:induction false} ChoicesFor(next: seq<nat>, cs: seq<seq<nat>>, p: seq<nat>) returns (js: seq<nat>)
    requires Settled(next, cs, p) && SingleCycle(p)
    ensures |js| + 1 == |cs| && Fits(js) && Shuffled(next, js) == p
    decreases |cs|
  {
    var i := |cs| - 1;
    SingleIsDistinct(p);
    var j := StillInFront(next, cs, p, i);
    if i == 0 {
      js := [];
      assert next == p;
    } else {
      SettledHasZero(next, cs, p, i);
      ZeroIsFirst(next, cs, i);
      SwapMerges(next, cs, i, j);
      var rest := ChoicesFor(Swapped(next, i, j), Merged(cs, i, j), p);
      js := [j] + rest;
      assert js[1..] == rest;
    }
  }

  /** The loop can make exactly the permutations that are one cycle of all slots, each in exactly one way. */
  lemma {:induction false} EachCycleOnce(p: seq<nat>)
    requires 0 < |p|
    ensures SingleCycle(p) <==> exists js :: Makes(js, p)
    ensures forall a, b :: Makes(a, p) && Makes(b, p) ==> a == b
  {
    var cs := SlotsAreCycles(|p|);
    if SingleCycle(p) {
      var js := ChoicesFor(Identities(|p|), cs, p);
      assert Makes(js, p);
    }
    forall js | Makes(js, p) ensures SingleCycle(p) { ShuffledIsCycle(Identities(|p|), cs, js); }
    forall a, b | Makes(a, p) && Makes(b, p) ensures a == b { ChoicesAreDetermined(Identities(|p|), a, b); }
  }

  ghost predicate Makes(js: seq<nat>, p: seq<nat>) {
    |js| + 1 == |p| && Fits(js) && Shuffled(Identities(|p|), js) == p
  }

  // ----- the generator ----------------------------------------------------

  function XorLeft13(x: bv64): bv64 {
    x ^ (x << 13)
  }

  function XorRight7(x: bv64): bv64 {
    x ^ (x >> 7)
  }

  function XorLeft17(x: bv64): bv64 {
    x ^ (x << 17)
  }

  function Xorshift(x: bv64): bv64 {
    XorLeft17(XorRight7(XorLeft13(x)))
  }

  /** From a state other than 0 the generator never gets to 0. */
  lemma NeverZero(x: bv64)
    requires x != 0
    ensures Xorshift(x) != 0
  {
  }

  /** The first number from the program's seed. */
  lemma FirstNumber()
    ensures Xorshift(0x9E37_79B9_7F4A_7C15) == 0xDC1B_77AE_0BF3_4DAD
  {
  }

  /** The generator's state after k calls. */
  function StateAfter(rng: bv64, k: nat): bv64 {
    if k == 0 then rng else Xorshift(StateAfter(rng, k - 1))
  }

  function Draw(number: bv64, i: nat): (j: nat)
    requires 0 < i
    ensures j < i
  {
    (number as int) % i
  }

  /** The choices that the loop draws from the generator, from slot i down. */
  ghost function Choices(rng: bv64, i: nat): (js: seq<nat>)
    ensures |js| == i && Fits(js)
  {
    seq(i, k requires 0 <= k < i => Draw(StateAfter(rng, k + 1), i - k))
  }

  lemma StateFrom(rng: bv64, k: nat)
    ensures StateAfter(Xorshift(rng), k) == StateAfter(rng, k + 1)
  {
    if k > 0 { StateFrom(rng, k - 1); }
  }

  /** The first choice, and the others after it. */
  lemma FirstChoice(rng: bv64, i: nat)
    requires 0 < i
    ensures Choices(rng, i) == [Draw(Xorshift(rng), i)] + Choices(Xorshift(rng), i - 1)
  {
    var later := Choices(Xorshift(rng), i - 1);
    forall k | 0 <= k < i - 1 ensures later[k] == Choices(rng, i)[k + 1] { StateFrom(rng, k + 1); }
    assert StateAfter(rng, 1) == Xorshift(StateAfter(rng, 0)) == Xorshift(rng);
  }

  lemma MadeIsCycle(js: seq<nat>, p: seq<nat>)
    requires Makes(js, p)
    ensures SingleCycle(p)
  {
    EachCycleOnce(p);
  }

  lemma OneSwapMore(next: seq<nat>, js: seq<nat>, j: nat, rest: seq<nat>)
    requires js == [j] + rest && j < |js| < |next| && Fits(js) && Fits(rest)
    ensures Shuffled(next, js) == Shuffled(Swapped(next, |js|, j), rest)
  {
    assert js[1..] == rest;
  }

  // ----- the program ------------------------------------------------------

  class WsDemo {
    var rng: bv64

    constructor (seed: bv64)
      ensures rng == seed
    {
      rng := seed;
    }

    /** xorshift64: from a state other than 0 it never gets to 0. */
    method NextRand() returns (r: bv64)
      modifies this
      ensures r == rng == Xorshift(old(rng)) && (old(rng) != 0 ==> rng != 0)
    {
      if rng != 0 { NeverZero(rng); }
      rng := XorLeft13(rng);
      rng := XorRight7(rng);
      rng := XorLeft17(rng);
      r := rng;
    }

    /** One choice from the generator. */
    method Choose(i: nat) returns (j: nat)
      requires 0 < i
      modifies this
      ensures j < i && Choices(old(rng), i) == [j] + Choices(rng, i - 1)
    {
      FirstChoice(rng, i);
      var r := NextRand();
      j := Draw(r, i);
    }

    /** The result is the one cycle through all slots that the generator's numbers choose. */
    method BuildCycle(next: array<nat>)
      requires 0 < next.Length < 0x1_0000_0000
      modifies this, next
      ensures SingleCycle(next[..])
      ensures Makes(Choices(old(rng), next.Length - 1), next[..])
    {
      var n := next.Length;
      Identity(next);
      var i := n - 1;
      ghost var js := Choices(rng, i);
      ghost var left := js;
      while i > 0
        invariant 0 <= i < n && |left| == i && Fits(left) && left == Choices(rng, i)
        invariant Shuffled(next[..], left) == Shuffled(Identities(n), js)
      {
        ghost var before, now := next[..], left;
        var j := Choose(i);
        left := Choices(rng, i - 1);
        OneSwapMore(before, now, j, left);
        var t := next[i];
        next[i] := next[j];
        next[j] := t;
        assert next[..] == Swapped(before, i, j);
        i := i - 1;
      }
      MadeIsCycle(js, next[..]);
    }

    /** Every slot points to itself. */
    method Identity(next: array<nat>)
      modifies next
      ensures next[..] == Identities(next.Length)
    {
      var i := 0;
      while i < next.Length
        invariant 0 <= i <= next.Length
        invariant forall k :: 0 <= k < i ==> next[k] == k
      {
        next[i] := i;
        i := i + 1;
      }
    }

    /** The timed loop: `accesses` dependent loads. */
    method Chase(next: array<nat>, accesses: nat) returns (p: nat)
      requires SingleCycle(next[..])
      ensures p == Follow(next[..], 0, accesses % next.Length)
    {
      p := 0;
      for i := 0 to accesses
        invariant p == Follow(next[..], 0, i)
      {
        p := next[p];
      }
      FollowRepeats(next[..], accesses);
    }
  }
}
