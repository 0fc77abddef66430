/** Which misuse can hide a deadlock from lockcheck, for every number of threads,
    slots and held-set entries. */
module LockMisuse {
  import opened WaitGraph
  import opened HeldSet
  import opened LockTable
  import opened Lockcheck
  import opened LockRuns

  ghost predicate Reachable(z: Setup, a: Misuse, s: Sys) {
    exists run, steps :: Run(z, a, run, steps) && run[|steps|] == s
  }

  /** No run that misuses locks at most as `a` allows has a circular wait without a W1. */
  ghost predicate Warned(z: Setup, a: Misuse) {
    forall s, c :: Reachable(z, a, s) && CircularWait(s, c) ==> s.g.w1 >= 1
  }

  /** Some run has a circular wait without a W1. */
  ghost predicate Hidden(z: Setup, a: Misuse) {
    exists s, c :: Reachable(z, a, s) && CircularWait(s, c) && s.g.w1 == 0
  }

  /** The misuses allowed do not matter with these sizes. */
  predicate Harmless(z: Setup, a: Misuse) {
    z.threads > 0 ==>
      && !a.fullTable
      && (a.fullHeld ==> z.slots <= z.maxHeld)
      && (z.slots > 0 && z.maxHeld > 0 ==> !a.busyDestroy && (a.strangers ==> z.threads == 1))
  }

  // ----- harmless misuse --------------------------------------------------

  lemma {:induction false} RunSizes(z: Setup, a: Misuse, run: seq<Sys>, steps: seq<Step>, k: nat)
    requires Run(z, a, run, steps) && k < |run|
    ensures |run[k].threads| == z.threads && |run[k].g.shares| == z.slots
  {
    if k > 0 {
      RunSizes(z, a, run, steps, k - 1);
      assert StepAt(z, a, run, steps, k - 1);
      NextSizes(z, run[k - 1], steps[k - 1], run[k]);
    }
  }

  lemma NextSizes(z: Setup, s: Sys, step: Step, s2: Sys)
    requires Next(z, s, step, s2)
    ensures |s2.threads| == |s.threads| && |s2.g.shares| == |s.g.shares|
  {
  }

  lemma {:induction false} AtMost(S: set<nat>, n: nat)
    requires forall i :: i in S ==> i < n
    ensures |S| <= n
  {
    if n > 0 {
      AtMost(S - {n - 1}, n - 1);
    } else {
      assert S == {};
    }
  }

  /** A held set with an entry for every slot is never full. */
  lemma EnoughEntries(z: Setup, s: Sys, t: nat, idx: int)
    requires GraphInv(s) && t < |s.threads| && |s.g.shares| <= z.maxHeld && idx < |s.g.shares|
    ensures Fits(z, s, t, idx)
  {
    assert InTable(s, t);
    var K := s.threads[t].held.Keys;
    if idx >= 0 && idx !in K {
      AtMost(K + {idx}, |s.g.shares|);
      assert |K + {idx}| == |K| + 1;
    }
  }

  lemma HarmlessStep(z: Setup, a: Misuse, s: Sys, step: Step, s2: Sys)
    requires Harmless(z, a) && z.threads > 0 && z.slots > 0 && z.maxHeld > 0
    requires GraphInv(s) && |s.threads| == z.threads && |s.g.shares| == z.slots
    requires Next(z, s, step, s2) && Allowed(z, a, s, step)
    ensures Allowed(z, NONE, s, step)
  {
    if a.fullHeld && step.Mark? {
      assert InTable(s, step.t);
      EnoughEntries(z, s, step.t, s.threads[step.t].phase.idx);
    }
    if a.fullHeld && step.MarkTried? { EnoughEntries(z, s, step.t, step.idx); }
  }

  lemma HarmlessRun(z: Setup, a: Misuse, run: seq<Sys>, steps: seq<Step>)
    requires Harmless(z, a) && z.threads > 0 && z.slots > 0 && z.maxHeld > 0
    requires Run(z, a, run, steps)
    ensures Run(z, NONE, run, steps)
  {
    forall k | 0 <= k < |steps| ensures StepAt(z, NONE, run, steps, k) {
      assert StepAt(z, a, run, steps, k);
      NoCircleBeforeFirstW1(z, a, run, steps, k);
      RunSizes(z, a, run, steps, k);
      HarmlessStep(z, a, run[k], steps[k], run[k + 1]);
    }
  }

  /** With no slots or no entries, nobody can wait while it holds a lock. */
  ghost predicate Lonely(s: Sys, t: nat)
    requires t < |s.threads|
  {
    var th := s.threads[t];
    && th.held == map[]
    && (th.phase.Granted? || th.phase.Tried? || th.owns == map[])
    && (th.phase.Waiting? || th.phase.Granted? ==> 0 <= th.phase.idx < |s.g.shares|)
  }

  ghost predicate AllLonely(s: Sys) {
    forall t {:trigger Lonely(s, t)} :: 0 <= t < |s.threads| ==> Lonely(s, t)
  }

  lemma NextLonely(z: Setup, a: Misuse, s: Sys, step: Step, s2: Sys)
    requires Next(z, s, step, s2) && Allowed(z, a, s, step) && AllLonely(s) && |s.g.shares| == z.slots
    requires Harmless(z, a) && z.threads > 0 && (z.slots == 0 || z.maxHeld == 0)
    ensures AllLonely(s2)
  {
    NextSizes(z, s, step, s2);
    forall t | 0 <= t < |s2.threads| ensures Lonely(s2, t) {
      assert Lonely(s, t);
      if step.Mark? || step.MarkTried? || step.UnlockHook? || step.Unlock? {
        assert step.t < |s.threads| && Lonely(s, step.t);
        LonelyEnds(z, a, s, step, t, s2);
      } else {
        LonelyTakes(z, a, s, step, t, s2);
      }
    }
  }

  lemma LonelyTakes(z: Setup, a: Misuse, s: Sys, step: Step, t: nat, s2: Sys)
    requires Next(z, s, step, s2) && Allowed(z, a, s, step) && !a.fullTable && t < |s.threads| && Lonely(s, t)
    requires |s2.threads| == |s.threads| && |s2.g.shares| == |s.g.shares|
    requires !step.Mark? && !step.MarkTried? && !step.UnlockHook? && !step.Unlock?
    ensures Lonely(s2, t)
  {
  }

  lemma LonelyEnds(z: Setup, a: Misuse, s: Sys, step: Step, t: nat, s2: Sys)
    requires Next(z, s, step, s2) && Allowed(z, a, s, step) && !a.fullTable && t < |s.threads| && Lonely(s, t)
    requires |s2.threads| == |s.threads| && |s2.g.shares| == |s.g.shares| == z.slots
    requires z.slots == 0 || (z.maxHeld == 0 && !a.fullHeld)
    requires step.Mark? || step.MarkTried? || step.UnlockHook? || step.Unlock?
    requires Lonely(s, step.t)
    ensures Lonely(s2, t)
  {
  }

  lemma {:induction false} RunLonely(z: Setup, a: Misuse, run: seq<Sys>, steps: seq<Step>, k: nat)
    requires Run(z, a, run, steps) && k < |run|
    requires Harmless(z, a) && z.threads > 0 && (z.slots == 0 || z.maxHeld == 0)
    ensures AllLonely(run[k])
  {
    if k > 0 {
      RunLonely(z, a, run, steps, k - 1);
      RunSizes(z, a, run, steps, k - 1);
      assert StepAt(z, a, run, steps, k - 1);
      NextLonely(z, a, run[k - 1], steps[k - 1], run[k]);
    }
  }

  lemma HarmlessIsWarned(z: Setup, a: Misuse, s: Sys, c: seq<nat>)
    requires Harmless(z, a) && Reachable(z, a, s)
    ensures CircularWait(s, c) ==> s.g.w1 >= 1
  {
    var run, steps :| Run(z, a, run, steps) && run[|steps|] == s;
    RunSizes(z, a, run, steps, |steps|);
    if z.threads > 0 {
      if z.slots > 0 && z.maxHeld > 0 {
        HarmlessRun(z, a, run, steps);
        CircularWaitIsWarned(z, run, steps, |steps|, c);
      } else {
        RunLonely(z, a, run, steps, |steps|);
        LonelyIsFree(s, c);
      }
    }
  }

  lemma LonelyIsFree(s: Sys, c: seq<nat>)
    requires AllLonely(s)
    ensures !CircularWait(s, c)
  {
    if |c| > 0 && c[0] < |s.threads| { assert Lonely(s, c[0]); }
    if |c| > 1 { assert Blocks(s, c[0], c[1]) ==> Lonely(s, c[1]); }
  }

  // ----- runs that end in a circle without a W1 ---------------------------

  lemma Starts(z: Setup, a: Misuse, s: Sys)
    requires Init(z, s)
    ensures Reachable(z, a, s)
  {
    assert Run(z, a, [s], []);
  }

  lemma Goes(z: Setup, a: Misuse, s: Sys, step: Step, s2: Sys)
    requires Reachable(z, a, s) && Next(z, s, step, s2) && Allowed(z, a, s, step)
    ensures Reachable(z, a, s2)
  {
    var run, steps :| Run(z, a, run, steps) && run[|steps|] == s;
    var r, q := run + [s2], steps + [step];
    forall k | 0 <= k < |q| ensures StepAt(z, a, r, q, k) {
      if k < |steps| {
        assert StepAt(z, a, run, steps, k);
        assert r[k] == run[k] && r[k + 1] == run[k + 1] && q[k] == steps[k];
      }
    }
    assert Run(z, a, r, q) && r[|q|] == s2;
  }

  const IDLE := Thread(map[], map[], Idle)
  const MUTEX := Kind.Mutex(false)
  const SHARED := Kind.RwLock(true)

  function Address(i: nat): nat { TOMBSTONE + 1 + i }

  function No(n: nat): seq<bool> { seq(n, _ => false) }

  /** Thread 0 acts, the others have done nothing. */
  function Only(z: Setup, th: Thread): seq<Thread>
    requires z.threads > 0
  {
    seq(z.threads, _ => IDLE)[0 := th]
  }

  /** The first i mutexes exist and have their slots. */
  function Slots(i: nat): (m: map<nat, nat>)
    ensures forall p :: p in m <==> Address(0) <= p < Address(i)
    ensures forall p :: p in m ==> m[p] == p - Address(0)
  {
    if i == 0 then map[] else Slots(i - 1)[Address(i - 1) := i - 1]
  }

  function Mutexes(i: nat): (m: map<nat, Kind>)
    ensures forall p :: p in m <==> Address(0) <= p < Address(i)
    ensures forall p :: p in m ==> m[p] == MUTEX
  {
    if i == 0 then map[] else Mutexes(i - 1)[Address(i - 1) := MUTEX]
  }

  ghost function Plain(z: Setup, i: nat, k: nat, th: Thread): Sys
    requires z.threads > 0
  {
    Sys(Graph({}, No(z.slots), No(z.slots), 0), Slots(i), Mutexes(k), Only(z, th), {}, 0)
  }

  lemma PlainStart(z: Setup, a: Misuse)
    requires z.threads > 0
    ensures Reachable(z, a, Plain(z, 0, 0, IDLE))
  {
    assert Only(z, IDLE) == seq(z.threads, _ => IDLE);
    Starts(z, a, Plain(z, 0, 0, IDLE));
  }

  /** Another mutex. */
  lemma PlainExists(z: Setup, a: Misuse, i: nat, th: Thread)
    requires z.threads > 0 && i <= z.slots && Reachable(z, a, Plain(z, i, i, th))
    ensures Reachable(z, a, Plain(z, i, i + 1, th))
  {
    Goes(z, a, Plain(z, i, i, th), Exist(Address(i), MUTEX), Plain(z, i, i + 1, th));
  }

  /** Its first hook gives it the next slot. */
  lemma PlainLooked(z: Setup, i: nat, th: Thread)
    requires z.threads > 0 && i < z.slots
    ensures var s := Plain(z, i, i + 1, th);
      Shape(s) && Finds(s, Address(i), i) && Looked(s, Address(i), i) == Plain(z, i + 1, i + 1, th)
  {
    var s := Plain(z, i, i + 1, th);
    assert No(z.slots)[i := false] == No(z.slots);
    assert i !in Slots(i).Values;
  }

  // ----- more locks than slots --------------------------------------------

  /** A first use of a mutex, by a lock call that fails. */
  lemma FillOne(z: Setup, a: Misuse, i: nat)
    requires z.threads > 0 && i < z.slots && Reachable(z, a, Plain(z, i, i, IDLE))
    ensures Reachable(z, a, Plain(z, i + 1, i + 1, IDLE))
  {
    PlainExists(z, a, i, IDLE);
    PlainLooked(z, i, IDLE);
    NothingIsAcyclic(No(z.slots));
    var w := IDLE.(phase := Waiting(Address(i), i, WRITE));
    assert NewEdges(map[], i, WRITE) == {};
    Goes(z, a, Plain(z, i, i + 1, IDLE), LockHook(0, Address(i), WRITE, i), Plain(z, i + 1, i + 1, w));
    Goes(z, a, Plain(z, i + 1, i + 1, w), Fail(0), Plain(z, i + 1, i + 1, IDLE));
  }

  lemma {:induction false} FillAll(z: Setup, a: Misuse, i: nat)
    requires z.threads > 0 && i <= z.slots
    ensures Reachable(z, a, Plain(z, i, i, IDLE))
  {
    if i == 0 {
      PlainStart(z, a);
    } else {
      FillAll(z, a, i - 1);
      FillOne(z, a, i - 1);
    }
  }

  /** What a hook finds when the table is full. */
  lemma NoSlotLeft(z: Setup, th: Thread)
    requires z.threads > 0
    ensures Finds(Plain(z, z.slots, z.slots + 1, th), Address(z.slots), -1)
  {
    var n := z.slots;
    forall i | 0 <= i < n ensures i in Slots(n).Values { assert Address(i) in Slots(n) && Slots(n)[Address(i)] == i; }
  }

  /** With the table full, a thread takes one more mutex, and lockcheck knows nothing of it. */
  lemma TakesUnseen(z: Setup, a: Misuse, p: nat, own: Holds)
    requires z.threads > 0 && a.fullTable && p == Address(z.slots) && own == map[p := (WRITE, 1)]
    ensures Reachable(z, a, Plain(z, z.slots, z.slots + 1, Thread(map[], own, Idle)))
  {
    var n := z.slots;
    var w, g := IDLE.(phase := Waiting(p, -1, WRITE)), Thread(map[], own, Granted(p, -1, WRITE));
    FillAll(z, a, n);
    PlainExists(z, a, n, IDLE);
    NoSlotLeft(z, IDLE);
    Goes(z, a, Plain(z, n, n + 1, IDLE), LockHook(0, p, WRITE, -1), Plain(z, n, n + 1, w));
    Goes(z, a, Plain(z, n, n + 1, w), Grant(0), Plain(z, n, n + 1, g));
    Goes(z, a, Plain(z, n, n + 1, g), Mark(0), Plain(z, n, n + 1, g.(phase := Idle)));
  }

  /** It takes it again. */
  lemma {:induction false} FullTableHides(z: Setup, a: Misuse)
    requires z.threads > 0 && a.fullTable
    ensures Hidden(z, a)
  {
    var n, p := z.slots, Address(z.slots);
    var own: Holds := map[p := (WRITE, 1)];
    TakesUnseen(z, a, p, own);
    var h := Thread(map[], own, Idle);
    NoSlotLeft(z, h);
    var e := Plain(z, n, n + 1, h.(phase := Waiting(p, -1, WRITE)));
    Goes(z, a, Plain(z, n, n + 1, h), LockHook(0, p, WRITE, -1), e);
    assert Blocks(e, 0, 0) && CircularWait(e, [0]);
  }

  // ----- more locks held than a held set has entries ----------------------

  function Entries(i: nat): (m: Holds)
    ensures |m| == i
    ensures forall j :: j in m <==> 0 <= j < i
  {
    if i == 0 then map[] else Entries(i - 1)[i - 1 := (WRITE, 1)]
  }

  function Owned(i: nat): (m: Holds)
    ensures forall p :: p in m <==> Address(0) <= p < Address(i)
    ensures forall p :: p in m ==> m[p] == (WRITE, 1)
  {
    if i == 0 then map[] else Owned(i - 1)[Address(i - 1) := (WRITE, 1)]
  }

  /** Thread 0 owns the first n mutexes, and the first i are recorded. */
  function Collector(i: nat, n: nat, phase: Phase): Thread {
    Thread(Entries(i), Owned(n), phase)
  }

  /** It takes the next one with trylock. */
  lemma TakeOne(z: Setup, a: Misuse, i: nat)
    requires z.threads > 0 && i < z.slots && Reachable(z, a, Plain(z, i, i, Collector(i, i, Idle)))
    ensures Reachable(z, a, Plain(z, i, i + 1, Collector(i, i + 1, Tried(Address(i), WRITE))))
  {
    PlainExists(z, a, i, Collector(i, i, Idle));
    assert OneMore(Owned(i), Address(i), WRITE) == Owned(i + 1);
    Goes(z, a, Plain(z, i, i + 1, Collector(i, i, Idle)), Try(0, Address(i), WRITE),
         Plain(z, i, i + 1, Collector(i, i + 1, Tried(Address(i), WRITE))));
  }

  lemma {:induction false} TakeAll(z: Setup, a: Misuse, i: nat)
    requires z.threads > 0 && i <= z.slots && i <= z.maxHeld
    ensures Reachable(z, a, Plain(z, i, i, Collector(i, i, Idle)))
  {
    if i == 0 {
      PlainStart(z, a);
    } else {
      TakeAll(z, a, i - 1);
      TakeOne(z, a, i - 1);
      PlainLooked(z, i - 1, Collector(i - 1, i, Tried(Address(i - 1), WRITE)));
      Goes(z, a, Plain(z, i - 1, i, Collector(i - 1, i, Tried(Address(i - 1), WRITE))), MarkTried(0, i - 1),
           Plain(z, i, i, Collector(i, i, Idle)));
    }
  }

  lemma IntoOneIsAcyclic(E: set<Edge>, shares: seq<bool>, i: nat)
    requires forall e :: e in E ==> e.dst == i && e.src != i
    ensures Acyclic(E, shares)
  {
    forall w: seq<Edge> ensures !ClosedWalk(E, shares, w) {
      if |w| > 0 && w[0] in E && w[|w| - 1] in E { assert w[|w| - 1].dst != w[0].src; }
    }
  }

  /** With the held set full, one more mutex is taken but not recorded, and then taken again. */
  lemma {:induction false} FullHeldHides(z: Setup, a: Misuse)
    requires z.threads > 0 && a.fullHeld && z.maxHeld < z.slots
    ensures Hidden(z, a)
  {
    var h, p := z.maxHeld, Address(z.maxHeld);
    TakeAll(z, a, h);
    TakeOne(z, a, h);
    PlainLooked(z, h, Collector(h, h + 1, Tried(p, WRITE)));
    var s := Plain(z, h + 1, h + 1, Collector(h, h + 1, Idle));
    Goes(z, a, Plain(z, h, h + 1, Collector(h, h + 1, Tried(p, WRITE))), MarkTried(0, h), s);
    assert s.index[p := h] == s.index && s.g.shares[h := false] == s.g.shares;
    var E := NewEdges(Entries(h), h, WRITE);
    NothingIsAcyclic(s.g.shares);
    IntoOneIsAcyclic(E, s.g.shares, h);
    var e := InPhase(s, 0, Waiting(p, h, WRITE)).(g := s.g.(E := E));
    Goes(z, a, s, LockHook(0, p, WRITE, h), e);
    assert Blocks(e, 0, 0) && CircularWait(e, [0]);
  }

  // ----- records that have gone stale -------------------------------------

  const LOCK := Address(0)
  const READS: Holds := map[0 := (READ, 1)]

  /** Thread 0 is recorded as a reader of the rwlock LOCK, which has or gets slot 0, but no
      longer holds it: once it has the lock for writing, lockcheck lets it read again. */
  lemma StaleReaderHides(z: Setup, a: Misuse, s: Sys)
    requires Reachable(z, a, s) && Shape(s) && z.maxHeld > 0 && 0 < |s.threads| && 0 < |s.g.shares|
    requires s.threads[0] == Thread(READS, map[], Idle)
    requires forall t :: 0 <= t < |s.threads| ==> s.threads[t].owns == map[]
    requires LOCK in s.kinds && s.kinds[LOCK] == SHARED && Finds(s, LOCK, 0) && s.g.w1 == 0
    ensures Hidden(z, a)
  {
    var s1 := Taken(s, 0, LOCK, WRITE, Tried(LOCK, WRITE));
    Goes(z, a, s, Try(0, LOCK, WRITE), s1);
    var s2 := Marked(z, Looked(s1, LOCK, 0), 0, 0, WRITE);
    Goes(z, a, s1, MarkTried(0, 0), s2);
    var e := InPhase(Looked(s2, LOCK, 0), 0, Waiting(LOCK, 0, READ));
    assert s2.threads[0].held[0].0 == READ;
    Goes(z, a, s2, LockHook(0, LOCK, READ, 0), e);
    assert Blocks(e, 0, 0) && CircularWait(e, [0]);
  }

  /** A lock of kind k exists, and thread 0 has it. */
  ghost function Having(z: Setup, k: Kind, hold: Mode): Sys
    requires z.threads > 0 && z.slots > 0
  {
    Sys(Graph({}, No(z.slots)[0 := Shares(k)], No(z.slots)[0 := Recursive(k)], 0), map[LOCK := 0], map[LOCK := k],
        Only(z, Thread(map[0 := (hold, 1)], map[LOCK := (hold, 1)], Idle)), {}, 0)
  }

  /** It has been taken, not yet recorded. */
  ghost function Taking(z: Setup, k: Kind, hold: Mode): Sys
    requires z.threads > 0
  {
    Sys(Graph({}, No(z.slots), No(z.slots), 0), map[], map[LOCK := k],
        Only(z, Thread(map[], map[LOCK := (hold, 1)], Tried(LOCK, hold))), {}, 0)
  }

  lemma FirstTries(z: Setup, a: Misuse, k: Kind, hold: Mode)
    requires z.threads > 0 && (k.Mutex? ==> hold == WRITE)
    ensures Reachable(z, a, Taking(z, k, hold))
  {
    var s := Plain(z, 0, 0, IDLE);
    PlainStart(z, a);
    var s1 := s.(kinds := map[LOCK := k]);
    Goes(z, a, s, Exist(LOCK, k), s1);
    Goes(z, a, s1, Try(0, LOCK, hold), Taking(z, k, hold));
  }

  lemma FirstTakes(z: Setup, a: Misuse, k: Kind, hold: Mode)
    requires z.threads > 0 && z.slots > 0 && z.maxHeld > 0 && (k.Mutex? ==> hold == WRITE)
    ensures Reachable(z, a, Having(z, k, hold))
  {
    FirstTries(z, a, k, hold);
    var s := Taking(z, k, hold);
    assert 0 !in s.index.Values;
    Goes(z, a, s, MarkTried(0, 0), Having(z, k, hold));
  }

  /** The rwlock is destroyed while thread 0 reads, and made again in the same place. */
  lemma {:induction false} BusyDestroyHides(z: Setup, a: Misuse)
    requires z.threads > 0 && z.slots > 0 && z.maxHeld > 0 && a.busyDestroy
    ensures Hidden(z, a)
  {
    FirstTakes(z, a, SHARED, READ);
    var s := Having(z, SHARED, READ);
    var s1 := Gone(Forgets(s, LOCK), LOCK);
    Goes(z, a, s, Destroy(LOCK, true), s1);
    var s2 := s1.(kinds := s1.kinds[LOCK := SHARED]);
    Goes(z, a, s1, Exist(LOCK, SHARED), s2);
    assert s2.index == map[] && 0 !in s2.index.Values;
    StaleReaderHides(z, a, s2);
  }

  /** Thread 1 unlocks the rwlock that thread 0 reads. */
  lemma {:induction false} StrangerHides(z: Setup, a: Misuse)
    requires z.threads > 1 && z.slots > 0 && z.maxHeld > 0 && a.strangers
    ensures Hidden(z, a)
  {
    StrangerUnlocks(z, a);
    var s := Having(z, SHARED, READ);
    var s2 := InPhase(Lost(Dropped(s, 1, LOCK, 0), 0, LOCK), 1, Idle);
    assert s2.threads[0].owns == map[];
    StaleReaderHides(z, a, s2);
  }

  lemma StrangerUnlocks(z: Setup, a: Misuse)
    requires z.threads > 1 && z.slots > 0 && z.maxHeld > 0 && a.strangers
    ensures Reachable(z, a, InPhase(Lost(Dropped(Having(z, SHARED, READ), 1, LOCK, 0), 0, LOCK), 1, Idle))
  {
    FirstTakes(z, a, SHARED, READ);
    var s := Having(z, SHARED, READ);
    assert s.index[LOCK := 0] == s.index && s.g.shares[0 := true] == s.g.shares
        && s.g.recursive[0 := false] == s.g.recursive;
    var s1 := Dropped(s, 1, LOCK, 0);
    Goes(z, a, s, UnlockHook(1, LOCK, 0), s1);
    var s2 := InPhase(Lost(s1, 0, LOCK), 1, Idle);
    Goes(z, a, s1, Unlock(1, 0), s2);
  }

  // ----- the exact condition ----------------------------------------------

  /** For every number of threads, slots and entries: every circular wait of every run that misuses
      locks at most as allowed comes with a W1 if and only if the sizes make that misuse harmless. */
  lemma {:induction false} WarnsExactlyWhenHarmless(z: Setup, a: Misuse)
    ensures Warned(z, a) <==> Harmless(z, a)
  {
    if Harmless(z, a) {
      forall s, c | Reachable(z, a, s) && CircularWait(s, c) ensures s.g.w1 >= 1 { HarmlessIsWarned(z, a, s, c); }
    } else if a.fullTable {
      FullTableHides(z, a);
    } else if a.fullHeld && z.maxHeld < z.slots {
      FullHeldHides(z, a);
    } else if a.busyDestroy {
      BusyDestroyHides(z, a);
    } else {
      StrangerHides(z, a);
    }
  }

  // ----- sizes that a program can keep to ----------------------------------

  /** No more locks exist than the table has slots, and no thread holds more than its set has entries. */
  ghost predicate Tidy(z: Setup, s: Sys) {
    |s.kinds| <= z.slots && forall t :: 0 <= t < |s.threads| ==> |s.threads[t].owns| <= z.maxHeld
  }

  lemma {:induction false} SlotsCovered(index: map<nat, nat>, n: nat)
    requires forall i :: 0 <= i < n ==> i in index.Values
    ensures n <= |index|
  {
    if n > 0 {
      assert n - 1 in index.Values;
      var p :| p in index && index[p] == n - 1;
      var rest := index - {p};
      forall i | 0 <= i < n - 1 ensures i in rest.Values {
        assert i in index.Values;
        var q :| q in index && index[q] == i;
        assert q in rest && rest[q] == i;
      }
      SlotsCovered(rest, n - 1);
      assert index.Keys == rest.Keys + {p};
    }
  }

  lemma FullMeansMany(s: Sys, p: nat)
    requires Indexed(s) && p in s.kinds && p !in s.index && forall i :: 0 <= i < |s.g.shares| ==> i in s.index.Values
    ensures |s.g.shares| < |s.kinds|
  {
    SlotsCovered(s.index, |s.g.shares|);
    Included(s.index.Keys + {p}, s.kinds.Keys);
    assert |s.index.Keys + {p}| == |s.index| + 1;
  }

  lemma TidyFinds(z: Setup, s: Sys, p: nat, idx: int)
    requires Indexed(s) && Tidy(z, s) && |s.g.shares| == z.slots && Finds(s, p, idx)
    ensures idx >= 0
  {
    if p !in s.index && forall i :: 0 <= i < z.slots ==> i in s.index.Values { FullMeansMany(s, p); }
  }

  lemma Included(A: set<nat>, B: set<nat>)
    requires A <= B
    ensures |A| <= |B|
  {
    assert B == A + (B - A) && |B| == |A| + |B - A|;
  }

  lemma SeenLess(index: map<nat, nat>, held: Holds, p: nat)
    requires p in index && index[p] in held && forall q :: q in index && index[q] == index[p] ==> q == p
    ensures |held| == |held - {index[p]}| + 1
    ensures |Seen(index, held)| == |Seen(index, held - {index[p]})| + 1
  {
    var rest := held - {index[p]};
    assert held.Keys == rest.Keys + {index[p]};
    assert Seen(index, held).Keys == Seen(index, rest).Keys + {p};
  }

  /** A thread's records have as many entries as it holds locks. */
  lemma {:induction false} SeenSize(index: map<nat, nat>, held: Holds)
    requires forall p, q :: p in index && q in index && index[p] == index[q] ==> p == q
    requires forall i :: i in held ==> i in index.Values
    ensures |Seen(index, held)| == |held|
    decreases |held|
  {
    if held != map[] {
      var i :| i in held;
      var p :| p in index && index[p] == i;
      SeenLess(index, held, p);
      SeenSize(index, held - {i});
    } else {
      assert Seen(index, held) == map[];
    }
  }

  /** A hold that the thread really has fits into its held set. */
  lemma TidyFits(z: Setup, s: Sys, t: nat, p: nat, mode: Mode)
    requires ThreadsOk(s) && t < |s.threads| && |s.threads[t].owns| <= z.maxHeld && p in s.index
    requires s.threads[t].owns == OneMore(Seen(s.index, s.threads[t].held), p, mode)
    ensures Fits(z, s, t, s.index[p])
  {
    assert ThreadOk(s, t);
    SeenSize(s.index, s.threads[t].held);
    if s.index[p] !in s.threads[t].held { OneMoreSize(Seen(s.index, s.threads[t].held), p, mode); }
  }

  lemma OneMoreSize(m: Holds, p: nat, mode: Mode)
    requires p !in m
    ensures |OneMore(m, p, mode)| == |m| + 1
  {
    assert OneMore(m, p, mode).Keys == m.Keys + {p};
  }

  lemma TidyMarkTried(z: Setup, s: Sys, t: nat, idx: int)
    requires ThreadsOk(s) && GraphInv(s) && Tidy(z, s) && |s.g.shares| == z.slots
    requires t < |s.threads| && s.threads[t].phase.Tried? && Finds(s, s.threads[t].phase.p, idx)
    ensures idx >= 0 && Fits(z, s, t, idx)
  {
    var Tried(p, mode) := s.threads[t].phase;
    assert ThreadOk(s, t);
    TidyFinds(z, s, p, idx);
    LookedInv(s, p, idx);
    LookedKeepsThread(s, p, idx, t);
    TidyFits(z, Looked(s, p, idx), t, p, mode);
  }

  const UNSIZED := Misuse(false, true, true, false)

  lemma TidyStep(z: Setup, s: Sys, step: Step, s2: Sys)
    requires ThreadsOk(s) && GraphInv(s) && Tidy(z, s) && |s.g.shares| == z.slots
    requires Next(z, s, step, s2) && Allowed(z, UNSIZED, s, step)
    ensures Allowed(z, NONE, s, step)
  {
    match step
    case LockHook(_, p, _, idx) => TidyFinds(z, s, p, idx);
    case UnlockHook(_, p, idx) => TidyFinds(z, s, p, idx);
    case Mark(t) =>
      assert ThreadOk(s, t);
      TidyFits(z, s, t, s.threads[t].phase.p, s.threads[t].phase.mode);
    case MarkTried(t, idx) => TidyMarkTried(z, s, t, idx);
    case _ =>
  }

  ghost predicate StepsAllowed(z: Setup, a: Misuse, run: seq<Sys>, steps: seq<Step>, k: nat)
    requires k <= |steps| && |run| == |steps| + 1
  {
    forall j {:trigger StepAt(z, a, run, steps, j)} :: 0 <= j < k ==> StepAt(z, a, run, steps, j)
  }

  lemma Prefix(z: Setup, a: Misuse, run: seq<Sys>, steps: seq<Step>, k: nat)
    requires |run| == |steps| + 1 && Init(z, run[0]) && k <= |steps| && StepsAllowed(z, a, run, steps, k)
    ensures Run(z, a, run[..k + 1], steps[..k])
  {
    var r, q := run[..k + 1], steps[..k];
    forall j | 0 <= j < k ensures StepAt(z, a, r, q, j) {
      assert StepAt(z, a, run, steps, j);
      assert r[j] == run[j] && r[j + 1] == run[j + 1] && q[j] == steps[j];
    }
  }

  lemma TidyGoesOn(z: Setup, run: seq<Sys>, steps: seq<Step>, k: nat)
    requires Run(z, UNSIZED, run, steps) && k < |steps| && Tidy(z, run[k])
    requires StepsAllowed(z, NONE, run, steps, k) && run[k].g.w1 == 0
    ensures StepAt(z, NONE, run, steps, k)
  {
    Prefix(z, NONE, run, steps, k);
    RunInv(z, run[..k + 1], steps[..k], k);
    NoCircleBeforeFirstW1(z, UNSIZED, run, steps, k);
    RunSizes(z, UNSIZED, run, steps, k);
    assert StepAt(z, UNSIZED, run, steps, k);
    TidyStep(z, run[k], steps[k], run[k + 1]);
  }

  lemma {:induction false} TidyRun(z: Setup, run: seq<Sys>, steps: seq<Step>, k: nat)
    requires Run(z, UNSIZED, run, steps) && k < |run| && forall j :: 0 <= j < k ==> Tidy(z, run[j])
    ensures run[k].g.w1 == 0 ==> StepsAllowed(z, NONE, run, steps, k)
  {
    if k > 0 {
      TidyRun(z, run, steps, k - 1);
      assert StepAt(z, UNSIZED, run, steps, k - 1);
      W1Grows(z, run[k - 1], steps[k - 1], run[k]);
      if run[k].g.w1 == 0 { TidyGoesOn(z, run, steps, k - 1); }
    }
  }

  /** A program that unlocks and destroys only what it may, and that keeps to the sizes of the tables,
      never deadlocks without a W1. */
  lemma {:induction false} TidyProgramIsWarned(z: Setup, run: seq<Sys>, steps: seq<Step>, k: nat, c: seq<nat>)
    requires Run(z, UNSIZED, run, steps) && k < |run| && forall j :: 0 <= j < k ==> Tidy(z, run[j])
    ensures CircularWait(run[k], c) ==> run[k].g.w1 >= 1
  {
    TidyRun(z, run, steps, k);
    if run[k].g.w1 == 0 {
      Prefix(z, NONE, run, steps, k);
      CircularWaitIsWarned(z, run[..k + 1], steps[..k], k, c);
    }
  }

  // ----- what lockcheck takes for waiting ---------------------------------

  /** In s, thread t wants a lock of kind k in mode want that u holds in mode hold, and is blocked by u. */
  ghost predicate Shows(s: Sys, t: nat, u: nat, k: Kind, want: Mode, hold: Mode) {
    && t != u && Blocks(s, t, u) && WantsFrom(s, t, u)
    && var p := s.threads[t].phase.p;
       s.kinds[p] == k && s.threads[t].phase.mode == want && s.threads[u].owns[p].0 == hold
  }

  /** Thread t, which holds nothing, calls for it. */
  lemma Calls(z: Setup, a: Misuse, s: Sys, t: nat, k: Kind, want: Mode) returns (r: Sys)
    requires Reachable(z, a, s) && Shape(s) && t < |s.threads| && s.threads[t] == IDLE && 0 < |s.g.shares|
    requires s.index == map[LOCK := 0] && s.kinds == map[LOCK := k] && (k.Mutex? ==> want == WRITE) && s.g.E == {}
    ensures Reachable(z, a, r) && r == InPhase(Looked(s, LOCK, 0), t, Waiting(LOCK, 0, want))
    ensures r.index == s.index && r.g.E == {}
  {
    r := InPhase(Looked(s, LOCK, 0), t, Waiting(LOCK, 0, want));
    assert s.index[LOCK := 0] == s.index;
    assert NewEdges(map[], 0, want) == {};
    NothingIsAcyclic(r.g.shares);
    Goes(z, a, s, LockHook(t, LOCK, want, 0), r);
  }

  /** A writer sleeps, and a reader queues behind it. */
  lemma ReaderQueues(z: Setup, a: Misuse) returns (s: Sys)
    requires z.threads >= 3 && z.slots > 0 && z.maxHeld > 0
    ensures Reachable(z, a, s) && Shows(s, 1, 0, RwLock(false), READ, READ)
  {
    FirstTakes(z, a, RwLock(false), READ);
    s := Calls(z, a, Having(z, RwLock(false), READ), 2, RwLock(false), WRITE);
    var r := s.(asleep := {2});
    assert KeepsOut(s, 2, 0) && s.asleep + {2} == {2};
    Goes(z, a, s, Sleep(2), r);
    s := Calls(z, a, r, 1, RwLock(false), READ);
    assert Behind(s, 1, 2) && KeepsOut(s, 2, 0);
  }

  /** For every kind of lock and all modes: lockcheck takes a thread to wait for a holder if and only if some
      run without misuse leads to a state in which the holder blocks such a thread. */
  lemma {:induction false} WaitsIsReal(z: Setup, k: Kind, want: Mode, hold: Mode)
    requires z.threads >= 3 && z.slots > 0 && z.maxHeld > 0 && (k.Mutex? ==> want == WRITE && hold == WRITE)
    ensures Waits(Shares(k), want, hold) <==> exists s, t, u :: Reachable(z, NONE, s) && Shows(s, t, u, k, want, hold)
  {
    if want == WRITE || hold == WRITE {
      FirstTakes(z, NONE, k, hold);
      var s := Calls(z, NONE, Having(z, k, hold), 1, k, want);
      assert KeepsOut(s, 1, 0);
      assert Shows(s, 1, 0, k, want, hold);
    } else if k == RwLock(false) {
      var s := ReaderQueues(z, NONE);
    }
    if s, t, u :| Reachable(z, NONE, s) && Shows(s, t, u, k, want, hold) { BlocksWaits(s, t, u); }
  }
}
