/** Whole runs of a program under lockcheck: any number of threads that lock,
    try, unlock and destroy mutexes and rwlocks in any interleaving, with the
    hooks of lockcheck.c and the real calls as separate steps. Locks are named
    by their addresses; lockcheck knows them by their slots. */
module LockRuns {
  import opened WaitGraph
  import opened HeldSet
  import opened Lockcheck
  import opened LockTable

  type Holds = map<nat, (Mode, nat)>

  /** Sizes: threads, MAX_LOCKS and MAX_HELD. */
  datatype Setup = Setup(threads: nat, slots: nat, maxHeld: nat)

  /** Where a thread is between two of its lock operations; idx is the slot the hook found, or -1. */
  datatype Phase =
    | Idle
    | Waiting(p: nat, idx: int, mode: Mode)   // the hook has run, the real call may block
    | Granted(p: nat, idx: int, mode: Mode)   // the real call has succeeded, not yet recorded
    | Tried(p: nat, mode: Mode)               // the real trylock has succeeded, the hook is due
    | Releasing(p: nat)                       // recorded as released, the real unlock is due

  /** `held` is what lockcheck has recorded by slot, `owns` what the thread really holds by address. */
  datatype Thread = Thread(held: Holds, owns: Holds, phase: Phase)

  /** lockcheck's tables, the real locks that exist, the threads, and those asleep in a real lock call. */
  datatype Sys = Sys(g: Graph, index: map<nat, nat>, kinds: map<nat, Kind>, threads: seq<Thread>, asleep: set<nat>,
                     w4: nat)

  ghost predicate Shape(s: Sys) {
    && |s.g.shares| == |s.g.recursive|
    && forall p :: p in s.index ==> s.index[p] < |s.g.shares|
  }

  ghost predicate ModeOk(s: Sys, p: nat, mode: Mode) {
    p in s.kinds && (mode == WRITE || s.kinds[p].RwLock?)
  }

  function SetThread(s: Sys, t: nat, th: Thread): Sys
    requires t < |s.threads|
  {
    s.(threads := s.threads[t := th])
  }

  function InPhase(s: Sys, t: nat, phase: Phase): Sys
    requires t < |s.threads|
  {
    SetThread(s, t, s.threads[t].(phase := phase))
  }

  /** lock_index for an existing lock p that belongs into slot idx. */
  ghost function Looked(s: Sys, p: nat, idx: int): Sys
    requires Shape(s) && p in s.kinds && idx < |s.g.shares|
  {
    if idx < 0 then s else s.(index := s.index[p := idx], g := KindRead(s.g, idx, s.kinds[p]))
  }

  ghost predicate Finds(s: Sys, p: nat, idx: int)
    requires Shape(s)
  {
    p in s.kinds && SlotFor(s.index, |s.g.shares|, p, idx)
  }

  /** Thread w sleeps until it gets lock p for writing. */
  ghost predicate QueuedWriter(s: Sys, p: nat, w: nat) {
    && w < |s.threads| && w in s.asleep
    && s.threads[w].phase.Waiting? && s.threads[w].phase.p == p && s.threads[w].phase.mode == WRITE
  }

  /** Does the real lock let thread t in? Readers may share, but on a writer-preferring rwlock they
      queue behind a sleeping writer; a recursive mutex lets its owner in again. */
  ghost predicate CanTake(s: Sys, t: nat, p: nat, mode: Mode)
    requires t < |s.threads| && p in s.kinds
  {
    && (forall u :: 0 <= u < |s.threads| && u != t && p in s.threads[u].owns ==>
          mode == READ && s.threads[u].owns[p].0 == READ)
    && (p in s.threads[t].owns ==>
          s.kinds[p] == Mutex(true) || (mode == READ && s.threads[t].owns[p].0 == READ))
    && (mode == READ && s.kinds[p] == RwLock(false) ==> forall w :: 0 <= w < |s.threads| ==> !QueuedWriter(s, p, w))
  }

  ghost function Taken(s: Sys, t: nat, p: nat, mode: Mode, phase: Phase): Sys
    requires t < |s.threads|
  {
    SetThread(s, t, s.threads[t].(owns := OneMore(s.threads[t].owns, p, mode), phase := phase))
  }

  /** mark_acquired, unless the lock is not tracked. */
  ghost function Marked(z: Setup, s: Sys, t: nat, idx: int, mode: Mode): Sys
    requires t < |s.threads|
  {
    var th := s.threads[t];
    SetThread(s, t, th.(held := if idx < 0 then th.held else Added(th.held, idx, mode, z.maxHeld), phase := Idle))
  }

  /** The records of an unlock. */
  ghost function Dropped(s: Sys, t: nat, p: nat, idx: int): Sys
    requires t < |s.threads|
  {
    var th := s.threads[t].(phase := Releasing(p));
    if idx < 0 then SetThread(s, t, th)
    else if idx in th.held then SetThread(s, t, th.(held := OneLess(th.held, idx)))
    else SetThread(s, t, th).(w4 := s.w4 + 1)
  }

  /** One real hold of p less for thread u, if it has one. */
  ghost function Lost(s: Sys, u: nat, p: nat): Sys
    requires u < |s.threads|
  {
    if p in s.threads[u].owns then SetThread(s, u, s.threads[u].(owns := OneLess(s.threads[u].owns, p))) else s
  }

  /** lock_forget. */
  ghost function Forgets(s: Sys, p: nat): Sys
    requires Shape(s)
  {
    if p in s.index then s.(index := s.index - {p}, g := Forgotten(s.g, s.index[p])) else s
  }

  /** The real lock is gone, and with it all holds. */
  ghost function Gone(s: Sys, p: nat): Sys {
    s.(kinds := s.kinds - {p}, threads := seq(|s.threads|, t requires 0 <= t < |s.threads| =>
                                            s.threads[t].(owns := s.threads[t].owns - {p})))
  }

  datatype Step =
    | Exist(p: nat, k: Kind)              // a lock comes into being: initialised, or used without that
    | Destroy(p: nat, ok: bool)           // lockcheck forgets p; the real destroy may refuse
    | LockHook(t: nat, p: nat, mode: Mode, idx: int)
    | Sleep(t: nat)                       // the real call finds the lock taken
    | Grant(t: nat)
    | Fail(t: nat)
    | Try(t: nat, p: nat, mode: Mode)
    | Mark(t: nat)
    | MarkTried(t: nat, idx: int)
    | UnlockHook(t: nat, p: nat, idx: int)
    | Unlock(t: nat, victim: nat)         // a stranger's unlock may take away another thread's hold

  ghost predicate Next(z: Setup, s: Sys, step: Step, s2: Sys) {
    Shape(s) &&
    match step
    case Exist(p, k) => p > TOMBSTONE && p !in s.kinds && s2 == s.(kinds := s.kinds[p := k])
    case Destroy(p, ok) => p in s.kinds && s2 == if ok then Gone(Forgets(s, p), p) else Forgets(s, p)
    case LockHook(t, p, mode, idx) =>
      && t < |s.threads| && s.threads[t].phase == Idle && ModeOk(s, p, mode) && Finds(s, p, idx)
      && var r := Looked(s, p, idx);
         && (if idx < 0 then s2.g == r.g else WaitRecorded(r.g, s.threads[t].held, idx, mode, s2.g))
         && s2 == InPhase(r, t, Waiting(p, idx, mode)).(g := s2.g)
    case Sleep(t) =>
      && t < |s.threads| && s.threads[t].phase.Waiting?
      && (s.threads[t].phase.p in s.kinds ==> !CanTake(s, t, s.threads[t].phase.p, s.threads[t].phase.mode))
      && s2 == s.(asleep := s.asleep + {t})
    case Grant(t) =>
      && t < |s.threads| && s.threads[t].phase.Waiting?
      && var Waiting(p, idx, mode) := s.threads[t].phase;
      && (p in s.kinds ==> CanTake(s, t, p, mode))
      && s2 == Taken(s, t, p, mode, Granted(p, idx, mode)).(asleep := s.asleep - {t})
    case Fail(t) =>
      && t < |s.threads| && s.threads[t].phase.Waiting?
      && s2 == InPhase(s, t, Idle).(asleep := s.asleep - {t})
    case Try(t, p, mode) =>
      && t < |s.threads| && s.threads[t].phase == Idle && ModeOk(s, p, mode) && CanTake(s, t, p, mode)
      && s2 == Taken(s, t, p, mode, Tried(p, mode))
    case Mark(t) =>
      && t < |s.threads| && s.threads[t].phase.Granted?
      && s2 == Marked(z, s, t, s.threads[t].phase.idx, s.threads[t].phase.mode)
    case MarkTried(t, idx) =>
      && t < |s.threads| && s.threads[t].phase.Tried? && Finds(s, s.threads[t].phase.p, idx)
      && s2 == Marked(z, Looked(s, s.threads[t].phase.p, idx), t, idx, s.threads[t].phase.mode)
    case UnlockHook(t, p, idx) =>
      && t < |s.threads| && s.threads[t].phase == Idle && Finds(s, p, idx)
      && s2 == Dropped(Looked(s, p, idx), t, p, idx)
    case Unlock(t, victim) =>
      && t < |s.threads| && s.threads[t].phase.Releasing? && victim < |s.threads|
      && (s.threads[t].phase.p in s.threads[t].owns ==> victim == t)
      && s2 == InPhase(Lost(s, victim, s.threads[t].phase.p), t, Idle)
  }

  ghost predicate Init(z: Setup, s: Sys) {
    && s.g == Graph({}, seq(z.slots, _ => false), seq(z.slots, _ => false), 0)
    && s.index == map[] && s.kinds == map[] && s.w4 == 0
    && s.threads == seq(z.threads, _ => Thread(map[], map[], Idle)) && s.asleep == {}
  }

  // ----- what a program may do wrong --------------------------------------

  /** Which misuses are allowed in a run: taking away another thread's hold, using more locks than
      the table has slots, holding more locks than a held set has entries, destroying a lock in use. */
  datatype Misuse = Misuse(strangers: bool, fullTable: bool, fullHeld: bool, busyDestroy: bool)

  const NONE := Misuse(false, false, false, false)

  /** Nobody holds lock p or is busy with it. */
  ghost predicate Unused(s: Sys, p: nat) {
    forall t :: 0 <= t < |s.threads| ==>
      && p !in s.threads[t].owns && (p in s.index ==> s.index[p] !in s.threads[t].held)
      && (s.threads[t].phase != Idle ==> s.threads[t].phase.p != p)
  }

  /** There is room to record slot idx as held. */
  ghost predicate Fits(z: Setup, s: Sys, t: nat, idx: int)
    requires t < |s.threads|
  {
    idx < 0 || idx in s.threads[t].held || |s.threads[t].held| < z.maxHeld
  }

  ghost predicate Allowed(z: Setup, a: Misuse, s: Sys, step: Step) {
    match step
    case Destroy(p, _) => a.busyDestroy || Unused(s, p)
    case LockHook(_, _, _, idx) => a.fullTable || idx >= 0
    case Mark(t) =>
      a.fullHeld || (t < |s.threads| && s.threads[t].phase.Granted? && Fits(z, s, t, s.threads[t].phase.idx))
    case MarkTried(t, idx) => (a.fullTable || idx >= 0) && (a.fullHeld || (t < |s.threads| && Fits(z, s, t, idx)))
    case UnlockHook(_, _, idx) => a.fullTable || idx >= 0
    case Unlock(t, victim) =>
      a.strangers || (t < |s.threads| && victim < |s.threads| && s.threads[t].phase.Releasing?
                      && (victim == t || s.threads[t].phase.p !in s.threads[victim].owns))
    case _ => true
  }

  /** The k-th step of a run. */
  ghost predicate StepAt(z: Setup, a: Misuse, run: seq<Sys>, steps: seq<Step>, k: nat)
    requires k < |steps| && |run| == |steps| + 1
  {
    Next(z, run[k], steps[k], run[k + 1]) && Allowed(z, a, run[k], steps[k])
  }

  ghost predicate Run(z: Setup, a: Misuse, run: seq<Sys>, steps: seq<Step>) {
    && |run| == |steps| + 1
    && Init(z, run[0])
    && forall k {:trigger StepAt(z, a, run, steps, k)} :: 0 <= k < |steps| ==> StepAt(z, a, run, steps, k)
  }

  // ----- waiting ----------------------------------------------------------

  /** Thread t is inside a real lock call for a lock that u holds. */
  ghost predicate WantsFrom(s: Sys, t: nat, u: nat) {
    && t < |s.threads| && u < |s.threads| && s.threads[t].phase.Waiting?
    && s.threads[t].phase.p in s.kinds && s.threads[t].phase.p in s.threads[u].owns
  }

  /** A lock may not be had in these modes at once. */
  predicate Excludes(want: Mode, hold: Mode) {
    want == WRITE || hold == WRITE
  }

  /** The lock may not be held as u holds it and as t wants it at once. */
  ghost predicate KeepsOut(s: Sys, t: nat, u: nat) {
    && WantsFrom(s, t, u)
    && var p := s.threads[t].phase.p;
    && Excludes(s.threads[t].phase.mode, s.threads[u].owns[p].0)
    && !(t == u && s.kinds[p] == Mutex(true))
  }

  /** t wants to read a writer-preferring rwlock for which writer w sleeps. */
  ghost predicate Behind(s: Sys, t: nat, w: nat) {
    && t < |s.threads| && s.threads[t].phase.Waiting? && s.threads[t].phase.mode == READ
    && s.threads[t].phase.p in s.kinds && s.kinds[s.threads[t].phase.p] == RwLock(false)
    && QueuedWriter(s, s.threads[t].phase.p, w)
  }

  /** u's hold keeps the real lock from letting t in, directly or through a writer that sleeps in front of t. */
  ghost predicate Blocks(s: Sys, t: nat, u: nat) {
    KeepsOut(s, t, u) || exists w: nat :: Behind(s, t, w) && KeepsOut(s, w, u)
  }

  /** A writer that cannot take its lock is kept out of it by a hold, its own perhaps. */
  lemma WriterKeptOut(s: Sys, w: nat)
    requires w < |s.threads| && s.threads[w].phase.Waiting? && s.threads[w].phase.mode == WRITE
    requires s.threads[w].phase.p in s.kinds
    ensures CanTake(s, w, s.threads[w].phase.p, WRITE) <==> forall u: nat :: !KeepsOut(s, w, u)
  {
    var p := s.threads[w].phase.p;
    if forall u: nat :: !KeepsOut(s, w, u) {
      forall u: nat | u < |s.threads| && p in s.threads[u].owns ensures u == w && s.kinds[p] == Mutex(true) {
        assert !KeepsOut(s, w, u);
      }
    }
  }

  /** There is a sleeping writer in front of t that may take the lock now. */
  ghost predicate WriterNext(s: Sys, t: nat) {
    exists w: nat :: Behind(s, t, w) && CanTake(s, w, s.threads[w].phase.p, WRITE)
  }

  /** A thread cannot take its lock exactly when somebody's hold blocks it or a writer goes first. */
  lemma BlockedExactly(s: Sys, t: nat)
    requires t < |s.threads| && s.threads[t].phase.Waiting? && ModeOk(s, s.threads[t].phase.p, s.threads[t].phase.mode)
    ensures !CanTake(s, t, s.threads[t].phase.p, s.threads[t].phase.mode)
       <==> (exists u: nat :: Blocks(s, t, u)) || WriterNext(s, t)
  {
    var p, mode := s.threads[t].phase.p, s.threads[t].phase.mode;
    if !CanTake(s, t, p, mode) {
      if u: nat :| u < |s.threads| && u != t && p in s.threads[u].owns && Excludes(mode, s.threads[u].owns[p].0) {
        assert KeepsOut(s, t, u) && Blocks(s, t, u);
      } else if w: nat :| QueuedWriter(s, p, w) && mode == READ && s.kinds[p] == RwLock(false) {
        assert Behind(s, t, w);
        WriterKeptOut(s, w);
        if u: nat :| KeepsOut(s, w, u) { assert Blocks(s, t, u); }
      } else {
        assert KeepsOut(s, t, t) && Blocks(s, t, t);
      }
    }
  }

  /** At the slot's lock, lockcheck takes t to wait for u. */
  ghost predicate WaitsFor(s: Sys, t: nat, u: nat) {
    && WantsFrom(s, t, u)
    && var p := s.threads[t].phase.p;
    && Waits(Shares(s.kinds[p]), s.threads[t].phase.mode, s.threads[u].owns[p].0)
    && !(t == u && Recursive(s.kinds[p]))
  }

  /** Whoever is blocked waits in lockcheck's sense. */
  lemma BlocksWaits(s: Sys, t: nat, u: nat)
    requires Blocks(s, t, u)
    ensures WaitsFor(s, t, u)
  {
  }

  /** Each thread of c is blocked by the next, and the last by the first; c may be one thread. */
  ghost predicate CircularWait(s: Sys, c: seq<nat>) {
    && |c| > 0
    && (forall i :: 0 <= i < |c| - 1 ==> Blocks(s, c[i], c[i + 1]))
    && Blocks(s, c[|c| - 1], c[0])
  }

  // ----- while no W1 has been counted, the graph has no circle ------------

  /** Each lock has one slot, whose flags are those of the lock. */
  ghost predicate Indexed(s: Sys) {
    && Shape(s)
    && (forall p :: p in s.index ==>
          p in s.kinds && s.g.shares[s.index[p]] == Shares(s.kinds[p])
              && s.g.recursive[s.index[p]] == Recursive(s.kinds[p]))
    && (forall p, q :: p in s.index && q in s.index && s.index[p] == s.index[q] ==> p == q)
  }

  /** What the thread has recorded names slots of the table, live or not. */
  ghost predicate InTable(s: Sys, t: nat)
    requires t < |s.threads|
  {
    && (forall i :: i in s.threads[t].held ==> i < |s.g.shares|)
    && ((s.threads[t].phase.Waiting? || s.threads[t].phase.Granted?) ==> s.threads[t].phase.idx < |s.g.shares|)
  }

  /** Orders may start at the slot of a lock that was destroyed while held, but none ends there. */
  ghost predicate GraphOk(s: Sys) {
    && (s.g.w1 == 0 ==> Acyclic(s.g.E, s.g.shares))
    && forall e :: e in s.g.E ==> e.src < |s.g.shares| && e.dst in s.index.Values
  }

  /** This holds whatever the threads do wrong and however full the tables are. */
  ghost predicate GraphInv(s: Sys) {
    && Indexed(s) && GraphOk(s)
    && forall t {:trigger InTable(s, t)} :: 0 <= t < |s.threads| ==> InTable(s, t)
  }

  lemma LookedKeepsGraph(s: Sys, p: nat, idx: int)
    requires GraphInv(s) && Finds(s, p, idx)
    ensures GraphInv(Looked(s, p, idx))
  {
    var r := Looked(s, p, idx);
    forall e | e in r.g.E ensures e.dst in r.index.Values && r.g.shares[e.dst] == s.g.shares[e.dst] {
      var q :| q in s.index && s.index[q] == e.dst;
      assert q in r.index && r.index[q] == e.dst;
    }
    if s.g.w1 == 0 { SharesMatterOnlyAtEdges(s.g.E, s.g.shares, r.g.shares); }
    forall t | 0 <= t < |r.threads| ensures InTable(r, t) { assert InTable(s, t); }
  }

  lemma ForgetsKeepsGraph(s: Sys, p: nat)
    requires GraphInv(s)
    ensures GraphInv(Forgets(s, p))
  {
    if p in s.index {
      var r := Forgets(s, p);
      forall e | e in r.g.E ensures e.dst in r.index.Values && r.g.shares[e.dst] == s.g.shares[e.dst] {
        var q :| q in s.index && s.index[q] == e.dst;
        assert q in r.index && r.index[q] == e.dst;
      }
      if s.g.w1 == 0 {
        FewerEdges(s.g.E, r.g.E, s.g.shares);
        SharesMatterOnlyAtEdges(r.g.E, s.g.shares, r.g.shares);
      }
      forall t | 0 <= t < |r.threads| ensures InTable(r, t) { assert InTable(s, t); }
    }
  }

  lemma DestroyKeepsGraph(z: Setup, s: Sys, p: nat, ok: bool, s2: Sys)
    requires GraphInv(s) && Next(z, s, Destroy(p, ok), s2)
    ensures GraphInv(s2)
  {
    ForgetsKeepsGraph(s, p);
    var r := Forgets(s, p);
    assert s2.g == r.g && s2.index == r.index && |s2.threads| == |r.threads|;
    forall t | 0 <= t < |s2.threads| ensures InTable(s2, t) { assert InTable(r, t); }
  }

  lemma HookKeepsGraph(z: Setup, s: Sys, t: nat, p: nat, mode: Mode, idx: int, s2: Sys)
    requires GraphInv(s) && Next(z, s, LockHook(t, p, mode, idx), s2)
    ensures GraphInv(s2)
  {
    LookedKeepsGraph(s, p, idx);
    WaitKeepsGraph(Looked(s, p, idx), t, p, idx, mode, s2.g, s2);
  }

  /** The orders of a wait end at a live lock. */
  lemma WaitKeepsGraph(r: Sys, t: nat, p: nat, idx: int, mode: Mode, g: Graph, s2: Sys)
    requires GraphInv(r) && t < |r.threads| && idx < |r.g.shares| && (idx >= 0 ==> p in r.index && r.index[p] == idx)
    requires if idx < 0 then g == r.g else WaitRecorded(r.g, r.threads[t].held, idx, mode, g)
    requires s2 == InPhase(r, t, Waiting(p, idx, mode)).(g := g)
    ensures GraphInv(s2)
  {
    assert InTable(r, t);
    forall e | e in g.E ensures e.src < |g.shares| && e.dst in r.index.Values {
      if e !in r.g.E { assert e in NewEdges(r.threads[t].held, idx, mode); }
    }
    forall u | 0 <= u < |s2.threads| ensures InTable(s2, u) { assert InTable(r, u); }
  }

  /** Steps of one thread that leave graph and table alone. */
  lemma LocalKeepsGraph(s: Sys, t: nat, th: Thread, s2: Sys)
    requires GraphInv(s) && t < |s.threads| && s2 == SetThread(s, t, th).(w4 := s2.w4)
    requires InTable(SetThread(s, t, th), t)
    ensures GraphInv(s2)
  {
    forall u | 0 <= u < |s2.threads| ensures InTable(s2, u) { assert u != t ==> InTable(s, u); }
  }

  lemma MarkKeepsGraph(z: Setup, s: Sys, t: nat, idx: int, mode: Mode)
    requires GraphInv(s) && t < |s.threads| && idx < |s.g.shares|
    ensures GraphInv(Marked(z, s, t, idx, mode))
  {
    assert InTable(s, t);
    LocalKeepsGraph(s, t, Marked(z, s, t, idx, mode).threads[t], Marked(z, s, t, idx, mode));
  }

  lemma DropKeepsGraph(s: Sys, t: nat, p: nat, idx: int)
    requires GraphInv(s) && t < |s.threads|
    ensures GraphInv(Dropped(s, t, p, idx))
  {
    assert InTable(s, t);
    LocalKeepsGraph(s, t, Dropped(s, t, p, idx).threads[t], Dropped(s, t, p, idx));
  }

  lemma OthersKeepGraph(z: Setup, s: Sys, step: Step, s2: Sys)
    requires GraphInv(s) && Next(z, s, step, s2)
    requires step.Exist? || step.Sleep? || step.Grant? || step.Fail? || step.Try? || step.Unlock?
    ensures GraphInv(s2)
  {
    assert s2.g == s.g && s2.index == s.index && |s2.threads| == |s.threads|;
    forall u | 0 <= u < |s2.threads| ensures InTable(s2, u) { assert InTable(s, u); }
  }

  lemma NextKeepsGraph(z: Setup, s: Sys, step: Step, s2: Sys)
    requires GraphInv(s) && Next(z, s, step, s2)
    ensures GraphInv(s2)
  {
    match step
    case Destroy(p, ok) => DestroyKeepsGraph(z, s, p, ok, s2);
    case LockHook(t, p, mode, idx) => HookKeepsGraph(z, s, t, p, mode, idx, s2);
    case Mark(t) =>
      assert InTable(s, t);
      MarkKeepsGraph(z, s, t, s.threads[t].phase.idx, s.threads[t].phase.mode);
    case MarkTried(t, idx) =>
      LookedKeepsGraph(s, s.threads[t].phase.p, idx);
      MarkKeepsGraph(z, Looked(s, s.threads[t].phase.p, idx), t, idx, s.threads[t].phase.mode);
    case UnlockHook(t, p, idx) =>
      LookedKeepsGraph(s, p, idx);
      DropKeepsGraph(Looked(s, p, idx), t, p, idx);
    case _ => OthersKeepGraph(z, s, step, s2);
  }

  lemma NothingIsAcyclic(shares: seq<bool>)
    ensures Acyclic({}, shares)
  {
    forall w: seq<Edge> ensures !ClosedWalk({}, shares, w) { assert |w| > 0 ==> w[0] !in {}; }
  }

  /** The recorded order graph has no closed walk of waits until a W1 is counted: every edge
      insertion and every destroy keeps it so, whatever is destroyed, forgotten or not recorded. */
  lemma {:induction false} NoCircleBeforeFirstW1(z: Setup, a: Misuse, run: seq<Sys>, steps: seq<Step>, k: nat)
    requires Run(z, a, run, steps) && k < |run|
    ensures GraphInv(run[k])
    ensures run[k].g.w1 == 0 ==> Acyclic(run[k].g.E, run[k].g.shares)
  {
    if k == 0 {
      NothingIsAcyclic(run[0].g.shares);
    } else {
      NoCircleBeforeFirstW1(z, a, run, steps, k - 1);
      assert StepAt(z, a, run, steps, k - 1);
      NextKeepsGraph(z, run[k - 1], steps[k - 1], run[k]);
    }
  }

  // ----- without misuse, records agree with real ownership ------------------

  /** What the thread's records say about addresses. */
  ghost function Seen(index: map<nat, nat>, held: Holds): Holds {
    map p | p in index && index[p] in held :: held[index[p]]
  }

  /** The records agree with what the thread really holds, up to the operation it is in. */
  ghost predicate Agrees(index: map<nat, nat>, th: Thread) {
    match th.phase
    case Idle => Seen(index, th.held) == th.owns
    case Waiting(_, _, _) => Seen(index, th.held) == th.owns
    case Granted(p, idx, mode) => p in index && index[p] == idx && th.owns == OneMore(Seen(index, th.held), p, mode)
    case Tried(p, mode) => th.owns == OneMore(Seen(index, th.held), p, mode)
    case Releasing(p) => Seen(index, th.held) == if p in th.owns then OneLess(th.owns, p) else th.owns
  }

  /** A waiting thread's orders are in the graph, or it waits for a lock it may take again. */
  ghost predicate Recorded(index: map<nat, nat>, kinds: map<nat, Kind>, E: set<Edge>, th: Thread) {
    th.phase.Waiting? ==>
      var Waiting(p, idx, mode) := th.phase;
      && p in kinds && (mode == WRITE || kinds[p].RwLock?) && p in index && index[p] == idx
      && if idx in th.held then Recursive(kinds[p]) || (mode == READ && th.held[idx].0 == READ && Shares(kinds[p]))
         else NewEdges(th.held, idx, mode) <= E
  }

  ghost predicate HoldsOk(index: map<nat, nat>, kinds: map<nat, Kind>, th: Thread) {
    && (forall i :: i in th.held ==> i in index.Values)
    && (forall p :: p in th.owns ==> p in kinds && (th.owns[p].0 == WRITE || kinds[p].RwLock?))
    && (th.phase.Granted? || th.phase.Tried? ==>
          th.phase.p in kinds && (th.phase.mode == WRITE || kinds[th.phase.p].RwLock?))
  }

  ghost predicate ThreadOk(s: Sys, t: nat)
    requires t < |s.threads|
  {
    var th := s.threads[t];
    && HoldsOk(s.index, s.kinds, th) && Agrees(s.index, th) && Recorded(s.index, s.kinds, s.g.E, th)
  }

  /** Real locks exclude: two threads that hold the same lock are both readers. */
  ghost predicate Exclusive(s: Sys) {
    forall t, u, p :: 0 <= t < |s.threads| && 0 <= u < |s.threads| && t != u ==>
      p in s.threads[t].owns && p in s.threads[u].owns ==> s.threads[t].owns[p].0 == READ
  }

  ghost predicate ThreadsOk(s: Sys) {
    && Indexed(s) && Exclusive(s)
    && forall t {:trigger ThreadOk(s, t)} :: 0 <= t < |s.threads| ==> ThreadOk(s, t)
  }

  lemma SeenOneMore(index: map<nat, nat>, held: Holds, p: nat, mode: Mode)
    requires p in index && forall q :: q in index && index[q] == index[p] ==> q == p
    ensures Seen(index, OneMore(held, index[p], mode)) == OneMore(Seen(index, held), p, mode)
  {
    var a, b := Seen(index, OneMore(held, index[p], mode)), OneMore(Seen(index, held), p, mode);
    forall q ensures q in a <==> q in b { }
    forall q | q in a ensures a[q] == b[q] { }
  }

  lemma SeenOneLess(index: map<nat, nat>, held: Holds, p: nat)
    requires p in index && index[p] in held && forall q :: q in index && index[q] == index[p] ==> q == p
    ensures p in Seen(index, held) && Seen(index, OneLess(held, index[p])) == OneLess(Seen(index, held), p)
  {
    var a, b := Seen(index, OneLess(held, index[p])), OneLess(Seen(index, held), p);
    forall q ensures q in a <==> q in b { }
    forall q | q in a ensures a[q] == b[q] { }
  }

  /** A slot found or filled is none that somebody holds as another lock. */
  lemma LookedKeepsHolds(index: map<nat, nat>, p: nat, idx: nat, held: Holds)
    requires p in index ==> idx == index[p]
    requires p !in index ==> idx !in index.Values
    requires forall i :: i in held ==> i in index.Values
    ensures Seen(index[p := idx], held) == Seen(index, held)
    ensures forall i :: i in held ==> i in index[p := idx].Values
  {
    var index2 := index[p := idx];
    forall i | i in held ensures i in index2.Values {
      var q :| q in index && index[q] == i;
      assert q in index2 && index2[q] == i;
    }
    var a, b := Seen(index2, held), Seen(index, held);
    forall q ensures q in a <==> q in b { }
  }

  lemma LookedKeepsThread(s: Sys, p: nat, idx: int, t: nat)
    requires Indexed(s) && Finds(s, p, idx) && t < |s.threads| && ThreadOk(s, t)
    ensures ThreadOk(Looked(s, p, idx), t)
    ensures Seen(Looked(s, p, idx).index, s.threads[t].held) == Seen(s.index, s.threads[t].held)
  {
    if idx >= 0 {
      var th, index2 := s.threads[t], s.index[p := idx];
      LookedKeepsHolds(s.index, p, idx, th.held);
      SameRecords(s.index, index2, s.kinds, s.g.E, th);
      assert Looked(s, p, idx).index == index2 && Looked(s, p, idx).threads[t] == th;
    }
  }

  /** A thread is not concerned by a table in which its own locks have the same slots. */
  lemma SameRecords(index: map<nat, nat>, index2: map<nat, nat>, kinds: map<nat, Kind>, E: set<Edge>, th: Thread)
    requires HoldsOk(index, kinds, th) && Agrees(index, th) && Recorded(index, kinds, E, th)
    requires Seen(index2, th.held) == Seen(index, th.held) && forall i :: i in th.held ==> i in index2.Values
    requires forall q :: q in index ==> q in index2 && index2[q] == index[q]
    ensures HoldsOk(index2, kinds, th) && Agrees(index2, th) && Recorded(index2, kinds, E, th)
  {
  }

  lemma LookedInv(s: Sys, p: nat, idx: int)
    requires ThreadsOk(s) && GraphInv(s) && Finds(s, p, idx)
    ensures ThreadsOk(Looked(s, p, idx))
  {
    LookedKeepsGraph(s, p, idx);
    var r := Looked(s, p, idx);
    forall t | 0 <= t < |r.threads| ensures ThreadOk(r, t) {
      assert ThreadOk(s, t);
      LookedKeepsThread(s, p, idx, t);
    }
  }

  /** Steps that change one thread and make nobody own more. */
  lemma LocalInv(s: Sys, t: nat, th: Thread, s2: Sys)
    requires ThreadsOk(s) && t < |s.threads| && s2 == SetThread(s, t, th).(w4 := s2.w4)
    requires forall p :: p in th.owns ==> p in s.threads[t].owns && th.owns[p].0 == s.threads[t].owns[p].0
    requires ThreadOk(SetThread(s, t, th), t)
    ensures ThreadsOk(s2)
  {
    assert ThreadOk(SetThread(s, t, th), t);
    forall u | 0 <= u < |s2.threads| ensures ThreadOk(s2, u) { assert u != t ==> ThreadOk(s, u); }
  }

  lemma ExistInv(z: Setup, s: Sys, p: nat, k: Kind, s2: Sys)
    requires ThreadsOk(s) && Next(z, s, Exist(p, k), s2)
    ensures ThreadsOk(s2)
  {
    forall t | 0 <= t < |s2.threads| ensures ThreadOk(s2, t) { assert ThreadOk(s, t); }
  }

  /** Nothing an unused lock's slot means to a thread is lost with it. */
  lemma ForgetsKeepsThread(s: Sys, p: nat, t: nat)
    requires Indexed(s) && Unused(s, p) && p in s.index && t < |s.threads| && ThreadOk(s, t)
    ensures ThreadOk(Forgets(s, p), t)
  {
    ForgetsKeepsHolds(s.index, p, s.threads[t].held);
    ForgetsKeepsOrders(s, p, t);
  }

  lemma ForgetsKeepsHolds(index: map<nat, nat>, p: nat, held: Holds)
    requires p in index && index[p] !in held && forall i :: i in held ==> i in index.Values
    ensures Seen(index - {p}, held) == Seen(index, held) && forall i :: i in held ==> i in (index - {p}).Values
  {
    var index2 := index - {p};
    forall i | i in held ensures i in index2.Values {
      var q :| q in index && index[q] == i;
      assert q in index2 && index2[q] == i;
    }
    var a, b := Seen(index2, held), Seen(index, held);
    forall q ensures q in a <==> q in b { }
  }

  lemma ForgetsKeepsOrders(s: Sys, p: nat, t: nat)
    requires Indexed(s) && Unused(s, p) && p in s.index && t < |s.threads|
    requires Recorded(s.index, s.kinds, s.g.E, s.threads[t])
    ensures Recorded(Forgets(s, p).index, s.kinds, Forgets(s, p).g.E, s.threads[t])
  {
    var r, th := Forgets(s, p), s.threads[t];
    if th.phase.Waiting? && th.phase.idx !in th.held {
      assert th.phase.idx != s.index[p];
      forall e | e in NewEdges(th.held, th.phase.idx, th.phase.mode) ensures e in r.g.E { }
    }
  }

  lemma ForgetsInv(s: Sys, p: nat)
    requires ThreadsOk(s) && Unused(s, p)
    ensures ThreadsOk(Forgets(s, p)) && Unused(Forgets(s, p), p)
  {
    if p in s.index {
      forall t | 0 <= t < |s.threads| ensures ThreadOk(Forgets(s, p), t) {
        assert ThreadOk(s, t);
        ForgetsKeepsThread(s, p, t);
      }
    }
  }

  lemma GoneInv(s: Sys, p: nat)
    requires ThreadsOk(s) && Unused(s, p) && p !in s.index
    ensures ThreadsOk(Gone(s, p))
  {
    var r := Gone(s, p);
    forall t | 0 <= t < |s.threads| ensures r.threads[t] == s.threads[t] && ThreadOk(r, t) {
      assert ThreadOk(s, t);
      assert s.threads[t].owns - {p} == s.threads[t].owns;
    }
  }

  lemma DestroyInv(z: Setup, s: Sys, p: nat, ok: bool, s2: Sys)
    requires ThreadsOk(s) && Unused(s, p) && Next(z, s, Destroy(p, ok), s2)
    ensures ThreadsOk(s2)
  {
    ForgetsInv(s, p);
    if ok { GoneInv(Forgets(s, p), p); }
  }

  /** The wait's orders are in the graph now, unless it is one for a lock held already. */
  lemma WaitIsRecorded(r: Sys, t: nat, p: nat, mode: Mode, s2: Sys)
    requires ThreadsOk(r) && t < |r.threads| && r.threads[t].phase == Idle && p in r.index && ModeOk(r, p, mode)
    requires WaitRecorded(r.g, r.threads[t].held, r.index[p], mode, s2.g) && s2.g.w1 == r.g.w1
    requires s2 == InPhase(r, t, Waiting(p, r.index[p], mode)).(g := s2.g)
    ensures s2.g.shares == r.g.shares && s2.g.recursive == r.g.recursive && r.g.E <= s2.g.E && ThreadOk(s2, t)
  {
    assert ThreadOk(r, t);
  }

  lemma LockHookInv(z: Setup, s: Sys, t: nat, p: nat, mode: Mode, idx: nat, s2: Sys)
    requires ThreadsOk(s) && GraphInv(s) && Next(z, s, LockHook(t, p, mode, idx), s2)
    ensures s2.g.w1 == s.g.w1 ==> ThreadsOk(s2)
  {
    LookedInv(s, p, idx);
    var r := Looked(s, p, idx);
    if s2.g.w1 == s.g.w1 {
      WaitIsRecorded(r, t, p, mode, s2);
      OthersKept(r, t, s2);
    }
  }

  lemma OthersKept(r: Sys, t: nat, s2: Sys)
    requires ThreadsOk(r) && t < |r.threads| == |s2.threads|
    requires s2.threads == r.threads[t := r.threads[t].(phase := s2.threads[t].phase)]
    requires s2.index == r.index && s2.kinds == r.kinds && s2.g.shares == r.g.shares && s2.g.recursive == r.g.recursive
    requires r.g.E <= s2.g.E && ThreadOk(s2, t)
    ensures ThreadsOk(s2)
  {
    forall u | 0 <= u < |s2.threads| && u != t ensures ThreadOk(s2, u) { assert ThreadOk(r, u); }
  }

  lemma TakeInv(s: Sys, t: nat, p: nat, mode: Mode, phase: Phase)
    requires ThreadsOk(s) && t < |s.threads| && ModeOk(s, p, mode) && CanTake(s, t, p, mode)
    requires Seen(s.index, s.threads[t].held) == s.threads[t].owns
    requires phase == Tried(p, mode) || (p in s.index && phase == Granted(p, s.index[p], mode))
    ensures ThreadsOk(Taken(s, t, p, mode, phase))
  {
    var s2 := Taken(s, t, p, mode, phase);
    assert ThreadOk(s, t);
    forall u | 0 <= u < |s2.threads| ensures ThreadOk(s2, u) { assert ThreadOk(s, u); }
    forall a, b, q | 0 <= a < |s2.threads| && 0 <= b < |s2.threads| && a != b
      && q in s2.threads[a].owns && q in s2.threads[b].owns
      ensures s2.threads[a].owns[q].0 == READ
    {
      TakeKeepsExclusive(s, t, p, mode, phase, a, b, q);
    }
  }

  lemma TakeKeepsExclusive(s: Sys, t: nat, p: nat, mode: Mode, phase: Phase, a: nat, b: nat, q: nat)
    requires Exclusive(s) && t < |s.threads| && p in s.kinds && CanTake(s, t, p, mode)
    requires a < |s.threads| && b < |s.threads| && a != b
    requires q in Taken(s, t, p, mode, phase).threads[a].owns && q in Taken(s, t, p, mode, phase).threads[b].owns
    ensures Taken(s, t, p, mode, phase).threads[a].owns[q].0 == READ
  {
    var s2 := Taken(s, t, p, mode, phase);
    if q == p && a == t && p in s.threads[t].owns { assert s.threads[b].owns[q] == s2.threads[b].owns[q]; }
  }

  /** The thread once its hold has been recorded. */
  ghost function Holder(th: Thread, idx: nat, mode: Mode): Thread {
    th.(held := OneMore(th.held, idx, mode), phase := Idle)
  }

  lemma HolderOk(s: Sys, t: nat, p: nat, mode: Mode)
    requires Indexed(s) && t < |s.threads| && p in s.index && HoldsOk(s.index, s.kinds, s.threads[t])
    requires s.threads[t].owns == OneMore(Seen(s.index, s.threads[t].held), p, mode)
    ensures ThreadOk(SetThread(s, t, Holder(s.threads[t], s.index[p], mode)), t)
  {
    SeenOneMore(s.index, s.threads[t].held, p, mode);
  }

  lemma MarkInv(z: Setup, s: Sys, t: nat, p: nat, mode: Mode)
    requires ThreadsOk(s) && t < |s.threads| && p in s.index && Fits(z, s, t, s.index[p])
    requires s.threads[t].owns == OneMore(Seen(s.index, s.threads[t].held), p, mode)
    ensures ThreadsOk(Marked(z, s, t, s.index[p], mode))
  {
    assert ThreadOk(s, t);
    HolderOk(s, t, p, mode);
    LocalInv(s, t, Holder(s.threads[t], s.index[p], mode), Marked(z, s, t, s.index[p], mode));
  }

  lemma MarkTriedInv(z: Setup, s: Sys, t: nat, idx: int)
    requires ThreadsOk(s) && GraphInv(s) && t < |s.threads| && s.threads[t].phase.Tried? && idx >= 0
    requires Finds(s, s.threads[t].phase.p, idx) && Fits(z, s, t, idx)
    ensures ThreadsOk(Marked(z, Looked(s, s.threads[t].phase.p, idx), t, idx, s.threads[t].phase.mode))
  {
    var p := s.threads[t].phase.p;
    assert ThreadOk(s, t);
    LookedInv(s, p, idx);
    LookedKeepsThread(s, p, idx, t);
    MarkInv(z, Looked(s, p, idx), t, p, s.threads[t].phase.mode);
  }

  lemma DropInv(s: Sys, t: nat, p: nat)
    requires ThreadsOk(s) && t < |s.threads| && s.threads[t].phase == Idle && p in s.index
    ensures ThreadsOk(Dropped(s, t, p, s.index[p]))
  {
    assert ThreadOk(s, t);
    if s.index[p] in s.threads[t].held { SeenOneLess(s.index, s.threads[t].held, p); }
    LocalInv(s, t, Dropped(s, t, p, s.index[p]).threads[t], Dropped(s, t, p, s.index[p]));
  }

  /** The thread's own hold goes, or none. */
  lemma UnlockInv(z: Setup, s: Sys, t: nat, victim: nat, s2: Sys)
    requires ThreadsOk(s) && Next(z, s, Unlock(t, victim), s2) && Allowed(z, NONE, s, Unlock(t, victim))
    ensures ThreadsOk(s2)
  {
    assert ThreadOk(s, t);
    var th := s.threads[t];
    var th2 := th.(owns := if th.phase.p in th.owns then OneLess(th.owns, th.phase.p) else th.owns, phase := Idle);
    assert s2 == SetThread(s, t, th2);
    LocalInv(s, t, th2, s2);
  }

  /** Who sleeps does not matter to the records. */
  lemma AsleepInv(s: Sys, asleep: set<nat>)
    requires ThreadsOk(s)
    ensures ThreadsOk(s.(asleep := asleep))
  {
    forall t | 0 <= t < |s.threads| ensures ThreadOk(s.(asleep := asleep), t) { assert ThreadOk(s, t); }
  }

  lemma NextInv(z: Setup, s: Sys, step: Step, s2: Sys)
    requires ThreadsOk(s) && GraphInv(s) && Next(z, s, step, s2) && Allowed(z, NONE, s, step)
    ensures s2.g.w1 == s.g.w1 ==> ThreadsOk(s2)
  {
    match step
    case Exist(p, k) => ExistInv(z, s, p, k, s2);
    case Destroy(p, ok) => DestroyInv(z, s, p, ok, s2);
    case LockHook(t, p, mode, idx) => LockHookInv(z, s, t, p, mode, idx, s2);
    case Sleep(t) => AsleepInv(s, s2.asleep);
    case Grant(t) =>
      assert ThreadOk(s, t);
      var Waiting(p, idx, mode) := s.threads[t].phase;
      TakeInv(s, t, p, mode, Granted(p, idx, mode));
      AsleepInv(Taken(s, t, p, mode, Granted(p, idx, mode)), s2.asleep);
    case Fail(t) =>
      assert ThreadOk(s, t);
      LocalInv(s, t, s2.threads[t], InPhase(s, t, Idle));
      AsleepInv(InPhase(s, t, Idle), s2.asleep);
    case Try(t, p, mode) =>
      assert ThreadOk(s, t);
      TakeInv(s, t, p, mode, s2.threads[t].phase);
    case Mark(t) =>
      assert ThreadOk(s, t);
      MarkInv(z, s, t, s.threads[t].phase.p, s.threads[t].phase.mode);
    case MarkTried(t, idx) => MarkTriedInv(z, s, t, idx);
    case UnlockHook(t, p, idx) =>
      LookedInv(s, p, idx);
      DropInv(Looked(s, p, idx), t, p);
    case Unlock(t, victim) => UnlockInv(z, s, t, victim, s2);
  }

  lemma InitOk(z: Setup, s: Sys)
    requires Init(z, s)
    ensures ThreadsOk(s)
  {
    forall t | 0 <= t < |s.threads| ensures ThreadOk(s, t) { }
  }

  /** In a run without misuse, until a W1 is counted, lockcheck's records agree with real ownership. */
  lemma {:induction false} RunInv(z: Setup, run: seq<Sys>, steps: seq<Step>, k: nat)
    requires Run(z, NONE, run, steps) && k < |run|
    ensures run[k].g.w1 == 0 ==> ThreadsOk(run[k])
  {
    if k == 0 {
      InitOk(z, run[0]);
    } else {
      RunInv(z, run, steps, k - 1);
      NoCircleBeforeFirstW1(z, NONE, run, steps, k - 1);
      assert StepAt(z, NONE, run, steps, k - 1);
      NextKeeps(z, run[k - 1], steps[k - 1], run[k]);
    }
  }

  lemma NextKeeps(z: Setup, s: Sys, step: Step, s2: Sys)
    requires GraphInv(s) && (s.g.w1 == 0 ==> ThreadsOk(s)) && Next(z, s, step, s2) && Allowed(z, NONE, s, step)
    ensures s2.g.w1 == 0 ==> ThreadsOk(s2)
  {
    W1Grows(z, s, step, s2);
    if s2.g.w1 == 0 { NextInv(z, s, step, s2); }
  }

  lemma W1Grows(z: Setup, s: Sys, step: Step, s2: Sys)
    requires Next(z, s, step, s2)
    ensures s2.g.w1 >= s.g.w1
  {
  }

  /** Until a W1 is counted, an unlock counts a W4 exactly when its thread does not hold the lock. */
  lemma {:induction false} W4ExactlyForStrangers(z: Setup, run: seq<Sys>, steps: seq<Step>, k: nat)
    requires Run(z, NONE, run, steps) && k < |steps| && steps[k].UnlockHook? && run[k].g.w1 == 0
    ensures steps[k].t < |run[k].threads|
    ensures run[k + 1].w4 == run[k].w4 + if steps[k].p in run[k].threads[steps[k].t].owns then 0 else 1
  {
    RunInv(z, run, steps, k);
    var s := run[k];
    var UnlockHook(t, p, idx) := steps[k];
    assert StepAt(z, NONE, run, steps, k);
    assert ThreadOk(s, t);
    LookedKeepsThread(s, p, idx, t);
    assert p in Seen(Looked(s, p, idx).index, s.threads[t].held) <==> idx in s.threads[t].held;
  }

  /** Only a thread inside a real lock call sleeps. */
  ghost predicate SleepersWait(s: Sys) {
    forall t :: t in s.asleep ==> t < |s.threads| && s.threads[t].phase.Waiting?
  }

  lemma StepSleepers(z: Setup, s: Sys, step: Step, s2: Sys)
    requires SleepersWait(s) && Next(z, s, step, s2)
    ensures SleepersWait(s2) && |s2.threads| == |s.threads|
  {
  }

  lemma {:induction false} OnlyWaitersSleep(z: Setup, a: Misuse, run: seq<Sys>, steps: seq<Step>, k: nat)
    requires Run(z, a, run, steps) && k < |run|
    ensures SleepersWait(run[k])
  {
    if k > 0 {
      OnlyWaitersSleep(z, a, run, steps, k - 1);
      assert StepAt(z, a, run, steps, k - 1);
      StepSleepers(z, run[k - 1], steps[k - 1], run[k]);
    }
  }

  /** Whatever the program does: the hooks around a lock that finds no slot in a full table record and count nothing. */
  lemma {:induction false} UntrackedIsSilent(z: Setup, a: Misuse, run: seq<Sys>, steps: seq<Step>, k: nat)
    requires Run(z, a, run, steps) && k < |steps| && (steps[k].LockHook? || steps[k].UnlockHook?)
    requires Shape(run[k]) && steps[k].p !in run[k].index
    requires forall i :: 0 <= i < |run[k].g.shares| ==> i in run[k].index.Values
    ensures var s, s2 := run[k], run[k + 1];
      && s2.g == s.g && s2.index == s.index && s2.w4 == s.w4 && |s2.threads| == |s.threads|
      && forall t :: 0 <= t < |s.threads| ==> s2.threads[t].held == s.threads[t].held
  {
    assert StepAt(z, a, run, steps, k);
  }

  /** Until a W1 is counted, taking a lock that the thread holds is reported unless the lock is a recursive
      mutex or an rwlock that shares reads, read again; taking another one is reported exactly when its
      orders close a circle of waits. */
  lemma {:induction false} W1Exactly(z: Setup, run: seq<Sys>, steps: seq<Step>, k: nat)
    requires Run(z, NONE, run, steps) && k < |steps| && steps[k].LockHook? && run[k].g.w1 == 0
    ensures var s, s2 := run[k], run[k + 1];
      var LockHook(t, p, mode, _) := steps[k];
      && t < |s.threads| && p in s.kinds
      && (p in s.threads[t].owns ==>
            (s2.g.w1 == 0 <==> s.kinds[p] == Mutex(true)
                               || (s.kinds[p] == RwLock(true) && mode == READ && s.threads[t].owns[p].0 == READ)))
      && (p !in s.threads[t].owns ==> (s2.g.w1 == 0 <==> Acyclic(s2.g.E, s2.g.shares)))
  {
    RunInv(z, run, steps, k);
    NoCircleBeforeFirstW1(z, NONE, run, steps, k);
    assert StepAt(z, NONE, run, steps, k);
    HookWarns(z, run[k], steps[k].t, steps[k].p, steps[k].mode, steps[k].idx, run[k + 1]);
  }

  lemma HookWarns(z: Setup, s: Sys, t: nat, p: nat, mode: Mode, idx: nat, s2: Sys)
    requires ThreadsOk(s) && GraphInv(s) && Next(z, s, LockHook(t, p, mode, idx), s2) && s.g.w1 == 0
    ensures p in s.threads[t].owns ==>
      (s2.g.w1 == 0 <==> s.kinds[p] == Mutex(true)
                         || (s.kinds[p] == RwLock(true) && mode == READ && s.threads[t].owns[p].0 == READ))
    ensures p !in s.threads[t].owns ==> (s2.g.w1 == 0 <==> Acyclic(s2.g.E, s2.g.shares))
  {
    OwnIsSeen(s, t, p, idx);
    LookedKeepsGraph(s, p, idx);
  }

  /** The hook finds a lock held exactly when the thread has it. */
  lemma OwnIsSeen(s: Sys, t: nat, p: nat, idx: nat)
    requires ThreadsOk(s) && t < |s.threads| && s.threads[t].phase == Idle && Finds(s, p, idx)
    ensures p in s.threads[t].owns <==> idx in s.threads[t].held
    ensures p in s.threads[t].owns ==> s.threads[t].owns[p] == s.threads[t].held[idx]
  {
    assert ThreadOk(s, t);
    LookedKeepsThread(s, p, idx, t);
    var index := s.index[p := idx];
    assert Looked(s, p, idx).index == index;
    assert p in Seen(index, s.threads[t].held) <==> idx in s.threads[t].held;
  }

  // ----- holds are neither lost nor made up -------------------------------

  function Count(owns: Holds, p: nat): nat {
    if p in owns then owns[p].1 else 0
  }

  /** Does the step give thread t one more hold of p, or take one away? */
  ghost function Change(s: Sys, step: Step, t: nat, p: nat): int
    requires t < |s.threads|
  {
    match step
    case Grant(u) => if u == t && s.threads[t].phase.Waiting? && s.threads[t].phase.p == p then 1 else 0
    case Try(u, q, _) => if u == t && q == p then 1 else 0
    case Unlock(u, _) =>
      if u == t && s.threads[t].phase == Releasing(p) && p in s.threads[t].owns then -1 else 0
    case _ => 0
  }

  ghost predicate Counted(s: Sys) {
    forall t {:trigger CountedThread(s, t)} :: 0 <= t < |s.threads| ==> CountedThread(s, t)
  }

  ghost predicate CountedThread(s: Sys, t: nat)
    requires t < |s.threads|
  {
    forall p :: p in s.threads[t].owns ==> s.threads[t].owns[p].1 >= 1
  }

  lemma StepCounts(z: Setup, s: Sys, step: Step, s2: Sys, t: nat, p: nat)
    requires Next(z, s, step, s2) && Allowed(z, NONE, s, step) && Counted(s) && t < |s.threads|
    ensures |s2.threads| == |s.threads|
    ensures Count(s2.threads[t].owns, p) == Count(s.threads[t].owns, p) + Change(s, step, t, p)
  {
    assert CountedThread(s, t);
  }

  lemma StepKeepsCounted(z: Setup, s: Sys, step: Step, s2: Sys)
    requires Next(z, s, step, s2) && Counted(s)
    ensures Counted(s2)
  {
    forall t | 0 <= t < |s2.threads| ensures CountedThread(s2, t) { assert CountedThread(s, t); }
  }

  ghost function Changes(run: seq<Sys>, steps: seq<Step>, k: nat, t: nat, p: nat): int
    requires k <= |steps| < |run| && forall j :: 0 <= j < |run| ==> t < |run[j].threads|
  {
    if k == 0 then 0 else Changes(run, steps, k - 1, t, p) + Change(run[k - 1], steps[k - 1], t, p)
  }

  lemma {:induction false} RunCounted(z: Setup, run: seq<Sys>, steps: seq<Step>, k: nat)
    requires Run(z, NONE, run, steps) && k < |run|
    ensures Counted(run[k])
  {
    if k > 0 {
      RunCounted(z, run, steps, k - 1);
      assert StepAt(z, NONE, run, steps, k - 1);
      StepKeepsCounted(z, run[k - 1], steps[k - 1], run[k]);
    }
  }

  /** A lock taken n times is held until it has been released n times, and by nobody else. */
  lemma {:induction false} HoldsAreCounted(z: Setup, run: seq<Sys>, steps: seq<Step>, k: nat, t: nat, p: nat)
    requires Run(z, NONE, run, steps) && k < |run| && forall j :: 0 <= j < |run| ==> t < |run[j].threads|
    ensures Count(run[k].threads[t].owns, p) == Changes(run, steps, k, t, p)
    ensures p in run[k].threads[t].owns <==> Changes(run, steps, k, t, p) > 0
  {
    RunCounted(z, run, steps, k);
    assert CountedThread(run[k], t);
    if k > 0 {
      HoldsAreCounted(z, run, steps, k - 1, t, p);
      RunCounted(z, run, steps, k - 1);
      assert StepAt(z, NONE, run, steps, k - 1);
      StepCounts(z, run[k - 1], steps[k - 1], run[k], t, p);
    }
  }

  // ----- deadlocks are never silent ---------------------------------------

  ghost function EdgeOf(s: Sys, t: nat, u: nat): Edge
    requires WaitsFor(s, t, u) && s.threads[t].phase.p in s.index && s.threads[u].phase.Waiting?
    requires s.threads[u].phase.idx >= 0
  {
    var p := s.threads[t].phase.p;
    Edge(s.index[p], s.threads[u].owns[p].0, s.threads[u].phase.idx, s.threads[u].phase.mode)
  }

  ghost predicate HasEdge(s: Sys, t: nat, u: nat) {
    && WaitsFor(s, t, u) && s.threads[t].phase.p in s.index && s.threads[u].phase.Waiting?
        && s.threads[u].phase.idx >= 0
    && EdgeOf(s, t, u) in s.g.E
  }

  lemma WaiterIsRecorded(s: Sys, t: nat, u: nat)
    requires ThreadsOk(s) && WaitsFor(s, t, u)
    ensures s.threads[t].phase.p in s.index && s.threads[t].phase.idx == s.index[s.threads[t].phase.p]
  {
    assert ThreadOk(s, t);
  }

  /** A blocked thread cannot be waiting for a lock it holds itself: it may only be
      kept out of it by another owner, whom it excludes. */
  lemma WaiterDoesNotHold(s: Sys, t: nat, u: nat)
    requires ThreadsOk(s) && WaitsFor(s, t, u)
    ensures s.threads[t].phase.idx !in s.threads[t].held
  {
    assert ThreadOk(s, t) && ThreadOk(s, u);
    var th := s.threads[t];
    var p := th.phase.p;
    assert th.phase.idx in th.held ==> p in Seen(s.index, th.held);
    assert t != u && p in th.owns ==> th.owns[p].0 == READ && s.threads[u].owns[p].0 == READ;
  }

  /** Two consecutive waits are an edge of the graph. */
  lemma {:induction false} WaitIsEdge(s: Sys, t: nat, u: nat, v: nat)
    requires ThreadsOk(s) && WaitsFor(s, t, u) && WaitsFor(s, u, v)
    ensures HasEdge(s, t, u)
  {
    WaiterIsRecorded(s, u, v);
    WaiterDoesNotHold(s, u, v);
    assert ThreadOk(s, u);
    var th, x := s.threads[u], s.threads[t].phase.p;
    assert x in Seen(s.index, th.held);
    assert EdgeOf(s, t, u) in NewEdges(th.held, th.phase.idx, th.phase.mode);
  }

  lemma WaitsAreLinked(s: Sys, t: nat, u: nat, v: nat, w: nat)
    requires ThreadsOk(s) && WaitsFor(s, t, u) && WaitsFor(s, u, v) && WaitsFor(s, v, w)
    ensures s.threads[t].phase.p in s.index && s.threads[u].phase.p in s.index
    ensures s.threads[u].phase.idx >= 0 && s.threads[v].phase.idx >= 0
    ensures Linked(s.g.shares, EdgeOf(s, t, u), EdgeOf(s, u, v))
  {
    WaiterIsRecorded(s, t, u);
    WaiterIsRecorded(s, u, v);
    WaiterIsRecorded(s, v, w);
  }

  /** Every thread of the circle is blocked by the one after it. */
  lemma CircleWaits(s: Sys, c: seq<nat>, i: nat)
    requires CircularWait(s, c) && i < |c|
    ensures WaitsFor(s, c[i], After(c, i))
  {
    if i + 1 < |c| { BlocksWaits(s, c[i], c[i + 1]); } else { BlocksWaits(s, c[|c| - 1], c[0]); }
  }

  /** The edge of the i-th wait is recorded and leads on to the next one. */
  lemma {:induction false} CircleEdge(s: Sys, c: seq<nat>, i: nat)
    requires ThreadsOk(s) && CircularWait(s, c) && i < |c|
    ensures HasEdge(s, c[i], After(c, i)) && HasEdge(s, After(c, i), After(c, Following(c, i)))
    ensures Linked(s.g.shares, EdgeOf(s, c[i], After(c, i)), EdgeOf(s, After(c, i), After(c, Following(c, i))))
  {
    var j := Following(c, i);
    CircleWaits(s, c, i);
    CircleWaits(s, c, j);
    CircleWaits(s, c, Following(c, j));
    CircleWaits(s, c, Following(c, Following(c, j)));
    WaitIsEdge(s, c[i], c[j], After(c, j));
    WaitIsEdge(s, c[j], After(c, j), After(c, Following(c, j)));
    WaitsAreLinked(s, c[i], c[j], After(c, j), After(c, Following(c, j)));
  }

  lemma LoopIsClosedWalk(E: set<Edge>, shares: seq<bool>, c: seq<nat>, w: seq<Edge>)
    requires |w| == |c| > 0
    requires forall i :: 0 <= i < |c| ==> w[i] in E && Linked(shares, w[i], w[Following(c, i)])
    ensures ClosedWalk(E, shares, w)
  {
    forall i | 0 <= i < |w| ensures w[i] in E { assert Following(c, i) < |c|; }
    forall i | 0 <= i < |w| - 1 ensures LinkedAt(shares, w, i) { assert Following(c, i) == i + 1; }
    assert Following(c, |w| - 1) == 0;
  }

  /** The circle of threads spells a closed walk of waits in the recorded graph. */
  lemma {:induction false} CircleIsClosedWalk(s: Sys, c: seq<nat>)
    requires ThreadsOk(s)
    ensures CircularWait(s, c) ==> !Acyclic(s.g.E, s.g.shares)
  {
    if CircularWait(s, c) {
      forall i | 0 <= i < |c| ensures HasEdge(s, c[i], After(c, i)) { CircleEdge(s, c, i); }
      var w := seq(|c|, i requires 0 <= i < |c| => EdgeOf(s, c[i], After(c, i)));
      forall i | 0 <= i < |c| ensures w[i] in s.g.E && Linked(s.g.shares, w[i], w[Following(c, i)]) {
        CircleEdge(s, c, i);
      }
      LoopIsClosedWalk(s.g.E, s.g.shares, c, w);
    }
  }

  function Following(c: seq<nat>, i: nat): (j: nat)
    requires i < |c|
    ensures j < |c| && c[j] == After(c, i)
  {
    if i + 1 < |c| then i + 1 else 0
  }

  function After(c: seq<nat>, i: nat): nat
    requires i < |c|
  {
    if i + 1 < |c| then c[i + 1] else c[0]
  }

  /** In every run without misuse, a circular wait comes with a W1. */
  lemma {:induction false} CircularWaitIsWarned(z: Setup, run: seq<Sys>, steps: seq<Step>, k: nat, c: seq<nat>)
    requires Run(z, NONE, run, steps) && k < |run|
    ensures CircularWait(run[k], c) ==> run[k].g.w1 >= 1
  {
    RunInv(z, run, steps, k);
    NoCircleBeforeFirstW1(z, NONE, run, steps, k);
    if run[k].g.w1 == 0 { CircleIsClosedWalk(run[k], c); }
  }

  ghost predicate HasBlocker(s: Sys, D: set<nat>, t: nat) {
    exists u :: u in D && Blocks(s, t, u)
  }

  /** Threads that all wait, each for another one of them (or itself). */
  ghost predicate Deadlocked(s: Sys, D: set<nat>) {
    D != {} && forall t {:trigger HasBlocker(s, D, t)} :: t in D ==> HasBlocker(s, D, t)
  }

  /** The same for any set of threads that keep each other blocked. */
  lemma {:induction false} DeadlockIsWarned(z: Setup, run: seq<Sys>, steps: seq<Step>, k: nat, D: set<nat>)
    requires Run(z, NONE, run, steps) && k < |run|
    ensures Deadlocked(run[k], D) ==> run[k].g.w1 >= 1
  {
    if Deadlocked(run[k], D) {
      var c := FindCircle(run[k], D);
      CircularWaitIsWarned(z, run, steps, k, c);
    }
  }

  lemma {:induction false} FindCircle(s: Sys, D: set<nat>) returns (c: seq<nat>)
    requires Deadlocked(s, D)
    ensures CircularWait(s, c)
  {
    var f := map t | t in D :: Blocker(s, D, t);
    assert f.Keys == D;
    forall t {:trigger Stays(f, t)} | t in D ensures Stays(f, t) { assert HasBlocker(s, D, t); }
    c := FindCycle(f);
    forall i | 0 <= i < |c| ensures Blocks(s, c[i], f[c[i]]) { assert HasBlocker(s, D, c[i]); }
  }

  ghost function Blocker(s: Sys, D: set<nat>, t: nat): (u: nat)
    ensures HasBlocker(s, D, t) ==> u in D && Blocks(s, t, u)
  {
    if HasBlocker(s, D, t) then
      var u :| u in D && Blocks(s, t, u);
      u
    else t
  }

  ghost predicate Stays(f: map<nat, nat>, t: nat) {
    t in f ==> f[t] in f
  }

  /** Following a function inside a finite set comes back to a place seen before. */
  lemma FindCycle(f: map<nat, nat>) returns (c: seq<nat>)
    requires f != map[] && forall t {:trigger Stays(f, t)} :: t in f ==> Stays(f, t)
    ensures |c| > 0 && (forall i :: 0 <= i < |c| ==> c[i] in f)
    ensures (forall i :: 0 <= i < |c| - 1 ==> f[c[i]] == c[i + 1]) && f[c[|c| - 1]] == c[0]
  {
    var t :| t in f;
    c := [t];
    var rest := f.Keys - {t};
    while true
      invariant |c| > 0 && (forall i :: 0 <= i < |c| ==> c[i] in f)
      invariant forall i :: 0 <= i < |c| - 1 ==> f[c[i]] == c[i + 1]
      invariant forall x :: x in f ==> x in c || x in rest
      decreases |rest|
    {
      assert Stays(f, c[|c| - 1]);
      var u := f[c[|c| - 1]];
      if u in c {
        var j :| 0 <= j < |c| && c[j] == u;
        c := c[j..];
        return;
      }
      c, rest := c + [u], rest - {u};
    }
  }
}
