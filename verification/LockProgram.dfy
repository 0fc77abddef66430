/** A program under lockcheck, changed in place: the tables of lockcheck.c, each
    thread's held set, and the real locks. Its wrappers are steps of LockRuns. */
module LockProgram {
  import opened WaitGraph
  import opened HeldSet
  import opened LockTable
  import opened Lockcheck
  import opened LockRuns

  /** The empty held sets of n threads. */
  method NoLocksHeld(n: nat, maxHeld: nat) returns (hs: seq<HeldLocks>)
    ensures |hs| == n && forall t :: 0 <= t < n ==> fresh(hs[t]) && fresh(hs[t].held)
    ensures forall t :: 0 <= t < n ==> hs[t].held.Length == maxHeld && hs[t].nheld == 0
    ensures forall t, u :: 0 <= t < u < n ==> hs[t] != hs[u] && hs[t].held != hs[u].held
  {
    hs := [];
    while |hs| < n
      invariant |hs| <= n
      invariant forall t :: 0 <= t < |hs| ==> fresh(hs[t]) && fresh(hs[t].held)
      invariant forall t :: 0 <= t < |hs| ==> hs[t].held.Length == maxHeld && hs[t].nheld == 0
      invariant forall t, u :: 0 <= t < u < |hs| ==> hs[t] != hs[u] && hs[t].held != hs[u].held
    {
      var h := new HeldLocks(maxHeld);
      hs := hs + [h];
    }
  }

  /** The table's part and the thread's part of a hook are one step. */
  lemma HookIsStep(z: Setup, s: Sys, t: nat, p: nat, mode: Mode, idx: int, s1: Sys)
    requires Shape(s) && t < |s.threads| && s.threads[t].phase == Idle && ModeOk(s, p, mode) && Finds(s, p, idx)
    requires var r := Looked(s, p, idx);
      && s1 == r.(g := s1.g)
      && if idx < 0 then s1.g == r.g else WaitRecorded(r.g, s.threads[t].held, idx, mode, s1.g)
    ensures Next(z, s, LockHook(t, p, mode, idx), InPhase(s1, t, Waiting(p, idx, mode)))
  {
  }

  class Program {
    const z: Setup
    const lc: Lockcheck
    const held: seq<HeldLocks>
    // the real locks, who owns them, and where each thread is
    var kinds: map<nat, Kind>
    var owns: seq<Holds>
    var phases: seq<Phase>
    var asleep: set<nat>

    ghost predicate ThreadValid(t: nat)
      requires t < |held|
      reads held[t], held[t].held
    {
      held[t].Valid() && held[t].held.Length == z.maxHeld
      && forall i :: i in Holding(held[t].View()) ==> i < z.slots
    }

    ghost function Arrays(): set<object> {
      set h | h in held :: h.held
    }

    ghost predicate Valid()
      reads this, lc, lc.locks, lc.edges, held, Arrays()
    {
      && lc.Valid() && lc.locks.Length == z.slots && |held| == |owns| == |phases| == z.threads
      && (forall t, u :: 0 <= t < u < |held| ==> held[t] != held[u] && held[t].held != held[u].held)
      && (forall t :: 0 <= t < |held| ==> ThreadValid(t))
      && (forall t :: 0 <= t < |phases| && (phases[t].Waiting? || phases[t].Granted?) ==> phases[t].idx < z.slots)
      && (forall p :: p in kinds ==> p > TOMBSTONE)
    }

    ghost function ThreadView(t: nat): Thread
      requires t < |held| == |owns| == |phases| && held[t].nheld <= held[t].held.Length
      reads this, held[t], held[t].held
    {
      Thread(Holding(held[t].View()), owns[t], phases[t])
    }

    ghost function Threads(): (s: seq<Thread>)
      requires Valid()
      reads this, lc, lc.locks, lc.edges, held, Arrays()
      ensures |s| == |held| && forall t :: 0 <= t < |held| ==> ThreadValid(t) && s[t] == ThreadView(t)
    {
      seq(|held|, t requires 0 <= t < |held| && Valid() && ThreadValid(t)
          reads this, lc, lc.locks, lc.edges, held, Arrays() => ThreadView(t))
    }

    ghost function View(): Sys
      requires Valid()
      reads this, lc, lc.locks, lc.edges, held, Arrays()
    {
      Sys(lc.View(), lc.index, kinds, Threads(), asleep, lc.w4)
    }

    constructor (z: Setup, hash: nat -> nat)
      requires z.slots > 0
      ensures Valid() && this.z == z && Init(z, View())
    {
      this.z := z;
      var hs := NoLocksHeld(z.threads, z.maxHeld);
      held := hs;
      lc := new Lockcheck(z.slots, hash);
      kinds, owns, phases, asleep := map[], seq(z.threads, _ => map[]), seq(z.threads, _ => Idle), {};
      new;
      forall t | 0 <= t < |held| ensures ThreadValid(t) && ThreadView(t) == Thread(map[], map[], Idle) {
        assert held[t].View() == [];
      }
    }

    /** The thread is somewhere else, and may own more or less. */
    method Become(t: nat, own: Holds, phase: Phase)
      requires Valid() && t < z.threads && (phase.Waiting? || phase.Granted? ==> phase.idx < z.slots)
      modifies this`owns, this`phases
      ensures Valid() && View() == SetThread(old(View()), t, old(View().threads[t]).(owns := own, phase := phase))
    {
      owns := owns[t := own];
      phases := phases[t := phase];
      forall u | 0 <= u < |held| ensures ThreadValid(u) { assert old(ThreadValid(u)); }
    }

    /** mark_acquired on the tables and the held set of thread t. */
    method Record(t: nat, idx: nat, mode: Mode)
      requires Valid() && t < z.threads && idx < z.slots
      modifies lc.locks, held[t], held[t].held
      ensures Valid()
      ensures var th := old(View().threads[t]);
        View() == SetThread(old(View()), t, th.(held := Added(th.held, idx, mode, z.maxHeld)))
    {
      assert ThreadValid(t);
      lc.MarkAcquired(idx, mode, t + 1, held[t]);
      forall u | 0 <= u < |held| ensures ThreadValid(u) && (u != t ==> ThreadView(u) == old(ThreadView(u))) {
        assert old(ThreadValid(u));
      }
    }

    /** lock_index and before_wait for thread t. */
    method Hook(t: nat, p: nat, mode: Mode) returns (idx: int)
      requires Valid() && t < z.threads && p in kinds
      modifies lc`index, lc`step, lc`shares, lc`recursive, lc.locks, lc.edges, lc`E, lc`w1
      ensures Valid() && Finds(old(View()), p, idx)
      ensures var r := Looked(old(View()), p, idx);
        && View() == r.(g := lc.View())
        && if idx < 0 then lc.View() == r.g else WaitRecorded(r.g, r.threads[t].held, idx, mode, lc.View())
    {
      assert ThreadValid(t);
      HoldingAt(held[t].View());
      assert forall i :: 0 <= i < held[t].nheld ==> held[t].View()[i] == held[t].held[i];
      idx := lc.BeforeLock(p, kinds[p], mode, held[t]);
      forall u | 0 <= u < |held| ensures ThreadValid(u) && ThreadView(u) == old(ThreadView(u)) {
        assert old(ThreadValid(u));
      }
    }

    // ----- the wrappers ---------------------------------------------------

    /** The first half of a lock call. */
    method LockHook(t: nat, p: nat, mode: Mode) returns (idx: int)
      requires Valid() && t < z.threads && phases[t] == Idle && ModeOk(View(), p, mode)
      modifies this`owns, this`phases, lc`index, lc`step, lc`shares, lc`recursive, lc.locks, lc.edges, lc`E, lc`w1
      ensures Valid() && Next(z, old(View()), Step.LockHook(t, p, mode, idx), View())
    {
      idx := Hook(t, p, mode);
      ghost var s := View();
      Become(t, owns[t], Waiting(p, idx, mode));
      HookIsStep(z, old(View()), t, p, mode, idx, s);
    }

    /** The real lock call finds the lock taken. */
    method Sleep(t: nat)
      requires Valid() && t < z.threads && phases[t].Waiting?
      requires phases[t].p in kinds ==> !CanTake(View(), t, phases[t].p, phases[t].mode)
      modifies this`asleep
      ensures Valid() && Next(z, old(View()), Step.Sleep(t), View())
    {
      asleep := asleep + {t};
      forall u | 0 <= u < |held| ensures ThreadValid(u) { assert old(ThreadValid(u)); }
    }

    /** The real lock call returns: granted, or with an error. */
    method Grant(t: nat)
      requires Valid() && t < z.threads && phases[t].Waiting?
      requires phases[t].p in kinds ==> CanTake(View(), t, phases[t].p, phases[t].mode)
      modifies this`owns, this`phases, this`asleep
      ensures Valid() && Next(z, old(View()), Step.Grant(t), View())
    {
      asleep := asleep - {t};
      var Waiting(p, idx, mode) := phases[t];
      Become(t, OneMore(owns[t], p, mode), Granted(p, idx, mode));
    }

    method Fail(t: nat)
      requires Valid() && t < z.threads && phases[t].Waiting?
      modifies this`owns, this`phases, this`asleep
      ensures Valid() && Next(z, old(View()), Step.Fail(t), View())
    {
      asleep := asleep - {t};
      Become(t, owns[t], Idle);
    }

    /** The hook's records of a lock taken. */
    method Enter(t: nat, idx: int, mode: Mode)
      requires Valid() && t < z.threads && idx < z.slots
      modifies this`owns, this`phases, lc.locks, held[t], held[t].held
      ensures Valid() && View() == Marked(z, old(View()), t, idx, mode)
    {
      if idx >= 0 { Record(t, idx, mode); }
      Become(t, owns[t], Idle);
    }

    /** The second half of a lock call. */
    method Mark(t: nat)
      requires Valid() && t < z.threads && phases[t].Granted?
      modifies this`owns, this`phases, lc.locks, held[t], held[t].held
      ensures Valid() && Next(z, old(View()), Step.Mark(t), View())
    {
      Enter(t, phases[t].idx, phases[t].mode);
    }

    /** The real trylock succeeds. */
    method Try(t: nat, p: nat, mode: Mode)
      requires Valid() && t < z.threads && phases[t] == Idle && ModeOk(View(), p, mode) && CanTake(View(), t, p, mode)
      modifies this`owns, this`phases
      ensures Valid() && Next(z, old(View()), Step.Try(t, p, mode), View())
    {
      Become(t, OneMore(owns[t], p, mode), Tried(p, mode));
    }

    /** lock_index on its own. */
    method Look(p: nat) returns (idx: int)
      requires Valid() && p in kinds
      modifies lc`index, lc`step, lc`shares, lc`recursive, lc.locks
      ensures Valid() && Finds(old(View()), p, idx) && View() == Looked(old(View()), p, idx)
    {
      idx := lc.LockIndex(p, kinds[p]);
      forall u | 0 <= u < |held| ensures ThreadValid(u) && ThreadView(u) == old(ThreadView(u)) {
        assert old(ThreadValid(u));
      }
    }

    /** The second half of a trylock. */
    method MarkTried(t: nat) returns (idx: int)
      requires Valid() && t < z.threads && phases[t].Tried? && phases[t].p in kinds
      modifies this`owns, this`phases, lc`index, lc`step, lc`shares, lc`recursive, lc.locks, held[t], held[t].held
      ensures Valid() && Next(z, old(View()), Step.MarkTried(t, idx), View())
    {
      var Tried(p, mode) := phases[t];
      idx := Look(p);
      Enter(t, idx, mode);
    }

    /** mark_released or a W4. */
    method Unrecord(t: nat, idx: nat)
      requires Valid() && t < z.threads && idx < z.slots
      modifies lc`w4, lc.locks, held[t], held[t].held
      ensures Valid()
      ensures var th := old(View().threads[t]);
        View() == if idx in th.held then SetThread(old(View()), t, th.(held := OneLess(th.held, idx)))
                  else old(View()).(w4 := old(View()).w4 + 1)
    {
      assert ThreadValid(t);
      lc.Release(idx, held[t]);
      forall u | 0 <= u < |held| ensures ThreadValid(u) && (u != t ==> ThreadView(u) == old(ThreadView(u))) {
        assert old(ThreadValid(u));
      }
    }

    /** The hook's records of an unlock. */
    method Leave(t: nat, p: nat, idx: int)
      requires Valid() && t < z.threads && idx < z.slots
      modifies this`owns, this`phases, lc`w4, lc.locks, held[t], held[t].held
      ensures Valid() && View() == Dropped(old(View()), t, p, idx)
    {
      if idx >= 0 { Unrecord(t, idx); }
      Become(t, owns[t], Releasing(p));
    }

    /** The first half of an unlock call. */
    method UnlockHook(t: nat, p: nat) returns (idx: int)
      requires Valid() && t < z.threads && phases[t] == Idle && p in kinds
      modifies this`owns, this`phases, lc`index, lc`step, lc`shares, lc`recursive, lc`w4, lc.locks, held[t]
      modifies held[t].held
      ensures Valid() && Next(z, old(View()), Step.UnlockHook(t, p, idx), View())
    {
      idx := Look(p);
      Leave(t, p, idx);
    }

    /** The real unlock: a stranger's may take away the victim's hold. */
    method Unlock(t: nat, victim: nat)
      requires Valid() && t < z.threads && phases[t].Releasing? && victim < z.threads
      requires phases[t].p in owns[t] ==> victim == t
      modifies this`owns, this`phases
      ensures Valid() && Next(z, old(View()), Step.Unlock(t, victim), View())
    {
      var p := phases[t].p;
      if p in owns[victim] { Become(victim, OneLess(owns[victim], p), phases[victim]); }
      Become(t, owns[t], Idle);
    }

    /** A lock is initialised. */
    method Exist(p: nat, k: Kind)
      requires Valid() && p > TOMBSTONE && p !in kinds
      modifies this`kinds
      ensures Valid() && Next(z, old(View()), Step.Exist(p, k), View())
    {
      kinds := kinds[p := k];
      forall u | 0 <= u < |held| ensures ThreadValid(u) { assert old(ThreadValid(u)); }
    }

    method Forget(p: nat)
      requires Valid() && p in kinds
      modifies lc`index, lc`shares, lc`recursive, lc`E, lc.locks, lc.edges
      ensures Valid() && View() == Forgets(old(View()), p)
    {
      lc.LockForget(p);
      forall u | 0 <= u < |held| ensures ThreadValid(u) { assert old(ThreadValid(u)); }
    }

    /** A destroy call: lockcheck forgets the lock, and the real destroy succeeds or refuses. */
    method Destroy(p: nat, ok: bool)
      requires Valid() && p in kinds
      modifies this`kinds, this`owns, lc`index, lc`shares, lc`recursive, lc`E, lc.locks, lc.edges
      ensures Valid() && Next(z, old(View()), Step.Destroy(p, ok), View())
    {
      Forget(p);
      if ok { End(p); }
    }

    method End(p: nat)
      requires Valid()
      modifies this`kinds, this`owns
      ensures Valid() && View() == Gone(old(View()), p)
    {
      kinds := kinds - {p};
      owns := seq(|owns|, u requires 0 <= u < |owns| reads this => owns[u] - {p});
      forall u | 0 <= u < |held| ensures ThreadValid(u) { assert old(ThreadValid(u)); }
    }
  }
}
