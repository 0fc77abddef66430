/** The state of lockcheck.c, changed in place by its hooks: the lock table, the
    lock order graph and the warning counters. */
module Lockcheck {
  import opened Arith
  import opened WaitGraph
  import opened PathSearch
  import opened LockTable
  import opened HeldSet

  /** What the hooks know about all locks: recorded orders, kinds of locks by slot, W1 count. */
  datatype Graph = Graph(E: set<Edge>, shares: seq<bool>, recursive: seq<bool>, w1: nat)

  /** What the memory of a lock says about its kind. */
  datatype Kind = Mutex(recursive: bool) | RwLock(shares: bool)

  function Recursive(k: Kind): bool { k.Mutex? && k.recursive }

  function Shares(k: Kind): bool { k.RwLock? && k.shares }

  /** The slot that lock_index gives address p: its own, or else a free one, or -1 if there is none. */
  ghost predicate SlotFor(index: map<nat, nat>, slots: nat, p: nat, idx: int) {
    if p in index then idx == index[p]
    else if forall i :: 0 <= i < slots ==> i in index.Values then idx == -1
    else 0 <= idx < slots && idx !in index.Values
  }

  /** The kind of slot idx, read again. */
  ghost function KindRead(g: Graph, idx: nat, k: Kind): Graph
    requires idx < |g.shares| == |g.recursive|
  {
    g.(shares := g.shares[idx := Shares(k)], recursive := g.recursive[idx := Recursive(k)])
  }

  /** The edges that do not touch lock i. */
  ghost function Without(E: set<Edge>, i: nat): set<Edge> {
    set e | e in E && e.src != i && e.dst != i
  }

  /** What lock_forget leaves of the graph when the lock is in slot i. */
  ghost function Forgotten(g: Graph, i: nat): Graph
    requires i < |g.shares| == |g.recursive|
  {
    g.(E := Without(g.E, i), shares := g.shares[i := false], recursive := g.recursive[i := false])
  }

  /** What before_wait does for a thread that holds `m` and is about to wait for idx. */
  ghost predicate WaitRecorded(g: Graph, m: map<nat, (Mode, nat)>, idx: nat, mode: Mode, g2: Graph)
    requires idx < |g.shares| == |g.recursive|
  {
    if idx in m then
      if g.recursive[idx] || (mode == READ && m[idx].0 == READ && g.shares[idx]) then g2 == g
      else g2 == g.(w1 := g.w1 + 1)
    else
      && g2.shares == g.shares && g2.recursive == g.recursive
      && g2.E == g.E + NewEdges(m, idx, mode)
      && g2.w1 >= g.w1
      && (Acyclic(g.E, g.shares) ==> (g2.w1 == g.w1 <==> Acyclic(g2.E, g2.shares)))
  }

  /** What check_and_add_edges leaves behind is what before_wait must record. */
  lemma EdgesRecorded(g: Graph, held: seq<Held>, idx: nat, mode: Mode)
    requires idx < |g.shares| == |g.recursive| && NoTwice(held) && idx !in Holding(held)
    requires forall i :: 0 <= i < |held| ==> held[i].idx < |g.shares|
    ensures var (F, c) := AddEdges(g.E, g.shares, held, |held|, idx, mode);
      WaitRecorded(g, Holding(held), idx, mode, g.(E := F, w1 := g.w1 + c))
  {
    AddsAllEdges(g.E, g.shares, held, idx, mode);
    if Acyclic(g.E, g.shares) { ReportsExactlyCircles(g.E, g.shares, held, |held|, idx, mode); }
  }

  class Lockcheck {
    const locks: array<LockInfo>
    const edges: array3<bool>
    const hash: nat -> nat
    var w1: nat
    var w4: nat
    // What the tables stand for.
    ghost var index: map<nat, nat>
    ghost var step: seq<nat>
    ghost var shares: seq<bool>
    ghost var recursive: seq<bool>
    ghost var E: set<Edge>

    ghost predicate Valid()
      reads this, locks, edges
    {
      && TableOk(locks[..], hash, step, index)
      && Tables(locks, edges, shares, E)
      && |recursive| == |shares|
      && (forall i :: 0 <= i < |recursive| ==> recursive[i] == locks[i].recursive)
      && (forall i :: 0 <= i < |shares| && shares[i] ==> locks[i].isRw || !Live(locks[i]))
      && (forall e :: e in E ==> Live(locks[e.dst]))
    }

    ghost function View(): Graph
      reads this
    {
      Graph(E, shares, recursive, w1)
    }

    constructor (maxLocks: nat, hash: nat -> nat)
      requires maxLocks > 0
      ensures Valid() && fresh(locks) && fresh(edges) && locks.Length == maxLocks
      ensures index == map[] && w4 == 0 && View() == Graph({}, seq(maxLocks, _ => false), seq(maxLocks, _ => false), 0)
    {
      this.hash := hash;
      locks := new LockInfo[maxLocks](_ => LockInfo(FREE, false, false, false, 0, 0));
      edges := new bool[maxLocks, maxLocks, 4]((_, _, _) => false);
      w1, w4, index, E := 0, 0, map[], {};
      step := seq(maxLocks, _ => 0);
      shares := seq(maxLocks, _ => false);
      recursive := seq(maxLocks, _ => false);
    }

    /** The probe loop: where p is, or else the first slot on its path that p may take. */
    method Probe(p: nat) returns (found: int, freeSlot: int, ghost freeStep: nat)
      requires TableOk(locks[..], hash, step, index) && p > TOMBSTONE
      ensures found >= 0 ==> p in index && found == index[p]
      ensures found < 0 ==> p !in index && freeSlot < locks.Length
      ensures found < 0 && freeSlot < 0 ==> forall i :: 0 <= i < locks.Length ==> Live(locks[i])
      ensures found < 0 && freeSlot >= 0 ==>
        && freeStep < locks.Length && freeSlot == Slot(locks.Length, Place(hash(p), locks.Length), freeStep)
        && Missed(locks[..], Place(hash(p), locks.Length), p, freeStep) && !Live(locks[freeSlot])
    {
      var n := locks.Length;
      ghost var h := Place(hash(p), n);
      ghost var ls := locks[..];
      found, freeSlot, freeStep := -1, -1, 0;
      var k := 0;
      while k < n
        invariant 0 <= k <= n && found == -1 && Missed(ls, h, p, k)
        invariant freeSlot < 0 ==> forall m {:trigger Slot(n, h, m)} :: 0 <= m < k ==>
            ls[Slot(n, h, m)].addr != TOMBSTONE
        invariant freeSlot >= 0 ==> freeStep < k && freeSlot == Slot(n, h, freeStep) && ls[freeSlot].addr == TOMBSTONE
      {
        SlotIsRemainder(n, hash(p), k);
        var i := (hash(p) + k) % n;
        assert ls[i] == locks[i];
        if locks[i].addr == p {
          found := i;
          break;
        }
        if locks[i].addr == TOMBSTONE && freeSlot < 0 {
          freeSlot, freeStep := i, k;
        }
        if locks[i].addr == FREE {
          if freeSlot < 0 {
            freeSlot, freeStep := i, k;
          }
          break;
        }
        k := k + 1;
      }
      if found < 0 {
        NotThere(ls, hash, step, index, p, k);
        if freeSlot < 0 {
          forall i | 0 <= i < n ensures Live(locks[i]) {
            var m := ProbesReachAll(n, h, i);
            assert ls[Slot(n, h, m)] == locks[i];
          }
        }
      }
    }

    /** The slot of lock p, which is filled if p is new; -1 if every slot is live. The kind is read again every time. */
    method LockIndex(p: nat, k: Kind) returns (idx: int)
      requires Valid() && p > TOMBSTONE
      modifies this`index, this`step, this`shares, this`recursive, locks
      ensures Valid()
      ensures SlotFor(old(index), locks.Length, p, idx)
      ensures idx < 0 ==> index == old(index) && View() == old(View())
      ensures idx >= 0 ==>
        && idx < locks.Length && Live(locks[idx])
        && index == old(index)[p := idx] && View() == KindRead(old(View()), idx, k)
    {
      var found, freeSlot; ghost var freeStep;
      found, freeSlot, freeStep := Probe(p);
      if found < 0 && freeSlot < 0 {
        forall i | 0 <= i < locks.Length ensures i in index.Values { assert index[locks[..][i].addr] == i; }
        return -1;
      }
      var l := LockInfo(p, k.RwLock?, Recursive(k), Shares(k), 0, 0);
      if found < 0 {
        idx := freeSlot;
        Inserted(locks[..], hash, step, index, freeStep, l);
        Store(idx, l, freeStep);
      } else {
        idx := found;
        l := l.(owner := locks[idx].owner, readers := locks[idx].readers);
        Updated(locks[..], hash, step, index, idx, l);
        assert step == step[idx := step[idx]] && index == index[p := idx];
        Store(idx, l, step[idx]);
      }
    }

    /** Writes one slot, new or with its lock's flags read again. */
    method Store(i: nat, l: LockInfo, ghost k: nat)
      requires Valid() && i < locks.Length && Live(l) && (Live(locks[i]) ==> l.addr == locks[i].addr)
      requires TableOk(locks[..][i := l], hash, step[i := k], index[l.addr := i])
      requires l.readShares ==> l.isRw
      modifies this`index, this`step, this`shares, this`recursive, locks
      ensures Valid()
      ensures index == old(index)[l.addr := i] && locks[..] == old(locks[..])[i := l]
      ensures shares == old(shares)[i := l.readShares] && recursive == old(recursive)[i := l.recursive]
    {
      ghost var ls := locks[..];
      locks[i] := l;
      index := index[l.addr := i];
      step := step[i := k];
      shares := shares[i := l.readShares];
      recursive := recursive[i := l.recursive];
      assert locks[..] == ls[i := l];
    }

    /** The slot of p, or -1: the probe loop of lock_forget. */
    method FindLive(p: nat) returns (found: int)
      requires TableOk(locks[..], hash, step, index) && p > TOMBSTONE
      ensures found >= 0 ==> p in index && found == index[p]
      ensures found < 0 ==> p !in index
    {
      var n := locks.Length;
      ghost var h := Place(hash(p), n);
      ghost var ls := locks[..];
      var k := 0;
      while k < n
        invariant 0 <= k <= n && Missed(ls, h, p, k)
      {
        SlotIsRemainder(n, hash(p), k);
        var i := (hash(p) + k) % n;
        assert ls[i] == locks[i];
        if locks[i].addr == FREE {
          break;
        }
        if locks[i].addr == p {
          return i;
        }
        k := k + 1;
      }
      NotThere(ls, hash, step, index, p, k);
      return -1;
    }

    /** destroy: forgets the lock and every edge that touches it; a lock that is not there is ignored. */
    method LockForget(p: nat)
      requires Valid() && p > TOMBSTONE
      modifies this`index, this`shares, this`recursive, this`E, locks, edges
      ensures Valid()
      ensures index == old(index) - {p}
      ensures View() == if p in old(index) then Forgotten(old(View()), old(index)[p]) else old(View())
    {
      var i := FindLive(p);
      if i < 0 {
        return;
      }
      var l := LockInfo(TOMBSTONE, false, false, false, 0, 0);
      Removed(locks[..], hash, step, index, i, l);
      ClearEdges(i);
      ghost var ls := locks[..];
      locks[i] := l;
      assert locks[..] == ls[i := l];
      index := index - {p};
      shares := shares[i := false];
      recursive := recursive[i := false];
    }

    /** The mask loop of lock_forget over row i and column i. */
    method ClearEdges(i: nat)
      requires Tables(locks, edges, shares, E) && i < locks.Length
      modifies edges, this`E
      ensures Tables(locks, edges, shares, E) && E == Without(old(E), i)
    {
      var j := 0;
      while j < locks.Length
        invariant 0 <= j <= locks.Length && E == old(E)
        invariant forall a, b, c :: 0 <= a < locks.Length && 0 <= b < locks.Length && 0 <= c < 4 ==>
          edges[a, b, c] == (old(edges[a, b, c]) && !(a == i && b < j) && !(b == i && a < j))
      {
        forall c | 0 <= c < 4 { edges[i, j, c] := false; }
        forall c | 0 <= c < 4 { edges[j, i, c] := false; }
        j := j + 1;
      }
      ghost var F := Without(E, i);
      forall e: Edge | e.src < locks.Length && e.dst < locks.Length
        ensures e in F <==> edges[e.src, e.dst, ComboOf(e)]
      {
        assert e in E <==> old(edges[e.src, e.dst, ComboOf(e)]);
      }
      E := F;
    }

    /** The orders that taking idx adds for the other locks held, each after a search for the circle it would close. */
    method CheckAndAddEdges(idx: nat, mode: Mode, t: HeldLocks)
      requires Valid() && Follows(t) && idx < locks.Length && Live(locks[idx])
      modifies edges, this`E, this`w1
      ensures Valid()
      ensures var (F, c) := AddEdges(old(E), shares, t.View(), t.nheld, idx, mode); E == F && w1 == old(w1) + c
    {
      ghost var hs := t.View();
      AddEdgesIs(E, shares, hs, |hs|, idx, mode);
      AddEdgesOfAll(idx, mode, t);
      assert forall i :: 0 <= i < |hs| ==> hs[i] == t.held[i];
    }

    /** The loop over held[]. */
    method AddEdgesOfAll(idx: nat, mode: Mode, t: HeldLocks)
      requires Tables(locks, edges, shares, E) && Follows(t) && idx < locks.Length
      modifies edges, this`E, this`w1
      ensures Tables(locks, edges, shares, E)
      ensures var (F, c) := AddEdges(old(E), shares, t.View(), t.nheld, idx, mode); E == F && w1 == old(w1) + c
    {
      ghost var hs := t.View();
      var i := 0;
      while i < t.nheld
        invariant 0 <= i <= t.nheld == |hs| && hs == t.View() && Tables(locks, edges, shares, E)
        invariant var r := AddEdges(old(E), shares, hs, i, idx, mode); E == r.0 && w1 == old(w1) + r.1
      {
        var h := t.held[i];
        assert h == hs[i];
        AddEdge(h.idx, h.mode, idx, mode);
        i := i + 1;
      }
    }

    /** One turn of check_and_add_edges. */
    method AddEdge(h: nat, hm: Mode, idx: nat, mode: Mode)
      requires Tables(locks, edges, shares, E) && idx < locks.Length && h < locks.Length
      modifies edges, this`E, this`w1
      ensures Tables(locks, edges, shares, E)
      ensures var e := Edge(h, hm, idx, mode);
        if h == idx || e in old(E) then E == old(E) && w1 == old(w1)
        else E == old(E) + {e} && w1 == old(w1) + if Reaches(old(E), shares, idx, mode, h, hm) then 1 else 0
    {
      if h == idx || edges[h, idx, Bit(hm) * 2 + Bit(mode)] {
        assert h != idx ==> Edge(h, hm, idx, mode) in E;
        return;
      }
      var found, path, combo := FindPath(locks, edges, idx, mode, h, hm, shares, E);
      if found {
        w1 := w1 + 1;
      }
      SetEdge(h, hm, idx, mode);
    }

    method SetEdge(h: nat, hm: Mode, idx: nat, mode: Mode)
      requires Tables(locks, edges, shares, E) && h < locks.Length && idx < locks.Length
      modifies edges, this`E
      ensures Tables(locks, edges, shares, E) && E == old(E) + {Edge(h, hm, idx, mode)}
    {
      ghost var e := Edge(h, hm, idx, mode);
      edges[h, idx, Bit(hm) * 2 + Bit(mode)] := true;
      forall f: Edge | f.src < locks.Length && f.dst < locks.Length
        ensures f in E + {e} <==> edges[f.src, f.dst, ComboOf(f)]
      {
        assert f in E <==> old(edges[f.src, f.dst, ComboOf(f)]);
      }
      E := E + {e};
    }

    // ----- the hooks ------------------------------------------------------

    /** The thread's entries name slots of the table, whose locks may have been destroyed since. */
    ghost predicate Follows(t: HeldLocks)
      reads t, t.held
    {
      t.Valid() && forall i :: 0 <= i < t.nheld ==> t.held[i].idx < locks.Length
    }

    /** Before a thread may block: report the circle this wait could close, or the lock it takes again. */
    method BeforeWait(idx: nat, mode: Mode, t: HeldLocks)
      requires Valid() && Follows(t) && idx < locks.Length && Live(locks[idx])
      modifies edges, this`E, this`w1
      ensures Valid()
      ensures WaitRecorded(old(View()), Holding(t.View()), idx, mode, View())
    {
      var i := t.Find(idx);
      if i < 0 {
        TakeNew(idx, mode, t);
      } else {
        TakeAgain(idx, mode, t, i);
      }
    }

    method TakeNew(idx: nat, mode: Mode, t: HeldLocks)
      requires Valid() && Follows(t) && idx < locks.Length && Live(locks[idx]) && idx !in Holding(t.View())
      modifies edges, this`E, this`w1
      ensures Valid()
      ensures WaitRecorded(old(View()), Holding(t.View()), idx, mode, View())
    {
      EdgesRecorded(View(), t.View(), idx, mode);
      CheckAndAddEdges(idx, mode, t);
    }

    /** The second half of before_wait: the thread waits for the lock of its i-th entry. */
    method TakeAgain(idx: nat, mode: Mode, t: HeldLocks, i: nat)
      requires Valid() && t.Valid() && i < t.nheld && t.held[i].idx == idx < locks.Length && Live(locks[idx])
      modifies this`w1
      ensures Valid() && WaitRecorded(old(View()), Holding(t.View()), idx, mode, View())
    {
      HoldingAt(t.View());
      var hm := t.held[i].mode;
      assert t.View()[i] == t.held[i] && idx in Holding(t.View()) && Holding(t.View())[idx].0 == hm;
      if locks[idx].recursive {
        return;
      }
      if locks[idx].isRw && mode == READ && hm == READ && locks[idx].readShares {
        return;
      }
      w1 := w1 + 1;
    }

    /** The first half of pthread_mutex_lock and rw_lock, up to the call that may block. */
    method BeforeLock(p: nat, k: Kind, mode: Mode, t: HeldLocks) returns (idx: int)
      requires Valid() && Follows(t) && p > TOMBSTONE
      modifies this`index, this`step, this`shares, this`recursive, locks, edges, this`E, this`w1
      ensures Valid()
      ensures SlotFor(old(index), locks.Length, p, idx)
      ensures idx < 0 ==> index == old(index) && View() == old(View())
      ensures idx >= 0 ==>
        && idx < |old(shares)| && index == old(index)[p := idx]
        && WaitRecorded(KindRead(old(View()), idx, k), Holding(t.View()), idx, mode, View())
    {
      idx := LockIndex(p, k);
      if idx >= 0 {
        BeforeWait(idx, mode, t);
      }
    }

    /** Writes the owner and reader records of a slot. */
    method Note(i: nat, owner: nat, readers: int)
      requires Valid() && i < locks.Length
      modifies locks
      ensures Valid() && locks[..] == old(locks[..])[i := old(locks[i]).(owner := owner, readers := readers)]
    {
      ghost var ls := locks[..];
      Updated(ls, hash, step, index, i, locks[i].(owner := owner, readers := readers));
      locks[i] := locks[i].(owner := owner, readers := readers);
      assert locks[..] == ls[i := locks[i]];
    }

    /** The thread now holds idx. */
    method MarkAcquired(idx: nat, mode: Mode, tid: nat, t: HeldLocks)
      requires Valid() && t.Valid() && idx < locks.Length
      modifies locks, t`nheld, t.held
      ensures Valid() && t.Valid()
      ensures locks[..] == old(locks[..])[idx :=
        if mode == WRITE then old(locks[idx]).(owner := tid)
            else old(locks[idx]).(readers := old(locks[idx]).readers + 1)]
      ensures Holding(t.View()) == Added(Holding(old(t.View())), idx, mode, t.held.Length)
    {
      if mode == WRITE {
        Note(idx, tid, locks[idx].readers);
      } else {
        Note(idx, locks[idx].owner, locks[idx].readers + 1);
      }
      t.Add(idx, mode);
    }

    /** The thread gives up one hold of idx, or learns who is recorded as its owner. */
    method MarkReleased(idx: nat, t: HeldLocks) returns (ok: bool, owner: nat)
      requires Valid() && t.Valid() && idx < locks.Length
      modifies locks, t`nheld, t.held
      ensures Valid() && t.Valid()
      ensures ok <==> idx in Holding(old(t.View()))
      ensures !ok ==> owner == old(locks[idx]).owner && locks[..] == old(locks[..]) && t.View() == old(t.View())
      ensures ok ==>
        var (mode, count) := Holding(old(t.View()))[idx];
        && Holding(t.View()) == OneLess(Holding(old(t.View())), idx)
        && locks[..] == old(locks[..])[idx :=
             if mode == READ then old(locks[idx]).(readers := old(locks[idx]).readers - 1)
             else if count == 1 then old(locks[idx]).(owner := 0) else old(locks[idx])]
    {
      var d, last := t.Release(idx);
      ok, owner := d.WasHeld?, locks[idx].owner;
      if ok { NoteRelease(idx, d.mode, last); }
    }

    /** owner and readers after a release. */
    method NoteRelease(idx: nat, mode: Mode, last: bool)
      requires Valid() && idx < locks.Length
      modifies locks
      ensures Valid()
      ensures locks[..] == old(locks[..])[idx :=
        if mode == READ then old(locks[idx]).(readers := old(locks[idx]).readers - 1)
        else if last then old(locks[idx]).(owner := 0) else old(locks[idx])]
    {
      if mode == READ {
        Note(idx, locks[idx].owner, locks[idx].readers - 1);
      } else if last {
        Note(idx, 0, locks[idx].readers);
      } else {
        assert locks[..][idx := locks[idx]] == locks[..];
      }
    }

    /** The records of an unlock, before the real one: a W4 when the thread does not hold the lock. */
    method Release(idx: nat, t: HeldLocks)
      requires Valid() && t.Valid() && idx < locks.Length
      modifies locks, this`w4, t`nheld, t.held
      ensures Valid() && t.Valid()
      ensures if idx in Holding(old(t.View()))
              then w4 == old(w4) && Holding(t.View()) == OneLess(Holding(old(t.View())), idx)
              else w4 == old(w4) + 1 && t.View() == old(t.View())
    {
      var ok, owner := MarkReleased(idx, t);
      if !ok {
        w4 := w4 + 1;
      }
    }
  }
}
