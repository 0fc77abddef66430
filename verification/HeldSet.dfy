/** The locks one thread holds, as lockcheck.c keeps them, and what recording
    the order of a new lock after them does to the lock order graph. */
module HeldSet {
  import opened WaitGraph

  /** One entry of held[]; count > 1 for a recursive mutex or a read lock taken again. */
  datatype Held = Held(idx: nat, mode: Mode, count: nat)

  /** What held_drop returns: the mode of the hold, or that there was none. */
  datatype DropResult = NotHeld | WasHeld(mode: Mode)

  ghost predicate NoTwice(held: seq<Held>) {
    forall i, j :: 0 <= i < j < |held| ==> held[i].idx != held[j].idx
  }

  ghost predicate Holds(held: seq<Held>, idx: nat) {
    exists i :: 0 <= i < |held| && held[i].idx == idx
  }

  /** How often and in which mode a thread holds each lock. */
  ghost function Holding(held: seq<Held>): map<nat, (Mode, nat)> {
    if held == [] then map[]
    else Holding(held[..|held| - 1])[held[|held| - 1].idx := (held[|held| - 1].mode, held[|held| - 1].count)]
  }

  lemma {:induction false} HoldingAt(held: seq<Held>)
    requires NoTwice(held)
    ensures forall i :: 0 <= i < |held| ==>
        held[i].idx in Holding(held) && Holding(held)[held[i].idx] == (held[i].mode, held[i].count)
    ensures forall x :: x in Holding(held) ==> Holds(held, x)
  {
    if held != [] {
      var rest := held[..|held| - 1];
      HoldingAt(rest);
      forall x | x in Holding(held) ensures Holds(held, x) {
        if x in Holding(rest) {
          var i :| 0 <= i < |rest| && rest[i].idx == x;
          assert held[i].idx == x;
        } else {
          assert held[|held| - 1].idx == x;
        }
      }
      forall i | 0 <= i < |held|
        ensures held[i].idx in Holding(held) && Holding(held)[held[i].idx] == (held[i].mode, held[i].count)
      {
        if i < |rest| { assert rest[i] == held[i]; }
      }
    }
  }

  /** Two held sets with the same entries up to order hold the same. */
  lemma HoldingIs(held: seq<Held>, m: map<nat, (Mode, nat)>)
    requires NoTwice(held)
    requires forall i :: 0 <= i < |held| ==> held[i].idx in m && m[held[i].idx] == (held[i].mode, held[i].count)
    requires forall x :: x in m ==> Holds(held, x)
    ensures Holding(held) == m
  {
    HoldingAt(held);
    forall x ensures x in m <==> x in Holding(held) {
    }
    forall x | x in m ensures Holding(held)[x] == m[x] {
      var i :| 0 <= i < |held| && held[i].idx == x;
    }
  }

  /** The same bookkeeping on maps: one more hold of idx, or one less. */
  function OneMore(m: map<nat, (Mode, nat)>, idx: nat, mode: Mode): map<nat, (Mode, nat)> {
    if idx in m then m[idx := (m[idx].0, m[idx].1 + 1)] else m[idx := (mode, 1)]
  }

  function OneLess(m: map<nat, (Mode, nat)>, idx: nat): map<nat, (Mode, nat)>
    requires idx in m
  {
    if m[idx].1 > 1 then m[idx := (m[idx].0, m[idx].1 - 1)] else m - {idx}
  }

  /** held_add: a lock that is not held yet is not recorded when the array is full. */
  ghost function Added(m: map<nat, (Mode, nat)>, idx: nat, mode: Mode, maxHeld: nat): map<nat, (Mode, nat)> {
    if idx !in m && maxHeld <= |m| then m else OneMore(m, idx, mode)
  }

  /** The array is full exactly when it holds that many locks. */
  lemma {:induction false} HoldingSize(held: seq<Held>)
    requires NoTwice(held)
    ensures |Holding(held)| == |held|
  {
    if held != [] {
      var rest, last := held[..|held| - 1], held[|held| - 1];
      HoldingSize(rest);
      HoldingAt(rest);
      assert last.idx !in Holding(rest);
      assert Holding(held).Keys == Holding(rest).Keys + {last.idx};
    }
  }

  // ----- the order edges of one wait ---------------------------------------

  /** The orders that waiting for idx in `mode` adds for the locks held. */
  ghost function NewEdges(m: map<nat, (Mode, nat)>, idx: nat, mode: Mode): set<Edge> {
    set h | h in m && h != idx :: Edge(h, m[h].0, idx, mode)
  }

  /** check_and_add_edges after its first k turns: the graph, and how many circles it has reported. */
  ghost function AddEdges(E: set<Edge>, shares: seq<bool>, held: seq<Held>, k: nat, idx: nat,
      mode: Mode): (r: (set<Edge>, nat))
    requires k <= |held|
  {
    if k == 0 then (E, 0)
    else
      var (F, c) := AddEdges(E, shares, held, k - 1, idx, mode);
      var h := held[k - 1];
      var e := Edge(h.idx, h.mode, idx, mode);
      if h.idx == idx || e in F then (F, c)
      else (F + {e}, c + if Reaches(F, shares, idx, mode, h.idx, h.mode) then 1 else 0)
  }

  lemma {:induction false} AddEdgesIs(E: set<Edge>, shares: seq<bool>, held: seq<Held>, k: nat, idx: nat, mode: Mode)
    requires k <= |held|
    ensures AddEdges(E, shares, held, k, idx, mode).0
         == E + (set i | 0 <= i < k && held[i].idx != idx :: Edge(held[i].idx, held[i].mode, idx, mode))
  {
    if k > 0 { AddEdgesIs(E, shares, held, k - 1, idx, mode); }
  }

  /** All orders are recorded, whatever the search says. */
  lemma AddsAllEdges(E: set<Edge>, shares: seq<bool>, held: seq<Held>, idx: nat, mode: Mode)
    requires NoTwice(held)
    ensures AddEdges(E, shares, held, |held|, idx, mode).0 == E + NewEdges(Holding(held), idx, mode)
  {
    AddEdgesIs(E, shares, held, |held|, idx, mode);
    HoldingAt(held);
    var S := set i | 0 <= i < |held| && held[i].idx != idx :: Edge(held[i].idx, held[i].mode, idx, mode);
    forall e | e in NewEdges(Holding(held), idx, mode) ensures e in S {
      var h :| h in Holding(held) && h != idx && e == Edge(h, Holding(held)[h].0, idx, mode);
      var i :| 0 <= i < |held| && held[i].idx == h;
    }
    forall e | e in S ensures e in NewEdges(Holding(held), idx, mode) {
      var i :| 0 <= i < |held| && held[i].idx != idx && e == Edge(held[i].idx, held[i].mode, idx, mode);
      assert held[i].idx in Holding(held);
    }
  }

  /** A wait is reported exactly when its orders close the first circle. */
  lemma {:induction false} ReportsExactlyCircles(E: set<Edge>, shares: seq<bool>, held: seq<Held>, k: nat, idx: nat,
      mode: Mode)
    requires k <= |held| && idx < |shares| && Acyclic(E, shares)
    requires forall i :: 0 <= i < k ==> held[i].idx < |shares|
    ensures var (F, c) := AddEdges(E, shares, held, k, idx, mode); c == 0 <==> Acyclic(F, shares)
  {
    if k > 0 {
      ReportsExactlyCircles(E, shares, held, k - 1, idx, mode);
      var (F, c) := AddEdges(E, shares, held, k - 1, idx, mode);
      var h := held[k - 1];
      var e := Edge(h.idx, h.mode, idx, mode);
      if h.idx != idx && e !in F {
        if c > 0 {
          if Acyclic(F + {e}, shares) { FewerEdges(F + {e}, F, shares); }
        } else if Reaches(F, shares, idx, mode, h.idx, h.mode) {
          FoundClosesCircle(F, shares, e);
        } else {
          InsertKeepsAcyclic(F, shares, e);
        }
      }
    }
  }

  /** held[] and nheld of one thread. */
  class HeldLocks {
    const held: array<Held>
    var nheld: nat

    ghost predicate Valid()
      reads this, held
    {
      nheld <= held.Length && NoTwice(held[..nheld]) && forall i :: 0 <= i < nheld ==> held[i].count >= 1
    }

    ghost function View(): seq<Held>
      requires nheld <= held.Length
      reads this, held
    {
      held[..nheld]
    }

    constructor (maxHeld: nat)
      ensures Valid() && fresh(held) && held.Length == maxHeld && nheld == 0
    {
      held := new Held[maxHeld](_ => Held(0, READ, 0));
      nheld := 0;
    }

    method Find(idx: nat) returns (i: int)
      requires Valid()
      ensures -1 <= i < nheld
      ensures i >= 0 ==> held[i].idx == idx
      ensures i < 0 <==> !Holds(View(), idx)
      ensures i < 0 <==> idx !in Holding(View())
    {
      HoldingAt(View());
      i := 0;
      while i < nheld
        invariant 0 <= i <= nheld && forall k :: 0 <= k < i ==> held[k].idx != idx
      {
        if held[i].idx == idx {
          assert View()[i].idx == idx;
          return;
        }
        i := i + 1;
      }
      i := -1;
    }

    /** One more hold; a new lock beyond the array's end is not recorded. */
    method Add(idx: nat, mode: Mode)
      requires Valid()
      modifies this`nheld, held
      ensures Valid()
      ensures Holding(View()) == Added(Holding(old(View())), idx, mode, held.Length)
    {
      HoldingSize(View());
      var i := Find(idx);
      if i >= 0 {
        CountUp(i, mode);
      } else if nheld < held.Length {
        Append(idx, mode);
      }
    }

    method CountUp(i: nat, mode: Mode)
      requires Valid() && i < nheld
      modifies held
      ensures Valid() && held[i].idx == old(held[i].idx) && held[i].idx in Holding(old(View()))
      ensures Holding(View()) == OneMore(Holding(old(View())), held[i].idx, mode)
    {
      HoldingAt(View());
      CountedUp(View(), i);
      SetCount(i, held[i].count + 1);
      assert View()[i].idx == old(View()[i].idx);
    }

    method Append(idx: nat, mode: Mode)
      requires Valid() && idx !in Holding(View()) && nheld < held.Length
      modifies this`nheld, held
      ensures Valid() && Holding(View()) == OneMore(Holding(old(View())), idx, mode)
    {
      HoldingAt(View());
      ghost var before := View();
      held[nheld] := Held(idx, mode, 1);
      nheld := nheld + 1;
      assert View() == before + [Held(idx, mode, 1)];
      assert View()[..|View()| - 1] == before;
    }

    /** One hold less, if there is one; the entry disappears with the last one, and the others keep their order. */
    method Drop(idx: nat) returns (d: DropResult)
      requires Valid()
      modifies this`nheld, held
      ensures Valid()
      ensures d.NotHeld? <==> idx !in Holding(old(View()))
      ensures d.NotHeld? ==> View() == old(View())
      ensures d.WasHeld? ==>
        d.mode == Holding(old(View()))[idx].0 && Holding(View()) == OneLess(Holding(old(View())), idx)
    {
      var i := Find(idx);
      if i < 0 {
        return NotHeld;
      }
      HoldingAt(View());
      d := WasHeld(held[i].mode);
      if held[i].count > 1 {
        CountedDown(View(), i);
        SetCount(i, held[i].count - 1);
      } else {
        RemovedEntry(View(), i);
        RemoveAt(i);
      }
    }

    /** Drop one hold of idx, if there is one; `last` says that it was the last. */
    method Release(idx: nat) returns (d: DropResult, last: bool)
      requires Valid()
      modifies this`nheld, held
      ensures Valid()
      ensures d.NotHeld? <==> idx !in Holding(old(View()))
      ensures d.NotHeld? ==> View() == old(View())
      ensures d.WasHeld? ==>
        && d.mode == Holding(old(View()))[idx].0 && last == (Holding(old(View()))[idx].1 == 1)
        && Holding(View()) == OneLess(Holding(old(View())), idx)
    {
      var i := Find(idx);
      if i < 0 {
        return NotHeld, false;
      }
      HoldingAt(View());
      assert View()[i] == held[i];
      last := held[i].count == 1;
      d := Drop(idx);
    }

    method SetCount(i: nat, count: nat)
      requires Valid() && i < nheld && count >= 1
      modifies held
      ensures Valid()
      ensures View() == old(View())[i := old(View())[i].(count := count)]
    {
      ghost var before := View();
      held[i] := held[i].(count := count);
      assert View() == before[i := before[i].(count := count)];
    }

    method RemoveAt(i0: nat)
      requires Valid() && i0 < nheld
      modifies this`nheld, held
      ensures Valid()
      ensures View() == old(View())[..i0] + old(View())[i0 + 1..]
    {
      ghost var before := View();
      var i := i0;
      while i < nheld - 1
        invariant i0 <= i < nheld == |before|
        invariant forall k :: 0 <= k < i0 ==> held[k] == before[k]
        invariant forall k :: i0 <= k < i ==> held[k] == before[k + 1]
        invariant forall k :: i < k < nheld ==> held[k] == before[k]
      {
        held[i] := held[i + 1];
        i := i + 1;
      }
      nheld := nheld - 1;
      assert View() == before[..i0] + before[i0 + 1..];
    }
  }

  lemma CountedUp(held: seq<Held>, i: nat)
    requires NoTwice(held) && i < |held|
    ensures var held2 := held[i := held[i].(count := held[i].count + 1)];
      NoTwice(held2) && Holding(held2) == OneMore(Holding(held), held[i].idx, held[i].mode)
  {
    var held2 := held[i := held[i].(count := held[i].count + 1)];
    HoldingAt(held);
    forall x | x in Holding(held) ensures Holds(held2, x) {
      var k :| 0 <= k < |held| && held[k].idx == x;
      assert held2[k].idx == x;
    }
    HoldingIs(held2, OneMore(Holding(held), held[i].idx, held[i].mode));
  }

  lemma CountedDown(held: seq<Held>, i: nat)
    requires NoTwice(held) && i < |held| && held[i].count > 1
    ensures var held2 := held[i := held[i].(count := held[i].count - 1)];
      NoTwice(held2) && held[i].idx in Holding(held) && Holding(held2) == OneLess(Holding(held), held[i].idx)
  {
    var held2 := held[i := held[i].(count := held[i].count - 1)];
    HoldingAt(held);
    forall x | x in Holding(held) ensures Holds(held2, x) {
      var k :| 0 <= k < |held| && held[k].idx == x;
      assert held2[k].idx == x;
    }
    HoldingIs(held2, OneLess(Holding(held), held[i].idx));
  }

  lemma RemovedEntry(held: seq<Held>, i: nat)
    requires NoTwice(held) && i < |held|
    ensures var held2 := held[..i] + held[i + 1..];
      NoTwice(held2) && Holding(held2) == Holding(held) - {held[i].idx}
  {
    var held2 := held[..i] + held[i + 1..];
    HoldingAt(held);
    forall x | x in Holding(held) - {held[i].idx} ensures Holds(held2, x) {
      var k :| 0 <= k < |held| && held[k].idx == x;
      assert held2[if k < i then k else k - 1].idx == x;
    }
    HoldingIs(held2, Holding(held) - {held[i].idx});
  }
}
