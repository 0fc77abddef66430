/** The lock order graph of lockcheck.c: which recorded orders can make threads
    wait for each other in a circle, and what the search before a new edge must
    rule out so that no such circle is ever recorded. */
module WaitGraph {

  datatype Mode = READ | WRITE

  /** Some thread that held `src` in mode `held` took `dst` in mode `want`. */
  datatype Edge = Edge(src: nat, held: Mode, dst: nat, want: Mode)

  /** At a lock whose readers share (or not), does a thread that wants it in
      `want` wait for a thread that holds it in `hold`? */
  predicate Waits(shares: bool, want: Mode, hold: Mode) {
    want == WRITE || hold == WRITE || !shares
  }

  /** The thread of step `a` waits for the thread of step `b` at the lock between them. */
  predicate Linked(shares: seq<bool>, a: Edge, b: Edge) {
    a.dst == b.src && a.dst < |shares| && Waits(shares[a.dst], a.want, b.held)
  }

  predicate LinkedAt(shares: seq<bool>, w: seq<Edge>, i: nat)
    requires i + 1 < |w|
  {
    Linked(shares, w[i], w[i + 1])
  }

  ghost predicate Chain(E: set<Edge>, shares: seq<bool>, w: seq<Edge>) {
    && (forall i :: 0 <= i < |w| ==> w[i] in E)
    && (forall i {:trigger LinkedAt(shares, w, i)} :: 0 <= i < |w| - 1 ==> LinkedAt(shares, w, i))
  }

  /** A closed walk in which every step waits for the next one. */
  ghost predicate ClosedWalk(E: set<Edge>, shares: seq<bool>, w: seq<Edge>) {
    && |w| > 0
    && Chain(E, shares, w)
    && Linked(shares, w[|w| - 1], w[0])
  }

  ghost predicate Acyclic(E: set<Edge>, shares: seq<bool>) {
    forall w :: !ClosedWalk(E, shares, w)
  }

  /** The walks that find_path looks for: a thread wants `from` in `want`; the
      walk reaches `target`, leaves only locks other than `target`, and at
      `target` the last thread waits for a holder in mode `hold`. */
  ghost predicate SearchWalk(E: set<Edge>, shares: seq<bool>, from: nat, want: Mode,
                             target: nat, hold: Mode, w: seq<Edge>)
  {
    && target < |shares| && from < |shares|
    && Chain(E, shares, w)
    && (forall i :: 0 <= i < |w| ==> w[i].src != target)
    && if w == [] then from == target && Waits(shares[target], want, hold)
       else
         && w[0].src == from && Waits(shares[from], want, w[0].held)
         && w[|w| - 1].dst == target && Waits(shares[target], w[|w| - 1].want, hold)
  }

  ghost predicate Reaches(E: set<Edge>, shares: seq<bool>, from: nat, want: Mode, target: nat, hold: Mode) {
    exists w :: SearchWalk(E, shares, from, want, target, hold, w)
  }

  lemma ChainSlice(E: set<Edge>, shares: seq<bool>, w: seq<Edge>, lo: nat, hi: nat)
    requires Chain(E, shares, w) && lo <= hi <= |w|
    ensures Chain(E, shares, w[lo..hi])
  {
    var v := w[lo..hi];
    forall i | 0 <= i < |v| - 1 ensures LinkedAt(shares, v, i) { assert LinkedAt(shares, w, lo + i); }
  }

  lemma FewerEdges(E: set<Edge>, F: set<Edge>, shares: seq<bool>)
    requires Acyclic(E, shares) && F <= E
    ensures Acyclic(F, shares)
  {
    forall w ensures !ClosedWalk(F, shares, w) {
      if ClosedWalk(F, shares, w) { assert ClosedWalk(E, shares, w); }
    }
  }

  /** A circle may be read from any of its steps. */
  lemma Rotate(E: set<Edge>, shares: seq<bool>, w: seq<Edge>, k: nat)
    requires ClosedWalk(E, shares, w) && k < |w|
    ensures ClosedWalk(E, shares, w[k..] + w[..k])
  {
    var r := w[k..] + w[..k];
    forall i | 0 <= i < |r| - 1 ensures LinkedAt(shares, r, i) {
      if i < |w| - k - 1 {
        assert LinkedAt(shares, w, k + i);
      } else if i > |w| - k - 1 {
        assert LinkedAt(shares, w, i - (|w| - k));
      }
    }
    if k > 0 { assert LinkedAt(shares, w, k - 1); }
  }

  /** Cuts a circle that starts with the new edge `e` down to one use of `e`:
      what remains between two uses is a chain of old edges. */
  lemma {:induction false} OneUse(E: set<Edge>, shares: seq<bool>, e: Edge, w: seq<Edge>) returns (v: seq<Edge>)
    requires e !in E
    requires ClosedWalk(E + {e}, shares, w) && w[0] == e
    ensures Chain(E, shares, v)
    ensures v == [] ==> Linked(shares, e, e)
    ensures v != [] ==> Linked(shares, e, v[0]) && Linked(shares, v[|v| - 1], e)
  {
    var k := 1;
    while k < |w| && w[k] != e
      invariant 1 <= k <= |w|
      invariant forall i :: 1 <= i < k ==> w[i] != e
    {
      k := k + 1;
    }
    v := w[1..k];
    forall i | 0 <= i < |v| ensures v[i] in E { assert v[i] == w[i + 1]; }
    forall i | 0 <= i < |v| - 1 ensures LinkedAt(shares, v, i) { assert LinkedAt(shares, w, i + 1); }
    if |w| > 1 { assert LinkedAt(shares, w, 0); }
    if k < |w| { assert LinkedAt(shares, w, k - 1); }
  }

  /** Inserting an edge after an unsuccessful search keeps the graph free of
      circular waits, although the search never walks through its target. A
      chain that comes back to the target earlier either was found there, or
      arrived as a reader that does not wait for this reader; then it must
      return as a writer, and the part in between was a circle already. */
  lemma InsertKeepsAcyclic(E: set<Edge>, shares: seq<bool>, e: Edge)
    requires Acyclic(E, shares)
    requires e.src != e.dst && e.src < |shares| && e.dst < |shares|
    requires !Reaches(E, shares, e.dst, e.want, e.src, e.held)
    ensures Acyclic(E + {e}, shares)
  {
    if e in E { assert E + {e} == E; return; }
    forall w ensures !ClosedWalk(E + {e}, shares, w) {
      if ClosedWalk(E + {e}, shares, w) {
        if k :| 0 <= k < |w| && w[k] == e {
          Rotate(E + {e}, shares, w, k);
          var v := OneUse(E, shares, e, w[k..] + w[..k]);
          ChainClosesBefore(E, shares, e, v);
        } else {
          assert ClosedWalk(E, shares, w);
        }
      }
    }
  }

  /** The search raises no false alarm: when it finds a walk, the new edge closes a circle. */
  lemma FoundClosesCircle(E: set<Edge>, shares: seq<bool>, e: Edge)
    requires e.src != e.dst
    requires Reaches(E, shares, e.dst, e.want, e.src, e.held)
    ensures !Acyclic(E + {e}, shares)
  {
    var w :| SearchWalk(E, shares, e.dst, e.want, e.src, e.held, w);
    var c := [e] + w;
    forall i | 0 <= i < |c| - 1 ensures LinkedAt(shares, c, i) {
      if i > 0 { assert LinkedAt(shares, w, i - 1); }
    }
    assert ClosedWalk(E + {e}, shares, c);
  }

  /** The heart of InsertKeepsAcyclic: a chain of old edges from e.dst back to e.src. */
  lemma ChainClosesBefore(E: set<Edge>, shares: seq<bool>, e: Edge, v: seq<Edge>)
    requires e.src != e.dst && e.src < |shares| && e.dst < |shares|
    requires Chain(E, shares, v) && v != []
    requires Linked(shares, e, v[0]) && Linked(shares, v[|v| - 1], e)
    ensures Reaches(E, shares, e.dst, e.want, e.src, e.held) || !Acyclic(E, shares)
  {
    var k := 0;
    while v[k].dst != e.src
      invariant 0 <= k < |v|
      invariant forall i :: 0 <= i <= k ==> v[i].src != e.src
      decreases |v| - k
    {
      assert LinkedAt(shares, v, k);
      k := k + 1;
    }
    if Waits(shares[e.src], v[k].want, e.held) {
      ChainSlice(E, shares, v, 0, k + 1);
      var u := v[0..k + 1];
      assert u[|u| - 1] == v[k];
      assert SearchWalk(E, shares, e.dst, e.want, e.src, e.held, u);
    } else {
      assert v[|v| - 1].want == WRITE;
      ChainSlice(E, shares, v, k + 1, |v|);
      var u := v[k + 1..|v|];
      assert LinkedAt(shares, v, k);
      assert u[0] == v[k + 1] && u[|u| - 1] == v[|v| - 1];
      assert ClosedWalk(E, shares, u);
    }
  }

  /** Locks without edges may change how their readers wait. */
  lemma SharesMatterOnlyAtEdges(E: set<Edge>, shares: seq<bool>, shares2: seq<bool>)
    requires Acyclic(E, shares) && |shares| <= |shares2|
    requires forall e :: e in E ==> e.dst < |shares| && shares2[e.dst] == shares[e.dst]
    ensures Acyclic(E, shares2)
  {
    forall w ensures !ClosedWalk(E, shares2, w) {
      if ClosedWalk(E, shares2, w) {
        forall i | 0 <= i < |w| - 1 ensures LinkedAt(shares, w, i) {
          assert w[i] in E && LinkedAt(shares2, w, i);
        }
        assert w[|w| - 1] in E;
        assert ClosedWalk(E, shares, w);
      }
    }
  }
}
