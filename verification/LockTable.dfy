/** The open-addressing table locks[] of lockcheck.c as a finite map from
    addresses to slots, on the values of the table. */
module LockTable {
  import opened Arith
  import opened PathSearch

  const FREE: nat := 0
  const TOMBSTONE: nat := 1

  predicate Live(l: LockInfo) {
    l.addr > TOMBSTONE
  }

  /** The slot that the k-th probe from hash value h looks at. */
  function Slot(n: nat, h: nat, k: nat): (i: nat)
    requires h < n && k < n
    ensures i < n
  {
    if h + k < n then h + k else h + k - n
  }

  /** That is the program's probe position. */
  lemma {:induction false} SlotIsRemainder(n: nat, x: nat, k: nat)
    requires 0 < n && k < n
    ensures Slot(n, Place(x, n), k) == (x + k) % n
  {
    PlaceIsRemainder(x + k, n);
    SlotIsPlace(n, x, k);
  }

  lemma {:induction false} SlotIsPlace(n: nat, x: nat, k: nat)
    requires 0 < n && k < n
    ensures Slot(n, Place(x, n), k) == Place(x + k, n)
  {
    if n <= x { SlotIsPlace(n, x - n, k); }
  }

  /** Every slot is looked at by one of the n probes. */
  lemma ProbesReachAll(n: nat, h: nat, i: nat) returns (k: nat)
    requires h < n && i < n
    ensures k < n && Slot(n, h, k) == i
  {
    k := if i >= h then i - h else i + n - h;
  }

  /** Slot i was filled by its address's step[i]-th probe, past slots that are not free. */
  ghost predicate Placed(ls: seq<LockInfo>, hash: nat -> nat, step: seq<nat>, i: nat)
    requires i < |ls| == |step|
  {
    && step[i] < |ls|
    && var h := Place(hash(ls[i].addr), |ls|);
       Slot(|ls|, h, step[i]) == i && forall m {:trigger Slot(|ls|, h, m)} :: 0 <= m < step[i] ==>
           ls[Slot(|ls|, h, m)].addr != FREE
  }

  /** `index` maps each live address to its slot, and nothing else. */
  ghost predicate Refines(ls: seq<LockInfo>, index: map<nat, nat>) {
    && (forall p :: p in index ==> p > TOMBSTONE && index[p] < |ls| && ls[index[p]].addr == p)
    && (forall i :: 0 <= i < |ls| && Live(ls[i]) ==> ls[i].addr in index && index[ls[i].addr] == i)
  }

  ghost predicate TableOk(ls: seq<LockInfo>, hash: nat -> nat, step: seq<nat>, index: map<nat, nat>) {
    && |ls| == |step| && |ls| > 0
    && Refines(ls, index)
    && forall i {:trigger Placed(ls, hash, step, i)} :: 0 <= i < |ls| && Live(ls[i]) ==> Placed(ls, hash, step, i)
  }

  /** The first k probes for p have met neither p nor a free slot. */
  ghost predicate Missed(ls: seq<LockInfo>, h: nat, p: nat, k: nat)
    requires h < |ls| && k <= |ls|
  {
    forall m {:trigger Slot(|ls|, h, m)} :: 0 <= m < k ==>
        ls[Slot(|ls|, h, m)].addr != p && ls[Slot(|ls|, h, m)].addr != FREE
  }

  /** The search may stop at a free slot, or after n probes: p is not further on. */
  lemma NotThere(ls: seq<LockInfo>, hash: nat -> nat, step: seq<nat>, index: map<nat, nat>, p: nat, k: nat)
    requires TableOk(ls, hash, step, index) && p > TOMBSTONE && k <= |ls|
    requires Missed(ls, Place(hash(p), |ls|), p, k)
    requires k < |ls| ==> ls[Slot(|ls|, Place(hash(p), |ls|), k)].addr == FREE
    ensures p !in index
  {
    forall i | 0 <= i < |ls| && Live(ls[i]) ensures ls[i].addr != p {
      assert Placed(ls, hash, step, i);
    }
  }

  /** Filling a dead slot on p's own probe path adds p to the map and breaks no other path. */
  lemma Inserted(ls: seq<LockInfo>, hash: nat -> nat, step: seq<nat>, index: map<nat, nat>, k: nat, l: LockInfo)
    requires TableOk(ls, hash, step, index) && Live(l) && l.addr !in index
    requires k < |ls| && Missed(ls, Place(hash(l.addr), |ls|), l.addr, k)
    requires !Live(ls[Slot(|ls|, Place(hash(l.addr), |ls|), k)])
    ensures var i := Slot(|ls|, Place(hash(l.addr), |ls|), k);
      TableOk(ls[i := l], hash, step[i := k], index[l.addr := i])
  {
    var i := Slot(|ls|, Place(hash(l.addr), |ls|), k);
    var ls2, step2 := ls[i := l], step[i := k];
    forall j | 0 <= j < |ls2| && Live(ls2[j]) ensures Placed(ls2, hash, step2, j) {
      if j != i { assert Placed(ls, hash, step, j); }
    }
  }

  /** New flags in a slot change neither the map nor any path. */
  lemma Updated(ls: seq<LockInfo>, hash: nat -> nat, step: seq<nat>, index: map<nat, nat>, i: nat, l: LockInfo)
    requires TableOk(ls, hash, step, index) && i < |ls| && ls[i].addr == l.addr
    ensures TableOk(ls[i := l], hash, step, index)
  {
    var ls2 := ls[i := l];
    forall j | 0 <= j < |ls2| && Live(ls2[j]) ensures Placed(ls2, hash, step, j) {
      assert Placed(ls, hash, step, j);
    }
  }

  /** A tombstone removes one address from the map; the paths across it stay closed to free slots. */
  lemma Removed(ls: seq<LockInfo>, hash: nat -> nat, step: seq<nat>, index: map<nat, nat>, i: nat, l: LockInfo)
    requires TableOk(ls, hash, step, index) && i < |ls| && Live(ls[i]) && l.addr == TOMBSTONE
    ensures TableOk(ls[i := l], hash, step, index - {ls[i].addr})
  {
    var ls2 := ls[i := l];
    forall j | 0 <= j < |ls2| && Live(ls2[j]) ensures Placed(ls2, hash, step, j) {
      assert Placed(ls, hash, step, j);
    }
  }
}
