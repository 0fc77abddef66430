/** find_path of lockcheck.c: a breadth-first search over states (lock, mode in
    which the previous thread wants it), for the shortest walk of waits from a
    lock about to be taken to a lock this thread holds. */
module PathSearch {
  import opened Seqs
  import opened WaitGraph

  /** One entry of locks[]; address 0 is a free slot and 1 a tombstone. */
  datatype LockInfo = LockInfo(addr: nat, isRw: bool, recursive: bool, readShares: bool, owner: nat, readers: int)

  /** The combinations of modes in an edge's mask: held mode * 2 + new mode. */
  type Combo = c: nat | c < 4

  function HeldMode(c: Combo): Mode { if c < 2 then READ else WRITE }

  function NewMode(c: Combo): Mode { if c == 0 || c == 2 then READ else WRITE }

  function ComboOf(e: Edge): (c: Combo)
    ensures HeldMode(c) == e.held && NewMode(c) == e.want
  {
    Bit(e.held) * 2 + Bit(e.want)
  }

  function Bit(m: Mode): nat { if m == READ then 0 else 1 }

  /** The values that the two tables stand for: who shares reads, and the
      recorded edges, one mask bit for each combination of modes. */
  ghost predicate Tables(locks: array<LockInfo>, edges: array3<bool>, shares: seq<bool>, E: set<Edge>)
    reads locks, edges
  {
    && edges.Length0 == edges.Length1 == locks.Length == |shares| && edges.Length2 == 4
    && (forall i :: 0 <= i < |shares| ==> shares[i] == locks[i].readShares)
    && (forall e :: e in E ==> e.src < |shares| && e.dst < |shares|)
    && (forall e: Edge :: e.src < |shares| && e.dst < |shares| ==> (e in E <==> edges[e.src, e.dst, ComboOf(e)]))
  }

  /** A search state; the arrays of the search keep it at index lock * 2 + want. */
  datatype State = State(lock: nat, want: Mode) {
    function Index(): nat { lock * 2 + Bit(want) }
  }

  datatype Parent = Root | From(st: State)

  function StateOf(e: Edge): State {
    State(e.dst, e.want)
  }

  /** The edges that a path of locks and its combos stand for. */
  ghost function EdgesAlong(path: seq<nat>, combo: seq<Combo>): (w: seq<Edge>)
    requires |path| == |combo| + 1
  {
    seq(|combo|, k requires 0 <= k < |combo| => Edge(path[k], HeldMode(combo[k]), path[k + 1], NewMode(combo[k])))
  }

  // ----- what the search knows -------------------------------------------

  /** What a search is about, fixed while it runs. */
  datatype Query = Query(E: set<Edge>, shares: seq<bool>, start: State, target: nat, hold: Mode) {

    ghost predicate Goal(st: State) {
      st.lock == target && target < |shares| && Waits(shares[target], st.want, hold)
    }

    /** May the search continue from state `st` along `e`? */
    ghost predicate Continues(st: State, e: Edge) {
      e in E && e.src == st.lock < |shares| && Waits(shares[st.lock], st.want, e.held)
    }

    /** `w` leads from the start to state `st` without leaving the target. */
    ghost predicate WalkTo(w: seq<Edge>, st: State) {
      && Chain(E, shares, w)
      && (forall i :: 0 <= i < |w| ==> w[i].src != target)
      && (w == [] ==> st == start)
      && (w != [] ==> Continues(start, w[0]) && StateOf(w[|w| - 1]) == st)
    }

    ghost predicate IsAnswer(w: seq<Edge>) {
      SearchWalk(E, shares, start.lock, start.want, target, hold, w)
    }
  }

  /** What the search has found: the queue, nearest state first, and a walk to each queued state. */
  datatype Found = Found(q: seq<State>, walk: map<State, seq<Edge>>) {

    ghost function Dist(st: State): nat
      requires st in walk
    {
      |walk[st]|
    }

    ghost predicate Known(Q: Query, st: State) {
      st in walk && Q.WalkTo(walk[st], st)
    }

    ghost predicate Valid(Q: Query) {
      && |q| > 0 && q[0] == Q.start
      && (forall i :: 0 <= i < |q| ==> q[i] in walk && q[i].lock < |Q.shares|)
      && (forall i {:trigger Known(Q, q[i])} :: 0 <= i < |q| ==> Known(Q, q[i]))
      && (forall st :: st in walk ==> st in q)
      && (forall i :: 0 <= i < |q| ==> Dist(q[i]) <= i)
      && (forall i, j {:trigger Ordered(i, j)} :: 0 <= i < j < |q| ==> Ordered(i, j))
    }

    ghost predicate Ordered(i: nat, j: nat)
      requires i < j < |q| && q[i] in walk && q[j] in walk
    {
      q[i] != q[j] && Dist(q[i]) <= Dist(q[j])
    }

    /** Nothing queued is more than one step further than `st`. */
    ghost predicate Near(st: State) {
      st in walk && forall j :: 0 <= j < |q| ==> q[j] in walk && Dist(q[j]) <= Dist(st) + 1
    }

    /** Edges out of `st` to locks below y, and at y those with combos below c, lead to known states. */
    ghost predicate Scanned(Q: Query, st: State, y: nat, c: nat) {
      && st in walk
      && forall e {:trigger Q.Continues(st, e)} ::
           Q.Continues(st, e) && (e.dst < y || (e.dst == y && ComboOf(e) < c)) ==>
             StateOf(e) in walk && Dist(StateOf(e)) <= Dist(st) + 1
    }

    /** The first h queued states are no goals and have been expanded. */
    ghost predicate Expanded(Q: Query, h: nat) {
      h <= |q| && forall i {:trigger ExpandedAt(Q, i)} :: 0 <= i < h ==> ExpandedAt(Q, i)
    }

    ghost predicate ExpandedAt(Q: Query, i: nat)
      requires i < |q|
    {
      !Q.Goal(q[i]) && (q[i].lock != Q.target ==> Scanned(Q, q[i], |Q.shares|, 0))
    }

    /** The two arrays tell from where each queued state was reached. */
    ghost predicate Parents(parent: seq<Parent>, via: seq<Combo>) {
      forall i {:trigger ParentOk(parent, via, q[i])} :: 0 <= i < |q| ==> ParentOk(parent, via, q[i])
    }

    ghost predicate ParentOk(parent: seq<Parent>, via: seq<Combo>, st: State) {
      && st in walk && st.Index() < |parent| && st.Index() < |via|
      && match parent[st.Index()]
         case Root => walk[st] == []
         case From(p) => p in walk && walk[st] == walk[p] + [Edge(p.lock, HeldMode(via[st.Index()]), st.lock, st.want)]
                         && NewMode(via[st.Index()]) == st.want
    }

    ghost function Add(st: State, e: Edge): Found
      requires st in walk
    {
      Found(q + [StateOf(e)], walk[StateOf(e) := walk[st] + [e]])
    }
  }

  /** Discovering a new state over `e` keeps all that the search knows. */
  lemma Discover(Q: Query, f: Found, i: nat, e: Edge)
    requires f.Valid(Q)
    requires i < |f.q| && f.Near(f.q[i])
    requires Q.Continues(f.q[i], e) && e.src != Q.target && e.dst < |Q.shares|
    requires StateOf(e) !in f.walk
    ensures f.Add(f.q[i], e).Valid(Q)
  {
    var s, g := StateOf(e), f.Add(f.q[i], e);
    assert f.Known(Q, f.q[i]);
    DiscoverWalk(Q, f.walk[f.q[i]], f.q[i], e);
    forall k | 0 <= k < |g.q| ensures g.Known(Q, g.q[k]) && g.Dist(g.q[k]) <= k {
      if k < |f.q| { assert g.q[k] == f.q[k] && f.Known(Q, f.q[k]); }
    }
    forall k, l | 0 <= k < l < |g.q| ensures g.Ordered(k, l) {
      assert g.q[k] == f.q[k];
      if l < |f.q| { assert f.Ordered(k, l); }
    }
    forall st | st in g.walk ensures st in g.q {
      if st == s { assert g.q[|f.q|] == s; } else { assert st in f.q; }
    }
  }

  lemma DiscoverWalk(Q: Query, w: seq<Edge>, st: State, e: Edge)
    requires Q.WalkTo(w, st) && Q.Continues(st, e) && e.src != Q.target
    ensures Q.WalkTo(w + [e], StateOf(e))
  {
    var v := w + [e];
    forall k | 0 <= k < |v| - 1 ensures LinkedAt(Q.shares, v, k) {
      if k < |w| - 1 { assert LinkedAt(Q.shares, w, k); }
    }
  }

  lemma DiscoverKeepsExpanded(Q: Query, f: Found, st: State, e: Edge, h: nat)
    requires f.Valid(Q) && f.Expanded(Q, h)
    requires st in f.walk && StateOf(e) !in f.walk
    ensures f.Add(st, e).Expanded(Q, h)
  {
    var g := f.Add(st, e);
    forall i | 0 <= i < h ensures g.ExpandedAt(Q, i) {
      assert g.q[i] == f.q[i] && f.ExpandedAt(Q, i);
    }
  }

  lemma DiscoverKeepsParents(f: Found, st: State, e: Edge, parent: seq<Parent>, via: seq<Combo>)
    requires f.Parents(parent, via)
    requires st in f.walk && StateOf(e) !in f.walk && st.lock == e.src
    requires StateOf(e).Index() < |parent| == |via|
    ensures f.Add(st, e).Parents(parent[StateOf(e).Index() := From(st)], via[StateOf(e).Index() := ComboOf(e)])
  {
    var g, k := f.Add(st, e), StateOf(e).Index();
    forall i | 0 <= i < |g.q| ensures g.ParentOk(parent[k := From(st)], via[k := ComboOf(e)], g.q[i]) {
      if i < |f.q| {
        assert f.ParentOk(parent, via, f.q[i]) && f.q[i].Index() != k;
      } else {
        assert Edge(st.lock, HeldMode(ComboOf(e)), e.dst, e.want) == e;
      }
    }
  }

  /** A scan that passes one more edge, known, absent or not continuing, or just discovered. */
  lemma ScanOn(Q: Query, f: Found, st: State, y: nat, c: Combo)
    requires st in f.walk && f.Scanned(Q, st, y, c)
    requires var e := Edge(st.lock, HeldMode(c), y, NewMode(c));
      Q.Continues(st, e) ==> StateOf(e) in f.walk && f.Dist(StateOf(e)) <= f.Dist(st) + 1
    ensures f.Scanned(Q, st, y, c + 1)
  {
    forall e | Q.Continues(st, e) && (e.dst < y || (e.dst == y && ComboOf(e) < c + 1))
      ensures StateOf(e) in f.walk && f.Dist(StateOf(e)) <= f.Dist(st) + 1
    {
      if e.dst == y && ComboOf(e) == c { assert e == Edge(st.lock, HeldMode(c), y, NewMode(c)); }
    }
  }

  lemma Monotone(Q: Query, f: Found, i: nat, j: nat)
    requires f.Valid(Q) && i < |f.q| && j < |f.q|
    ensures i <= j ==> f.Dist(f.q[i]) <= f.Dist(f.q[j])
  {
    if i < j { assert f.Ordered(i, j); }
  }

  /** A walk to the target is no shorter than the distance of what is not expanded yet. */
  lemma NoShorter(Q: Query, f: Found, h: nat, w: seq<Edge>)
    requires f.Valid(Q) && f.Expanded(Q, h)
    requires forall e :: e in Q.E ==> e.dst < |Q.shares|
    requires h < |f.q| ==> f.Dist(f.q[h]) > |w|
    ensures !Q.IsAnswer(w)
  {
    if Q.IsAnswer(w) {
      var st := Follow(Q, f, h, w, |w|);
    }
  }

  lemma {:induction false} Follow(Q: Query, f: Found, h: nat, w: seq<Edge>, k: nat) returns (st: State)
    requires f.Valid(Q) && f.Expanded(Q, h) && Q.IsAnswer(w) && k <= |w|
    requires forall e :: e in Q.E ==> e.dst < |Q.shares|
    requires h < |f.q| ==> f.Dist(f.q[h]) > |w|
    ensures st in f.walk && f.Dist(st) <= k && !Q.Goal(st)
    ensures st == if k == 0 then Q.start else StateOf(w[k - 1])
  {
    if k == 0 {
      st := Q.start;
      assert f.Known(Q, f.q[0]);
    } else {
      var before := Follow(Q, f, h, w, k - 1);
      var i :| 0 <= i < |f.q| && f.q[i] == before;
      if h < |f.q| { Monotone(Q, f, h, i); }
      st := StateOf(w[k - 1]);
      if k > 1 { assert LinkedAt(Q.shares, w, k - 2); }
      assert Q.Continues(before, w[k - 1]);
      assert f.ExpandedAt(Q, i);
    }
    var i :| 0 <= i < |f.q| && f.q[i] == st;
    if h < |f.q| { Monotone(Q, f, h, i); }
    assert f.ExpandedAt(Q, i);
  }

  /** When everything queued is expanded and no goal, no walk reaches the target. */
  lemma NoAnswer(Q: Query, f: Found)
    requires f.Valid(Q) && f.Expanded(Q, |f.q|)
    requires forall e :: e in Q.E ==> e.dst < |Q.shares|
    ensures forall w :: !Q.IsAnswer(w)
  {
    forall w ensures !Q.IsAnswer(w) { NoShorter(Q, f, |f.q|, w); }
  }

  /** The first goal of the queue is reached by a shortest walk. */
  lemma ShortestAnswer(Q: Query, f: Found, i: nat)
    requires f.Valid(Q) && i < |f.q| && Q.Goal(f.q[i]) && Q.start.lock < |Q.shares|
    requires forall e :: e in Q.E ==> e.dst < |Q.shares|
    requires f.Expanded(Q, i)
    ensures Q.IsAnswer(f.walk[f.q[i]])
    ensures forall w :: Q.IsAnswer(w) ==> |f.walk[f.q[i]]| <= |w|
  {
    assert f.Known(Q, f.q[i]);
    forall w ensures Q.IsAnswer(w) ==> |f.walk[f.q[i]]| <= |w| {
      if |w| < |f.walk[f.q[i]]| { NoShorter(Q, f, i, w); }
    }
  }

  /** The queue never outgrows its array. */
  lemma QueueFits(Q: Query, f: Found)
    requires f.Valid(Q)
    ensures |f.q| <= 2 * |Q.shares|
  {
    var codes := seq(|f.q|, i requires 0 <= i < |f.q| => f.q[i].Index());
    forall i, j | 0 <= i < j < |codes| ensures codes[i] != codes[j] { assert f.Ordered(i, j); }
    Pigeonhole(codes, 2 * |Q.shares|);
  }

  // ----- the search itself -----------------------------------------------

  ghost predicate Marks(Q: Query, f: Found, visited: seq<bool>, parent: seq<Parent>, via: seq<Combo>,
      queue: seq<State>) {
    && |visited| == |parent| == |via| == |queue| == 2 * |Q.shares|
    && f.Valid(Q) && f.Parents(parent, via)
    && |f.q| <= |queue| && queue[..|f.q|] == f.q
    && forall st: State {:trigger VisitedAt(f, visited, st)} :: st.lock < |Q.shares| ==> VisitedAt(f, visited, st)
  }

  ghost predicate VisitedAt(f: Found, visited: seq<bool>, st: State) {
    st.Index() < |visited| && (visited[st.Index()] <==> st in f.walk)
  }

  /** One new state enters the arrays. */
  lemma MarkNew(Q: Query, f: Found, i: nat, e: Edge, visited: seq<bool>, parent: seq<Parent>, via: seq<Combo>,
      queue: seq<State>)
    requires Marks(Q, f, visited, parent, via, queue)
    requires i < |f.q| && f.Near(f.q[i])
    requires Q.Continues(f.q[i], e) && e.src != Q.target && e.dst < |Q.shares|
    requires StateOf(e) !in f.walk
    ensures |f.q| < |queue| && StateOf(e).Index() < 2 * |Q.shares|
    ensures var k, st := StateOf(e).Index(), f.q[i];
      Marks(Q, f.Add(st, e), visited[k := true], parent[k := From(st)], via[k := ComboOf(e)],
          queue[|f.q| := StateOf(e)])
  {
    var s, st := StateOf(e), f.q[i];
    Discover(Q, f, i, e);
    DiscoverKeepsParents(f, st, e, parent, via);
    QueueFits(Q, f.Add(st, e));
    assert queue[|f.q| := s][..|f.q| + 1] == f.q + [s];
    forall st2: State | st2.lock < |Q.shares| ensures VisitedAt(f.Add(st, e), visited[s.Index() := true], st2) {
      assert VisitedAt(f, visited, st2);
      MarkOne(f, st, e, visited, st2);
    }
  }

  lemma MarkOne(f: Found, st: State, e: Edge, visited: seq<bool>, st2: State)
    requires st in f.walk && VisitedAt(f, visited, st2) && StateOf(e).Index() < |visited|
    ensures VisitedAt(f.Add(st, e), visited[StateOf(e).Index() := true], st2)
  {
  }

  /** The scan of the edges out of queue entry i has passed locks below y and combos below c. */
  ghost predicate Scanning(Q: Query, f: Found, i: nat, y: nat, c: nat) {
    && i < |f.q| && f.q[i].lock != Q.target
    && f.Expanded(Q, i) && f.Near(f.q[i]) && f.Scanned(Q, f.q[i], y, c)
  }

  lemma ScanNew(Q: Query, f: Found, i: nat, y: nat, c: Combo)
    requires f.Valid(Q) && Scanning(Q, f, i, y, c) && y < |Q.shares|
    requires var e := Edge(f.q[i].lock, HeldMode(c), y, NewMode(c)); Q.Continues(f.q[i], e) && StateOf(e) !in f.walk
    ensures var e := Edge(f.q[i].lock, HeldMode(c), y, NewMode(c)); Scanning(Q, f.Add(f.q[i], e), i, y, c + 1)
  {
    var st, e := f.q[i], Edge(f.q[i].lock, HeldMode(c), y, NewMode(c));
    DiscoverKeepsExpanded(Q, f, st, e, i);
    ScanOn(Q, f.Add(st, e), st, y, c);
  }

  method Enqueue(visited: array<bool>, parent: array<Parent>, via: array<Combo>, queue: array<State>,
                 s: State, st: State, c: Combo, tail: nat)
    requires s.Index() < visited.Length == parent.Length == via.Length && tail < queue.Length
    modifies visited, parent, via, queue
    ensures visited[..] == old(visited[..])[s.Index() := true]
    ensures parent[..] == old(parent[..])[s.Index() := From(st)]
    ensures via[..] == old(via[..])[s.Index() := c]
    ensures queue[..] == old(queue[..])[tail := s]
  {
    visited[s.Index()] := true;
    parent[s.Index()] := From(st);
    via[s.Index()] := c;
    queue[tail] := s;
  }

  /** One test of the innermost loop: is there an edge st -> y with modes c that leads to a new state? */
  method TryEdge(locks: array<LockInfo>, edges: array3<bool>,
                 visited: array<bool>, parent: array<Parent>, via: array<Combo>, queue: array<State>,
                 st: State, y: nat, c: Combo, tail0: nat, ghost Q: Query, ghost f0: Found, ghost i: nat)
    returns (tail: nat, ghost f: Found)
    requires Tables(locks, edges, Q.shares, Q.E) && y < |Q.shares|
    requires Marks(Q, f0, visited[..], parent[..], via[..], queue[..]) && tail0 == |f0.q|
    requires Scanning(Q, f0, i, y, c) && st == f0.q[i]
    modifies visited, parent, via, queue
    ensures Marks(Q, f, visited[..], parent[..], via[..], queue[..]) && tail == |f.q|
    ensures f0.q <= f.q && Scanning(Q, f, i, y, c + 1)
  {
    tail, f := tail0, f0;
    var s := State(y, NewMode(c));
    ghost var e := Edge(st.lock, HeldMode(c), y, NewMode(c));
    assert VisitedAt(f, visited[..], s);
    if edges[st.lock, y, c] && Waits(locks[st.lock].readShares, st.want, HeldMode(c)) && !visited[s.Index()] {
      MarkNew(Q, f, i, e, visited[..], parent[..], via[..], queue[..]);
      ScanNew(Q, f, i, y, c);
      Enqueue(visited, parent, via, queue, s, st, c, tail);
      tail := tail + 1;
      f := f.Add(st, e);
    } else {
      ScanOn(Q, f, st, y, c);
    }
  }

  /** The scan of all edges out of the state at the head of the queue. */
  method ExpandState(locks: array<LockInfo>, edges: array3<bool>,
                     visited: array<bool>, parent: array<Parent>, via: array<Combo>, queue: array<State>,
                     st: State, tail0: nat, ghost Q: Query, ghost f0: Found, ghost i: nat)
    returns (tail: nat, ghost f: Found)
    requires Tables(locks, edges, Q.shares, Q.E)
    requires Marks(Q, f0, visited[..], parent[..], via[..], queue[..]) && tail0 == |f0.q|
    requires Scanning(Q, f0, i, 0, 0) && st == f0.q[i]
    modifies visited, parent, via, queue
    ensures Marks(Q, f, visited[..], parent[..], via[..], queue[..]) && tail == |f.q|
    ensures f0.q <= f.q && Scanning(Q, f, i, |Q.shares|, 0)
  {
    tail, f := tail0, f0;
    var y := 0;
    while y < locks.Length
      invariant 0 <= y <= locks.Length
      invariant Marks(Q, f, visited[..], parent[..], via[..], queue[..]) && tail == |f.q|
      invariant f0.q <= f.q && Scanning(Q, f, i, y, 0)
    {
      var c := 0;
      while c < 4
        invariant 0 <= c <= 4
        invariant Marks(Q, f, visited[..], parent[..], via[..], queue[..]) && tail == |f.q|
        invariant f0.q <= f.q && Scanning(Q, f, i, y, c)
      {
        tail, f := TryEdge(locks, edges, visited, parent, via, queue, st, y, c, tail, Q, f, i);
        c := c + 1;
      }
      y := y + 1;
    }
  }

  /** The k-th lock on a walk that starts at `from`. */
  ghost function LockAt(from: nat, w: seq<Edge>, k: nat): nat
    requires k <= |w|
  {
    if k == 0 then from else w[k - 1].dst
  }

  lemma WalkLocks(Q: Query, w: seq<Edge>, st: State)
    requires Q.WalkTo(w, st)
    ensures LockAt(Q.start.lock, w, |w|) == st.lock
    ensures forall k :: 0 <= k < |w| ==> w[k].src == LockAt(Q.start.lock, w, k)
  {
    forall k | 0 <= k < |w| ensures w[k].src == LockAt(Q.start.lock, w, k) {
      if k > 0 { assert LinkedAt(Q.shares, w, k - 1); }
    }
  }

  /** One step back from a state whose walk is the first m edges of W. */
  lemma BackStep(Q: Query, f: Found, parent: seq<Parent>, via: seq<Combo>, st: State, W: seq<Edge>, m: nat)
    requires f.Valid(Q) && f.Parents(parent, via) && st in f.q && m <= |W|
    requires st in f.walk && f.walk[st] == W[..m]
    ensures st.Index() < |parent| && st.Index() < |via| && st.lock < |Q.shares| && st.lock == LockAt(Q.start.lock, W, m)
    ensures m == 0 ==> parent[st.Index()] == Root
    ensures m > 0 ==>
      && via[st.Index()] == ComboOf(W[m - 1])
      && parent[st.Index()].From? && parent[st.Index()].st in f.q && parent[st.Index()].st in f.walk
      && f.walk[parent[st.Index()].st] == W[..m - 1]
  {
    assert f.Known(Q, st) && f.ParentOk(parent, via, st);
    WalkLocks(Q, f.walk[st], st);
    if m > 0 {
      assert W[..m][m - 1] == W[m - 1] && W[..m][..m - 1] == W[..m - 1];
      var p := parent[st.Index()].st;
      var e := Edge(p.lock, HeldMode(via[st.Index()]), st.lock, st.want);
      assert (f.walk[p] + [e])[|f.walk[p]|] == e && (f.walk[p] + [e])[..|f.walk[p]|] == f.walk[p];
    }
  }

  lemma ShortWalk(Q: Query, f: Found, st: State)
    requires f.Valid(Q) && st in f.q
    ensures st in f.walk && |f.walk[st]| < |f.q| && st.lock < |Q.shares|
  {
  }

  lemma PathSpells(Q: Query, f: Found, st: State, path: seq<nat>, combo: seq<Combo>)
    requires f.Valid(Q) && st in f.q && st in f.walk && |path| == |combo| + 1 == |f.walk[st]| + 1
    requires forall k :: 0 <= k < |path| ==> path[k] == LockAt(Q.start.lock, f.walk[st], k)
    requires forall k :: 0 <= k < |combo| ==> combo[k] == ComboOf(f.walk[st][k])
    ensures EdgesAlong(path, combo) == f.walk[st] && path[0] == Q.start.lock && path[|path| - 1] == st.lock
  {
    assert f.Known(Q, st);
    WalkLocks(Q, f.walk[st], st);
  }

  method Reversed<T>(a: array<T>, n: nat) returns (r: seq<T>)
    requires n <= a.Length
    ensures |r| == n && forall k :: 0 <= k < n ==> r[k] == a[n - 1 - k]
  {
    r := [];
    var k := 0;
    while k < n
      invariant 0 <= k <= n && |r| == k
      invariant forall i :: 0 <= i < k ==> r[i] == a[n - 1 - i]
    {
      r := r + [a[n - 1 - k]];
      k := k + 1;
    }
  }

  /** The last phase of find_path: from the target back to the start, then reversed. */
  method WalkBack(n: nat, parent: array<Parent>, via: array<Combo>, goal: State, ghost Q: Query, ghost f: Found)
    returns (path: seq<nat>, combo: seq<Combo>)
    requires n == |Q.shares| && parent.Length == via.Length == 2 * n
    requires f.Valid(Q) && f.Parents(parent[..], via[..]) && |f.q| <= 2 * n && goal in f.q
    ensures goal in f.walk && |path| == |combo| + 1 == |f.walk[goal]| + 1 <= 2 * n
    ensures EdgesAlong(path, combo) == f.walk[goal]
    ensures path[0] == Q.start.lock && path[|path| - 1] == goal.lock
  {
    ghost var W := f.walk[goal];
    ShortWalk(Q, f, goal);
    var rev, revc := new nat[2 * n](_ => 0), new Combo[2 * n](_ => 0);
    var len: nat, st := 0, From(goal);
    while st != Root
      invariant 0 <= len <= |W| + 1 <= 2 * n
      invariant st != Root ==> len <= |W| && st.st in f.q && st.st in f.walk && f.walk[st.st] == W[..|W| - len]
      invariant st == Root ==> len == |W| + 1
      invariant forall k :: 0 <= k < len ==> rev[k] == LockAt(Q.start.lock, W, |W| - k)
      invariant forall k :: 0 <= k < len && k < |W| ==> revc[k] == ComboOf(W[|W| - 1 - k])
      decreases |W| + 1 - len
    {
      BackStep(Q, f, parent[..], via[..], st.st, W, |W| - len);
      rev[len] := st.st.lock;
      revc[len] := via[st.st.Index()];
      st := parent[st.st.Index()];
      len := len + 1;
    }
    path := Reversed(rev, len);
    combo := Reversed(revc, len - 1);
    PathSpells(Q, f, goal, path, combo);
  }

  /** The search with the first h queued states behind it; `goal` is the last of them, if it is one. */
  ghost predicate Searching(Q: Query, f: Found, h: nat, goal: Parent) {
    && h <= |f.q|
    && match goal
       case Root => f.Expanded(Q, h) && (h < |f.q| ==> f.Near(f.q[h]))
       case From(st) => 0 < h && st == f.q[h - 1] && Q.Goal(st) && f.Expanded(Q, h - 1)
  }

  /** One turn of the queue loop. */
  method Visit(locks: array<LockInfo>, edges: array3<bool>,
               visited: array<bool>, parent: array<Parent>, via: array<Combo>, queue: array<State>,
               target: nat, targetHold: Mode, head: nat, tail0: nat, ghost Q: Query, ghost f0: Found)
    returns (goal: Parent, tail: nat, ghost f: Found)
    requires Tables(locks, edges, Q.shares, Q.E) && Q.target == target < |Q.shares| && Q.hold == targetHold
    requires Marks(Q, f0, visited[..], parent[..], via[..], queue[..]) && head < tail0 == |f0.q|
    requires Searching(Q, f0, head, Root)
    modifies visited, parent, via, queue
    ensures Marks(Q, f, visited[..], parent[..], via[..], queue[..]) && tail == |f.q|
    ensures Searching(Q, f, head + 1, goal)
  {
    goal, tail, f := Root, tail0, f0;
    assert queue[..][..|f.q|][head] == f.q[head];
    var st := queue[head];
    if st.lock == target {
      if Waits(locks[st.lock].readShares, st.want, targetHold) {
        goal := From(st);
      } else {
        TargetPassed(Q, f, head);
      }
    } else {
      ScanStart(Q, f, head);
      tail, f := ExpandState(locks, edges, visited, parent, via, queue, st, tail, Q, f, head);
      ScanEnd(Q, f, head);
    }
  }

  /** The queue loop: stops at the first goal, or when nothing is left to expand. */
  method Search(locks: array<LockInfo>, edges: array3<bool>,
                visited: array<bool>, parent: array<Parent>, via: array<Combo>, queue: array<State>,
                target: nat, targetHold: Mode, ghost Q: Query, ghost f0: Found)
    returns (goal: Parent, ghost f: Found, ghost h: nat)
    requires Tables(locks, edges, Q.shares, Q.E) && Q.target == target < |Q.shares| && Q.hold == targetHold
    requires Marks(Q, f0, visited[..], parent[..], via[..], queue[..]) && |f0.q| == 1 && Searching(Q, f0, 0, Root)
    modifies visited, parent, via, queue
    ensures Marks(Q, f, visited[..], parent[..], via[..], queue[..])
    ensures Searching(Q, f, h, goal) && (goal == Root ==> h == |f.q|)
  {
    goal, f := Root, f0;
    var head, tail := 0, 1;
    while head < tail && goal == Root
      invariant head <= tail == |f.q|
      invariant Marks(Q, f, visited[..], parent[..], via[..], queue[..])
      invariant Searching(Q, f, head, goal)
      decreases queue.Length - head
    {
      goal, tail, f := Visit(locks, edges, visited, parent, via, queue, target, targetHold, head, tail, Q, f);
      head := head + 1;
    }
    h := head;
  }

  ghost predicate ShortestPath(Q: Query, path: seq<nat>, combo: seq<Combo>) {
    && |path| == |combo| + 1 <= 2 * |Q.shares|
    && path[0] == Q.start.lock && path[|path| - 1] == Q.target
    && Q.IsAnswer(EdgesAlong(path, combo))
    && forall w :: Q.IsAnswer(w) ==> |combo| <= |w|
  }

  /** The search and, when it succeeds, the way back. */
  method SearchAndWalkBack(locks: array<LockInfo>, edges: array3<bool>,
                           visited: array<bool>, parent: array<Parent>, via: array<Combo>, queue: array<State>,
                           target: nat, targetHold: Mode, ghost Q: Query, ghost f0: Found)
    returns (found: bool, path: seq<nat>, combo: seq<Combo>)
    requires Tables(locks, edges, Q.shares, Q.E) && Q.target == target < |Q.shares| && Q.hold == targetHold
    requires Marks(Q, f0, visited[..], parent[..], via[..], queue[..]) && |f0.q| == 1 && Searching(Q, f0, 0, Root)
    requires Q.start.lock < |Q.shares|
    modifies visited, parent, via, queue
    ensures found <==> exists w :: Q.IsAnswer(w)
    ensures found ==> ShortestPath(Q, path, combo)
  {
    var goal; ghost var f, h;
    goal, f, h := Search(locks, edges, visited, parent, via, queue, target, targetHold, Q, f0);
    if goal == Root {
      NoAnswer(Q, f);
      return false, [], [];
    }
    QueueFits(Q, f);
    ShortestAnswer(Q, f, h - 1);
    path, combo := WalkBack(locks.Length, parent, via, goal.st, Q, f);
    return true, path, combo;
  }

  /** Is there a walk of waits to the target? If so, the locks and combos of a shortest one. */
  method FindPath(locks: array<LockInfo>, edges: array3<bool>, from: nat, fromWant: Mode, target: nat, targetHold: Mode,
                  ghost shares: seq<bool>, ghost E: set<Edge>)
    returns (found: bool, path: seq<nat>, combo: seq<Combo>)
    requires Tables(locks, edges, shares, E)
    requires from < locks.Length && target < locks.Length
    ensures found <==> Reaches(E, shares, from, fromWant, target, targetHold)
    ensures found ==>
      && |path| == |combo| + 1 <= 2 * locks.Length
      && path[0] == from && path[|path| - 1] == target
      && SearchWalk(E, shares, from, fromWant, target, targetHold, EdgesAlong(path, combo))
      && forall w :: SearchWalk(E, shares, from, fromWant, target, targetHold, w) ==> |combo| <= |w|
  {
    var n, start := locks.Length, State(from, fromWant);
    ghost var Q := Query(E, shares, start, target, targetHold);
    ghost var f := Found([start], map[start := []]);
    var visited := new bool[2 * n](_ => false);
    var parent := new Parent[2 * n](_ => Root);
    var via := new Combo[2 * n](_ => 0);
    var queue := new State[2 * n](_ => start);
    visited[start.Index()] := true;
    InitialMarks(Q, f, visited[..], parent[..], via[..], queue[..]);
    found, path, combo := SearchAndWalkBack(locks, edges, visited, parent, via, queue, target, targetHold, Q, f);
    ShortestIs(Q, found, path, combo);
  }

  /** The answers of the search are the walks it was asked for. */
  lemma ShortestIs(Q: Query, found: bool, path: seq<nat>, combo: seq<Combo>)
    requires found <==> exists w :: Q.IsAnswer(w)
    requires found ==> ShortestPath(Q, path, combo)
    ensures found <==> Reaches(Q.E, Q.shares, Q.start.lock, Q.start.want, Q.target, Q.hold)
    ensures found ==>
      && |path| == |combo| + 1 <= 2 * |Q.shares| && path[0] == Q.start.lock && path[|path| - 1] == Q.target
      && SearchWalk(Q.E, Q.shares, Q.start.lock, Q.start.want, Q.target, Q.hold, EdgesAlong(path, combo))
      && forall w :: SearchWalk(Q.E, Q.shares, Q.start.lock, Q.start.want, Q.target, Q.hold, w) ==> |combo| <= |w|
  {
    forall w ensures SearchWalk(Q.E, Q.shares, Q.start.lock, Q.start.want, Q.target, Q.hold, w) <==> Q.IsAnswer(w) {}
  }

  lemma InitialMarks(Q: Query, f: Found, visited: seq<bool>, parent: seq<Parent>, via: seq<Combo>, queue: seq<State>)
    requires f == Found([Q.start], map[Q.start := []]) && Q.start.lock < |Q.shares|
    requires |visited| == |parent| == |via| == |queue| == 2 * |Q.shares|
    requires forall i :: 0 <= i < |visited| ==>
        (visited[i] <==> i == Q.start.Index()) && parent[i] == Root && queue[i] == Q.start
    ensures Marks(Q, f, visited, parent, via, queue) && Searching(Q, f, 0, Root)
  {
    assert f.Known(Q, Q.start);
  }

  /** At the target as a reader that does not wait for the holder: the walk ends, but the search goes on. */
  lemma TargetPassed(Q: Query, f: Found, i: nat)
    requires f.Valid(Q) && f.Expanded(Q, i) && i < |f.q|
    requires f.q[i].lock == Q.target && !Q.Goal(f.q[i]) && f.Near(f.q[i])
    ensures f.Expanded(Q, i + 1) && (i + 1 < |f.q| ==> f.Near(f.q[i + 1]))
  {
    if i + 1 < |f.q| { Monotone(Q, f, i, i + 1); }
  }

  lemma ScanStart(Q: Query, f: Found, i: nat)
    requires f.Valid(Q) && f.Expanded(Q, i) && i < |f.q|
    requires f.q[i].lock != Q.target && f.Near(f.q[i])
    ensures Scanning(Q, f, i, 0, 0)
  {
  }

  lemma ScanEnd(Q: Query, f: Found, i: nat)
    requires f.Valid(Q) && Scanning(Q, f, i, |Q.shares|, 0)
    ensures f.Expanded(Q, i + 1) && (i + 1 < |f.q| ==> f.Near(f.q[i + 1]))
  {
    if i + 1 < |f.q| { Monotone(Q, f, i, i + 1); }
  }
}
