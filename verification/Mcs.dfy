/** The MCS queue lock of lockbench.c and the benchmark loop it protects, one
    access to shared memory per step, for any number of threads that use their
    nodes again and again. */
module Mcs {
  import opened Seqs

  datatype Option<T> = None | Some(value: T)

  /** The next shared access of a thread; v and h are what it has loaded. */
  datatype Pc =
    | Loop                 // outside the lock, about to test i < n && !stop
    | SetNext | SetWait    // mcs_lock: reset the own node
    | Swap                 // exchange the tail
    | Link(prev: nat)      // store the predecessor's next
    | Spin                 // load the own wait flag
    | LoadCounter | StoreCounter(v: int)
    | TestOwner | LoadHandoffs | StoreHandoffs(h: int) | SetOwner
    | LoadNext             // mcs_unlock
    | Cas
    | SpinNext
    | Pass(next: nat)      // clear the successor's wait flag
    | Count                // i++
    | Finished

  /** Shared memory, the threads, and three records of the past: the waiting
      line, the order of tail exchanges and the order of entries. */
  datatype State = State(
    next: seq<Option<nat>>, wait: seq<bool>, tail: Option<nat>,
    counter: int, handoffs: int, lastOwner: int,
    pc: seq<Pc>, done: seq<nat>,
    line: seq<nat>, arrivals: seq<nat>, entries: seq<nat>)

  ghost predicate Shape(s: State) {
    |s.next| == |s.wait| == |s.pc| == |s.done|
  }

  function Goto(s: State, t: nat, pc: Pc): State
    requires t < |s.pc|
  {
    s.(pc := s.pc[t := pc])
  }

  /** Nodes that a thread follows are nodes of threads. */
  ghost predicate InRange(s: State, t: nat)
    requires Shape(s) && t < |s.pc|
  {
    && (s.pc[t].Link? ==> s.pc[t].prev < |s.pc|)
    && (s.pc[t].Pass? ==> s.pc[t].next < |s.pc|)
  }

  /** Thread t performs its next access; `go` is the outcome of the loop test. */
  function Step(s: State, t: nat, go: bool): State
    requires Shape(s) && t < |s.pc| && InRange(s, t)
  {
    match s.pc[t]
    case Loop => Goto(s, t, if go then SetNext else Finished)
    case SetNext => Goto(s, t, SetWait).(next := s.next[t := None])
    case SetWait => Goto(s, t, Swap).(wait := s.wait[t := true])
    case Swap =>
      var r := s.(tail := Some(t), line := s.line + [t], arrivals := s.arrivals + [t]);
      if s.tail == None then Goto(r, t, LoadCounter).(entries := s.entries + [t]) else Goto(r, t, Link(s.tail.value))
    case Link(prev) => Goto(s, t, Spin).(next := s.next[prev := Some(t)])
    case Spin => if s.wait[t] then s else Goto(s, t, LoadCounter).(entries := s.entries + [t])
    case LoadCounter => Goto(s, t, StoreCounter(s.counter))
    case StoreCounter(v) => Goto(s, t, TestOwner).(counter := v + 1)
    case TestOwner => Goto(s, t, if s.lastOwner != t then LoadHandoffs else LoadNext)
    case LoadHandoffs => Goto(s, t, StoreHandoffs(s.handoffs))
    case StoreHandoffs(h) => Goto(s, t, SetOwner).(handoffs := h + 1)
    case SetOwner => Goto(s, t, LoadNext).(lastOwner := t)
    case LoadNext => Goto(s, t, if s.next[t] == None then Cas else Pass(s.next[t].value))
    case Cas =>
      if s.tail == Some(t) then Goto(s, t, Count).(tail := None, line := if s.line == [] then [] else s.line[1..])
      else Goto(s, t, SpinNext)
    case SpinNext => if s.next[t] == None then s else Goto(s, t, Pass(s.next[t].value))
    case Pass(n) => Goto(s, t, Count).(wait := s.wait[n := false], line := if s.line == [] then [] else s.line[1..])
    case Count => Goto(s, t, Loop).(done := s.done[t := s.done[t] + 1])
    case Finished => s
  }

  /** The nodes are static and zero; all threads stand before their first loop test. */
  function Initial(n: nat): State {
    State(seq(n, _ => None), seq(n, _ => false), None, 0, 0, -1, seq(n, _ => Loop), seq(n, _ => 0), [], [], [])
  }

  // ----- the invariant ----------------------------------------------------

  predicate Owning(pc: Pc) {
    || pc.LoadCounter? || pc.StoreCounter? || pc.TestOwner? || pc.LoadHandoffs? || pc.StoreHandoffs? || pc.SetOwner?
    || pc.LoadNext? || pc.Cas? || pc.SpinNext? || pc.Pass?
  }

  predicate InLine(pc: Pc) {
    pc.Link? || pc.Spin? || Owning(pc)
  }

  /** Place i of the line, not the first: it waits, and is linked from its predecessor once past Link. */
  ghost predicate Waiter(s: State, i: nat)
    requires Shape(s) && 0 < i < |s.line|
  {
    && s.line[i] < |s.pc| && s.line[i - 1] < |s.pc| && s.line[i] != s.line[i - 1]
    && s.wait[s.line[i]]
    && (|| (s.pc[s.line[i]] == Link(s.line[i - 1]) && s.next[s.line[i - 1]] == None)
        || (s.pc[s.line[i]] == Spin && s.next[s.line[i - 1]] == Some(s.line[i])))
  }

  ghost predicate Head(s: State)
    requires Shape(s) && s.line != []
  {
    var h := s.line[0];
    && h < |s.pc|
    && (Owning(s.pc[h]) || (s.pc[h] == Spin && !s.wait[h]))
    && (s.pc[h].SpinNext? ==> |s.line| > 1)
    && (s.pc[h].Pass? ==> |s.line| > 1 && s.pc[h].next == s.line[1] && s.next[h] == Some(s.line[1]))
  }

  /** Two places of the line hold different threads. */
  predicate Apart(line: seq<nat>, i: nat, j: nat)
    requires i < |line| && j < |line|
  {
    line[i] != line[j]
  }

  ghost predicate LineOk(s: State)
    requires Shape(s)
  {
    && (forall i, j {:trigger Apart(s.line, i, j)} :: 0 <= i < j < |s.line| ==> Apart(s.line, i, j))
    && (forall t :: 0 <= t < |s.pc| ==> (t in s.line <==> InLine(s.pc[t])))
    && (s.line != [] ==> Head(s) && s.line[|s.line| - 1] < |s.pc| && s.next[s.line[|s.line| - 1]] == None)
    && s.tail == (if s.line == [] then None else Some(s.line[|s.line| - 1]))
    && (forall i {:trigger Waiter(s, i)} :: 0 < i < |s.line| ==> Waiter(s, i))
  }

  /** A thread about to exchange the tail has reset its node. */
  ghost predicate NodesReset(s: State)
    requires Shape(s)
  {
    forall t :: 0 <= t < |s.pc| ==>
      && (s.pc[t] == SetWait || s.pc[t] == Swap ==> s.next[t] == None)
      && (s.pc[t] == Swap ==> s.wait[t])
  }

  /** Threads enter in the order of their tail exchange: who has arrived but not entered is the rest of the line. */
  ghost predicate FifoOk(s: State) {
    if s.line != [] && s.line[0] < |s.pc| && Owning(s.pc[s.line[0]]) then
      s.entries != [] && s.entries[|s.entries| - 1] == s.line[0] && s.arrivals == s.entries + s.line[1..]
    else s.arrivals == s.entries + s.line
  }

  /** Critical sections whose increment is stored but whose loop turn is not counted yet. */
  function Pending(pc: Pc): int {
    if pc.TestOwner? || pc.LoadHandoffs? || pc.StoreHandoffs? || pc.SetOwner? || pc.LoadNext? || pc.Cas?
        || pc.SpinNext? || pc.Pass? || pc.Count?
    then 1 else 0
  }

  ghost function Turns(s: State): seq<int>
    requires Shape(s)
  {
    seq(|s.pc|, t requires 0 <= t < |s.pc| => s.done[t] + Pending(s.pc[t]))
  }

  ghost predicate CounterOk(s: State)
    requires Shape(s)
  {
    && s.counter == Sum(Turns(s))
    && forall t :: 0 <= t < |s.pc| && s.pc[t].StoreCounter? ==> s.pc[t].v == s.counter
  }

  /** How often the lock went to another thread than before, the first time included. */
  ghost function Changes(owners: seq<nat>): nat {
    if owners == [] then 0
    else Changes(owners[..|owners| - 1]) + if LastOf(owners[..|owners| - 1]) != owners[|owners| - 1] then 1 else 0
  }

  ghost function LastOf(owners: seq<nat>): int {
    if owners == [] then -1 else owners[|owners| - 1]
  }

  predicate Unsettled(pc: Pc) {
    pc.LoadCounter? || pc.StoreCounter? || pc.TestOwner? || pc.LoadHandoffs? || pc.StoreHandoffs? || pc.SetOwner?
  }

  /** Where the first of the line is; Loop stands for an empty line. */
  ghost function HeadPc(s: State): Pc {
    if s.line != [] && s.line[0] < |s.pc| then s.pc[s.line[0]] else Loop
  }

  /** The entries whose owner test is over. */
  ghost function Settled(s: State): seq<nat> {
    if s.entries != [] && Unsettled(HeadPc(s)) then s.entries[..|s.entries| - 1] else s.entries
  }

  /** lastOwner and handoffs describe the entries up to the one that is still being tested. */
  ghost predicate HandoffsOk(s: State) {
    var hp := HeadPc(s);
    && s.lastOwner == LastOf(Settled(s))
    && s.handoffs == Changes(Settled(s)) + (if hp.SetOwner? then 1 else 0)
    && (hp.LoadHandoffs? || hp.StoreHandoffs? || hp.SetOwner? ==> s.lastOwner != s.line[0])
    && (hp.StoreHandoffs? ==> hp.h == s.handoffs)
  }

  ghost predicate Inv(s: State) {
    Shape(s) && LineOk(s) && NodesReset(s) && FifoOk(s) && CounterOk(s) && HandoffsOk(s)
  }

  /** Mutual exclusion: the owner is the first of the line. */
  lemma OwnerIsHead(s: State, t: nat)
    requires Shape(s) && LineOk(s) && t < |s.pc| && Owning(s.pc[t])
    ensures s.line != [] && s.line[0] == t
  {
    forall i | 0 < i < |s.line| ensures s.line[i] != t { assert Waiter(s, i); }
    assert t in s.line;
  }

  lemma InRangeFromLine(s: State, t: nat)
    requires Shape(s) && LineOk(s) && t < |s.pc|
    ensures InRange(s, t)
  {
    if s.pc[t].Link? || s.pc[t].Pass? {
      var i :| 0 <= i < |s.line| && s.line[i] == t;
      if i > 0 { assert Waiter(s, i); } else if |s.line| > 1 { assert Waiter(s, 1); }
    }
  }

  lemma InitialInv(n: nat)
    ensures Inv(Initial(n))
  {
    SumZero(Turns(Initial(n)));
  }

  // ----- each step keeps the line -----------------------------------------

  lemma StepLine(s: State, t: nat, go: bool)
    requires Shape(s) && LineOk(s) && NodesReset(s) && t < |s.pc| && InRange(s, t)
    ensures LineOk(Step(s, t, go)) && NodesReset(Step(s, t, go))
  {
    match s.pc[t]
    case Swap => SwapLine(s, t, go);
    case Link(_) => LinkLine(s, t, go);
    case Pass(_) => PassLine(s, t, go);
    case Cas => CasLine(s, t, go);
    case Spin => SpinLine(s, t, go);
    case LoadNext => UnlockLine(s, t, go);
    case SpinNext => UnlockLine(s, t, go);
    case _ => if InLine(s.pc[t]) { SectionLine(s, t, go); } else { OutsiderLine(s, t, go); }
  }

  lemma OutsiderLine(s: State, t: nat, go: bool)
    requires Shape(s) && LineOk(s) && NodesReset(s) && t < |s.pc| && InRange(s, t)
    requires !InLine(s.pc[t]) && !s.pc[t].Swap?
    ensures LineOk(Step(s, t, go)) && NodesReset(Step(s, t, go))
  {
    OutsiderStays(s, t, go);
    OutsiderMoves(s, t, Step(s, t, go));
  }

  lemma SectionLine(s: State, t: nat, go: bool)
    requires Shape(s) && LineOk(s) && NodesReset(s) && t < |s.pc| && InRange(s, t) && Unsettled(s.pc[t])
    ensures LineOk(Step(s, t, go)) && NodesReset(Step(s, t, go))
  {
    OwnerMoves(s, t, Step(s, t, go));
  }

  /** A thread outside the line works on its own node. */
  ghost predicate OwnNodeOnly(s: State, t: nat, r: State)
    requires Shape(s) && t < |s.pc|
  {
    && Shape(r) && |r.pc| == |s.pc| && r.pc == s.pc[t := r.pc[t]] && !InLine(r.pc[t])
    && r.line == s.line && r.tail == s.tail
    && r.next == s.next[t := r.next[t]] && r.wait == s.wait[t := r.wait[t]]
    && (r.pc[t] == SetWait || r.pc[t] == Swap ==> r.next[t] == None)
    && (r.pc[t] == Swap ==> r.wait[t])
  }

  lemma OutsiderStays(s: State, t: nat, go: bool)
    requires Shape(s) && NodesReset(s) && t < |s.pc| && InRange(s, t) && !InLine(s.pc[t]) && !s.pc[t].Swap?
    ensures OwnNodeOnly(s, t, Step(s, t, go))
  {
  }

  lemma OutsiderMoves(s: State, t: nat, r: State)
    requires Shape(s) && LineOk(s) && NodesReset(s) && t < |s.pc| && !InLine(s.pc[t]) && OwnNodeOnly(s, t, r)
    ensures LineOk(r) && NodesReset(r)
  {
    assert t !in s.line;
    if |s.line| > 1 { assert Waiter(s, 1); }
    forall i | 0 < i < |r.line| ensures Waiter(r, i) { assert Waiter(s, i); }
  }

  /** The owner goes on, inside its critical section or in mcs_unlock. */
  lemma OwnerMoves(s: State, t: nat, r: State)
    requires Shape(s) && Shape(r) && LineOk(s) && NodesReset(s) && t < |s.pc|
    requires |r.pc| == |s.pc| && r.pc == s.pc[t := r.pc[t]] && Owning(s.pc[t]) && Owning(r.pc[t])
    requires r.line == s.line && r.tail == s.tail && r.next == s.next && r.wait == s.wait
    requires r.pc[t].SpinNext? ==> |s.line| > 1
    requires r.pc[t].Pass? ==> |s.line| > 1 && r.pc[t].next == s.line[1] && s.next[t] == Some(s.line[1])
    ensures LineOk(r) && NodesReset(r)
  {
    OwnerIsHead(s, t);
    forall i | 0 < i < |r.line| ensures Waiter(r, i) { assert Waiter(s, i); }
  }

  lemma UnlockLine(s: State, t: nat, go: bool)
    requires Shape(s) && LineOk(s) && NodesReset(s) && t < |s.pc| && (s.pc[t].LoadNext? || s.pc[t].SpinNext?)
    ensures LineOk(Step(s, t, go)) && NodesReset(Step(s, t, go))
  {
    OwnerIsHead(s, t);
    if |s.line| > 1 { assert Waiter(s, 1); }
    OwnerMoves(s, t, Step(s, t, go));
  }

  lemma SpinLine(s: State, t: nat, go: bool)
    requires Shape(s) && LineOk(s) && NodesReset(s) && t < |s.pc| && s.pc[t].Spin?
    ensures LineOk(Step(s, t, go)) && NodesReset(Step(s, t, go))
  {
    var r := Step(s, t, go);
    if !s.wait[t] {
      SpinWaiters(s, t, r);
      assert t in s.line;
    }
  }

  /** A thread whose flag is cleared is no waiter, and the waiters stay as they were. */
  lemma SpinWaiters(s: State, t: nat, r: State)
    requires Shape(s) && LineOk(s) && t < |s.pc| && s.pc[t].Spin? && !s.wait[t] && r == Step(s, t, false)
    ensures forall i :: 0 < i < |s.line| ==> s.line[i] != t
    ensures forall i {:trigger Waiter(r, i)} :: 0 < i < |r.line| ==> Waiter(r, i)
  {
    forall i | 0 < i < |s.line| ensures s.line[i] != t { assert Waiter(s, i); }
    forall i | 0 < i < |r.line| ensures Waiter(r, i) { assert Waiter(s, i); }
  }

  lemma SwapLine(s: State, t: nat, go: bool)
    requires Shape(s) && LineOk(s) && NodesReset(s) && t < |s.pc| && s.pc[t].Swap?
    ensures LineOk(Step(s, t, go)) && NodesReset(Step(s, t, go))
  {
    var r := Step(s, t, go);
    forall i | 0 < i < |r.line| ensures Waiter(r, i) {
      if i < |s.line| { assert Waiter(s, i); }
    }
    assert t !in s.line;
    forall i, j | 0 <= i < j < |r.line| ensures Apart(r.line, i, j) {
      if j < |s.line| { assert Apart(s.line, i, j); } else { assert s.line[i] in s.line; }
    }
  }

  lemma LinkLine(s: State, t: nat, go: bool)
    requires Shape(s) && LineOk(s) && NodesReset(s) && t < |s.pc| && s.pc[t].Link? && InRange(s, t)
    ensures LineOk(Step(s, t, go)) && NodesReset(Step(s, t, go))
  {
    var k :| 0 <= k < |s.line| && s.line[k] == t;
    assert k > 0 && Waiter(s, k);
    LinkPlace(s, t, k, Step(s, t, go));
  }

  lemma LinkPlace(s: State, t: nat, k: nat, r: State)
    requires Shape(s) && LineOk(s) && NodesReset(s) && 0 < k < |s.line| && s.line[k] == t < |s.pc|
    requires s.line[k - 1] < |s.pc|
    requires s.pc[t] == Link(s.line[k - 1]) && r == Goto(s, t, Spin).(next := s.next[s.line[k - 1] := Some(t)])
    ensures LineOk(r) && NodesReset(r)
  {
    assert Waiter(s, k);
    LinkWaiters(s, t, k, r);
    LinkResets(s, t, k, r);
    assert Apart(s.line, k - 1, |s.line| - 1);
  }

  /** The predecessor is in line, so its node is not one about to be used again. */
  lemma LinkResets(s: State, t: nat, k: nat, r: State)
    requires Shape(s) && LineOk(s) && NodesReset(s) && 0 < k < |s.line| && s.line[k] == t < |s.pc|
    requires s.line[k - 1] < |s.pc|
    requires s.pc[t] == Link(s.line[k - 1]) && r == Goto(s, t, Spin).(next := s.next[s.line[k - 1] := Some(t)])
    ensures NodesReset(r)
  {
    assert s.line[k - 1] in s.line;
  }

  /** Only the waiter at the link changes, and only from being about to link to being linked. */
  lemma LinkWaiters(s: State, t: nat, k: nat, r: State)
    requires Shape(s) && LineOk(s) && 0 < k < |s.line| && s.line[k] == t < |s.pc| && s.line[k - 1] < |s.pc|
    requires s.pc[t] == Link(s.line[k - 1]) && r == Goto(s, t, Spin).(next := s.next[s.line[k - 1] := Some(t)])
    ensures forall i {:trigger Waiter(r, i)} :: 0 < i < |r.line| ==> Waiter(r, i)
  {
    forall i | 0 < i < |r.line| ensures Waiter(r, i) {
      assert Waiter(s, i);
      assert i < k ==> Apart(s.line, i, k) && Apart(s.line, i - 1, k - 1);
      assert k < i ==> Apart(s.line, k, i) && Apart(s.line, k - 1, i - 1);
    }
  }

  lemma PassLine(s: State, t: nat, go: bool)
    requires Shape(s) && LineOk(s) && NodesReset(s) && t < |s.pc| && s.pc[t].Pass? && InRange(s, t)
    ensures LineOk(Step(s, t, go)) && NodesReset(Step(s, t, go))
  {
    var r := Step(s, t, go);
    OwnerIsHead(s, t);
    assert Waiter(s, 1);
    PassWaiters(s, t, r);
    forall i, j | 0 <= i < j < |r.line| ensures Apart(r.line, i, j) { assert Apart(s.line, i + 1, j + 1); }
    forall i | 0 < i < |s.line| ensures s.line[i] != t { assert Apart(s.line, 0, i); }
  }

  /** Those behind the successor wait as before, one place nearer to the front. */
  lemma PassWaiters(s: State, t: nat, r: State)
    requires Shape(s) && LineOk(s) && t < |s.pc| && s.pc[t].Pass? && |s.line| > 1 && s.line[0] == t
    requires s.line[1] < |s.pc|
    requires r == Goto(s, t, Count).(wait := s.wait[s.line[1] := false], line := s.line[1..])
    ensures forall i {:trigger Waiter(r, i)} :: 0 < i < |r.line| ==> Waiter(r, i)
  {
    forall i | 0 < i < |r.line| ensures Waiter(r, i) {
      assert Waiter(s, i + 1) && Apart(s.line, 0, i + 1) && Apart(s.line, 1, i + 1) && Apart(s.line, 0, i);
    }
  }

  /** The compare-and-exchange succeeds only for a thread that is alone in line. */
  lemma CasAlone(s: State, t: nat)
    requires Shape(s) && LineOk(s) && t < |s.pc| && Owning(s.pc[t])
    ensures s.tail == Some(t) ==> s.line == [t]
  {
    OwnerIsHead(s, t);
    if |s.line| > 1 { assert Apart(s.line, 0, |s.line| - 1); }
  }

  lemma CasLine(s: State, t: nat, go: bool)
    requires Shape(s) && LineOk(s) && NodesReset(s) && t < |s.pc| && s.pc[t].Cas?
    ensures LineOk(Step(s, t, go)) && NodesReset(Step(s, t, go))
  {
    var r := Step(s, t, go);
    OwnerIsHead(s, t);
    CasAlone(s, t);
    if s.tail == Some(t) {
      assert r.line == [];
      assert forall u :: 0 <= u < |s.pc| && u != t ==> u !in s.line;
    } else {
      OwnerMoves(s, t, r);
    }
  }

  // ----- order of entry, and what the lock protects -----------------------

  lemma StepFifo(s: State, t: nat, go: bool)
    requires Shape(s) && LineOk(s) && FifoOk(s) && t < |s.pc| && InRange(s, t)
    ensures FifoOk(Step(s, t, go))
  {
    var r := Step(s, t, go);
    if s.pc[t].Swap? {
      SwapFifo(s, t, go);
    } else if s.pc[t].Spin? {
      SpinFifo(s, t, go);
    } else if s.pc[t].Pass? || s.pc[t].Cas? {
      LeaveFifo(s, t, go);
    } else {
      StepKeepsRecords(s, t, go);
      SameFifo(s, t, r);
    }
  }

  /** What every step leaves alone in the other threads. */
  lemma StepIsLocal(s: State, t: nat, go: bool)
    requires Shape(s) && t < |s.pc| && InRange(s, t)
    ensures var r := Step(s, t, go);
      && Shape(r) && |r.pc| == |s.pc|
      && r.pc == s.pc[t := r.pc[t]] && r.done == s.done[t := r.done[t]]
  {
  }

  lemma StepKeepsRecords(s: State, t: nat, go: bool)
    requires Shape(s) && t < |s.pc| && InRange(s, t)
    requires !s.pc[t].Swap? && !s.pc[t].Spin? && !s.pc[t].Pass? && !s.pc[t].Cas?
    ensures var r := Step(s, t, go);
      && Shape(r) && |r.pc| == |s.pc| && r.pc == s.pc[t := r.pc[t]]
      && r.line == s.line && r.entries == s.entries && r.arrivals == s.arrivals
      && (Owning(r.pc[t]) <==> Owning(s.pc[t]))
  {
  }

  lemma SpinFifo(s: State, t: nat, go: bool)
    requires Shape(s) && LineOk(s) && FifoOk(s) && t < |s.pc| && s.pc[t].Spin?
    ensures FifoOk(Step(s, t, go))
  {
    if !s.wait[t] {
      SpinnerIsHead(s, t);
      assert s.line == [t] + s.line[1..];
      assert s.entries + s.line == (s.entries + [t]) + s.line[1..];
    }
  }

  lemma SameFifo(s: State, t: nat, r: State)
    requires Shape(s) && Shape(r) && LineOk(s) && FifoOk(s) && t < |s.pc|
    requires r.line == s.line && r.entries == s.entries && r.arrivals == s.arrivals
    requires |r.pc| == |s.pc| && r.pc == s.pc[t := r.pc[t]] && (Owning(r.pc[t]) <==> Owning(s.pc[t]))
    ensures FifoOk(r)
  {
  }

  lemma SwapFifo(s: State, t: nat, go: bool)
    requires Shape(s) && LineOk(s) && FifoOk(s) && t < |s.pc| && s.pc[t].Swap?
    ensures FifoOk(Step(s, t, go))
  {
    assert t !in s.line;
    if s.line == [] {
      assert s.line + [t] == [t];
    } else {
      assert (s.line + [t])[1..] == s.line[1..] + [t];
      assert s.line[0] in s.line;
    }
  }

  lemma LeaveFifo(s: State, t: nat, go: bool)
    requires Shape(s) && LineOk(s) && FifoOk(s) && t < |s.pc| && (s.pc[t].Pass? || s.pc[t].Cas?) && InRange(s, t)
    ensures FifoOk(Step(s, t, go))
  {
    OwnerIsHead(s, t);
    CasAlone(s, t);
    if s.pc[t].Pass? { assert Waiter(s, 1); }
  }

  lemma SpinnerIsHead(s: State, t: nat)
    requires Shape(s) && LineOk(s) && t < |s.pc| && s.pc[t].Spin? && !s.wait[t]
    ensures s.line != [] && s.line[0] == t
  {
    forall i | 0 < i < |s.line| ensures s.line[i] != t { assert Waiter(s, i); }
    assert t in s.line;
  }

  lemma StepCounter(s: State, t: nat, go: bool)
    requires Shape(s) && LineOk(s) && CounterOk(s) && t < |s.pc| && InRange(s, t)
    ensures CounterOk(Step(s, t, go))
  {
    StepIsLocal(s, t, go);
    TurnCounted(s, t, Step(s, t, go));
    if s.pc[t].StoreCounter? {
      forall u | 0 <= u < |s.pc| && u != t ensures !s.pc[u].StoreCounter? { NotOwner(s, t, u); }
    } else {
      StepKeepsTurns(s, t, go);
    }
  }

  lemma StepKeepsTurns(s: State, t: nat, go: bool)
    requires Shape(s) && t < |s.pc| && InRange(s, t) && !s.pc[t].StoreCounter?
    ensures var r := Step(s, t, go);
      && r.counter == s.counter && |r.pc| == |r.done| == |s.pc|
      && r.done[t] + Pending(r.pc[t]) == s.done[t] + Pending(s.pc[t])
      && (r.pc[t].StoreCounter? ==> r.pc[t].v == s.counter)
  {
  }

  lemma TurnCounted(s: State, t: nat, r: State)
    requires Shape(s) && Shape(r) && t < |s.pc| && |r.pc| == |s.pc|
    requires r.pc == s.pc[t := r.pc[t]] && r.done == s.done[t := r.done[t]]
    ensures Sum(Turns(r)) == Sum(Turns(s)) - (s.done[t] + Pending(s.pc[t])) + (r.done[t] + Pending(r.pc[t]))
  {
    SumUpdate(Turns(s), t, r.done[t] + Pending(r.pc[t]));
    assert Turns(r) == Turns(s)[t := r.done[t] + Pending(r.pc[t])];
  }

  /** Two threads are never both past the lock. */
  lemma NotOwner(s: State, t: nat, u: nat)
    requires Shape(s) && LineOk(s) && t < |s.pc| && u < |s.pc| && t != u && Owning(s.pc[t])
    ensures !Owning(s.pc[u])
  {
    OwnerIsHead(s, t);
    if Owning(s.pc[u]) { OwnerIsHead(s, u); }
  }

  lemma StepHandoffs(s: State, t: nat, go: bool)
    requires Inv(s) && t < |s.pc| && InRange(s, t)
    ensures HandoffsOk(Step(s, t, go))
  {
    if s.pc[t].Pass? {
      PassHandoffs(s, t, go);
    } else if s.pc[t].Cas? {
      CasHandoffs(s, t, go);
    } else if s.pc[t].Swap? {
      SwapHandoffs(s, t, go);
    } else if s.pc[t].Spin? {
      SpinHandoffs(s, t, go);
    } else if Owning(s.pc[t]) {
      OwnerIsHead(s, t);
      if Unsettled(s.pc[t]) { SectionHandoffs(s, t, go); } else { UnlockHandoffs(s, t, go); }
    } else {
      OtherHandoffs(s, t, go);
    }
  }

  lemma SwapHandoffs(s: State, t: nat, go: bool)
    requires Shape(s) && LineOk(s) && HandoffsOk(s) && t < |s.pc| && s.pc[t].Swap?
    ensures HandoffsOk(Step(s, t, go))
  {
    assert (s.entries + [t])[..|s.entries|] == s.entries;
    assert t !in s.line;
    if s.line != [] { assert s.line[0] in s.line; }
  }

  lemma SpinHandoffs(s: State, t: nat, go: bool)
    requires Shape(s) && LineOk(s) && HandoffsOk(s) && t < |s.pc| && s.pc[t].Spin?
    ensures HandoffsOk(Step(s, t, go))
  {
    assert (s.entries + [t])[..|s.entries|] == s.entries;
    if !s.wait[t] { SpinnerIsHead(s, t); }
  }

  lemma PassHandoffs(s: State, t: nat, go: bool)
    requires Shape(s) && LineOk(s) && HandoffsOk(s) && t < |s.pc| && s.pc[t].Pass? && InRange(s, t)
    ensures HandoffsOk(Step(s, t, go))
  {
    OwnerIsHead(s, t);
    assert Waiter(s, 1);
  }

  lemma CasHandoffs(s: State, t: nat, go: bool)
    requires Shape(s) && LineOk(s) && HandoffsOk(s) && t < |s.pc| && s.pc[t].Cas?
    ensures HandoffsOk(Step(s, t, go))
  {
    OwnerIsHead(s, t);
    CasAlone(s, t);
  }

  lemma SectionHandoffs(s: State, t: nat, go: bool)
    requires Shape(s) && FifoOk(s) && HandoffsOk(s) && t < |s.pc| && s.line != [] && s.line[0] == t
    requires Unsettled(s.pc[t])
    ensures HandoffsOk(Step(s, t, go))
  {
    assert s.entries[|s.entries| - 1] == t;
    if s.pc[t].TestOwner? || s.pc[t].SetOwner? { LastChange(s.entries); }
  }

  /** The count of changes, one entry further. */
  lemma LastChange(owners: seq<nat>)
    requires owners != []
    ensures var before := owners[..|owners| - 1];
      && LastOf(owners) == owners[|owners| - 1]
      && Changes(owners) == Changes(before) + if LastOf(before) != owners[|owners| - 1] then 1 else 0
  {
  }

  lemma UnlockHandoffs(s: State, t: nat, go: bool)
    requires Shape(s) && HandoffsOk(s) && t < |s.pc| && s.line != [] && s.line[0] == t
    requires s.pc[t].LoadNext? || s.pc[t].SpinNext?
    ensures HandoffsOk(Step(s, t, go))
  {
  }

  lemma OtherHandoffs(s: State, t: nat, go: bool)
    requires Shape(s) && LineOk(s) && HandoffsOk(s) && t < |s.pc| && InRange(s, t)
    requires !Owning(s.pc[t]) && !s.pc[t].Swap? && !s.pc[t].Spin?
    ensures HandoffsOk(Step(s, t, go))
  {
    StepKeepsRecords(s, t, go);
    assert Step(s, t, go).lastOwner == s.lastOwner && Step(s, t, go).handoffs == s.handoffs;
  }

  // ----- whole runs -------------------------------------------------------

  lemma StepInv(s: State, t: nat, go: bool)
    requires Inv(s) && t < |s.pc|
    ensures InRange(s, t) && Inv(Step(s, t, go)) && |Step(s, t, go).pc| == |s.pc|
  {
    InRangeFromLine(s, t);
    StepIsLocal(s, t, go);
    StepLine(s, t, go);
    StepFifo(s, t, go);
    StepCounter(s, t, go);
    StepHandoffs(s, t, go);
  }

  datatype Turn = Turn(t: nat, go: bool)

  predicate Schedule(n: nat, turns: seq<Turn>) {
    forall k :: 0 <= k < |turns| ==> turns[k].t < n
  }

  /** Every node that is referred to is the node of a thread, so every thread has a next step. */
  ghost predicate Bounded(s: State) {
    && Shape(s) && (s.tail.Some? ==> s.tail.value < |s.pc|)
    && (forall t :: 0 <= t < |s.next| && s.next[t].Some? ==> s.next[t].value < |s.pc|)
    && (forall t {:trigger InRange(s, t)} :: 0 <= t < |s.pc| ==> InRange(s, t))
  }

  lemma StepBounded(s: State, t: nat, go: bool)
    requires Bounded(s) && t < |s.pc|
    ensures InRange(s, t) && Bounded(Step(s, t, go)) && |Step(s, t, go).pc| == |s.pc|
  {
    assert InRange(s, t);
    var r := Step(s, t, go);
    StepIsLocal(s, t, go);
    StepFollows(s, t, go);
    StepPoints(s, t, go);
    forall u | 0 <= u < |r.pc| && u != t ensures InRange(r, u) { assert InRange(s, u); }
  }

  lemma StepFollows(s: State, t: nat, go: bool)
    requires Bounded(s) && t < |s.pc| && InRange(s, t)
    ensures var pc := Step(s, t, go).pc;
      |pc| == |s.pc| && (pc[t].Link? ==> pc[t].prev < |s.pc|) && (pc[t].Pass? ==> pc[t].next < |s.pc|)
  {
    if s.pc[t].LoadNext? || s.pc[t].SpinNext? {
      assert s.next[t].Some? ==> s.next[t].value < |s.pc|;
    } else if s.pc[t].Swap? {
      assert s.tail.Some? ==> s.tail.value < |s.pc|;
    } else {
      StepElsewhere(s, t, go);
    }
  }

  /** Only these steps of a thread make it refer to another. */
  lemma StepElsewhere(s: State, t: nat, go: bool)
    requires Bounded(s) && t < |s.pc| && InRange(s, t) && !s.pc[t].LoadNext? && !s.pc[t].SpinNext? && !s.pc[t].Swap?
    ensures var pc := Step(s, t, go).pc; |pc| == |s.pc| && !pc[t].Link? && !pc[t].Pass?
  {
    if Owning(s.pc[t]) { OwnerElsewhere(s, t, go); }
  }

  lemma OwnerElsewhere(s: State, t: nat, go: bool)
    requires Bounded(s) && t < |s.pc| && InRange(s, t) && Owning(s.pc[t]) && !s.pc[t].LoadNext? && !s.pc[t].SpinNext?
    ensures var pc := Step(s, t, go).pc; |pc| == |s.pc| && !pc[t].Link? && !pc[t].Pass?
  {
  }

  lemma StepPoints(s: State, t: nat, go: bool)
    requires Bounded(s) && t < |s.pc| && InRange(s, t)
    ensures var r := Step(s, t, go);
      && |r.pc| == |s.pc| && (r.tail.Some? ==> r.tail.value < |s.pc|)
      && (forall u :: 0 <= u < |r.next| && r.next[u].Some? ==> r.next[u].value < |s.pc|)
  {
  }

  /** The state after n threads have run under any schedule. */
  ghost function After(n: nat, turns: seq<Turn>): (s: State)
    requires Schedule(n, turns)
    ensures Bounded(s) && |s.pc| == n
  {
    if turns == [] then Initial(n)
    else
      var s, turn := After(n, turns[..|turns| - 1]), turns[|turns| - 1];
      StepBounded(s, turn.t, turn.go);
      Step(s, turn.t, turn.go)
  }

  lemma {:induction false} RunInv(n: nat, turns: seq<Turn>)
    requires Schedule(n, turns)
    ensures Inv(After(n, turns))
  {
    if turns == [] {
      InitialInv(n);
    } else {
      var turn := turns[|turns| - 1];
      RunInv(n, turns[..|turns| - 1]);
      StepInv(After(n, turns[..|turns| - 1]), turn.t, turn.go);
    }
  }

  lemma {:induction false} OneMore(n: nat, turns: seq<Turn>, k: nat)
    requires Schedule(n, turns) && k < |turns|
    ensures var s := After(n, turns[..k]);
      && InRange(s, turns[k].t) && After(n, turns[..k + 1]) == Step(s, turns[k].t, turns[k].go)
  {
    assert turns[..k + 1][..k] == turns[..k];
    StepBounded(After(n, turns[..k]), turns[k].t, turns[k].go);
  }

  /** At most one thread is between the lock and the end of its unlock, and it is the first of the line. */
  lemma {:induction false} MutualExclusion(n: nat, turns: seq<Turn>, t: nat, u: nat)
    requires Schedule(n, turns) && t < n && u < n && t != u
    ensures !(Owning(After(n, turns).pc[t]) && Owning(After(n, turns).pc[u]))
  {
    RunInv(n, turns);
    var s := After(n, turns);
    if Owning(s.pc[t]) { NotOwner(s, t, u); }
  }

  /** Threads enter in the order in which they exchanged the tail, each arrival once. */
  lemma {:induction false} FirstComeFirstServed(n: nat, turns: seq<Turn>)
    requires Schedule(n, turns)
    ensures var s := After(n, turns);
      s.entries <= s.arrivals && s.arrivals[|s.entries|..] == (if Owning(HeadPc(s)) then s.line[1..] else s.line)
  {
    RunInv(n, turns);
  }

  lemma HeadMoves(s: State, go: bool)
    requires Shape(s) && LineOk(s) && s.line != [] && InRange(s, s.line[0])
    requires s.pc[s.line[0]].SpinNext? ==> s.next[s.line[0]] != None
    ensures Step(s, s.line[0], go).pc[s.line[0]] != s.pc[s.line[0]]
  {
  }

  /** An owner that waits for its successor's link: the successor is about to store it. */
  lemma SuccessorMoves(s: State, go: bool)
    requires Shape(s) && LineOk(s) && s.line != [] && s.pc[s.line[0]].SpinNext? && s.next[s.line[0]] == None
    ensures |s.line| > 1 && s.line[1] < |s.pc| && InRange(s, s.line[1]) && Step(s, s.line[1], go) != s
  {
    assert Waiter(s, 1);
    assert Step(s, s.line[1], go).pc[s.line[1]] == Spin;
  }

  ghost predicate CanMove(s: State, t: nat, go: bool)
    requires Shape(s)
  {
    t < |s.pc| && InRange(s, t) && Step(s, t, go) != s
  }

  lemma LineMoves(s: State, go: bool) returns (t: nat)
    requires Shape(s) && LineOk(s) && s.line != []
    ensures t in s.line && CanMove(s, t, go)
  {
    t := s.line[0];
    InRangeFromLine(s, t);
    if s.pc[t].SpinNext? && s.next[t] == None {
      SuccessorMoves(s, go);
      t := s.line[1];
    } else {
      HeadMoves(s, go);
    }
  }

  /** While somebody is in line, some thread in line changes the state with its next access. */
  lemma {:induction false} SomeoneProgresses(n: nat, turns: seq<Turn>, go: bool)
    requires Schedule(n, turns)
    ensures var s := After(n, turns); s.line != [] ==> exists t :: t in s.line && CanMove(s, t, go)
  {
    RunInv(n, turns);
    var s := After(n, turns);
    if s.line != [] { var t := LineMoves(s, go); }
  }

  lemma AllFinished(s: State)
    requires Inv(s) && forall t :: 0 <= t < |s.pc| ==> s.pc[t].Finished?
    ensures s.line == [] && s.counter == Sum(s.done) && s.handoffs == Changes(s.entries)
  {
    assert Turns(s) == s.done;
  }

  /** When all threads are done, the unprotected counter has lost no increment. */
  lemma {:induction false} CounterIsExact(n: nat, turns: seq<Turn>)
    requires Schedule(n, turns) && forall t :: 0 <= t < n ==> After(n, turns).pc[t].Finished?
    ensures var s := After(n, turns);
      s.counter == Sum(s.done) && s.handoffs == Changes(s.entries) && s.line == []
  {
    RunInv(n, turns);
    AllFinished(After(n, turns));
  }

  // ----- how often a thread takes the lock ---------------------------------

  /** Turn k is a loop test of thread t that succeeds. */
  ghost predicate Enters(n: nat, turns: seq<Turn>, k: nat, t: nat)
    requires Schedule(n, turns) && k < |turns| && t < n
  {
    turns[k].t == t && turns[k].go && After(n, turns[..k]).pc[t].Loop?
  }

  /** How many of the first k turns are. */
  ghost function Tests(n: nat, turns: seq<Turn>, k: nat, t: nat): nat
    requires Schedule(n, turns) && k <= |turns| && t < n
  {
    if k == 0 then 0 else Tests(n, turns, k - 1, t) + if Enters(n, turns, k - 1, t) then 1 else 0
  }

  /** Between the successful test and the count of its turn. */
  predicate InTurn(pc: Pc) {
    !pc.Loop? && !pc.Finished?
  }

  lemma StepTurns(s: State, t: nat, u: nat, go: bool)
    requires Bounded(s) && t < |s.pc| && u < |s.pc| && InRange(s, u)
    ensures var r := Step(s, u, go);
      && |r.pc| == |r.done| == |s.pc|
      && r.done[t] + (if InTurn(r.pc[t]) then 1 else 0)
         == s.done[t] + (if InTurn(s.pc[t]) then 1 else 0) + (if u == t && go && s.pc[t].Loop? then 1 else 0)
  {
    StepIsLocal(s, u, go);
    if u == t { OwnTurn(s, t, go); }
  }

  lemma OwnTurn(s: State, t: nat, go: bool)
    requires Bounded(s) && t < |s.pc| && InRange(s, t)
    ensures var r := Step(s, t, go);
      && |r.pc| == |r.done| == |s.pc|
      && r.done[t] + (if InTurn(r.pc[t]) then 1 else 0)
         == s.done[t] + (if InTurn(s.pc[t]) then 1 else 0) + (if go && s.pc[t].Loop? then 1 else 0)
  {
  }

  lemma {:induction false} TurnsAreCounted(n: nat, turns: seq<Turn>, k: nat, t: nat)
    requires Schedule(n, turns) && k <= |turns| && t < n
    ensures var s := After(n, turns[..k]); s.done[t] + (if InTurn(s.pc[t]) then 1 else 0) == Tests(n, turns, k, t)
  {
    if k > 0 {
      TurnsAreCounted(n, turns, k - 1, t);
      OneMore(n, turns, k - 1);
      StepTurns(After(n, turns[..k - 1]), t, turns[k - 1].t, turns[k - 1].go);
    }
  }

  /** A thread that has ended has gone through the lock once for every loop test that succeeded. */
  lemma {:induction false} DoneIsExact(n: nat, turns: seq<Turn>, t: nat)
    requires Schedule(n, turns) && t < n && After(n, turns).pc[t].Finished?
    ensures After(n, turns).done[t] == Tests(n, turns, |turns|, t)
  {
    assert turns[..|turns|] == turns;
    TurnsAreCounted(n, turns, |turns|, t);
  }

  // ----- the benchmark, updated in place ----------------------------------

  /** The static nodes, the tail word, the shared counters and the threads. */
  class Bench {
    const next: array<Option<nat>>
    const wait: array<bool>
    var tail: Option<nat>
    var counter: int
    var handoffs: int
    var lastOwner: int
    const pc: array<Pc>
    const done: array<nat>
    ghost var line: seq<nat>
    ghost var arrivals: seq<nat>
    ghost var entries: seq<nat>

    ghost function View(): State
      reads this, next, wait, pc, done
    {
      State(next[..], wait[..], tail, counter, handoffs, lastOwner, pc[..], done[..], line, arrivals, entries)
    }

    ghost predicate Ready(t: nat)
      reads this, next, wait, pc, done
    {
      Shape(View()) && t < pc.Length && InRange(View(), t)
    }

    constructor (n: nat)
      ensures View() == Initial(n) && fresh(next) && fresh(wait) && fresh(pc) && fresh(done)
    {
      next := new Option<nat>[n](_ => None);
      wait := new bool[n](_ => false);
      pc := new Pc[n](_ => Loop);
      done := new nat[n](_ => 0);
      tail, counter, handoffs, lastOwner := None, 0, 0, -1;
      line, arrivals, entries := [], [], [];
    }

    /** One access of mcs_lock. */
    method LockAccess(t: nat, ghost go: bool)
      requires Ready(t) && (pc[t].SetNext? || pc[t].SetWait? || pc[t].Swap? || pc[t].Link? || pc[t].Spin?)
      modifies this, next, wait, pc
      ensures View() == Step(old(View()), t, go)
    {
      match pc[t]
      case SetNext =>
        next[t] := None;
        pc[t] := SetWait;
      case SetWait =>
        wait[t] := true;
        pc[t] := Swap;
      case Swap =>
        Exchange(t, go);
      case Link(prev) =>
        next[prev] := Some(t);
        pc[t] := Spin;
      case Spin =>
        if !wait[t] {
          pc[t] := LoadCounter;
          entries := entries + [t];
        }
    }

    method Exchange(t: nat, ghost go: bool)
      requires Ready(t) && pc[t].Swap?
      modifies this, pc
      ensures View() == Step(old(View()), t, go)
    {
      var prev := tail;
      tail := Some(t);
      line, arrivals := line + [t], arrivals + [t];
      if prev == None {
        pc[t] := LoadCounter;
        entries := entries + [t];
      } else {
        pc[t] := Link(prev.value);
      }
    }

    /** One access of the critical section. */
    method SectionAccess(t: nat, ghost go: bool)
      requires Ready(t) && Unsettled(pc[t])
      modifies this, pc
      ensures View() == Step(old(View()), t, go)
    {
      match pc[t]
      case LoadCounter => pc[t] := StoreCounter(counter);
      case StoreCounter(v) =>
        counter := v + 1;
        pc[t] := TestOwner;
      case TestOwner => pc[t] := if lastOwner != t then LoadHandoffs else LoadNext;
      case LoadHandoffs => pc[t] := StoreHandoffs(handoffs);
      case StoreHandoffs(h) =>
        handoffs := h + 1;
        pc[t] := SetOwner;
      case SetOwner =>
        lastOwner := t;
        pc[t] := LoadNext;
    }

    /** One access of mcs_unlock. */
    method UnlockAccess(t: nat, ghost go: bool)
      requires Ready(t) && (pc[t].LoadNext? || pc[t].Cas? || pc[t].SpinNext? || pc[t].Pass?)
      modifies this, wait, pc
      ensures View() == Step(old(View()), t, go)
    {
      match pc[t]
      case LoadNext => pc[t] := if next[t] == None then Cas else Pass(next[t].value);
      case Cas =>
        if tail == Some(t) {
          tail := None;
          pc[t] := Count;
          line := if line == [] then [] else line[1..];
        } else {
          pc[t] := SpinNext;
        }
      case SpinNext =>
        if next[t] != None { pc[t] := Pass(next[t].value); }
      case Pass(n) =>
        wait[n] := false;
        pc[t] := Count;
        line := if line == [] then [] else line[1..];
    }

    /** One access of the worker, wherever it is. */
    method Access(t: nat, go: bool)
      requires Ready(t)
      modifies this, next, wait, pc, done
      ensures View() == Step(old(View()), t, go)
    {
      var at := pc[t];
      if at.Loop? {
        pc[t] := if go then SetNext else Finished;
      } else if at.Count? {
        done[t] := done[t] + 1;
        pc[t] := Loop;
      } else if Unsettled(at) {
        SectionAccess(t, go);
      } else if at.LoadNext? || at.Cas? || at.SpinNext? || at.Pass? {
        UnlockAccess(t, go);
      } else if !at.Finished? {
        LockAccess(t, go);
      }
    }

    /** The threads run under a schedule. */
    method Run(turns: seq<Turn>)
      requires View() == Initial(pc.Length) && Schedule(pc.Length, turns)
      modifies this, next, wait, pc, done
      ensures View() == After(pc.Length, turns)
    {
      var k := 0;
      assert turns[..0] == [];
      while k < |turns|
        invariant k <= |turns| && View() == After(pc.Length, turns[..k])
      {
        OneMore(pc.Length, turns, k);
        Access(turns[k].t, turns[k].go);
        k := k + 1;
      }
      assert turns[..k] == turns;
    }

    /** The report of main: the total of the threads and whether the counter disagrees with it. */
    method Report() returns (total: nat, lost: bool)
      ensures total == Sum(done[..]) && lost == (counter != total)
      ensures Inv(View()) && (forall t :: 0 <= t < pc.Length ==> pc[t].Finished?) ==> !lost
    {
      total := 0;
      var i := done.Length;
      assert done[i..] == [];
      while i > 0
        invariant i <= done.Length && total == Sum(done[i..])
      {
        i := i - 1;
        total := total + done[i];
        assert done[i..] == [done[i]] + done[i + 1..];
      }
      assert done[0..] == done[..];
      lost := counter != total;
      if Inv(View()) && (forall t :: 0 <= t < pc.Length ==> pc[t].Finished?) { AllFinished(View()); }
    }
  }
}
