/** The request service of svc.c: a receiver that queues requests, a worker that
    picks and serves them, and the worker's priority that both adjust. Every
    section under qlock is one step. */
module Svc {

  datatype Item = Item(id: nat, prio: int, fd: int, tag: nat)

  /** Options and the capacity of the queue. */
  datatype Setup = Setup(inherit: bool, byPrio: bool, base: int, qmax: nat)

  datatype Worker = Ready | Waiting(signalled: bool) | Serving(it: Item, prioNow: int, queued: nat) | Ended

  /** What the client is sent: whose request, the priority it was served at, and how many were left queued. */
  datatype Reply = Reply(fd: int, id: nat, prio: int, queued: nat)

  /** The queue in its array order, the next sequence number, the worker and its priority. The rest
      records the past: requests accepted, requests picked in order, replies sent, how many were
      accepted before the worker ended, and whether the last priority change asked for worked. */
  datatype State = State(
    q: seq<Item>, tag: nat, prio: int, boosts: nat, stop: bool, worker: Worker,
    accepted: seq<Item>, taken: seq<Item>, served: nat, replies: seq<Reply>, atEnd: nat, exact: bool)

  /** The program exits when the base priority is not a real-time priority. */
  predicate Valid(p: Setup) {
    1 <= p.base <= 99
  }

  // ----- the queue --------------------------------------------------------

  function Max(a: int, b: int): int {
    if a > b then a else b
  }

  function QueueMax(q: seq<Item>): (m: int)
    ensures 0 <= m && forall i :: 0 <= i < |q| ==> q[i].prio <= m
    ensures m == 0 || exists i :: 0 <= i < |q| && q[i].prio == m
  {
    if q == [] then 0 else Max(QueueMax(q[..|q| - 1]), q[|q| - 1].prio)
  }

  /** a is to be served before b. */
  predicate Before(byPrio: bool, a: Item, b: Item) {
    if byPrio then a.prio > b.prio || (a.prio == b.prio && a.tag < b.tag) else a.tag < b.tag
  }

  /** The loop of pick from index i on, with the best index so far. */
  function PickFrom(byPrio: bool, q: seq<Item>, best: nat, i: nat): (r: nat)
    requires best < i <= |q|
    ensures r < |q|
    decreases |q| - i
  {
    if i == |q| then best else PickFrom(byPrio, q, if Before(byPrio, q[i], q[best]) then i else best, i + 1)
  }

  /** The program fills the hole with the last item. */
  function Removed(q: seq<Item>, i: nat): seq<Item>
    requires i < |q|
  {
    if i == |q| - 1 then q[..i] else q[..|q| - 1][i := q[|q| - 1]]
  }

  lemma {:induction false} PickIsFirst(byPrio: bool, q: seq<Item>, best: nat, i: nat)
    requires best < i <= |q| && forall k :: 0 <= k < i ==> !Before(byPrio, q[k], q[best])
    ensures forall k :: 0 <= k < |q| ==> !Before(byPrio, q[k], q[PickFrom(byPrio, q, best, i)])
    decreases |q| - i
  {
    if i < |q| { PickIsFirst(byPrio, q, if Before(byPrio, q[i], q[best]) then i else best, i + 1); }
  }

  lemma RemovedIsRest(q: seq<Item>, i: nat)
    requires i < |q|
    ensures multiset(q) == multiset(Removed(q, i)) + multiset{q[i]}
    ensures forall k :: 0 <= k < |q| - 1 ==> Removed(q, i)[k] in q
  {
    assert q == q[..|q| - 1] + [q[|q| - 1]];
  }

  // ----- the steps --------------------------------------------------------

  /** set_worker_prio; ok is the outcome of pthread_setschedparam. */
  function SetPrio(s: State, want: int, ok: bool): State {
    if want == s.prio then s.(exact := true)
    else if !ok then s.(exact := false)
    else s.(prio := want, boosts := if want > s.prio then s.boosts + 1 else s.boosts, exact := true)
  }

  /** The receiver's section: queue a request, unless the queue is full, and raise the worker. */
  function Receive(p: Setup, s: State, id: nat, prio: int, fd: int, ok: bool): State {
    if p.qmax <= |s.q| then s
    else
      var it := Item(id, prio, fd, s.tag);
      var r := s.(q := s.q + [it], tag := s.tag + 1, accepted := s.accepted + [it]);
      var raised := if p.inherit && prio > s.prio then SetPrio(r, prio, ok).(exact := ok && s.exact) else r;
      raised.(worker := if s.worker.Waiting? then Waiting(true) else s.worker)
  }

  function Want(p: Setup, it: Item, rest: seq<Item>): int {
    Max(Max(it.prio, QueueMax(rest)), p.base)
  }

  /** The worker's section: wait, leave, or pick a request and set the priority to serve it at. */
  function Work(p: Setup, s: State, ok: bool): State {
    if s.q == [] && !s.stop then
      (if p.inherit then SetPrio(s, p.base, ok) else s).(worker := Waiting(false))
    else if s.q == [] then s.(worker := Ended, atEnd := |s.accepted|)
    else
      var i := PickFrom(p.byPrio, s.q, 0, 1);
      var it := s.q[i];
      var r := s.(q := Removed(s.q, i), taken := s.taken + [it]);
      var adjusted := if p.inherit then SetPrio(r, Want(p, it, r.q), ok) else r;
      adjusted.(worker := Serving(it, adjusted.prio, |r.q|))
  }

  function Answer(w: Worker): Reply
    requires w.Serving?
  {
    Reply(w.it.fd, w.it.id, w.prioNow, w.queued)
  }

  datatype Turn = Recv(id: nat, prio: int, fd: int, ok: bool) | WorkerTurn(ok: bool) | Stop | Broadcast

  /** A waiting worker's own turn is a wakeup, signalled or spurious. */
  function Step(p: Setup, s: State, turn: Turn): State {
    match turn
    case Recv(id, prio, fd, ok) => Receive(p, s, id, prio, fd, ok)
    case WorkerTurn(ok) =>
      if s.worker.Ended? then s
      else if s.worker.Serving? then s.(worker := Ready, served := s.served + 1,
          replies := s.replies + [Answer(s.worker)])
      else Work(p, s, ok)
    case Stop => s.(stop := true)
    case Broadcast => s.(stop := true, worker := if s.worker.Waiting? then Waiting(true) else s.worker)
  }

  function Initial(p: Setup): State {
    State([], 0, p.base, 0, false, Ready, [], [], 0, [], 0, true)
  }

  // ----- the invariant ----------------------------------------------------

  /** Sequence numbers are the places in the order of acceptance. */
  ghost predicate Tagged(s: State) {
    s.tag == |s.accepted| && forall k :: 0 <= k < |s.accepted| ==> s.accepted[k].tag == k
  }

  /** Every accepted request is queued or picked, once. */
  ghost predicate Conserved(p: Setup, s: State) {
    && |s.q| <= p.qmax
    && multiset(s.accepted) == multiset(s.q) + multiset(s.taken)
    && s.served + (if s.worker.Serving? then 1 else 0) == |s.taken|
    && (s.worker.Serving? ==> s.taken != [] && s.taken[|s.taken| - 1] == s.worker.it)
  }

  ghost predicate FifoOk(p: Setup, s: State) {
    !p.byPrio ==> |s.taken| <= |s.accepted| && s.taken == s.accepted[..|s.taken|]
  }

  /** Among equal priorities, the order of picking is the order of arrival. */
  ghost predicate PrioOk(p: Setup, s: State) {
    p.byPrio ==>
      && (forall a, b :: 0 <= a < b < |s.taken| && s.taken[a].prio == s.taken[b].prio ==>
          s.taken[a].tag < s.taken[b].tag)
      && (forall a, i :: 0 <= a < |s.taken| && 0 <= i < |s.q| && s.taken[a].prio == s.q[i].prio ==>
          s.taken[a].tag < s.q[i].tag)
  }

  /** What the worker's priority should be: base, the request last picked, and the queue. */
  ghost function Needed(p: Setup, s: State): int {
    var queue := Max(p.base, QueueMax(s.q));
    if s.taken != [] && (s.worker.Serving? || s.worker.Ready?) then Max(queue, s.taken[|s.taken| - 1].prio) else queue
  }

  ghost predicate InheritOk(p: Setup, s: State) {
    p.inherit && s.exact && !s.worker.Ended? ==> s.prio == Needed(p, s)
  }

  ghost predicate WorkerOk(s: State) {
    && (s.worker == Waiting(false) ==> s.q == [])
    && (s.worker.Ended? ==> s.stop && s.atEnd <= |s.accepted| && s.q == s.accepted[s.atEnd..])
  }

  ghost predicate Inv(p: Setup, s: State) {
    Valid(p) && Tagged(s) && Conserved(p, s) && FifoOk(p, s) && PrioOk(p, s) && InheritOk(p, s) && WorkerOk(s)
  }

  /** A queued or picked request was accepted, under its number. */
  lemma Known(p: Setup, s: State, it: Item)
    requires Tagged(s) && Conserved(p, s) && (it in s.q || it in s.taken)
    ensures it.tag < |s.accepted| && s.accepted[it.tag] == it
  {
    assert it in multiset(s.accepted);
    assert it in s.accepted;
  }

  /** The receiver appends the request to the queue and to the accepted ones. */
  lemma ReceiveAppends(p: Setup, s: State, id: nat, prio: int, fd: int, ok: bool)
    requires |s.q| < p.qmax
    ensures var r := Receive(p, s, id, prio, fd, ok); var it := Item(id, prio, fd, s.tag);
      && r.q == s.q + [it] && r.accepted == s.accepted + [it] && r.tag == s.tag + 1
      && r.taken == s.taken && r.served == s.served && r.stop == s.stop && r.atEnd == s.atEnd
      && r.worker == (if s.worker.Waiting? then Waiting(true) else s.worker)
  {
  }

  lemma AppendConserves(p: Setup, s: State, r: State, it: Item)
    requires Inv(p, s) && |s.q| < p.qmax && it.tag == s.tag
    requires r.q == s.q + [it] && r.accepted == s.accepted + [it] && r.tag == s.tag + 1
    requires r.taken == s.taken && r.served == s.served && r.stop == s.stop && r.atEnd == s.atEnd
    requires r.worker == (if s.worker.Waiting? then Waiting(true) else s.worker)
    ensures Tagged(r) && Conserved(p, r) && FifoOk(p, r) && WorkerOk(r)
  {
    if !p.byPrio { assert r.accepted[..|s.taken|] == s.accepted[..|s.taken|]; }
    if s.worker.Ended? { assert r.accepted[s.atEnd..] == s.accepted[s.atEnd..] + [it]; }
  }

  lemma AppendKeepsPrio(p: Setup, s: State, r: State, it: Item)
    requires Inv(p, s) && it.tag == s.tag && r.q == s.q + [it] && r.taken == s.taken
    ensures PrioOk(p, r)
  {
    forall a | 0 <= a < |s.taken| ensures s.taken[a].tag < s.tag { Known(p, s, s.taken[a]); }
  }

  lemma ReceiveInherits(p: Setup, s: State, id: nat, prio: int, fd: int, ok: bool)
    requires Valid(p) && InheritOk(p, s)
    ensures InheritOk(p, Receive(p, s, id, prio, fd, ok))
  {
    assert (s.q + [Item(id, prio, fd, s.tag)])[..|s.q|] == s.q;
  }

  lemma ReceiveKeeps(p: Setup, s: State, id: nat, prio: int, fd: int, ok: bool)
    requires Inv(p, s)
    ensures Inv(p, Receive(p, s, id, prio, fd, ok))
  {
    if |s.q| < p.qmax {
      var r, it := Receive(p, s, id, prio, fd, ok), Item(id, prio, fd, s.tag);
      ReceiveAppends(p, s, id, prio, fd, ok);
      AppendConserves(p, s, r, it);
      AppendKeepsPrio(p, s, r, it);
      ReceiveInherits(p, s, id, prio, fd, ok);
    }
  }

  /** What the worker picks. */
  lemma PickedFirst(p: Setup, s: State)
    requires Inv(p, s) && s.q != []
    ensures var it := s.q[PickFrom(p.byPrio, s.q, 0, 1)];
      && it.tag < |s.accepted| && s.accepted[it.tag] == it
      && forall k :: 0 <= k < |s.q| ==> !Before(p.byPrio, s.q[k], it)
  {
    var i := PickFrom(p.byPrio, s.q, 0, 1);
    PickIsFirst(p.byPrio, s.q, 0, 1);
    Known(p, s, s.q[i]);
  }

  /** The array that pick leaves, and who was picked. */
  lemma WorkPicks(p: Setup, s: State, ok: bool)
    requires Inv(p, s) && s.q != []
    ensures var i := PickFrom(p.byPrio, s.q, 0, 1); var r := Work(p, s, ok);
      && r.q == Removed(s.q, i) && r.taken == s.taken + [s.q[i]] && r.accepted == s.accepted && r.tag == s.tag
      && r.served == s.served && r.stop == s.stop && r.worker.Serving? && r.worker.it == s.q[i]
  {
  }

  /** In fifo mode the queue holds, in some order, the accepted requests from the next one on. */
  lemma RestIsQueued(p: Setup, s: State)
    requires Inv(p, s) && !p.byPrio
    ensures multiset(s.q) == multiset(s.accepted[|s.taken|..])
  {
    var n := |s.taken|;
    assert s.accepted == s.accepted[..n] + s.accepted[n..];
    var all, picked, queued, rest := multiset(s.accepted), multiset(s.taken), multiset(s.q), multiset(s.accepted[n..]);
    assert all == picked + rest;
    assert all == queued + picked;
    assert queued == all - picked == rest;
  }

  lemma PickKeepsFifo(p: Setup, s: State, r: State, i: nat)
    requires Inv(p, s) && i < |s.q| && i == PickFrom(p.byPrio, s.q, 0, 1)
    requires r.taken == s.taken + [s.q[i]] && r.accepted == s.accepted
    ensures FifoOk(p, r)
  {
    if !p.byPrio {
      var n := |s.taken|;
      PickedFirst(p, s);
      RestIsQueued(p, s);
      assert s.q[i] in multiset(s.q) && |multiset(s.q)| == |s.q|;
      var k :| 0 <= k < |s.accepted[n..]| && s.accepted[n..][k] == s.q[i];
      assert s.accepted[n..][0] in multiset(s.q);
      var o :| 0 <= o < |s.q| && s.q[o] == s.accepted[n..][0];
      assert !Before(false, s.q[o], s.q[i]);
    }
  }

  lemma PickConserves(p: Setup, s: State, r: State, i: nat)
    requires Inv(p, s) && i < |s.q| && (s.worker.Ready? || s.worker.Waiting?)
    requires r.q == Removed(s.q, i) && r.taken == s.taken + [s.q[i]] && r.accepted == s.accepted && r.tag == s.tag
    requires r.served == s.served && r.worker.Serving? && r.worker.it == s.q[i]
    ensures Tagged(r) && Conserved(p, r) && WorkerOk(r)
  {
    RemovedIsRest(s.q, i);
  }

  lemma PickKeepsPrio(p: Setup, s: State, r: State, i: nat)
    requires Inv(p, s) && i < |s.q| && i == PickFrom(p.byPrio, s.q, 0, 1)
    requires r.q == Removed(s.q, i) && r.taken == s.taken + [s.q[i]]
    ensures PrioOk(p, r)
  {
    if p.byPrio {
      PickedFirst(p, s);
      forall k | 0 <= k < |r.q| && r.q[k].prio == s.q[i].prio ensures s.q[i].tag < r.q[k].tag {
        StillLater(p, s, i, k);
      }
    }
  }

  /** What stays queued has another number than what was picked. */
  lemma StillLater(p: Setup, s: State, i: nat, k: nat)
    requires Inv(p, s) && i < |s.q| && k < |s.q| - 1 && p.byPrio && Removed(s.q, i)[k].prio == s.q[i].prio
    requires forall o :: 0 <= o < |s.q| ==> !Before(true, s.q[o], s.q[i])
    ensures s.q[i].tag < Removed(s.q, i)[k].tag
  {
    var o := if k == i then |s.q| - 1 else k;
    assert Removed(s.q, i)[k] == s.q[o] && o != i && !Before(true, s.q[o], s.q[i]);
    Known(p, s, s.q[o]);
    Known(p, s, s.q[i]);
    if s.q[o] == s.q[i] { Once(p, s, o, i); }
  }

  lemma TwoPlaces(q: seq<Item>, o: nat, i: nat)
    requires o < i < |q| && q[o] == q[i]
    ensures multiset(q)[q[i]] >= 2
  {
    assert q == q[..i] + q[i..];
    assert q[o] in multiset(q[..i]) && q[i..][0] in multiset(q[i..]);
  }

  lemma {:induction false} AtMostOnce(accepted: seq<Item>, x: Item)
    requires forall k :: 0 <= k < |accepted| ==> accepted[k].tag == k
    ensures multiset(accepted)[x] <= 1 && (x in accepted ==> x.tag < |accepted|)
  {
    if accepted != [] {
      var n := |accepted| - 1;
      AtMostOnce(accepted[..n], x);
      assert accepted == accepted[..n] + [accepted[n]];
    }
  }

  /** No request is queued twice. */
  lemma Once(p: Setup, s: State, o: nat, i: nat)
    requires Tagged(s) && Conserved(p, s) && o < |s.q| && i < |s.q| && o != i
    ensures s.q[o] != s.q[i]
  {
    AtMostOnce(s.accepted, s.q[i]);
    if s.q[o] == s.q[i] { if o < i { TwoPlaces(s.q, o, i); } else { TwoPlaces(s.q, i, o); } }
  }

  lemma WorkInherits(p: Setup, s: State, ok: bool)
    requires Valid(p) && InheritOk(p, s) && !s.worker.Ended?
    ensures InheritOk(p, Work(p, s, ok))
  {
  }

  lemma WorkKeeps(p: Setup, s: State, ok: bool)
    requires Inv(p, s) && (s.worker.Ready? || s.worker.Waiting?)
    ensures Inv(p, Work(p, s, ok))
  {
    WorkInherits(p, s, ok);
    if s.q != [] {
      var i, r := PickFrom(p.byPrio, s.q, 0, 1), Work(p, s, ok);
      WorkPicks(p, s, ok);
      PickConserves(p, s, r, i);
      PickKeepsFifo(p, s, r, i);
      PickKeepsPrio(p, s, r, i);
    }
  }

  lemma StepInv(p: Setup, s: State, turn: Turn)
    requires Inv(p, s)
    ensures Inv(p, Step(p, s, turn))
  {
    match turn
    case Recv(id, prio, fd, ok) => ReceiveKeeps(p, s, id, prio, fd, ok);
    case WorkerTurn(ok) => if s.worker.Ready? || s.worker.Waiting? { WorkKeeps(p, s, ok); }
    case Stop =>
    case Broadcast =>
  }

  // ----- whole runs -------------------------------------------------------

  ghost function After(p: Setup, turns: seq<Turn>): State {
    if turns == [] then Initial(p) else Step(p, After(p, turns[..|turns| - 1]), turns[|turns| - 1])
  }

  lemma {:induction false} RunInv(p: Setup, turns: seq<Turn>)
    requires Valid(p)
    ensures Inv(p, After(p, turns))
  {
    if turns != [] {
      RunInv(p, turns[..|turns| - 1]);
      StepInv(p, After(p, turns[..|turns| - 1]), turns[|turns| - 1]);
    }
  }

  /** With inheritance on, and the last priority change asked for having worked, the worker's
      priority is at least its own, that of the request in service and that of every queued request,
      and it is one of these (0 stands for an empty queue). */
  lemma {:induction false} InheritsWhatWaits(p: Setup, turns: seq<Turn>)
    requires Valid(p) && p.inherit && After(p, turns).exact && !After(p, turns).worker.Ended?
    ensures var s := After(p, turns);
      && p.base <= s.prio && (s.worker.Serving? ==> s.worker.it.prio <= s.prio)
      && (forall i :: 0 <= i < |s.q| ==> s.q[i].prio <= s.prio)
      && s.prio == Needed(p, s)
  {
    RunInv(p, turns);
  }

  /** A change of the priority that works makes up for those that did not: whatever failed before, the worker
      then runs at exactly what it should. */
  lemma WorkRepairs(p: Setup, s: State, ok: bool)
    requires Valid(p) && p.inherit && (s.worker.Ready? || s.worker.Waiting?) && (s.q != [] || !s.stop)
    ensures var r := Work(p, s, ok); ok || r.prio == s.prio == Needed(p, r) ==> r.exact && r.prio == Needed(p, r)
  {
  }

  /** A change that fails leaves the worker as it was. */
  lemma FailedChange(p: Setup, s: State, turn: Turn)
    requires turn.Recv? || turn.WorkerTurn? ==> !turn.ok
    ensures Step(p, s, turn).prio == s.prio && Step(p, s, turn).boosts == s.boosts
  {
  }

  predicate AllSet(turns: seq<Turn>) {
    forall k :: 0 <= k < |turns| ==> (turns[k].Recv? ==> turns[k].ok) && (turns[k].WorkerTurn? ==> turns[k].ok)
  }

  lemma StepExact(p: Setup, s: State, turn: Turn)
    requires s.exact && (turn.Recv? || turn.WorkerTurn? ==> turn.ok)
    ensures Step(p, s, turn).exact
  {
  }

  /** When no priority change fails, that holds in every state. */
  lemma {:induction false} AlwaysExact(p: Setup, turns: seq<Turn>)
    requires Valid(p) && AllSet(turns)
    ensures After(p, turns).exact
  {
    if turns != [] {
      AlwaysExact(p, turns[..|turns| - 1]);
      StepExact(p, After(p, turns[..|turns| - 1]), turns[|turns| - 1]);
    }
  }

  /** The k-th request picked in fifo mode is the k-th accepted, despite the holes filled from the end. */
  lemma {:induction false} FifoServesInOrder(p: Setup, turns: seq<Turn>, k: nat)
    requires Valid(p) && !p.byPrio && k < |After(p, turns).taken|
    ensures var s := After(p, turns); k < |s.accepted| && s.taken[k] == s.accepted[k]
  {
    RunInv(p, turns);
  }

  /** In prio mode nothing of a higher priority is queued when a request is picked. */
  lemma {:induction false} HighestFirst(p: Setup, turns: seq<Turn>, ok: bool, i: nat)
    requires Valid(p) && p.byPrio && i < |After(p, turns).q|
    requires After(p, turns).worker.Ready? || After(p, turns).worker.Waiting?
    ensures var r := Step(p, After(p, turns), WorkerTurn(ok));
      r.worker.Serving? && After(p, turns).q[i].prio <= r.worker.it.prio
  {
    RunInv(p, turns);
    PickedFirst(p, After(p, turns));
  }

  /** In prio mode requests of equal priority are picked in the order they arrived. */
  lemma {:induction false} ArrivalOrderAmongEquals(p: Setup, turns: seq<Turn>, a: nat, b: nat)
    requires Valid(p) && p.byPrio && a < b < |After(p, turns).taken|
    requires After(p, turns).taken[a].prio == After(p, turns).taken[b].prio
    ensures After(p, turns).taken[a].tag < After(p, turns).taken[b].tag
  {
    RunInv(p, turns);
  }

  /** Nothing is served twice or out of thin air, and what is not served is queued or in service. */
  lemma {:induction false} ServedAtMostOnce(p: Setup, turns: seq<Turn>, x: Item)
    requires Valid(p)
    ensures var s := After(p, turns);
      && multiset(s.taken)[x] + multiset(s.q)[x] == multiset(s.accepted)[x] <= 1
      && s.served == |s.taken| - (if s.worker.Serving? then 1 else 0)
  {
    RunInv(p, turns);
    AtMostOnce(After(p, turns).accepted, x);
  }

  /** When the worker has left, every accepted request has been served if and only if none was
      accepted after it left; those that were stay in the queue for ever. */
  lemma {:induction false} ServedAllUnlessLate(p: Setup, turns: seq<Turn>)
    requires Valid(p) && After(p, turns).worker.Ended?
    ensures var s := After(p, turns);
      && (multiset(s.taken) == multiset(s.accepted) <==> s.atEnd == |s.accepted|)
      && s.atEnd <= |s.accepted| && s.q == s.accepted[s.atEnd..]
  {
    RunInv(p, turns);
    var s := After(p, turns);
    if s.q == [] { assert multiset(s.q) == multiset{}; } else { assert s.q[0] in multiset(s.q); }
  }

  /** A request can be late: a signal stops the worker while the receiver still has a request to read. */
  lemma {:induction false} LateRequestIsLost(p: Setup)
    requires Valid(p) && 0 < p.qmax
    ensures exists turns ::
      After(p, turns).worker.Ended? && |After(p, turns).accepted| == 1 && After(p, turns).served == 0
  {
    var turns := [Stop];
    OneMore(p, [], Stop);
    assert After(p, []) == Initial(p);
    OneMore(p, [Stop], WorkerTurn(true));
    OneMore(p, [Stop] + [WorkerTurn(true)], Recv(1, 1, 0, true));
    assert After(p, [] + [Stop]).stop;
    assert After(p, [Stop] + [WorkerTurn(true)]).worker.Ended?;
  }

  lemma OneMore(p: Setup, turns: seq<Turn>, turn: Turn)
    requires Valid(p)
    ensures After(p, turns + [turn]) == Step(p, After(p, turns), turn)
  {
    assert (turns + [turn])[..|turns|] == turns;
  }

  // ----- the default mode, and what is reported ---------------------------

  lemma StepPlain(p: Setup, s: State, turn: Turn)
    requires !p.inherit
    ensures Step(p, s, turn).prio == s.prio && Step(p, s, turn).boosts == s.boosts
  {
  }

  /** Without inheritance the worker keeps its own priority, whatever waits. */
  lemma {:induction false} NeverRaised(p: Setup, turns: seq<Turn>)
    requires !p.inherit
    ensures After(p, turns).prio == p.base && After(p, turns).boosts == 0
  {
    if turns != [] {
      NeverRaised(p, turns[..|turns| - 1]);
      StepPlain(p, After(p, turns[..|turns| - 1]), turns[|turns| - 1]);
    }
  }

  /** How many turns raised the worker's priority. */
  ghost function Raises(p: Setup, turns: seq<Turn>): nat {
    if turns == [] then 0
    else Raises(p, turns[..|turns| - 1]) + if After(p, turns[..|turns| - 1]).prio < After(p, turns).prio then 1 else 0
  }

  lemma StepBoosts(p: Setup, s: State, turn: Turn)
    ensures Step(p, s, turn).boosts == s.boosts + if s.prio < Step(p, s, turn).prio then 1 else 0
  {
  }

  /** The boosts printed at the end are the raises. */
  lemma {:induction false} BoostsAreRaises(p: Setup, turns: seq<Turn>)
    ensures After(p, turns).boosts == Raises(p, turns)
  {
    if turns != [] {
      BoostsAreRaises(p, turns[..|turns| - 1]);
      StepBoosts(p, After(p, turns[..|turns| - 1]), turns[|turns| - 1]);
    }
  }

  /** A request is accepted exactly when the queue has room. */
  lemma {:induction false} AcceptedExactlyWithRoom(p: Setup, turns: seq<Turn>, id: nat, prio: int, fd: int, ok: bool)
    requires Valid(p)
    ensures var s, r := After(p, turns), After(p, turns + [Recv(id, prio, fd, ok)]);
      r.accepted == s.accepted + if |s.q| < p.qmax then [Item(id, prio, fd, |s.accepted|)] else []
  {
    OneMore(p, turns, Recv(id, prio, fd, ok));
    RunInv(p, turns);
  }

  /** In turn i the worker picked the request of w, and noted its own priority and what was left. */
  ghost predicate PickedIn(p: Setup, turns: seq<Turn>, i: nat, w: Worker) {
    && i < |turns| && w.Serving? && turns[i].WorkerTurn?
    && var s := After(p, turns[..i + 1]);
    && s.worker == w && w.prioNow == s.prio && w.queued == |s.q|
    && |s.taken| == |After(p, turns[..i]).taken| + 1 && s.taken[|s.taken| - 1] == w.it
  }

  ghost predicate WasPicked(p: Setup, turns: seq<Turn>, w: Worker) {
    exists i: nat :: PickedIn(p, turns, i, w)
  }

  ghost predicate ReplyOf(p: Setup, turns: seq<Turn>, r: Reply, it: Item) {
    exists w: Worker :: w.Serving? && w.it == it && r == Answer(w) && WasPicked(p, turns, w)
  }

  lemma StillPicked(p: Setup, turns: seq<Turn>, turn: Turn, w: Worker)
    requires WasPicked(p, turns, w)
    ensures WasPicked(p, turns + [turn], w)
  {
    var i: nat :| PickedIn(p, turns, i, w);
    var more := turns + [turn];
    assert more[..i + 1] == turns[..i + 1] && more[..i] == turns[..i];
    assert PickedIn(p, more, i, w);
  }

  lemma StillReply(p: Setup, turns: seq<Turn>, turn: Turn, r: Reply, it: Item)
    requires ReplyOf(p, turns, r, it)
    ensures ReplyOf(p, turns + [turn], r, it)
  {
    var w: Worker :| w.Serving? && w.it == it && r == Answer(w) && WasPicked(p, turns, w);
    StillPicked(p, turns, turn, w);
  }

  lemma PicksNow(p: Setup, turns: seq<Turn>, turn: Turn)
    requires Valid(p) && Step(p, After(p, turns), turn).worker.Serving? && !After(p, turns).worker.Serving?
    ensures WasPicked(p, turns + [turn], Step(p, After(p, turns), turn).worker)
  {
    OneMore(p, turns, turn);
    RunInv(p, turns);
    var more := turns + [turn];
    assert more[..|turns|] == turns && more[..|turns| + 1] == more;
    assert PickedIn(p, more, |turns|, After(p, more).worker);
  }

  ghost predicate RepliesOk(p: Setup, turns: seq<Turn>, s: State) {
    && |s.replies| == s.served <= |s.taken|
    && (s.worker.Serving? ==> WasPicked(p, turns, s.worker))
    && forall k {:trigger s.replies[k]} :: 0 <= k < |s.replies| ==> ReplyOf(p, turns, s.replies[k], s.taken[k])
  }

  lemma StepReplies(p: Setup, s: State, turn: Turn)
    ensures var r := Step(p, s, turn);
      && s.taken <= r.taken && s.replies <= r.replies
      && r.replies == s.replies + (if turn.WorkerTurn? && s.worker.Serving? then [Answer(s.worker)] else [])
      && r.served == s.served + (if turn.WorkerTurn? && s.worker.Serving? then 1 else 0)
      && (s.worker.Serving? ==> r.worker == (if turn.WorkerTurn? then Ready else s.worker))
  {
  }

  /** The k-th reply goes to the client of the k-th request picked, and tells the priority at which it was
      picked to be served and how many requests it left in the queue. */
  lemma {:induction false} RepliesTell(p: Setup, turns: seq<Turn>)
    requires Valid(p)
    ensures RepliesOk(p, turns, After(p, turns))
  {
    if turns != [] {
      var before, turn := turns[..|turns| - 1], turns[|turns| - 1];
      assert before + [turn] == turns;
      RepliesTell(p, before);
      RunInv(p, before);
      RunInv(p, turns);
      OneMore(p, before, turn);
      StepReplies(p, After(p, before), turn);
      WorkerGoesOn(p, before, turn);
      RepliesGoOn(p, before, turn, After(p, before), After(p, turns));
    }
  }

  lemma RepliesGoOn(p: Setup, turns: seq<Turn>, turn: Turn, s: State, r: State)
    requires Conserved(p, s) && Conserved(p, r) && RepliesOk(p, turns, s) && s.taken <= r.taken
    requires |r.replies| == r.served
    requires r.replies == s.replies + (if turn.WorkerTurn? && s.worker.Serving? then [Answer(s.worker)] else [])
    requires r.worker.Serving? ==> WasPicked(p, turns + [turn], r.worker)
    ensures RepliesOk(p, turns + [turn], r)
  {
    forall k | 0 <= k < |r.replies| ensures ReplyOf(p, turns + [turn], r.replies[k], r.taken[k]) {
      ReplyGoesOn(p, turns, turn, s, r, k);
    }
  }

  lemma WorkerGoesOn(p: Setup, turns: seq<Turn>, turn: Turn)
    requires Valid(p) && (After(p, turns).worker.Serving? ==> WasPicked(p, turns, After(p, turns).worker))
    ensures var w := After(p, turns + [turn]).worker; w.Serving? ==> WasPicked(p, turns + [turn], w)
  {
    var s := After(p, turns);
    OneMore(p, turns, turn);
    StepReplies(p, s, turn);
    if s.worker.Serving? {
      StillPicked(p, turns, turn, s.worker);
    } else if After(p, turns + [turn]).worker.Serving? {
      PicksNow(p, turns, turn);
    }
  }

  lemma ReplyGoesOn(p: Setup, turns: seq<Turn>, turn: Turn, s: State, r: State, k: nat)
    requires Conserved(p, s) && RepliesOk(p, turns, s) && s.taken <= r.taken && k < |r.replies| <= |r.taken|
    requires r.replies == s.replies + (if turn.WorkerTurn? && s.worker.Serving? then [Answer(s.worker)] else [])
    ensures ReplyOf(p, turns + [turn], r.replies[k], r.taken[k])
  {
    if k < |s.replies| {
      assert r.replies[k] == s.replies[k] && r.taken[k] == s.taken[k];
      StillReply(p, turns, turn, s.replies[k], s.taken[k]);
    } else {
      StillPicked(p, turns, turn, s.worker);
    }
  }

  /** A worker that waits without a signal has nothing to serve. */
  lemma {:induction false} NoLostWakeup(p: Setup, turns: seq<Turn>)
    requires Valid(p) && After(p, turns).worker == Waiting(false)
    ensures After(p, turns).q == []
  {
    RunInv(p, turns);
  }

  /** The program is stopped by a signal or by the end of the receiver, and by nothing else. */
  predicate Stops(turn: Turn) {
    turn.Stop? || turn.Broadcast?
  }

  /** Who is woken: a waiting worker has been signalled exactly when there is something for it to do, except
      that a signal handler stops the program without waking anybody. */
  ghost predicate SignalOk(s: State, stopped: bool, broadcast: bool) {
    && s.stop == stopped
    && (s.worker == Waiting(true) ==> s.q != [] || s.stop)
    && (s.worker == Waiting(false) ==> s.q == [] && !broadcast)
  }

  lemma StepSignals(p: Setup, s: State, turn: Turn, stopped: bool, broadcast: bool)
    requires SignalOk(s, stopped, broadcast) && (broadcast ==> stopped)
    ensures SignalOk(Step(p, s, turn), stopped || Stops(turn), broadcast || turn.Broadcast?)
  {
  }

  lemma {:induction false} SignalledExactly(p: Setup, turns: seq<Turn>)
    ensures SignalOk(After(p, turns), exists k :: 0 <= k < |turns| && Stops(turns[k]),
              exists k :: 0 <= k < |turns| && turns[k].Broadcast?)
  {
    if turns != [] {
      var before, turn := turns[..|turns| - 1], turns[|turns| - 1];
      var stopped, broadcast := exists k :: 0 <= k < |before| && Stops(before[k]),
        exists k :: 0 <= k < |before| && before[k].Broadcast?;
      SignalledExactly(p, before);
      StepSignals(p, After(p, before), turn, stopped, broadcast);
      SomeTurn(turns);
    }
  }

  lemma SomeTurn(turns: seq<Turn>)
    requires turns != []
    ensures var before, last := turns[..|turns| - 1], turns[|turns| - 1];
      && ((exists k :: 0 <= k < |turns| && Stops(turns[k]))
          <==> (exists k :: 0 <= k < |before| && Stops(before[k])) || Stops(last))
      && ((exists k :: 0 <= k < |turns| && turns[k].Broadcast?)
          <==> (exists k :: 0 <= k < |before| && before[k].Broadcast?) || last.Broadcast?)
  {
    var before := turns[..|turns| - 1];
    assert forall k :: 0 <= k < |before| ==> before[k] == turns[k];
    assert turns[|turns| - 1] == turns[|turns| - 1];
  }

  // ----- the program, updated in place ------------------------------------

  class Service {
    const p: Setup
    const q: array<Item>
    var qn: nat
    var qseq: nat
    var workerPrio: int
    var boosts: nat
    var stop: bool
    var worker: Worker
    var served: nat
    ghost var accepted: seq<Item>
    ghost var taken: seq<Item>
    var replies: seq<Reply>
    ghost var atEnd: nat
    ghost var exact: bool

    ghost predicate Ready()
      reads this
    {
      q.Length == p.qmax && qn <= p.qmax
    }

    ghost function View(): State
      requires Ready()
      reads this, q
    {
      State(q[..qn], qseq, workerPrio, boosts, stop, worker, accepted, taken, served, replies, atEnd, exact)
    }

    constructor (p: Setup)
      ensures this.p == p && Ready() && View() == Initial(p) && fresh(q)
    {
      this.p := p;
      q := new Item[p.qmax](_ => Item(0, 0, 0, 0));
      qn, qseq, workerPrio, boosts, stop, worker, served := 0, 0, p.base, 0, false, Worker.Ready, 0;
      accepted, taken, replies, atEnd, exact := [], [], [], 0, true;
    }

    /** queue_max_prio: the highest queued priority, 0 when nothing is queued. */
    method QueueMaxPrio() returns (m: int)
      requires Ready()
      ensures m == QueueMax(q[..qn])
    {
      m := 0;
      for i := 0 to qn
        invariant m == QueueMax(q[..i])
      {
        assert q[..i + 1][..i] == q[..i];
        m := if q[i].prio > m then q[i].prio else m;
      }
    }

    /** pick: nobody in the queue is to be served before the one it returns. */
    method Pick() returns (best: nat)
      requires Ready() && 0 < qn
      ensures best < qn && best == PickFrom(p.byPrio, q[..qn], 0, 1)
      ensures forall k :: 0 <= k < qn ==> !Before(p.byPrio, q[k], q[best])
    {
      best := 0;
      var i := 1;
      while i < qn
        invariant best < i <= qn
        invariant PickFrom(p.byPrio, q[..qn], 0, 1) == PickFrom(p.byPrio, q[..qn], best, i)
        invariant forall k :: 0 <= k < i ==> !Before(p.byPrio, q[k], q[best])
      {
        if p.byPrio {
          if q[i].prio > q[best].prio || (q[i].prio == q[best].prio && q[i].tag < q[best].tag) {
            best := i;
          }
        } else if q[i].tag < q[best].tag {
          best := i;
        }
        i := i + 1;
      }
    }

    method SetWorkerPrio(want: int, ok: bool)
      requires Ready()
      modifies this`workerPrio, this`boosts, this`exact
      ensures View() == SetPrio(old(View()), want, ok)
    {
      exact := true;
      if want == workerPrio {
        return;
      }
      if !ok {
        exact := false;
        return;
      }
      if want > workerPrio {
        boosts := boosts + 1;
      }
      workerPrio := want;
    }

    /** Take item i out of the array; the last one fills its place. */
    method RemoveAt(i: nat)
      requires Ready() && i < qn
      modifies this`qn, this`taken, q
      ensures Ready() && View() == old(View()).(q := Removed(old(q[..qn]), i), taken := old(taken) + [old(q[i])])
    {
      taken := taken + [q[i]];
      qn := qn - 1;
      q[i] := q[qn];
    }

    /** The worker from pthread_mutex_lock to pthread_cond_wait or to the unlock before the reply. */
    method WorkerSection(ok: bool)
      requires Ready() && (worker.Ready? || worker.Waiting?)
      modifies this, q
      ensures Ready() && View() == Work(p, old(View()), ok)
    {
      if qn == 0 {
        if !stop {
          if p.inherit { SetWorkerPrio(p.base, ok); }
          worker := Waiting(false);
        } else {
          worker, atEnd := Ended, |accepted|;
        }
      } else {
        ServeNext(ok);
      }
    }

    /** Pick a request and set the priority to serve it at. */
    method ServeNext(ok: bool)
      requires Ready() && 0 < qn
      modifies this, q
      ensures Ready() && View() == Work(p, old(View()), ok)
    {
      var i := Pick();
      var it := q[i];
      RemoveAt(i);
      if p.inherit {
        var m := QueueMaxPrio();
        var want := if it.prio > m then it.prio else m;
        SetWorkerPrio(if want > p.base then want else p.base, ok);
      }
      worker := Serving(it, workerPrio, qn);
    }

    /** The receiver's section for one request. */
    method ReceiverSection(id: nat, prio: int, fd: int, ok: bool)
      requires Ready()
      modifies this, q
      ensures Ready() && View() == Receive(p, old(View()), id, prio, fd, ok)
    {
      if qn < p.qmax {
        Append(Item(id, prio, fd, qseq));
        if p.inherit && prio > workerPrio {
          ghost var before := exact;
          SetWorkerPrio(prio, ok);
          exact := ok && before;
        }
        if worker.Waiting? { worker := Waiting(true); }
      }
    }

    method Append(it: Item)
      requires Ready() && qn < p.qmax
      modifies this, q
      ensures Ready()
      ensures View() == old(View()).(q := old(q[..qn]) + [it], tag := old(qseq) + 1, accepted := old(accepted) + [it])
    {
      q[qn] := it;
      qseq, qn := qseq + 1, qn + 1;
      accepted := accepted + [it];
    }

    /** The next section of whoever has the turn. */
    method Access(turn: Turn)
      requires Ready()
      modifies this, q
      ensures Ready() && View() == Step(p, old(View()), turn)
    {
      match turn
      case Recv(id, prio, fd, ok) => ReceiverSection(id, prio, fd, ok);
      case WorkerTurn(ok) =>
        if worker.Serving? {
          replies := replies + [Answer(worker)];
          worker, served := Worker.Ready, served + 1;
        } else if !worker.Ended? {
          WorkerSection(ok);
        }
      case Stop => stop := true;
      case Broadcast =>
        stop := true;
        if worker.Waiting? { worker := Waiting(true); }
    }

    method Run(turns: seq<Turn>)
      requires Valid(p) && Ready() && View() == Initial(p)
      modifies this, q
      ensures Ready() && View() == After(p, turns)
    {
      var k := 0;
      assert turns[..0] == [];
      while k < |turns|
        invariant k <= |turns| && Ready() && View() == After(p, turns[..k])
      {
        Access(turns[k]);
        OneMore(p, turns[..k], turns[k]);
        assert turns[..k] + [turns[k]] == turns[..k + 1];
        k := k + 1;
      }
      assert turns[..k] == turns;
    }
  }
}
