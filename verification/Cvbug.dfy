/** The bounded queue of cvbug.c in all its modes: one producer and any number
    of consumers, a mutex and two condition variables, with spurious wakeups.
    Every statement that runs under the lock is one step. */
module Cvbug {
  import opened Arith
  import opened Seqs

  datatype Mode = IfWait | IoLock | NoUnlock | Fixed

  datatype Setup = Setup(cap: nat, items: nat, mode: Mode)

  datatype Owner = Nobody | Producer | Consumer(c: nat)

  datatype ProducerPc =
    | PLock | PTest | PWaiting | PWake | PPut | PSignal | PUnlock
    | PSetDone | PBroadcast | PUnlockDone | PEnd

  datatype ConsumerPc =
    | CLock | CTest | CWaiting | CWake | CCheck | CLeave | CTake
    | CRecord(item: nat) | CSignal(item: nat) | CLogLocked(item: nat) | CUnlock(item: nat) | CLog(item: nat)
    | CEnd

  /** The queue, the records, who stands where; taken lists what the takes returned, puts counts the puts. */
  datatype State = State(
    buf: seq<nat>, head: nat, tail: nat, count: int, done: bool, lock: Owner,
    i: nat, ppc: ProducerPc, cpc: seq<ConsumerPc>,
    seen: seq<nat>, emptyTakes: nat, taken: seq<nat>, puts: nat)

  /** Who moves; `wake` is the waiter that a signal picks. A waiter's own turn is a spurious wakeup. */
  datatype Turn = ProducerTurn(wake: nat) | ConsumerTurn(c: nat)

  ghost predicate Shape(p: Setup, s: State) {
    && 0 < p.cap && |s.buf| == p.cap && s.head < p.cap && s.tail < p.cap
    && 0 < p.items && |s.seen| == p.items && s.i <= p.items
    && (forall k :: 0 <= k < |s.buf| ==> s.buf[k] < p.items)
    && (s.ppc.PTest? || s.ppc.PWaiting? || s.ppc.PWake? || s.ppc.PPut? || s.ppc.PSignal? || s.ppc.PUnlock? ==>
          s.i < p.items)
    && (forall c :: 0 <= c < |s.cpc| && (s.cpc[c].CRecord? || s.cpc[c].CSignal?) ==> s.cpc[c].item < p.items)
  }

  /** The waiter of not_empty that a signal wakes: the chosen one, or else the first. */
  function Picked(cpc: seq<ConsumerPc>, wake: nat): nat {
    if wake < |cpc| && cpc[wake].CWaiting? then wake else FirstWaiting(cpc, 0)
  }

  function FirstWaiting(cpc: seq<ConsumerPc>, from: nat): (c: nat)
    requires from <= |cpc|
    ensures from <= c <= |cpc|
    ensures c < |cpc| ==> cpc[c].CWaiting?
    ensures forall k :: from <= k < c ==> !cpc[k].CWaiting?
    decreases |cpc| - from
  {
    if from == |cpc| || cpc[from].CWaiting? then from else FirstWaiting(cpc, from + 1)
  }

  function Signalled(cpc: seq<ConsumerPc>, wake: nat): seq<ConsumerPc> {
    var c := Picked(cpc, wake);
    if c < |cpc| then cpc[c := CWake] else cpc
  }

  function Broadcast(cpc: seq<ConsumerPc>): seq<ConsumerPc> {
    seq(|cpc|, c requires 0 <= c < |cpc| => if cpc[c].CWaiting? then CWake else cpc[c])
  }

  function PutItem(p: Setup, s: State): State
    requires Shape(p, s) && s.i < p.items
  {
    s.(buf := s.buf[s.tail := s.i], tail := (s.tail + 1) % p.cap, count := s.count + 1, ppc := PSignal,
        puts := s.puts + 1)
  }

  function ProducerStep(p: Setup, s: State, wake: nat): State
    requires Shape(p, s)
  {
    match s.ppc
    case PLock => if s.lock.Nobody? then s.(lock := Producer, ppc := if s.i < p.items then PTest else PSetDone) else s
    case PTest => if s.count >= p.cap then s.(lock := Nobody, ppc := PWaiting) else s.(ppc := PPut)
    case PWaiting => s.(ppc := PWake)
    case PWake => if s.lock.Nobody? then s.(lock := Producer, ppc := PTest) else s
    case PPut => PutItem(p, s)
    case PSignal => s.(ppc := PUnlock, cpc := if p.mode.IfWait? then Broadcast(s.cpc) else Signalled(s.cpc, wake))
    case PUnlock => s.(lock := Nobody, i := s.i + 1, ppc := PLock)
    case PSetDone => s.(done := true, ppc := PBroadcast)
    case PBroadcast => s.(ppc := PUnlockDone, cpc := Broadcast(s.cpc))
    case PUnlockDone => s.(lock := Nobody, ppc := PEnd)
    case PEnd => s
  }

  predicate IsBad(item: nat) {
    item % 7 == 6
  }

  function GotoC(s: State, c: nat, pc: ConsumerPc): State
    requires c < |s.cpc|
  {
    s.(cpc := s.cpc[c := pc])
  }

  function TakeItem(p: Setup, s: State, c: nat): State
    requires Shape(p, s) && c < |s.cpc|
  {
    var item := s.buf[s.head];
    GotoC(s, c, CRecord(item)).(head := (s.head + 1) % p.cap, count := s.count - 1, taken := s.taken + [item])
  }

  function ConsumerStep(p: Setup, s: State, c: nat): State
    requires Shape(p, s) && c < |s.cpc|
  {
    match s.cpc[c]
    case CLock => if s.lock.Nobody? then GotoC(s, c, CTest).(lock := Consumer(c)) else s
    case CTest => if s.count <= 0 && !s.done then GotoC(s, c, CWaiting).(lock := Nobody) else GotoC(s, c, CCheck)
    case CWaiting => GotoC(s, c, CWake)
    case CWake =>
      if s.lock.Nobody? then GotoC(s, c, if p.mode.IfWait? then CCheck else CTest).(lock := Consumer(c)) else s
    case CCheck => GotoC(s, c, if s.count <= 0 && s.done then CLeave else CTake)
    case CLeave => GotoC(s, c, CEnd).(lock := Nobody)
    case CTake => TakeItem(p, s, c)
    case CRecord(item) =>
      GotoC(s, c, CSignal(item)).(seen := s.seen[item := s.seen[item] + 1],
                                  emptyTakes := if s.count < 0 then s.emptyTakes + 1 else s.emptyTakes)
    case CSignal(item) =>
      GotoC(s, c, if p.mode.IoLock? then CLogLocked(item)
                  else if p.mode.NoUnlock? && IsBad(item) then CEnd else CUnlock(item))
        .(ppc := if s.ppc.PWaiting? then PWake else s.ppc)
    case CLogLocked(item) => GotoC(s, c, CUnlock(item))
    case CUnlock(item) => GotoC(s, c, if p.mode.IoLock? then CLock else CLog(item)).(lock := Nobody)
    case CLog(_) => GotoC(s, c, CLock)
    case CEnd => s
  }

  function Step(p: Setup, s: State, turn: Turn): State
    requires Shape(p, s)
  {
    match turn
    case ProducerTurn(wake) => ProducerStep(p, s, wake)
    case ConsumerTurn(c) => if c < |s.cpc| then ConsumerStep(p, s, c) else s
  }

  function Initial(p: Setup, consumers: nat): State {
    State(seq(p.cap, _ => 0), 0, 0, 0, false, Nobody, 0, PLock, seq(consumers, _ => CLock), seq(p.items, _ => 0), 0,
        [], 0)
  }

  lemma ProducerShape(p: Setup, s: State, wake: nat)
    requires Shape(p, s)
    ensures Shape(p, ProducerStep(p, s, wake)) && |ProducerStep(p, s, wake).cpc| == |s.cpc|
  {
  }

  lemma ConsumerShape(p: Setup, s: State, c: nat)
    requires Shape(p, s) && c < |s.cpc|
    ensures Shape(p, ConsumerStep(p, s, c)) && |ConsumerStep(p, s, c).cpc| == |s.cpc|
  {
    ConsumerRing(p, s, c);
    ConsumerPlaces(p, s, c);
    ConsumerWakesProducer(p, s, c);
    ConsumerItem(p, s, c);
  }

  lemma ConsumerRing(p: Setup, s: State, c: nat)
    requires Shape(p, s) && c < |s.cpc|
    ensures var r := ConsumerStep(p, s, c);
      r.buf == s.buf && r.head < p.cap && r.tail == s.tail && |r.seen| == p.items && r.i == s.i
  {
  }

  lemma ConsumerPlaces(p: Setup, s: State, c: nat)
    requires Shape(p, s) && c < |s.cpc|
    ensures var r := ConsumerStep(p, s, c); |r.cpc| == |s.cpc| && r.cpc == s.cpc[c := r.cpc[c]]
  {
  }

  lemma ConsumerWakesProducer(p: Setup, s: State, c: nat)
    requires Shape(p, s) && c < |s.cpc|
    ensures var r := ConsumerStep(p, s, c); r.ppc == s.ppc || (s.ppc.PWaiting? && r.ppc.PWake?)
  {
  }

  lemma ConsumerItem(p: Setup, s: State, c: nat)
    requires Shape(p, s) && c < |s.cpc|
    ensures var r := ConsumerStep(p, s, c);
      c < |r.cpc| && ((r.cpc[c].CRecord? || r.cpc[c].CSignal?) ==> r.cpc[c].item < p.items)
  {
    if !s.cpc[c].CTake? && !s.cpc[c].CRecord? { ConsumerWithoutItem(p, s, c); }
  }

  lemma ConsumerWithoutItem(p: Setup, s: State, c: nat)
    requires Shape(p, s) && c < |s.cpc| && !s.cpc[c].CTake? && !s.cpc[c].CRecord?
    ensures var r := ConsumerStep(p, s, c); c < |r.cpc| && !r.cpc[c].CRecord? && !r.cpc[c].CSignal?
  {
  }

  // ----- the invariant of the modes that always check again and always unlock ----

  /** Without bad items, the missing unlock is never reached. */
  predicate Correct(p: Setup) {
    p.mode.Fixed? || p.mode.IoLock? || (p.mode.NoUnlock? && p.items <= 6)
  }

  predicate PInside(pc: ProducerPc) {
    pc.PTest? || pc.PPut? || pc.PSignal? || pc.PUnlock? || pc.PSetDone? || pc.PBroadcast? || pc.PUnlockDone?
  }

  predicate CInside(pc: ConsumerPc) {
    || pc.CTest? || pc.CCheck? || pc.CLeave? || pc.CTake? || pc.CRecord? || pc.CSignal? || pc.CLogLocked? || pc.CUnlock?
  }

  /** Mutual exclusion, in every mode. */
  ghost predicate Exclusive(s: State) {
    && (s.lock.Producer? <==> PInside(s.ppc))
    && (forall c :: 0 <= c < |s.cpc| && CInside(s.cpc[c]) ==> s.lock == Consumer(c))
  }

  /** The mutex: exactly its owner is between lock and unlock. */
  ghost predicate LockOk(s: State) {
    && (s.lock.Producer? <==> PInside(s.ppc))
    && (forall c :: 0 <= c < |s.cpc| ==> (CInside(s.cpc[c]) <==> s.lock == Consumer(c)))
    && (s.lock.Consumer? ==> s.lock.c < |s.cpc|)
  }

  /** The ring holds the items put and not yet taken, in order, and the takes so far returned 0, 1, 2, ... */
  ghost predicate QueueOk(p: Setup, s: State)
    requires Shape(p, s)
  {
    && 0 <= s.count <= p.cap && s.puts == |s.taken| + s.count && s.puts <= p.items
    && s.head == Place(|s.taken|, p.cap) && s.tail == Place(s.puts, p.cap)
    && (forall k :: 0 <= k < |s.taken| ==> s.taken[k] == k)
    && (forall j {:trigger InRing(p, s, j)} :: |s.taken| <= j < s.puts ==> InRing(p, s, j))
  }

  ghost predicate InRing(p: Setup, s: State, j: nat)
    requires Shape(p, s)
  {
    s.buf[Place(j, p.cap)] == j
  }

  ghost predicate ProducerOk(p: Setup, s: State) {
    && s.puts == (if s.ppc.PSignal? || s.ppc.PUnlock? then s.i + 1 else s.i)
    && (s.ppc.PPut? ==> s.count < p.cap)
    && (s.done <==> s.ppc.PBroadcast? || s.ppc.PUnlockDone? || s.ppc.PEnd?)
    && (s.done || s.ppc.PSetDone? ==> s.i == p.items)
  }

  ghost predicate ConsumerOk(p: Setup, s: State, c: nat)
    requires c < |s.cpc|
  {
    && (s.cpc[c].CTake? ==> s.count > 0)
    && (s.cpc[c].CCheck? ==> s.count > 0 || s.done)
    && (s.cpc[c].CLeave? || s.cpc[c].CEnd? ==> s.done && |s.taken| == p.items)
    && (s.cpc[c].CRecord? ==> s.taken != [] && s.cpc[c].item == |s.taken| - 1)
  }

  /** A consumer is about to record the item it took last. */
  predicate Unrecorded(s: State) {
    s.lock.Consumer? && s.lock.c < |s.cpc| && s.cpc[s.lock.c].CRecord?
  }

  /** How often each item was recorded: once when taken, except the one whose taker is about to record it. */
  ghost predicate SeenOk(s: State) {
    && s.emptyTakes == 0
    && forall k :: 0 <= k < |s.seen| ==>
         s.seen[k] == if k < |s.taken| && !(k == |s.taken| - 1 && Unrecorded(s)) then 1 else 0
  }

  /** It will test the condition again before it waits. */
  predicate Active(pc: ConsumerPc) {
    !pc.CWaiting? && !pc.CEnd?
  }

  ghost predicate SomeActive(s: State) {
    exists c :: 0 <= c < |s.cpc| && Active(s.cpc[c])
  }

  /** No wakeup is lost: whoever waits without a signal waits for something that is still to come. */
  ghost predicate WakeupsOk(p: Setup, s: State) {
    && (s.ppc.PWaiting? ==>
          s.count == p.cap || Unrecorded(s) || (s.lock.Consumer? && s.lock.c < |s.cpc| && s.cpc[s.lock.c].CSignal?))
    && (forall c :: 0 <= c < |s.cpc| && s.cpc[c].CWaiting? ==>
          && (s.count > 0 ==> s.ppc.PSignal? || SomeActive(s))
          && (s.done ==> s.ppc.PBroadcast?))
  }

  ghost predicate Inv(p: Setup, s: State) {
    && Shape(p, s) && LockOk(s) && QueueOk(p, s) && ProducerOk(p, s) && SeenOk(s) && WakeupsOk(p, s)
    && forall c {:trigger ConsumerOk(p, s, c)} :: 0 <= c < |s.cpc| ==> ConsumerOk(p, s, c)
  }

  lemma InitialInv(p: Setup, consumers: nat)
    requires 0 < p.cap && 0 < p.items
    ensures Inv(p, Initial(p, consumers))
  {
  }

  // ----- positions in the ring --------------------------------------------

  /** head and tail step through the places. */
  lemma NextInRing(x: nat, cap: nat)
    requires 0 < cap
    ensures (Place(x, cap) + 1) % cap == Place(x + 1, cap)
  {
    NextPlace(x, cap);
    PlaceIsRemainder(Place(x, cap) + 1, cap);
  }

  // ----- every step keeps the invariant -----------------------------------

  lemma ProducerKeepsLock(p: Setup, s: State, wake: nat)
    requires Shape(p, s) && LockOk(s)
    ensures LockOk(ProducerStep(p, s, wake))
  {
  }

  /** A consumer's step changes its own place, and the ring only when it takes. */
  ghost predicate OnlyConsumer(s: State, c: nat, r: State)
    requires c < |s.cpc|
  {
    && |r.cpc| == |s.cpc| && r.cpc == s.cpc[c := r.cpc[c]]
    && r.i == s.i && r.done == s.done && r.puts == s.puts
    && (r.ppc == s.ppc || (s.ppc.PWaiting? && r.ppc.PWake?))
    && (r.lock == s.lock || (s.lock.Nobody? && r.lock == Consumer(c)) || (s.lock == Consumer(c) && r.lock.Nobody?))
    && (!s.cpc[c].CTake? ==>
          r.buf == s.buf && r.head == s.head && r.tail == s.tail && r.count == s.count && r.taken == s.taken)
    && (!s.cpc[c].CRecord? ==> r.seen == s.seen && r.emptyTakes == s.emptyTakes)
  }

  lemma ConsumerIsLocal(p: Setup, s: State, c: nat)
    requires Shape(p, s) && Exclusive(s) && c < |s.cpc|
    ensures OnlyConsumer(s, c, ConsumerStep(p, s, c))
  {
    ConsumerRing(p, s, c);
    ConsumerPlaces(p, s, c);
    ConsumerWakesProducer(p, s, c);
    ConsumerLocks(p, s, c);
    ConsumerTakes(p, s, c);
  }

  lemma ConsumerLocks(p: Setup, s: State, c: nat)
    requires Shape(p, s) && Exclusive(s) && c < |s.cpc|
    ensures var r := ConsumerStep(p, s, c);
      || r.lock == s.lock || (s.lock.Nobody? && r.lock == Consumer(c)) || (s.lock == Consumer(c) && r.lock.Nobody?)
  {
  }

  lemma ConsumerTakes(p: Setup, s: State, c: nat)
    requires Shape(p, s) && c < |s.cpc|
    ensures var r := ConsumerStep(p, s, c);
      && r.done == s.done && r.puts == s.puts
      && (!s.cpc[c].CTake? ==> r.head == s.head && r.count == s.count && r.taken == s.taken)
      && (!s.cpc[c].CRecord? ==> r.seen == s.seen && r.emptyTakes == s.emptyTakes)
  {
  }

  /** In the correct modes a consumer is inside exactly from the lock to the unlock. */
  ghost predicate LocksWell(s: State, c: nat, r: State)
    requires c < |s.cpc| == |r.cpc|
  {
    && (CInside(s.cpc[c]) == CInside(r.cpc[c]) ==> r.lock == s.lock)
    && (!CInside(s.cpc[c]) && CInside(r.cpc[c]) ==> s.lock.Nobody? && r.lock == Consumer(c))
    && (CInside(s.cpc[c]) && !CInside(r.cpc[c]) ==> r.lock.Nobody?)
  }

  lemma ConsumerLocksWell(p: Setup, s: State, c: nat)
    requires Shape(p, s) && LockOk(s) && c < |s.cpc| && Correct(p)
    ensures |ConsumerStep(p, s, c).cpc| == |s.cpc| && LocksWell(s, c, ConsumerStep(p, s, c))
  {
  }

  lemma ConsumerKeepsLock(p: Setup, s: State, c: nat, r: State)
    requires LockOk(s) && c < |s.cpc| && OnlyConsumer(s, c, r) && LocksWell(s, c, r)
    ensures LockOk(r)
  {
  }

  lemma PutKeepsQueue(p: Setup, s: State)
    requires Shape(p, s) && QueueOk(p, s) && ProducerOk(p, s) && s.ppc.PPut? && s.i < p.items
    ensures Shape(p, PutItem(p, s)) && QueueOk(p, PutItem(p, s))
  {
    var r := PutItem(p, s);
    NextInRing(s.puts, p.cap);
    forall j | |r.taken| <= j < r.puts ensures InRing(p, r, j) {
      if j < s.puts {
        assert InRing(p, s, j);
        DifferentPlaces(j, s.puts, p.cap);
      }
    }
  }

  lemma TakeKeepsQueue(p: Setup, s: State, c: nat)
    requires Shape(p, s) && QueueOk(p, s) && c < |s.cpc| && s.count > 0
    ensures Shape(p, TakeItem(p, s, c)) && QueueOk(p, TakeItem(p, s, c))
    ensures TakeItem(p, s, c).cpc[c] == CRecord(|s.taken|)
  {
    var r := TakeItem(p, s, c);
    NextInRing(|s.taken|, p.cap);
    assert InRing(p, s, |s.taken|);
    forall j | |r.taken| <= j < r.puts ensures InRing(p, r, j) { assert InRing(p, s, j); }
  }

  lemma ProducerKeepsQueue(p: Setup, s: State, wake: nat)
    requires Shape(p, s) && QueueOk(p, s) && ProducerOk(p, s)
    ensures Shape(p, ProducerStep(p, s, wake)) && QueueOk(p, ProducerStep(p, s, wake))
    ensures ProducerOk(p, ProducerStep(p, s, wake))
  {
    ProducerShape(p, s, wake);
    if s.ppc.PPut? {
      PutKeepsQueue(p, s);
    } else {
      var r := ProducerStep(p, s, wake);
      forall j | |r.taken| <= j < r.puts ensures InRing(p, r, j) { assert InRing(p, s, j); }
    }
  }

  lemma ConsumerKeepsQueue(p: Setup, s: State, c: nat, r: State)
    requires Inv(p, s) && c < |s.cpc| && Shape(p, r) && OnlyConsumer(s, c, r)
    requires s.cpc[c].CTake? ==> r == TakeItem(p, s, c)
    ensures QueueOk(p, r) && ProducerOk(p, r)
  {
    assert ConsumerOk(p, s, c);
    if s.cpc[c].CTake? {
      TakeKeepsQueue(p, s, c);
    } else {
      forall j | |r.taken| <= j < r.puts ensures InRing(p, r, j) { assert InRing(p, s, j); }
    }
  }

  lemma ProducerKeepsOthers(p: Setup, s: State, wake: nat, c: nat)
    requires Inv(p, s) && c < |s.cpc|
    ensures c < |ProducerStep(p, s, wake).cpc| && ConsumerOk(p, ProducerStep(p, s, wake), c)
  {
    assert ConsumerOk(p, s, c);
  }

  lemma ProducerKeepsSeen(p: Setup, s: State, wake: nat)
    requires Inv(p, s)
    ensures SeenOk(ProducerStep(p, s, wake))
  {
  }

  lemma ConsumerGoesOn(p: Setup, s: State, c: nat)
    requires Shape(p, s) && c < |s.cpc| && Correct(p) && ConsumerOk(p, s, c) && !s.cpc[c].CTake?
    requires 0 <= s.count && (s.done ==> |s.taken| + s.count == p.items)
    ensures c < |ConsumerStep(p, s, c).cpc| && ConsumerOk(p, ConsumerStep(p, s, c), c)
  {
    if !CInside(s.cpc[c]) { OutsiderGoesOn(p, s, c); }
  }

  lemma OutsiderGoesOn(p: Setup, s: State, c: nat)
    requires Shape(p, s) && c < |s.cpc| && Correct(p) && ConsumerOk(p, s, c) && !CInside(s.cpc[c])
    ensures c < |ConsumerStep(p, s, c).cpc| && ConsumerOk(p, ConsumerStep(p, s, c), c)
  {
  }

  lemma ConsumerKeepsSelf(p: Setup, s: State, c: nat)
    requires Inv(p, s) && c < |s.cpc| && Correct(p)
    ensures c < |ConsumerStep(p, s, c).cpc| && ConsumerOk(p, ConsumerStep(p, s, c), c)
  {
    assert ConsumerOk(p, s, c);
    if s.cpc[c].CTake? { TakeKeepsQueue(p, s, c); } else { ConsumerGoesOn(p, s, c); }
  }

  lemma ConsumerKeepsOther(p: Setup, s: State, c: nat, r: State, d: nat)
    requires Inv(p, s) && c < |s.cpc| && d < |s.cpc| && c != d && OnlyConsumer(s, c, r)
    requires s.cpc[c].CTake? ==> r == TakeItem(p, s, c)
    ensures ConsumerOk(p, r, d)
  {
    assert ConsumerOk(p, s, c) && ConsumerOk(p, s, d);
  }

  lemma ConsumerKeepsSeen(p: Setup, s: State, c: nat)
    requires Inv(p, s) && c < |s.cpc|
    ensures SeenOk(ConsumerStep(p, s, c))
  {
    assert ConsumerOk(p, s, c);
    if s.cpc[c].CTake? {
      TakeKeepsQueue(p, s, c);
    } else if s.cpc[c].CRecord? {
    } else {
      ConsumerIsLocal(p, s, c);
      assert !ConsumerStep(p, s, c).cpc[c].CRecord?;
    }
  }

  // ----- no wakeup is lost ------------------------------------------------

  lemma StillActive(s: State, r: State)
    requires SomeActive(s) && r.cpc == s.cpc
    ensures SomeActive(r)
  {
    var c :| 0 <= c < |s.cpc| && Active(s.cpc[c]);
    assert Active(r.cpc[c]);
  }

  /** After a signal somebody is awake, if anybody waited. */
  lemma SignalWakes(cpc: seq<ConsumerPc>, wake: nat, c: nat)
    requires c < |cpc| && cpc[c].CWaiting?
    ensures exists d :: 0 <= d < |cpc| == |Signalled(cpc, wake)| && Active(Signalled(cpc, wake)[d])
  {
    var d := Picked(cpc, wake);
    assert d < |cpc|;
    assert Active(Signalled(cpc, wake)[d]);
  }

  lemma ProducerKeepsWakeups(p: Setup, s: State, wake: nat)
    requires Inv(p, s)
    ensures WakeupsOk(p, ProducerStep(p, s, wake))
  {
    var r := ProducerStep(p, s, wake);
    if s.ppc.PSignal? {
      forall c | 0 <= c < |r.cpc| && r.cpc[c].CWaiting? ensures SomeActive(r) { SignalWakes(s.cpc, wake, c); }
    } else if s.ppc.PBroadcast? {
    } else {
      if SomeActive(s) { StillActive(s, r); }
    }
  }

  lemma ConsumerStaysActive(s: State, c: nat, r: State)
    requires c < |s.cpc| && OnlyConsumer(s, c, r) && SomeActive(s) && (Active(s.cpc[c]) ==> Active(r.cpc[c]))
    ensures SomeActive(r)
  {
    var d :| 0 <= d < |s.cpc| && Active(s.cpc[d]);
    assert Active(r.cpc[d]);
  }

  lemma ConsumerKeepsWakeups(p: Setup, s: State, c: nat)
    requires Inv(p, s) && c < |s.cpc| && Correct(p)
    ensures WakeupsOk(p, ConsumerStep(p, s, c))
  {
    var r := ConsumerStep(p, s, c);
    ConsumerIsLocal(p, s, c);
    assert ConsumerOk(p, s, c);
    if SomeActive(s) && (Active(s.cpc[c]) ==> Active(r.cpc[c])) { ConsumerStaysActive(s, c, r); }
  }

  // ----- whole runs -------------------------------------------------------

  lemma StepShape(p: Setup, s: State, turn: Turn)
    requires Shape(p, s)
    ensures Shape(p, Step(p, s, turn)) && |Step(p, s, turn).cpc| == |s.cpc|
  {
    match turn
    case ProducerTurn(wake) => ProducerShape(p, s, wake);
    case ConsumerTurn(c) => if c < |s.cpc| { ConsumerShape(p, s, c); }
  }

  lemma ProducerKeeps(p: Setup, s: State, wake: nat)
    requires Inv(p, s)
    ensures Inv(p, ProducerStep(p, s, wake))
  {
    ProducerShape(p, s, wake);
    ProducerKeepsLock(p, s, wake);
    ProducerKeepsQueue(p, s, wake);
    ProducerKeepsSeen(p, s, wake);
    ProducerKeepsWakeups(p, s, wake);
    forall c | 0 <= c < |s.cpc| ensures ConsumerOk(p, ProducerStep(p, s, wake), c) {
      ProducerKeepsOthers(p, s, wake, c);
    }
  }

  lemma ConsumerKeeps(p: Setup, s: State, c: nat)
    requires Inv(p, s) && c < |s.cpc| && Correct(p)
    ensures Inv(p, ConsumerStep(p, s, c))
  {
    var r := ConsumerStep(p, s, c);
    ConsumerShape(p, s, c);
    ConsumerIsLocal(p, s, c);
    ConsumerLocksWell(p, s, c);
    ConsumerKeepsLock(p, s, c, r);
    ConsumerKeepsQueue(p, s, c, r);
    ConsumerKeepsSeen(p, s, c);
    ConsumerKeepsWakeups(p, s, c);
    forall d | 0 <= d < |s.cpc| ensures ConsumerOk(p, r, d) {
      if d == c { ConsumerKeepsSelf(p, s, c); } else { ConsumerKeepsOther(p, s, c, r, d); }
    }
  }

  /** The state after any schedule, in any mode. */
  ghost function After(p: Setup, consumers: nat, turns: seq<Turn>): (s: State)
    requires 0 < p.cap && 0 < p.items
    ensures Shape(p, s) && |s.cpc| == consumers
  {
    if turns == [] then Initial(p, consumers)
    else
      var s := After(p, consumers, turns[..|turns| - 1]);
      StepShape(p, s, turns[|turns| - 1]);
      Step(p, s, turns[|turns| - 1])
  }

  lemma {:induction false} RunInv(p: Setup, consumers: nat, turns: seq<Turn>)
    requires 0 < p.cap && 0 < p.items && Correct(p)
    ensures Inv(p, After(p, consumers, turns))
  {
    if turns == [] {
      InitialInv(p, consumers);
    } else {
      RunInv(p, consumers, turns[..|turns| - 1]);
      var s := After(p, consumers, turns[..|turns| - 1]);
      match turns[|turns| - 1]
      case ProducerTurn(wake) => ProducerKeeps(p, s, wake);
      case ConsumerTurn(c) => if c < |s.cpc| { ConsumerKeeps(p, s, c); }
    }
  }

  /** The queue never over- or underflows, the k-th take returns item k, no take is from an
      empty queue, and a consumer leaves only when every item is taken. */
  lemma {:induction false} TakesAreTheItemsInOrder(p: Setup, consumers: nat, turns: seq<Turn>)
    requires 0 < p.cap && 0 < p.items && Correct(p)
    ensures var s := After(p, consumers, turns);
      && 0 <= s.count <= p.cap && |s.taken| <= p.items && s.emptyTakes == 0
      && (forall k :: 0 <= k < |s.taken| ==> s.taken[k] == k)
      && (forall c :: 0 <= c < |s.cpc| && s.cpc[c].CEnd? ==> |s.taken| == p.items)
  {
    RunInv(p, consumers, turns);
    var s := After(p, consumers, turns);
    forall c | 0 <= c < |s.cpc| && s.cpc[c].CEnd? ensures |s.taken| == p.items { assert ConsumerOk(p, s, c); }
  }

  /** What main prints when all threads are joined: nothing duplicate, nothing lost. */
  lemma {:induction false} NothingLostOrDuplicate(p: Setup, consumers: nat, turns: seq<Turn>)
    requires 0 < p.cap && 0 < p.items && Correct(p) && 0 < consumers
    requires forall c :: 0 <= c < consumers ==> After(p, consumers, turns).cpc[c].CEnd?
    ensures forall k :: 0 <= k < p.items ==> After(p, consumers, turns).seen[k] == 1
  {
    RunInv(p, consumers, turns);
    TakesAreTheItemsInOrder(p, consumers, turns);
    var s := After(p, consumers, turns);
    assert s.cpc[0].CEnd?;
  }

  /** The producer can take a step other than a spurious wakeup. */
  predicate ProducerCanMove(s: State) {
    !s.ppc.PWaiting? && !s.ppc.PEnd? && (s.ppc.PLock? || s.ppc.PWake? ==> s.lock.Nobody?)
  }

  predicate ConsumerCanMove(s: State, c: nat)
    requires c < |s.cpc|
  {
    Active(s.cpc[c]) && (s.cpc[c].CLock? || s.cpc[c].CWake? ==> s.lock.Nobody?)
  }

  predicate AllEnded(s: State) {
    s.ppc.PEnd? && forall c :: 0 <= c < |s.cpc| ==> s.cpc[c].CEnd?
  }

  /** Everybody has ended, or somebody can take a step that is no spurious wakeup. */
  ghost predicate GoesOn(s: State) {
    AllEnded(s) || ProducerCanMove(s) || exists c :: 0 <= c < |s.cpc| && ConsumerCanMove(s, c)
  }

  lemma SomebodyCanMove(p: Setup, s: State)
    requires Inv(p, s) && 0 < |s.cpc|
    ensures GoesOn(s)
  {
    assert ConsumerOk(p, s, 0);
    if s.lock.Consumer? {
      assert ConsumerCanMove(s, s.lock.c);
    } else if SomeActive(s) && s.lock.Nobody? {
      var c :| 0 <= c < |s.cpc| && Active(s.cpc[c]);
      assert ConsumerCanMove(s, c);
    }
  }

  /** The turn changes the state and is no spurious wakeup. */
  ghost predicate MovesOn(p: Setup, s: State, turn: Turn)
    requires Shape(p, s)
  {
    !Spurious(s, turn) && Step(p, s, turn) != s
  }

  lemma ProducerMovesOn(p: Setup, s: State, wake: nat)
    requires Shape(p, s)
    ensures ProducerCanMove(s) <==> !s.ppc.PWaiting? && ProducerStep(p, s, wake) != s
  {
  }

  lemma ConsumerMoves(p: Setup, s: State, c: nat)
    requires Shape(p, s) && c < |s.cpc|
    ensures ConsumerCanMove(s, c) <==> !s.cpc[c].CWaiting? && ConsumerStep(p, s, c) != s
  {
    if ConsumerCanMove(s, c) { ConsumerLeavesPlace(p, s, c); }
  }

  lemma ConsumerLeavesPlace(p: Setup, s: State, c: nat)
    requires Shape(p, s) && c < |s.cpc| && ConsumerCanMove(s, c)
    ensures c < |ConsumerStep(p, s, c).cpc| && ConsumerStep(p, s, c).cpc[c] != s.cpc[c]
  {
  }

  /** Some turn goes on, until everybody has ended, exactly when somebody can move. */
  lemma GoesOnExactly(p: Setup, s: State)
    requires Shape(p, s)
    ensures GoesOn(s) <==> AllEnded(s) || exists turn :: MovesOn(p, s, turn)
  {
    if ProducerCanMove(s) {
      ProducerMovesOn(p, s, 0);
      assert MovesOn(p, s, ProducerTurn(0));
    } else if c :| 0 <= c < |s.cpc| && ConsumerCanMove(s, c) {
      ConsumerMoves(p, s, c);
      assert MovesOn(p, s, ConsumerTurn(c));
    }
    if turn :| MovesOn(p, s, turn) {
      match turn
      case ProducerTurn(wake) => ProducerMovesOn(p, s, wake);
      case ConsumerTurn(c) => ConsumerMoves(p, s, c);
    }
  }

  /** A signal may wake any of the consumers that wait. */
  lemma AnyWaiterMayWake(cpc: seq<ConsumerPc>, c: nat)
    requires c < |cpc| && cpc[c].CWaiting?
    ensures Signalled(cpc, c) == cpc[c := CWake]
  {
  }

  /** No deadlock and no lost wakeup: until everybody has ended, some thread can go on without a spurious wakeup. */
  lemma {:induction false} NeverStuck(p: Setup, consumers: nat, turns: seq<Turn>)
    requires 0 < p.cap && 0 < p.items && Correct(p) && 0 < consumers
    ensures GoesOn(After(p, consumers, turns))
    ensures var s := After(p, consumers, turns); AllEnded(s) || exists turn :: MovesOn(p, s, turn)
  {
    RunInv(p, consumers, turns);
    SomebodyCanMove(p, After(p, consumers, turns));
    GoesOnExactly(p, After(p, consumers, turns));
  }

  // ----- how long a run can be --------------------------------------------

  /** Steps a producer can still take before it waits or ends, and what its signals can cause. */
  function PWork(pc: ProducerPc): int {
    match pc
    case PSignal => 10
    case PUnlock => 5
    case PLock => 4
    case PSetDone => 3
    case PBroadcast => 2
    case PWake => 2
    case PTest => 1
    case PUnlockDone => 1
    case _ => 0
  }

  function CWork(pc: ConsumerPc): int {
    match pc
    case CRecord(_) => 12
    case CSignal(_) => 11
    case CLogLocked(_) => 8
    case CUnlock(_) => 7
    case CLog(_) => 6
    case CLock => 4
    case CWake => 4
    case CTest => 3
    case CCheck => 2
    case CTake => 1
    case CLeave => 1
    case _ => 0
  }

  ghost function CWorks(cpc: seq<ConsumerPc>): seq<int> {
    seq(|cpc|, c requires 0 <= c < |cpc| => CWork(cpc[c]))
  }

  /** An upper bound on the steps still to come, without spurious wakeups. */
  ghost function Work(p: Setup, s: State): int {
    11 * (p.items - s.puts) + 12 * (p.items - |s.taken|) + PWork(s.ppc) + Sum(CWorks(s.cpc))
    + if s.ppc.PUnlockDone? || s.ppc.PEnd? then 0 else 4 * |s.cpc|
  }

  lemma OneConsumerWorks(cpc: seq<ConsumerPc>, c: nat, pc: ConsumerPc)
    requires c < |cpc|
    ensures Sum(CWorks(cpc[c := pc])) == Sum(CWorks(cpc)) - CWork(cpc[c]) + CWork(pc)
  {
    SumUpdate(CWorks(cpc), c, CWork(pc));
    assert CWorks(cpc[c := pc]) == CWorks(cpc)[c := CWork(pc)];
  }

  lemma BroadcastWork(cpc: seq<ConsumerPc>)
    ensures Sum(CWorks(Broadcast(cpc))) <= Sum(CWorks(cpc)) + 4 * |cpc|
  {
    SumAtMost(CWorks(Broadcast(cpc)), CWorks(cpc), 4);
  }

  lemma ProducerWorks(p: Setup, s: State, wake: nat)
    requires Inv(p, s) && Correct(p)
    ensures var r := ProducerStep(p, s, wake);
      if s.ppc.PWaiting? then Work(p, r) == Work(p, s) + 2 else r == s || Work(p, r) < Work(p, s)
  {
    if s.ppc.PSignal? {
      var c := Picked(s.cpc, wake);
      if c < |s.cpc| { OneConsumerWorks(s.cpc, c, CWake); }
    } else if s.ppc.PBroadcast? {
      BroadcastWork(s.cpc);
    }
  }

  /** The consumer's own change of place, in numbers. */
  lemma ConsumerPays(p: Setup, s: State, c: nat)
    requires Shape(p, s) && Correct(p) && c < |s.cpc|
    ensures var r := ConsumerStep(p, s, c);
      && c < |r.cpc|
      && (s.cpc[c].CWaiting? ==> CWork(r.cpc[c]) == 4 && r.ppc == s.ppc && r.taken == s.taken)
      && (s.cpc[c].CSignal? ==> CWork(r.cpc[c]) <= 8 && r.taken == s.taken)
      && (s.cpc[c].CTake? ==> |r.taken| == |s.taken| + 1 && CWork(r.cpc[c]) == 12 && r.ppc == s.ppc)
      && (!s.cpc[c].CWaiting? && !s.cpc[c].CSignal? && !s.cpc[c].CTake? ==>
            r.ppc == s.ppc && r.taken == s.taken && (r == s || CWork(r.cpc[c]) < CWork(s.cpc[c])))
  {
    ConsumerTakes(p, s, c);
    ConsumerSignals(p, s, c);
    if !s.cpc[c].CWaiting? && !s.cpc[c].CSignal? && !s.cpc[c].CTake? { ConsumerMovesOn(p, s, c); }
  }

  lemma ConsumerSignals(p: Setup, s: State, c: nat)
    requires Shape(p, s) && c < |s.cpc|
    ensures !s.cpc[c].CSignal? ==> ConsumerStep(p, s, c).ppc == s.ppc
  {
  }

  lemma ConsumerMovesOn(p: Setup, s: State, c: nat)
    requires Shape(p, s) && Correct(p) && c < |s.cpc|
    requires !s.cpc[c].CWaiting? && !s.cpc[c].CSignal? && !s.cpc[c].CTake?
    ensures var r := ConsumerStep(p, s, c); c < |r.cpc| && (r == s || CWork(r.cpc[c]) < CWork(s.cpc[c]))
  {
  }

  lemma ConsumerWorks(p: Setup, s: State, c: nat)
    requires Inv(p, s) && Correct(p) && c < |s.cpc|
    ensures var r := ConsumerStep(p, s, c);
      if s.cpc[c].CWaiting? then Work(p, r) == Work(p, s) + 4 else r == s || Work(p, r) < Work(p, s)
  {
    var r := ConsumerStep(p, s, c);
    ConsumerIsLocal(p, s, c);
    ConsumerPays(p, s, c);
    OneConsumerWorks(s.cpc, c, r.cpc[c]);
  }

  predicate Spurious(s: State, turn: Turn) {
    match turn
    case ProducerTurn(_) => s.ppc.PWaiting?
    case ConsumerTurn(c) => c < |s.cpc| && s.cpc[c].CWaiting?
  }

  /** Spurious wakeups in a run, and its other steps that change the state. */
  ghost function Wakeups(p: Setup, consumers: nat, turns: seq<Turn>): nat
    requires 0 < p.cap && 0 < p.items
  {
    if turns == [] then 0
    else
      var before := turns[..|turns| - 1];
      Wakeups(p, consumers, before) + if Spurious(After(p, consumers, before), turns[|turns| - 1]) then 1 else 0
  }

  ghost function Moves(p: Setup, consumers: nat, turns: seq<Turn>): nat
    requires 0 < p.cap && 0 < p.items
  {
    if turns == [] then 0
    else
      var before := turns[..|turns| - 1];
      var s := After(p, consumers, before);
      Moves(p, consumers, before)
      + if Spurious(s, turns[|turns| - 1]) || Step(p, s, turns[|turns| - 1]) == s then 0 else 1
  }

  lemma StepWorks(p: Setup, s: State, turn: Turn)
    requires Inv(p, s) && Correct(p)
    ensures var r := Step(p, s, turn);
      if Spurious(s, turn) then Work(p, r) <= Work(p, s) + 4 else r == s || Work(p, r) < Work(p, s)
  {
    match turn
    case ProducerTurn(wake) => ProducerWorks(p, s, wake);
    case ConsumerTurn(c) => if c < |s.cpc| { ConsumerWorks(p, s, c); }
  }

  lemma WorkIsLeft(p: Setup, s: State)
    requires Inv(p, s)
    ensures 0 <= Work(p, s)
  {
    var zeros := seq(|s.cpc|, _ => 0);
    SumZero(zeros);
    SumAtMost(zeros, CWorks(s.cpc), 0);
  }

  lemma {:induction false} InitialWork(p: Setup, consumers: nat)
    requires 0 < p.cap && 0 < p.items
    ensures Work(p, Initial(p, consumers)) <= 23 * p.items + 8 * consumers + 4
  {
    var zeros := seq(consumers, _ => 0);
    SumZero(zeros);
    SumAtMost(CWorks(Initial(p, consumers).cpc), zeros, 4);
  }

  lemma {:induction false} WorkPays(p: Setup, consumers: nat, turns: seq<Turn>)
    requires 0 < p.cap && 0 < p.items && Correct(p)
    ensures Moves(p, consumers, turns) + Work(p, After(p, consumers, turns))
              <= Work(p, Initial(p, consumers)) + 4 * Wakeups(p, consumers, turns)
  {
    if turns != [] {
      var before := turns[..|turns| - 1];
      WorkPays(p, consumers, before);
      RunInv(p, consumers, before);
      StepWorks(p, After(p, consumers, before), turns[|turns| - 1]);
    }
  }

  /** A run with k spurious wakeups changes the state at most 23*items + 8*consumers + 4 + 4k
      other times; with NeverStuck, every run whose waiters are seldom woken for nothing ends. */
  lemma {:induction false} RunsAreShort(p: Setup, consumers: nat, turns: seq<Turn>)
    requires 0 < p.cap && 0 < p.items && Correct(p)
    ensures Moves(p, consumers, turns) <= 23 * p.items + 8 * consumers + 4 + 4 * Wakeups(p, consumers, turns)
  {
    WorkPays(p, consumers, turns);
    InitialWork(p, consumers);
    RunInv(p, consumers, turns);
    WorkIsLeft(p, After(p, consumers, turns));
  }

  // ----- the two modes that go wrong --------------------------------------

  /** In ifwait mode: where the first two consumers and the producer stand, with no spurious wakeup so far. */
  ghost predicate Stand(p: Setup, consumers: nat, turns: seq<Turn>,
                        lock: Owner, ppc: ProducerPc, c0: ConsumerPc, c1: ConsumerPc, count: int)
    requires 0 < p.cap && 0 < p.items && 2 <= consumers
  {
    var s := After(p, consumers, turns);
    && s.lock == lock && s.ppc == ppc && s.cpc[0] == c0 && s.cpc[1] == c1 && s.count == count
    && !s.done && s.emptyTakes == 0 && s.i == 0 && Wakeups(p, consumers, turns) == 0
  }

  lemma OneMore(p: Setup, consumers: nat, turns: seq<Turn>, turn: Turn) returns (more: seq<Turn>)
    requires 0 < p.cap && 0 < p.items
    ensures After(p, consumers, more) == Step(p, After(p, consumers, turns), turn)
    ensures !Spurious(After(p, consumers, turns), turn) ==> Wakeups(p, consumers, more) == Wakeups(p, consumers, turns)
  {
    more := turns + [turn];
    assert more[..|turns|] == turns;
  }

  /** Both consumers find the queue empty and wait. */
  lemma BothWait(p: Setup, consumers: nat) returns (turns: seq<Turn>)
    requires 0 < p.cap && 0 < p.items && 2 <= consumers && p.mode.IfWait?
    ensures Stand(p, consumers, turns, Nobody, PLock, CWaiting, CWaiting, 0)
  {
    turns := [];
    assert Stand(p, consumers, turns, Nobody, PLock, CLock, CLock, 0);
    turns := OneMore(p, consumers, turns, ConsumerTurn(0));
    turns := OneMore(p, consumers, turns, ConsumerTurn(0));
    assert Stand(p, consumers, turns, Nobody, PLock, CWaiting, CLock, 0);
    turns := OneMore(p, consumers, turns, ConsumerTurn(1));
    turns := OneMore(p, consumers, turns, ConsumerTurn(1));
  }

  /** The producer takes the lock, and then puts one item and wakes both. */
  lemma OnePut(p: Setup, consumers: nat, start: seq<Turn>) returns (turns: seq<Turn>)
    requires 0 < p.cap && 0 < p.items && 2 <= consumers && p.mode.IfWait?
    requires Stand(p, consumers, start, Nobody, PLock, CWaiting, CWaiting, 0)
    ensures Stand(p, consumers, turns, Producer, PPut, CWaiting, CWaiting, 0)
  {
    turns := OneMore(p, consumers, start, ProducerTurn(0));
    turns := OneMore(p, consumers, turns, ProducerTurn(0));
  }

  lemma BothWake(p: Setup, consumers: nat, start: seq<Turn>) returns (turns: seq<Turn>)
    requires 0 < p.cap && 0 < p.items && 2 <= consumers && p.mode.IfWait?
    requires Stand(p, consumers, start, Producer, PPut, CWaiting, CWaiting, 0)
    ensures Stand(p, consumers, turns, Producer, PUnlock, CWake, CWake, 1)
  {
    turns := OneMore(p, consumers, start, ProducerTurn(0));
    turns := OneMore(p, consumers, turns, ProducerTurn(0));
  }

  /** Where the consumers are while the first of them takes the item and the other does not look again. */
  ghost predicate Race(p: Setup, consumers: nat, turns: seq<Turn>, lock: Owner, count: int)
    requires 0 < p.cap && 0 < p.items && 2 <= consumers
  {
    var s := After(p, consumers, turns);
    s.lock == lock && s.count == count && !s.done && s.emptyTakes == 0 && Wakeups(p, consumers, turns) == 0
  }

  lemma FirstChecks(p: Setup, consumers: nat, start: seq<Turn>) returns (turns: seq<Turn>)
    requires 0 < p.cap && 0 < p.items && 2 <= consumers && p.mode.IfWait?
    requires Stand(p, consumers, start, Producer, PUnlock, CWake, CWake, 1)
    ensures Race(p, consumers, turns, Consumer(0), 1)
    ensures After(p, consumers, turns).cpc[0].CCheck? && After(p, consumers, turns).cpc[1].CWake?
  {
    turns := OneMore(p, consumers, start, ProducerTurn(0));
    turns := OneMore(p, consumers, turns, ConsumerTurn(0));
  }

  lemma FirstTakes(p: Setup, consumers: nat, start: seq<Turn>) returns (turns: seq<Turn>)
    requires 0 < p.cap && 0 < p.items && 2 <= consumers && p.mode.IfWait?
    requires Race(p, consumers, start, Consumer(0), 1)
    requires After(p, consumers, start).cpc[0].CCheck? && After(p, consumers, start).cpc[1].CWake?
    ensures Race(p, consumers, turns, Consumer(0), 0)
    ensures After(p, consumers, turns).cpc[0].CRecord? && After(p, consumers, turns).cpc[1].CWake?
  {
    turns := OneMore(p, consumers, start, ConsumerTurn(0));
    turns := OneMore(p, consumers, turns, ConsumerTurn(0));
  }

  lemma FirstRecords(p: Setup, consumers: nat, start: seq<Turn>) returns (turns: seq<Turn>)
    requires 0 < p.cap && 0 < p.items && 2 <= consumers && p.mode.IfWait?
    requires Race(p, consumers, start, Consumer(0), 0)
    requires After(p, consumers, start).cpc[0].CRecord? && After(p, consumers, start).cpc[1].CWake?
    ensures Race(p, consumers, turns, Consumer(0), 0)
    ensures After(p, consumers, turns).cpc[0].CSignal? && After(p, consumers, turns).cpc[1].CWake?
  {
    turns := OneMore(p, consumers, start, ConsumerTurn(0));
  }

  lemma FirstSignals(p: Setup, consumers: nat, start: seq<Turn>) returns (turns: seq<Turn>)
    requires 0 < p.cap && 0 < p.items && 2 <= consumers && p.mode.IfWait?
    requires Race(p, consumers, start, Consumer(0), 0)
    requires After(p, consumers, start).cpc[0].CSignal? && After(p, consumers, start).cpc[1].CWake?
    ensures Race(p, consumers, turns, Consumer(0), 0)
    ensures After(p, consumers, turns).cpc[0].CUnlock? && After(p, consumers, turns).cpc[1].CWake?
  {
    turns := OneMore(p, consumers, start, ConsumerTurn(0));
  }

  lemma FirstLeaves(p: Setup, consumers: nat, start: seq<Turn>) returns (turns: seq<Turn>)
    requires 0 < p.cap && 0 < p.items && 2 <= consumers && p.mode.IfWait?
    requires Race(p, consumers, start, Consumer(0), 0)
    requires After(p, consumers, start).cpc[0].CUnlock? && After(p, consumers, start).cpc[1].CWake?
    ensures Race(p, consumers, turns, Nobody, 0) && After(p, consumers, turns).cpc[1].CWake?
  {
    turns := OneMore(p, consumers, start, ConsumerTurn(0));
  }

  lemma SecondChecks(p: Setup, consumers: nat, start: seq<Turn>) returns (turns: seq<Turn>)
    requires 0 < p.cap && 0 < p.items && 2 <= consumers && p.mode.IfWait?
    requires Race(p, consumers, start, Nobody, 0) && After(p, consumers, start).cpc[1].CWake?
    ensures Race(p, consumers, turns, Consumer(1), 0) && After(p, consumers, turns).cpc[1].CTake?
  {
    turns := OneMore(p, consumers, start, ConsumerTurn(1));
    turns := OneMore(p, consumers, turns, ConsumerTurn(1));
  }

  lemma SecondTakes(p: Setup, consumers: nat, start: seq<Turn>) returns (turns: seq<Turn>)
    requires 0 < p.cap && 0 < p.items && 2 <= consumers && p.mode.IfWait?
    requires Race(p, consumers, start, Consumer(1), 0) && After(p, consumers, start).cpc[1].CTake?
    ensures After(p, consumers, turns).emptyTakes == 1 && After(p, consumers, turns).count == -1
    ensures Wakeups(p, consumers, turns) == 0
  {
    turns := OneMore(p, consumers, start, ConsumerTurn(1));
    turns := OneMore(p, consumers, turns, ConsumerTurn(1));
  }

  /** In ifwait mode, for every size of the queue and number of items, two consumers that both
      waited can both take one item; no spurious wakeup is needed. */
  lemma {:induction false} IfWaitTakesFromEmpty(p: Setup, consumers: nat)
    requires 0 < p.cap && 0 < p.items && 2 <= consumers && p.mode.IfWait?
    ensures exists turns :: After(p, consumers, turns).emptyTakes == 1 && After(p, consumers, turns).count == -1
              && Wakeups(p, consumers, turns) == 0
  {
    var turns := BothWait(p, consumers);
    turns := OnePut(p, consumers, turns);
    turns := BothWake(p, consumers, turns);
    turns := FirstChecks(p, consumers, turns);
    turns := FirstTakes(p, consumers, turns);
    turns := FirstRecords(p, consumers, turns);
    turns := FirstSignals(p, consumers, turns);
    turns := FirstLeaves(p, consumers, turns);
    turns := SecondChecks(p, consumers, turns);
    turns := SecondTakes(p, consumers, turns);
  }

  lemma StepExclusive(p: Setup, s: State, turn: Turn)
    requires Shape(p, s) && Exclusive(s)
    ensures Exclusive(Step(p, s, turn))
  {
    match turn
    case ProducerTurn(wake) =>
    case ConsumerTurn(c) =>
      if c < |s.cpc| {
        ConsumerIsLocal(p, s, c);
        ConsumerInside(p, s, c);
      }
  }

  lemma ConsumerInside(p: Setup, s: State, c: nat)
    requires Shape(p, s) && Exclusive(s) && c < |s.cpc|
    ensures var r := ConsumerStep(p, s, c);
      c < |r.cpc| && (CInside(r.cpc[c]) ==> r.lock == Consumer(c)) && (r.lock.Producer? <==> PInside(r.ppc))
  {
    ConsumerWakesProducer(p, s, c);
    ConsumerLocks(p, s, c);
    if !CInside(s.cpc[c]) { Enters(p, s, c); } else { StaysInside(p, s, c); }
  }

  lemma Enters(p: Setup, s: State, c: nat)
    requires Shape(p, s) && c < |s.cpc| && !CInside(s.cpc[c])
    ensures var r := ConsumerStep(p, s, c); c < |r.cpc| && (CInside(r.cpc[c]) ==> r.lock == Consumer(c))
  {
  }

  lemma StaysInside(p: Setup, s: State, c: nat)
    requires Shape(p, s) && c < |s.cpc| && CInside(s.cpc[c]) && s.lock == Consumer(c)
    ensures var r := ConsumerStep(p, s, c); c < |r.cpc| && (CInside(r.cpc[c]) ==> r.lock == Consumer(c))
  {
  }

  lemma {:induction false} RunExclusive(p: Setup, consumers: nat, turns: seq<Turn>)
    requires 0 < p.cap && 0 < p.items
    ensures Exclusive(After(p, consumers, turns))
  {
    if turns != [] {
      RunExclusive(p, consumers, turns[..|turns| - 1]);
      StepExclusive(p, After(p, consumers, turns[..|turns| - 1]), turns[|turns| - 1]);
    }
  }

  // ----- what the records and the log say, in every mode ------------------

  /** The items that consumer c took, in order, and those that it logged. */
  ghost function TakenBy(p: Setup, consumers: nat, turns: seq<Turn>, c: nat): seq<nat>
    requires 0 < p.cap && 0 < p.items && c < consumers
  {
    if turns == [] then []
    else
      var before := turns[..|turns| - 1];
      var s := After(p, consumers, before);
      TakenBy(p, consumers, before, c) + if turns[|turns| - 1] == ConsumerTurn(c) && s.cpc[c].CTake?
                                         then [s.buf[s.head]] else []
  }

  ghost function LoggedBy(p: Setup, consumers: nat, turns: seq<Turn>, c: nat): seq<nat>
    requires 0 < p.cap && 0 < p.items && c < consumers
  {
    if turns == [] then []
    else
      var before := turns[..|turns| - 1];
      var pc := After(p, consumers, before).cpc[c];
      LoggedBy(p, consumers, before, c) + if turns[|turns| - 1] == ConsumerTurn(c) then Logs(pc) else []
  }

  function Logs(pc: ConsumerPc): seq<nat> {
    match pc
    case CLogLocked(item) => [item]
    case CLog(item) => [item]
    case _ => []
  }

  /** An item taken and not yet logged. */
  function Carries(p: Setup, pc: ConsumerPc): seq<nat> {
    match pc
    case CRecord(item) => [item]
    case CSignal(item) => [item]
    case CLogLocked(item) => [item]
    case CUnlock(item) => if p.mode.IoLock? then [] else [item]
    case CLog(item) => [item]
    case _ => []
  }

  /** Everything a consumer has taken is logged, or is in its hands, or was the bad item it left with. */
  ghost predicate AllLogged(p: Setup, taken: seq<nat>, logged: seq<nat>, pc: ConsumerPc) {
    || taken == logged + Carries(p, pc)
    || (p.mode.NoUnlock? && pc.CEnd? && taken != [] && taken[|taken| - 1] % 7 == 6
        && logged == taken[..|taken| - 1])
  }

  /** The log is written where the mode says, and only a thread that has gone away keeps the lock outside. */
  ghost predicate LogsWhere(p: Setup, s: State, c: nat) {
    && c < |s.cpc|
    && (s.cpc[c].CLogLocked? ==> p.mode.IoLock?) && (s.cpc[c].CLog? ==> !p.mode.IoLock?)
    && (CInside(s.cpc[c]) ==> s.lock == Consumer(c))
    && (!CInside(s.cpc[c]) && !s.cpc[c].CEnd? ==> s.lock != Consumer(c))
  }

  lemma OwnLogsWhere(p: Setup, s: State, c: nat)
    requires Shape(p, s) && LogsWhere(p, s, c)
    ensures LogsWhere(p, ConsumerStep(p, s, c), c)
  {
  }

  lemma OtherLogsWhere(p: Setup, s: State, turn: Turn, c: nat)
    requires Shape(p, s) && Exclusive(s) && LogsWhere(p, s, c) && turn != ConsumerTurn(c)
    ensures LogsWhere(p, Step(p, s, turn), c)
  {
    OtherPlace(p, s, turn, c);
    if turn.ConsumerTurn? && turn.c < |s.cpc| { ConsumerLocks(p, s, turn.c); }
  }

  lemma ConsumerLogs(p: Setup, s: State, c: nat, taken: seq<nat>, logged: seq<nat>)
    requires Shape(p, s) && LogsWhere(p, s, c) && AllLogged(p, taken, logged, s.cpc[c])
    ensures var r := ConsumerStep(p, s, c);
      && c < |r.cpc|
      && AllLogged(p, taken + if s.cpc[c].CTake? then [s.buf[s.head]] else [], logged + Logs(s.cpc[c]), r.cpc[c])
  {
    assert taken + [] == taken && logged + [] == logged;
  }

  lemma OtherLogs(p: Setup, s: State, turn: Turn, c: nat, taken: seq<nat>, logged: seq<nat>)
    requires Shape(p, s) && c < |s.cpc| && AllLogged(p, taken, logged, s.cpc[c]) && turn != ConsumerTurn(c)
    ensures var r := Step(p, s, turn); c < |r.cpc| && AllLogged(p, taken, logged, r.cpc[c])
  {
    OtherPlace(p, s, turn, c);
  }

  lemma OtherPlace(p: Setup, s: State, turn: Turn, c: nat)
    requires Shape(p, s) && c < |s.cpc| && turn != ConsumerTurn(c)
    ensures var r := Step(p, s, turn);
      c < |r.cpc| && (r.cpc[c] == s.cpc[c] || (s.cpc[c].CWaiting? && r.cpc[c].CWake?))
  {
    if turn.ConsumerTurn? && turn.c < |s.cpc| { ConsumerPlaces(p, s, turn.c); }
  }

  lemma {:induction false} RunLogsWhere(p: Setup, consumers: nat, turns: seq<Turn>, c: nat)
    requires 0 < p.cap && 0 < p.items && c < consumers
    ensures LogsWhere(p, After(p, consumers, turns), c)
  {
    if turns != [] {
      var before, turn := turns[..|turns| - 1], turns[|turns| - 1];
      RunLogsWhere(p, consumers, before, c);
      RunExclusive(p, consumers, before);
      if turn == ConsumerTurn(c) { OwnLogsWhere(p, After(p, consumers, before), c); }
      else { OtherLogsWhere(p, After(p, consumers, before), turn, c); }
    }
  }

  /** In every mode a consumer logs what it takes, once and in the order taken, except a bad item of mode
      nounlock; it holds the lock meanwhile exactly in mode iolock. */
  lemma {:induction false} EveryItemIsLogged(p: Setup, consumers: nat, turns: seq<Turn>, c: nat)
    requires 0 < p.cap && 0 < p.items && c < consumers
    ensures var s := After(p, consumers, turns);
      && AllLogged(p, TakenBy(p, consumers, turns, c), LoggedBy(p, consumers, turns, c), s.cpc[c])
      && (Logs(s.cpc[c]) != [] ==> (s.lock == Consumer(c) <==> p.mode.IoLock?))
  {
    RunLogsWhere(p, consumers, turns, c);
    if turns != [] {
      var before, turn := turns[..|turns| - 1], turns[|turns| - 1];
      var s := After(p, consumers, before);
      EveryItemIsLogged(p, consumers, before, c);
      RunLogsWhere(p, consumers, before, c);
      var taken, logged := TakenBy(p, consumers, before, c), LoggedBy(p, consumers, before, c);
      if turn == ConsumerTurn(c) {
        ConsumerLogs(p, s, c, taken, logged);
      } else {
        OtherLogs(p, s, turn, c, taken, logged);
        assert taken + [] == taken && logged + [] == logged;
      }
    }
  }

  /** How many takes found the queue empty, from the schedule. */
  ghost function EmptyTakes(p: Setup, consumers: nat, turns: seq<Turn>): nat
    requires 0 < p.cap && 0 < p.items
  {
    if turns == [] then 0
    else
      var before := turns[..|turns| - 1];
      EmptyTakes(p, consumers, before)
      + if TakesNow(After(p, consumers, before), turns[|turns| - 1]) && After(p, consumers, before).count <= 0
        then 1 else 0
  }

  predicate TakesNow(s: State, turn: Turn) {
    turn.ConsumerTurn? && turn.c < |s.cpc| && s.cpc[turn.c].CTake?
  }

  /** The account of takes: what is in the queue, what has been seen, and how many takes were from nothing. */
  ghost predicate Accounts(s: State, empty: nat) {
    && s.count == s.puts - |s.taken|
    && empty == s.emptyTakes + (if Unrecorded(s) && s.count < 0 then 1 else 0)
    && forall k: nat :: k < |s.seen| ==>
         multiset(s.taken)[k] == s.seen[k] + if Unrecorded(s) && s.cpc[s.lock.c].item == k then 1 else 0
  }

  lemma ProducerAccounts(p: Setup, s: State, wake: nat, empty: nat)
    requires Shape(p, s) && Exclusive(s) && Accounts(s, empty)
    ensures Accounts(ProducerStep(p, s, wake), empty)
  {
    assert PInside(s.ppc) ==> !Unrecorded(ProducerStep(p, s, wake));
  }

  lemma TakeAccounts(p: Setup, s: State, c: nat, empty: nat)
    requires Shape(p, s) && Exclusive(s) && Accounts(s, empty) && c < |s.cpc| && s.cpc[c].CTake?
    ensures Accounts(TakeItem(p, s, c), empty + if s.count <= 0 then 1 else 0)
  {
    assert CInside(s.cpc[c]);
  }

  lemma ConsumerAccounts(p: Setup, s: State, c: nat, empty: nat)
    requires Shape(p, s) && Exclusive(s) && Accounts(s, empty) && c < |s.cpc| && !s.cpc[c].CTake?
    ensures Accounts(ConsumerStep(p, s, c), empty)
  {
    ConsumerIsLocal(p, s, c);
  }

  /** In every mode, however the threads interleave: empty_takes counts exactly the takes from an empty queue,
      and seen how often each item was taken, up to a take that is about to be recorded. */
  lemma {:induction false} RecordsAreExact(p: Setup, consumers: nat, turns: seq<Turn>)
    requires 0 < p.cap && 0 < p.items
    ensures Accounts(After(p, consumers, turns), EmptyTakes(p, consumers, turns))
  {
    if turns != [] {
      var before, turn := turns[..|turns| - 1], turns[|turns| - 1];
      var s, empty := After(p, consumers, before), EmptyTakes(p, consumers, before);
      RecordsAreExact(p, consumers, before);
      RunExclusive(p, consumers, before);
      match turn
      case ProducerTurn(wake) => ProducerAccounts(p, s, wake, empty);
      case ConsumerTurn(c) =>
        if TakesNow(s, turn) { TakeAccounts(p, s, c, empty); }
        else if c < |s.cpc| { ConsumerAccounts(p, s, c, empty); }
    }
  }

  /** A consumer has gone away with the lock. */
  ghost predicate Hung(s: State, c: nat) {
    && c < |s.cpc| && s.cpc[c].CEnd? && s.lock == Consumer(c) && !PInside(s.ppc)
    && forall d :: 0 <= d < |s.cpc| ==> !CInside(s.cpc[d])
  }

  lemma StepHung(p: Setup, s: State, c: nat, turn: Turn)
    requires Shape(p, s) && Hung(s, c)
    ensures var r := Step(p, s, turn); Hung(r, c) && r.taken == s.taken && r.puts == s.puts
  {
  }

  ghost predicate HungSince(s: State, r: State, c: nat) {
    Hung(r, c) && r.taken == s.taken && r.puts == s.puts
  }

  lemma HangsOn(p: Setup, consumers: nat, s: State, before: seq<Turn>, c: nat, turn: Turn)
    requires 0 < p.cap && 0 < p.items && p.mode.NoUnlock? && c < consumers
    requires HungSince(s, After(p, consumers, before), c)
    ensures HungSince(s, After(p, consumers, before + [turn]), c)
  {
    StepHung(p, After(p, consumers, before), c, turn);
    AfterOneMore(p, consumers, before, turn);
  }

  lemma {:induction false} HangsForEver(p: Setup, consumers: nat, s: State, before: seq<Turn>, c: nat, later: seq<Turn>)
    requires 0 < p.cap && 0 < p.items && p.mode.NoUnlock? && c < consumers
    requires HungSince(s, After(p, consumers, before), c)
    ensures HungSince(s, After(p, consumers, before + later), c)
    decreases |later|
  {
    if later == [] {
      assert before + later == before;
    } else {
      HangsOn(p, consumers, s, before, c, later[0]);
      HangsForEver(p, consumers, s, before + [later[0]], c, later[1..]);
      assert before + [later[0]] + later[1..] == before + later;
    }
  }

  /** In nounlock mode a consumer that has taken a bad item hangs the program: after its next
      step nothing is ever put or taken again, whatever the schedule. */
  lemma {:induction false} BadItemHangs(p: Setup, consumers: nat, turns: seq<Turn>, c: nat, later: seq<Turn>)
    requires 0 < p.cap && 0 < p.items && p.mode.NoUnlock? && c < consumers
    requires After(p, consumers, turns).cpc[c].CSignal? && IsBad(After(p, consumers, turns).cpc[c].item)
    ensures HungSince(After(p, consumers, turns), After(p, consumers, turns + [ConsumerTurn(c)] + later), c)
  {
    RejectedHangs(p, consumers, turns, c);
    HangsForEver(p, consumers, After(p, consumers, turns), turns + [ConsumerTurn(c)], c, later);
  }

  lemma AfterOneMore(p: Setup, consumers: nat, turns: seq<Turn>, turn: Turn)
    requires 0 < p.cap && 0 < p.items
    ensures After(p, consumers, turns + [turn]) == Step(p, After(p, consumers, turns), turn)
  {
    assert (turns + [turn])[..|turns|] == turns;
  }

  lemma RejectedHangs(p: Setup, consumers: nat, turns: seq<Turn>, c: nat)
    requires 0 < p.cap && 0 < p.items && p.mode.NoUnlock? && c < consumers
    requires After(p, consumers, turns).cpc[c].CSignal? && IsBad(After(p, consumers, turns).cpc[c].item)
    ensures HungSince(After(p, consumers, turns), After(p, consumers, turns + [ConsumerTurn(c)]), c)
  {
    AfterOneMore(p, consumers, turns, ConsumerTurn(c));
    RunExclusive(p, consumers, turns);
    RejectHangs(p, After(p, consumers, turns), c);
  }

  lemma RejectHangs(p: Setup, s: State, c: nat)
    requires Shape(p, s) && Exclusive(s) && p.mode.NoUnlock? && c < |s.cpc| && s.cpc[c].CSignal? && IsBad(s.cpc[c].item)
    ensures HungSince(s, ConsumerStep(p, s, c), c)
  {
  }

  // ----- which modes work -------------------------------------------------

  /** In nounlock mode: consumer 0 and the producer take turns, the other consumers have not begun;
      i items were put, `taken` of them taken. */
  ghost predicate Stage(p: Setup, s: State, i: nat, taken: nat, full: bool, lock: Owner, ppc: ProducerPc,
      c0: ConsumerPc) {
    && Shape(p, s) && s.cpc != [] && p.mode.NoUnlock?
    && s.i == i && |s.taken| == taken && !s.done && s.lock == lock && s.ppc == ppc
    && s.cpc[0] == c0 && OthersAtLock(s.cpc)
    && if full then s.count == 1 && s.tail == (s.head + 1) % p.cap && s.buf[s.head] == taken
       else s.count == 0 && s.head == s.tail
  }

  predicate OthersAtLock(cpc: seq<ConsumerPc>) {
    forall c :: 0 < c < |cpc| ==> cpc[c].CLock?
  }

  lemma NobodyToWake(cpc: seq<ConsumerPc>, wake: nat)
    requires OthersAtLock(cpc) && cpc != [] && !cpc[0].CWaiting?
    ensures Signalled(cpc, wake) == cpc
  {
  }

  /** The producer's five steps for item n. */
  lemma StageLock(p: Setup, s: State, n: nat)
    requires n < p.items && Stage(p, s, n, n, false, Nobody, PLock, CLock)
    ensures Stage(p, ProducerStep(p, s, 0), n, n, false, Producer, PTest, CLock)
  {
  }

  lemma StageTest(p: Setup, s: State, n: nat)
    requires n < p.items && Stage(p, s, n, n, false, Producer, PTest, CLock)
    ensures Stage(p, ProducerStep(p, s, 0), n, n, false, Producer, PPut, CLock)
  {
  }

  lemma StagePut(p: Setup, s: State, n: nat)
    requires n < p.items && Stage(p, s, n, n, false, Producer, PPut, CLock)
    ensures Stage(p, ProducerStep(p, s, 0), n, n, true, Producer, PSignal, CLock)
  {
    ProducerShape(p, s, 0);
  }

  lemma StageSignal(p: Setup, s: State, n: nat)
    requires n < p.items && Stage(p, s, n, n, true, Producer, PSignal, CLock)
    ensures Stage(p, ProducerStep(p, s, 0), n, n, true, Producer, PUnlock, CLock)
  {
    NobodyToWake(s.cpc, 0);
  }

  lemma StageUnlock(p: Setup, s: State, n: nat)
    requires n < p.items && Stage(p, s, n, n, true, Producer, PUnlock, CLock)
    ensures Stage(p, ProducerStep(p, s, 0), n + 1, n, true, Nobody, PLock, CLock)
  {
  }

  /** Consumer 0's steps up to its signal. */
  lemma StageCLock(p: Setup, s: State, n: nat)
    requires Stage(p, s, n + 1, n, true, Nobody, PLock, CLock)
    ensures Stage(p, ConsumerStep(p, s, 0), n + 1, n, true, Consumer(0), PLock, CTest)
  {
  }

  lemma StageCTest(p: Setup, s: State, n: nat)
    requires Stage(p, s, n + 1, n, true, Consumer(0), PLock, CTest)
    ensures Stage(p, ConsumerStep(p, s, 0), n + 1, n, true, Consumer(0), PLock, CCheck)
  {
  }

  lemma StageCCheck(p: Setup, s: State, n: nat)
    requires Stage(p, s, n + 1, n, true, Consumer(0), PLock, CCheck)
    ensures Stage(p, ConsumerStep(p, s, 0), n + 1, n, true, Consumer(0), PLock, CTake)
  {
  }

  lemma StageCTake(p: Setup, s: State, n: nat)
    requires Stage(p, s, n + 1, n, true, Consumer(0), PLock, CTake)
    ensures Stage(p, ConsumerStep(p, s, 0), n + 1, n + 1, false, Consumer(0), PLock, CRecord(n))
  {
    ConsumerShape(p, s, 0);
  }

  lemma StageCRecord(p: Setup, s: State, n: nat)
    requires Stage(p, s, n + 1, n + 1, false, Consumer(0), PLock, CRecord(n))
    ensures Stage(p, ConsumerStep(p, s, 0), n + 1, n + 1, false, Consumer(0), PLock, CSignal(n))
  {
    ConsumerShape(p, s, 0);
  }

  /** Item n is not bad: the consumer unlocks and comes back. */
  lemma StageCSignal(p: Setup, s: State, n: nat)
    requires !IsBad(n) && Stage(p, s, n + 1, n + 1, false, Consumer(0), PLock, CSignal(n))
    ensures Stage(p, ConsumerStep(p, s, 0), n + 1, n + 1, false, Consumer(0), PLock, CUnlock(n))
  {
  }

  lemma StageCUnlock(p: Setup, s: State, n: nat)
    requires Stage(p, s, n + 1, n + 1, false, Consumer(0), PLock, CUnlock(n))
    ensures Stage(p, ConsumerStep(p, s, 0), n + 1, n + 1, false, Nobody, PLock, CLog(n))
  {
  }

  lemma StageCLog(p: Setup, s: State, n: nat)
    requires Stage(p, s, n + 1, n + 1, false, Nobody, PLock, CLog(n))
    ensures Stage(p, ConsumerStep(p, s, 0), n + 1, n + 1, false, Nobody, PLock, CLock)
  {
  }

  /** Item n is bad: the consumer leaves with the lock, and nobody can go on. */
  lemma StageReject(p: Setup, s: State, n: nat)
    requires IsBad(n) && Stage(p, s, n + 1, n + 1, false, Consumer(0), PLock, CSignal(n))
    ensures !GoesOn(ConsumerStep(p, s, 0))
  {
  }

  lemma ProducerNext(p: Setup, consumers: nat, start: seq<Turn>) returns (turns: seq<Turn>)
    requires 0 < p.cap && 0 < p.items
    ensures After(p, consumers, turns) == ProducerStep(p, After(p, consumers, start), 0)
  {
    turns := OneMore(p, consumers, start, ProducerTurn(0));
  }

  lemma ConsumerNext(p: Setup, consumers: nat, start: seq<Turn>) returns (turns: seq<Turn>)
    requires 0 < p.cap && 0 < p.items && 0 < consumers
    ensures After(p, consumers, turns) == ConsumerStep(p, After(p, consumers, start), 0)
  {
    turns := OneMore(p, consumers, start, ConsumerTurn(0));
  }

  lemma ItemIsPut(p: Setup, consumers: nat, start: seq<Turn>, n: nat) returns (turns: seq<Turn>)
    requires 0 < p.cap && n < p.items && 0 < consumers
    requires Stage(p, After(p, consumers, start), n, n, false, Nobody, PLock, CLock)
    ensures Stage(p, After(p, consumers, turns), n + 1, n, true, Nobody, PLock, CLock)
  {
    StageLock(p, After(p, consumers, start), n);
    turns := ProducerNext(p, consumers, start);
    StageTest(p, After(p, consumers, turns), n);
    turns := ProducerNext(p, consumers, turns);
    StagePut(p, After(p, consumers, turns), n);
    turns := ProducerNext(p, consumers, turns);
    StageSignal(p, After(p, consumers, turns), n);
    turns := ProducerNext(p, consumers, turns);
    StageUnlock(p, After(p, consumers, turns), n);
    turns := ProducerNext(p, consumers, turns);
  }

  lemma ItemIsTaken(p: Setup, consumers: nat, start: seq<Turn>, n: nat) returns (turns: seq<Turn>)
    requires 0 < p.cap && n < p.items && 0 < consumers
    requires Stage(p, After(p, consumers, start), n + 1, n, true, Nobody, PLock, CLock)
    ensures Stage(p, After(p, consumers, turns), n + 1, n + 1, false, Consumer(0), PLock, CSignal(n))
  {
    StageCLock(p, After(p, consumers, start), n);
    turns := ConsumerNext(p, consumers, start);
    StageCTest(p, After(p, consumers, turns), n);
    turns := ConsumerNext(p, consumers, turns);
    StageCCheck(p, After(p, consumers, turns), n);
    turns := ConsumerNext(p, consumers, turns);
    StageCTake(p, After(p, consumers, turns), n);
    turns := ConsumerNext(p, consumers, turns);
    StageCRecord(p, After(p, consumers, turns), n);
    turns := ConsumerNext(p, consumers, turns);
  }

  lemma ItemIsAccepted(p: Setup, consumers: nat, start: seq<Turn>, n: nat) returns (turns: seq<Turn>)
    requires 0 < p.cap && n < p.items && 0 < consumers && !IsBad(n)
    requires Stage(p, After(p, consumers, start), n + 1, n + 1, false, Consumer(0), PLock, CSignal(n))
    ensures Stage(p, After(p, consumers, turns), n + 1, n + 1, false, Nobody, PLock, CLock)
  {
    StageCSignal(p, After(p, consumers, start), n);
    turns := ConsumerNext(p, consumers, start);
    StageCUnlock(p, After(p, consumers, turns), n);
    turns := ConsumerNext(p, consumers, turns);
    StageCLog(p, After(p, consumers, turns), n);
    turns := ConsumerNext(p, consumers, turns);
  }

  lemma ItemIsRejected(p: Setup, consumers: nat, start: seq<Turn>, n: nat) returns (turns: seq<Turn>)
    requires 0 < p.cap && n < p.items && 0 < consumers && IsBad(n)
    requires Stage(p, After(p, consumers, start), n + 1, n + 1, false, Consumer(0), PLock, CSignal(n))
    ensures !GoesOn(After(p, consumers, turns))
  {
    StageReject(p, After(p, consumers, start), n);
    turns := ConsumerNext(p, consumers, start);
  }

  lemma NothingTaken(p: Setup, consumers: nat)
    requires 0 < p.cap && 0 < p.items && 0 < consumers && p.mode.NoUnlock?
    ensures Stage(p, After(p, consumers, []), 0, 0, false, Nobody, PLock, CLock)
  {
  }

  /** A good item goes through. */
  lemma GoodRound(p: Setup, consumers: nat, start: seq<Turn>, n: nat) returns (turns: seq<Turn>)
    requires 0 < p.cap && n < p.items && 0 < consumers && !IsBad(n)
    requires Stage(p, After(p, consumers, start), n, n, false, Nobody, PLock, CLock)
    ensures Stage(p, After(p, consumers, turns), n + 1, n + 1, false, Nobody, PLock, CLock)
  {
    turns := ItemIsPut(p, consumers, start, n);
    turns := ItemIsTaken(p, consumers, turns, n);
    turns := ItemIsAccepted(p, consumers, turns, n);
  }

  /** A bad one does not. */
  lemma BadRound(p: Setup, consumers: nat, start: seq<Turn>, n: nat) returns (turns: seq<Turn>)
    requires 0 < p.cap && n < p.items && 0 < consumers && IsBad(n)
    requires Stage(p, After(p, consumers, start), n, n, false, Nobody, PLock, CLock)
    ensures !GoesOn(After(p, consumers, turns))
  {
    turns := ItemIsPut(p, consumers, start, n);
    turns := ItemIsTaken(p, consumers, turns, n);
    turns := ItemIsRejected(p, consumers, turns, n);
  }

  /** The first n items, none of them bad, go through one by one. */
  lemma {:induction false} Rounds(p: Setup, consumers: nat, n: nat) returns (turns: seq<Turn>)
    requires 0 < p.cap && n < p.items && n <= 6 && 0 < consumers && p.mode.NoUnlock?
    ensures Stage(p, After(p, consumers, turns), n, n, false, Nobody, PLock, CLock)
  {
    if n == 0 {
      turns := [];
      NothingTaken(p, consumers);
    } else {
      turns := Rounds(p, consumers, n - 1);
      turns := GoodRound(p, consumers, turns, n - 1);
    }
  }

  lemma BadItemIsReached(p: Setup, consumers: nat) returns (turns: seq<Turn>)
    requires 0 < p.cap && 6 < p.items && 0 < consumers && p.mode.NoUnlock?
    ensures !GoesOn(After(p, consumers, turns))
  {
    turns := Rounds(p, consumers, 6);
    turns := BadRound(p, consumers, turns, 6);
  }

  ghost predicate Works(s: State) {
    s.emptyTakes == 0 && GoesOn(s)
  }

  /** A setup with two or more consumers takes from no empty queue and never hangs, in any run, if
      and only if its mode is fixed or iolock, or nounlock without a bad item. */
  lemma {:induction false} WorksExactlyWhenCorrect(p: Setup, consumers: nat)
    requires 0 < p.cap && 0 < p.items && 2 <= consumers
    ensures (forall turns :: Works(After(p, consumers, turns))) <==> Correct(p)
  {
    if Correct(p) {
      forall turns ensures Works(After(p, consumers, turns)) {
        TakesAreTheItemsInOrder(p, consumers, turns);
        NeverStuck(p, consumers, turns);
      }
    } else if p.mode.IfWait? {
      IfWaitTakesFromEmpty(p, consumers);
      var turns :| After(p, consumers, turns).emptyTakes == 1;
      assert !Works(After(p, consumers, turns));
    } else {
      var turns := BadItemIsReached(p, consumers);
      assert !Works(After(p, consumers, turns));
    }
  }

  /** How many items were never taken. */
  function Unseen(seen: seq<nat>): nat {
    if seen == [] then 0 else (if seen[0] == 0 then 1 else 0) + Unseen(seen[1..])
  }

  // ----- the program, updated in place ------------------------------------

  class Program {
    const p: Setup
    const buf: array<nat>
    var head: nat
    var tail: nat
    var count: int
    var done: bool
    var lock: Owner
    var i: nat
    var ppc: ProducerPc
    var cpc: seq<ConsumerPc>
    const seen: array<nat>
    var emptyTakes: nat
    ghost var taken: seq<nat>
    ghost var puts: nat

    ghost function View(): State
      reads this, buf, seen
    {
      State(buf[..], head, tail, count, done, lock, i, ppc, cpc, seen[..], emptyTakes, taken, puts)
    }

    constructor (p: Setup, consumers: nat)
      ensures this.p == p && buf != seen && View() == Initial(p, consumers) && fresh(buf) && fresh(seen)
    {
      this.p := p;
      buf := new nat[p.cap](_ => 0);
      seen := new nat[p.items](_ => 0);
      head, tail, count, done, lock, i, ppc := 0, 0, 0, false, Nobody, 0, PLock;
      cpc, emptyTakes, taken, puts := seq(consumers, _ => CLock), 0, [], 0;
    }

    /** put_item; the producer then signals. */
    method Put()
      requires buf != seen && Shape(p, View()) && i < p.items
      modifies this, buf
      ensures View() == PutItem(p, old(View()))
    {
      buf[tail] := i;
      tail := (tail + 1) % p.cap;
      count := count + 1;
      ppc, puts := PSignal, puts + 1;
      assert buf[..] == old(buf[..])[old(tail) := i];
    }

    /** take_item; consumer c then records the item. */
    method Take(c: nat)
      requires buf != seen && Shape(p, View()) && c < |cpc|
      modifies this
      ensures View() == TakeItem(p, old(View()), c)
    {
      var item := buf[head];
      head := (head + 1) % p.cap;
      count := count - 1;
      cpc, taken := cpc[c := CRecord(item)], taken + [item];
    }

    method ProducerAccess(wake: nat)
      requires buf != seen && Shape(p, View())
      modifies this, buf
      ensures View() == ProducerStep(p, old(View()), wake)
    {
      match ppc
      case PLock =>
        if lock.Nobody? { lock, ppc := Producer, if i < p.items then PTest else PSetDone; }
      case PTest =>
        if count >= p.cap { lock, ppc := Nobody, PWaiting; } else { ppc := PPut; }
      case PWaiting => ppc := PWake;
      case PWake =>
        if lock.Nobody? { lock, ppc := Producer, PTest; }
      case PPut => Put();
      case PSignal => ppc, cpc := PUnlock, if p.mode.IfWait? then Broadcast(cpc) else Signalled(cpc, wake);
      case PUnlock => lock, i, ppc := Nobody, i + 1, PLock;
      case PSetDone => done, ppc := true, PBroadcast;
      case PBroadcast => ppc, cpc := PUnlockDone, Broadcast(cpc);
      case PUnlockDone => lock, ppc := Nobody, PEnd;
      case PEnd =>
    }

    method Record(c: nat, item: nat)
      requires buf != seen && Shape(p, View()) && c < |cpc| && item < p.items
      modifies this, seen
      ensures View() == GotoC(old(View()), c, CSignal(item)).(
                seen := old(View()).seen[item := old(View()).seen[item] + 1],
                emptyTakes := if count < 0 then old(emptyTakes) + 1 else old(emptyTakes))
    {
      if count < 0 { emptyTakes := emptyTakes + 1; }
      seen[item] := seen[item] + 1;
      cpc := cpc[c := CSignal(item)];
      assert seen[..] == old(seen[..])[item := old(seen[item]) + 1];
    }

    method ConsumerAccess(c: nat)
      requires buf != seen && Shape(p, View()) && c < |cpc|
      modifies this, seen
      ensures View() == ConsumerStep(p, old(View()), c)
    {
      match cpc[c]
      case CLock =>
        if lock.Nobody? { lock, cpc := Consumer(c), cpc[c := CTest]; }
      case CTest =>
        if count <= 0 && !done { lock, cpc := Nobody, cpc[c := CWaiting]; } else { cpc := cpc[c := CCheck]; }
      case CWaiting => cpc := cpc[c := CWake];
      case CWake =>
        if lock.Nobody? { lock, cpc := Consumer(c), cpc[c := if p.mode.IfWait? then CCheck else CTest]; }
      case CCheck => cpc := cpc[c := if count <= 0 && done then CLeave else CTake];
      case CLeave => lock, cpc := Nobody, cpc[c := CEnd];
      case CTake => Take(c);
      case CRecord(item) => Record(c, item);
      case CSignal(item) =>
        if ppc.PWaiting? { ppc := PWake; }
        cpc := cpc[c := if p.mode.IoLock? then CLogLocked(item)
                        else if p.mode.NoUnlock? && IsBad(item) then CEnd else CUnlock(item)];
      case CLogLocked(item) => cpc := cpc[c := CUnlock(item)];
      case CUnlock(item) => lock, cpc := Nobody, cpc[c := if p.mode.IoLock? then CLock else CLog(item)];
      case CLog(_) => cpc := cpc[c := CLock];
      case CEnd =>
    }

    /** One step of whoever has the turn. */
    method Access(turn: Turn)
      requires buf != seen && Shape(p, View())
      modifies this, buf, seen
      ensures View() == Step(p, old(View()), turn)
    {
      match turn
      case ProducerTurn(wake) => ProducerAccess(wake);
      case ConsumerTurn(c) => if c < |cpc| { ConsumerAccess(c); }
    }

    /** The threads run under a schedule. */
    method Execute(turns: seq<Turn>)
      requires 0 < p.cap && 0 < p.items && buf != seen && View() == Initial(p, |cpc|)
      modifies this, buf, seen
      ensures View() == After(p, old(|cpc|), turns)
    {
      var k := 0;
      ghost var n := |cpc|;
      assert turns[..0] == [];
      while k < |turns|
        invariant k <= |turns| && View() == After(p, n, turns[..k])
      {
        AfterOneMore(p, n, turns[..k], turns[k]);
        Access(turns[k]);
        assert turns[..k] + [turns[k]] == turns[..k + 1];
        k := k + 1;
      }
      assert turns[..k] == turns;
    }

    /** A whole run and main's report about it. */
    method Run(turns: seq<Turn>) returns (total: int, duplicate: int, lost: int)
      requires 0 < p.cap && 0 < p.items && buf != seen && View() == Initial(p, |cpc|)
      modifies this, buf, seen
      ensures View() == After(p, old(|cpc|), turns)
      ensures Correct(p) && 0 < old(|cpc|) && (forall c :: 0 <= c < |cpc| ==> cpc[c].CEnd?)
              ==> total == p.items && duplicate == 0 && lost == 0
    {
      ghost var n := |cpc|;
      Execute(turns);
      total, duplicate, lost := Report();
      assert View().cpc == cpc && View().seen == seen[..];
      if Correct(p) && 0 < n && forall c :: 0 <= c < |cpc| ==> cpc[c].CEnd? {
        NothingLostOrDuplicate(p, n, turns);
        assert forall k :: 0 <= k < seen.Length ==> seen[k] == View().seen[k];
      }
    }

    /** main adds up how often each item was seen. */
    method Report() returns (total: int, duplicate: int, lost: int)
      ensures lost == Unseen(seen[..])
      ensures total == Sum(seen[..]) && total - seen.Length == duplicate - lost && 0 <= duplicate && 0 <= lost
      ensures (lost == 0 <==> forall k :: 0 <= k < seen.Length ==> seen[k] >= 1)
      ensures (duplicate == 0 <==> forall k :: 0 <= k < seen.Length ==> seen[k] <= 1)
    {
      total, duplicate, lost := 0, 0, 0;
      var k := seen.Length;
      assert seen[k..] == [];
      while k > 0
        invariant 0 <= k <= seen.Length && total == Sum(seen[k..])
        invariant total - (seen.Length - k) == duplicate - lost && 0 <= duplicate && 0 <= lost
        invariant lost == Unseen(seen[k..])
        invariant lost == 0 <==> forall j :: k <= j < seen.Length ==> seen[j] >= 1
        invariant duplicate == 0 <==> forall j :: k <= j < seen.Length ==> seen[j] <= 1
      {
        k := k - 1;
        total := total + seen[k];
        assert seen[k..] == [seen[k]] + seen[k + 1..];
        if seen[k] == 0 { lost := lost + 1; } else if seen[k] > 1 { duplicate := duplicate + (seen[k] - 1); }
      }
      assert seen[0..] == seen[..];
    }
  }
}
