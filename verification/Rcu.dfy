/** The user-space QSBR RCU of rcu.c, one access to shared memory per step: any
    number of threads that register, read, report quiescent states, wait for
    grace periods and unregister, in any interleaving. */
module Rcu {

  const WORD: nat := 0x1_0000_0000_0000_0000
  const HALF: nat := 0x8000_0000_0000_0000

  /** Where a thread stands; the arguments are its local variables. */
  datatype Pc =
    | Idle                                  // outside the library
    | QsStore(at: nat)                     // report_qs, gp_seq loaded
    | RegCas(i: nat)                        // rcu_register_thread tries slot i
    | OnLoad | OnSwap(at: nat) | OnCheck(at: nat) | OnStore(now: nat)   // go_online
    | UnUsed                                // rcu_unregister_thread, own slot offline
    | Offline(target: nat)                  // synchronize_rcu, gp_seq advanced
    | Poll(i: nat, target: nat)             // the loop looks at slot i
    | Wait(i: nat, target: nat)             // polls seen of slot i
    | Aborted

  /** What the client does next when it is outside the library. */
  datatype Act = Register | Unregister | Quiesce | Synchronize | Load | Drop(stamp: nat)

  /** my_slot (-1: none), the value gp_seq had when each pointer still held was
      loaded, and the target of the last grace period the thread waited for. */
  datatype Thread = Thread(pc: Pc, slot: int, held: set<nat>, ended: nat)

  /** gp_seq and the slots; owner records whose slot it is (-1: nobody's). */
  datatype State = State(gp: nat, seen: seq<nat>, used: seq<bool>, owner: seq<int>, threads: seq<Thread>)

  ghost predicate Shape(s: State) {
    |s.seen| == |s.used| == |s.owner|
  }

  /** The unsigned addition and the signed comparison of the program. */
  function Next(gp: nat): nat {
    (gp + 1) % WORD
  }

  predicate Passed(seen: nat, target: nat) {
    (seen - target) % WORD < HALF
  }

  /** Below 2^63 grace periods the comparison of the difference is the comparison of the numbers. */
  lemma PassedIsAtLeast(seen: nat, target: nat)
    requires seen < HALF && target < HALF
    ensures Passed(seen, target) <==> target <= seen
  {
    if seen < target { assert (seen - target) % WORD == seen - target + WORD; }
  }

  /** A thread's slot, when it has one, exists; so do the slots it visits. */
  predicate Placed(s: State, t: nat)
    requires t < |s.threads|
  {
    var th := s.threads[t];
    && -1 <= th.slot < |s.used|
    && (th.pc.QsStore? || th.pc.OnLoad? || th.pc.OnSwap? || th.pc.OnCheck? || th.pc.OnStore? || th.pc.UnUsed?
        || th.pc.Offline?
        ==> th.slot >= 0)
    && (th.pc.RegCas? ==> th.pc.i <= |s.used| && th.slot == -1)
    && (th.pc.Poll? ==> th.pc.i <= |s.used|)
    && (th.pc.Wait? ==> th.pc.i < |s.used| && th.pc.i != th.slot)
  }

  function Goto(s: State, t: nat, pc: Pc): State
    requires t < |s.threads|
  {
    s.(threads := s.threads[t := s.threads[t].(pc := pc)])
  }

  /** The client's own steps and the first access of each call. */
  function Begin(s: State, t: nat, act: Act): State
    requires Shape(s) && t < |s.threads| && Placed(s, t)
  {
    var th := s.threads[t];
    match act
    case Register => if th.slot < 0 then Goto(s, t, RegCas(0)) else s
    case Unregister =>
      if th.slot >= 0 && th.held == {} then Goto(s, t, UnUsed).(seen := s.seen[th.slot := 0]) else s
    case Quiesce => if th.slot >= 0 && th.held == {} then Goto(s, t, QsStore(s.gp)) else s
    case Synchronize =>
      if th.held != {} then s
      else Goto(s, t, if th.slot >= 0 then Offline(Next(s.gp)) else Poll(0, Next(s.gp))).(gp := Next(s.gp))
    case Load => if th.slot >= 0 then s.(threads := s.threads[t := th.(held := th.held + {s.gp})]) else s
    case Drop(stamp) => s.(threads := s.threads[t := th.(held := th.held - {stamp})])
  }

  /** Registration: take the first free slot. */
  function TakeSlot(s: State, t: nat, i: nat): State
    requires Shape(s) && t < |s.threads| && i <= |s.used|
  {
    if i == |s.used| then Goto(s, t, Aborted)
    else if s.used[i] then Goto(s, t, RegCas(i + 1))
    else
      s.(used := s.used[i := true], owner := s.owner[i := t],
         threads := s.threads[t := s.threads[t].(pc := OnLoad, slot := i)])
  }

  /** The loop of synchronize_rcu at slot i: done, skip it, or wait for it. */
  function LookAt(s: State, t: nat, i: nat, target: nat): State
    requires Shape(s) && t < |s.threads| && i <= |s.used|
  {
    if i == |s.used| then
      var pc := if s.threads[t].slot >= 0 then OnLoad else Idle;
      s.(threads := s.threads[t := s.threads[t].(pc := pc, ended := target)])
    else if i == s.threads[t].slot || !s.used[i] then Goto(s, t, Poll(i + 1, target))
    else Goto(s, t, Wait(i, target))
  }

  /** Thread t performs its next access; act is what an idle client chooses. */
  function Step(s: State, t: nat, act: Act): State
    requires Shape(s) && t < |s.threads| && Placed(s, t)
  {
    var th := s.threads[t];
    match th.pc
    case Idle => Begin(s, t, act)
    case QsStore(at) => Goto(s, t, Idle).(seen := s.seen[th.slot := at])
    case RegCas(i) => TakeSlot(s, t, i)
    case OnLoad => Goto(s, t, OnSwap(s.gp))
    case OnSwap(at) => Goto(s, t, OnCheck(at)).(seen := s.seen[th.slot := at])
    case OnCheck(at) => Goto(s, t, if s.gp != at then OnStore(s.gp) else Idle)
    case OnStore(now) => Goto(s, t, Idle).(seen := s.seen[th.slot := now])
    case UnUsed =>
      s.(used := s.used[th.slot := false], owner := s.owner[th.slot := -1],
         threads := s.threads[t := th.(pc := Idle, slot := -1)])
    case Offline(target) => Goto(s, t, Poll(0, target)).(seen := s.seen[th.slot := 0])
    case Poll(i, target) => LookAt(s, t, i, target)
    case Wait(i, target) =>
      if s.seen[i] == 0 || Passed(s.seen[i], target) then Goto(s, t, Poll(i + 1, target)) else s
    case Aborted => s
  }

  function Initial(slots: nat, n: nat): State {
    State(1, seq(slots, _ => 0), seq(slots, _ => false), seq(slots, _ => -1), seq(n, _ => Thread(Idle, -1, {}, 0)))
  }

  // ----- the invariant ----------------------------------------------------

  /** Registered and not inside synchronize_rcu's wait: a writer must not skip such a slot. */
  predicate Online(pc: Pc) {
    pc.Idle? || pc.QsStore? || pc.OnCheck? || pc.OnStore? || pc.Offline?
  }

  /** What a thread knows: its slot is its own, and it holds only pointers younger than its report. */
  ghost predicate ThreadOk(s: State, t: nat)
    requires Shape(s) && t < |s.threads|
  {
    var th := s.threads[t];
    && Placed(s, t)
    && (th.slot >= 0 ==> s.owner[th.slot] == t && (s.seen[th.slot] != 0 <==> Online(th.pc)))
    && (th.pc.OnCheck? ==> s.seen[th.slot] == th.pc.at)
    && (th.held != {} ==> th.pc.Idle? && th.slot >= 0)
    && (forall x :: x in th.held ==> s.seen[th.slot] <= x <= s.gp)
    && LocalsOk(s.gp, th.pc) && th.ended <= s.gp
  }

  predicate LocalsOk(gp: nat, pc: Pc) {
    && ((pc.QsStore? || pc.OnSwap? || pc.OnCheck?) ==> 1 <= pc.at <= gp)
    && (pc.OnStore? ==> 1 <= pc.now <= gp)
    && ((pc.Offline? || pc.Poll? || pc.Wait?) ==> 1 <= pc.target <= gp)
  }

  ghost predicate SlotOk(s: State, j: nat)
    requires Shape(s) && j < |s.seen|
  {
    && s.seen[j] <= s.gp && (s.used[j] <==> s.owner[j] != -1)
    && (s.owner[j] == -1 ==> s.seen[j] == 0)
    && (s.owner[j] != -1 ==> 0 <= s.owner[j] < |s.threads| && s.threads[s.owner[j]].slot == j)
  }

  /** u holds only pointers loaded after the call of w advanced gp_seq, or its slot is still ahead of w. */
  ghost predicate Ahead(s: State, w: nat, u: nat)
    requires w < |s.threads| && u < |s.threads|
  {
    var pc := s.threads[w].pc;
    && ((pc.Poll? || pc.Wait?) && w != u ==>
          forall x :: x in s.threads[u].held && x < pc.target ==> pc.i <= s.threads[u].slot)
    && forall x :: x in s.threads[u].held ==> s.threads[w].ended <= x
  }

  ghost predicate Inv(s: State) {
    && Shape(s) && 1 <= s.gp < HALF
    && (forall t {:trigger ThreadOk(s, t)} :: 0 <= t < |s.threads| ==> ThreadOk(s, t))
    && (forall j {:trigger SlotOk(s, j)} :: 0 <= j < |s.seen| ==> SlotOk(s, j))
    && (forall w, u {:trigger Ahead(s, w, u)} :: 0 <= w < |s.threads| && 0 <= u < |s.threads| ==> Ahead(s, w, u))
  }

  lemma InitialInv(slots: nat, n: nat)
    ensures Inv(Initial(slots, n))
  {
  }

  // ----- what a step leaves alone -----------------------------------------

  /** The slot a step of t may write: its own, or the one it tries to take. */
  function Touched(s: State, t: nat): int
    requires t < |s.threads|
  {
    if s.threads[t].pc.RegCas? then s.threads[t].pc.i else s.threads[t].slot
  }

  ghost predicate OnlyOwn(s: State, t: nat, r: State)
    requires Shape(s) && t < |s.threads|
  {
    && Shape(r) && |r.seen| == |s.seen| && |r.threads| == |s.threads| && s.gp <= r.gp
    && r.threads == s.threads[t := r.threads[t]]
    && forall j :: 0 <= j < |s.seen| && j != Touched(s, t) ==>
         r.seen[j] == s.seen[j] && r.used[j] == s.used[j] && r.owner[j] == s.owner[j]
  }

  lemma StepIsOwn(s: State, t: nat, act: Act)
    requires Shape(s) && t < |s.threads| && Placed(s, t) && s.gp + 1 < HALF
    ensures OnlyOwn(s, t, Step(s, t, act)) && Step(s, t, act).gp <= s.gp + 1
  {
    assert Next(s.gp) == s.gp + 1;
  }

  /** A step of t leaves the slot of another thread alone. */
  lemma OthersSlot(s: State, t: nat, act: Act, u: nat)
    requires Inv(s) && t < |s.threads| && u < |s.threads| && u != t && s.gp + 1 < HALF
    ensures Placed(s, t)
    ensures var r := Step(s, t, act); var j := s.threads[u].slot;
      && |r.threads| == |s.threads| && |r.seen| == |r.used| == |r.owner| == |s.seen| && j < |s.seen|
      && r.threads[u] == s.threads[u]
      && (j >= 0 ==> r.seen[j] == s.seen[j] && r.used[j] == s.used[j] && r.owner[j] == s.owner[j])
  {
    assert ThreadOk(s, t) && ThreadOk(s, u);
    StepIsOwn(s, t, act);
    var j := s.threads[u].slot;
    if j >= 0 { assert SlotOk(s, j); }
  }

  lemma OthersThread(s: State, t: nat, act: Act, u: nat)
    requires Inv(s) && t < |s.threads| && u < |s.threads| && u != t && s.gp + 1 < HALF
    ensures Placed(s, t) && ThreadOk(Step(s, t, act), u)
  {
    OthersSlot(s, t, act, u);
    StepIsOwn(s, t, act);
    assert ThreadOk(s, u);
  }

  lemma OwnThreadBegins(s: State, t: nat, act: Act)
    requires Inv(s) && t < |s.threads| && s.gp + 1 < HALF && s.threads[t].pc.Idle?
    ensures Placed(s, t) && OnlyOwn(s, t, Step(s, t, act)) && ThreadOk(Step(s, t, act), t)
  {
    assert ThreadOk(s, t);
    StepIsOwn(s, t, act);
    assert ThreadOk(s, t);
    if s.threads[t].slot >= 0 { assert SlotOk(s, s.threads[t].slot); }
  }

  lemma OwnThreadGoesOn(s: State, t: nat, act: Act)
    requires Inv(s) && t < |s.threads| && s.gp + 1 < HALF && !s.threads[t].pc.Idle?
    ensures Placed(s, t) && OnlyOwn(s, t, Step(s, t, act)) && ThreadOk(Step(s, t, act), t)
  {
    assert ThreadOk(s, t);
    StepIsOwn(s, t, act);
    if s.threads[t].pc.RegCas? && s.threads[t].pc.i < |s.used| { assert SlotOk(s, s.threads[t].pc.i); }
  }

  lemma KeepsSlot(s: State, t: nat, act: Act, j: nat)
    requires Inv(s) && t < |s.threads| && j < |s.seen| && s.gp + 1 < HALF
    ensures Placed(s, t) && SlotOk(Step(s, t, act), j)
  {
    assert ThreadOk(s, t);
    StepIsOwn(s, t, act);
    assert SlotOk(s, j);
  }

  // ----- no writer passes a reader ----------------------------------------

  /** A writer steps past slot i: whoever owns it holds nothing older than the target. */
  lemma PassingIsSafe(s: State, w: nat, u: nat)
    requires Inv(s) && w < |s.threads| && u < |s.threads| && u != w
    requires s.threads[w].pc.Poll? || s.threads[w].pc.Wait?
    ensures ThreadOk(s, w)
    ensures var pc := s.threads[w].pc;
      && (pc.Poll? && pc.i < |s.used| && (pc.i == s.threads[w].slot || !s.used[pc.i])
          ==> forall x :: x in s.threads[u].held && x < pc.target ==> pc.i + 1 <= s.threads[u].slot)
      && (pc.Wait? && (s.seen[pc.i] == 0 || Passed(s.seen[pc.i], pc.target))
          ==> forall x :: x in s.threads[u].held && x < pc.target ==> pc.i + 1 <= s.threads[u].slot)
      && (pc.Poll? && pc.i == |s.used| ==> forall x :: x in s.threads[u].held ==> pc.target <= x)
  {
    assert ThreadOk(s, w) && ThreadOk(s, u) && Ahead(s, w, u);
    var j := s.threads[u].slot;
    if j >= 0 {
      assert SlotOk(s, j);
      PassedIsAtLeast(s.seen[j], s.threads[w].pc.target);
    }
  }

  lemma WriterAhead(s: State, t: nat, act: Act, u: nat)
    requires Inv(s) && t < |s.threads| && u < |s.threads| && u != t && s.gp + 1 < HALF
    ensures ThreadOk(s, t) && OnlyOwn(s, t, Step(s, t, act)) && Ahead(Step(s, t, act), t, u)
  {
    assert ThreadOk(s, t) && ThreadOk(s, u) && Ahead(s, t, u);
    StepIsOwn(s, t, act);
    if s.threads[t].pc.Poll? || s.threads[t].pc.Wait? { PassingIsSafe(s, t, u); }
  }

  lemma ReaderAhead(s: State, t: nat, act: Act, w: nat)
    requires Inv(s) && t < |s.threads| && w < |s.threads| && s.gp + 1 < HALF
    requires w == t || s.threads[t].pc.Idle?
    ensures ThreadOk(s, t) && OnlyOwn(s, t, Step(s, t, act)) && Ahead(Step(s, t, act), w, t)
  {
    assert ThreadOk(s, t) && ThreadOk(s, w) && Ahead(s, w, t);
    StepIsOwn(s, t, act);
  }

  lemma BusyAhead(s: State, t: nat, act: Act, w: nat)
    requires Inv(s) && t < |s.threads| && w < |s.threads| && s.gp + 1 < HALF
    requires w != t && !s.threads[t].pc.Idle?
    ensures ThreadOk(s, t) && OnlyOwn(s, t, Step(s, t, act)) && Ahead(Step(s, t, act), w, t)
  {
    assert ThreadOk(s, t) && ThreadOk(s, w);
    StepIsOwn(s, t, act);
    assert Step(s, t, act).threads[t].held == {};
  }

  lemma KeepsAhead(s: State, t: nat, act: Act, w: nat, u: nat)
    requires Inv(s) && t < |s.threads| && w < |s.threads| && u < |s.threads| && s.gp + 1 < HALF
    ensures ThreadOk(s, t) && OnlyOwn(s, t, Step(s, t, act)) && Ahead(Step(s, t, act), w, u)
  {
    if u == t {
      if w == t || s.threads[t].pc.Idle? { ReaderAhead(s, t, act, w); } else { BusyAhead(s, t, act, w); }
    } else if w == t {
      WriterAhead(s, t, act, u);
    } else {
      assert ThreadOk(s, t) && Ahead(s, w, u);
      StepIsOwn(s, t, act);
    }
  }

  lemma StepInv(s: State, t: nat, act: Act)
    requires Inv(s) && t < |s.threads| && s.gp + 1 < HALF
    ensures ThreadOk(s, t) && OnlyOwn(s, t, Step(s, t, act)) && Inv(Step(s, t, act)) && Step(s, t, act).gp <= s.gp + 1
  {
    assert ThreadOk(s, t);
    StepIsOwn(s, t, act);
    var r := Step(s, t, act);
    forall u | 0 <= u < |r.threads| ensures ThreadOk(r, u) {
      if u == t {
        if s.threads[t].pc.Idle? { OwnThreadBegins(s, t, act); } else { OwnThreadGoesOn(s, t, act); }
      } else {
        OthersThread(s, t, act, u);
      }
    }
    forall j | 0 <= j < |r.seen| ensures SlotOk(r, j) { KeepsSlot(s, t, act, j); }
    forall w, u | 0 <= w < |r.threads| && 0 <= u < |r.threads| ensures Ahead(r, w, u) { KeepsAhead(s, t, act, w, u); }
  }

  // ----- whole runs -------------------------------------------------------

  datatype Turn = Turn(t: nat, act: Act)

  /** Any interleaving of n threads, shorter than the 2^63 steps the counter has room for. */
  predicate Schedule(n: nat, turns: seq<Turn>) {
    |turns| < HALF - 1 && forall k :: 0 <= k < |turns| ==> turns[k].t < n
  }

  ghost function After(slots: nat, n: nat, turns: seq<Turn>): (s: State)
    requires Schedule(n, turns)
    ensures Inv(s) && |s.threads| == n && |s.used| == slots && s.gp <= |turns| + 1
  {
    if turns == [] then
      InitialInv(slots, n);
      Initial(slots, n)
    else
      var s := After(slots, n, turns[..|turns| - 1]);
      var turn := turns[|turns| - 1];
      StepInv(s, turn.t, turn.act);
      Step(s, turn.t, turn.act)
  }

  lemma {:induction false} OneMore(slots: nat, n: nat, turns: seq<Turn>, k: nat)
    requires Schedule(n, turns) && k < |turns|
    ensures var s := After(slots, n, turns[..k]);
      && Placed(s, turns[k].t) && After(slots, n, turns[..k + 1]) == Step(s, turns[k].t, turns[k].act)
  {
    assert turns[..k + 1][..k] == turns[..k];
    StepInv(After(slots, n, turns[..k]), turns[k].t, turns[k].act);
  }

  // ----- what a call has done when it returns -----------------------------

  /** Inside the call that thread t began with act when gp_seq was g, or back from it. */
  ghost predicate InCall(s: State, t: nat, act: Act, g: nat)
    requires Shape(s) && t < |s.threads| && Placed(s, t)
  {
    var th := s.threads[t];
    match act
    case Register =>
      && (th.pc.RegCas? || th.pc.Aborted? || GoesOnline(th.pc) || th.pc.Idle?)
      && (GoesOnline(th.pc) || th.pc.Idle? ==> OnlineSince(s, t, g))
    case Unregister => th.pc.UnUsed? || (th.pc.Idle? && th.slot == -1)
    case Quiesce => (th.pc.QsStore? && g <= th.pc.at) || (th.pc.Idle? && OnlineSince(s, t, g))
    case Synchronize =>
      && (th.pc.Offline? || th.pc.Poll? || th.pc.Wait? || GoesOnline(th.pc) || th.pc.Idle?)
      && (th.pc.Offline? || th.pc.Poll? || th.pc.Wait? ==> th.pc.target == g + 1)
      && (GoesOnline(th.pc) || th.pc.Idle? ==> th.ended == g + 1 && (th.slot >= 0 ==> OnlineSince(s, t, g + 1)))
    case _ => th.pc.Idle?
  }

  predicate GoesOnline(pc: Pc) {
    pc.OnLoad? || pc.OnSwap? || pc.OnCheck? || pc.OnStore?
  }

  /** The thread has a slot, which holds, or will hold when the call returns, at least g. */
  ghost predicate OnlineSince(s: State, t: nat, g: nat)
    requires Shape(s) && t < |s.threads| && Placed(s, t)
  {
    var th := s.threads[t];
    && th.slot >= 0 && g <= s.gp
    && (th.pc.OnSwap? || th.pc.OnCheck? ==> g <= th.pc.at)
    && (th.pc.OnStore? ==> g <= th.pc.now)
    && (th.pc.OnCheck? || th.pc.Idle? ==> g <= s.seen[th.slot])
  }

  /** The library call that act makes, when its caller may make it. */
  predicate Makes(th: Thread, act: Act) {
    match act
    case Register => th.slot < 0
    case Unregister => th.slot >= 0 && th.held == {}
    case Quiesce => th.slot >= 0 && th.held == {}
    case Synchronize => th.held == {}
    case _ => false
  }

  lemma CallBegins(s: State, t: nat, act: Act)
    requires Inv(s) && t < |s.threads| && s.gp + 1 < HALF && s.threads[t].pc.Idle? && Makes(s.threads[t], act)
    ensures ThreadOk(s, t) && OnlyOwn(s, t, Step(s, t, act)) && ThreadOk(Step(s, t, act), t)
    ensures InCall(Step(s, t, act), t, act, s.gp) && !Step(s, t, act).threads[t].pc.Idle?
  {
    OwnThreadBegins(s, t, act);
  }

  lemma CallGoesOn(s: State, t: nat, act: Act, any: Act, g: nat)
    requires Inv(s) && t < |s.threads| && s.gp + 1 < HALF && !s.threads[t].pc.Idle? && g <= s.gp
    requires ThreadOk(s, t) && InCall(s, t, act, g)
    ensures OnlyOwn(s, t, Step(s, t, any)) && ThreadOk(Step(s, t, any), t)
    ensures InCall(Step(s, t, any), t, act, g)
  {
    OwnThreadGoesOn(s, t, any);
  }

  lemma OthersInCall(s: State, t: nat, u: nat, act: Act, any: Act, g: nat)
    requires Inv(s) && t < |s.threads| && u < |s.threads| && t != u && s.gp + 1 < HALF
    requires ThreadOk(s, t) && InCall(s, t, act, g)
    ensures ThreadOk(s, u) && OnlyOwn(s, u, Step(s, u, any)) && ThreadOk(Step(s, u, any), t)
    ensures InCall(Step(s, u, any), t, act, g)
  {
    assert ThreadOk(s, u);
    OthersThread(s, u, any, t);
    OthersSlot(s, u, any, t);
    StepIsOwn(s, u, any);
  }

  lemma StepInCall(s: State, t: nat, u: nat, act: Act, any: Act, g: nat)
    requires Inv(s) && t < |s.threads| && u < |s.threads| && s.gp + 1 < HALF && !s.threads[t].pc.Idle? && g <= s.gp
    requires ThreadOk(s, t) && InCall(s, t, act, g)
    ensures ThreadOk(s, u) && OnlyOwn(s, u, Step(s, u, any)) && ThreadOk(Step(s, u, any), t)
    ensures InCall(Step(s, u, any), t, act, g)
  {
    if u == t { CallGoesOn(s, t, act, any, g); } else { OthersInCall(s, t, u, act, any, g); }
  }

  /** Turn i begins a call of thread t, and t has not been outside the library since, up to turn j. */
  ghost predicate Calling(slots: nat, n: nat, turns: seq<Turn>, t: nat, act: Act, i: nat, j: nat) {
    && Schedule(n, turns) && i < j <= |turns| && t < n && turns[i] == Turn(t, act)
    && After(slots, n, turns[..i]).threads[t].pc.Idle? && Makes(After(slots, n, turns[..i]).threads[t], act)
    && forall k {:trigger After(slots, n, turns[..k])} :: i < k < j ==> !After(slots, n, turns[..k]).threads[t].pc.Idle?
  }

  /** The state after the first j turns, with thread t in the call. */
  ghost predicate CallAt(slots: nat, n: nat, turns: seq<Turn>, t: nat, act: Act, g: nat, j: nat)
    requires Schedule(n, turns) && j <= |turns| && t < n
  {
    var s := After(slots, n, turns[..j]);
    Placed(s, t) && InCall(s, t, act, g) && g <= s.gp
  }

  /** gp_seq after i turns. */
  ghost function GpAt(slots: nat, n: nat, turns: seq<Turn>, i: nat): nat
    requires Schedule(n, turns) && i <= |turns|
  {
    After(slots, n, turns[..i]).gp
  }

  lemma CallBegun(slots: nat, n: nat, turns: seq<Turn>, t: nat, act: Act, i: nat)
    requires Schedule(n, turns) && i < |turns| && t < n && turns[i] == Turn(t, act)
    requires After(slots, n, turns[..i]).threads[t].pc.Idle? && Makes(After(slots, n, turns[..i]).threads[t], act)
    ensures CallAt(slots, n, turns, t, act, GpAt(slots, n, turns, i), i + 1)
  {
    OneMore(slots, n, turns, i);
    CallBegins(After(slots, n, turns[..i]), t, act);
  }

  lemma CallStep(slots: nat, n: nat, turns: seq<Turn>, t: nat, act: Act, g: nat, j: nat)
    requires Schedule(n, turns) && j < |turns| && t < n && CallAt(slots, n, turns, t, act, g, j)
    requires !After(slots, n, turns[..j]).threads[t].pc.Idle?
    ensures CallAt(slots, n, turns, t, act, g, j + 1)
  {
    OneMore(slots, n, turns, j);
    var s := After(slots, n, turns[..j]);
    assert ThreadOk(s, t);
    StepInCall(s, t, turns[j].t, act, turns[j].act, g);
  }

  lemma CallBefore(slots: nat, n: nat, turns: seq<Turn>, t: nat, act: Act, i: nat, j: nat)
    requires Calling(slots, n, turns, t, act, i, j) && i + 1 < j
    ensures Calling(slots, n, turns, t, act, i, j - 1) && !After(slots, n, turns[..j - 1]).threads[t].pc.Idle?
  {
    assert !After(slots, n, turns[..j - 1]).threads[t].pc.Idle?;
  }

  lemma CallContinues(slots: nat, n: nat, turns: seq<Turn>, t: nat, act: Act, i: nat, g: nat, j: nat)
    requires Calling(slots, n, turns, t, act, i, j) && i + 1 < j && CallAt(slots, n, turns, t, act, g, j - 1)
    ensures CallAt(slots, n, turns, t, act, g, j)
  {
    CallBefore(slots, n, turns, t, act, i, j);
    CallStep(slots, n, turns, t, act, g, j - 1);
  }

  lemma {:induction false} CallRuns(slots: nat, n: nat, turns: seq<Turn>, t: nat, act: Act, i: nat, j: nat)
    requires Calling(slots, n, turns, t, act, i, j)
    ensures CallAt(slots, n, turns, t, act, GpAt(slots, n, turns, i), j)
    decreases j
  {
    if j == i + 1 {
      CallBegun(slots, n, turns, t, act, i);
    } else {
      CallBefore(slots, n, turns, t, act, i, j);
      CallRuns(slots, n, turns, t, act, i, j - 1);
      CallContinues(slots, n, turns, t, act, i, GpAt(slots, n, turns, i), j);
    }
  }

  /** When a call has returned: a registered thread is online and has seen the counter of its call; an
      unregistered one has no slot; a quiescent state is reported with the counter of its call. */
  lemma {:induction false} CallReturns(slots: nat, n: nat, turns: seq<Turn>, t: nat, act: Act, i: nat, j: nat)
    requires Calling(slots, n, turns, t, act, i, j) && After(slots, n, turns[..j]).threads[t].pc.Idle?
    ensures var s, g := After(slots, n, turns[..j]), After(slots, n, turns[..i]).gp; var slot := s.threads[t].slot;
      && (act.Register? || act.Quiesce? ==>
          0 <= slot < slots && s.used[slot] && s.owner[slot] == t && g <= s.seen[slot])
      && (act.Unregister? ==> slot == -1)
      && (act.Synchronize? && slot >= 0 ==> slot < slots && g + 1 <= s.seen[slot])
  {
    CallRuns(slots, n, turns, t, act, i, j);
    var s := After(slots, n, turns[..j]);
    assert ThreadOk(s, t);
    if s.threads[t].slot >= 0 { assert SlotOk(s, s.threads[t].slot); }
  }

  /** Since turn i, which called synchronize_rcu when gp_seq was g, thread w has not forgotten the wait. */
  ghost predicate Waited(s: State, w: nat, g: nat)
    requires w < |s.threads|
  {
    var th := s.threads[w];
    if th.pc.Offline? || th.pc.Poll? || th.pc.Wait? then g + 1 <= th.pc.target else g + 1 <= th.ended
  }

  lemma StepWaited(s: State, w: nat, u: nat, act: Act, g: nat)
    requires Inv(s) && w < |s.threads| && u < |s.threads| && s.gp + 1 < HALF && g + 1 <= s.gp && Waited(s, w, g)
    ensures ThreadOk(s, u) && OnlyOwn(s, u, Step(s, u, act)) && Waited(Step(s, u, act), w, g)
  {
    assert ThreadOk(s, u);
    StepIsOwn(s, u, act);
  }

  ghost predicate WaitAt(slots: nat, n: nat, turns: seq<Turn>, w: nat, g: nat, j: nat)
    requires Schedule(n, turns) && j <= |turns| && w < n
  {
    g + 1 <= After(slots, n, turns[..j]).gp && Waited(After(slots, n, turns[..j]), w, g)
  }

  lemma WaitBegun(slots: nat, n: nat, turns: seq<Turn>, w: nat, i: nat)
    requires Schedule(n, turns) && i < |turns| && w < n && turns[i] == Turn(w, Synchronize)
    requires var th := After(slots, n, turns[..i]).threads[w]; th.pc.Idle? && th.held == {}
    ensures WaitAt(slots, n, turns, w, After(slots, n, turns[..i]).gp, i + 1)
  {
    OneMore(slots, n, turns, i);
    CallBegins(After(slots, n, turns[..i]), w, Synchronize);
  }

  lemma WaitStep(slots: nat, n: nat, turns: seq<Turn>, w: nat, g: nat, j: nat)
    requires Schedule(n, turns) && j < |turns| && w < n && WaitAt(slots, n, turns, w, g, j)
    ensures WaitAt(slots, n, turns, w, g, j + 1)
  {
    OneMore(slots, n, turns, j);
    StepWaited(After(slots, n, turns[..j]), w, turns[j].t, turns[j].act, g);
  }

  lemma {:induction false} WaitIsKept(slots: nat, n: nat, turns: seq<Turn>, w: nat, g: nat, i: nat, j: nat)
    requires Schedule(n, turns) && i <= j <= |turns| && w < n && WaitAt(slots, n, turns, w, g, i)
    ensures WaitAt(slots, n, turns, w, g, j)
    decreases j
  {
    if i < j {
      WaitIsKept(slots, n, turns, w, g, i, j - 1);
      WaitStep(slots, n, turns, w, g, j - 1);
    }
  }

  /** Nobody holds a pointer older than the last wait of any thread. */
  lemma {:induction false} NoneOlder(slots: nat, n: nat, turns: seq<Turn>, w: nat, u: nat, x: nat)
    requires Schedule(n, turns) && w < n && u < n
    requires x in After(slots, n, turns).threads[u].held
    ensures After(slots, n, turns).threads[w].ended <= x
  {
    assert Ahead(After(slots, n, turns), w, u);
  }

  /** The grace period: when a thread that called synchronize_rcu is outside the library again, no thread
      holds a pointer that it loaded before the call advanced gp_seq. */
  lemma {:induction false} GracePeriod(slots: nat, n: nat, turns: seq<Turn>, w: nat, i: nat, j: nat, u: nat, x: nat)
    requires Schedule(n, turns) && i < j <= |turns| && w < n && u < n && turns[i] == Turn(w, Synchronize)
    requires var th := After(slots, n, turns[..i]).threads[w]; th.pc.Idle? && th.held == {}
    requires After(slots, n, turns[..j]).threads[w].pc.Idle? && x in After(slots, n, turns[..j]).threads[u].held
    ensures After(slots, n, turns[..i]).gp + 1 <= x
  {
    WaitBegun(slots, n, turns, w, i);
    WaitIsKept(slots, n, turns, w, After(slots, n, turns[..i]).gp, i + 1, j);
    NoneOlder(slots, n, turns[..j], w, u, x);
  }

  // ----- enough slots -----------------------------------------------------

  /** The slot a thread has, or is trying to take; -1 for none. */
  function Level(th: Thread): int {
    if th.pc.RegCas? then th.pc.i else th.slot
  }

  /** How many threads have got as far as slot q. */
  function Climbers(ths: seq<Thread>, q: nat): (c: nat)
    ensures c <= |ths|
  {
    if ths == [] then 0
    else Climbers(ths[..|ths| - 1], q) + if Level(ths[|ths| - 1]) >= q then 1 else 0
  }

  lemma {:induction false} OneClimbs(ths: seq<Thread>, t: nat, x: Thread, q: nat)
    requires t < |ths|
    ensures Climbers(ths[t := x], q)
      == Climbers(ths, q) - (if Level(ths[t]) >= q then 1 else 0) + (if Level(x) >= q then 1 else 0)
  {
    var last := |ths| - 1;
    if t == last {
      assert ths[t := x][..last] == ths[..last];
    } else {
      assert ths[t := x][..last] == ths[..last][t := x];
      OneClimbs(ths[..last], t, x, q);
    }
  }

  lemma {:induction false} FewerAbove(ths: seq<Thread>, q: nat)
    ensures Climbers(ths, q + 1) <= Climbers(ths, q)
  {
    if ths != [] { FewerAbove(ths[..|ths| - 1], q); }
  }

  /** A thread at slot q and one that tries it are not among those further up. */
  lemma TwoBelow(ths: seq<Thread>, t: nat, u: nat, q: nat)
    requires t < |ths| && u < |ths| && t != u && Level(ths[t]) == Level(ths[u]) == q
    ensures Climbers(ths, q + 1) + 2 <= Climbers(ths, q)
  {
    var none := Thread(Idle, -1, {}, 0);
    var rest := ths[t := none];
    OneClimbs(ths, t, none, q);
    OneClimbs(ths, t, none, q + 1);
    OneClimbs(rest, u, none, q);
    OneClimbs(rest, u, none, q + 1);
    FewerAbove(rest[u := none], q);
  }

  /** Whoever has got to slot q has left a slot below to each of q others. */
  ghost predicate Roomy(ths: seq<Thread>, q: nat) {
    Climbers(ths, q) > 0 ==> Climbers(ths, q) + q <= |ths|
  }

  lemma StepRoomy(s: State, t: nat, act: Act, q: nat)
    requires Inv(s) && t < |s.threads| && s.gp + 1 < HALF && Roomy(s.threads, q)
    requires q > 0 ==> Roomy(s.threads, q - 1)
    ensures ThreadOk(s, t) && Roomy(Step(s, t, act).threads, q)
  {
    assert ThreadOk(s, t);
    StepIsOwn(s, t, act);
    var r := Step(s, t, act);
    OneClimbs(s.threads, t, r.threads[t], q);
    LevelsRise(s, t, act);
    if s.threads[t].pc.RegCas? && r.threads[t].pc.RegCas? && q == s.threads[t].pc.i + 1 {
      var i := s.threads[t].pc.i;
      assert SlotOk(s, i);
      assert ThreadOk(s, s.owner[i]);
      TwoBelow(s.threads, t, s.owner[i], i);
    }
  }

  /** Only a registration climbs, one slot at a time, past a slot in use. */
  lemma LevelsRise(s: State, t: nat, act: Act)
    requires Inv(s) && t < |s.threads| && s.gp + 1 < HALF
    ensures ThreadOk(s, t)
    ensures var r, pc := Step(s, t, act), s.threads[t].pc;
      && t < |r.threads|
      && (Level(r.threads[t]) <= Level(s.threads[t]) || Level(r.threads[t]) == 0
          || (pc.RegCas? && pc.i < |s.used| && s.used[pc.i] && r.threads[t].pc == RegCas(pc.i + 1)))
  {
    assert ThreadOk(s, t);
  }

  lemma {:induction false} RunRoomy(slots: nat, n: nat, turns: seq<Turn>, q: nat)
    requires Schedule(n, turns)
    ensures Roomy(After(slots, n, turns).threads, q)
    decreases |turns|, q
  {
    if turns == [] {
      NobodyClimbs(seq(n, _ => Thread(Idle, -1, {}, 0)), q);
    } else {
      var before, turn := turns[..|turns| - 1], turns[|turns| - 1];
      RunRoomy(slots, n, before, q);
      if q > 0 { RunRoomy(slots, n, before, q - 1); }
      StepRoomy(After(slots, n, before), turn.t, turn.act, q);
    }
  }

  lemma {:induction false} NobodyClimbs(ths: seq<Thread>, q: nat)
    requires forall t :: 0 <= t < |ths| ==> Level(ths[t]) == -1
    ensures Climbers(ths, q) == 0
  {
    if ths != [] { NobodyClimbs(ths[..|ths| - 1], q); }
  }

  ghost predicate Aborts(s: State) {
    exists t :: 0 <= t < |s.threads| && s.threads[t].pc.Aborted?
  }

  /** As long as there are no more threads than slots, every registration finds one, however the threads
      come and go while it looks. */
  lemma {:induction false} EnoughSlots(slots: nat, n: nat, turns: seq<Turn>)
    requires Schedule(n, turns) && n <= slots
    ensures !Aborts(After(slots, n, turns))
  {
    if turns != [] {
      var before, turn := turns[..|turns| - 1], turns[|turns| - 1];
      var s := After(slots, n, before);
      EnoughSlots(slots, n, before);
      assert ThreadOk(s, turn.t);
      StepIsOwn(s, turn.t, turn.act);
      if s.threads[turn.t].pc == RegCas(slots) {
        RunRoomy(slots, n, before, slots);
        OneClimbs(s.threads, turn.t, Thread(Idle, -1, {}, 0), slots);
      }
      forall t | 0 <= t < n ensures !Step(s, turn.t, turn.act).threads[t].pc.Aborted? {
        assert !s.threads[t].pc.Aborted?;
      }
    }
  }

  /** The first m slots are taken; thread m is at pc and the threads after it have not begun. */
  ghost predicate Filled(s: State, slots: nat, m: nat, pc: Pc) {
    && |s.used| == slots && m <= slots && m < |s.threads|
    && (forall j :: 0 <= j < slots ==> (s.used[j] <==> j < m))
    && (forall t :: m <= t < |s.threads| ==> s.threads[t] == Thread(if t == m then pc else Idle, -1, {}, 0))
  }

  lemma AfterOneMore(slots: nat, n: nat, turns: seq<Turn>, turn: Turn)
    requires Schedule(n, turns) && turn.t < n && Schedule(n, turns + [turn])
    ensures var s := After(slots, n, turns);
      Placed(s, turn.t) && After(slots, n, turns + [turn]) == Step(s, turn.t, turn.act)
  {
    assert (turns + [turn])[..|turns|] == turns;
    OneMore(slots, n, turns + [turn], |turns|);
    assert (turns + [turn])[..|turns| + 1] == turns + [turn];
  }

  /** Thread m begins to register, and finds the first i slots taken. */
  lemma {:induction false} Climbs(slots: nat, n: nat, turns: seq<Turn>, m: nat, i: nat) returns (more: seq<Turn>)
    requires Schedule(n, turns) && |turns| + i + 2 < HALF - 1 && i <= m
    requires Filled(After(slots, n, turns), slots, m, Idle)
    ensures Schedule(n, more) && |more| == |turns| + i + 1 && Filled(After(slots, n, more), slots, m, RegCas(i))
  {
    if i == 0 {
      more := turns + [Turn(m, Register)];
      AfterOneMore(slots, n, turns, Turn(m, Register));
    } else {
      var before := Climbs(slots, n, turns, m, i - 1);
      more := before + [Turn(m, Register)];
      AfterOneMore(slots, n, before, Turn(m, Register));
    }
  }

  /** How many turns m threads take to register one after the other. */
  function TurnsOf(m: nat): nat {
    if m == 0 then 0 else TurnsOf(m - 1) + m + 1
  }

  lemma {:induction false} FillsUp(slots: nat, n: nat, m: nat) returns (turns: seq<Turn>)
    requires m <= slots < n && TurnsOf(m) < HALF - 1
    ensures Schedule(n, turns) && |turns| == TurnsOf(m) && Filled(After(slots, n, turns), slots, m, Idle)
  {
    if m == 0 {
      turns := [];
    } else {
      var before := FillsUp(slots, n, m - 1);
      var looked := Climbs(slots, n, before, m - 1, m - 1);
      turns := looked + [Turn(m - 1, Register)];
      AfterOneMore(slots, n, looked, Turn(m - 1, Register));
      SlotTaken(After(slots, n, looked), slots, m - 1);
    }
  }

  lemma SlotTaken(s: State, slots: nat, m: nat)
    requires Inv(s) && Filled(s, slots, m, RegCas(m)) && m < slots && m + 1 < |s.threads|
    ensures Placed(s, m) && Filled(Step(s, m, Register), slots, m + 1, Idle)
  {
    assert ThreadOk(s, m);
  }

  /** With one thread more than slots, a registration may find none. */
  lemma {:induction false} OneThreadTooMany(slots: nat, n: nat) returns (turns: seq<Turn>)
    requires slots < n && TurnsOf(slots + 1) < HALF - 1
    ensures Schedule(n, turns) && Aborts(After(slots, n, turns))
  {
    var full := FillsUp(slots, n, slots);
    var looked := Climbs(slots, n, full, slots, slots);
    turns := looked + [Turn(slots, Register)];
    AfterOneMore(slots, n, looked, Turn(slots, Register));
    assert After(slots, n, turns).threads[slots].pc.Aborted?;
  }

  // ----- pointers loaded and dropped --------------------------------------

  /** Turn k loads the pointer of stamp x into thread u. */
  ghost predicate Loads(slots: nat, n: nat, turns: seq<Turn>, u: nat, x: nat, k: nat)
    requires Schedule(n, turns) && u < n
  {
    && k < |turns| && turns[k] == Turn(u, Load)
    && var s := After(slots, n, turns[..k]); s.threads[u].pc.Idle? && s.threads[u].slot >= 0 && s.gp == x
  }

  /** Turn m drops it. */
  ghost predicate Drops(slots: nat, n: nat, turns: seq<Turn>, u: nat, x: nat, m: nat)
    requires Schedule(n, turns) && u < n
  {
    m < |turns| && turns[m] == Turn(u, Drop(x)) && After(slots, n, turns[..m]).threads[u].pc.Idle?
  }

  /** Turn k loads x, and up to turn j it is not dropped. */
  ghost predicate HeldSince(slots: nat, n: nat, turns: seq<Turn>, u: nat, x: nat, k: nat, j: nat)
    requires Schedule(n, turns) && u < n
  {
    && k < j && Loads(slots, n, turns, u, x, k)
    && forall m {:trigger Drops(slots, n, turns, u, x, m)} :: k < m < j ==> !Drops(slots, n, turns, u, x, m)
  }

  /** After j turns, thread u holds x. */
  ghost predicate HoldsAt(slots: nat, n: nat, turns: seq<Turn>, u: nat, x: nat, j: nat)
    requires Schedule(n, turns) && j <= |turns| && u < n
  {
    x in After(slots, n, turns[..j]).threads[u].held
  }

  lemma StepHeld(slots: nat, n: nat, turns: seq<Turn>, u: nat, x: nat, j: nat)
    requires Schedule(n, turns) && j < |turns| && u < n
    ensures HoldsAt(slots, n, turns, u, x, j + 1) <==>
      Loads(slots, n, turns, u, x, j)
      || (HoldsAt(slots, n, turns, u, x, j) && !Drops(slots, n, turns, u, x, j))
  {
    OneMore(slots, n, turns, j);
    var s := After(slots, n, turns[..j]);
    assert ThreadOk(s, turns[j].t);
    if turns[j].t != u { StepIsOwn(s, turns[j].t, turns[j].act); }
  }

  lemma StillHeld(slots: nat, n: nat, turns: seq<Turn>, u: nat, x: nat, k: nat, j: nat)
    requires Schedule(n, turns) && u < n && k < j
    ensures HeldSince(slots, n, turns, u, x, k, j + 1) <==>
      HeldSince(slots, n, turns, u, x, k, j) && !Drops(slots, n, turns, u, x, j)
  {
  }

  lemma NothingHeld(slots: nat, n: nat, turns: seq<Turn>, u: nat, x: nat)
    requires Schedule(n, turns) && u < n
    ensures !HoldsAt(slots, n, turns, u, x, 0)
  {
  }

  /** Some turn loads x into u, and it has not been dropped since. */
  ghost predicate Loaded(slots: nat, n: nat, turns: seq<Turn>, u: nat, x: nat, j: nat)
    requires Schedule(n, turns) && u < n
  {
    exists k :: HeldSince(slots, n, turns, u, x, k, j)
  }

  lemma LatestLoad(slots: nat, n: nat, turns: seq<Turn>, u: nat, x: nat, j: nat)
    requires Schedule(n, turns) && j < |turns| && u < n
    ensures Loaded(slots, n, turns, u, x, j + 1) <==>
      Loads(slots, n, turns, u, x, j)
      || (Loaded(slots, n, turns, u, x, j) && !Drops(slots, n, turns, u, x, j))
  {
    if Loads(slots, n, turns, u, x, j) {
      assert HeldSince(slots, n, turns, u, x, j, j + 1);
    } else if k: nat :| HeldSince(slots, n, turns, u, x, k, j) {
      StillHeld(slots, n, turns, u, x, k, j);
    }
    if Loaded(slots, n, turns, u, x, j + 1) {
      var next := j + 1;
      var k: nat :| HeldSince(slots, n, turns, u, x, k, next);
      if k < j { StillHeld(slots, n, turns, u, x, k, j); }
    }
  }

  /** The pointers a thread holds are those that it has loaded and not dropped since. */
  lemma {:induction false} HeldExactly(slots: nat, n: nat, turns: seq<Turn>, u: nat, x: nat, j: nat)
    requires Schedule(n, turns) && j <= |turns| && u < n
    ensures HoldsAt(slots, n, turns, u, x, j) <==> Loaded(slots, n, turns, u, x, j)
  {
    if j == 0 {
      NothingHeld(slots, n, turns, u, x);
    } else {
      HeldExactly(slots, n, turns, u, x, j - 1);
      NextHeld(slots, n, turns, u, x, j - 1);
    }
  }

  lemma NextHeld(slots: nat, n: nat, turns: seq<Turn>, u: nat, x: nat, j: nat)
    requires Schedule(n, turns) && j < |turns| && u < n
    ensures (HoldsAt(slots, n, turns, u, x, j) <==> Loaded(slots, n, turns, u, x, j)) ==>
      (HoldsAt(slots, n, turns, u, x, j + 1) <==> Loaded(slots, n, turns, u, x, j + 1))
  {
    StepHeld(slots, n, turns, u, x, j);
    LatestLoad(slots, n, turns, u, x, j);
  }

  lemma {:induction false} GpGrows(slots: nat, n: nat, turns: seq<Turn>, i: nat, j: nat)
    requires Schedule(n, turns) && i <= j <= |turns|
    ensures After(slots, n, turns[..i]).gp <= After(slots, n, turns[..j]).gp
  {
    if i < j {
      GpGrows(slots, n, turns, i, j - 1);
      OneMore(slots, n, turns, j - 1);
      StepInv(After(slots, n, turns[..j - 1]), turns[j - 1].t, turns[j - 1].act);
    }
  }

  /** What synchronize_rcu is for: a pointer loaded before the call has been dropped when the call returns. */
  lemma {:induction false} ReadersHaveDropped(slots: nat, n: nat, turns: seq<Turn>, w: nat, i: nat, j: nat, u: nat,
      x: nat, k: nat) returns (m: nat)
    requires Schedule(n, turns) && i < j <= |turns| && w < n && u < n && turns[i] == Turn(w, Synchronize)
    requires var th := After(slots, n, turns[..i]).threads[w]; th.pc.Idle? && th.held == {}
    requires After(slots, n, turns[..j]).threads[w].pc.Idle?
    requires k < i && Loads(slots, n, turns, u, x, k)
    ensures k < m < j && Drops(slots, n, turns, u, x, m)
  {
    GpGrows(slots, n, turns, k, i);
    if forall m {:trigger Drops(slots, n, turns, u, x, m)} :: k < m < j ==> !Drops(slots, n, turns, u, x, m) {
      assert HeldSince(slots, n, turns, u, x, k, j);
      HeldExactly(slots, n, turns, u, x, j);
      GracePeriod(slots, n, turns, w, i, j, u, x);
    }
    m :| k < m < j && Drops(slots, n, turns, u, x, m);
  }

  /** The step that ends the loop is the one that records the target. */
  lemma {:induction false} LoopEndsAtTarget(slots: nat, n: nat, turns: seq<Turn>, w: nat, act: Act)
    requires Schedule(n, turns) && w < n
    requires After(slots, n, turns).threads[w].pc.Poll? && After(slots, n, turns).threads[w].pc.i == slots
    ensures var s := After(slots, n, turns);
      && ThreadOk(s, w)
      && var r := Step(s, w, act);
         && |r.threads| == n && r.threads[w].ended == s.threads[w].pc.target
             && (r.threads[w].pc.Idle? || r.threads[w].pc.OnLoad?)
         && forall u, x :: 0 <= u < n && x in r.threads[u].held ==> s.threads[w].pc.target <= x
  {
    var s := After(slots, n, turns);
    assert ThreadOk(s, w);
    forall u, x | 0 <= u < n && x in s.threads[u].held ensures s.threads[w].pc.target <= x {
      assert ThreadOk(s, u);
      if u != w { PassingIsSafe(s, w, u); }
    }
  }

  /** A writer in its loop keeps its own slot offline, so another writer steps past it at once. */
  lemma WriterPassesWriter(s: State, v: nat, w: nat, act: Act)
    requires Inv(s) && v < |s.threads| && w < |s.threads|
    requires s.threads[v].pc.Poll? || s.threads[v].pc.Wait?
    requires s.threads[w].pc.Wait? && s.threads[w].pc.i == s.threads[v].slot
    ensures Placed(s, w) && Step(s, w, act) == Goto(s, w, Poll(s.threads[w].pc.i + 1, s.threads[w].pc.target))
  {
    assert ThreadOk(s, w) && ThreadOk(s, v);
  }

  /** A writer that waits in vain waits for an online thread that has not reported since the call. */
  lemma WaitsForReader(s: State, w: nat, act: Act) returns (u: nat)
    requires Inv(s) && w < |s.threads| && s.threads[w].pc.Wait?
    ensures Placed(s, w) && u < |s.threads|
    ensures var pc := s.threads[w].pc; Step(s, w, act) == s ==>
        u != w && s.threads[u].slot == pc.i && Online(s.threads[u].pc) && 0 < s.seen[pc.i] < pc.target
  {
    assert ThreadOk(s, w);
    var i := s.threads[w].pc.i;
    assert SlotOk(s, i);
    PassedIsAtLeast(s.seen[i], s.threads[w].pc.target);
    u := if s.owner[i] == -1 then w else s.owner[i];
    assert ThreadOk(s, u);
  }

  /** A quiescent state of the slot's owner, two accesses, lets the writer go on. */
  lemma QuiescenceReleases(s: State, w: nat, u: nat, act: Act, any: Act)
    requires Inv(s) && s.gp + 2 < HALF && w < |s.threads| && u < |s.threads| && u != w
    requires s.threads[w].pc.Wait? && s.threads[w].pc.i == s.threads[u].slot
    requires s.threads[u].pc.Idle? && s.threads[u].held == {}
    ensures ThreadOk(s, u)
    ensures var r := Step(s, u, Quiesce);
      && Shape(r) && u < |r.threads| && Placed(r, u)
      && var q := Step(r, u, any);
         Shape(q) && w < |q.threads| && Placed(q, w)
             && Step(q, w, act).threads[w].pc == Poll(s.threads[w].pc.i + 1, s.threads[w].pc.target)
  {
    assert ThreadOk(s, u) && ThreadOk(s, w);
    PassedIsAtLeast(s.gp, s.threads[w].pc.target);
  }

  /** go_online against a writer in its loop: after the exchange the writer finds the slot online, and
      the second load returns at least the writer's target, which the slot holds when go_online is over. */
  lemma GoOnlineRace(s: State, w: nat, u: nat, act: Act, any: Act)
    requires Inv(s) && w < |s.threads| && u < |s.threads|
    requires s.threads[u].pc.OnCheck? && (s.threads[w].pc.Poll? || s.threads[w].pc.Wait?)
    ensures ThreadOk(s, u) && s.seen[s.threads[u].slot] != 0
    ensures var r := Step(s, u, act); var j, target := s.threads[u].slot, s.threads[w].pc.target;
      && Shape(r) && u < |r.threads| && |r.seen| == |s.seen| && Placed(r, u)
      && (r.threads[u].pc.Idle? ==> target <= r.seen[j])
      && (!r.threads[u].pc.Idle? ==>
            var q := Step(r, u, any);
            r.threads[u].pc.OnStore? && target <= r.threads[u].pc.now
            && u < |q.threads| && |q.seen| == |s.seen| && q.threads[u].pc.Idle? && target <= q.seen[j])
  {
    assert ThreadOk(s, u) && ThreadOk(s, w);
  }

  // ----- the library, updated in place ------------------------------------

  /** gp_seq, slot[] and the threads that use them. */
  class Library {
    var gp: nat
    const seen: array<nat>
    const used: array<bool>
    ghost var owner: seq<int>
    const threads: array<Thread>

    ghost function View(): State
      reads this, seen, used, threads
    {
      State(gp, seen[..], used[..], owner, threads[..])
    }

    ghost predicate Ready(t: nat)
      reads this, seen, used, threads
    {
      Shape(View()) && t < threads.Length && Placed(View(), t)
    }

    constructor (slots: nat, n: nat)
      ensures View() == Initial(slots, n) && fresh(seen) && fresh(used) && fresh(threads)
    {
      gp := 1;
      seen := new nat[slots](_ => 0);
      used := new bool[slots](_ => false);
      owner := seq(slots, _ => -1);
      threads := new Thread[n](_ => Thread(Idle, -1, {}, 0));
    }

    method SetPc(t: nat, pc: Pc)
      requires t < threads.Length
      modifies threads
      ensures View() == Goto(old(View()), t, pc)
    {
      threads[t] := threads[t].(pc := pc);
    }

    /** The first access of a call, or a step of the client. */
    method BeginAccess(t: nat, act: Act)
      requires Ready(t)
      modifies this, seen, threads
      ensures View() == Begin(old(View()), t, act)
    {
      var th := threads[t];
      match act
      case Register =>
        if th.slot < 0 { SetPc(t, RegCas(0)); }
      case Unregister =>
        if th.slot >= 0 && th.held == {} {
          seen[th.slot] := 0;
          SetPc(t, UnUsed);
        }
      case Quiesce =>
        if th.slot >= 0 && th.held == {} { SetPc(t, QsStore(gp)); }
      case Synchronize =>
        if th.held == {} {
          gp := Next(gp);
          SetPc(t, if th.slot >= 0 then Offline(gp) else Poll(0, gp));
        }
      case Load =>
        if th.slot >= 0 { threads[t] := th.(held := th.held + {gp}); }
      case Drop(stamp) => threads[t] := th.(held := th.held - {stamp});
    }

    /** rcu_register_thread tries slot i. */
    method TakeAccess(t: nat, i: nat)
      requires Ready(t) && i <= used.Length
      modifies this, used, threads
      ensures View() == TakeSlot(old(View()), t, i)
    {
      if i == used.Length {
        SetPc(t, Aborted);
      } else if used[i] {
        SetPc(t, RegCas(i + 1));
      } else {
        used[i] := true;
        owner := owner[i := t];
        threads[t] := threads[t].(pc := OnLoad, slot := i);
      }
    }

    /** The loop of synchronize_rcu. */
    method LookAccess(t: nat, i: nat, target: nat)
      requires Ready(t) && i <= used.Length
      modifies threads
      ensures View() == LookAt(old(View()), t, i, target)
    {
      if i == used.Length {
        threads[t] := threads[t].(pc := if threads[t].slot >= 0 then OnLoad else Idle, ended := target);
      } else if i == threads[t].slot || !used[i] {
        SetPc(t, Poll(i + 1, target));
      } else {
        SetPc(t, Wait(i, target));
      }
    }

    method SeenAccess(t: nat, value: nat, pc: Pc)
      requires Ready(t) && threads[t].slot >= 0
      modifies seen, threads
      ensures View() == Goto(old(View()), t, pc).(seen := old(View()).seen[old(threads[t].slot) := value])
    {
      seen[threads[t].slot] := value;
      threads[t] := threads[t].(pc := pc);
    }

    /** One access of thread t, wherever it is. */
    method Access(t: nat, act: Act)
      requires Ready(t)
      modifies this, seen, used, threads
      ensures View() == Step(old(View()), t, act)
    {
      var th := threads[t];
      match th.pc
      case Idle => BeginAccess(t, act);
      case QsStore(at) => SeenAccess(t, at, Idle);
      case RegCas(i) => TakeAccess(t, i);
      case OnLoad => SetPc(t, OnSwap(gp));
      case OnSwap(at) => SeenAccess(t, at, OnCheck(at));
      case OnCheck(at) => SetPc(t, if gp != at then OnStore(gp) else Idle);
      case OnStore(now) => SeenAccess(t, now, Idle);
      case UnUsed =>
        used[th.slot] := false;
        owner := owner[th.slot := -1];
        threads[t] := th.(pc := Idle, slot := -1);
      case Offline(target) => SeenAccess(t, 0, Poll(0, target));
      case Poll(i, target) => LookAccess(t, i, target);
      case Wait(i, target) =>
        if seen[i] == 0 || Passed(seen[i], target) { SetPc(t, Poll(i + 1, target)); }
      case Aborted =>
    }

    /** The threads run under a schedule. */
    method Run(turns: seq<Turn>)
      requires View() == Initial(used.Length, threads.Length) && Schedule(threads.Length, turns)
      modifies this, seen, used, threads
      ensures View() == After(used.Length, threads.Length, turns)
    {
      var k := 0;
      assert turns[..0] == [];
      while k < |turns|
        invariant k <= |turns| && View() == After(used.Length, threads.Length, turns[..k])
      {
        OneMore(used.Length, threads.Length, turns, k);
        Access(turns[k].t, turns[k].act);
        k := k + 1;
      }
      assert turns[..k] == turns;
    }
  }
}
