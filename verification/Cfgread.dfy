/** cfgread.c in its rcu and nogp modes: readers that check a configuration
    field by field, one writer that copies, publishes and frees, and the main
    thread that starts and stops them. Every load and store is one step. */
module Cfgread {

  /** Number of fields of a configuration, reads between two quiescent states, most updates, and the mode. */
  datatype Setup = Setup(fields: nat, batch: nat, maxUpdates: nat, rcu: bool)

  /** A block of memory that malloc may hand out. */
  datatype Block = Block(live: bool, field: seq<int>)

  datatype ReaderPc =
    | QsLoad(first: bool) | QsStore(first: bool, at: nat)        // quiescent_state
    | SayReady | AwaitGo | TestStop
    | LoadPtr(k: nat)                                            // read number k of the batch
    | Check(k: nat, c: nat, i: nat, v: int, ok: bool)            // loads field i of block c
    | ReaderDone

  datatype Reader = Reader(pc: ReaderPc, bad: nat)

  datatype WriterPc =
    | WriterAwait | WriterTest | LoadOld | Malloc | Fill(i: nat) | Publish
    | Advance | Poll(i: nat) | PollStop(i: nat)                  // synchronize_rcu
    | Wipe(i: nat) | Free
    | WriterDone(kept: bool)                                     // kept: stopped before the grace period was over

  datatype Writer = Writer(pc: WriterPc, v: int, was: nat, nw: nat, updates: nat)

  datatype State = State(
    heap: seq<Block>, ptr: nat, gp: nat, seen: seq<nat>, ready: nat, go: bool, stop: bool,
    readers: seq<Reader>, w: Writer)

  /** Who moves; malloc returns block a with arbitrary contents. */
  datatype Turn = ReaderTurn(t: nat) | WriterTurn(a: nat, junk: seq<int>) | MainTurn

  ghost predicate Shape(p: Setup, s: State) {
    && 0 < p.fields && s.ptr < |s.heap| && |s.seen| == |s.readers|
    && (forall a :: 0 <= a < |s.heap| ==> |s.heap[a].field| == p.fields)
    && s.w.was < |s.heap| && s.w.nw < |s.heap|
    && ((s.w.pc.Fill? || s.w.pc.Wipe?) ==> s.w.pc.i < p.fields)
    && (s.w.pc.Poll? ==> s.w.pc.i <= |s.seen|) && (s.w.pc.PollStop? ==> s.w.pc.i < |s.seen|)
    && (forall t :: 0 <= t < |s.readers| && s.readers[t].pc.Check? ==>
          s.readers[t].pc.c < |s.heap| && s.readers[t].pc.i < p.fields)
  }

  function GotoReader(s: State, t: nat, pc: ReaderPc): State
    requires t < |s.readers|
  {
    s.(readers := s.readers[t := s.readers[t].(pc := pc)])
  }

  function GotoWriter(s: State, pc: WriterPc): State {
    s.(w := s.w.(pc := pc))
  }

  function NextRead(p: Setup, k: nat): ReaderPc {
    if k < p.batch then LoadPtr(k) else QsLoad(false)
  }

  /** check loads one field: the first must be 3 or 5, the others equal to it. */
  function CheckStep(p: Setup, s: State, t: nat): State
    requires Shape(p, s) && t < |s.readers| && s.readers[t].pc.Check?
  {
    var pc := s.readers[t].pc;
    var x := s.heap[pc.c].field[pc.i];
    var v := if pc.i == 0 then x else pc.v;
    var ok := if pc.i == 0 then x == 3 || x == 5 else pc.ok && x == pc.v;
    if pc.i + 1 < p.fields then GotoReader(s, t, Check(pc.k, pc.c, pc.i + 1, v, ok))
    else
      s.(readers := s.readers[t := Reader(NextRead(p, pc.k + 1),
          if ok then s.readers[t].bad else s.readers[t].bad + 1)])
  }

  function ReaderStep(p: Setup, s: State, t: nat): State
    requires Shape(p, s) && t < |s.readers|
  {
    match s.readers[t].pc
    case QsLoad(first) => GotoReader(s, t, QsStore(first, s.gp))
    case QsStore(first, at) => GotoReader(s, t, if first then SayReady else TestStop).(seen := s.seen[t := at])
    case SayReady => GotoReader(s, t, AwaitGo).(ready := s.ready + 1)
    case AwaitGo => if s.go then GotoReader(s, t, TestStop) else s
    case TestStop => GotoReader(s, t, if s.stop then ReaderDone else NextRead(p, 0))
    case LoadPtr(k) => GotoReader(s, t, Check(k, s.ptr, 0, 0, true))
    case Check(_, _, _, _, _) => CheckStep(p, s, t)
    case ReaderDone => s
  }

  /** A store to one field of a block. */
  function StoreField(s: State, a: nat, i: nat, v: int): seq<Block>
    requires a < |s.heap| && i < |s.heap[a].field|
  {
    s.heap[a := s.heap[a].(field := s.heap[a].field[i := v])]
  }

  function WriterStep(p: Setup, s: State, a: nat, junk: seq<int>): State
    requires Shape(p, s)
  {
    var w := s.w;
    match w.pc
    case WriterAwait => if s.go then GotoWriter(s, WriterTest) else s
    case WriterTest =>
      if s.stop || p.maxUpdates <= w.updates then GotoWriter(s, WriterDone(false))
      else s.(w := w.(pc := LoadOld, v := if w.v == 3 then 5 else 3))
    case LoadOld => s.(w := w.(pc := Malloc, was := s.ptr))
    case Malloc =>
      if a < |s.heap| && !s.heap[a].live && |junk| == p.fields
      then s.(heap := s.heap[a := Block(true, junk)], w := w.(pc := Fill(0), nw := a))
      else s
    case Fill(i) =>
      GotoWriter(s, if i + 1 < p.fields then Fill(i + 1) else Publish).(heap := StoreField(s, w.nw, i, w.v))
    case Publish => GotoWriter(s, if p.rcu then Advance else Wipe(0)).(ptr := w.nw)
    case Advance => GotoWriter(s, Poll(0)).(gp := s.gp + 1)
    case Poll(i) =>
      if i == |s.seen| then GotoWriter(s, Wipe(0))
      else GotoWriter(s, if s.seen[i] == s.gp then Poll(i + 1) else PollStop(i))
    case PollStop(i) => GotoWriter(s, if s.stop then WriterDone(true) else Poll(i))
    case Wipe(i) =>
      GotoWriter(s, if i + 1 < p.fields then Wipe(i + 1) else Free).(heap := StoreField(s, w.was, i, -1))
    case Free =>
      s.(heap := s.heap[w.was := s.heap[w.was].(live := false)], w := w.(pc := WriterTest, updates := w.updates + 1))
    case WriterDone(_) => s
  }

  function MainStep(s: State): State {
    if !s.go then if s.ready == |s.readers| then s.(go := true) else s
    else s.(stop := true)
  }

  function Step(p: Setup, s: State, turn: Turn): State
    requires Shape(p, s)
  {
    match turn
    case ReaderTurn(t) => if t < |s.readers| then ReaderStep(p, s, t) else s
    case WriterTurn(a, junk) => WriterStep(p, s, a, junk)
    case MainTurn => MainStep(s)
  }

  /** Block 0 holds the first configuration, all fields 3; n readers. */
  function Initial(p: Setup, spare: nat, n: nat): State {
    var first := Block(true, seq(p.fields, _ => 3));
    State([first] + seq(spare, _ => Block(false, seq(p.fields, _ => 0))), 0, 1, seq(n, _ => 0), 0, false, false,
          seq(n, _ => Reader(QsLoad(true), 0)), Writer(WriterAwait, 3, 0, 0, 0))
  }

  // ----- the invariant ----------------------------------------------------

  /** A complete configuration. */
  ghost predicate Good(b: Block) {
    b.live && exists v :: (v == 3 || v == 5) && AllFields(b, v)
  }

  ghost predicate AllFields(b: Block, v: int) {
    forall i :: 0 <= i < |b.field| ==> b.field[i] == v
  }

  /** The old copy is unlinked but neither wiped nor freed. */
  predicate Unlinked(pc: WriterPc) {
    pc.Advance? || pc.Poll? || pc.PollStop? || pc == WriterDone(true)
  }

  /** The reader is working on the block the writer has unlinked. */
  predicate OnOld(s: State, t: nat)
    requires t < |s.readers|
  {
    s.readers[t].pc.Check? && s.readers[t].pc.c == s.w.was && s.w.was != s.ptr
  }

  ghost predicate ReaderOk(p: Setup, s: State, t: nat)
    requires Shape(p, s) && t < |s.readers|
  {
    var pc := s.readers[t].pc;
    && s.readers[t].bad == 0 && s.seen[t] <= s.gp
    && (pc.QsStore? ==> pc.at <= s.gp)
    && (pc.Check? ==>
          && (pc.c == s.ptr || (Unlinked(s.w.pc) && pc.c == s.w.was))
          && (pc.i > 0 ==> pc.ok && pc.v == s.heap[pc.c].field[0]))
    && ((s.w.pc.Poll? || s.w.pc.PollStop?) ==>
          (t < s.w.pc.i || s.seen[t] == s.gp || (pc.QsStore? && pc.at == s.gp)) ==> !OnOld(s, t))
  }

  ghost predicate WriterOk(p: Setup, s: State)
    requires Shape(p, s)
  {
    var w := s.w;
    && (w.v == 3 || w.v == 5)
    && Good(s.heap[s.ptr])
    && (w.pc.Malloc? ==> w.was == s.ptr)
    && (w.pc.Fill? || w.pc.Publish? ==>
          w.was == s.ptr && w.nw != s.ptr && s.heap[w.nw].live
          && (forall i :: 0 <= i < (if w.pc.Fill? then w.pc.i else p.fields) ==> s.heap[w.nw].field[i] == w.v))
    && (w.pc.Advance? || w.pc.Poll? || w.pc.PollStop? || w.pc.Wipe? || w.pc.Free? ==> w.was != s.ptr)
    && (Unlinked(w.pc) && w.was != s.ptr ==> Good(s.heap[w.was]))
    && (w.pc == WriterDone(true) ==> s.stop)
  }

  ghost predicate Inv(p: Setup, s: State) {
    && Shape(p, s) && WriterOk(p, s)
    && forall t {:trigger ReaderOk(p, s, t)} :: 0 <= t < |s.readers| ==> ReaderOk(p, s, t)
  }

  lemma InitialInv(p: Setup, spare: nat, n: nat)
    requires 0 < p.fields
    ensures Inv(p, Initial(p, spare, n))
  {
    assert AllFields(Initial(p, spare, n).heap[0], 3);
  }

  // ----- every step keeps it, in rcu mode ---------------------------------

  /** A reader's step changes its own state and its own slot, nothing a writer or another reader relies on. */
  ghost predicate OnlyReader(s: State, t: nat, r: State)
    requires t < |s.readers| == |s.seen|
  {
    && |r.readers| == |s.readers| && r.readers == s.readers[t := r.readers[t]]
    && |r.seen| == |s.seen| && r.seen == s.seen[t := r.seen[t]]
    && r == s.(readers := r.readers, seen := r.seen, ready := r.ready)
  }

  lemma ReaderLocal(p: Setup, s: State, t: nat)
    requires Inv(p, s) && t < |s.readers|
    ensures OnlyReader(s, t, ReaderStep(p, s, t))
  {
  }

  lemma ReaderShape(p: Setup, s: State, t: nat)
    requires Inv(p, s) && t < |s.readers|
    ensures var pc := ReaderStep(p, s, t).readers[t].pc; pc.Check? ==> pc.c < |s.heap| && pc.i < p.fields
  {
    assert ReaderOk(p, s, t);
  }

  lemma OthersKeep(p: Setup, s: State, t: nat, r: State)
    requires Inv(p, s) && t < |s.readers| && OnlyReader(s, t, r)
    requires r.readers[t].pc.Check? ==> r.readers[t].pc.c < |s.heap| && r.readers[t].pc.i < p.fields
    ensures Shape(p, r) && WriterOk(p, r)
    ensures ReaderOk(p, r, t) ==> Inv(p, r)
  {
    forall u | 0 <= u < |r.readers| && u != t ensures ReaderOk(p, r, u) { assert ReaderOk(p, s, u); }
  }

  lemma CheckKeeps(p: Setup, s: State, t: nat)
    requires Inv(p, s) && t < |s.readers| && s.readers[t].pc.Check? && Shape(p, ReaderStep(p, s, t))
    ensures OnlyReader(s, t, ReaderStep(p, s, t)) && ReaderOk(p, ReaderStep(p, s, t), t)
  {
    assert ReaderOk(p, s, t);
  }

  lemma MoveKeeps(p: Setup, s: State, t: nat)
    requires Inv(p, s) && t < |s.readers| && !s.readers[t].pc.Check? && Shape(p, ReaderStep(p, s, t))
    ensures OnlyReader(s, t, ReaderStep(p, s, t)) && ReaderOk(p, ReaderStep(p, s, t), t)
  {
    assert ReaderOk(p, s, t);
  }

  lemma ReaderKeeps(p: Setup, s: State, t: nat)
    requires Inv(p, s) && t < |s.readers|
    ensures Inv(p, ReaderStep(p, s, t)) && |ReaderStep(p, s, t).readers| == |s.readers|
  {
    ReaderLocal(p, s, t);
    ReaderShape(p, s, t);
    OthersKeep(p, s, t, ReaderStep(p, s, t));
    if s.readers[t].pc.Check? { CheckKeeps(p, s, t); } else { MoveKeeps(p, s, t); }
  }

  /** Steps of the writer that touch no block and do not publish. */
  lemma WriterThinks(p: Setup, s: State, a: nat, junk: seq<int>)
    requires Inv(p, s) && p.rcu
    requires var pc := s.w.pc; pc.WriterAwait? || pc.WriterTest? || pc.LoadOld? || pc.WriterDone?
    ensures Inv(p, WriterStep(p, s, a, junk))
  {
    var r := WriterStep(p, s, a, junk);
    forall u | 0 <= u < |r.readers| ensures ReaderOk(p, r, u) { assert ReaderOk(p, s, u); }
  }

  lemma WriterSynchronizes(p: Setup, s: State, a: nat, junk: seq<int>)
    requires Inv(p, s) && p.rcu
    requires var pc := s.w.pc; pc.Advance? || pc.Poll? || pc.PollStop?
    ensures Inv(p, WriterStep(p, s, a, junk))
  {
    var r := WriterStep(p, s, a, junk);
    forall u | 0 <= u < |r.readers| ensures ReaderOk(p, r, u) { assert ReaderOk(p, s, u); }
  }

  /** The new copy is filled where no reader looks, then published with one store. */
  lemma WriterCopies(p: Setup, s: State, a: nat, junk: seq<int>)
    requires Inv(p, s) && p.rcu
    requires var pc := s.w.pc; pc.Malloc? || pc.Fill? || pc.Publish?
    ensures Inv(p, WriterStep(p, s, a, junk))
  {
    var r := WriterStep(p, s, a, junk);
    if s.w.pc.Publish? { assert AllFields(r.heap[r.ptr], s.w.v); } else { assert r.heap[r.ptr] == s.heap[s.ptr]; }
    forall u | 0 <= u < |r.readers| ensures ReaderOk(p, r, u) { assert ReaderOk(p, s, u); }
  }

  /** The old copy is destroyed when no reader can be looking at it. */
  lemma WriterFrees(p: Setup, s: State, a: nat, junk: seq<int>)
    requires Inv(p, s) && p.rcu
    requires s.w.pc.Wipe? || s.w.pc.Free?
    ensures Inv(p, WriterStep(p, s, a, junk))
  {
    var r := WriterStep(p, s, a, junk);
    assert r.heap[r.ptr] == s.heap[s.ptr];
    forall u | 0 <= u < |r.readers| ensures ReaderOk(p, r, u) { assert ReaderOk(p, s, u); }
  }

  lemma MainKeeps(p: Setup, s: State)
    requires Inv(p, s)
    ensures Inv(p, MainStep(s))
  {
    var r := MainStep(s);
    forall u | 0 <= u < |r.readers| ensures ReaderOk(p, r, u) { assert ReaderOk(p, s, u); }
  }

  lemma StepInv(p: Setup, s: State, turn: Turn)
    requires Inv(p, s) && p.rcu
    ensures Inv(p, Step(p, s, turn)) && |Step(p, s, turn).readers| == |s.readers|
  {
    match turn
    case ReaderTurn(t) =>
      if t < |s.readers| { ReaderKeeps(p, s, t); }
    case WriterTurn(a, junk) =>
      if s.w.pc.Malloc? || s.w.pc.Fill? || s.w.pc.Publish? {
        WriterCopies(p, s, a, junk);
      } else if s.w.pc.Wipe? || s.w.pc.Free? {
        WriterFrees(p, s, a, junk);
      } else if s.w.pc.Advance? || s.w.pc.Poll? || s.w.pc.PollStop? {
        WriterSynchronizes(p, s, a, junk);
      } else {
        WriterThinks(p, s, a, junk);
      }
    case MainTurn => MainKeeps(p, s);
  }

  // ----- memory -----------------------------------------------------------

  /** The blocks in use: the published one, and the writer's other copy while it works on one. */
  predicate InUse(s: State, a: nat) {
    || a == s.ptr
    || (a == s.w.nw && (s.w.pc.Fill? || s.w.pc.Publish?))
    || (a == s.w.was && (s.w.pc.Advance? || s.w.pc.Poll? || s.w.pc.PollStop? || s.w.pc.Wipe? || s.w.pc.Free?
        || s.w.pc == WriterDone(true)))
  }

  ghost predicate NoLeak(s: State) {
    forall a :: 0 <= a < |s.heap| ==> (s.heap[a].live <==> InUse(s, a))
  }

  lemma ThinkingKeepsMemory(p: Setup, s: State, a: nat, junk: seq<int>)
    requires Inv(p, s) && NoLeak(s) && p.rcu
    requires var pc := s.w.pc; !pc.Malloc? && !pc.Fill? && !pc.Wipe? && !pc.Free?
    ensures NoLeak(WriterStep(p, s, a, junk))
  {
    var r := WriterStep(p, s, a, junk);
    assert r.heap == s.heap;
    forall b | 0 <= b < |r.heap| ensures InUse(r, b) <==> InUse(s, b) {}
  }

  lemma WritingKeepsMemory(p: Setup, s: State, a: nat, junk: seq<int>)
    requires Inv(p, s) && NoLeak(s) && p.rcu
    requires s.w.pc.Malloc? || s.w.pc.Fill? || s.w.pc.Wipe? || s.w.pc.Free?
    ensures NoLeak(WriterStep(p, s, a, junk))
  {
  }

  lemma StepMemory(p: Setup, s: State, turn: Turn)
    requires Inv(p, s) && NoLeak(s) && p.rcu
    ensures NoLeak(Step(p, s, turn))
  {
    match turn
    case ReaderTurn(t) => if t < |s.readers| { ReaderLocal(p, s, t); }
    case WriterTurn(a, junk) =>
      if s.w.pc.Malloc? || s.w.pc.Fill? || s.w.pc.Wipe? || s.w.pc.Free? { WritingKeepsMemory(p, s, a, junk); }
      else { ThinkingKeepsMemory(p, s, a, junk); }
    case MainTurn =>
  }

  // ----- whole runs -------------------------------------------------------

  lemma ReaderStepShape(p: Setup, s: State, t: nat)
    requires Shape(p, s) && t < |s.readers|
    ensures Shape(p, ReaderStep(p, s, t)) && |ReaderStep(p, s, t).readers| == |s.readers|
  {
    var r := ReaderStep(p, s, t);
    assert r.heap == s.heap && r.ptr == s.ptr && r.w == s.w && |r.seen| == |s.seen|;
    assert r.readers == s.readers[t := r.readers[t]];
    assert r.readers[t].pc.Check? ==> r.readers[t].pc.c < |s.heap| && r.readers[t].pc.i < p.fields;
  }

  lemma WriterStepShape(p: Setup, s: State, a: nat, junk: seq<int>)
    requires Shape(p, s)
    ensures Shape(p, WriterStep(p, s, a, junk)) && |WriterStep(p, s, a, junk).readers| == |s.readers|
  {
    WriterLeavesRest(p, s, a, junk);
    WriterPointers(p, s, a, junk);
    WriterCounters(p, s, a, junk);
    WriterPolls(p, s, a, junk);
  }

  lemma WriterLeavesRest(p: Setup, s: State, a: nat, junk: seq<int>)
    requires Shape(p, s)
    ensures var r := WriterStep(p, s, a, junk);
      && |r.heap| == |s.heap| && r.readers == s.readers && r.seen == s.seen
      && forall b :: 0 <= b < |r.heap| ==> |r.heap[b].field| == p.fields
  {
  }

  lemma WriterPointers(p: Setup, s: State, a: nat, junk: seq<int>)
    requires Shape(p, s)
    ensures var r := WriterStep(p, s, a, junk); r.ptr < |s.heap| && r.w.was < |s.heap| && r.w.nw < |s.heap|
  {
  }

  lemma WriterCounters(p: Setup, s: State, a: nat, junk: seq<int>)
    requires Shape(p, s)
    ensures var pc := WriterStep(p, s, a, junk).w.pc; (pc.Fill? || pc.Wipe?) ==> pc.i < p.fields
  {
  }

  lemma WriterPolls(p: Setup, s: State, a: nat, junk: seq<int>)
    requires Shape(p, s)
    ensures var pc := WriterStep(p, s, a, junk).w.pc;
      (pc.Poll? ==> pc.i <= |s.seen|) && (pc.PollStop? ==> pc.i < |s.seen|)
  {
  }

  /** Both modes: every step leads to a state with a next step. */
  lemma StepShape(p: Setup, s: State, turn: Turn)
    requires Shape(p, s)
    ensures Shape(p, Step(p, s, turn)) && |Step(p, s, turn).readers| == |s.readers|
  {
    match turn
    case ReaderTurn(t) => if t < |s.readers| { ReaderStepShape(p, s, t); }
    case WriterTurn(a, junk) => WriterStepShape(p, s, a, junk);
    case MainTurn =>
  }

  /** The state after any interleaving of n readers, the writer and the main thread. */
  ghost function After(p: Setup, spare: nat, n: nat, turns: seq<Turn>): (s: State)
    requires 0 < p.fields
    ensures Shape(p, s) && |s.readers| == n
  {
    if turns == [] then Initial(p, spare, n)
    else
      var s := After(p, spare, n, turns[..|turns| - 1]);
      StepShape(p, s, turns[|turns| - 1]);
      Step(p, s, turns[|turns| - 1])
  }

  lemma {:induction false} RunInv(p: Setup, spare: nat, n: nat, turns: seq<Turn>)
    requires 0 < p.fields && p.rcu
    ensures Inv(p, After(p, spare, n, turns)) && NoLeak(After(p, spare, n, turns))
  {
    if turns == [] {
      InitialInv(p, spare, n);
    } else {
      var before := turns[..|turns| - 1];
      RunInv(p, spare, n, before);
      StepInv(p, After(p, spare, n, before), turns[|turns| - 1]);
      StepMemory(p, After(p, spare, n, before), turns[|turns| - 1]);
    }
  }

  /** With a grace period, a reader inside check works on a live, complete configuration, and no read is ever bad. */
  lemma {:induction false} ReadersSeeCompleteConfigs(p: Setup, spare: nat, n: nat, turns: seq<Turn>, t: nat)
    requires 0 < p.fields && p.rcu && t < n
    ensures var s := After(p, spare, n, turns);
      s.readers[t].bad == 0 && (s.readers[t].pc.Check? ==> Good(s.heap[s.readers[t].pc.c]))
  {
    RunInv(p, spare, n, turns);
    assert ReaderOk(p, After(p, spare, n, turns), t);
  }

  /** Between updates exactly the published block is in use, unless a stop inside the grace
      period made the writer keep the old copy, which is then still complete. */
  lemma {:induction false} OnlyShutdownKeepsTheOldCopy(p: Setup, spare: nat, n: nat, turns: seq<Turn>, a: nat)
    requires 0 < p.fields && p.rcu
    requires var s := After(p, spare, n, turns);
      a < |s.heap| && s.heap[a].live && a != s.ptr && (s.w.pc.WriterTest? || s.w.pc.WriterDone?)
    ensures var s := After(p, spare, n, turns); s.w.pc == WriterDone(true) && s.stop && a == s.w.was && Good(s.heap[a])
  {
    RunInv(p, spare, n, turns);
    assert InUse(After(p, spare, n, turns), a);
  }

  // ----- the updates, in both modes ----------------------------------------

  /** The configuration alternates: 3 after an even number of updates, 5 after an odd one. */
  function ValueOf(updates: nat): int {
    if updates % 2 == 0 then 3 else 5
  }

  /** The writer has changed its value for the update it is in. */
  predicate Updating(pc: WriterPc) {
    !pc.WriterAwait? && !pc.WriterTest? && pc != WriterDone(false)
  }

  /** It has also published it. */
  predicate Published(pc: WriterPc) {
    Updating(pc) && !pc.LoadOld? && !pc.Malloc? && !pc.Fill? && !pc.Publish?
  }

  /** How many updates readers can have seen, and which value the writer works with. */
  ghost predicate ValuesOk(p: Setup, s: State)
    requires Shape(p, s)
  {
    var w := s.w;
    && w.v == ValueOf(if Updating(w.pc) then w.updates + 1 else w.updates)
    && s.heap[s.ptr].live && AllFields(s.heap[s.ptr], ValueOf(if Published(w.pc) then w.updates + 1 else w.updates))
    && (w.pc.Malloc? || w.pc.Fill? || w.pc.Publish? ==> w.was == s.ptr)
    && (w.pc.Fill? || w.pc.Publish? ==> w.nw != s.ptr && s.heap[w.nw].live)
    && (w.pc.Fill? ==> forall i :: 0 <= i < w.pc.i ==> s.heap[w.nw].field[i] == w.v)
    && (w.pc.Publish? ==> AllFields(s.heap[w.nw], w.v))
    && (Published(w.pc) ==> w.was != s.ptr)
  }

  lemma WriterValues(p: Setup, s: State, a: nat, junk: seq<int>)
    requires Shape(p, s) && ValuesOk(p, s) && Shape(p, WriterStep(p, s, a, junk))
    ensures ValuesOk(p, WriterStep(p, s, a, junk))
  {
    if s.w.pc.Malloc? || s.w.pc.Fill? || s.w.pc.Wipe? || s.w.pc.Free? { CopyValues(p, s, a, junk); }
  }

  lemma CopyValues(p: Setup, s: State, a: nat, junk: seq<int>)
    requires Shape(p, s) && ValuesOk(p, s) && Shape(p, WriterStep(p, s, a, junk))
    requires s.w.pc.Malloc? || s.w.pc.Fill? || s.w.pc.Wipe? || s.w.pc.Free?
    ensures ValuesOk(p, WriterStep(p, s, a, junk))
  {
    var r := WriterStep(p, s, a, junk);
    assert r.ptr == s.ptr && r.heap[r.ptr] == s.heap[s.ptr];
  }

  lemma StepValues(p: Setup, s: State, turn: Turn)
    requires Shape(p, s) && ValuesOk(p, s) && Shape(p, Step(p, s, turn))
    ensures ValuesOk(p, Step(p, s, turn))
  {
    match turn
    case ReaderTurn(t) =>
      if t < |s.readers| {
        var r := ReaderStep(p, s, t);
        assert r.heap == s.heap && r.ptr == s.ptr && r.w == s.w;
      }
    case WriterTurn(a, junk) => WriterValues(p, s, a, junk);
    case MainTurn =>
  }

  lemma NextValues(p: Setup, s: State, turn: Turn, r: State)
    requires Shape(p, s) && ValuesOk(p, s) && Shape(p, r) && r == Step(p, s, turn)
    ensures ValuesOk(p, r)
  {
    StepValues(p, s, turn);
  }

  lemma InitialValues(p: Setup, spare: nat, n: nat)
    requires 0 < p.fields
    ensures ValuesOk(p, Initial(p, spare, n))
  {
  }

  lemma {:induction false} RunValues(p: Setup, spare: nat, n: nat, turns: seq<Turn>)
    requires 0 < p.fields
    ensures ValuesOk(p, After(p, spare, n, turns))
  {
    if turns == [] {
      InitialValues(p, spare, n);
    } else {
      var before := turns[..|turns| - 1];
      RunValues(p, spare, n, before);
      NextValues(p, After(p, spare, n, before), turns[|turns| - 1], After(p, spare, n, turns));
    }
  }

  /** In both modes, between two updates the published configuration holds 3 in every field after an even
      number of updates and 5 after an odd one. */
  lemma {:induction false} UpdatesAlternate(p: Setup, spare: nat, n: nat, turns: seq<Turn>, i: nat)
    requires 0 < p.fields && i < p.fields
    requires var pc := After(p, spare, n, turns).w.pc; pc.WriterAwait? || pc.WriterTest? || pc == WriterDone(false)
    ensures var s := After(p, spare, n, turns); s.heap[s.ptr].field[i] == if s.w.updates % 2 == 0 then 3 else 5
  {
    RunValues(p, spare, n, turns);
  }

  /** Updates that were begun. */
  function Begun(w: Writer): nat {
    if Updating(w.pc) then w.updates + 1 else w.updates
  }

  ghost predicate Ending(p: Setup, s: State) {
    && Begun(s.w) <= p.maxUpdates
    && (s.w.pc == WriterDone(false) ==> s.stop || s.w.updates == p.maxUpdates)
    && (s.w.pc.Advance? || s.w.pc.Poll? || s.w.pc.PollStop? ==> p.rcu)
    && (s.w.pc == WriterDone(true) ==> p.rcu && s.stop)
  }

  /** No reader and no writer begins anything after main has set stop. */
  lemma StopStops(p: Setup, s: State, turn: Turn)
    requires Shape(p, s) && s.stop
    ensures var r := Step(p, s, turn);
      && Begun(r.w) == Begun(s.w) && |r.readers| == |s.readers|
      && forall t :: 0 <= t < |s.readers| && s.readers[t].pc.TestStop? ==>
          r.readers[t].pc.TestStop? || r.readers[t].pc.ReaderDone?
  {
    StepShape(p, s, turn);
  }

  lemma {:induction false} RunEnding(p: Setup, spare: nat, n: nat, turns: seq<Turn>)
    requires 0 < p.fields
    ensures Ending(p, After(p, spare, n, turns))
  {
    if turns != [] {
      var before := turns[..|turns| - 1];
      RunEnding(p, spare, n, before);
      StepEnding(p, After(p, spare, n, before), turns[|turns| - 1]);
    }
  }

  /** There are at most maxUpdates updates, and the writer ends only then or when it is stopped. */
  lemma StepEnding(p: Setup, s: State, turn: Turn)
    requires Shape(p, s) && Ending(p, s)
    ensures Ending(p, Step(p, s, turn))
  {
  }

  // ----- how a run begins, and what it counts, in both modes ---------------

  /** Not yet reported ready. */
  predicate Early(pc: ReaderPc) {
    pc.SayReady? || (pc.QsLoad? && pc.first) || (pc.QsStore? && pc.first)
  }

  function ReadyCount(readers: seq<Reader>): (c: nat)
    ensures c <= |readers|
    ensures c == |readers| ==> forall t :: 0 <= t < |readers| ==> !Early(readers[t].pc)
  {
    if readers == [] then 0
    else ReadyCount(readers[..|readers| - 1]) + if Early(readers[|readers| - 1].pc) then 0 else 1
  }

  lemma {:induction false} ReadyUpdate(readers: seq<Reader>, t: nat, r: Reader)
    requires t < |readers|
    ensures ReadyCount(readers[t := r])
      == ReadyCount(readers) - (if Early(readers[t].pc) then 0 else 1) + (if Early(r.pc) then 0 else 1)
  {
    var last := |readers| - 1;
    if t == last {
      assert readers[t := r][..last] == readers[..last];
    } else {
      assert readers[t := r][..last] == readers[..last][t := r];
      ReadyUpdate(readers[..last], t, r);
    }
  }

  lemma {:induction false} NobodyReady(readers: seq<Reader>)
    requires forall t :: 0 <= t < |readers| ==> Early(readers[t].pc)
    ensures ReadyCount(readers) == 0
  {
    if readers != [] { NobodyReady(readers[..|readers| - 1]); }
  }

  /** Nobody works before main lets go, and main lets go when all readers are ready. */
  ghost predicate StartOk(s: State) {
    && s.ready == ReadyCount(s.readers) && (s.go ==> s.ready == |s.readers|) && (s.stop ==> s.go)
    && (forall t :: 0 <= t < |s.readers| && !Early(s.readers[t].pc) && !s.readers[t].pc.AwaitGo? ==> s.go)
    && (!s.w.pc.WriterAwait? ==> s.go)
  }

  lemma ReaderStart(p: Setup, s: State, t: nat)
    requires Shape(p, s) && StartOk(s) && t < |s.readers|
    ensures StartOk(ReaderStep(p, s, t))
  {
    var r := ReaderStep(p, s, t);
    ReaderMoves(p, s, t);
    ReadyUpdate(s.readers, t, r.readers[t]);
  }

  /** A reader becomes ready exactly in the step that counts it, and goes on only when it may. */
  lemma ReaderMoves(p: Setup, s: State, t: nat)
    requires Shape(p, s) && t < |s.readers|
    ensures var r := ReaderStep(p, s, t);
      && |r.readers| == |s.readers| && r.readers == s.readers[t := r.readers[t]]
      && r.go == s.go && r.stop == s.stop && r.w == s.w
      && r.ready == s.ready + (if s.readers[t].pc.SayReady? then 1 else 0)
      && (Early(r.readers[t].pc) <==> Early(s.readers[t].pc) && !s.readers[t].pc.SayReady?)
      && (r.readers[t].pc.AwaitGo? <==> s.readers[t].pc.SayReady? || (s.readers[t].pc.AwaitGo? && !s.go))
  {
  }

  lemma StepStart(p: Setup, s: State, turn: Turn)
    requires Shape(p, s) && StartOk(s)
    ensures StartOk(Step(p, s, turn))
  {
    match turn
    case ReaderTurn(t) => if t < |s.readers| { ReaderStart(p, s, t); }
    case WriterTurn(a, junk) => WriterStart(p, s, a, junk);
    case MainTurn =>
  }

  lemma WriterStart(p: Setup, s: State, a: nat, junk: seq<int>)
    requires Shape(p, s) && StartOk(s)
    ensures StartOk(WriterStep(p, s, a, junk))
  {
    var r := WriterStep(p, s, a, junk);
    assert r.readers == s.readers && r.ready == s.ready && r.go == s.go && r.stop == s.stop;
  }

  /** The measurement begins for all together: a reader that reads and a writer that updates have been let go,
      and every reader has reported before. */
  lemma {:induction false} BeginsTogether(p: Setup, spare: nat, n: nat, turns: seq<Turn>)
    requires 0 < p.fields
    ensures StartOk(After(p, spare, n, turns))
    ensures After(p, spare, n, turns).go ==> forall t :: 0 <= t < n ==> !Early(After(p, spare, n, turns).readers[t].pc)
  {
    if turns == [] {
      NobodyReady(Initial(p, spare, n).readers);
    } else {
      var before := turns[..|turns| - 1];
      BeginsTogether(p, spare, n, before);
      StepStart(p, After(p, spare, n, before), turns[|turns| - 1]);
    }
  }

  /** Once all readers are ready, main's next step lets them go and the one after that stops them. */
  lemma {:induction false} MainLetsGo(p: Setup, spare: nat, n: nat, turns: seq<Turn>)
    requires 0 < p.fields && forall t :: 0 <= t < n ==> !Early(After(p, spare, n, turns).readers[t].pc)
    ensures var r := After(p, spare, n, turns + [MainTurn]);
      r.go && (r.stop <==> After(p, spare, n, turns).go)
    ensures After(p, spare, n, turns + [MainTurn] + [MainTurn]).stop
  {
    var s, more := After(p, spare, n, turns), turns + [MainTurn];
    BeginsTogether(p, spare, n, turns);
    AllReady(s.readers);
    assert more[..|turns|] == turns && (more + [MainTurn])[..|more|] == more;
  }

  lemma {:induction false} AllReady(readers: seq<Reader>)
    requires forall t :: 0 <= t < |readers| ==> !Early(readers[t].pc)
    ensures ReadyCount(readers) == |readers|
  {
    if readers != [] { AllReady(readers[..|readers| - 1]); }
  }

  /** The writer's marks: one step of the counter for every grace period, and an old copy that is wiped
      field by field before it is freed. */
  ghost predicate MarksOk(p: Setup, s: State)
    requires Shape(p, s)
  {
    var w := s.w;
    && s.gp == (if !p.rcu then 1 else if Advanced(w.pc) then w.updates + 2 else w.updates + 1)
    && (w.pc.Wipe? ==> forall i :: 0 <= i < w.pc.i ==> s.heap[w.was].field[i] == -1)
    && (w.pc.Free? ==> AllFields(s.heap[w.was], -1))
    && (w.pc.Advance? || w.pc.Poll? || w.pc.PollStop? || w.pc == WriterDone(true) ==> p.rcu)
  }

  predicate Advanced(pc: WriterPc) {
    pc.Poll? || pc.PollStop? || pc.Wipe? || pc.Free? || pc == WriterDone(true)
  }

  lemma StepMarks(p: Setup, s: State, turn: Turn)
    requires Shape(p, s) && MarksOk(p, s) && Shape(p, Step(p, s, turn))
    ensures MarksOk(p, Step(p, s, turn))
  {
    match turn
    case ReaderTurn(t) =>
      if t < |s.readers| {
        var r := ReaderStep(p, s, t);
        assert r.heap == s.heap && r.gp == s.gp && r.w == s.w;
      }
    case WriterTurn(a, junk) => WriterMarks(p, s, a, junk);
    case MainTurn =>
  }

  lemma WriterMarks(p: Setup, s: State, a: nat, junk: seq<int>)
    requires Shape(p, s) && MarksOk(p, s) && Shape(p, WriterStep(p, s, a, junk))
    ensures MarksOk(p, WriterStep(p, s, a, junk))
  {
    if s.w.pc.Wipe? { WipeMarks(p, s, a, junk); } else { OtherMarks(p, s, a, junk); }
  }

  lemma WipeMarks(p: Setup, s: State, a: nat, junk: seq<int>)
    requires Shape(p, s) && MarksOk(p, s) && Shape(p, WriterStep(p, s, a, junk)) && s.w.pc.Wipe?
    ensures MarksOk(p, WriterStep(p, s, a, junk))
  {
    var r := WriterStep(p, s, a, junk);
    assert r.heap[s.w.was].field == s.heap[s.w.was].field[s.w.pc.i := -1] && r.w.was == s.w.was;
  }

  lemma OtherMarks(p: Setup, s: State, a: nat, junk: seq<int>)
    requires Shape(p, s) && MarksOk(p, s) && Shape(p, WriterStep(p, s, a, junk)) && !s.w.pc.Wipe?
    ensures MarksOk(p, WriterStep(p, s, a, junk))
  {
    var r := WriterStep(p, s, a, junk);
    assert !r.w.pc.Free? && (r.w.pc.Wipe? ==> r.w.pc.i == 0);
  }

  lemma {:induction false} RunMarks(p: Setup, spare: nat, n: nat, turns: seq<Turn>)
    requires 0 < p.fields
    ensures MarksOk(p, After(p, spare, n, turns))
  {
    if turns != [] {
      var before := turns[..|turns| - 1];
      RunMarks(p, spare, n, before);
      StepShape(p, After(p, spare, n, before), turns[|turns| - 1]);
      StepMarks(p, After(p, spare, n, before), turns[|turns| - 1]);
    }
  }

  /** What reader t has loaded in its latest check. */
  ghost function Loaded(p: Setup, spare: nat, n: nat, turns: seq<Turn>, t: nat): seq<int>
    requires 0 < p.fields && t < n
  {
    if turns == [] then []
    else
      var before := turns[..|turns| - 1];
      var s := After(p, spare, n, before);
      var pc := s.readers[t].pc;
      if turns[|turns| - 1] != ReaderTurn(t) || !(pc.LoadPtr? || pc.Check?) then Loaded(p, spare, n, before, t)
      else if pc.LoadPtr? then [] else Loaded(p, spare, n, before, t) + [s.heap[pc.c].field[pc.i]]
  }

  /** One of the two configurations. */
  ghost predicate Config(values: seq<int>) {
    (forall i :: 0 <= i < |values| ==> values[i] == 3) || (forall i :: 0 <= i < |values| ==> values[i] == 5)
  }

  /** The turn ends a check of reader t. */
  ghost predicate EndsCheck(p: Setup, s: State, t: nat, turn: Turn)
    requires t < |s.readers|
  {
    turn == ReaderTurn(t) && s.readers[t].pc.Check? && s.readers[t].pc.i + 1 == p.fields
  }

  /** How many checks of reader t loaded something else than a configuration. */
  ghost function BadChecks(p: Setup, spare: nat, n: nat, turns: seq<Turn>, t: nat): nat
    requires 0 < p.fields && t < n
  {
    if turns == [] then 0
    else
      var before := turns[..|turns| - 1];
      BadChecks(p, spare, n, before, t)
      + if EndsCheck(p, After(p, spare, n, before), t, turns[|turns| - 1]) && !Config(Loaded(p, spare, n, turns, t))
        then 1 else 0
  }

  /** How many checks reader t has made since it last reported a quiescent state. */
  ghost function Checks(p: Setup, spare: nat, n: nat, turns: seq<Turn>, t: nat): nat
    requires 0 < p.fields && t < n
  {
    if turns == [] then 0
    else
      var before, turn := turns[..|turns| - 1], turns[|turns| - 1];
      var s := After(p, spare, n, before);
      if turn == ReaderTurn(t) && s.readers[t].pc.QsStore? then 0
      else Checks(p, spare, n, before, t) + if EndsCheck(p, s, t, turn) then 1 else 0
  }

  /** What the local variables of a reader say about its loads and reads. */
  ghost predicate LocalsTell(p: Setup, x: Reader, values: seq<int>, bad: nat, checks: nat) {
    var pc := x.pc;
    && x.bad == bad
    && (pc.Check? ==> |values| == pc.i && (pc.i > 0 ==> pc.v == values[0] && (pc.ok <==> Config(values))))
    && checks == (match pc
                  case LoadPtr(k) => k
                  case Check(k, _, _, _, _) => k
                  case QsLoad(first) => if first then 0 else p.batch
                  case QsStore(first, _) => if first then 0 else p.batch
                  case _ => 0)
    && (pc.LoadPtr? || pc.Check? ==> pc.k < p.batch)
  }

  lemma ReaderTells(p: Setup, s: State, t: nat, values: seq<int>, bad: nat, checks: nat)
    requires Shape(p, s) && t < |s.readers| && LocalsTell(p, s.readers[t], values, bad, checks)
    requires !s.readers[t].pc.Check?
    ensures var r := ReaderStep(p, s, t);
      && t < |r.readers|
      && LocalsTell(p, r.readers[t], if s.readers[t].pc.LoadPtr? then [] else values, bad,
                    if s.readers[t].pc.QsStore? then 0 else checks)
  {
  }

  lemma CheckTells(p: Setup, s: State, t: nat, values: seq<int>, bad: nat, checks: nat)
    requires Shape(p, s) && t < |s.readers| && LocalsTell(p, s.readers[t], values, bad, checks)
    requires s.readers[t].pc.Check?
    ensures var r, pc := ReaderStep(p, s, t), s.readers[t].pc;
      var more, last := values + [s.heap[pc.c].field[pc.i]], pc.i + 1 == p.fields;
      && t < |r.readers|
      && LocalsTell(p, r.readers[t], more, bad + (if last && !Config(more) then 1 else 0),
                    checks + if last then 1 else 0)
  {
    var pc := s.readers[t].pc;
    OneMoreValue(values, s.heap[pc.c].field[pc.i]);
  }

  lemma OneMoreValue(values: seq<int>, x: int)
    ensures Config(values + [x]) <==>
      if values == [] then x == 3 || x == 5 else Config(values) && x == values[0]
  {
    assert (values + [x])[|values|] == x;
    forall i | 0 <= i < |values| ensures (values + [x])[i] == values[i] {}
  }

  /** bad counts exactly the checks that loaded something else than one of the two configurations, and a
      reader makes exactly BATCH checks from one quiescent state to the next. */
  lemma {:induction false} ReadsAreCounted(p: Setup, spare: nat, n: nat, turns: seq<Turn>, t: nat)
    requires 0 < p.fields && t < n
    ensures LocalsTell(p, After(p, spare, n, turns).readers[t], Loaded(p, spare, n, turns, t),
              BadChecks(p, spare, n, turns, t), Checks(p, spare, n, turns, t))
  {
    if turns != [] {
      var before, turn := turns[..|turns| - 1], turns[|turns| - 1];
      var s := After(p, spare, n, before);
      var values, bad, checks := Loaded(p, spare, n, before, t), BadChecks(p, spare, n, before, t),
        Checks(p, spare, n, before, t);
      ReadsAreCounted(p, spare, n, before, t);
      if turn != ReaderTurn(t) { OtherReader(p, s, turn, t); }
      else if s.readers[t].pc.Check? { CheckTells(p, s, t, values, bad, checks); }
      else { ReaderTells(p, s, t, values, bad, checks); }
    }
  }

  lemma OtherReader(p: Setup, s: State, turn: Turn, t: nat)
    requires Shape(p, s) && t < |s.readers| && turn != ReaderTurn(t)
    ensures t < |Step(p, s, turn).readers| && Step(p, s, turn).readers[t] == s.readers[t]
  {
  }

  // ----- without a grace period -------------------------------------------

  /** Some interleaving leads to s. */
  ghost predicate Happens(p: Setup, spare: nat, n: nat, s: State)
    requires 0 < p.fields
  {
    exists turns :: After(p, spare, n, turns) == s
  }

  lemma Goes(p: Setup, spare: nat, n: nat, s: State, turn: Turn) returns (r: State)
    requires 0 < p.fields && Happens(p, spare, n, s)
    ensures Shape(p, s) && r == Step(p, s, turn) && Happens(p, spare, n, r) && Shape(p, r) && |r.readers| == n
  {
    var turns :| After(p, spare, n, turns) == s;
    r := Step(p, s, turn);
    var more := turns + [turn];
    assert more[..|turns|] == turns;
    assert After(p, spare, n, more) == r;
  }

  /** The first k readers have reported and wait. */
  function Reported(p: Setup, spare: nat, n: nat, k: nat): State {
    Initial(p, spare, n).(
      readers := seq(n, t => Reader(if t < k then AwaitGo else QsLoad(true), 0)),
          seen := seq(n, t => if t < k then 1 else 0), ready := k)
  }

  lemma {:induction false} ReadersReport(p: Setup, spare: nat, n: nat, k: nat)
    requires 0 < p.fields && k <= n
    ensures Happens(p, spare, n, Reported(p, spare, n, k))
  {
    if k == 0 {
      assert After(p, spare, n, []) == Initial(p, spare, n);
      assert Initial(p, spare, n).readers == Reported(p, spare, n, 0).readers;
      assert Initial(p, spare, n).seen == Reported(p, spare, n, 0).seen;
    } else {
      ReadersReport(p, spare, n, k - 1);
      ReaderReports(p, spare, n, k - 1);
    }
  }

  /** So does the next one. */
  lemma ReaderReports(p: Setup, spare: nat, n: nat, k: nat)
    requires 0 < p.fields && k < n && Happens(p, spare, n, Reported(p, spare, n, k))
    ensures Happens(p, spare, n, Reported(p, spare, n, k + 1))
  {
    var s := Goes(p, spare, n, Reported(p, spare, n, k), ReaderTurn(k));
    s := Goes(p, spare, n, s, ReaderTurn(k));
    s := Goes(p, spare, n, s, ReaderTurn(k));
    var r := Reported(p, spare, n, k + 1);
    assert s.readers == r.readers && s.seen == r.seen;
  }

  /** Main lets everybody go, and reader 0 loads the pointer. */
  lemma ReaderLoads(p: Setup, spare: nat, n: nat) returns (s: State)
    requires 0 < p.fields && 0 < p.batch && 0 < n
    ensures Happens(p, spare, n, s) && s.readers[0].pc == Check(0, 0, 0, 0, true)
    ensures s.go && !s.stop && s.ptr == 0 && s.heap == Initial(p, spare, n).heap && s.w == Initial(p, spare, n).w
  {
    ReadersReport(p, spare, n, n);
    s := Goes(p, spare, n, Reported(p, spare, n, n), MainTurn);
    s := Goes(p, spare, n, s, ReaderTurn(0));
    s := Goes(p, spare, n, s, ReaderTurn(0));
    s := Goes(p, spare, n, s, ReaderTurn(0));
  }

  /** The writer takes the block that is free for its new copy. */
  lemma WriterAllocates(p: Setup, spare: nat, n: nat, s0: State) returns (s: State)
    requires 0 < p.fields && 0 < p.maxUpdates && 0 < spare && Happens(p, spare, n, s0) && s0.go && !s0.stop
    requires s0.ptr == 0 && s0.heap == Initial(p, spare, n).heap && s0.w == Initial(p, spare, n).w
    ensures Happens(p, spare, n, s) && s.readers == s0.readers && s.ptr == 0
    ensures s.w.pc == Fill(0) && s.w.was == 0 && s.w.nw == 1
  {
    var turn := WriterTurn(1, seq(p.fields, _ => 0));
    s := Goes(p, spare, n, s0, turn);
    s := Goes(p, spare, n, s, turn);
    s := Goes(p, spare, n, s, turn);
    s := Goes(p, spare, n, s, turn);
  }

  /** It fills the copy. */
  lemma {:induction false} WriterFills(p: Setup, spare: nat, n: nat, s0: State) returns (s: State)
    requires 0 < p.fields && Happens(p, spare, n, s0) && Shape(p, s0)
    requires s0.w.pc.Fill? && s0.w.was == 0 && s0.w.nw == 1 && s0.ptr == 0
    ensures Happens(p, spare, n, s) && s.readers == s0.readers && s.w.pc == Publish && s.w.was == 0 && s.w.nw == 1
    decreases p.fields - s0.w.pc.i
  {
    s := Goes(p, spare, n, s0, WriterTurn(1, []));
    if s.w.pc.Fill? { s := WriterFills(p, spare, n, s); }
  }

  /** It publishes the copy and at once wipes the first field of the old one. */
  lemma WriterWipes(p: Setup, spare: nat, n: nat, s0: State) returns (s: State)
    requires 0 < p.fields && !p.rcu && Happens(p, spare, n, s0) && s0.w.pc == Publish && s0.w.was == 0 && s0.w.nw == 1
    ensures Happens(p, spare, n, s) && Shape(p, s) && |s.readers| == n && s.readers == s0.readers
    ensures s.heap[0].field[0] == -1
  {
    s := Goes(p, spare, n, s0, WriterTurn(1, []));
    s := Goes(p, spare, n, s, WriterTurn(1, []));
  }

  /** A reader that has seen one wrong field counts a bad read at the last. */
  lemma {:induction false} ReaderNotices(p: Setup, spare: nat, n: nat, s0: State) returns (s: State)
    requires 0 < p.fields && 0 < n && Happens(p, spare, n, s0) && Shape(p, s0)
    requires s0.readers[0].pc.Check? && s0.readers[0].pc.i > 0 && !s0.readers[0].pc.ok
    ensures Happens(p, spare, n, s) && |s.readers| == n && s.readers[0].bad > 0
    decreases p.fields - s0.readers[0].pc.i
  {
    s := Goes(p, spare, n, s0, ReaderTurn(0));
    if s0.readers[0].pc.i + 1 < p.fields { s := ReaderNotices(p, spare, n, s); }
  }

  /** Reader 0 comes to the field that was wiped. */
  lemma ReaderMeetsWipe(p: Setup, spare: nat, n: nat, s0: State) returns (s: State)
    requires 0 < p.fields && 0 < n && Happens(p, spare, n, s0) && Shape(p, s0) && |s0.readers| == n
    requires s0.readers[0].pc == Check(0, 0, 0, 0, true) && s0.heap[0].field[0] == -1
    ensures Happens(p, spare, n, s) && |s.readers| == n && s.readers[0].bad > 0
  {
    s := Goes(p, spare, n, s0, ReaderTurn(0));
    if s.readers[0].bad == 0 { s := ReaderNotices(p, spare, n, s); }
  }

  ghost predicate NoBadRead(s: State) {
    forall t :: 0 <= t < |s.readers| ==> s.readers[t].bad == 0
  }

  /** Without a grace period, with readers that read, a writer that updates, and a free block, for every
      size: a run in which a reader checks a copy that is being destroyed. */
  lemma {:induction false} NoGracePeriodReadsGarbage(p: Setup, spare: nat, n: nat)
    requires 0 < p.fields && !p.rcu && 0 < p.batch && 0 < p.maxUpdates && 0 < n && 0 < spare
    ensures exists turns :: !NoBadRead(After(p, spare, n, turns))
  {
    var s := ReaderLoads(p, spare, n);
    s := WriterAllocates(p, spare, n, s);
    s := WriterFills(p, spare, n, s);
    s := WriterWipes(p, spare, n, s);
    s := ReaderMeetsWipe(p, spare, n, s);
    var turns :| After(p, spare, n, turns) == s;
    assert !NoBadRead(After(p, spare, n, turns));
  }

  // ----- exactly when no read is bad --------------------------------------

  /** Readers that read nothing. */
  ghost predicate Aloof(s: State, t: nat)
    requires t < |s.readers|
  {
    s.readers[t].bad == 0 && !s.readers[t].pc.LoadPtr? && !s.readers[t].pc.Check?
  }

  ghost predicate AllAloof(s: State) {
    forall t {:trigger Aloof(s, t)} :: 0 <= t < |s.readers| ==> Aloof(s, t)
  }

  lemma StepAloof(p: Setup, s: State, turn: Turn)
    requires Shape(p, s) && p.batch == 0 && AllAloof(s)
    ensures AllAloof(Step(p, s, turn))
  {
    var r := Step(p, s, turn);
    if turn.WriterTurn? { WriterLeavesRest(p, s, turn.a, turn.junk); }
    forall t | 0 <= t < |r.readers| ensures Aloof(r, t) { assert t < |s.readers| ==> Aloof(s, t); }
  }

  /** A writer that never gets a block leaves the first configuration to the readers. */
  ghost predicate Reads(p: Setup, s: State, t: nat)
    requires t < |s.readers|
  {
    var pc := s.readers[t].pc;
    s.readers[t].bad == 0 && (pc.Check? ==> pc.c == 0 && (pc.i > 0 ==> pc.ok && pc.v == 3))
  }

  ghost predicate Frozen(p: Setup, s: State) {
    && |s.heap| > 0 && s.ptr == 0 && s.heap[0].live && AllFields(s.heap[0], 3)
    && (s.w.pc.WriterAwait? || s.w.pc.WriterTest? || s.w.pc.LoadOld? || s.w.pc.Malloc? || s.w.pc.WriterDone?)
    && (s.w.pc.LoadOld? || s.w.pc.Malloc? ==> |s.heap| == 1)
    && (p.maxUpdates == 0 || |s.heap| == 1)
    && forall t {:trigger Reads(p, s, t)} :: 0 <= t < |s.readers| ==> Reads(p, s, t)
  }

  lemma StepFrozen(p: Setup, s: State, turn: Turn)
    requires Shape(p, s) && Frozen(p, s)
    ensures Frozen(p, Step(p, s, turn))
  {
    var r := Step(p, s, turn);
    match turn
    case ReaderTurn(t) =>
      if t < |s.readers| { FrozenReader(p, s, t); }
    case WriterTurn(a, junk) =>
      assert r.readers == s.readers && r.heap == s.heap && r.ptr == s.ptr;
      forall t | 0 <= t < |r.readers| ensures Reads(p, r, t) { assert Reads(p, s, t); }
    case MainTurn =>
      forall t | 0 <= t < |r.readers| ensures Reads(p, r, t) { assert Reads(p, s, t); }
  }

  lemma FrozenReader(p: Setup, s: State, t: nat)
    requires Shape(p, s) && Frozen(p, s) && t < |s.readers|
    ensures Frozen(p, ReaderStep(p, s, t))
  {
    var r := ReaderStep(p, s, t);
    assert Reads(p, s, t);
    forall u | 0 <= u < |r.readers| && u != t ensures Reads(p, r, u) { assert Reads(p, s, u); }
    assert Reads(p, r, t);
  }

  lemma {:induction false} HarmlessRun(p: Setup, spare: nat, n: nat, turns: seq<Turn>)
    requires 0 < p.fields && (p.batch == 0 || p.maxUpdates == 0 || spare == 0)
    ensures var s := After(p, spare, n, turns); if p.batch == 0 then AllAloof(s) else Frozen(p, s)
  {
    if turns == [] {
      assert AllFields(Initial(p, spare, n).heap[0], 3);
    } else {
      var before := turns[..|turns| - 1];
      HarmlessRun(p, spare, n, before);
      if p.batch == 0 { StepAloof(p, After(p, spare, n, before), turns[|turns| - 1]); }
      else { StepFrozen(p, After(p, spare, n, before), turns[|turns| - 1]); }
    }
  }

  /** No run has a bad read if and only if there is a grace period, or nobody reads, or nothing is ever updated. */
  lemma {:induction false} NoBadReadExactly(p: Setup, spare: nat, n: nat)
    requires 0 < p.fields
    ensures (forall turns :: NoBadRead(After(p, spare, n, turns)))
       <==> p.rcu || p.batch == 0 || n == 0 || p.maxUpdates == 0 || spare == 0
  {
    if !p.rcu && p.batch > 0 && n > 0 && p.maxUpdates > 0 && spare > 0 {
      NoGracePeriodReadsGarbage(p, spare, n);
    } else {
      forall turns ensures NoBadRead(After(p, spare, n, turns)) {
        var s := After(p, spare, n, turns);
        if p.rcu {
          RunInv(p, spare, n, turns);
          forall t | 0 <= t < n ensures s.readers[t].bad == 0 { assert ReaderOk(p, s, t); }
        } else if n > 0 {
          HarmlessRun(p, spare, n, turns);
          forall t | 0 <= t < n ensures s.readers[t].bad == 0 { assert Aloof(s, t) || Reads(p, s, t); }
        }
      }
    }
  }

  ghost function BadReads(readers: seq<Reader>): nat {
    if readers == [] then 0 else BadReads(readers[..|readers| - 1]) + readers[|readers| - 1].bad
  }

  // ----- the program, updated in place ------------------------------------

  class Program {
    const p: Setup
    const heap: array<Block>
    var ptr: nat
    var gp: nat
    const seen: array<nat>
    var ready: nat
    var go: bool
    var stop: bool
    const readers: array<Reader>
    var w: Writer

    ghost function View(): State
      reads this, heap, seen, readers
    {
      State(heap[..], ptr, gp, seen[..], ready, go, stop, readers[..], w)
    }

    constructor (p: Setup, spare: nat, n: nat)
      ensures this.p == p && View() == Initial(p, spare, n) && fresh(heap) && fresh(seen) && fresh(readers)
    {
      this.p := p;
      var first, free := Block(true, seq(p.fields, _ => 3)), Block(false, seq(p.fields, _ => 0));
      heap := new Block[spare + 1](i => if i == 0 then first else free);
      seen := new nat[n](_ => 0);
      readers := new Reader[n](_ => Reader(QsLoad(true), 0));
      ptr, gp, ready, go, stop, w := 0, 1, 0, false, false, Writer(WriterAwait, 3, 0, 0, 0);
      new;
      assert View().heap == Initial(p, spare, n).heap;
    }

    method SetReader(t: nat, pc: ReaderPc)
      requires t < readers.Length
      modifies readers
      ensures View() == GotoReader(old(View()), t, pc)
    {
      readers[t] := readers[t].(pc := pc);
    }

    /** check loads one field and, at the last one, counts a bad read. */
    method CheckAccess(t: nat)
      requires Shape(p, View()) && t < readers.Length && readers[t].pc.Check?
      modifies readers
      ensures View() == CheckStep(p, old(View()), t)
    {
      var pc := readers[t].pc;
      assert View().readers[t] == readers[t] && View().heap[pc.c] == heap[pc.c];
      var x := heap[pc.c].field[pc.i];
      var v := if pc.i == 0 then x else pc.v;
      var ok := if pc.i == 0 then x == 3 || x == 5 else pc.ok && x == pc.v;
      if pc.i + 1 < p.fields {
        SetReader(t, Check(pc.k, pc.c, pc.i + 1, v, ok));
      } else {
        readers[t] := Reader(NextRead(p, pc.k + 1), if ok then readers[t].bad else readers[t].bad + 1);
      }
    }

    /** One access of reader t. */
    method ReaderAccess(t: nat)
      requires Shape(p, View()) && t < readers.Length
      modifies this`ready, seen, readers
      ensures View() == ReaderStep(p, old(View()), t)
    {
      match readers[t].pc
      case QsLoad(first) => SetReader(t, QsStore(first, gp));
      case QsStore(first, at) =>
        seen[t] := at;
        SetReader(t, if first then SayReady else TestStop);
      case SayReady =>
        ready := ready + 1;
        SetReader(t, AwaitGo);
      case AwaitGo =>
        if go { SetReader(t, TestStop); }
      case TestStop => SetReader(t, if stop then ReaderDone else NextRead(p, 0));
      case LoadPtr(k) => SetReader(t, Check(k, ptr, 0, 0, true));
      case Check(_, _, _, _, _) => CheckAccess(t);
      case ReaderDone =>
    }

    method WriteField(a: nat, i: nat, v: int)
      requires a < heap.Length && i < |heap[a].field|
      modifies heap
      ensures heap[..] == StoreField(old(View()), a, i, v)
    {
      heap[a] := heap[a].(field := heap[a].field[i := v]);
    }

    /** The writer's accesses to the two copies. */
    method CopyAccess(a: nat, junk: seq<int>)
      requires Shape(p, View()) && (w.pc.Malloc? || w.pc.Fill? || w.pc.Wipe? || w.pc.Free?)
      modifies this`w, heap
      ensures View() == WriterStep(p, old(View()), a, junk)
    {
      match w.pc
      case Malloc =>
        if a < heap.Length && !heap[a].live && |junk| == p.fields {
          heap[a] := Block(true, junk);
          w := w.(pc := Fill(0), nw := a);
        }
      case Fill(i) =>
        assert |View().heap[w.nw].field| == p.fields;
        WriteField(w.nw, i, w.v);
        w := w.(pc := if i + 1 < p.fields then Fill(i + 1) else Publish);
      case Wipe(i) =>
        assert |View().heap[w.was].field| == p.fields;
        WriteField(w.was, i, -1);
        w := w.(pc := if i + 1 < p.fields then Wipe(i + 1) else Free);
      case Free =>
        heap[w.was] := heap[w.was].(live := false);
        w := w.(pc := WriterTest, updates := w.updates + 1);
    }

    /** The writer's other accesses: the update loop, the publication and synchronize_rcu. */
    method ControlAccess(ghost a: nat, ghost junk: seq<int>)
      requires Shape(p, View()) && !(w.pc.Malloc? || w.pc.Fill? || w.pc.Wipe? || w.pc.Free?)
      modifies this
      ensures View() == WriterStep(p, old(View()), a, junk)
    {
      match w.pc
      case WriterAwait =>
        if go { w := w.(pc := WriterTest); }
      case WriterTest =>
        if stop || p.maxUpdates <= w.updates {
          w := w.(pc := WriterDone(false));
        } else {
          w := w.(pc := LoadOld, v := if w.v == 3 then 5 else 3);
        }
      case LoadOld => w := w.(pc := Malloc, was := ptr);
      case Publish =>
        ptr := w.nw;
        w := w.(pc := if p.rcu then Advance else Wipe(0));
      case Advance =>
        gp := gp + 1;
        w := w.(pc := Poll(0));
      case Poll(i) =>
        if i == seen.Length {
          w := w.(pc := Wipe(0));
        } else {
          w := w.(pc := if seen[i] == gp then Poll(i + 1) else PollStop(i));
        }
      case PollStop(i) => w := w.(pc := if stop then WriterDone(true) else Poll(i));
      case WriterDone(_) =>
    }

    /** One access of whoever has the turn. */
    method Access(turn: Turn)
      requires Shape(p, View())
      modifies this, heap, seen, readers
      ensures View() == Step(p, old(View()), turn)
    {
      match turn
      case ReaderTurn(t) =>
        if t < readers.Length { ReaderAccess(t); }
      case WriterTurn(a, junk) =>
        if w.pc.Malloc? || w.pc.Fill? || w.pc.Wipe? || w.pc.Free? {
          CopyAccess(a, junk);
        } else {
          ControlAccess(a, junk);
        }
      case MainTurn =>
        if !go { go := ready == readers.Length; } else { stop := true; }
    }

    /** The total of bad reads that main prints: zero in rcu mode, whatever the interleaving. */
    method Run(turns: seq<Turn>) returns (bad: nat)
      requires 0 < p.fields && 0 < heap.Length && View() == Initial(p, heap.Length - 1, readers.Length)
      modifies this, heap, seen, readers
      ensures View() == After(p, heap.Length - 1, readers.Length, turns)
      ensures bad == BadReads(View().readers) && (p.rcu ==> bad == 0)
    {
      var k, n := 0, readers.Length;
      assert turns[..0] == [];
      while k < |turns|
        invariant k <= |turns| && View() == After(p, heap.Length - 1, n, turns[..k])
      {
        Access(turns[k]);
        assert turns[..k + 1][..k] == turns[..k];
        k := k + 1;
      }
      assert turns[..k] == turns;
      if p.rcu { RunInv(p, heap.Length - 1, n, turns); }
      bad := Total();
    }

    method Total() returns (bad: nat)
      ensures bad == BadReads(readers[..])
      ensures p.rcu && Inv(p, View()) ==> bad == 0
    {
      bad := 0;
      for t := 0 to readers.Length
        invariant bad == BadReads(readers[..t])
        invariant p.rcu && Inv(p, View()) ==> bad == 0
      {
        assert Inv(p, View()) ==> ReaderOk(p, View(), t) && View().readers[t] == readers[t];
        assert readers[..t + 1][..t] == readers[..t];
        bad := bad + readers[t].bad;
      }
      assert readers[..readers.Length] == readers[..];
    }
  }
}
