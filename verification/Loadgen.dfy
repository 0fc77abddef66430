/** The event loop of loadgen.c: clients that send requests, read replies and
    record a sample for each, until they are done, fail or run out of time. */
module Loadgen {
  import opened Seqs

  datatype Phase = Idle | Sending | Reading | Done
  datatype Status = Ok | Busy | TimedOut | Io | Protocol | Cancelled

  datatype Client = Client(phase: Phase, next: nat, target: nat)
  datatype Sample = Sample(client: nat, sequence: nat, status: Status)

  /** The clients, the samples recorded, and whether an epoll change after a good reply failed. */
  datatype State = State(clients: seq<Client>, samples: seq<Sample>, watchFailed: bool)

  /** The outcome of send_pending: all sent, would block, or an error; the first two change the epoll watch. */
  datatype SendResult = AllSent(watched: bool) | Blocked(watched: bool) | SendError

  /** The outcome of receive_pending: nothing complete yet, or a line, an overlong or cut-off reply, or an error. */
  datatype ReceiveResult = NotYet | Line(status: Status) | TooLong | CutOff | ReceiveError

  /** What the loop does for a client; `watched` is the outcome of the epoll change in finish. */
  datatype Event =
    | Due(i: nat, sent: SendResult)
    | Writable(i: nat, sent: SendResult)
    | Readable(i: nat, got: ReceiveResult, watched: bool)
    | Unsolicited(i: nat, data: bool)
    | Late(i: nat)
    | Deadline

  function SetPhase(s: State, i: nat, phase: Phase): State
    requires i < |s.clients|
  {
    s.(clients := s.clients[i := s.clients[i].(phase := phase)])
  }

  predicate Good(status: Status) {
    status.Ok? || status.Busy?
  }

  /** finish: record a sample; the client goes on only after a good reply that was not its last. */
  function Finish(s: State, i: nat, status: Status, watched: bool): State
    requires i < |s.clients|
  {
    var c := s.clients[i];
    var more := Good(status) && c.next + 1 < c.target;
    State(s.clients[i := Client(if more && watched then Idle else Done, c.next + 1, c.target)],
          s.samples + [Sample(i, c.next, status)],
          s.watchFailed || (more && !watched))
  }

  function Send(s: State, i: nat, sent: SendResult): State
    requires i < |s.clients|
  {
    match sent
    case AllSent(watched) => if watched then SetPhase(s, i, Reading) else Finish(SetPhase(s, i, Reading), i, Io, true)
    case Blocked(watched) => if watched then s else Finish(s, i, Io, true)
    case SendError => Finish(s, i, Io, true)
  }

  function Receive(s: State, i: nat, got: ReceiveResult, watched: bool): State
    requires i < |s.clients|
  {
    match got
    case NotYet => s
    case Line(status) => Finish(s, i, status, watched)
    case TooLong => Finish(s, i, Protocol, watched)
    case CutOff => Finish(s, i, Protocol, watched)
    case ReceiveError => Finish(s, i, Io, watched)
  }

  predicate InFlight(phase: Phase) {
    phase.Sending? || phase.Reading?
  }

  /** The deadline cancels every request in flight, from client i on. */
  function CancelFrom(s: State, i: nat): State
    requires i <= |s.clients|
    decreases |s.clients| - i
  {
    if i == |s.clients| then s
    else CancelFrom(if InFlight(s.clients[i].phase) then Finish(s, i, Cancelled, true) else s, i + 1)
  }

  predicate Enabled(s: State, e: Event) {
    match e
    case Due(i, _) => i < |s.clients| && s.clients[i].phase.Idle?
    case Writable(i, _) => i < |s.clients| && s.clients[i].phase.Sending?
    case Readable(i, _, _) => i < |s.clients| && s.clients[i].phase.Reading?
    case Unsolicited(i, _) => i < |s.clients| && s.clients[i].phase.Idle?
    case Late(i) => i < |s.clients| && InFlight(s.clients[i].phase)
    case Deadline => true
  }

  function Step(s: State, e: Event): State {
    if !Enabled(s, e) then s
    else
      match e
      case Due(i, sent) => Send(SetPhase(s, i, Sending), i, sent)
      case Writable(i, sent) => Send(s, i, sent)
      case Readable(i, got, watched) => Receive(s, i, got, watched)
      case Unsolicited(i, data) => Finish(SetPhase(s, i, Sending), i, if data then Protocol else Io, true)
      case Late(i) => Finish(s, i, TimedOut, true)
      case Deadline => CancelFrom(s, 0)
  }

  // ----- the account ------------------------------------------------------

  /** The sequence numbers of one client's samples, in order. */
  function Numbers(samples: seq<Sample>, i: nat): seq<nat> {
    if samples == [] then []
    else
      var last := samples[|samples| - 1];
      Numbers(samples[..|samples| - 1], i) + if last.client == i then [last.sequence] else []
  }

  /** What became of a client's requests, in order. */
  function Statuses(samples: seq<Sample>, i: nat): seq<Status> {
    if samples == [] then []
    else
      var last := samples[|samples| - 1];
      Statuses(samples[..|samples| - 1], i) + if last.client == i then [last.status] else []
  }

  /** The last of these is a failure. */
  predicate Failed(history: seq<Status>) {
    history != [] && var last := history[|history| - 1]; last !in {Ok, Busy}
  }

  function UpTo(n: nat): (s: seq<nat>)
    ensures |s| == n && forall k :: 0 <= k < n ==> s[k] == k
  {
    seq(n, k => k)
  }

  function Nexts(clients: seq<Client>): seq<int> {
    seq(|clients|, i requires 0 <= i < |clients| => clients[i].next)
  }

  function Targets(clients: seq<Client>): seq<int> {
    seq(|clients|, i requires 0 <= i < |clients| => clients[i].target)
  }

  ghost predicate AllGood(samples: seq<Sample>) {
    forall k :: 0 <= k < |samples| ==> Good(samples[k].status)
  }

  ghost predicate ClientOk(s: State, i: nat)
    requires i < |s.clients|
  {
    var c := s.clients[i];
    && Numbers(s.samples, i) == UpTo(c.next) && c.next <= c.target && (!c.phase.Done? ==> c.next < c.target)
    && (c.phase.Done? && AllGood(s.samples) && !s.watchFailed ==> c.next == c.target)
    && RetiresInTime(s, i)
  }

  /** Only a client's last request can have failed; then, or when it was its last one planned, the client is
      done, and for no other reason unless an epoll change failed. */
  ghost predicate RetiresInTime(s: State, i: nat)
    requires i < |s.clients|
  {
    var c, history := s.clients[i], Statuses(s.samples, i);
    && |history| == c.next && (forall k :: 0 <= k < |history| - 1 ==> history[k] in {Ok, Busy})
    && (Failed(history) || c.next == c.target ==> c.phase.Done?)
    && (c.phase.Done? && !s.watchFailed ==> Failed(history) || c.next == c.target)
  }

  /** A client that is done, although its last request did not fail and was not the last one planned. */
  ghost predicate CutShort(s: State, i: nat) {
    i < |s.clients| && s.clients[i].phase.Done? && !Failed(Statuses(s.samples, i))
    && s.clients[i].next < s.clients[i].target
  }

  ghost predicate Inv(s: State, planned: nat) {
    && (s.watchFailed ==> exists i :: CutShort(s, i))
    && |s.samples| == Sum(Nexts(s.clients)) && planned == Sum(Targets(s.clients))
    && (forall i {:trigger ClientOk(s, i)} :: 0 <= i < |s.clients| ==> ClientOk(s, i))
  }

  /** There is room for another sample as long as some client is not done. */
  lemma RoomLeft(s: State, planned: nat)
    requires Inv(s, planned)
    ensures |s.samples| <= planned
    ensures (exists i :: 0 <= i < |s.clients| && !s.clients[i].phase.Done?) ==> |s.samples| < planned
  {
    forall i | 0 <= i < |s.clients| ensures s.clients[i].next <= s.clients[i].target { assert ClientOk(s, i); }
    SumAtMost(Nexts(s.clients), Targets(s.clients), 0);
    if i :| 0 <= i < |s.clients| && !s.clients[i].phase.Done? {
      assert ClientOk(s, i);
      SumLess(Nexts(s.clients), Targets(s.clients), i);
    }
  }

  lemma FinishKeeps(s: State, planned: nat, i: nat, status: Status, watched: bool)
    requires Inv(s, planned) && i < |s.clients| && !s.clients[i].phase.Done?
    ensures Inv(Finish(s, i, status, watched), planned)
  {
    var r := Finish(s, i, status, watched);
    assert ClientOk(s, i);
    SumUpdate(Nexts(s.clients), i, s.clients[i].next + 1);
    assert Nexts(r.clients) == Nexts(s.clients)[i := s.clients[i].next + 1] && Targets(r.clients) == Targets(s.clients);
    assert r.samples[..|s.samples|] == s.samples;
    FinishCuts(s, i, status, watched);
    forall j | 0 <= j < |r.clients| ensures ClientOk(r, j) {
      assert ClientOk(s, j);
      GoodBefore(s.samples, r.samples[|s.samples|]);
      FinishRetires(s, i, status, watched, j);
      if j == i { assert UpTo(s.clients[i].next) + [s.clients[i].next] == UpTo(s.clients[i].next + 1); }
      else { assert Numbers(r.samples, j) == Numbers(s.samples, j) + []; }
    }
  }

  lemma FinishCuts(s: State, i: nat, status: Status, watched: bool)
    requires i < |s.clients| && !s.clients[i].phase.Done? && (s.watchFailed ==> exists j :: CutShort(s, j))
    ensures var r := Finish(s, i, status, watched); r.watchFailed ==> exists j :: CutShort(r, j)
  {
    var r := Finish(s, i, status, watched);
    assert r.samples[..|s.samples|] == s.samples;
    if s.watchFailed {
      var j :| CutShort(s, j);
      assert Statuses(r.samples, j) == Statuses(s.samples, j) + [];
      assert CutShort(r, j);
    } else if r.watchFailed {
      assert CutShort(r, i);
    }
  }

  lemma FinishRetires(s: State, i: nat, status: Status, watched: bool, j: nat)
    requires i < |s.clients| && !s.clients[i].phase.Done? && s.clients[i].next < s.clients[i].target
    requires j < |s.clients| && RetiresInTime(s, i) && RetiresInTime(s, j)
    ensures RetiresInTime(Finish(s, i, status, watched), j)
  {
    var r := Finish(s, i, status, watched);
    assert r.samples[..|s.samples|] == s.samples;
    assert j != i ==> Statuses(r.samples, j) == Statuses(s.samples, j) + [];
  }

  lemma GoodBefore(samples: seq<Sample>, last: Sample)
    ensures AllGood(samples + [last]) ==> AllGood(samples) && Good(last.status)
  {
    forall k | 0 <= k < |samples| && AllGood(samples + [last]) ensures Good(samples[k].status) {
      assert (samples + [last])[k] == samples[k];
    }
    if AllGood(samples + [last]) { assert (samples + [last])[|samples|] == last; }
  }

  lemma SetPhaseKeeps(s: State, planned: nat, i: nat, phase: Phase)
    requires Inv(s, planned) && i < |s.clients| && !s.clients[i].phase.Done? && !phase.Done?
    ensures Inv(SetPhase(s, i, phase), planned)
  {
    var r := SetPhase(s, i, phase);
    assert ClientOk(s, i);
    if s.watchFailed {
      var j :| CutShort(s, j);
      assert CutShort(r, j);
    }
    assert Nexts(r.clients) == Nexts(s.clients) && Targets(r.clients) == Targets(s.clients);
    forall j | 0 <= j < |r.clients| ensures ClientOk(r, j) { assert ClientOk(s, j); }
  }

  lemma SendKeeps(s: State, planned: nat, i: nat, sent: SendResult)
    requires Inv(s, planned) && i < |s.clients| && s.clients[i].phase.Sending?
    ensures Inv(Send(s, i, sent), planned)
  {
    if sent.AllSent? { SetPhaseKeeps(s, planned, i, Reading); }
    if sent.AllSent? && !sent.watched { FinishKeeps(SetPhase(s, i, Reading), planned, i, Io, true); }
    FinishKeeps(s, planned, i, Io, true);
  }

  lemma {:induction false} CancelKeeps(s: State, planned: nat, i: nat)
    requires Inv(s, planned) && i <= |s.clients|
    ensures Inv(CancelFrom(s, i), planned)
    decreases |s.clients| - i
  {
    if i < |s.clients| {
      if InFlight(s.clients[i].phase) { FinishKeeps(s, planned, i, Cancelled, true); }
      CancelKeeps(if InFlight(s.clients[i].phase) then Finish(s, i, Cancelled, true) else s, planned, i + 1);
    }
  }

  lemma StepKeeps(s: State, planned: nat, e: Event)
    requires Inv(s, planned)
    ensures Inv(Step(s, e), planned) && |Step(s, e).clients| == |s.clients|
  {
    if Enabled(s, e) {
      match e
      case Due(i, sent) => SetPhaseKeeps(s, planned, i, Sending); SendKeeps(SetPhase(s, i, Sending), planned, i, sent);
      case Writable(i, sent) => SendKeeps(s, planned, i, sent);
      case Readable(i, got, watched) => ReceiveKeeps(s, planned, i, got, watched);
      case Unsolicited(i, data) =>
        SetPhaseKeeps(s, planned, i, Sending);
        FinishKeeps(SetPhase(s, i, Sending), planned, i, if data then Protocol else Io, true);
      case Late(i) => FinishKeeps(s, planned, i, TimedOut, true);
      case Deadline => CancelKeeps(s, planned, 0); CancelLength(s, 0);
    }
  }

  lemma ReceiveKeeps(s: State, planned: nat, i: nat, got: ReceiveResult, watched: bool)
    requires Inv(s, planned) && i < |s.clients| && s.clients[i].phase.Reading?
    ensures Inv(Receive(s, i, got, watched), planned)
  {
    match got
    case NotYet =>
    case Line(status) => FinishKeeps(s, planned, i, status, watched);
    case TooLong => FinishKeeps(s, planned, i, Protocol, watched);
    case CutOff => FinishKeeps(s, planned, i, Protocol, watched);
    case ReceiveError => FinishKeeps(s, planned, i, Io, watched);
  }

  lemma {:induction false} CancelLength(s: State, i: nat)
    requires i <= |s.clients|
    ensures |CancelFrom(s, i).clients| == |s.clients|
    decreases |s.clients| - i
  {
    if i < |s.clients| {
      CancelLength(if InFlight(s.clients[i].phase) then Finish(s, i, Cancelled, true) else s, i + 1);
    }
  }

  // ----- what an event does -----------------------------------------------

  /** The status with which an event ends the client's request; none when the request goes on. */
  function Ends(e: Event): seq<Status> {
    match e
    case Due(_, sent) => if sent.SendError? || !sent.watched then [Io] else []
    case Writable(_, sent) => if sent.SendError? || !sent.watched then [Io] else []
    case Readable(_, got, _) =>
      if got.NotYet? then [] else if got.Line? then [got.status] else if got.ReceiveError? then [Io] else [Protocol]
    case Unsolicited(_, data) => [if data then Protocol else Io]
    case Late(_) => [TimedOut]
    case Deadline => []
  }

  /** Where a request that goes on stands after the event. */
  function GoesOnIn(e: Event, phase: Phase): Phase {
    match e
    case Due(_, sent) => if sent.AllSent? then Reading else Sending
    case Writable(_, sent) => if sent.AllSent? then Reading else Sending
    case _ => phase
  }

  /** An event of one client ends its request with the status it tells, or leaves it under way; nobody else's. */
  lemma EventTells(s: State, e: Event)
    requires Enabled(s, e) && !e.Deadline?
    ensures var r, c := Step(s, e), s.clients[e.i];
      && |r.clients| == |s.clients| && (forall j :: 0 <= j < |s.clients| && j != e.i ==> r.clients[j] == s.clients[j])
      && (Ends(e) == [] ==>
            r.samples == s.samples && r.clients[e.i] == c.(phase := GoesOnIn(e, c.phase))
                && !r.clients[e.i].phase.Done?)
      && (Ends(e) != [] ==>
            && r.samples == s.samples + [Sample(e.i, c.next, Ends(e)[0])]
            && r.clients[e.i].next == c.next + 1 && !InFlight(r.clients[e.i].phase))
  {
  }

  /** The deadline cancels exactly the requests in flight. */
  lemma {:induction false} DeadlineCancels(s: State, i: nat, j: nat)
    requires i <= |s.clients| && j < |s.clients|
    ensures var r := CancelFrom(s, i);
      && |r.clients| == |s.clients|
      && (var cut := i <= j && (s.clients[j].phase.Sending? || s.clients[j].phase.Reading?);
          && Statuses(r.samples, j) == Statuses(s.samples, j) + (if cut then [Cancelled] else [])
          && r.clients[j] == if cut then Client(Done, s.clients[j].next + 1, s.clients[j].target) else s.clients[j])
    decreases |s.clients| - i
  {
    if i == |s.clients| {
      assert Statuses(s.samples, j) + [] == Statuses(s.samples, j);
    } else {
      var r := if InFlight(s.clients[i].phase) then Finish(s, i, Cancelled, true) else s;
      DeadlineCancels(r, i + 1, j);
      if InFlight(s.clients[i].phase) {
        assert r.samples[..|s.samples|] == s.samples;
        assert Statuses(r.samples, j) == Statuses(s.samples, j) + if i == j then [Cancelled] else [];
        assert Statuses(r.samples, j) + [] == Statuses(r.samples, j);
      }
    }
  }

  // ----- whole runs -------------------------------------------------------

  /** In the responsive workload client 0 makes a single request. */
  function TargetOf(responsive: bool, requests: nat, i: nat): nat {
    if responsive && i == 0 then 1 else requests
  }

  /** Number of samples that benchmark makes room for. */
  function Planned(responsive: bool, clients: nat, requests: nat): int {
    if responsive then 1 + (clients - 1) * requests else clients * requests
  }

  function Start(responsive: bool, clients: nat, requests: nat): State {
    State(seq(clients, i requires 0 <= i => Client(Idle, 0, TargetOf(responsive, requests, i))), [], false)
  }

  lemma {:induction false} SumConstant(s: seq<int>, x: nat)
    requires forall k :: 0 <= k < |s| ==> s[k] == x
    ensures Sum(s) == |s| * x
  {
    if s != [] {
      SumConstant(s[1..], x);
      assert |s| * x == x + (|s| - 1) * x;
    }
  }

  /** The formula for the room is the total of the targets. */
  lemma PlannedIsTotal(responsive: bool, clients: nat, requests: nat)
    requires responsive ==> 0 < clients
    ensures Planned(responsive, clients, requests) == Sum(Targets(Start(responsive, clients, requests).clients))
  {
    var targets := Targets(Start(responsive, clients, requests).clients);
    if responsive { SumConstant(targets[1..], requests); } else { SumConstant(targets, requests); }
  }

  lemma StartKeeps(responsive: bool, clients: nat, requests: nat)
    requires (responsive ==> 0 < clients) && 0 < requests
    ensures Inv(Start(responsive, clients, requests), Planned(responsive, clients, requests))
  {
    PlannedIsTotal(responsive, clients, requests);
    SumZero(Nexts(Start(responsive, clients, requests).clients));
  }

  ghost function After(s: State, planned: nat, events: seq<Event>): (r: State)
    requires Inv(s, planned)
    ensures Inv(r, planned) && |r.clients| == |s.clients|
  {
    if events == [] then s
    else
      StepKeeps(After(s, planned, events[..|events| - 1]), planned, events[|events| - 1]);
      Step(After(s, planned, events[..|events| - 1]), events[|events| - 1])
  }

  /** The samples always fit, each client's are numbered 0, 1, 2, ...,
      and a client that is not done has requests left. */
  lemma {:induction false} SamplesAreNumbered(s: State, planned: nat, events: seq<Event>, i: nat)
    requires Inv(s, planned) && i < |s.clients|
    ensures var r := After(s, planned, events);
      && |r.samples| <= planned && Numbers(r.samples, i) == UpTo(r.clients[i].next)
      && (!r.clients[i].phase.Done? ==> r.clients[i].next < r.clients[i].target)
  {
    RoomLeft(After(s, planned, events), planned);
    assert ClientOk(After(s, planned, events), i);
  }

  /** A client goes on exactly until a request of it fails or its last one is recorded. */
  lemma {:induction false} FailureIsLast(s: State, planned: nat, events: seq<Event>, i: nat)
    requires Inv(s, planned) && i < |s.clients|
    ensures var r := After(s, planned, events); var history := Statuses(r.samples, i);
      && (forall k :: 0 <= k < |history| - 1 ==> history[k] in {Ok, Busy})
      && (!r.watchFailed ==>
            (r.clients[i].phase.Done? <==> Failed(history) || |history| == r.clients[i].target))
      && (r.watchFailed <==> exists j :: CutShort(r, j))
  {
    var r := After(s, planned, events);
    assert ClientOk(r, i);
    if j :| CutShort(r, j) { assert ClientOk(r, j); }
  }

  /** A run without failures that is over has recorded every sample it planned. */
  lemma {:induction false} CompleteRunRecordsAll(s: State, planned: nat, events: seq<Event>)
    requires Inv(s, planned)
    requires var r := After(s, planned, events);
      AllGood(r.samples) && !r.watchFailed && forall i :: 0 <= i < |r.clients| ==> r.clients[i].phase.Done?
    ensures |After(s, planned, events).samples| == planned
  {
    var r := After(s, planned, events);
    forall i | 0 <= i < |r.clients| ensures r.clients[i].next == r.clients[i].target { assert ClientOk(r, i); }
    assert Nexts(r.clients) == Targets(r.clients);
  }

  // ----- the program, updated in place ------------------------------------

  class Run {
    const planned: nat
    const samples: array<Sample>
    var used: nat
    const clients: array<Client>
    var watchFailed: bool

    ghost predicate Ready()
      reads this
    {
      used <= samples.Length
    }

    ghost function View(): State
      requires Ready()
      reads this, samples, clients
    {
      State(clients[..], samples[..used], watchFailed)
    }

    ghost predicate Valid()
      reads this, samples, clients
    {
      samples.Length == planned && Ready() && Inv(View(), planned)
    }

    constructor (responsive: bool, n: nat, requests: nat)
      requires 0 < n && 0 < requests
      ensures Valid() && View() == Start(responsive, n, requests) && planned == Planned(responsive, n, requests)
      ensures fresh(samples) && fresh(clients)
    {
      StartKeeps(responsive, n, requests);
      var room := if responsive then 1 + (n - 1) * requests else n * requests;
      planned := room;
      samples := new Sample[room](_ => Sample(0, 0, Ok));
      clients := new Client[n](i => Client(Idle, 0, if responsive && i == 0 then 1 else requests));
      used, watchFailed := 0, false;
      new;
      assert clients[..] == Start(responsive, n, requests).clients && samples[..0] == [];
    }

    method SetPhaseOf(i: nat, phase: Phase)
      requires Ready() && i < clients.Length
      modifies clients
      ensures View() == SetPhase(old(View()), i, phase)
    {
      clients[i] := clients[i].(phase := phase);
    }

    /** finish; there is room for the sample. */
    method FinishClient(i: nat, status: Status, watched: bool)
      requires Valid() && i < clients.Length && !clients[i].phase.Done?
      modifies this`used, this`watchFailed, samples, clients
      ensures Valid() && View() == Finish(old(View()), i, status, watched)
    {
      FinishKeeps(View(), planned, i, status, watched);
      assert !View().clients[i].phase.Done?;
      RoomLeft(View(), planned);
      var c := clients[i];
      AddSample(Sample(i, c.next, status));
      var more := Good(status) && c.next + 1 < c.target;
      clients[i] := Client(if more && watched then Idle else Done, c.next + 1, c.target);
      if more && !watched { watchFailed := true; }
    }

    method AddSample(x: Sample)
      requires Ready() && used < samples.Length
      modifies this`used, samples
      ensures Ready() && used == old(used) + 1 && samples[..used] == old(samples[..used]) + [x]
    {
      samples[used] := x;
      used := used + 1;
    }

    method SendPending(i: nat, sent: SendResult)
      requires Valid() && i < clients.Length && clients[i].phase.Sending?
      modifies this`used, this`watchFailed, samples, clients
      ensures Valid() && View() == Send(old(View()), i, sent)
    {
      match sent
      case AllSent(watched) =>
        assert View().clients[i].phase.Sending?;
        SetPhaseKeeps(View(), planned, i, Reading);
        SetPhaseOf(i, Reading);
        if !watched { FinishClient(i, Io, true); }
      case Blocked(watched) =>
        if !watched { FinishClient(i, Io, true); }
      case SendError => FinishClient(i, Io, true);
    }

    method ReceivePending(i: nat, got: ReceiveResult, watched: bool)
      requires Valid() && i < clients.Length && clients[i].phase.Reading?
      modifies this`used, this`watchFailed, samples, clients
      ensures Valid() && View() == Receive(old(View()), i, got, watched)
    {
      match got
      case NotYet =>
      case Line(status) => FinishClient(i, status, watched);
      case TooLong => FinishClient(i, Protocol, watched);
      case CutOff => FinishClient(i, Protocol, watched);
      case ReceiveError => FinishClient(i, Io, watched);
    }

    method CancelAll()
      requires Valid()
      modifies this`used, this`watchFailed, samples, clients
      ensures Valid() && View() == CancelFrom(old(View()), 0)
    {
      var i := 0;
      while i < clients.Length
        invariant i <= clients.Length && Valid() && CancelFrom(View(), i) == CancelFrom(old(View()), 0)
      {
        assert View().clients[i] == clients[i];
        if clients[i].phase.Sending? || clients[i].phase.Reading? { FinishClient(i, Cancelled, true); }
        i := i + 1;
      }
    }

    /** prepare and send_pending for an idle client, or prepare and finish when it got unasked data. */
    method Prepare(i: nat)
      requires Valid() && i < clients.Length && clients[i].phase.Idle?
      modifies clients
      ensures Valid() && View() == SetPhase(old(View()), i, Sending)
    {
      assert View().clients[i].phase.Idle?;
      SetPhaseKeeps(View(), planned, i, Sending);
      SetPhaseOf(i, Sending);
    }

    method Handle(e: Event)
      requires Valid() && Enabled(View(), e)
      modifies this`used, this`watchFailed, samples, clients
      ensures Valid() && View() == Step(old(View()), e)
    {
      match e
      case Due(i, sent) =>
        Prepare(i);
        SendPending(i, sent);
      case Writable(i, sent) => SendPending(i, sent);
      case Readable(i, got, watched) => ReceivePending(i, got, watched);
      case Unsolicited(i, data) =>
        Prepare(i);
        FinishClient(i, if data then Protocol else Io, true);
      case Late(i) => FinishClient(i, TimedOut, true);
      case Deadline => CancelAll();
    }
  }
}
