/** The newline framing of ipc_server.c: whatever pieces recv and send work in,
    the requests and replies of a connection are those of its byte stream. */
module IpcServer {

  datatype RecvResult = Chunk(n: nat) | Interrupted | WouldBlock | Closed | Failed
  datatype SendResult = Accepts(n: nat) | SendInterrupted | SendBlocks | SendFails

  datatype Fate = Open | Quit | Dropped

  // ----- what a byte stream asks for --------------------------------------

  datatype End = Waiting(rest: string) | Asked | TooLong
  datatype Outcome = Outcome(lines: seq<string>, end: End)

  /** Index of the first newline, or the length. */
  function Newline(s: string): (i: nat)
    ensures i <= |s| && (i < |s| ==> s[i] == '\n') && forall k :: 0 <= k < i ==> s[k] != '\n'
  {
    if s == [] || s[0] == '\n' then 0 else 1 + Newline(s[1..])
  }

  /** The lines of a stream in order, up to the first QUIT or the first line that does not fit the
      input buffer; the rest is waited for. */
  function Requests(cap: nat, s: string): Outcome
    decreases |s|
  {
    var i := Newline(s);
    if i < |s| && i < cap then
      if s[..i] == "QUIT" then Outcome([s[..i]], Asked)
      else Prepend([s[..i]], Requests(cap, s[i + 1..]))
    else if cap <= |s| then Outcome([], TooLong)
    else Outcome([], Waiting(s))
  }

  function Prepend(lines: seq<string>, r: Outcome): Outcome {
    r.(lines := lines + r.lines)
  }

  lemma {:induction false} NewlineInFront(s: string, t: string)
    ensures Newline(s) < |s| ==> Newline(s + t) == Newline(s)
    ensures Newline(s) == |s| ==> Newline(s + t) == |s| + Newline(t)
  {
    if s == [] {
      assert s + t == t;
    } else if s[0] != '\n' {
      assert (s + t)[1..] == s[1..] + t;
      NewlineInFront(s[1..], t);
    }
  }

  lemma PrependTwice(a: seq<string>, b: seq<string>, r: Outcome)
    ensures Prepend(a, Prepend(b, r)) == Prepend(a + b, r)
  {
    assert a + (b + r.lines) == (a + b) + r.lines;
  }

  lemma SameFirstLine(s: string, t: string)
    requires Newline(s) < |s|
    ensures var i := Newline(s); Newline(s + t) == i && (s + t)[..i] == s[..i] && (s + t)[i + 1..] == s[i + 1..] + t
  {
    NewlineInFront(s, t);
  }

  /** What has been decided by a part of the stream stays decided; the rest goes on where it stopped. */
  lemma {:induction false} RequestsExtend(cap: nat, s: string, t: string)
    ensures var r := Requests(cap, s);
      Requests(cap, s + t) == if r.end.Waiting? then Prepend(r.lines, Requests(cap, r.end.rest + t)) else r
    decreases |s|
  {
    var i := Newline(s);
    if i < |s| && i < cap {
      SameFirstLine(s, t);
      if s[..i] != "QUIT" {
        var rest := s[i + 1..];
        RequestsExtend(cap, rest, t);
        var q := Requests(cap, rest);
        if q.end.Waiting? { PrependTwice([s[..i]], q.lines, Requests(cap, q.end.rest + t)); }
      }
    } else {
      NoLineYet(cap, s, t);
    }
  }

  lemma NoLineYet(cap: nat, s: string, t: string)
    requires Newline(s) == |s| || cap <= Newline(s)
    ensures Requests(cap, s + t) == if |s| < cap then Prepend([], Requests(cap, s + t)) else Outcome([], TooLong)
    ensures Requests(cap, s) == Outcome([], if |s| < cap then Waiting(s) else TooLong)
  {
    NewlineInFront(s, t);
    assert [] + Requests(cap, s + t).lines == Requests(cap, s + t).lines;
  }

  /** The part that is waited for holds no newline and leaves room in the buffer. */
  lemma {:induction false} WaitingHasNoLine(cap: nat, s: string)
    ensures var r := Requests(cap, s); r.end.Waiting? ==> |r.end.rest| < cap && Newline(r.end.rest) == |r.end.rest|
    decreases |s|
  {
    var i := Newline(s);
    if i < |s| && i < cap && s[..i] != "QUIT" { WaitingHasNoLine(cap, s[i + 1..]); }
  }

  // ----- replies ----------------------------------------------------------

  /** What is queued at once for a line. */
  function Head(line: string): string {
    if line == "QUIT" then "BYE\n"
    else if line == "STATS" then "START\n"
    else if line == "PING" then "PONG\n"
    else "ERROR\n"
  }

  /** The whole reply to a line; the statistics follow when START has been sent. */
  function Reply(line: string, stats: string): string {
    Head(line) + if line == "STATS" then stats else []
  }

  /** The bytes of the protocol. */
  lemma Protocol(line: string, stats: string)
    ensures line == "PING" ==> Head(line) == Reply(line, stats) == "PONG\n"
    ensures line == "QUIT" ==> Head(line) == Reply(line, stats) == "BYE\n"
    ensures line == "STATS" ==> Head(line) == "START\n" && Reply(line, stats) == "START\n" + stats
    ensures line != "PING" && line != "QUIT" && line != "STATS" ==> Head(line) == Reply(line, stats) == "ERROR\n"
  {
    assert Head(line) + [] == Head(line);
  }

  function Replies(lines: seq<string>, stats: string): string {
    if lines == [] then [] else Replies(lines[..|lines| - 1], stats) + Reply(lines[|lines| - 1], stats)
  }

  /** A line was served, or statistics were computed and queued. */
  datatype Event = Served(line: string) | Computed

  function LinesOf(h: seq<Event>): seq<string> {
    if h == [] then []
    else LinesOf(h[..|h| - 1]) + if h[|h| - 1].Served? then [h[|h| - 1].line] else []
  }

  /** All bytes queued in a history. */
  function Made(h: seq<Event>, stats: string): string {
    if h == [] then []
    else Made(h[..|h| - 1], stats) + if h[|h| - 1].Served? then Head(h[|h| - 1].line) else stats
  }

  /** Does a START wait to be sent before its statistics are computed? */
  predicate Owed(h: seq<Event>) {
    h != [] && h[|h| - 1].Served? && (h[|h| - 1].line == "STATS" || Owed(h[..|h| - 1]))
  }

  /** Statistics are computed only when they are owed. */
  ghost predicate Sensible(h: seq<Event>) {
    forall k :: 0 <= k < |h| && h[k].Computed? ==> Owed(h[..k])
  }

  /** Some line was served while statistics were owed. */
  ghost predicate Overtaken(h: seq<Event>) {
    exists k :: 0 <= k < |h| && h[k].Served? && Owed(h[..k])
  }

  /** The bytes queued, with the statistics still owed, are the replies to the lines in order. */
  predicate InOrder(h: seq<Event>, stats: string) {
    Made(h, stats) + (if Owed(h) then stats else []) == Replies(LinesOf(h), stats)
  }

  lemma Latest(g: seq<Event>, e: Event)
    ensures (g + [e])[..|g|] == g && forall k :: 0 <= k < |g| ==> (g + [e])[k] == g[k] && (g + [e])[..k] == g[..k]
    ensures Overtaken(g + [e]) <==> Overtaken(g) || (e.Served? && Owed(g))
    ensures Sensible(g + [e]) <==> Sensible(g) && (e.Computed? ==> Owed(g))
  {
    var h := g + [e];
    assert h[..|g|] == g;
    forall k | 0 <= k < |g| ensures h[k] == g[k] && h[..k] == g[..k] { }
    assert e.Served? && Owed(g) ==> h[|g|].Served? && Owed(h[..|g|]);
    assert e.Computed? && Sensible(h) ==> h[|g|].Computed? && Owed(h[..|g|]);
  }

  lemma Regroup(a: string, b: string, c: string)
    ensures a + (b + c) == (a + b) + c
  {
  }

  lemma OneMoreEvent(g: seq<Event>, e: Event, stats: string)
    ensures Made(g + [e], stats) == Made(g, stats) + if e.Served? then Head(e.line) else stats
    ensures LinesOf(g + [e]) == LinesOf(g) + if e.Served? then [e.line] else []
    ensures Owed(g + [e]) <==> e.Served? && (e.line == "STATS" || Owed(g))
  {
    assert (g + [e])[..|g|] == g;
  }

  lemma RepliesOneMore(lines: seq<string>, line: string, stats: string)
    ensures Replies(lines + [line], stats) == Replies(lines, stats) + Reply(line, stats)
  {
    assert (lines + [line])[..|lines|] == lines;
  }

  /** The bytes that were made and those that should have been differ at position d. */
  predicate DiffersAt(h: seq<Event>, stats: string, d: nat) {
    d < |Made(h, stats)| && d < |Replies(LinesOf(h), stats)| && Made(h, stats)[d] != Replies(LinesOf(h), stats)[d]
  }

  /** Both only grow, so a difference stays. */
  lemma DifferenceStays(g: seq<Event>, e: Event, stats: string, d: nat)
    requires DiffersAt(g, stats, d)
    ensures DiffersAt(g + [e], stats, d)
  {
    OneMoreEvent(g, e, stats);
    if e.Served? { RepliesOneMore(LinesOf(g), e.line, stats); } else { assert LinesOf(g + [e]) == LinesOf(g); }
  }

  /** What is queued for a line is not how statistics begin. */
  lemma NotStatistics(line: string, stats: string) returns (d: nat)
    requires "STATS" <= stats
    ensures d < |Head(line)| && d < |stats| && Head(line)[d] != stats[d]
  {
    d := if line == "STATS" then 3 else 0;
    assert stats[0] == "STATS"[0] && stats[3] == "STATS"[3];
  }

  lemma OvertakingShows(g: seq<Event>, line: string, stats: string)
    requires Owed(g) && InOrder(g, stats) && "STATS" <= stats
    ensures exists d :: DiffersAt(g + [Served(line)], stats, d)
  {
    OneMoreEvent(g, Served(line), stats);
    RepliesOneMore(LinesOf(g), line, stats);
    var h := g + [Served(line)];
    var d := NotStatistics(line, stats);
    assert Replies(LinesOf(h), stats) == Made(g, stats) + stats + Reply(line, stats);
    assert DiffersAt(h, stats, |Made(g, stats)| + d);
  }

  lemma ComputedKeepsOrder(g: seq<Event>, stats: string)
    requires Owed(g) && InOrder(g, stats)
    ensures InOrder(g + [Computed], stats)
  {
    OneMoreEvent(g, Computed, stats);
    var made := Made(g, stats) + stats;
    assert made + [] == made && LinesOf(g + [Computed]) == LinesOf(g);
  }

  lemma ServedKeepsOrder(g: seq<Event>, line: string, stats: string)
    requires !Owed(g) && InOrder(g, stats)
    ensures InOrder(g + [Served(line)], stats)
  {
    OneMoreEvent(g, Served(line), stats);
    RepliesOneMore(LinesOf(g), line, stats);
    var made, tail := Made(g, stats), if line == "STATS" then stats else [];
    assert made + [] == made;
    Regroup(made, Head(line), tail);
  }

  lemma {:induction false} OrderHistory(h: seq<Event>, stats: string)
    requires Sensible(h) && "STATS" <= stats
    ensures !Overtaken(h) ==> InOrder(h, stats)
    ensures Overtaken(h) ==> exists d :: DiffersAt(h, stats, d)
  {
    if h != [] {
      var g, e := h[..|h| - 1], h[|h| - 1];
      assert h == g + [e];
      Latest(g, e);
      OrderHistory(g, stats);
      if Overtaken(g) {
        var d :| DiffersAt(g, stats, d);
        DifferenceStays(g, e, stats, d);
      } else if e.Computed? {
        ComputedKeepsOrder(g, stats);
      } else if Owed(g) {
        OvertakingShows(g, e.line, stats);
      } else {
        ServedKeepsOrder(g, e.line, stats);
      }
    }
  }

  // ----- the output side on values ----------------------------------------

  /** The output buffer up to `queued`, how much of it was sent, the flag, and all bytes ever sent;
      what send will return; the connection's history. */
  datatype Out = Out(buf: string, sent: nat, owed: bool, replied: string, sends: seq<SendResult>,
                     alive: bool, history: seq<Event>)

  predicate Quiet(sends: seq<SendResult>) {
    forall k :: 0 <= k < |sends| ==> sends[k].Accepts? || sends[k].SendInterrupted?
  }

  function Rest(sends: seq<SendResult>): seq<SendResult> {
    if sends == [] then [] else sends[1..]
  }

  /** The next send of `left` bytes; without an answer in the script it takes all. */
  function NextSend(sends: seq<SendResult>, left: nat): SendResult {
    if sends == [] then Accepts(left) else sends[0]
  }

  function Taken(n: nat, left: nat): (k: nat)
    requires left > 0
    ensures 0 < k <= left
  {
    if n == 0 then 1 else if n < left then n else left
  }

  /** A send or recv may move any number of bytes, from one to all. */
  lemma AnyAmount(n: nat, left: nat)
    requires 0 < n <= left
    ensures Taken(n, left) == n
  {
  }

  function Dead(o: Out): Out {
    o.(buf := [], sent := 0, owed := false, alive := false)
  }

  /** The inner loop of flush_reply: whether everything was sent. */
  function SendLoop(o: Out): (Out, bool)
    requires o.sent <= |o.buf|
    decreases |o.sends|, |o.buf| - o.sent
  {
    if o.sent == |o.buf| then (o, true)
    else
      var left, next := |o.buf| - o.sent, o.(sends := Rest(o.sends));
      match NextSend(o.sends, left)
      case Accepts(n) =>
        var k := Taken(n, left);
        SendLoop(next.(sent := o.sent + k, replied := o.replied + o.buf[o.sent..o.sent + k]))
      case SendInterrupted => SendLoop(next)
      case SendBlocks => (next, false)
      case SendFails => (Dead(next), false)
  }

  /** flush_reply. */
  function Flushed(o: Out, stats: string): Out
    requires o.sent <= |o.buf|
  {
    var (p, done) := SendLoop(o);
    if !done then p
    else if !p.owed then p.(buf := [], sent := 0)
    else
      var (q, ended) := SendLoop(p.(buf := stats, sent := 0, owed := false, history := p.history + [Computed]));
      if ended then q.(buf := [], sent := 0) else q
  }

  /** queue_reply. */
  function Queued(o: Out, cap: nat, reply: string): Out {
    if |reply| + |o.buf| <= cap then o.(buf := o.buf + reply) else Dead(o)
  }

  /** A line's head is queued, and it is remembered when statistics are to follow. */
  function Started(o: Out, line: string): Out {
    o.(buf := o.buf + Head(line), owed := o.owed || line == "STATS", history := o.history + [Served(line)])
  }

  /** Queue what a line asks for and flush. */
  function Answered(o: Out, cap: nat, line: string, stats: string): Out
    requires o.sent <= |o.buf|
  {
    if |Head(line)| + |o.buf| <= cap then Flushed(Started(o, line), stats) else Dead(o)
  }

  /** The bytes sent are the first of those queued, and the buffer holds the others. */
  ghost predicate Kept(o: Out, stats: string) {
    && o.sent <= |o.buf| && Sensible(o.history) && o.replied <= Made(o.history, stats)
    && (o.alive ==> Made(o.history, stats) == o.replied + o.buf[o.sent..] && o.owed == Owed(o.history))
  }

  lemma SentKeeps(o: Out, k: nat, stats: string)
    requires Kept(o, stats) && o.alive && o.sent + k <= |o.buf|
    ensures Kept(o.(sent := o.sent + k, replied := o.replied + o.buf[o.sent..o.sent + k]), stats)
  {
    var a, b := o.buf[o.sent..o.sent + k], o.buf[o.sent + k..];
    assert o.buf[o.sent..] == a + b;
    Regroup(o.replied, a, b);
  }

  /** What the sends of a flush leave as it was. */
  ghost predicate OnlySent(o: Out, p: Out, done: bool) {
    && p.history == o.history && (done ==> p.alive && p.sent == |p.buf|)
    && (p.alive ==> p.owed == o.owed && p.buf == o.buf)
  }

  lemma {:induction false} SendLoopKeeps(o: Out, stats: string)
    requires Kept(o, stats) && o.alive
    ensures var (p, done) := SendLoop(o); Kept(p, stats) && OnlySent(o, p, done)
    decreases |o.sends|, |o.buf| - o.sent
  {
    if o.sent < |o.buf| {
      var left, next := |o.buf| - o.sent, o.(sends := Rest(o.sends));
      match NextSend(o.sends, left)
      case Accepts(n) =>
        var k := Taken(n, left);
        SentKeeps(o, k, stats);
        SendLoopKeeps(next.(sent := o.sent + k, replied := o.replied + o.buf[o.sent..o.sent + k]), stats);
      case SendInterrupted => SendLoopKeeps(next, stats);
      case SendBlocks =>
      case SendFails =>
    }
  }

  /** Statistics computed when everything before them is sent are what is then owed. */
  lemma ComputeKeeps(p: Out, stats: string)
    requires Kept(p, stats) && p.alive && p.owed && p.sent == |p.buf|
    ensures var q := p.(buf := stats, sent := 0, owed := false, history := p.history + [Computed]);
      Kept(q, stats) && LinesOf(q.history) == LinesOf(p.history)
  {
    var q := p.(buf := stats, sent := 0, owed := false, history := p.history + [Computed]);
    Latest(p.history, Computed);
    OneMoreEvent(p.history, Computed, stats);
    assert q.buf[0..] == stats && p.buf[p.sent..] == [];
  }

  lemma FlushKeeps(o: Out, stats: string)
    requires Kept(o, stats) && o.alive
    ensures Kept(Flushed(o, stats), stats) && LinesOf(Flushed(o, stats).history) == LinesOf(o.history)
  {
    SendLoopKeeps(o, stats);
    var (p, done) := SendLoop(o);
    if done && p.owed {
      ComputeKeeps(p, stats);
      SendLoopKeeps(p.(buf := stats, sent := 0, owed := false, history := p.history + [Computed]), stats);
    }
  }

  lemma StartKeeps(o: Out, line: string, stats: string)
    requires Kept(o, stats) && o.alive
    ensures Kept(Started(o, line), stats) && LinesOf(Started(o, line).history) == LinesOf(o.history) + [line]
  {
    var q, left := Started(o, line), o.buf[o.sent..];
    Latest(o.history, Served(line));
    OneMoreEvent(o.history, Served(line), stats);
    assert q.buf[q.sent..] == left + Head(line);
    Regroup(o.replied, left, Head(line));
  }

  lemma AnswerKeeps(o: Out, cap: nat, line: string, stats: string)
    requires Kept(o, stats) && o.alive
    ensures var r := Answered(o, cap, line, stats);
      && Kept(r, stats)
      && (LinesOf(r.history) == LinesOf(o.history) + [line] || (!r.alive && r.history == o.history))
  {
    if |Head(line)| + |o.buf| <= cap {
      StartKeeps(o, line, stats);
      FlushKeeps(Started(o, line), stats);
    }
  }

  /** A flush makes the first k sends of the script. All but the last accept bytes or are interrupted; the
      connection survives unless the last one fails, and is left with bytes to send only when it blocks. */
  lemma {:induction false} FlushEnds(o: Out) returns (k: nat)
    requires o.sent <= |o.buf| && o.alive
    ensures var (p, done) := SendLoop(o);
      && k <= |o.sends| && p.sends == o.sends[k..]
      && (forall j :: 0 <= j < k - 1 ==> o.sends[j].Accepts? || o.sends[j].SendInterrupted?)
      && (!p.alive <==> k > 0 && o.sends[k - 1].SendFails?)
      && (!done && p.alive <==> k > 0 && o.sends[k - 1].SendBlocks?)
    decreases |o.sends|, |o.buf| - o.sent
  {
    k := 0;
    if o.sent < |o.buf| && o.sends != [] {
      var left, next := |o.buf| - o.sent, o.(sends := o.sends[1..]);
      k := 1;
      match o.sends[0]
      case Accepts(n) =>
        var c := Taken(n, left);
        var rest := FlushEnds(next.(sent := o.sent + c, replied := o.replied + o.buf[o.sent..o.sent + c]));
        k := 1 + rest;
      case SendInterrupted =>
        var rest := FlushEnds(next);
        k := 1 + rest;
      case SendBlocks =>
      case SendFails =>
    }
  }

  // ----- sends that neither block nor fail --------------------------------

  lemma {:induction false} QuietSendLoop(o: Out)
    requires Quiet(o.sends) && o.sent <= |o.buf|
    ensures var (p, done) := SendLoop(o);
      && done && Quiet(p.sends) && p.sent == |o.buf|
      && p == o.(sent := |o.buf|, replied := o.replied + o.buf[o.sent..], sends := p.sends)
    decreases |o.sends|, |o.buf| - o.sent
  {
    if o.sent == |o.buf| {
      assert o.replied + o.buf[o.sent..] == o.replied;
    } else {
      var left, next := |o.buf| - o.sent, o.(sends := Rest(o.sends));
      match NextSend(o.sends, left)
      case Accepts(n) =>
        var k := Taken(n, left);
        var a, b := o.buf[o.sent..o.sent + k], o.buf[o.sent + k..];
        assert o.buf[o.sent..] == a + b;
        Regroup(o.replied, a, b);
        QuietSendLoop(next.(sent := o.sent + k, replied := o.replied + o.buf[o.sent..o.sent + k]));
      case SendInterrupted => QuietSendLoop(next);
    }
  }

  /** The buffer goes out, and the statistics if they are owed. */
  lemma QuietFlush(o: Out, stats: string)
    requires Quiet(o.sends) && o.alive && o.sent <= |o.buf|
    ensures var r := Flushed(o, stats);
      && Quiet(r.sends) && r.alive && r.buf == [] && r.sent == 0 && !r.owed
      && r.replied == o.replied + o.buf[o.sent..] + if o.owed then stats else []
  {
    QuietSendLoop(o);
    var (p, done) := SendLoop(o);
    if p.owed {
      var u := p.(buf := stats, sent := 0, owed := false, history := p.history + [Computed]);
      assert u.buf[0..] == stats;
      QuietSendLoop(u);
    } else {
      assert p.replied + [] == p.replied;
    }
  }

  /** Then each line is answered at once and completely. */
  lemma QuietAnswer(o: Out, cap: nat, line: string, stats: string)
    requires Quiet(o.sends) && o.alive && o.buf == [] && o.sent == 0 && !o.owed && |Head(line)| <= cap
    ensures var r := Answered(o, cap, line, stats);
      && Quiet(r.sends) && r.alive && r.buf == [] && r.sent == 0 && !r.owed
      && r.replied == o.replied + Reply(line, stats)
  {
    var p, tail := Started(o, line), if line == "STATS" then stats else [];
    assert p.buf == Head(line) && p.buf[0..] == Head(line);
    Regroup(o.replied, Head(line), tail);
    QuietFlush(p, stats);
  }

  // ----- a send that blocks -----------------------------------------------

  /** In every state of a connection: the bytes sent are the first of the replies to its lines, in order,
      if and only if no line was ever served while statistics were owed. */
  lemma {:induction false} OrderKeptExactly(o: Out, stats: string)
    requires Kept(o, stats) && "STATS" <= stats
    ensures InOrder(o.history, stats) <==> !Overtaken(o.history)
    ensures !Overtaken(o.history) ==> o.replied <= Replies(LinesOf(o.history), stats)
  {
    OrderHistory(o.history, stats);
  }

  /** A client that has all its replies owes the server nothing: with one request outstanding at a
      time no line is served while statistics are owed. */
  lemma PatientClientKeepsOrder(o: Out, stats: string)
    requires Kept(o, stats) && o.alive && stats != [] && InOrder(o.history, stats)
    requires o.replied == Replies(LinesOf(o.history), stats)
    ensures !Owed(o.history)
  {
  }

  const FRESH := Out([], 0, false, [], [], true, [])

  /** START is queued and blocks. */
  const BLOCKED := Out(Head("STATS"), 0, true, [], [], true, [Served("STATS")])

  lemma StatsBlocks(cap: nat, stats: string)
    requires 11 <= cap
    ensures Answered(FRESH.(sends := [SendBlocks]), cap, "STATS", stats) == BLOCKED
  {
    assert [] + Head("STATS") == Head("STATS");
  }

  lemma PingOvertakes(cap: nat, stats: string)
    requires 11 <= cap
    ensures var r := Answered(BLOCKED, cap, "PING", stats); r.alive && r.replied == Head("STATS") + Head("PING") + stats
  {
    var b := Started(BLOCKED, "PING");
    assert b.buf == Head("STATS") + Head("PING") && b.buf[0..] == b.buf && [] + b.buf == b.buf;
    QuietFlush(b, stats);
  }

  lemma StatsThenPing(stats: string)
    ensures Replies(["STATS", "PING"], stats) == Head("STATS") + stats + Head("PING")
  {
    RepliesOneMore([], "STATS", stats);
    RepliesOneMore(["STATS"], "PING", stats);
    assert ["STATS"] + ["PING"] == ["STATS", "PING"] && [] + ["STATS"] == ["STATS"];
    assert [] + Reply("STATS", stats) == Head("STATS") + stats && Head("PING") + [] == Head("PING");
  }

  lemma NotTheSame(a: string, s: string, t: string)
    requires "STATS" <= s && t != [] && t[0] != 'S'
    ensures a + t + s != a + s + t
  {
    assert s[0] == "STATS"[0];
    assert (a + t + s)[|a|] == t[0] && (a + s + t)[|a|] == s[0];
  }

  /** START blocks, PING comes in between, and PONG overtakes the statistics. */
  lemma {:induction false} OvertakingRun(cap: nat, stats: string)
    requires 11 <= cap && "STATS" <= stats
    ensures var r := Answered(Answered(FRESH.(sends := [SendBlocks]), cap, "STATS", stats), cap, "PING", stats);
      && r.alive && r.replied == "START\n" + "PONG\n" + stats
      && r.replied != Replies(["STATS", "PING"], stats) == "START\n" + stats + "PONG\n"
  {
    Protocol("STATS", stats);
    Protocol("PING", stats);
    StatsBlocks(cap, stats);
    PingOvertakes(cap, stats);
    StatsThenPing(stats);
    NotTheSame(Head("STATS"), stats, Head("PING"));
  }

  /** One whole line in front of a stream. */
  lemma FirstRequest(cap: nat, line: string, rest: string)
    requires '\n' !in line && |line| < cap
    ensures Requests(cap, line + "\n" + rest) ==
      if line == "QUIT" then Outcome([line], Asked) else Prepend([line], Requests(cap, rest))
  {
    var s := line + "\n" + rest;
    forall k | 0 <= k < |line| ensures s[k] != '\n' { assert s[k] == line[k] && line[k] in line; }
    NewlineIs(s, |line|);
    assert s[..|line|] == line && s[|line| + 1..] == rest;
  }

  /** A dialogue in the bytes of the protocol. */
  lemma {:induction false} Dialogue(stats: string)
    ensures Replies(["PING", "STATS", "HELP", "QUIT"], stats) == "PONG\n" + ("START\n" + stats) + "ERROR\n" + "BYE\n"
  {
    Protocol("PING", stats);
    Protocol("STATS", stats);
    Protocol("HELP", stats);
    Protocol("QUIT", stats);
    RepliesOneMore([], "PING", stats);
    RepliesOneMore(["PING"], "STATS", stats);
    RepliesOneMore(["PING", "STATS"], "HELP", stats);
    RepliesOneMore(["PING", "STATS", "HELP"], "QUIT", stats);
    assert [] + ["PING"] == ["PING"] && ["PING"] + ["STATS"] == ["PING", "STATS"];
    assert ["PING", "STATS"] + ["HELP"] == ["PING", "STATS", "HELP"];
    assert ["PING", "STATS", "HELP"] + ["QUIT"] == ["PING", "STATS", "HELP", "QUIT"];
    assert [] + Reply("PING", stats) == "PONG\n";
  }

  // ----- framing ----------------------------------------------------------

  /** A buffer without a newline and with room left asks for nothing. */
  lemma NothingToTake(cap: nat, lines: seq<string>, s: string)
    ensures Newline(s) == |s| < cap ==> Prepend(lines, Requests(cap, s)) == Outcome(lines, Waiting(s))
    ensures Newline(s) == |s| == cap ==> Prepend(lines, Requests(cap, s)) == Outcome(lines, TooLong)
  {
  }

  /** k more bytes of the stream, in the buffer: what has been taken and what is buffered still make up the stream. */
  lemma StreamExtends(cap: nat, stream: string, pos: nat, k: nat, lines: seq<string>, s: string)
    requires pos + k <= |stream| && Requests(cap, stream[..pos]) == Prepend(lines, Requests(cap, s))
    ensures Requests(cap, stream[..pos + k]) == Prepend(lines, Requests(cap, s + stream[pos..pos + k]))
  {
    var t := stream[pos..pos + k];
    assert stream[..pos + k] == stream[..pos] + t;
    RequestsExtend(cap, stream[..pos], t);
    RequestsExtend(cap, s, t);
    var r := Requests(cap, s);
    if r.end.Waiting? { PrependTwice(lines, r.lines, Requests(cap, r.end.rest + t)); }
  }

  /** Taking the first line from the buffer. */
  lemma LineTaken(cap: nat, lines: seq<string>, s: string, i: nat)
    requires i == Newline(s) < |s| <= cap
    ensures Prepend(lines, Requests(cap, s)) ==
      if s[..i] == "QUIT" then Outcome(lines + [s[..i]], Asked)
      else Prepend(lines + [s[..i]], Requests(cap, s[i + 1..]))
  {
    PrependTwice(lines, [s[..i]], Requests(cap, s[i + 1..]));
  }

  lemma {:induction false} NewlineIs(s: string, i: nat)
    requires i <= |s| && (i < |s| ==> s[i] == '\n') && forall k :: 0 <= k < i ==> s[k] != '\n'
    ensures Newline(s) == i
  {
    if i > 0 {
      assert s[0] != '\n';
      NewlineIs(s[1..], i - 1);
    }
  }

  // ----- the server's side of a connection --------------------------------

  class Client {
    const cap: nat
    const input: array<char>
    const output: array<char>
    var used: nat
    var sent: nat
    var queued: nat
    var statsAfterFlush: bool
    var fate: Fate
    // the network: the peer's bytes, how many were received, and what the system calls will return
    const stream: string
    const stats: string
    var pos: nat
    var recvs: seq<RecvResult>
    var sends: seq<SendResult>
    // what happened so far
    var dispatched: seq<string>
    var replied: string
    var history: seq<Event>

    ghost predicate Valid()
      reads this
    {
      && input.Length == cap && output.Length == cap && input != output && 6 <= cap && |stats| <= cap
      && used <= cap && sent <= queued <= cap && pos <= |stream|
    }

    /** The output side. */
    ghost function View(): Out
      requires queued <= output.Length
      reads this, output
    {
      Out(output[..queued], sent, statsAfterFlush, replied, sends, !fate.Dropped?, history)
    }

    constructor (cap: nat, stream: string, stats: string, recvs: seq<RecvResult>, sends: seq<SendResult>)
      requires 6 <= cap && |stats| <= cap
      ensures Valid() && this.cap == cap && this.stream == stream && this.stats == stats && this.recvs == recvs
      ensures View() == FRESH.(sends := sends) && used == 0 && fate.Open? && pos == 0 && dispatched == []
      ensures fresh(input) && fresh(output) && Sound() && (Quiet(sends) ==> Calm())
    {
      this.cap, this.stream, this.stats, this.recvs, this.sends := cap, stream, stats, recvs, sends;
      input := new char[cap](_ => ' ');
      output := new char[cap](_ => ' ');
      used, sent, queued, statsAfterFlush, fate, pos := 0, 0, 0, false, Open, 0;
      dispatched, replied, history := [], [], [];
      new;
      assert this.stream[..0] == Buffered() == "";
    }

    ghost predicate Idle()
      reads this
    {
      sent == queued == 0 && !statsAfterFlush
    }

    method Disconnect()
      modifies this`used, this`sent, this`queued, this`statsAfterFlush, this`fate
      ensures fate.Dropped? && used == 0 && Idle()
    {
      used, sent, queued, statsAfterFlush, fate := 0, 0, 0, false, Dropped;
    }

    /** Append a reply to the output buffer, or drop the client when it does not fit. */
    method QueueReply(reply: string) returns (ok: bool)
      requires Valid() && !fate.Dropped?
      modifies this`used, this`sent, this`queued, this`statsAfterFlush, this`fate, output
      ensures Valid() && View() == Queued(old(View()), cap, reply)
      ensures ok == !fate.Dropped? && (ok ==> used == old(used) && fate == old(fate)) && (!ok ==> used == 0)
    {
      if |reply| > cap - queued {
        Disconnect();
        return false;
      }
      var k := 0;
      while k < |reply|
        invariant k <= |reply| && output[..queued] == old(output[..queued])
        invariant output[queued..queued + k] == reply[..k]
        modifies output
      {
        output[queued + k] := reply[k];
        k := k + 1;
      }
      assert output[..queued + k] == output[..queued] + output[queued..queued + k];
      queued := queued + |reply|;
      return true;
    }

    /** The inner loop of flush_reply: send until the buffer is empty, or a send blocks or fails. */
    method SendAll() returns (done: bool, ok: bool)
      requires Valid() && !fate.Dropped?
      modifies this`used, this`sent, this`queued, this`statsAfterFlush, this`fate, this`sends, this`replied
      ensures Valid() && (View(), done) == SendLoop(old(View()))
      ensures ok == !fate.Dropped? && (done ==> ok) && (ok ==> used == old(used) && fate == old(fate))
      ensures !ok ==> used == 0
    {
      while sent < queued
        invariant Valid() && fate == old(fate) && used == old(used) && queued == old(queued)
        invariant SendLoop(View()) == SendLoop(old(View()))
        decreases |sends|, queued - sent
      {
        var left := queued - sent;
        var r := NextSend(sends, left);
        sends := Rest(sends);
        match r
        case Accepts(n) =>
          var k := Taken(n, left);
          replied := replied + output[..queued][sent..sent + k];
          sent := sent + k;
        case SendInterrupted =>
        case SendBlocks => return false, true;
        case SendFails =>
          Disconnect();
          return false, false;
      }
      return true, true;
    }

    /** flush_reply: send, and when all is sent and START was, compute, queue and send the statistics. */
    method FlushReply() returns (ok: bool)
      requires Valid() && !fate.Dropped?
      modifies this`used, this`sent, this`queued, this`statsAfterFlush, this`fate, this`sends, this`replied
      modifies this`history, output
      ensures Valid() && View() == Flushed(old(View()), stats)
      ensures ok == !fate.Dropped? && (ok ==> used == old(used) && fate == old(fate)) && (!ok ==> used == 0)
    {
      var done;
      done, ok := SendAll();
      if !done {
        return;
      }
      sent, queued := 0, 0;
      if !statsAfterFlush {
        return true;
      }
      statsAfterFlush := false;
      history := history + [Computed];
      ok := QueueReply(stats);
      assert output[..queued] == [] + stats == stats;
      done, ok := SendAll();
      if done { sent, queued := 0, 0; }
    }

    /** The bytes received and not yet taken as lines. */
    ghost function Buffered(): string
      requires used <= input.Length
      reads this, input
    {
      input[..used]
    }

    /** memchr over the used part of the input buffer. */
    method FindNewline() returns (i: nat)
      requires Valid()
      ensures i == Newline(Buffered())
    {
      i := 0;
      while i < used && input[i] != '\n'
        invariant i <= used && forall k :: 0 <= k < i ==> input[k] != '\n'
      {
        i := i + 1;
      }
      NewlineIs(Buffered(), i);
    }

    /** memmove: the bytes behind the line move to the front. */
    method DropLine(n: nat)
      requires Valid() && n <= used
      modifies this`used, input
      ensures Valid() && used == old(used) - n && Buffered() == old(Buffered()[n..])
    {
      var k := 0;
      while k < used - n
        invariant k <= used - n && used == old(used)
        invariant forall j :: 0 <= j < k ==> input[j] == old(input[j + n])
        invariant forall j :: k <= j < input.Length ==> input[j] == old(input[j])
        modifies input
      {
        input[k] := input[k + n];
        k := k + 1;
      }
      used := used - n;
      assert forall j :: 0 <= j < used ==> input[j] == old(Buffered()[n..][j]);
    }

    /** recv: append k bytes of the stream to the input buffer. */
    method Append(k: nat)
      requires Valid() && used + k <= cap && pos + k <= |stream|
      modifies this`used, this`pos, input
      ensures Valid() && used == old(used) + k && pos == old(pos) + k
      ensures Buffered() == old(Buffered()) + stream[old(pos)..pos]
    {
      var j := 0;
      while j < k
        invariant j <= k && used == old(used) && pos == old(pos)
        invariant input[..used] == old(input[..used]) && input[used..used + j] == stream[pos..pos + j]
        modifies input
      {
        input[used + j] := stream[pos + j];
        j := j + 1;
      }
      assert input[..used + k] == input[..used] + input[used..used + k];
      used, pos := used + k, pos + k;
    }

    /** The lines taken are those of the bytes received, in order, up to QUIT; what is buffered is the rest. */
    ghost predicate Framed()
      requires used <= input.Length && pos <= |stream|
      reads this, input
    {
      var r := Requests(cap, stream[..pos]);
      match fate
      case Open => r == Prepend(dispatched, Requests(cap, Buffered()))
      case Quit => r == Outcome(dispatched, Asked)
      case Dropped => dispatched <= r.lines
    }

    /** Whatever the sends do: the lines taken are those received, the lines answered are those taken, and
        the bytes sent are the first of those queued for them. */
    ghost predicate Sound()
      requires Valid()
      reads this, input, output
    {
      && Framed() && Kept(View(), stats)
      && if fate.Dropped? then LinesOf(history) <= dispatched else LinesOf(history) == dispatched
    }

    /** Nothing is waiting to be sent or computed, and all replies were sent. */
    ghost predicate Calm()
      reads this
    {
      Quiet(sends) && Idle() && replied == Replies(dispatched, stats)
    }

    /** All of the bytes received was served, so far as the buffer could hold the lines. */
    ghost predicate Complete(end: End)
      requires pos <= |stream|
      reads this
    {
      Requests(cap, stream[..pos]) == Outcome(dispatched, end) && replied == Replies(dispatched, stats)
    }

    /** All requests in the bytes received were served, and none was to quit. */
    ghost predicate CompleteUnasked()
      requires pos <= |stream|
      reads this
    {
      exists end: End :: !end.Asked? && Complete(end)
    }

    /** Take the line that ends before index i out of the input buffer. */
    method TakeLine(i: nat) returns (line: string)
      requires Valid() && i < used && i == Newline(Buffered())
      modifies this`used, this`dispatched, input
      ensures Valid() && used == old(used) - (i + 1) && line == old(Buffered()[..i])
      ensures dispatched == old(dispatched) + [line]
      ensures Buffered() == old(Buffered()[i + 1..])
    {
      line := input[..i];
      assert line == Buffered()[..i];
      DropLine(i + 1);
      dispatched := dispatched + [line];
    }

    /** Queue the head of the reply to a line and flush. */
    method Respond(line: string) returns (ok: bool)
      requires Valid() && fate.Open?
      modifies this`used, this`sent, this`queued, this`statsAfterFlush, this`fate, this`sends, this`replied
      modifies this`history, output
      ensures Valid() && View() == Answered(old(View()), cap, line, stats)
      ensures ok == !fate.Dropped? && (ok ==> used == old(used) && fate == Open) && (!ok ==> used == 0)
    {
      ok := QueueReply(Head(line));
      if ok {
        if line == "STATS" { statsAfterFlush := true; }
        history := history + [Event.Served(line)];
        ok := FlushReply();
      }
    }

    /** The reply to a line is started; QUIT ends the connection. */
    method AnswerLine(line: string) returns (ok: bool)
      requires Valid() && fate.Open? && Kept(View(), stats)
      modifies this`used, this`sent, this`queued, this`statsAfterFlush, this`fate, this`sends, this`replied
      modifies this`history, output
      ensures Valid() && Kept(View(), stats)
      ensures LinesOf(history) == old(LinesOf(history)) + [line] || (!ok && history == old(history))
      ensures ok == !fate.Dropped? && (ok ==> used == old(used) && fate == if line == "QUIT" then Quit else Open)
      ensures !ok ==> used == 0
      ensures old(Quiet(sends) && Idle()) ==>
          ok && Quiet(sends) && Idle() && replied == old(replied) + Reply(line, stats)
      ensures old(Quiet(sends) && Idle()) ==>
        && (line == "PING" ==> replied == old(replied) + "PONG\n")
        && (line == "QUIT" ==> replied == old(replied) + "BYE\n")
        && (line == "STATS" ==> replied == old(replied) + ("START\n" + stats))
        && (line != "PING" && line != "QUIT" && line != "STATS" ==> replied == old(replied) + "ERROR\n")
    {
      Protocol(line, stats);
      AnswerKeeps(View(), cap, line, stats);
      if Quiet(sends) && Idle() { QuietAnswer(View(), cap, line, stats); }
      ok := Respond(line);
      if ok && line == "QUIT" { fate := Quit; }
    }

    /** One line: dispatch it and start its reply. */
    method ServeLine(i: nat) returns (ok: bool)
      requires Valid() && Sound() && fate.Open? && i < used && i == Newline(Buffered())
      modifies this`used, this`sent, this`queued, this`statsAfterFlush, this`fate, this`sends, this`replied
      modifies this`history
      modifies this`dispatched, input, output
      ensures Valid() && Sound() && ok == !fate.Dropped? && used < old(used)
      ensures old(Calm()) ==> ok && Calm()
    {
      LineTaken(cap, dispatched, Buffered(), i);
      var line := TakeLine(i);
      RepliesOneMore(old(dispatched), line, stats);
      ok := AnswerLine(line);
    }

    /** The loop over the lines in the input buffer; it stops early for QUIT, a lost client, or owed statistics. */
    method ServeLines() returns (ok: bool, stop: bool)
      requires Valid() && Sound() && fate.Open?
      modifies this`used, this`sent, this`queued, this`statsAfterFlush, this`fate, this`sends, this`replied
      modifies this`history
      modifies this`dispatched, input, output
      ensures Valid() && Sound() && ok == !fate.Dropped?
      ensures if stop then !fate.Open? || statsAfterFlush else fate.Open? && Newline(Buffered()) == used
      ensures old(Calm()) ==> ok && Calm()
    {
      ok, stop := true, false;
      var i := FindNewline();
      while i < used
        invariant Valid() && Sound() && fate.Open? && ok && !stop && i == Newline(Buffered())
        invariant old(Calm()) ==> Calm()
        decreases used
      {
        ok := ServeLine(i);
        if !ok || fate.Quit? || statsAfterFlush {
          stop := true;
          return;
        }
        i := FindNewline();
      }
    }

    /** All lines received were taken and answered. */
    ghost predicate Settled()
      requires Valid()
      reads this, input
    {
      Calm() && fate.Open? && Newline(Buffered()) == used
    }

    /** The peer went away, or the buffer is full. */
    method Lose()
      requires Valid() && Sound() && fate.Open?
      modifies this`used, this`sent, this`queued, this`statsAfterFlush, this`fate
      ensures Valid() && Sound() && fate.Dropped?
      ensures old(Settled()) ==> CompleteUnasked()
    {
      ghost var settled, rest, full := Settled(), Buffered(), used == cap;
      NothingToTake(cap, dispatched, rest);
      Disconnect();
      assert settled ==> Complete(if full then TooLong else Waiting(rest));
    }

    method Receive(k: nat)
      requires Valid() && Sound() && fate.Open? && used + k <= cap && pos + k <= |stream| && 0 < k
      modifies this`used, this`pos, input
      ensures Valid() && Sound()
    {
      ghost var before, at, out := Buffered(), pos, View();
      StreamExtends(cap, stream, pos, k, dispatched, before);
      Append(k);
      assert Buffered() == before + stream[at..pos] && View() == out;
    }

    method ReadChunk(k: nat) returns (ok: bool, goOn: bool)
      requires Valid() && Sound() && fate.Open? && used + k <= cap && pos + k <= |stream| && 0 < k
      modifies this`used, this`sent, this`queued, this`statsAfterFlush, this`fate, this`sends, this`replied
      modifies this`history
      modifies this`dispatched, this`pos, input, output
      ensures Valid() && Sound() && ok == !fate.Dropped? && (goOn ==> fate.Open?)
      ensures old(Settled()) ==> ok && (goOn <==> fate.Open?) && if fate.Open? then Settled() else Complete(Asked)
    {
      Receive(k);
      var stop;
      ok, stop := ServeLines();
      goOn := ok && !stop;
    }

    /** One recv and the lines it completes; goOn says whether to recv again. */
    method ReadOnce() returns (ok: bool, goOn: bool)
      requires Valid() && Sound() && fate.Open? && used < cap
      modifies this, input, output
      ensures Valid() && Sound() && ok == !fate.Dropped?
      ensures goOn ==> fate.Open? && old(recvs) != [] && recvs == old(recvs)[1..]
      ensures old(Settled()) ==>
        if fate.Open? then Settled() && (!goOn ==> used < cap)
        else if fate.Quit? then Complete(Asked) else CompleteUnasked()
    {
      if recvs == [] {
        return true, false;
      }
      var r := recvs[0];
      recvs := recvs[1..];
      if r.Interrupted? {
        return true, true;
      }
      if r.WouldBlock? || (r.Chunk? && pos == |stream|) {
        return true, false;
      }
      if r.Closed? || r.Failed? {
        Lose();
        return false, false;
      }
      ok, goOn := ReadChunk(Taken(Taken(r.n, cap - used), |stream| - pos));
    }

    /** read_requests. Whatever the sends do, the lines dispatched are those of the bytes received. When no send
        blocks or fails, the replies are too, and a client is dropped only for a line too long or because the
        peer went away. */
    method ReadRequests() returns (ok: bool)
      requires Valid() && Sound() && fate.Open?
      modifies this, input, output
      ensures Valid() && Sound() && ok == !fate.Dropped?
      ensures old(Settled()) && fate.Open? ==> Settled() && Complete(Waiting(Buffered()))
      ensures old(Settled()) && fate.Quit? ==> Complete(Asked)
      ensures old(Settled()) && fate.Dropped? ==> CompleteUnasked()
    {
      ghost var settled := Settled();
      while true
        invariant Valid() && Sound() && fate.Open? && (settled ==> Settled())
        decreases |recvs|
      {
        if used == cap {
          Lose();
          return false;
        }
        var goOn;
        ok, goOn := ReadOnce();
        if !goOn {
          NothingToTake(cap, dispatched, Buffered());
          return;
        }
      }
    }

    /** One event of the epoll loop for this client. */
    method Handle(readable: bool, writable: bool, hungUp: bool)
      requires Valid() && Sound() && fate.Open?
      modifies this, input, output
      ensures Valid() && Sound()
    {
      var ok := true;
      if readable { ok := ReadRequests(); }
      if ok && writable { ok := FlushMore(); }
      if ok && hungUp { Disconnect(); }
    }

    method FlushMore() returns (ok: bool)
      requires Valid() && Sound() && !fate.Dropped?
      modifies this`used, this`sent, this`queued, this`statsAfterFlush, this`fate, this`sends, this`replied
      modifies this`history, output
      ensures Valid() && Sound() && ok == !fate.Dropped?
    {
      FlushKeeps(View(), stats);
      ok := FlushReply();
    }
  }

  // ----- what does not depend on the pieces -------------------------------

  /** Once a request to quit or a line too long has been found, the rest of the stream does not
      matter; so far as two connections with the same stream have got, they agree. */
  lemma {:induction false} SameStreamSameRequests(cap: nat, stream: string, a: nat, b: nat)
    requires a <= b <= |stream|
    ensures var r, q := Requests(cap, stream[..a]), Requests(cap, stream[..b]);
      r.lines <= q.lines && (!r.end.Waiting? ==> q == r)
  {
    assert stream[..b] == stream[..a] + stream[a..b];
    RequestsExtend(cap, stream[..a], stream[a..b]);
  }

  /** The stream of a peer that sends short lines, one after the other, none of them QUIT. */
  function Lines(lines: seq<string>): string {
    if lines == [] then [] else lines[0] + "\n" + Lines(lines[1..])
  }

  /** Framing gives the lines back. */
  lemma {:induction false} LinesComeBack(cap: nat, lines: seq<string>)
    requires 0 < cap
    requires forall k :: 0 <= k < |lines| ==> |lines[k]| < cap && lines[k] != "QUIT" && '\n' !in lines[k]
    ensures Requests(cap, Lines(lines)) == Outcome(lines, Waiting([]))
  {
    if lines != [] {
      var s, i := Lines(lines), |lines[0]|;
      assert s == lines[0] + ("\n" + Lines(lines[1..]));
      assert s[i] == '\n' && s[..i] == lines[0] && s[i + 1..] == Lines(lines[1..]);
      forall k | 0 <= k < i ensures s[k] != '\n' { assert s[k] == lines[0][k] && lines[0][k] in lines[0]; }
      NewlineIs(s, i);
      LinesComeBack(cap, lines[1..]);
      assert Prepend([lines[0]], Outcome(lines[1..], Waiting([]))) == Outcome(lines, Waiting([]));
    }
  }

  /** QUIT after such lines is the last request, whatever follows. */
  lemma {:induction false} QuitIsLast(cap: nat, lines: seq<string>, later: string)
    requires 4 < cap
    requires forall k :: 0 <= k < |lines| ==> |lines[k]| < cap && lines[k] != "QUIT" && '\n' !in lines[k]
    ensures Requests(cap, Lines(lines) + ("QUIT" + "\n" + later)) == Outcome(lines + ["QUIT"], Asked)
  {
    var quit := "QUIT" + "\n" + later;
    LinesComeBack(cap, lines);
    RequestsExtend(cap, Lines(lines), quit);
    FirstRequest(cap, "QUIT", later);
    assert [] + quit == quit;
  }
}
