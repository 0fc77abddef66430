/** The interval merging of flamegraph.pl: flow and the loop that feeds it turn
    a list of stacks with counts into frames with a start and an end time. */
module Flame {

  type Open = map<(string, nat), real>
  type Frames = map<(string, nat, real), real>

  predicate Counts(counts: seq<real>) {
    forall k :: 0 <= k < |counts| ==> counts[k] >= 0.0
  }

  /** The stacks given to flow: an empty one, those of the input under a common root, and an empty one again. */
  function Rows(stacks: seq<seq<string>>): (rows: seq<seq<string>>)
    ensures |rows| == |stacks| + 2 && rows[0] == [] && rows[|stacks| + 1] == []
    ensures forall k :: 0 <= k < |stacks| ==> rows[k + 1] == [""] + stacks[k]
  {
    [[]] + seq(|stacks|, k requires 0 <= k < |stacks| => [""] + stacks[k]) + [[]]
  }

  /** How long each row is current; the first, empty one is not. */
  function Padded(counts: seq<real>): seq<real> {
    [0.0] + counts
  }

  /** When the k-th of them begins. */
  function Time(counts: seq<real>, k: nat): real
    requires k <= |counts|
  {
    if k == 0 then 0.0 else Time(counts, k - 1) + counts[k - 1]
  }

  /** Length of the common prefix. */
  function Common(a: seq<string>, b: seq<string>): (n: nat)
    ensures n <= |a| && n <= |b|
    ensures forall i :: 0 <= i < n ==> a[i] == b[i]
    ensures n < |a| && n < |b| ==> a[n] != b[n]
  {
    if a == [] || b == [] || a[0] != b[0] then 0 else 1 + Common(a[1..], b[1..])
  }

  // ----- what flow does to the two tables ---------------------------------

  /** Frames i-1, ..., same of the old stack end at time v, innermost first. */
  function Closed(node: Frames, open: Open, last: seq<string>, hi: nat, lo: nat, v: real): Frames
    requires lo <= hi <= |last| && forall i :: lo <= i < |last| ==> (last[i], i) in open
    decreases hi
  {
    if hi == lo then node
    else Closed(node[(last[hi - 1], hi - 1, v) := open[(last[hi - 1], hi - 1)]], open, last, hi - 1, lo, v)
  }

  function Dropped(open: Open, last: seq<string>, hi: nat, lo: nat): Open
    requires lo <= hi <= |last|
    decreases hi
  {
    if hi == lo then open else Dropped(open - {(last[hi - 1], hi - 1)}, last, hi - 1, lo)
  }

  /** Frames lo, ..., hi-1 of the new stack begin at time v. */
  function Opened(open: Open, this_: seq<string>, lo: nat, hi: nat, v: real): Open
    requires lo <= hi <= |this_|
    decreases hi - lo
  {
    if lo == hi then open else Opened(open[(this_[lo], lo) := v], this_, lo + 1, hi, v)
  }

  lemma {:induction false} ClosedHolds(node: Frames, open: Open, last: seq<string>, hi: nat, lo: nat, v: real,
      key: (string, nat, real))
    requires lo <= hi <= |last| && forall i :: lo <= i < |last| ==> (last[i], i) in open
    ensures var r := Closed(node, open, last, hi, lo, v);
      var closes := lo <= key.1 < hi && last[key.1] == key.0 && key.2 == v;
      && (key in r <==> closes || key in node)
      && (key in r ==> r[key] == if closes then open[(key.0, key.1)] else node[key])
    decreases hi
  {
    if lo < hi {
      ClosedHolds(node[(last[hi - 1], hi - 1, v) := open[(last[hi - 1], hi - 1)]], open, last, hi - 1, lo, v, key);
    }
  }

  lemma {:induction false} DroppedHolds(open: Open, last: seq<string>, hi: nat, lo: nat, key: (string, nat))
    requires lo <= hi <= |last|
    ensures var r := Dropped(open, last, hi, lo);
      && (key in r <==> key in open && !(lo <= key.1 < hi && last[key.1] == key.0))
      && (key in r ==> r[key] == open[key])
    decreases hi
  {
    if lo < hi { DroppedHolds(open - {(last[hi - 1], hi - 1)}, last, hi - 1, lo, key); }
  }

  lemma {:induction false} OpenedHolds(open: Open, this_: seq<string>, lo: nat, hi: nat, v: real, key: (string, nat))
    requires lo <= hi <= |this_|
    ensures var r := Opened(open, this_, lo, hi, v);
      var opens := lo <= key.1 < hi && this_[key.1] == key.0;
      && (key in r <==> opens || key in open)
      && (key in r ==> r[key] == if opens then v else open[key])
    decreases hi - lo
  {
    if lo < hi { OpenedHolds(open[(this_[lo], lo) := v], this_, lo + 1, hi, v, key); }
  }

  // ----- the frames of the input, without the tables ----------------------

  /** Row i does not continue the frames of its predecessor from depth d on. */
  predicate Breaks(rows: seq<seq<string>>, d: nat, i: nat) {
    0 < i < |rows| && Common(rows[i - 1], rows[i]) <= d
  }

  /** The row at which the frame that row k has at depth d began. */
  function Begin(rows: seq<seq<string>>, d: nat, k: nat): (b: nat)
    requires k < |rows| && d < |rows[k]|
    ensures b <= k
  {
    if k == 0 || Breaks(rows, d, k) then k else Begin(rows, d, k - 1)
  }

  /** A frame of name f at depth d is over when row e begins, at time v. */
  ghost predicate Ends(rows: seq<seq<string>>, counts: seq<real>, f: string, d: nat, v: real, e: nat) {
    && 0 < e < |rows| && e <= |counts| && d < |rows[e - 1]| && rows[e - 1][d] == f
    && Breaks(rows, d, e) && Time(counts, e) == v
  }

  ghost predicate LastEnd(rows: seq<seq<string>>, counts: seq<real>, k: nat, f: string, d: nat, v: real, e: nat) {
    && e <= k && Ends(rows, counts, f, d, v, e)
    && forall o: nat {:trigger Ends(rows, counts, f, d, v, o)} :: e < o <= k ==> !Ends(rows, counts, f, d, v, o)
  }

  /** Entry (f, d, v): the start of the last such frame that ended then, among those over by row k. */
  ghost predicate Entry(rows: seq<seq<string>>, counts: seq<real>, k: nat, node: Frames, f: string, d: nat, v: real) {
    && ((f, d, v) in node ==>
          exists e: nat :: LastEnd(rows, counts, k, f, d, v, e) && StartsAt(rows, counts, d, e, node[(f, d, v)]))
    && (forall e: nat {:trigger Ends(rows, counts, f, d, v, e)} ::
          e <= k && Ends(rows, counts, f, d, v, e) ==> (f, d, v) in node)
  }

  /** The frame at depth d that is over at row e began at time s. */
  ghost predicate StartsAt(rows: seq<seq<string>>, counts: seq<real>, d: nat, e: nat, s: real) {
    0 < e <= |rows| && d < |rows[e - 1]| && e <= |counts| && s == Time(counts, Begin(rows, d, e - 1))
  }

  /** The table of merged frames. */
  ghost predicate NodeOk(rows: seq<seq<string>>, counts: seq<real>, k: nat, node: Frames) {
    forall f, d: nat, v {:trigger Entry(rows, counts, k, node, f, d, v)} :: Entry(rows, counts, k, node, f, d, v)
  }

  /** The open frames after row k: those of its stack, with their start times. */
  ghost predicate OpenOk(rows: seq<seq<string>>, counts: seq<real>, k: nat, open: Open)
    requires k < |rows| && k <= |counts|
  {
    forall f, d: nat {:trigger (f, d) in open} ::
      && ((f, d) in open <==> d < |rows[k]| && rows[k][d] == f)
      && ((f, d) in open ==> open[(f, d)] == Time(counts, Begin(rows, d, k)))
  }

  // ----- one call of flow keeps the tables right --------------------------

  function OpenAfter(rows: seq<seq<string>>, counts: seq<real>, k: nat, open: Open): Open
    requires k + 1 < |rows| && k + 1 <= |counts|
  {
    var last, next := rows[k], rows[k + 1];
    Opened(Dropped(open, last, |last|, Common(last, next)), next, Common(last, next), |next|, Time(counts, k + 1))
  }

  lemma OpenKept(rows: seq<seq<string>>, counts: seq<real>, k: nat, open: Open)
    requires k + 1 < |rows| && k + 1 <= |counts| && OpenOk(rows, counts, k, open)
    ensures OpenOk(rows, counts, k + 1, OpenAfter(rows, counts, k, open))
  {
    var last, next := rows[k], rows[k + 1];
    var same := Common(last, next);
    var dropped := Dropped(open, last, |last|, same);
    var r := OpenAfter(rows, counts, k, open);
    forall f, d: nat
      ensures (f, d) in r <==> d < |next| && next[d] == f
      ensures (f, d) in r ==> r[(f, d)] == Time(counts, Begin(rows, d, k + 1))
    {
      DroppedHolds(open, last, |last|, same, (f, d));
      OpenedHolds(dropped, next, same, |next|, Time(counts, k + 1), (f, d));
    }
  }

  lemma StackIsOpen(rows: seq<seq<string>>, counts: seq<real>, k: nat, open: Open)
    requires k < |rows| && k <= |counts| && OpenOk(rows, counts, k, open)
    ensures forall i :: 0 <= i < |rows[k]| ==> (rows[k][i], i) in open
  {
  }

  function NodeAfter(rows: seq<seq<string>>, counts: seq<real>, k: nat, open: Open, node: Frames): Frames
    requires k + 1 < |rows| && k + 1 <= |counts| && forall i :: 0 <= i < |rows[k]| ==> (rows[k][i], i) in open
  {
    Closed(node, open, rows[k], |rows[k]|, Common(rows[k], rows[k + 1]), Time(counts, k + 1))
  }

  lemma EntryKept(rows: seq<seq<string>>, counts: seq<real>, k: nat, open: Open, node: Frames, f: string, d: nat,
      v: real)
    requires k + 1 < |rows| && k + 1 <= |counts| && OpenOk(rows, counts, k, open) && NodeOk(rows, counts, k, node)
    requires forall i :: 0 <= i < |rows[k]| ==> (rows[k][i], i) in open
    ensures Entry(rows, counts, k + 1, NodeAfter(rows, counts, k, open, node), f, d, v)
  {
    var r := NodeAfter(rows, counts, k, open, node);
    ClosedHolds(node, open, rows[k], |rows[k]|, Common(rows[k], rows[k + 1]), Time(counts, k + 1), (f, d, v));
    assert Entry(rows, counts, k, node, f, d, v);
    if Ends(rows, counts, f, d, v, k + 1) {
      assert LastEnd(rows, counts, k + 1, f, d, v, k + 1);
      assert (f, d) in open && StartsAt(rows, counts, d, k + 1, r[(f, d, v)]);
    } else if (f, d, v) in node {
      var e: nat :| LastEnd(rows, counts, k, f, d, v, e) && StartsAt(rows, counts, d, e, node[(f, d, v)]);
      assert LastEnd(rows, counts, k + 1, f, d, v, e) && StartsAt(rows, counts, d, e, r[(f, d, v)]);
    }
  }

  lemma NodeKept(rows: seq<seq<string>>, counts: seq<real>, k: nat, open: Open, node: Frames)
    requires k + 1 < |rows| && k + 1 <= |counts| && OpenOk(rows, counts, k, open) && NodeOk(rows, counts, k, node)
    requires forall i :: 0 <= i < |rows[k]| ==> (rows[k][i], i) in open
    ensures NodeOk(rows, counts, k + 1, NodeAfter(rows, counts, k, open, node))
  {
    var n, r := k + 1, NodeAfter(rows, counts, k, open, node);
    forall f, d: nat, v ensures Entry(rows, counts, n, r, f, d, v) {
      EntryKept(rows, counts, k, open, node, f, d, v);
    }
  }

  // ----- the program ------------------------------------------------------

  class FlameGraph {
    var node: Frames
    var tmp: Open

    constructor ()
      ensures node == map[] && tmp == map[]
    {
      node, tmp := map[], map[];
    }

    /** flow: merge the stack that was current until time v with the one that is current from then on. */
    method Flow(last: seq<string>, this_: seq<string>, v: real)
      requires forall i :: 0 <= i < |last| ==> (last[i], i) in tmp
      modifies this
      ensures var same := Common(last, this_);
        && node == Closed(old(node), old(tmp), last, |last|, same, v)
        && tmp == Opened(Dropped(old(tmp), last, |last|, same), this_, same, |this_|, v)
    {
      var i := 0;
      while i < |last| && i < |this_| && last[i] == this_[i]
        invariant 0 <= i <= |last| && i <= |this_| && last[..i] == this_[..i]
      {
        i := i + 1;
      }
      var same := i;
      CommonIs(last, this_, same);
      ghost var node0, tmp0 := node, tmp;
      i := |last|;
      while i > same
        invariant same <= i <= |last|
        invariant forall k :: 0 <= k < i ==> (last[k], k) in tmp && tmp[(last[k], k)] == tmp0[(last[k], k)]
        invariant Closed(node0, tmp0, last, |last|, same, v) == Closed(node, tmp0, last, i, same, v)
        invariant Dropped(tmp0, last, |last|, same) == Dropped(tmp, last, i, same)
      {
        i := i - 1;
        node := node[(last[i], i, v) := tmp[(last[i], i)]];
        tmp := tmp - {(last[i], i)};
      }
      assert tmp == Dropped(tmp0, last, |last|, same);
      ghost var tmp1 := tmp;
      i := same;
      while i < |this_|
        invariant same <= i <= |this_| && node == Closed(node0, tmp0, last, |last|, same, v)
        invariant Opened(tmp1, this_, same, |this_|, v) == Opened(tmp, this_, i, |this_|, v)
      {
        tmp := tmp[(this_[i], i) := v];
        i := i + 1;
      }
    }

    /** A call of flow from row k to row k + 1, and what it makes of the tables. */
    method Advance(ghost rows: seq<seq<string>>, ghost counts: seq<real>, ghost k: nat, last: seq<string>,
        next: seq<string>, v: real)
      requires k + 1 < |rows| && k + 1 <= |counts| && last == rows[k] && next == rows[k + 1] && v == Time(counts, k + 1)
      requires OpenOk(rows, counts, k, tmp) && NodeOk(rows, counts, k, node)
      modifies this
      ensures OpenOk(rows, counts, k + 1, tmp) && NodeOk(rows, counts, k + 1, node)
    {
      StackIsOpen(rows, counts, k, tmp);
      NodeKept(rows, counts, k, tmp, node);
      OpenKept(rows, counts, k, tmp);
      Flow(last, next, v);
    }

    /** The loop over the input and the last call, which ends what is still open. */
    method Merge(stacks: seq<seq<string>>, counts: seq<real>) returns (time: real)
      requires |stacks| == |counts| && Counts(counts) && node == map[] && tmp == map[]
      modifies this
      ensures Exact(Rows(stacks), Padded(counts), node) <==> !Reopened(Rows(stacks), Padded(counts))
      ensures time == Time(counts, |counts|) && NodeOk(Rows(stacks), Padded(counts), |stacks| + 1, node)
    {
      time := MergeRows(stacks, counts);
      ExactUnlessReopened(Rows(stacks), Padded(counts), node);
    }

    method MergeRows(stacks: seq<seq<string>>, counts: seq<real>) returns (time: real)
      requires |stacks| == |counts| && node == map[] && tmp == map[]
      modifies this
      ensures time == Time(counts, |counts|) && NodeOk(Rows(stacks), Padded(counts), |stacks| + 1, node)
    {
      ghost var rows, padded := Rows(stacks), Padded(counts);
      var last: seq<string> := [];
      time := 0.0;
      var k := 0;
      while k < |stacks|
        invariant k <= |stacks| && time == Time(counts, k) && last == rows[k]
        invariant OpenOk(rows, padded, k, tmp) && NodeOk(rows, padded, k, node)
      {
        var next := [""] + stacks[k];
        PaddedTime(counts, k);
        Advance(rows, padded, k, last, next, time);
        last := next;
        time := time + counts[k];
        k := k + 1;
      }
      PaddedTime(counts, k);
      Advance(rows, padded, k, last, [], time);
    }
  }

  lemma {:induction false} PaddedTime(counts: seq<real>, k: nat)
    requires k <= |counts|
    ensures Time(Padded(counts), k + 1) == Time(counts, k)
  {
    if k > 0 { PaddedTime(counts, k - 1); }
  }

  lemma {:induction false} CommonIs(a: seq<string>, b: seq<string>, n: nat)
    requires n <= |a| && n <= |b| && a[..n] == b[..n] && (n < |a| && n < |b| ==> a[n] != b[n])
    ensures Common(a, b) == n
  {
    if n > 0 {
      assert a[0] == a[..n][0] == b[..n][0] == b[0];
      assert a[1..][..n - 1] == a[..n][1..] && b[1..][..n - 1] == b[..n][1..];
      CommonIs(a[1..], b[1..], n - 1);
    }
  }

  // ----- the frames are the samples ---------------------------------------

  /** The frame covers time t. */
  predicate Covers(node: Frames, f: string, d: nat, v: real, t: real) {
    (f, d, v) in node && node[(f, d, v)] <= t < v
  }

  /** The row at which the frame that row k has at depth d is over. */
  function End(rows: seq<seq<string>>, d: nat, k: nat): (e: nat)
    requires k + 1 < |rows| && rows[|rows| - 1] == []
    ensures k < e < |rows| && Breaks(rows, d, e)
    ensures forall i {:trigger Breaks(rows, d, i)} :: k < i < e ==> !Breaks(rows, d, i)
    decreases |rows| - k
  {
    if Breaks(rows, d, k + 1) then k + 1 else End(rows, d, k + 1)
  }

  lemma TimeMonotone(counts: seq<real>, a: nat, b: nat)
    requires Counts(counts) && a <= b <= |counts|
    ensures Time(counts, a) <= Time(counts, b)
  {
    if a < b { TimeMonotone(counts, a, b - 1); }
  }

  /** Nothing breaks a frame between its begin and any of its rows. */
  lemma {:induction false} SameFrame(rows: seq<seq<string>>, d: nat, i: nat, k: nat)
    requires k < |rows| && d < |rows[k]| && Begin(rows, d, k) <= i <= k
    ensures d < |rows[i]| && rows[i][d] == rows[k][d] && Begin(rows, d, i) == Begin(rows, d, k)
    ensures i > Begin(rows, d, k) ==> !Breaks(rows, d, i)
    decreases k - i
  {
    if i < k {
      SameFrame(rows, d, i + 1, k);
      assert !Breaks(rows, d, i + 1);
    }
  }

  /** From row k to its end the frame stays the same. */
  lemma {:induction false} UpToEnd(rows: seq<seq<string>>, d: nat, k: nat, i: nat)
    requires k + 1 < |rows| && rows[|rows| - 1] == [] && d < |rows[k]| && k <= i < End(rows, d, k)
    ensures d < |rows[i]| && rows[i][d] == rows[k][d] && Begin(rows, d, i) == Begin(rows, d, k)
    decreases i
  {
    if k < i {
      UpToEnd(rows, d, k, i - 1);
      assert !Breaks(rows, d, i);
    }
  }

  /** A frame that covers a time in row k is the one row k has at its depth. */
  lemma CoverIsSampled(rows: seq<seq<string>>, counts: seq<real>, node: Frames, k: nat, f: string, d: nat, v: real,
      t: real)
    requires |rows| == |counts| + 1 && rows[|counts|] == [] && Counts(counts) && NodeOk(rows, counts, |counts|, node)
    requires k < |counts| && Time(counts, k) <= t < Time(counts, k + 1) && Covers(node, f, d, v, t)
    ensures d < |rows[k]| && rows[k][d] == f && v == Time(counts, End(rows, d, k))
    ensures node[(f, d, v)] == Time(counts, Begin(rows, d, k))
  {
    assert Entry(rows, counts, |counts|, node, f, d, v);
    var e: nat :| LastEnd(rows, counts, |counts|, f, d, v, e) && StartsAt(rows, counts, d, e, node[(f, d, v)]);
    var b := Begin(rows, d, e - 1);
    if k < b { TimeMonotone(counts, k + 1, b); }
    if e <= k { TimeMonotone(counts, e, k); }
    EndOfFrame(rows, d, k, e);
  }

  lemma {:induction false} EndOfFrame(rows: seq<seq<string>>, d: nat, k: nat, e: nat)
    requires k < e < |rows| && rows[|rows| - 1] == [] && d < |rows[e - 1]| && Begin(rows, d, e - 1) <= k
    requires Breaks(rows, d, e)
    ensures d < |rows[k]| && rows[k][d] == rows[e - 1][d] && Begin(rows, d, k) == Begin(rows, d, e - 1)
    ensures End(rows, d, k) == e
    decreases e - k
  {
    SameFrame(rows, d, k, e - 1);
    if k + 1 < e {
      SameFrame(rows, d, k + 1, e - 1);
      EndOfFrame(rows, d, k + 1, e);
    }
  }

  /** The frame of row k at depth d has an entry; the entry is its own unless a later frame of
      the same name and depth ended at the same time. */
  lemma EntryOfFrame(rows: seq<seq<string>>, counts: seq<real>, node: Frames, k: nat, d: nat) returns (e: nat)
    requires |rows| == |counts| + 1 && rows[|counts|] == [] && Counts(counts) && NodeOk(rows, counts, |counts|, node)
    requires k < |counts| && d < |rows[k]|
    ensures var f := rows[k][d]; var v := Time(counts, End(rows, d, k));
      && (f, d, v) in node && End(rows, d, k) <= e && LastEnd(rows, counts, |counts|, f, d, v, e)
      && (e == End(rows, d, k) ==> node[(f, d, v)] == Time(counts, Begin(rows, d, k)))
      && (e > End(rows, d, k) ==> node[(f, d, v)] == v)
  {
    var c := End(rows, d, k);
    var f, v := rows[k][d], Time(counts, c);
    UpToEnd(rows, d, k, c - 1);
    assert Entry(rows, counts, |counts|, node, f, d, v) && Ends(rows, counts, f, d, v, c);
    e :| LastEnd(rows, counts, |counts|, f, d, v, e) && StartsAt(rows, counts, d, e, node[(f, d, v)]);
    if e > c {
      BeginAfterBreak(rows, d, c, e - 1);
      TimeMonotone(counts, c, Begin(rows, d, e - 1));
      TimeMonotone(counts, Begin(rows, d, e - 1), e);
    }
  }

  lemma {:induction false} BeginAfterBreak(rows: seq<seq<string>>, d: nat, c: nat, k: nat)
    requires 0 < c <= k < |rows| && d < |rows[k]| && Breaks(rows, d, c)
    ensures c <= Begin(rows, d, k)
  {
    if c < k && !Breaks(rows, d, k) { BeginAfterBreak(rows, d, c, k - 1); }
  }

  /** The frame of the stack at depth d is there at time t. */
  ghost predicate Covered(row: seq<string>, node: Frames, d: nat, t: real) {
    d < |row| ==> exists v :: Covers(node, row[d], d, v, t)
  }

  /** At time t exactly the frames of row k are there, each once. */
  ghost predicate ExactAt(rows: seq<seq<string>>, node: Frames, k: nat, t: real)
    requires k < |rows|
  {
    && (forall f, d: nat, v :: Covers(node, f, d, v, t) ==> d < |rows[k]| && rows[k][d] == f)
    && (forall f, d: nat, v, w :: Covers(node, f, d, v, t) && Covers(node, f, d, w, t) ==> v == w)
    && (forall d: nat {:trigger Covered(rows[k], node, d, t)} :: Covered(rows[k], node, d, t))
  }

  /** The merged frames represent the samples: at every time the frames of the sample then current. */
  ghost predicate Exact(rows: seq<seq<string>>, counts: seq<real>, node: Frames)
    requires |counts| < |rows|
  {
    forall k: nat, t {:trigger ExactAt(rows, node, k, t)} ::
      k < |counts| && Time(counts, k) <= t < Time(counts, k + 1) ==> ExactAt(rows, node, k, t)
  }

  /** The frame that row k has at depth d for some time ends, and a frame of its name and depth
      ends once more before any more time has passed. */
  ghost predicate Lost(rows: seq<seq<string>>, counts: seq<real>, k: nat, d: nat, e: nat)
    requires |rows| == |counts| + 1 && rows[|counts|] == []
  {
    && k < |counts| && d < |rows[k]| && Time(counts, k) < Time(counts, k + 1)
    && End(rows, d, k) < e && Ends(rows, counts, rows[k][d], d, Time(counts, End(rows, d, k)), e)
  }

  ghost predicate Reopened(rows: seq<seq<string>>, counts: seq<real>)
    requires |rows| == |counts| + 1 && rows[|counts|] == []
  {
    exists k: nat, d: nat, e: nat :: Lost(rows, counts, k, d, e)
  }

  lemma LostIsNotExact(rows: seq<seq<string>>, counts: seq<real>, node: Frames, k: nat, d: nat, e: nat)
    requires |rows| == |counts| + 1 && rows[|counts|] == [] && Counts(counts) && NodeOk(rows, counts, |counts|, node)
    requires Lost(rows, counts, k, d, e)
    ensures !ExactAt(rows, node, k, Time(counts, k))
  {
    var t := Time(counts, k);
    var o := EntryOfFrame(rows, counts, node, k, d);
    assert Ends(rows, counts, rows[k][d], d, Time(counts, End(rows, d, k)), e) && o >= e;
    TimeMonotone(counts, k + 1, End(rows, d, k));
    forall v ensures !Covers(node, rows[k][d], d, v, t) {
      if Covers(node, rows[k][d], d, v, t) { CoverIsSampled(rows, counts, node, k, rows[k][d], d, v, t); }
    }
    assert !Covered(rows[k], node, d, t);
  }

  lemma NotLostIsExact(rows: seq<seq<string>>, counts: seq<real>, node: Frames, k: nat, t: real)
    requires |rows| == |counts| + 1 && rows[|counts|] == [] && Counts(counts) && NodeOk(rows, counts, |counts|, node)
    requires k < |counts| && Time(counts, k) <= t < Time(counts, k + 1)
    requires forall d: nat, e: nat :: !Lost(rows, counts, k, d, e)
    ensures ExactAt(rows, node, k, t)
  {
    forall f, d: nat, v | Covers(node, f, d, v, t)
      ensures d < |rows[k]| && rows[k][d] == f && v == Time(counts, End(rows, d, k))
    {
      CoverIsSampled(rows, counts, node, k, f, d, v, t);
    }
    forall f, d: nat, v, w | Covers(node, f, d, v, t) && Covers(node, f, d, w, t) ensures v == w {
      CoverIsSampled(rows, counts, node, k, f, d, v, t);
      CoverIsSampled(rows, counts, node, k, f, d, w, t);
    }
    forall d: nat ensures Covered(rows[k], node, d, t) {
      if d < |rows[k]| { FrameCovers(rows, counts, node, k, d, t); }
    }
  }

  lemma FrameCovers(rows: seq<seq<string>>, counts: seq<real>, node: Frames, k: nat, d: nat, t: real)
    requires |rows| == |counts| + 1 && rows[|counts|] == [] && Counts(counts) && NodeOk(rows, counts, |counts|, node)
    requires k < |counts| && Time(counts, k) <= t < Time(counts, k + 1) && d < |rows[k]|
    requires forall e: nat :: !Lost(rows, counts, k, d, e)
    ensures Covers(node, rows[k][d], d, Time(counts, End(rows, d, k)), t)
    ensures node[(rows[k][d], d, Time(counts, End(rows, d, k)))] == Time(counts, Begin(rows, d, k))
  {
    var e := EntryOfFrame(rows, counts, node, k, d);
    assert !Lost(rows, counts, k, d, e);
    TimeMonotone(counts, Begin(rows, d, k), k);
    TimeMonotone(counts, k + 1, End(rows, d, k));
  }

  /** The merged frames are exactly the samples if and only if no frame is reopened and closed
      again within samples of count zero. */
  lemma ExactUnlessReopened(rows: seq<seq<string>>, counts: seq<real>, node: Frames)
    requires |rows| == |counts| + 1 && rows[|counts|] == [] && Counts(counts) && NodeOk(rows, counts, |counts|, node)
    ensures Exact(rows, counts, node) <==> !Reopened(rows, counts)
  {
    if Reopened(rows, counts) {
      var k: nat, d: nat, e: nat :| Lost(rows, counts, k, d, e);
      LostIsNotExact(rows, counts, node, k, d, e);
      assert !ExactAt(rows, node, k, Time(counts, k));
    } else {
      forall k: nat, t | k < |counts| && Time(counts, k) <= t < Time(counts, k + 1) ensures ExactAt(rows, node, k, t) {
        NotLostIsExact(rows, counts, node, k, t);
      }
    }
  }

  lemma {:induction false} TimeGrows(counts: seq<real>, a: nat, b: nat)
    requires (forall k :: 0 < k < |counts| ==> counts[k] > 0.0) && 0 < a < b <= |counts|
    ensures Time(counts, a) < Time(counts, b)
  {
    if a + 1 < b { TimeGrows(counts, a, b - 1); }
  }

  /** With positive counts nothing is lost. */
  lemma PositiveCountsAreExact(stacks: seq<seq<string>>, counts: seq<real>)
    requires |stacks| == |counts| && forall k :: 0 <= k < |counts| ==> counts[k] > 0.0
    ensures !Reopened(Rows(stacks), Padded(counts))
  {
    var rows, padded := Rows(stacks), Padded(counts);
    forall k: nat, d: nat, e: nat ensures !Lost(rows, padded, k, d, e) {
      if k < |padded| && d < |rows[k]| && End(rows, d, k) < e <= |padded| { TimeGrows(padded, End(rows, d, k), e); }
    }
  }

  /** Each frame lies inside its caller's. */
  lemma InsideCaller(rows: seq<seq<string>>, counts: seq<real>, node: Frames, k: nat, f: string, d: nat, v: real,
      t: real) returns (w: real)
    requires |rows| == |counts| + 1 && rows[|counts|] == [] && Counts(counts) && NodeOk(rows, counts, |counts|, node)
    requires k < |counts| && Time(counts, k) <= t < Time(counts, k + 1) && Covers(node, f, d, v, t) && d > 0
    requires !Reopened(rows, counts)
    ensures d < |rows[k]|
    ensures Covers(node, rows[k][d - 1], d - 1, w, t) && node[(rows[k][d - 1], d - 1, w)] <= node[(f, d, v)] && v <= w
  {
    CoverIsSampled(rows, counts, node, k, f, d, v, t);
    FrameCovers(rows, counts, node, k, d - 1, t);
    w := Time(counts, End(rows, d - 1, k));
    CallerBeginsBefore(rows, d, k);
    CallerEndsAfter(rows, d, k);
    TimeMonotone(counts, Begin(rows, d - 1, k), Begin(rows, d, k));
    TimeMonotone(counts, End(rows, d, k), End(rows, d - 1, k));
  }

  lemma {:induction false} CallerBeginsBefore(rows: seq<seq<string>>, d: nat, k: nat)
    requires k < |rows| && 0 < d < |rows[k]|
    ensures Begin(rows, d - 1, k) <= Begin(rows, d, k)
  {
    if k > 0 && !Breaks(rows, d, k) && !Breaks(rows, d - 1, k) { CallerBeginsBefore(rows, d, k - 1); }
  }

  lemma {:induction false} CallerEndsAfter(rows: seq<seq<string>>, d: nat, k: nat)
    requires k + 1 < |rows| && rows[|rows| - 1] == [] && 0 < d
    ensures End(rows, d, k) <= End(rows, d - 1, k)
    decreases |rows| - k
  {
    if !Breaks(rows, d, k + 1) && !Breaks(rows, d - 1, k + 1) { CallerEndsAfter(rows, d, k + 1); }
  }

  /** The root spans the total. */
  lemma RootSpansAll(stacks: seq<seq<string>>, counts: seq<real>, node: Frames)
    requires |stacks| == |counts| && 0 < |stacks| && Counts(counts)
    requires NodeOk(Rows(stacks), Padded(counts), |stacks| + 1, node)
    ensures ("", 0, Time(counts, |counts|)) in node && node[("", 0, Time(counts, |counts|))] == 0.0
  {
    var rows, padded, n := Rows(stacks), Padded(counts), |stacks|;
    PaddedTime(counts, n);
    RootBegins(stacks, n);
    RootEnds(stacks, 1);
    var e := EntryOfFrame(rows, padded, node, 1, 0);
    SameFrame(rows, 0, 1, n);
    PaddedTime(counts, 0);
  }

  lemma {:induction false} RootBegins(stacks: seq<seq<string>>, k: nat)
    requires 0 < k <= |stacks|
    ensures Begin(Rows(stacks), 0, k) == 1
  {
    if k > 1 { RootBegins(stacks, k - 1); }
  }

  lemma {:induction false} RootEnds(stacks: seq<seq<string>>, k: nat)
    requires 0 < k <= |stacks|
    ensures End(Rows(stacks), 0, k) == |stacks| + 1
    decreases |stacks| - k
  {
    if k < |stacks| { RootEnds(stacks, k + 1); }
  }

  /** Three lines in sorted order lose a frame: p;a 5, q;a 0, r 1. */
  lemma ZeroCountLosesFrame()
    ensures Reopened(Rows([["p", "a"], ["q", "a"], ["r"]]), Padded([5.0, 0.0, 1.0]))
  {
    var rows, counts := Rows([["p", "a"], ["q", "a"], ["r"]]), Padded([5.0, 0.0, 1.0]);
    assert rows[1] == ["", "p", "a"] && rows[2] == ["", "q", "a"] && rows[3] == ["", "r"];
    assert "p"[0] != "q"[0] && "q"[0] != "r"[0];
    assert rows[1][1] != rows[2][1] && rows[2][1] != rows[3][1];
    assert counts == [0.0, 5.0, 0.0, 1.0];
    assert Time(counts, 1) == 0.0;
    assert Time(counts, 2) == Time(counts, 1) + 5.0;
    assert Time(counts, 3) == Time(counts, 2) + 0.0;
    assert Breaks(rows, 2, 2) && Breaks(rows, 2, 3);
    assert Ends(rows, counts, "a", 2, 5.0, 3);
    assert Lost(rows, counts, 1, 2, 3);
  }
}
