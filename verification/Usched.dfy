/** The block spans of usched.c, the length of a job in blocks and the
    reference totals of work.h, which together check a scheduled job. */
module Usched {
  import opened Arith

  type Word = x: nat | x < 0x1_0000_0000

  function Low32(x: nat): Word {
    x % 0x1_0000_0000
  }

  /** A total in an unsigned 64-bit word. */
  function Low64(x: nat): nat {
    x % 0x1_0000_0000_0000_0000
  }

  // ----- work.h -----------------------------------------------------------

  /** One record of 32 bits. */
  function Transform(v: Word): Word {
    Low32(v * 2654435761 + 12345)
  }

  /** 244002641 is the inverse of the multiplier modulo 2^32. */
  function Untransform(y: Word): Word {
    var sum: nat := y + (0x1_0000_0000 - 12345);
    Low32(sum * 244002641)
  }

  /** x is reduced by q words. */
  lemma Reduced32(x: nat) returns (q: nat)
    ensures x == 0x1_0000_0000 * q + Low32(x)
  {
    q := x / 0x1_0000_0000;
  }

  lemma IsLow32(x: nat, q: int, r: Word)
    requires x == 0x1_0000_0000 * q + r
    ensures Low32(x) == r
  {
    DivModIs(q, r, 0x1_0000_0000);
  }

  lemma TransformBack(v: Word)
    ensures Untransform(Transform(v)) == v
  {
    var n: nat := v;
    var q := Reduced32(n * 2654435761 + 12345);
    var sum: nat := Transform(v) + (0x1_0000_0000 - 12345);
    IsLow32(sum * 244002641, n * 150801925 - q * 244002641 + 244002641, v);
  }

  lemma TransformForth(v: Word)
    ensures Transform(Untransform(v)) == v
  {
    var sum: nat := v + (0x1_0000_0000 - 12345);
    var q := Reduced32(sum * 244002641);
    IsLow32(Untransform(v) * 2654435761 + 12345, sum * 150801925 - q * 2654435761 + 1, v);
  }

  /** transform loses nothing: no two words are transformed to the same one, and every word is reached. */
  lemma TransformIsInvertible(v: Word)
    ensures Untransform(Transform(v)) == v && Transform(Untransform(v)) == v
  {
    TransformBack(v);
    TransformForth(v);
  }

  /** The residue is 3 in both programs. */
  predicate Keep(v: Word, d: nat) {
    v % 7 == d % 7
  }

  /** What a pass over records adds to the two totals, without the 64-bit limit. */
  function KeptSum(s: seq<Word>, d: nat): nat {
    if s == [] then 0
    else KeptSum(s[..|s| - 1], d) + var v := Transform(s[|s| - 1]); if Keep(v, d) then v else 0
  }

  function KeptCount(s: seq<Word>, d: nat): nat {
    if s == [] then 0
    else KeptCount(s[..|s| - 1], d) + if Keep(Transform(s[|s| - 1]), d) then 1 else 0
  }

  lemma {:induction false} KeptAppend(a: seq<Word>, b: seq<Word>, d: nat)
    ensures KeptSum(a + b, d) == KeptSum(a, d) + KeptSum(b, d)
    ensures KeptCount(a + b, d) == KeptCount(a, d) + KeptCount(b, d)
  {
    if b == [] {
      assert a + b == a;
    } else {
      assert (a + b)[..|a + b| - 1] == a + b[..|b| - 1];
      KeptAppend(a, b[..|b| - 1], d);
    }
  }

  // ----- the spans --------------------------------------------------------

  /** job_block_span: offset and number of records of the next block; nothing when the job is over. */
  function Span(done: nat, total: nat, nrec: nat, block: nat): (r: (nat, nat))
    requires 0 < nrec && 0 < block
    ensures r.0 + r.1 <= nrec && r.1 <= block
    ensures done < total ==> r.0 == Place(done, nrec) && 0 < r.1 <= total - done
    ensures done >= total ==> r.1 == 0
  {
    if done >= total then (0, 0)
    else
      var off := Place(done, nrec);
      var n := if block < nrec - off then block else nrec - off;
      (off, if total - done < n then total - done else n)
  }

  /** How many blocks n records of one pass take. */
  function BlocksOf(n: nat, block: nat): nat
    requires 0 < block
  {
    if n == 0 then 0 else if n <= block then 1 else 1 + BlocksOf(n - block, block)
  }

  /** That is the rounded-up quotient of the program. */
  lemma {:induction false} BlocksOfIsCeiling(n: nat, block: nat)
    requires 0 < block
    ensures BlocksOf(n, block) == (n + block - 1) / block
  {
    BlocksOfRounds(n, block);
    PlaceIsRemainder(n + block - 1, block);
  }

  lemma {:induction false} BlocksOfRounds(n: nat, block: nat)
    requires 0 < block
    ensures BlocksOf(n, block) == Rounds(n + block - 1, block)
  {
    if n > block { BlocksOfRounds(n - block, block); }
  }

  /** How many spans it takes to finish a job. */
  function Spans(done: nat, total: nat, nrec: nat, block: nat): nat
    requires 0 < nrec && 0 < block
    decreases if done < total then total - done else 0
  {
    if done >= total then 0 else 1 + Spans(done + Span(done, total, nrec, block).1, total, nrec, block)
  }

  /** The length main computes: the blocks of the full passes and those of the last one. */
  function Length(total: nat, nrec: nat, block: nat): nat
    requires 0 < nrec && 0 < block
  {
    Rounds(total, nrec) * BlocksOf(nrec, block) + BlocksOf(Place(total, nrec), block)
  }

  /** n records that lie in one pass take BlocksOf(n) spans, when the pass or the job ends after them. */
  lemma {:induction false} PassSpans(done: nat, n: nat, total: nat, nrec: nat, block: nat)
    requires 0 < nrec && 0 < block && done + n <= total && Place(done, nrec) + n <= nrec
    requires n == 0 || done + n == total || Place(done, nrec) + n == nrec
    ensures Spans(done, total, nrec, block) == BlocksOf(n, block) + Spans(done + n, total, nrec, block)
    decreases n
  {
    if n > block {
      FurtherPlace(done, block, nrec);
      PassSpans(done + block, n - block, total, nrec, block);
    }
  }

  /** From the start of a pass to the end of the job. */
  lemma {:induction false} PassesSpans(done: nat, total: nat, nrec: nat, block: nat)
    requires 0 < nrec && 0 < block && Place(done, nrec) == 0 && done <= total
    ensures Spans(done, total, nrec, block) == Length(total - done, nrec, block)
    decreases total - done
  {
    var left := total - done;
    if left < nrec {
      PassSpans(done, left, total, nrec, block);
    } else {
      PassSpans(done, nrec, total, nrec, block);
      NextRound(done, nrec);
      PassesSpans(done + nrec, total, nrec, block);
      OneMoreTimes(BlocksOf(nrec, block), Rounds(left - nrec, nrec));
    }
  }

  /** Repeating job_block_span reaches the end of the job in exactly the computed number of blocks. */
  lemma SpansAreLength(total: nat, nrec: nat, block: nat)
    requires 0 < nrec && 0 < block
    ensures Spans(0, total, nrec, block) == Length(total, nrec, block)
  {
    PassesSpans(0, total, nrec, block);
  }

  // ----- the records ------------------------------------------------------

  /** The blocks of a job one after the other. */
  function AllSpans(data: seq<Word>, done: nat, total: nat, block: nat): seq<Word>
    requires 0 < |data| && 0 < block
    decreases if done < total then total - done else 0
  {
    if done >= total then []
    else
      var (off, n) := Span(done, total, |data|, block);
      data[off..off + n] + AllSpans(data, done + n, total, block)
  }

  /** The data from place p on, over and over, n records in all. */
  function Repeated(data: seq<Word>, p: nat, n: nat): (r: seq<Word>)
    requires p < |data|
    ensures |r| == n
    decreases n
  {
    if p + n <= |data| then data[p..p + n] else data[p..] + Repeated(data, 0, n - (|data| - p))
  }

  /** Any prefix of the rest of a pass may be taken first. */
  lemma RepeatedFirst(data: seq<Word>, p: nat, k: nat, n: nat)
    requires p < |data| && p + k <= |data| && k <= n
    ensures var next := if p + k < |data| then p + k else 0;
      Repeated(data, p, n) == data[p..p + k] + Repeated(data, next, n - k)
  {
    if p + k == |data| { assert data[p..p + k] == data[p..]; }
    else if p + n <= |data| { assert data[p..p + n] == data[p..p + k] + data[p + k..p + n]; }
    else { assert data[p..] == data[p..p + k] + data[p + k..]; }
  }

  lemma AfterSpan(done: nat, n: nat, nrec: nat)
    requires 0 < nrec && 0 < n && Place(done, nrec) + n <= nrec
    ensures Place(done + n, nrec) == if Place(done, nrec) + n < nrec then Place(done, nrec) + n else 0
  {
    FurtherPlace(done, n - 1, nrec);
    NextPlace(done + (n - 1), nrec);
  }

  lemma FirstSpan(data: seq<Word>, done: nat, total: nat, block: nat) returns (n: nat)
    requires 0 < |data| && 0 < block && done < total
    ensures 0 < n <= total - done && Place(done, |data|) + n <= |data|
    ensures var off := Place(done, |data|);
      AllSpans(data, done, total, block) == data[off..off + n] + AllSpans(data, done + n, total, block)
  {
    var (off, m) := Span(done, total, |data|, block);
    n := m;
  }

  lemma SpanThenRest(data: seq<Word>, done: nat, n: nat, left: nat)
    requires 0 < |data| && 0 < n <= left && Place(done, |data|) + n <= |data|
    ensures var off := Place(done, |data|);
      Repeated(data, off, left) == data[off..off + n] + Repeated(data, Place(done + n, |data|), left - n)
  {
    AfterSpan(done, n, |data|);
    RepeatedFirst(data, Place(done, |data|), n, left);
  }

  lemma OneSpanMore(data: seq<Word>, done: nat, total: nat, block: nat) returns (next: nat)
    requires 0 < |data| && 0 < block && done < total
    ensures done < next <= total
    ensures AllSpans(data, next, total, block) == Repeated(data, Place(next, |data|), total - next) ==>
              AllSpans(data, done, total, block) == Repeated(data, Place(done, |data|), total - done)
  {
    var n := FirstSpan(data, done, total, block);
    next := done + n;
    SpanThenRest(data, done, n, total - done);
  }

  /** The blocks, put together, are the data repeated. */
  lemma {:induction false} SpansRepeatData(data: seq<Word>, done: nat, total: nat, block: nat)
    requires 0 < |data| && 0 < block && done <= total
    ensures AllSpans(data, done, total, block) == Repeated(data, Place(done, |data|), total - done)
    decreases total - done
  {
    if done < total {
      var next := OneSpanMore(data, done, total, block);
      SpansRepeatData(data, next, total, block);
    }
  }

  /** The totals of repeated data: passes times those of the data, plus those of the tail. */
  lemma {:induction false} RepeatedTotals(data: seq<Word>, n: nat, d: nat)
    requires 0 < |data|
    ensures var q, tail := Rounds(n, |data|), data[..Place(n, |data|)];
      && KeptSum(Repeated(data, 0, n), d) == KeptSum(data, d) * q + KeptSum(tail, d)
      && KeptCount(Repeated(data, 0, n), d) == KeptCount(data, d) * q + KeptCount(tail, d)
  {
    var size := |data|;
    if n < size {
      assert data[0..0 + n] == data[..n];
    } else {
      RepeatedTotals(data, n - size, d);
      RepeatedFirst(data, 0, size, n);
      assert data[0..0 + size] == data;
      KeptAppend(data, Repeated(data, 0, n - size), d);
      OneMoreTimes(KeptSum(data, d), Rounds(n - size, size));
      OneMoreTimes(KeptCount(data, d), Rounds(n - size, size));
    }
  }

  // ----- 64-bit totals ----------------------------------------------------

  lemma Add64(x: nat, v: nat)
    ensures Low64(Low64(x) + v) == Low64(x + v)
  {
    var word := 0x1_0000_0000_0000_0000;
    var q, y := x / word, Low64(x) + v;
    assert x + v == word * (q + y / word) + y % word;
    DivModIs(q + y / word, y % word, word);
  }

  /** main's reference: passes times the total of the data plus that of the tail, in 64 bits. */
  function Reference(full: nat, passes: nat, tail: nat): nat {
    Low64(full * passes + tail)
  }

  /** It may be computed from totals that are themselves reduced to 64 bits. */
  lemma {:induction false} ReducedReference(full: nat, passes: nat, tail: nat)
    ensures Reference(Low64(full), passes, Low64(tail)) == Low64(full * passes + tail)
    decreases passes
  {
    if passes > 0 {
      ReducedReference(full, passes - 1, tail);
      OneMoreTimes(full, passes - 1);
      OneMoreTimes(Low64(full), passes - 1);
      Add64(full * (passes - 1) + tail, Low64(full));
      Add64(Low64(full) * (passes - 1) + Low64(tail), Low64(full));
      Add64(full, full * (passes - 1) + tail);
    }
  }

  /** The two 64-bit totals after one more record, and after a sequence of them. */
  function AddRecord(t: (nat, nat), x: Word, d: nat): (nat, nat) {
    var v := Transform(x);
    if Keep(v, d) then (Low64(t.0 + v), Low64(t.1 + 1)) else t
  }

  function Totals(s: seq<Word>, start: (nat, nat), d: nat): (nat, nat) {
    if s == [] then start else AddRecord(Totals(s[..|s| - 1], start, d), s[|s| - 1], d)
  }

  lemma {:induction false} TotalsAppend(a: seq<Word>, b: seq<Word>, start: (nat, nat), d: nat)
    ensures Totals(a + b, start, d) == Totals(b, Totals(a, start, d), d)
  {
    if b == [] {
      assert a + b == a;
    } else {
      assert (a + b)[..|a + b| - 1] == a + b[..|b| - 1];
      TotalsAppend(a, b[..|b| - 1], start, d);
    }
  }

  /** The records of the next span follow those already done. */
  lemma {:induction false} RepeatedLast(data: seq<Word>, done: nat, n: nat)
    requires 0 < |data| && Place(done, |data|) + n <= |data|
    ensures var off := Place(done, |data|);
      Repeated(data, 0, done + n) == Repeated(data, 0, done) + data[off..off + n]
  {
    if done < |data| {
      assert data[0..0 + done] == data[..done] && data[0..0 + (done + n)] == data[..done] + data[done..done + n];
    } else {
      RepeatedLast(data, done - |data|, n);
    }
  }

  lemma SpanLast(data: seq<Word>, done: nat, n: nat, d: nat)
    requires 0 < |data| && Place(done, |data|) + n <= |data|
    ensures var off := Place(done, |data|);
      Totals(Repeated(data, 0, done + n), (0, 0), d)
      == Totals(data[off..off + n], Totals(Repeated(data, 0, done), (0, 0), d), d)
  {
    var off := Place(done, |data|);
    RepeatedLast(data, done, n);
    TotalsAppend(Repeated(data, 0, done), data[off..off + n], (0, 0), d);
  }

  /** The next span's records are added to the totals so far. */
  lemma BlockAdds(data: seq<Word>, done: nat, total: nat, block: nat, d: nat)
    requires 0 < |data| && 0 < block && done < total
    ensures var (off, n) := Span(done, total, |data|, block);
      && done + n <= total
      && Totals(Repeated(data, 0, done + n), (0, 0), d)
         == Totals(data[off..off + n], Totals(Repeated(data, 0, done), (0, 0), d), d)
  {
    SpanLast(data, done, Span(done, total, |data|, block).1, d);
  }

  /** They are the unbounded totals, reduced. */
  lemma {:induction false} TotalsAreReduced(s: seq<Word>, d: nat)
    ensures Totals(s, (0, 0), d) == (Low64(KeptSum(s, d)), Low64(KeptCount(s, d)))
  {
    if s != [] {
      var front := s[..|s| - 1];
      TotalsAreReduced(front, d);
      Add64(KeptSum(front, d), Transform(s[|s| - 1]));
      Add64(KeptCount(front, d), 1);
    }
  }

  /** The totals over the records of a job, the data repeated, are main's reference totals. */
  lemma JobTotals(data: seq<Word>, total: nat, d: nat)
    requires 0 < |data|
    ensures var q := Rounds(total, |data|);
      var full, tail := Totals(data, (0, 0), d), Totals(data[..Place(total, |data|)], (0, 0), d);
      Totals(Repeated(data, 0, total), (0, 0), d) == (Reference(full.0, q, tail.0), Reference(full.1, q, tail.1))
  {
    var q, tail := Rounds(total, |data|), data[..Place(total, |data|)];
    RepeatedTotals(data, total, d);
    ReducedReference(KeptSum(data, d), q, KeptSum(tail, d));
    ReducedReference(KeptCount(data, d), q, KeptCount(tail, d));
    TotalsAreReduced(Repeated(data, 0, total), d);
    TotalsAreReduced(data, d);
    TotalsAreReduced(tail, d);
  }

  lemma TotalsOfOne(x: Word, start: (nat, nat), d: nat)
    ensures Totals([x], start, d) == AddRecord(start, x, d)
  {
    assert [x][..0] == [];
  }

  /** With the residue of the programs: a record that is transformed to v adds v to the sum and 1 to the count
      when v leaves the remainder 3 by 7, and nothing otherwise. */
  lemma OneRecordAdds(x: Word, v: Word, sum: nat, count: nat)
    requires v == Transform(x)
    ensures Totals([x], (sum, count), 3)
      == if v % 7 == 3
         then ((sum + v) % 0x1_0000_0000_0000_0000, (count + 1) % 0x1_0000_0000_0000_0000) else (sum, count)
  {
    TotalsOfOne(x, (sum, count), 3);
  }

  // ----- the program ------------------------------------------------------

  /** reference_aggregate: the totals of the first n records. */
  method ReferenceAggregate(a: array<Word>, n: nat, d: nat) returns (sum: nat, count: nat)
    requires n <= a.Length
    ensures (sum, count) == Totals(a[..n], (0, 0), d)
  {
    sum, count := AddBlock(a, 0, n, d, 0, 0);
    assert a[0..0 + n] == a[..n];
  }

  /** The loop over records off, ..., off+n-1, added to totals: what work_block has to do as well. */
  method AddBlock(a: array<Word>, off: nat, n: nat, d: nat, sum: nat, count: nat) returns (s: nat, c: nat)
    requires off + n <= a.Length
    ensures (s, c) == Totals(a[..][off..off + n], (sum, count), d)
  {
    ghost var data := a[..];
    s, c := sum, count;
    var i := 0;
    while i < n
      invariant i <= n && (s, c) == Totals(data[off..off + i], (sum, count), d)
    {
      assert data[off..off + (i + 1)][..i] == data[off..off + i];
      var v := Transform(a[off + i]);
      if Keep(v, d) {
        s, c := Low64(s + v), Low64(c + 1);
      }
      i := i + 1;
    }
  }

  /** The part of struct job that a block changes. */
  class Job {
    const total: nat
    var length: nat
    var done: nat
    var sum: nat
    var kept: nat
    var blocks: nat

    constructor (baseBlocks: nat)
      ensures total == baseBlocks * 65536 && done == 0 && sum == 0 && kept == 0 && blocks == 0
    {
      total := baseBlocks * 65536;
      length, done, sum, kept, blocks := 0, 0, 0, 0, 0;
    }

    /** main's formula for the number of blocks. */
    method SetLength(nrec: nat, block: nat)
      requires 0 < nrec && 0 < block
      modifies this`length
      ensures length == Length(total, nrec, block) == Spans(0, total, nrec, block)
    {
      var full, tail := total / nrec, total % nrec;
      PlaceIsRemainder(total, nrec);
      BlocksOfIsCeiling(nrec, block);
      BlocksOfIsCeiling(tail, block);
      SpansAreLength(total, nrec, block);
      length := full * ((nrec + block - 1) / block) + (tail + block - 1) / block;
    }

    /** job_block_span, with the program's operators. */
    method BlockSpan(nrec: nat, block: nat) returns (off: nat, n: nat)
      requires 0 < nrec && 0 < block
      ensures (off, n) == Span(done, total, nrec, block)
    {
      if done >= total {
        return 0, 0;
      }
      PlaceIsRemainder(done, nrec);
      off := done % nrec;
      var left := total - done;
      n := if block < nrec - off then block else nrec - off;
      n := if left < n then left else n;
    }

    /** The job's totals are those of the records done so far. */
    ghost predicate Valid(data: seq<Word>, d: nat)
      reads this
    {
      0 < |data| && done <= total && (sum, kept) == Totals(Repeated(data, 0, done), (0, 0), d)
    }

    /** One block as a worker has to process it. */
    method RunBlock(data: array<Word>, block: nat, d: nat)
      requires Valid(data[..], d) && 0 < block && done < total
      modifies this
      ensures length == old(length) && blocks == old(blocks) + 1
      ensures done == old(done) + Span(old(done), total, data.Length, block).1
      ensures Valid(data[..], d)
    {
      var off, n := BlockSpan(data.Length, block);
      var s, c := AddBlock(data, off, n, d, sum, kept);
      BlockAdds(data[..], done, total, block, d);
      sum, kept, done, blocks := s, c, done + n, blocks + 1;
    }

    /** The whole job: it takes as many blocks as main computed, and main's checks of it succeed. */
    method Run(data: array<Word>, block: nat, d: nat) returns (ok: bool)
      requires Valid(data[..], d) && 0 < block && done == 0 && blocks == 0
      modifies this
      ensures done == total && blocks == length == Length(total, data.Length, block) && ok
      ensures Valid(data[..], d)
    {
      SetLength(data.Length, block);
      while done < total
        invariant length == Length(total, data.Length, block)
        invariant blocks + Spans(done, total, data.Length, block) == length
        invariant Valid(data[..], d)
        decreases total - done
      {
        RunBlock(data, block, d);
      }
      ok := Check(data, d);
    }

    /** main compares the job's totals with passes times the data's plus the tail's. */
    method Check(data: array<Word>, d: nat) returns (ok: bool)
      requires 0 < data.Length
      ensures ok == (done == total && blocks == length
          && (sum, kept) == Totals(Repeated(data[..], 0, total), (0, 0), d))
    {
      var nrec := data.Length;
      var q, r := total / nrec, total % nrec;
      PlaceIsRemainder(total, nrec);
      var fullSum, fullCount := ReferenceAggregate(data, nrec, d);
      var tailSum, tailCount := ReferenceAggregate(data, r, d);
      assert data[..nrec] == data[..] && data[..r] == data[..][..r];
      JobTotals(data[..], total, d);
      ok := done == total && blocks == length && sum == Reference(fullSum, q, tailSum)
          && kept == Reference(fullCount, q, tailCount);
    }
  }
}
