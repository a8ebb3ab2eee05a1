/**
 Two drains copy a command's output into one shared budget; the service then
 cuts the pair to the size it reports.  A run is any interleaving of the reads
 of the two drains.
 */
module Capture {
  import opened Base

  type Byte = x: int | 0 <= x < 256

  const MAX_TOOL_OUTPUT := 256 * 1024

  /** One read, of whatever size. */
  datatype Chunk = Chunk(stdout: bool, data: seq<Byte>)

  datatype Pair = Pair(remaining: int, stdout: seq<Byte>, stderr: seq<Byte>, stdoutTruncated: bool, stderrTruncated: bool)

  function New(limit: int): Pair {
    Pair(limit, [], [], false, false)
  }

  /** What the program wrote to one stream. */
  function Written(chunks: seq<Chunk>, stdout: bool): seq<Byte> {
    if chunks == [] then []
    else
      var c := chunks[|chunks| - 1];
      Written(chunks[..|chunks| - 1], stdout) + if c.stdout == stdout then c.data else []
  }

  function Take(p: Pair, c: Chunk): Pair
    requires p.remaining >= 0
  {
    var n := Min(|c.data|, p.remaining);
    if c.stdout then
      p.(remaining := p.remaining - n, stdout := p.stdout + c.data[..n], stdoutTruncated := p.stdoutTruncated || n < |c.data|)
    else
      p.(remaining := p.remaining - n, stderr := p.stderr + c.data[..n], stderrTruncated := p.stderrTruncated || n < |c.data|)
  }

  function TakeAll(limit: nat, chunks: seq<Chunk>): (p: Pair)
    ensures p.remaining >= 0
  {
    if chunks == [] then New(limit) else Take(TakeAll(limit, chunks[..|chunks| - 1]), chunks[|chunks| - 1])
  }

  // ---------------------------------------------------------------------------
  // The shared budget

  /** Each buffer is a prefix of its stream, its flag says whether a proper one, and the budget is never left unused. */
  predicate Holds(p: Pair, limit: int, out: seq<Byte>, err: seq<Byte>) {
    && p.stdout <= out && p.stderr <= err
    && (p.stdoutTruncated <==> p.stdout != out) && (p.stderrTruncated <==> p.stderr != err)
    && p.remaining == limit - |p.stdout| - |p.stderr| >= 0
    && (p.remaining > 0 ==> p.stdout == out && p.stderr == err)
  }

  lemma AcceptHolds(p: Pair, limit: int, out: seq<Byte>, err: seq<Byte>, c: Chunk)
    requires Holds(p, limit, out, err)
    ensures Holds(Take(p, c), limit, if c.stdout then out + c.data else out, if c.stdout then err else err + c.data)
  {
    var n := Min(|c.data|, p.remaining);
    var had, made := if c.stdout then p.stdout else p.stderr, if c.stdout then out else err;
    if p.remaining > 0 {
      assert had + c.data[..n] <= made + c.data;
      assert n < |c.data| ==> |had + c.data[..n]| < |made + c.data|;
      assert n == |c.data| ==> had + c.data[..n] == made + c.data;
    } else {
      assert had + c.data[..n] == had;
      assert had != made ==> |had| < |made|;
    }
  }

  lemma {:induction false} DrainsHold(limit: nat, chunks: seq<Chunk>)
    ensures Holds(TakeAll(limit, chunks), limit, Written(chunks, true), Written(chunks, false))
  {
    if chunks != [] {
      var before := chunks[..|chunks| - 1];
      DrainsHold(limit, before);
      AcceptHolds(TakeAll(limit, before), limit, Written(before, true), Written(before, false), chunks[|chunks| - 1]);
    }
  }

  // ---------------------------------------------------------------------------
  // The reported result

  datatype Report = Report(stdout: seq<Byte>, stderr: seq<Byte>, truncated: bool)

  function Truncate(stdout: seq<Byte>, stderr: seq<Byte>, maximum: nat): Report {
    if |stdout| + |stderr| <= maximum then Report(stdout, stderr, false)
    else
      var n := Min(|stdout|, maximum);
      Report(stdout[..n], stderr[..Min(|stderr|, maximum - n)], true)
  }

  /** The capture keeps one byte more than is reported, so that a full report can be told from a cut one. */
  function Reported(chunks: seq<Chunk>): Report {
    var p := TakeAll(MAX_TOOL_OUTPUT + 1, chunks);
    Truncate(p.stdout, p.stderr, MAX_TOOL_OUTPUT)
  }

  /**
   Whatever the interleaving, a result is flagged exactly when the command wrote
   more than is reported; otherwise both streams are complete, and a flagged
   result holds a prefix of each, together exactly the maximum.
   */
  lemma ReportIsHonest(chunks: seq<Chunk>)
    ensures var r, out, err := Reported(chunks), Written(chunks, true), Written(chunks, false);
            && (r.truncated <==> |out| + |err| > MAX_TOOL_OUTPUT)
            && (!r.truncated ==> r.stdout == out && r.stderr == err)
            && r.stdout <= out && r.stderr <= err
            && (r.truncated ==> |r.stdout| + |r.stderr| == MAX_TOOL_OUTPUT)
  {
    DrainsHold(MAX_TOOL_OUTPUT + 1, chunks);
  }

  /** Two interleavings of the same output are flagged alike. */
  lemma FlagIgnoresSchedule(a: seq<Chunk>, b: seq<Chunk>)
    requires Written(a, true) == Written(b, true) && Written(a, false) == Written(b, false)
    ensures Reported(a).truncated == Reported(b).truncated
    ensures !Reported(a).truncated ==> Reported(a) == Reported(b)
  {
    ReportIsHonest(a);
    ReportIsHonest(b);
  }

  // ---------------------------------------------------------------------------
  // In place

  class CapturePair {
    var remaining: int
    var stdout: seq<Byte>
    var stderr: seq<Byte>
    var stdoutTruncated: bool
    var stderrTruncated: bool

    function Now(): Pair
      reads this
    {
      Pair(remaining, stdout, stderr, stdoutTruncated, stderrTruncated)
    }

    constructor (limit: int)
      ensures Now() == New(limit)
    {
      remaining, stdout, stderr, stdoutTruncated, stderrTruncated := limit, [], [], false, false;
    }

    /** The locked section of a drain after one read. */
    method Accept(c: Chunk)
      requires remaining >= 0
      modifies this
      ensures Now() == Take(old(Now()), c)
    {
      var accepted := |c.data|;
      if accepted > remaining {
        accepted := remaining;
      }
      if c.stdout {
        stdout := stdout + c.data[..accepted];
        stdoutTruncated := stdoutTruncated || accepted < |c.data|;
      } else {
        stderr := stderr + c.data[..accepted];
        stderrTruncated := stderrTruncated || accepted < |c.data|;
      }
      remaining := remaining - accepted;
    }
  }

  /** Both drains to their ends, in the order their reads happen to come. */
  method Drain(limit: nat, chunks: seq<Chunk>) returns (p: CapturePair)
    ensures fresh(p) && p.Now() == TakeAll(limit, chunks)
  {
    p := new CapturePair(limit);
    var i := 0;
    while i < |chunks|
      invariant 0 <= i <= |chunks| && fresh(p) && p.Now() == TakeAll(limit, chunks[..i])
    {
      assert chunks[..i + 1][..i] == chunks[..i];
      p.Accept(chunks[i]);
      i := i + 1;
    }
    assert chunks[..i] == chunks;
  }

  method TruncateOutput(stdout: seq<Byte>, stderr: seq<Byte>, maximum: nat) returns (r: Report)
    ensures r == Truncate(stdout, stderr, maximum)
    ensures r.stdout <= stdout && r.stderr <= stderr
    ensures |r.stdout| + |r.stderr| == Min(|stdout| + |stderr|, maximum) && (r.truncated <==> |stdout| + |stderr| > maximum)
  {
    if |stdout| + |stderr| <= maximum {
      return Report(stdout, stderr, false);
    }
    var stdoutLimit := |stdout|;
    if stdoutLimit > maximum {
      stdoutLimit := maximum;
    }
    var left := maximum - stdoutLimit;
    var stderrLimit := |stderr|;
    if stderrLimit > left {
      stderrLimit := left;
    }
    return Report(stdout[..stdoutLimit], stderr[..stderrLimit], true);
  }
}
