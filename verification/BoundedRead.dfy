/** Reading a file of limited size through reads that may be short. */
module BoundedRead {

  datatype Result = Ok(bytes: seq<int>) | SizeLimit

  const BLOCK: nat := 65536

  /** What the `t`-th read returns, at a position, for a buffer of a size. */
  type Reads = (nat, nat, nat) -> seq<int>

  /** A read never returns more than its buffer holds. */
  ghost predicate Bounded(read: Reads) {
    forall t, pos, n :: |read(t, pos, n)| <= n
  }

  /** The data is the next part of the content: at least a byte before its end, nothing at it. */
  ghost predicate NextPart(content: seq<int>, pos: nat, n: nat, data: seq<int>) {
    if pos < |content| then
      n > 0 ==> 0 < |data| <= n && pos + |data| <= |content| && data == content[pos..pos + |data|]
    else data == []
  }

  /** The file has this content throughout, however short the reads are cut. */
  ghost predicate Stable(read: Reads, content: seq<int>) {
    forall t, pos, n :: NextPart(content, pos, n, read(t, pos, n))
  }

  function Flatten(chunks: seq<seq<int>>): seq<int> {
    if chunks == [] then [] else Flatten(chunks[..|chunks| - 1]) + chunks[|chunks| - 1]
  }

  lemma FlattenSnoc(chunks: seq<seq<int>>, chunk: seq<int>)
    ensures Flatten(chunks + [chunk]) == Flatten(chunks) + chunk
  {
    assert (chunks + [chunk])[..|chunks|] == chunks;
  }

  function Min(a: nat, b: nat): (m: nat)
    ensures m <= a && m <= b && (m == a || m == b)
  {
    if a < b then a else b
  }

  /** The part of the content that has been read, and the number of reads so far. */
  ghost predicate Progress(read: Reads, content: seq<int>, chunks: seq<seq<int>>, total: nat, steps: nat, limit: nat) {
    && |Flatten(chunks)| == total <= limit && steps <= total
    && (Stable(read, content) ==> Flatten(chunks) <= content)
  }

  /** One more piece of data was read. */
  lemma ReadMore(read: Reads, content: seq<int>, chunks: seq<seq<int>>, total: nat, steps: nat, limit: nat, n: nat)
    requires Progress(read, content, chunks, total, steps, limit) && n > 0
    requires 0 < |read(steps, total, n)|
    ensures var data := read(steps, total, n);
            && Flatten(chunks + [data]) == Flatten(chunks) + data
            && (Stable(read, content) ==> Flatten(chunks + [data]) <= content)
            && (total + |data| <= limit ==> Progress(read, content, chunks + [data], total + |data|, steps + 1, limit))
  {
    var data := read(steps, total, n);
    FlattenSnoc(chunks, data);
    if Stable(read, content) {
      assert NextPart(content, total, n, data);
      assert Flatten(chunks) == content[..total];
      assert content[..total] + content[total..total + |data|] == content[..total + |data|];
    }
  }

  /** Reads with a first buffer sized to the file and a one-byte probe after every short read.

      Whatever the reads return, the result is within the limit and at most `limit + 1` reads are
      made. If the file has a stable content, then for every way of cutting reads short the result
      is exactly that content, or the size error if the content or the reported size is too large. */
  method ReadFile(read: Reads, size: nat, limit: nat, ghost content: seq<int>) returns (r: Result, steps: nat)
    requires Bounded(read)
    ensures steps <= limit + 1
    ensures r.Ok? ==> |r.bytes| <= limit
    ensures Stable(read, content) ==> r == if size > limit || |content| > limit then SizeLimit else Ok(content)
  {
    hide Flatten, Stable, Bounded;
    steps := 0;
    if size > limit {
      return SizeLimit, steps;
    }
    var chunks: seq<seq<int>> := [];
    var total: nat := 0;
    NothingRead(read, content, limit);
    while true
      invariant Progress(read, content, chunks, total, steps, limit)
      decreases limit - total
    {
      hide Progress;
      LimitKept(read, content, chunks, total, steps, limit);
      var n := Min(if |chunks| > 0 then BLOCK else size + 1, limit + 1 - total);
      var data := read(steps, total, n);
      AtMost(read, steps, total, n);
      if |data| == 0 {
        AtEnd(read, content, chunks, total, steps, limit, n);
        steps := steps + 1;
        break;
      }
      ReadMore(read, content, chunks, total, steps, limit, n);
      if total + |data| > limit {
        TooLong(read, content, chunks + [data], limit);
        return SizeLimit, steps + 1;
      }
      chunks, total, steps := chunks + [data], total + |data|, steps + 1;
      LimitKept(read, content, chunks, total, steps, limit);
      if |data| < n {
        var probe := read(steps, total, 1);
        AtMost(read, steps, total, 1);
        if |probe| == 0 {
          AtEnd(read, content, chunks, total, steps, limit, 1);
          steps := steps + 1;
          break;
        }
        ReadMore(read, content, chunks, total, steps, limit, 1);
        if total + 1 > limit {
          TooLong(read, content, chunks + [probe], limit);
          return SizeLimit, steps + 1;
        }
        chunks, total, steps := chunks + [probe], total + 1, steps + 1;
      }
    }
    r := Ok(Flatten(chunks));
  }

  lemma NothingRead(read: Reads, content: seq<int>, limit: nat)
    ensures Progress(read, content, [], 0, 0, limit)
  {
  }

  lemma LimitKept(read: Reads, content: seq<int>, chunks: seq<seq<int>>, total: nat, steps: nat, limit: nat)
    requires Progress(read, content, chunks, total, steps, limit)
    ensures |Flatten(chunks)| == total <= limit && steps <= total
  {
  }

  lemma AtMost(read: Reads, t: nat, pos: nat, n: nat)
    requires Bounded(read)
    ensures |read(t, pos, n)| <= n
  {
  }

  /** An empty read means that everything has been read. */
  lemma AtEnd(read: Reads, content: seq<int>, chunks: seq<seq<int>>, total: nat, steps: nat, limit: nat, n: nat)
    requires Progress(read, content, chunks, total, steps, limit) && n > 0
    requires |read(steps, total, n)| == 0
    ensures Stable(read, content) ==> Flatten(chunks) == content && |content| <= limit
  {
    if Stable(read, content) {
      assert NextPart(content, total, n, read(steps, total, n));
    }
  }

  lemma TooLong(read: Reads, content: seq<int>, chunks: seq<seq<int>>, limit: nat)
    requires Stable(read, content) ==> Flatten(chunks) <= content
    requires |Flatten(chunks)| > limit
    ensures Stable(read, content) ==> |content| > limit
  {
  }
}
