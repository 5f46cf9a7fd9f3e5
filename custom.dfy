/** The range helpers of `GethCustomHttp` (`connectors/http/custom.py`):
    block and log ranges fetched in chunks of at most 201 heights, and the
    binary search of the first block at or after a timestamp. Web3 calls
    (`get_logs`, `eth_get_block`, `eth_block_number`) and the clock are
    parameters. */
module Custom {
  import opened Common
  import opened Numerals
  import opened JsonValue
  import opened Exceptions
  import opened Geth
  import opened HttpClient

  /** The heights `range(lo, hi + 1)`. */
  function Range(lo: int, hi: int): (r: seq<int>)
    ensures |r| == if hi < lo then 0 else hi - lo + 1
    ensures forall k :: 0 <= k < |r| ==> r[k] == lo + k
  {
    seq(if hi < lo then 0 else hi - lo + 1, k => lo + k)
  }

  lemma RangeSplit(lo: int, mid: int, hi: int)
    requires lo <= mid + 1 && mid <= hi
    ensures Range(lo, mid) + Range(mid + 1, hi) == Range(lo, hi)
  {
  }

  /** The sub-ranges of a long range: `[i, min(i + 200, end)]` for
      `i in range(start, end + 1, 201)`, listed from `i` on. */
  function ChunksFrom(i: int, end: int): seq<(int, int)>
    decreases end - i + 1
  {
    if i > end then []
    else [(i, if i + 200 > end then end else i + 200)] + ChunksFrom(i + 201, end)
  }

  /** The ranges a call on `[start, end]` fetches in its leaf branch: the
      range itself when it spans at most 200, else its chunks. */
  function Chunks(start: int, end: int): seq<(int, int)> {
    if end - start > 200 then ChunksFrom(start, end) else [(start, end)]
  }

  /** The heights the chunks cover, chunk after chunk. */
  function Flatten(chunks: seq<(int, int)>): seq<int> {
    if chunks == [] then [] else Range(chunks[0].0, chunks[0].1) + Flatten(chunks[1..])
  }

  lemma {:induction false} ChunksFromCover(i: int, end: int)
    requires i <= end + 1
    ensures Flatten(ChunksFrom(i, end)) == Range(i, end)
    ensures forall c :: c in ChunksFrom(i, end) ==> c.0 <= c.1 <= c.0 + 200
    decreases end - i + 1
  {
    if i <= end {
      var hi := if i + 200 > end then end else i + 200;
      if i + 201 <= end + 1 {
        ChunksFromCover(i + 201, end);
      } else {
        assert ChunksFrom(i + 201, end) == [];
      }
      RangeSplit(i, hi, end);
    }
  }

  /** The chunks cover `[start, end]` exactly, in ascending order and without
      overlap, and each spans at most 200, so the recursive call made for it
      takes the leaf branch. */
  lemma ChunksCover(start: int, end: int)
    ensures Flatten(Chunks(start, end)) == Range(start, end)
    ensures end - start > 200 ==> forall c :: c in Chunks(start, end) ==> c.0 <= c.1 <= c.0 + 200
  {
    if end - start > 200 {
      ChunksFromCover(start, end);
    } else {
      assert Flatten([(start, end)]) == Range(start, end) + Flatten([]);
    }
  }

  /** `("eth_getBlockByNumber", [hex(h), False])`. */
  function BlockCall(h: int): Call {
    Call("eth_getBlockByNumber", Some([JStr(Hex(h)), JBool(false)]))
  }

  /** The requests of the leaf branch of `get_blocks_by_numbers`: one per
      height, ascending. */
  function BlockCalls(start: int, end: int): (calls: seq<Call>)
    ensures |calls| == |Range(start, end)|
  {
    seq(|Range(start, end)|, k requires 0 <= k < |Range(start, end)| => BlockCall(start + k))
  }

  /** The leaf branch of `get_blocks_by_numbers`, with the id counter before
      and after: any error reply raises one `GethError` with all their
      details; otherwise the successes' results, in reply order. */
  function BlocksLeaf(post: Json -> Reply, id: nat, start: int, end: int): (r: (Outcome<seq<Json>>, nat))
    ensures r.0.Raise? ==> r.0.exc in {RequestError, JsonDecodeError, ValidationError, TypeError} || r.0.exc.GethErr?
    ensures r.1 == IdAfter(id, |Range(start, end)|)
  {
    var calls := BlockCalls(start, end);
    var r :=
      match BatchOutcome(post, id, calls)
      case Raise(e) => Raise(e)
      case Ok((success, errors)) =>
        if |errors| != 0 then Raise(GethErr(GethErrorOfList(seq(|errors|, k requires 0 <= k < |errors| => errors[k].error))))
        else Ok(seq(|success|, k requires 0 <= k < |success| => success[k].result));
    (r, IdAfter(id, |calls|))
  }

  /** The chunk loop: each chunk's blocks appended in order; the first
      failure ends the loop and discards what was fetched. */
  function BlocksOver(post: Json -> Reply, id: nat, chunks: seq<(int, int)>): (r: (Outcome<seq<Json>>, nat))
    ensures r.0.Raise? ==> r.0.exc in {RequestError, JsonDecodeError, ValidationError, TypeError}
    decreases |chunks|
  {
    if chunks == [] then (Ok([]), id)
    else
      BlocksLeafNeverRaisesGethError(post, id, chunks[0].0, chunks[0].1);
      var (first, id1) := BlocksLeaf(post, id, chunks[0].0, chunks[0].1);
      if first.Raise? then (first, id1)
      else Prepend(first.value, BlocksOver(post, id1, chunks[1..]))
  }

  /** `acc + results` unless the results are an exception. */
  function Prepend(acc: seq<Json>, r: (Outcome<seq<Json>>, nat)): (p: (Outcome<seq<Json>>, nat))
    ensures p.1 == r.1 && (p.0.Ok? <==> r.0.Ok?)
    ensures r.0.Raise? ==> p == r
  {
    if r.0.Raise? then r else (Ok(acc + r.0.value), r.1)
  }

  lemma PrependTwice(a: seq<Json>, b: seq<Json>, r: (Outcome<seq<Json>>, nat))
    ensures Prepend(a, Prepend(b, r)) == Prepend(a + b, r)
  {
    if r.0.Ok? {
      assert a + (b + r.0.value) == (a + b) + r.0.value;
    }
  }

  /** `get_blocks_by_numbers(start, end)` with the id counter before and
      after. */
  function Blocks(post: Json -> Reply, id: nat, start: int, end: int): (r: (Outcome<seq<Json>>, nat))
    ensures r.0.Raise? ==> r.0.exc in {RequestError, JsonDecodeError, ValidationError, TypeError}
  {
    BlocksLeafNeverRaisesGethError(post, id, start, end);
    if end - start > 200 then BlocksOver(post, id, ChunksFrom(start, end)) else BlocksLeaf(post, id, start, end)
  }

  /** The blocks a reply of `n` successes yields: their results, in order,
      after one id per requested height. */
  lemma BlocksLeafResults(post: Json -> Reply, id: nat, start: int, end: int, items: seq<Json>)
    requires post(BatchJson(BatchRequests(id, BlockCalls(start, end)))) == Received(Some(JArr(items)))
    requires forall k :: 0 <= k < |items| ==> ParseSuccess(items[k]).Ok?
    ensures BlocksLeaf(post, id, start, end) ==
      (Ok(seq(|items|, k requires 0 <= k < |items| => ParseSuccess(items[k]).value.result)),
       IdAfter(id, |Range(start, end)|))
  {
    PartitionIsItemwise(items);
    var success := Partition(items).value.0;
    assert BatchOutcome(post, id, BlockCalls(start, end)) == Ok((success, []));
    assert seq(|success|, k requires 0 <= k < |success| => success[k].result)
        == seq(|items|, k requires 0 <= k < |items| => ParseSuccess(items[k]).value.result);
  }

  /** The `GethError` branch of the leaf is never taken: a batch that parses
      has no error replies. */
  lemma BlocksLeafNeverRaisesGethError(post: Json -> Reply, id: nat, start: int, end: int)
    ensures BlocksLeaf(post, id, start, end).0.Raise? ==> !BlocksLeaf(post, id, start, end).0.exc.GethErr?
  {
    match post(BatchJson(BatchRequests(id, BlockCalls(start, end))))
    case RequestFailed =>
    case Received(body) =>
      if ParseBatch(body).Ok? {
        BatchErrorsEmpty(body);
        assert BatchOutcome(post, id, BlockCalls(start, end)) == Ok((ParseBatch(body).value.0, []));
      }
  }

  /** A successful fetch of chunks uses one id per height of the chunks. */
  lemma {:induction false} BlocksOverIds(post: Json -> Reply, id: nat, chunks: seq<(int, int)>)
    requires BlocksOver(post, id, chunks).0.Ok?
    ensures BlocksOver(post, id, chunks).1 == IdAfter(id, |Flatten(chunks)|)
    decreases |chunks|
  {
    if chunks != [] {
      var id1 := BlocksLeaf(post, id, chunks[0].0, chunks[0].1).1;
      BlocksOverIds(post, id1, chunks[1..]);
      IdAfterAdds(id, |Range(chunks[0].0, chunks[0].1)|, |Flatten(chunks[1..])|);
    }
  }

  /** However the range is chunked, a successful `get_blocks_by_numbers`
      allocates exactly one request id per height of `[start, end]`. */
  lemma BlocksIdsPerHeight(post: Json -> Reply, id: nat, start: int, end: int)
    requires Blocks(post, id, start, end).0.Ok?
    ensures Blocks(post, id, start, end).1 == IdAfter(id, |Range(start, end)|)
  {
    if end - start > 200 {
      BlocksOverIds(post, id, ChunksFrom(start, end));
      ChunksFromCover(start, end);
    }
  }

  /** `get_blocks_by_numbers`; the results are the raw block documents. */
  method GetBlocksByNumbers(c: Client, start: int, end: int) returns (r: Outcome<seq<Json>>)
    requires c.Valid()
    modifies c
    ensures c.Valid()
    ensures (r, c.id) == Blocks(c.post, old(c.id), start, end)
    decreases if end - start > 200 then 1 else 0
  {
    if end - start > 200 {
      ghost var id0 := c.id;
      var results: seq<Json> := [];
      var i := start;
      assert Prepend(results, BlocksOver(c.post, c.id, ChunksFrom(i, end))) == BlocksOver(c.post, c.id, ChunksFrom(i, end)) by {
        var rest := BlocksOver(c.post, c.id, ChunksFrom(i, end));
        if rest.0.Ok? {
          assert results + rest.0.value == rest.0.value;
        }
      }
      while i <= end
        invariant start <= i <= end + 201
        invariant c.Valid()
        invariant Blocks(c.post, id0, start, end) == Prepend(results, BlocksOver(c.post, c.id, ChunksFrom(i, end)))
        decreases end - i + 1
      {
        var hi := if i + 200 > end then end else i + 200;
        ghost var before := c.id;
        var part := GetBlocksByNumbers(c, i, hi);
        assert ChunksFrom(i, end)[0] == (i, hi) && ChunksFrom(i, end)[1..] == ChunksFrom(i + 201, end);
        if part.Raise? {
          return part;
        }
        assert (part, c.id) == BlocksLeaf(c.post, before, i, hi);
        assert BlocksOver(c.post, before, ChunksFrom(i, end)) == Prepend(part.value, BlocksOver(c.post, c.id, ChunksFrom(i + 201, end)));
        PrependTwice(results, part.value, BlocksOver(c.post, c.id, ChunksFrom(i + 201, end)));
        results := results + part.value;
        i := i + 201;
      }
      assert results + [] == results;
      r := Ok(results);
    } else {
      r := FetchBlocksLeaf(c, start, end);
    }
  }

  /** The leaf branch of `get_blocks_by_numbers`: one request per height,
      sent as one batch. */
  method FetchBlocksLeaf(c: Client, start: int, end: int) returns (r: Outcome<seq<Json>>)
    requires c.Valid()
    modifies c
    ensures c.Valid()
    ensures (r, c.id) == BlocksLeaf(c.post, old(c.id), start, end)
  {
    var calls: seq<Call> := [];
    var h := start;
    while h <= end
      invariant start <= h && (start <= end ==> h <= end + 1)
      invariant start > end ==> h == start
      invariant calls == BlockCalls(start, h - 1)
    {
      calls := calls + [BlockCall(h)];
      h := h + 1;
    }
    if start <= end {
      assert h == end + 1;
    } else {
      assert |BlockCalls(start, end)| == 0;
    }
    assert calls == BlockCalls(start, end);
    var batch := c.SendMultiple(calls);
    if batch.Raise? {
      return Raise(batch.exc);
    }
    var (success, errors) := batch.value;
    if |errors| != 0 {
      return Raise(GethErr(GethErrorOfList(seq(|errors|, k requires 0 <= k < |errors| => errors[k].error))));
    }
    r := Ok(seq(|success|, k requires 0 <= k < |success| => success[k].result));
  }

  /** The chunk loop of `get_logs_by_blocks`: every chunk's logs appended in
      order, the first failure ending the loop. */
  function LogsOver(getLogs: (int, int) -> Outcome<seq<Json>>, chunks: seq<(int, int)>): (r: Outcome<seq<Json>>)
    ensures r.Ok? <==> forall k :: 0 <= k < |chunks| ==> getLogs(chunks[k].0, chunks[k].1).Ok?
    decreases |chunks|
  {
    if chunks == [] then Ok([])
    else
      match getLogs(chunks[0].0, chunks[0].1)
      case Raise(e) => Raise(e)
      case Ok(first) =>
        match LogsOver(getLogs, chunks[1..])
        case Raise(e) => Raise(e)
        case Ok(rest) => Ok(first + rest)
  }

  /** `get_logs_by_blocks(start, end)`; `getLogs(from, to)` stands for
      `get_logs` with the filter for that range. */
  function Logs(getLogs: (int, int) -> Outcome<seq<Json>>, start: int, end: int): (r: Outcome<seq<Json>>)
    ensures var rs := LogRanges(start, end);
      r.Ok? <==> forall k :: 0 <= k < |rs| ==> getLogs(rs[k].0, rs[k].1).Ok?
  {
    if end - start > 200 then
      assert LogRanges(start, end) == ChunksFrom(start, end);
      LogsOver(getLogs, ChunksFrom(start, end))
    else
      assert LogRanges(start, end) == [(start, end)] && LogRanges(start, end)[0] == (start, end);
      getLogs(start, end)
  }

  /** The ranges `get_logs_by_blocks` queries: 200-block chunks for a
      wider range, the range itself otherwise. */
  function LogRanges(start: int, end: int): seq<(int, int)> {
    if end - start > 200 then ChunksFrom(start, end) else [(start, end)]
  }

  /** The concatenation of a list of lists. */
  function Concat(parts: seq<seq<Json>>): seq<Json> {
    if parts == [] then [] else parts[0] + Concat(parts[1..])
  }

  /** The chunk loop succeeds exactly when every chunk does, and then its
      result is the chunks' logs, concatenated in chunk order. */
  lemma {:induction false} LogsAllOrNothing(getLogs: (int, int) -> Outcome<seq<Json>>, chunks: seq<(int, int)>)
    ensures LogsOver(getLogs, chunks).Ok? <==> forall k :: 0 <= k < |chunks| ==> getLogs(chunks[k].0, chunks[k].1).Ok?
    ensures LogsOver(getLogs, chunks).Ok? ==>
      LogsOver(getLogs, chunks).value ==
        Concat(seq(|chunks|, k requires 0 <= k < |chunks| && getLogs(chunks[k].0, chunks[k].1).Ok? =>
                                getLogs(chunks[k].0, chunks[k].1).value))
    decreases |chunks|
  {
    if chunks != [] {
      LogsAllOrNothing(getLogs, chunks[1..]);
      assert forall k :: 0 <= k < |chunks| - 1 ==> chunks[1..][k] == chunks[k + 1];
      if LogsOver(getLogs, chunks).Ok? {
        var parts := seq(|chunks|, k requires 0 <= k < |chunks| && getLogs(chunks[k].0, chunks[k].1).Ok? =>
                                getLogs(chunks[k].0, chunks[k].1).value);
        var tail := seq(|chunks| - 1, k requires 0 <= k < |chunks| - 1 && getLogs(chunks[1..][k].0, chunks[1..][k].1).Ok? =>
                                getLogs(chunks[1..][k].0, chunks[1..][k].1).value);
        assert parts[1..] == tail;
      }
    }
  }

  /** `get_logs_by_blocks`. */
  method GetLogsByBlocks(getLogs: (int, int) -> Outcome<seq<Json>>, start: int, end: int) returns (r: Outcome<seq<Json>>)
    ensures r == Logs(getLogs, start, end)
    decreases if end - start > 200 then 1 else 0
  {
    if end - start > 200 {
      var results: seq<Json> := [];
      var i := start;
      assert LogsOver(getLogs, ChunksFrom(i, end)).Ok? ==>
        results + LogsOver(getLogs, ChunksFrom(i, end)).value == LogsOver(getLogs, ChunksFrom(i, end)).value;
      while i <= end
        invariant start <= i <= end + 201
        invariant Logs(getLogs, start, end) ==
          (match LogsOver(getLogs, ChunksFrom(i, end))
           case Raise(e) => Raise(e)
           case Ok(rest) => Ok(results + rest))
        decreases end - i + 1
      {
        var hi := if i + 200 > end then end else i + 200;
        var part := GetLogsByBlocks(getLogs, i, hi);
        assert ChunksFrom(i, end)[0] == (i, hi) && ChunksFrom(i, end)[1..] == ChunksFrom(i + 201, end);
        if part.Raise? {
          return part;
        }
        ghost var rest := LogsOver(getLogs, ChunksFrom(i + 201, end));
        assert rest.Ok? ==> results + (part.value + rest.value) == (results + part.value) + rest.value;
        results := results + part.value;
        i := i + 201;
      }
      assert results + [] == results;
      r := Ok(results);
    } else {
      r := getLogs(start, end);
    }
  }

  /** `_binary_search(start, end, target)` over the timestamps `ts`: the
      middle is `(start + end) // 2`; a range of at most two heights gives
      `start` when the middle's timestamp has reached the target, else
      `end`; an exact hit gives the middle; otherwise the half on the
      target's side, the middle included. */
  function BinarySearch(ts: int -> int, start: int, end: int, target: int): (h: int)
    ensures start <= end ==> start <= h <= end
    ensures end < start ==> h == start || h == end
    decreases end - start
  {
    var middle := (start + end) / 2;
    if end - start <= 1 then (if ts(middle) >= target then start else end)
    else if ts(middle) == target then middle
    else if ts(middle) > target then BinarySearch(ts, start, middle, target)
    else BinarySearch(ts, middle, end, target)
  }

  predicate StrictlyIncreasing(ts: int -> int, start: int, end: int) {
    forall a, b :: start <= a < b <= end ==> ts(a) < ts(b)
  }

  /** With increasing timestamps that bracket the target, the search finds
      the first height whose timestamp has reached it. */
  lemma {:induction false} BinarySearchFindsFirst(ts: int -> int, start: int, end: int, target: int)
    requires start <= end && StrictlyIncreasing(ts, start, end)
    requires ts(start) < target <= ts(end)
    ensures var h := BinarySearch(ts, start, end, target);
      start < h <= end && ts(h) >= target && ts(h - 1) < target
    decreases end - start
  {
    var middle := (start + end) / 2;
    if end - start <= 1 {
      assert end == start + 1 && middle == start;
    } else if ts(middle) == target {
      assert start < middle;
      assert ts(middle - 1) < ts(middle);
    } else {
      if ts(middle) > target {
        BinarySearchFindsFirst(ts, start, middle, target);
      } else {
        BinarySearchFindsFirst(ts, middle, end, target);
      }
    }
  }

  /** The search window of `get_height_after_ts`: with `td = now -
      timestamp` and floor division, `[height - td // 12 - 5, height - td //
      24 + 5]`, neither clamped nor checked. */
  function Window(height: int, now: int, timestamp: int): (w: (int, int))
    ensures timestamp <= now ==> w.1 <= height + 5
    ensures timestamp == now ==> w == (height - 5, height + 5)
  {
    var td := now - timestamp;
    (height - FloorDiv(td, 12) - 5, height - FloorDiv(td, 24) + 5)
  }

  /** Python's `//` for a positive divisor. */
  function FloorDiv(a: int, d: int): (q: int)
    requires d > 0
    ensures q * d <= a < q * d + d
  {
    a / d
  }

  /** For a timestamp in the past the window is ordered and spans at least
      ten heights. */
  lemma WindowOrdered(height: int, now: int, timestamp: int)
    requires timestamp <= now
    ensures Window(height, now, timestamp).0 <= Window(height, now, timestamp).1 - 10
  {
    var td := now - timestamp;
    var q12, q24 := FloorDiv(td, 12), FloorDiv(td, 24);
    assert q24 * 24 <= td < q12 * 12 + 12;
    assert q24 <= q12;
  }

  /** A timestamp more than 240 seconds ahead of `now` inverts the window:
      nothing keeps the search away from heights beyond the chain head. */
  lemma FutureTimestampInvertsWindow(height: int, now: int, k: int)
    requires k > 10
    ensures var w := Window(height, now, now + 24 * k);
      w.0 > w.1 && w.1 > height
  {
    assert FloorDiv(-24 * k, 12) == -2 * k;
    assert FloorDiv(-24 * k, 24) == -k;
  }

  /** `get_height_after_ts(timestamp)`, given the chain head height and the
      clock reading. */
  function HeightAfterTs(ts: int -> int, height: int, now: int, timestamp: int): (h: int)
    ensures var w := Window(height, now, timestamp);
      w.0 <= w.1 ==> w.0 <= h <= w.1
  {
    var (lower, upper) := Window(height, now, timestamp);
    BinarySearch(ts, lower, upper, timestamp)
  }

  /** When the window brackets the timestamp and the chain's timestamps
      increase over it, the height found is the first block at or after the
      timestamp. */
  lemma HeightAfterTsFindsFirst(ts: int -> int, height: int, now: int, timestamp: int)
    requires var (lower, upper) := Window(height, now, timestamp);
      lower <= upper && StrictlyIncreasing(ts, lower, upper) && ts(lower) < timestamp <= ts(upper)
    ensures var h := HeightAfterTs(ts, height, now, timestamp);
      ts(h) >= timestamp && ts(h - 1) < timestamp
  {
    var (lower, upper) := Window(height, now, timestamp);
    BinarySearchFindsFirst(ts, lower, upper, timestamp);
  }
}
