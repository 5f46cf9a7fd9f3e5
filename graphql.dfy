/** `GethGraphQL` of `connectors/http/graphql.py`: the endpoint URL, the
    error check of a GraphQL reply, one block's timestamp, and the
    timestamps of a range of blocks fetched in chunks. The HTTP exchange is
    the `post` oracle; a query is given by its parameters rather than its
    text. */
module GraphQLConnector {
  import opened Common
  import opened Text
  import opened Numerals
  import opened JsonValue
  import opened Exceptions
  import opened Geth
  import opened HttpClient

  /** The two queries the connector sends. */
  datatype Query = BlockQuery(height: int) | BlocksQuery(first: int, last: int)

  /** The GraphQL endpoint: a given URL verbatim; otherwise the node URL
      with "/" appended when it lacks one, then "graphql". */
  function GraphqlUrl(url: string, graphqlUrl: Option<string>): (r: string)
    ensures graphqlUrl.Some? ==> r == graphqlUrl.value
    ensures graphqlUrl.None? ==> StartsWith(r, url) && EndsWith(r, "/graphql")
  {
    match graphqlUrl
    case Some(given) => given
    case None =>
      var base := if EndsWith(url, "/") then url else url + "/";
      var r := base + "graphql";
      assert r[..|url|] == url;
      assert r[|r| - 8..] == "/graphql" by {
        assert r[|r| - 8] == base[|base| - 1] == '/';
        assert r[|r| - 7..] == "graphql";
      }
      r
  }

  /** The slash is added only when it is missing. */
  lemma TrailingSlashAddedOnce(url: string)
    requires !EndsWith(url, "/")
    ensures GraphqlUrl(url, None) == GraphqlUrl(url + "/", None) == url + "/graphql"
  {
    assert EndsWith(url + "/", "/") by {
      assert (url + "/")[|url + "/"| - 1..] == "/";
    }
  }

  /** Python's `key in doc`: a dict's keys, a list's elements, a string's
      substrings; anything else is not iterable. */
  function In(key: string, doc: Json): (r: Outcome<bool>)
    requires |key| > 0
    ensures doc.JObj? ==> r == Ok(key in doc.fields)
    ensures r.Raise? <==> !(doc.JObj? || doc.JArr? || doc.JStr?)
  {
    match doc
    case JObj(m) => Ok(key in m)
    case JArr(items) => Ok(JStr(key) in items)
    case JStr(s) => Ok(FindFrom(s, key, 0).Some?)
    case _ => Raise(TypeError)
  }

  /** `send_query`: a failed exchange raises `RequestError` and a body that
      is not JSON `JSONDecodeError`. A reply with an "error" raises
      `GethGraphQLError(result["error"]["msg"], result["data"])` once both
      lookups succeed and the messages can be joined; any other reply gives
      `result["data"]`. */
  function SendQuery(post: Query -> Reply, q: Query): (r: Outcome<Json>)
    ensures r.Raise? && r.exc.GraphQLErr? ==> GraphQLJoinSucceeds(r.exc.graphql.msgs)
  {
    match post(q)
    case RequestFailed => Raise(RequestError)
    case Received(None) => Raise(JsonDecodeError)
    case Received(Some(doc)) =>
      match In("error", doc)
      case Raise(e) => Raise(e)
      case Ok(hasError) =>
        if !hasError then Subscript(doc, "data")
        else
          match Subscript(doc, "error")
          case Raise(e) => Raise(e)
          case Ok(err) =>
            match Subscript(err, "msg")
            case Raise(e) => Raise(e)
            case Ok(msgs) =>
              match Subscript(doc, "data")
              case Raise(e) => Raise(e)
              case Ok(data) =>
                if GraphQLJoinSucceeds(msgs) then Raise(GraphQLErr(GraphQLError(msgs, data)))
                else Raise(TypeError)
  }

  /** The two outcomes of a well-formed reply: the node's messages and data
      in the exception, or the data. */
  lemma SendQueryReplies(post: Query -> Reply, q: Query, msgs: seq<string>, data: Json)
    ensures var errors := JArr(seq(|msgs|, i requires 0 <= i < |msgs| => JStr(msgs[i])));
      post(q) == Received(Some(JObj(map["error" := JObj(map["msg" := errors]), "data" := data]))) ==>
        SendQuery(post, q) == Raise(GraphQLErr(GraphQLError(errors, data)))
    ensures post(q) == Received(Some(JObj(map["data" := data]))) ==> SendQuery(post, q) == Ok(data)
  {
  }

  /** `int(x, 0)` on a decoded value: only a string is accepted. */
  function TimestampOf(j: Json): (r: Outcome<int>)
    ensures r.Ok? ==> j.JStr? && ParseIntLiteral(j.s) == Some(r.value)
  {
    match j
    case JStr(s) =>
      (match ParseIntLiteral(s)
       case Some(v) => Ok(v)
       case None => Raise(ValueError))
    case _ => Raise(TypeError)
  }

  /** `get_block_ts_by_number`. */
  function BlockTs(post: Query -> Reply, height: int): (r: Outcome<int>)
    ensures r.Raise? ==>
      r.exc in {RequestError, JsonDecodeError, KeyError, TypeError, ValueError} || r.exc.GraphQLErr?
  {
    match SendQuery(post, BlockQuery(height))
    case Raise(e) => Raise(e)
    case Ok(data) =>
      match Subscript(data, "block")
      case Raise(e) => Raise(e)
      case Ok(block) =>
        match Subscript(block, "timestamp")
        case Raise(e) => Raise(e)
        case Ok(ts) => TimestampOf(ts)
  }

  /** The document of one block as the node lists it. */
  function BlockDoc(h: int, ts: int): Json {
    JObj(map["number" := JInt(h), "timestamp" := JStr(Hex(ts))])
  }

  /** A node that answers every query truthfully from the timestamps `ts`. */
  function Node(ts: int -> int): Query -> Reply {
    (q: Query) =>
      match q
      case BlockQuery(h) =>
        Received(Some(JObj(map["data" := JObj(map["block" := JObj(map["timestamp" := JStr(Hex(ts(h)))])])])))
      case BlocksQuery(a, b) =>
        Received(Some(JObj(map["data" := JObj(map["blocks" := JArr(BlockDocs(ts, a, b))])])))
  }

  function BlockDocs(ts: int -> int, a: int, b: int): (ds: seq<Json>)
    ensures |ds| == if b < a then 0 else b - a + 1
  {
    seq(if b < a then 0 else b - a + 1, k => BlockDoc(a + k, ts(a + k)))
  }

  /** The hexadecimal timestamp the node reports reads back. */
  lemma BlockTsFromNode(ts: int -> int, height: int)
    ensures BlockTs(Node(ts), height) == Ok(ts(height))
  {
    var stamp := JStr(Hex(ts(height)));
    var block := JObj(map["timestamp" := stamp]);
    var data := JObj(map["block" := block]);
    var doc := JObj(map["data" := data]);
    assert Node(ts)(BlockQuery(height)) == Received(Some(doc));
    assert In("error", doc) == Ok(false);
    assert SendQuery(Node(ts), BlockQuery(height)) == Ok(data);
    assert Subscript(data, "block") == Ok(block);
    assert Subscript(block, "timestamp") == Ok(stamp);
    assert TimestampOf(stamp) == Ok(ts(height)) by { HexRoundTrip(ts(height)); }
  }

  /** What the dict comprehension iterates over `r["blocks"]`: a list's
      items; an empty string or dict gives nothing, and a non-empty one
      fails on its first element, which cannot be subscripted by a string. */
  function BlockEntries(blocks: Json): Outcome<seq<Json>> {
    match blocks
    case JArr(items) => Ok(items)
    case JStr(s) => if s == "" then Ok([]) else Raise(TypeError)
    case JObj(m) => if |m| == 0 then Ok([]) else Raise(TypeError)
    case _ => Raise(TypeError)
  }

  /** A dict key as Python compares it: `True` and `1` are the same key. */
  function KeyOf(j: Json): Json {
    match j
    case JBool(b) => JInt(if b then 1 else 0)
    case _ => j
  }

  /** One entry `d["number"]: int(d["timestamp"], 0)`: the key first, then
      the value, then the key must be hashable. */
  function Entry(d: Json): (r: Outcome<(Json, int)>)
    ensures r.Raise? ==> r.exc in {KeyError, TypeError, ValueError}
    ensures r.Ok? ==>
      && d.JObj? && "number" in d.fields && "timestamp" in d.fields
      && Hashable(d.fields["number"]) && r.value.0 == KeyOf(d.fields["number"])
      && TimestampOf(d.fields["timestamp"]) == Ok(r.value.1)
  {
    match Subscript(d, "number")
    case Raise(e) => Raise(e)
    case Ok(number) =>
      match Subscript(d, "timestamp")
      case Raise(e) => Raise(e)
      case Ok(t) =>
        match TimestampOf(t)
        case Raise(e) => Raise(e)
        case Ok(v) => if Hashable(number) then Ok((KeyOf(number), v)) else Raise(TypeError)
  }

  /** The dict comprehension: entries in order, a later one overwriting an
      earlier one with the same key. */
  function EntriesMap(ds: seq<Json>): (r: Outcome<map<Json, int>>)
    ensures r.Raise? ==> r.exc in {KeyError, TypeError, ValueError}
    ensures r.Ok? && ds != [] ==>
      var last := Entry(ds[|ds| - 1]);
      last.Ok? && last.value.0 in r.value && r.value[last.value.0] == last.value.1
    decreases |ds|
  {
    if ds == [] then Ok(map[])
    else
      match EntriesMap(ds[..|ds| - 1])
      case Raise(e) => Raise(e)
      case Ok(m) =>
        match Entry(ds[|ds| - 1])
        case Raise(e) => Raise(e)
        case Ok((k, v)) => Ok(m[k := v])
  }

  /** The leaf branch of `get_blocks_ts_by_numbers_range`: one `blocks`
      query for `[first, last]`. */
  function Leaf(post: Query -> Reply, first: int, last: int): (r: Outcome<map<Json, int>>)
    ensures r.Raise? ==>
      r.exc in {RequestError, JsonDecodeError, KeyError, TypeError, ValueError} || r.exc.GraphQLErr?
  {
    match SendQuery(post, BlocksQuery(first, last))
    case Raise(e) => Raise(e)
    case Ok(r) =>
      match Subscript(r, "blocks")
      case Raise(e) => Raise(e)
      case Ok(blocks) =>
        match BlockEntries(blocks)
        case Raise(e) => Raise(e)
        case Ok(ds) => EntriesMap(ds)
  }

  /** The timestamps of the heights in `s`, keyed as the node numbers them. */
  function Expected(ts: int -> int, s: set<int>): map<Json, int> {
    map h | h in s :: JInt(h) := ts(h)
  }

  /** The heights `a..b`. */
  function RangeSet(a: int, b: int): (r: set<int>)
    ensures forall h :: h in r <==> a <= h <= b
    decreases b - a
  {
    if b < a then {} else RangeSet(a, b - 1) + {b}
  }

  lemma EntryOfBlockDoc(h: int, v: int)
    ensures Entry(BlockDoc(h, v)) == Ok((JInt(h), v))
  {
    HexRoundTrip(v);
    assert Subscript(BlockDoc(h, v), "number") == Ok(JInt(h));
    assert Subscript(BlockDoc(h, v), "timestamp") == Ok(JStr(Hex(v)));
  }

  lemma ExpectedExtend(ts: int -> int, a: int, b: int)
    requires a <= b + 1
    ensures Expected(ts, RangeSet(a, b))[JInt(b + 1) := ts(b + 1)] == Expected(ts, RangeSet(a, b + 1))
  {
    assert RangeSet(a, b + 1) == RangeSet(a, b) + {b + 1};
  }

  /** One more entry extends the dict, overwriting its key. */
  lemma EntriesSnoc(ds: seq<Json>, d: Json, m: map<Json, int>, k: Json, v: int)
    requires EntriesMap(ds) == Ok(m) && Entry(d) == Ok((k, v))
    ensures EntriesMap(ds + [d]) == Ok(m[k := v])
  {
    assert (ds + [d])[..|ds + [d]| - 1] == ds;
  }

  lemma EntriesMapWhole(ds: seq<Json>)
    ensures EntriesMap(ds[..|ds|]) == EntriesMap(ds)
  {
    assert ds[..|ds|] == ds;
  }

  lemma {:induction false} EntriesOfNode(ts: int -> int, a: int, b: int, n: nat)
    requires n <= |BlockDocs(ts, a, b)|
    ensures EntriesMap(BlockDocs(ts, a, b)[..n]) == Ok(Expected(ts, RangeSet(a, a + n - 1)))
  {
    var ds := BlockDocs(ts, a, b);
    if n > 0 {
      var h := a + n - 1;
      var d := BlockDoc(h, ts(h));
      var m := Expected(ts, RangeSet(a, h - 1));
      assert ds[..n] == ds[..n - 1] + [d];
      assert EntriesMap(ds[..n]) == Ok(m[JInt(h) := ts(h)]) by {
        EntriesOfNode(ts, a, b, n - 1);
        EntryOfBlockDoc(h, ts(h));
        EntriesSnoc(ds[..n - 1], d, m, JInt(h), ts(h));
      }
      ExpectedExtend(ts, a, h - 1);
    } else {
      assert Expected(ts, RangeSet(a, a - 1)) == map[];
    }
  }

  /** Against a truthful node a leaf yields the timestamp of every height of
      its range. */
  lemma LeafFromNode(ts: int -> int, a: int, b: int)
    ensures Leaf(Node(ts), a, b) == Ok(Expected(ts, RangeSet(a, b)))
  {
    var ds := BlockDocs(ts, a, b);
    var hi := a + |ds| - 1;
    assert RangeSet(a, hi) == RangeSet(a, b) by {
      if b < a {
        assert RangeSet(a, b) == {} && RangeSet(a, hi) == {};
      }
    }
    calc {
      Leaf(Node(ts), a, b);
      { LeafIsEntries(ts, a, b); }
      EntriesMap(ds);
      { EntriesMapWhole(ds); }
      EntriesMap(ds[..|ds|]);
      { EntriesOfNode(ts, a, b, |ds|); }
      Ok(Expected(ts, RangeSet(a, hi)));
    }
  }

  /** A truthful node's reply to a `blocks` query reads as its block
      documents. */
  lemma LeafIsEntries(ts: int -> int, a: int, b: int)
    ensures Leaf(Node(ts), a, b) == EntriesMap(BlockDocs(ts, a, b))
  {
    var ds := BlockDocs(ts, a, b);
    var data := JObj(map["blocks" := JArr(ds)]);
    var doc := JObj(map["data" := data]);
    assert Node(ts)(BlocksQuery(a, b)) == Received(Some(doc));
    assert In("error", doc) == Ok(false);
    assert SendQuery(Node(ts), BlocksQuery(a, b)) == Ok(data);
    assert Subscript(data, "blocks") == Ok(JArr(ds));
  }

  /** The leaf queries `get_blocks_ts_by_numbers_range(first, last, step)`
      makes, in order. A range wider than `step` is walked with starts
      `range(first, last, 5001)`; the chunk at `i` is `[i, i + step]` while
      that ends before `last`, else `[i, last]`, and is fetched by a call
      with the default step 5000. Otherwise `[first, last]` is one query. */
  function Queries(first: int, last: int, step: int): (qs: seq<(int, int)>)
    ensures last - first <= step ==> qs == [(first, last)]
    ensures qs == [] <==> step < last - first <= 0
    ensures qs != [] ==> qs[0].0 == first
    decreases last - first, 1
  {
    if last - first > step then QueriesLoop(first, last, step, first) else [(first, last)]
  }

  function QueriesLoop(first: int, last: int, step: int, i: int): (qs: seq<(int, int)>)
    requires last - first > step && first <= i
    ensures qs == [] <==> i >= last
    ensures i < last ==> qs[0].0 == i
    decreases last - first, 0, last - i
  {
    if i >= last then []
    else (if i + step < last then Queries(i, i + step, 5000) else Queries(i, last, 5000)) + QueriesLoop(first, last, step, i + 5001)
  }

  /** A range wider than `step` is fetched in queries at most 5001 heights
      wide, however large `step` is. */
  lemma {:induction false} QueriesBounded(first: int, last: int, step: int)
    requires last - first > step
    ensures forall q :: q in Queries(first, last, step) ==> q.1 - q.0 <= 5000
    decreases last - first, 1
  {
    QueriesLoopBounded(first, last, step, first);
  }

  lemma {:induction false} QueriesLoopBounded(first: int, last: int, step: int, i: int)
    requires last - first > step && first <= i
    ensures forall q :: q in QueriesLoop(first, last, step, i) ==> q.1 - q.0 <= 5000
    decreases last - first, 0, last - i
  {
    if i < last {
      var hi := if i + step < last then i + step else last;
      if hi - i > 5000 {
        QueriesBounded(i, hi, 5000);
      }
      QueriesLoopBounded(first, last, step, i + 5001);
    }
  }

  /** The leaf fetch as a value, so that the fold below does not unfold it. */
  function LeafOf(post: Query -> Reply): (int, int) -> Outcome<map<Json, int>> {
    (a: int, b: int) => Leaf(post, a, b)
  }

  /** Merging the leaves' dicts in order (`result |= ...`); the first
      failure ends the loop. */
  function FoldLeaves(leaf: (int, int) -> Outcome<map<Json, int>>, qs: seq<(int, int)>): Outcome<map<Json, int>>
    decreases |qs|
  {
    if qs == [] then Ok(map[])
    else
      match leaf(qs[0].0, qs[0].1)
      case Raise(e) => Raise(e)
      case Ok(first) => Then(first, FoldLeaves(leaf, qs[1..]))
  }

  /** `acc | rest` unless `rest` is an exception. */
  function Then(acc: map<Json, int>, rest: Outcome<map<Json, int>>): (r: Outcome<map<Json, int>>)
    ensures r.Ok? <==> rest.Ok?
  {
    match rest
    case Raise(e) => Raise(e)
    case Ok(m) => Ok(acc + m)
  }

  lemma ThenTwice(a: map<Json, int>, b: map<Json, int>, rest: Outcome<map<Json, int>>)
    ensures Then(a, Then(b, rest)) == Then(a + b, rest)
  {
    if rest.Ok? {
      assert a + (b + rest.value) == (a + b) + rest.value;
    }
  }

  /** Folding two lists of leaves one after the other. */
  lemma {:induction false} FoldAppend(leaf: (int, int) -> Outcome<map<Json, int>>, a: seq<(int, int)>, b: seq<(int, int)>)
    ensures FoldLeaves(leaf, a + b) ==
      (match FoldLeaves(leaf, a)
       case Raise(e) => Raise(e)
       case Ok(m) => Then(m, FoldLeaves(leaf, b)))
    decreases |a|
  {
    if a == [] {
      assert a + b == b;
      var rest := FoldLeaves(leaf, b);
      if rest.Ok? {
        assert map[] + rest.value == rest.value;
      }
    } else {
      assert (a + b)[0] == a[0] && (a + b)[1..] == a[1..] + b;
      FoldAppend(leaf, a[1..], b);
      var first := leaf(a[0].0, a[0].1);
      if first.Ok? && FoldLeaves(leaf, a[1..]).Ok? {
        ThenTwice(first.value, FoldLeaves(leaf, a[1..]).value, FoldLeaves(leaf, b));
      }
    }
  }

  lemma FoldOne(leaf: (int, int) -> Outcome<map<Json, int>>, a: int, b: int)
    ensures FoldLeaves(leaf, [(a, b)]) == leaf(a, b)
  {
    assert [(a, b)][1..] == [];
    if leaf(a, b).Ok? {
      assert leaf(a, b).value + map[] == leaf(a, b).value;
    }
  }

  lemma ThenEmpty(rest: Outcome<map<Json, int>>)
    ensures Then(map[], rest) == rest
  {
    if rest.Ok? {
      assert map[] + rest.value == rest.value;
    }
  }

  /** One pass of the chunk loop: the chunk at `i` is fetched, then either
      its exception ends the loop or its dict is merged. */
  lemma ChunkStep(leaf: (int, int) -> Outcome<map<Json, int>>, first: int, last: int, step: int, i: int, result: map<Json, int>, part: Outcome<map<Json, int>>)
    requires last - first > step && first <= i < last
    requires part == FoldLeaves(leaf, Queries(i, if i + step < last then i + step else last, 5000))
    ensures Then(result, FoldLeaves(leaf, QueriesLoop(first, last, step, i))) ==
      if part.Raise? then part
      else Then(result + part.value, FoldLeaves(leaf, QueriesLoop(first, last, step, i + 5001)))
  {
    var hi := if i + step < last then i + step else last;
    var rest := QueriesLoop(first, last, step, i + 5001);
    assert QueriesLoop(first, last, step, i) == Queries(i, hi, 5000) + rest;
    FoldAppend(leaf, Queries(i, hi, 5000), rest);
    if part.Ok? {
      ThenTwice(result, part.value, FoldLeaves(leaf, rest));
    }
  }

  /** `get_blocks_ts_by_numbers_range(first, last, step)`. */
  function RangeTs(post: Query -> Reply, first: int, last: int, step: int): (r: Outcome<map<Json, int>>)
    ensures last - first <= step ==> r == Leaf(post, first, last)
  {
    FoldOne(LeafOf(post), first, last);
    FoldLeaves(LeafOf(post), Queries(first, last, step))
  }

  /** The heights the queries ask for. */
  function Covered(qs: seq<(int, int)>): set<int>
    decreases |qs|
  {
    if qs == [] then {} else RangeSet(qs[0].0, qs[0].1) + Covered(qs[1..])
  }

  lemma {:induction false} CoveredAppend(a: seq<(int, int)>, b: seq<(int, int)>)
    ensures Covered(a + b) == Covered(a) + Covered(b)
    decreases |a|
  {
    if a == [] {
      assert a + b == b;
    } else {
      assert (a + b)[0] == a[0] && (a + b)[1..] == a[1..] + b;
      CoveredAppend(a[1..], b);
    }
  }

  /** Against a truthful node, the merged result holds the timestamp of
      every height some query asked for, and of no other. */
  lemma {:induction false} FoldFromNode(ts: int -> int, qs: seq<(int, int)>)
    ensures FoldLeaves(LeafOf(Node(ts)), qs) == Ok(Expected(ts, Covered(qs)))
    decreases |qs|
  {
    if qs != [] {
      LeafFromNode(ts, qs[0].0, qs[0].1);
      FoldFromNode(ts, qs[1..]);
      assert Expected(ts, RangeSet(qs[0].0, qs[0].1)) + Expected(ts, Covered(qs[1..]))
          == Expected(ts, RangeSet(qs[0].0, qs[0].1) + Covered(qs[1..]));
    }
  }

  /** With the default step every chunk is a leaf: the chunk loop from `i`
      covers `[i, last]`, except `last` itself when `last - i` is a multiple of
      5001. */
  lemma {:induction false} DefaultLoopCovers(first: int, last: int, i: int)
    requires last - first > 5000 && first <= i
    ensures Covered(QueriesLoop(first, last, 5000, i)) == if (last - i) % 5001 == 0 then RangeSet(i, last - 1) else RangeSet(i, last)
    decreases last - i
  {
    if i < last {
      var tail := QueriesLoop(first, last, 5000, i + 5001);
      DefaultLoopStep(first, last, i);
      ModShift(last - i);
      if i + 5000 < last {
        var end := if (last - i) % 5001 == 0 then last - 1 else last;
        assert Covered(tail) == RangeSet(i + 5001, end) by {
          DefaultLoopCovers(first, last, i + 5001);
        }
        RangeSetJoin(i, i + 5000, end);
      } else {
        assert tail == [];
      }
    } else {
      assert RangeSet(i, last - 1) == {};
      if i > last {
        assert RangeSet(i, last) == {};
      }
    }
  }

  lemma ModShift(d: int)
    ensures d % 5001 == (d - 5001) % 5001
    ensures 0 < d <= 5000 ==> d % 5001 != 0
  {
  }

  /** The first chunk of the default loop from `i`. */
  lemma DefaultLoopStep(first: int, last: int, i: int)
    requires last - first > 5000 && first <= i < last
    ensures var hi := if i + 5000 < last then i + 5000 else last;
      Covered(QueriesLoop(first, last, 5000, i)) == RangeSet(i, hi) + Covered(QueriesLoop(first, last, 5000, i + 5001))
  {
    var hi := if i + 5000 < last then i + 5000 else last;
    var tail := QueriesLoop(first, last, 5000, i + 5001);
    assert QueriesLoop(first, last, 5000, i) == [(i, hi)] + tail by {
      assert Queries(i, hi, 5000) == [(i, hi)];
    }
    CoveredAppend([(i, hi)], tail);
    CoveredOne(i, hi);
  }

  lemma CoveredOne(a: int, b: int)
    ensures Covered([(a, b)]) == RangeSet(a, b)
  {
    assert [(a, b)][1..] == [];
  }

  lemma RangeSetJoin(a: int, m: int, b: int)
    requires a <= m + 1 <= b + 1
    ensures RangeSet(a, m) + RangeSet(m + 1, b) == RangeSet(a, b)
  {
  }

  /** `|{JInt(h) : a <= h <= b}| == b - a + 1`. */
  lemma {:induction false} ExpectedSize(ts: int -> int, a: int, b: int)
    requires a <= b + 1
    ensures |Expected(ts, RangeSet(a, b))| == b - a + 1
    decreases b - a + 1
  {
    if a <= b {
      ExpectedSize(ts, a, b - 1);
      ExpectedExtend(ts, a, b - 1);
      assert JInt(b) !in Expected(ts, RangeSet(a, b - 1)) by {
        assert b !in RangeSet(a, b - 1);
      }
    } else {
      assert RangeSet(a, b) == {};
      assert Expected(ts, RangeSet(a, b)) == map[];
    }
  }

  /** With the default step and a range wider than it, the result holds
      every block of `[first, last]` exactly when `last - first` is not a
      multiple of 5001; otherwise the block `last` is missing. */
  lemma DefaultStepCoverage(ts: int -> int, first: int, last: int)
    requires last - first > 5000
    ensures (last - first) % 5001 != 0 ==>
      RangeTs(Node(ts), first, last, 5000) == Ok(Expected(ts, RangeSet(first, last))) &&
      |RangeTs(Node(ts), first, last, 5000).value| == last - first + 1
    ensures (last - first) % 5001 == 0 ==>
      RangeTs(Node(ts), first, last, 5000) == Ok(Expected(ts, RangeSet(first, last - 1))) &&
      JInt(last) !in RangeTs(Node(ts), first, last, 5000).value
  {
    DefaultLoopCovers(first, last, first);
    FoldFromNode(ts, Queries(first, last, 5000));
    if (last - first) % 5001 != 0 {
      assert Covered(Queries(first, last, 5000)) == RangeSet(first, last);
      ExpectedSize(ts, first, last);
    } else {
      assert Covered(Queries(first, last, 5000)) == RangeSet(first, last - 1);
    }
  }

  /** A range at most `step` wide is one query and yields all its blocks. */
  lemma NarrowRangeIsOneQuery(ts: int -> int, first: int, last: int, step: int)
    requires first <= last && last - first <= step
    ensures RangeTs(Node(ts), first, last, step) == Ok(Expected(ts, RangeSet(first, last)))
    ensures |RangeTs(Node(ts), first, last, step).value| == last - first + 1
  {
    FoldFromNode(ts, [(first, last)]);
    assert Covered([(first, last)]) == RangeSet(first, last) by {
      assert [(first, last)][1..] == [];
    }
    ExpectedSize(ts, first, last);
  }

  /** A small step over a range of at most 5001 heights fetches only the
      first `step + 1` heights: the stride of 5001 leaves no second chunk. */
  lemma SmallStepFetchesOneChunk(first: int, last: int, step: int)
    requires 0 <= step < last - first <= 5001
    ensures Queries(first, last, step) == [(first, first + step)]
  {
    assert QueriesLoop(first, last, step, first + 5001) == [];
  }

  /** Against a truthful node, the merged result of a call holds the
      timestamps of exactly the heights its queries ask for. */
  lemma RangeFromNode(ts: int -> int, first: int, last: int, step: int)
    ensures RangeTs(Node(ts), first, last, step) == Ok(Expected(ts, Covered(Queries(first, last, step))))
  {
    FoldFromNode(ts, Queries(first, last, step));
  }

  /** Against a truthful node, such a call returns `step + 1` timestamps,
      not one per block of its range. */
  lemma SmallStepCount(ts: int -> int, first: int, last: int, step: int)
    requires 0 <= step < last - first <= 5001
    ensures RangeTs(Node(ts), first, last, step) == Ok(Expected(ts, RangeSet(first, first + step)))
    ensures |RangeTs(Node(ts), first, last, step).value| == step + 1 < last - first + 1
  {
    var e := Expected(ts, RangeSet(first, first + step));
    ExpectedSize(ts, first, first + step);
    assert |e| == step + 1;
    assert RangeTs(Node(ts), first, last, step) == Ok(e) by {
      assert Covered(Queries(first, last, step)) == RangeSet(first, first + step) by {
        SmallStepFetchesOneChunk(first, last, step);
        CoveredOne(first, first + step);
      }
      RangeFromNode(ts, first, last, step);
    }
  }

  /** The chunking the loop evidently intends: starts `first, first + step
      + 1, …` up to and including `last`, each chunk
      `[i, min(i + step, last)]`. */
  function IntendedQueries(first: int, last: int, step: nat): (qs: seq<(int, int)>)
    ensures first <= last ==> Covered(qs) == RangeSet(first, last)
  {
    if last - first > step then
      IntendedFromCovers(first, last, step);
      IntendedFrom(first, last, step)
    else
      CoveredOne(first, last);
      [(first, last)]
  }

  function IntendedFrom(i: int, last: int, step: nat): seq<(int, int)>
    decreases last - i + 1
  {
    if i > last then []
    else [(i, if i + step < last then i + step else last)] + IntendedFrom(i + step + 1, last, step)
  }

  lemma {:induction false} IntendedFromCovers(i: int, last: int, step: nat)
    requires i <= last + 1
    ensures Covered(IntendedFrom(i, last, step)) == RangeSet(i, last)
    decreases last - i + 1
  {
    if i <= last {
      var hi := if i + step < last then i + step else last;
      CoveredAppend([(i, hi)], IntendedFrom(i + step + 1, last, step));
      assert Covered([(i, hi)]) == RangeSet(i, hi) by {
        assert [(i, hi)][1..] == [];
      }
      if i + step + 1 <= last + 1 {
        IntendedFromCovers(i + step + 1, last, step);
      } else {
        assert IntendedFrom(i + step + 1, last, step) == [];
      }
      assert RangeSet(i, hi) + RangeSet(hi + 1, last) == RangeSet(i, last);
    } else {
      assert RangeSet(i, last) == {};
    }
  }

  /** The intended fetch returns one timestamp per block of `[first, last]`,
      whatever the step. */
  lemma IntendedCoversRange(ts: int -> int, first: int, last: int, step: nat)
    requires first <= last
    ensures FoldLeaves(LeafOf(Node(ts)), IntendedQueries(first, last, step)) == Ok(Expected(ts, RangeSet(first, last)))
    ensures |FoldLeaves(LeafOf(Node(ts)), IntendedQueries(first, last, step)).value| == last - first + 1
  {
    var qs := IntendedQueries(first, last, step);
    FoldFromNode(ts, qs);
    ExpectedSize(ts, first, last);
  }

  class GraphQL {
    const url: string
    const graphqlUrl: string
    /** The HTTP exchange with the GraphQL endpoint. */
    const post: Query -> Reply
    /** The `blocks` query of one range, bound to `post` at construction. */
    const leaf: (int, int) -> Outcome<map<Json, int>>

    constructor (url: string, graphqlUrl: Option<string>, post: Query -> Reply)
      ensures this.url == url && this.graphqlUrl == GraphqlUrl(url, graphqlUrl)
      ensures this.post == post && this.leaf == LeafOf(post)
    {
      this.url := url;
      this.post := post;
      this.leaf := LeafOf(post);
      this.graphqlUrl := GraphqlUrl(url, graphqlUrl);
    }

    /** `get_blocks_ts_by_numbers_range`: a range at most `step` wide is one
        query, a wider one is fetched chunk by chunk. */
    method GetBlocksTsByNumbersRange(first: int, last: int, step: int) returns (r: Outcome<map<Json, int>>)
      ensures r == FoldLeaves(leaf, Queries(first, last, step))
      decreases last - first, 1
    {
      if last - first > step {
        r := FetchChunks(first, last, step);
      } else {
        r := leaf(first, last);
        FoldOne(leaf, first, last);
      }
    }

    /** The chunk loop of `get_blocks_ts_by_numbers_range`: each chunk is
        fetched with the default step and merged into `result`. */
    method FetchChunks(first: int, last: int, step: int) returns (r: Outcome<map<Json, int>>)
      requires last - first > step
      ensures r == FoldLeaves(leaf, Queries(first, last, step))
      decreases last - first, 0
    {
      var result: map<Json, int> := map[];
      var i := first;
      ThenEmpty(FoldLeaves(leaf, QueriesLoop(first, last, step, i)));
      while i < last
        invariant first <= i
        invariant FoldLeaves(leaf, Queries(first, last, step)) == Then(result, FoldLeaves(leaf, QueriesLoop(first, last, step, i)))
        decreases last - i
      {
        var hi := if i + step < last then i + step else last;
        var part := GetBlocksTsByNumbersRange(i, hi, 5000);
        ChunkStep(leaf, first, last, step, i, result, part);
        if part.Raise? {
          return part;
        }
        result := result + part.value;
        i := i + 5001;
      }
      assert QueriesLoop(first, last, step, i) == [];
      assert result + map[] == result;
      r := Ok(result);
    }
  }
}
