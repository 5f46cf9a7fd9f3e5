# ETHHelper — a Dafny model of its Geth connectors and value codecs

ETHHelper is an asynchronous Python client for a Geth (go-ethereum) node.
This project models its core in Dafny and proves properties of the model:

- the value wrappers `IntStr` and `HexBytes` (and `Wei`, `Hash32`,
  `Address`) of `datatypes/base.py` and their twin in `utils/stdtype.py`,
  with the conversions of `utils/convert.py` and the JSON hook of
  `utils/json.py`;
- the JSON-RPC records of `datatypes/geth.py` and the way pydantic
  (version 1) reads a decoded JSON document into them;
- the `txpool` records of `datatypes/txpool.py`, including the parser of
  the node's one-line transaction summary;
- the HTTP client `GethHttpCustomized` (`connectors/http/base.py`): the id
  counter that starts over after 100000000, `send`, the batch
  `send_multiple` and `parse_multiple_responses`, `is_connected`;
- `GethCustomHttp` (`connectors/http/custom.py`): block and log fetching in
  chunks of 201 heights, the binary search over block timestamps and the
  search window of `get_height_after_ts`;
- `GethGraphQL` (`connectors/http/graphql.py`): the endpoint URL,
  `send_query`, and the chunked fetch of block timestamps;
- the WebSocket subscriber `GethSubscriber` (`connectors/ws/base.py`) and
  `GethNewBlockSubscriber` (`connectors/ws/block.py`): `bind`, `close`,
  the reconnecting `run`, `send`, the receive loop and the two gates of
  `handle` (node synced, subscription token received);
- the earlier revision under `connnectors/` (HTTP client, datetime-based
  custom client, subscriber), each modelled by reusing the definitions of
  the current revision and proving where the two agree and differ.

The HTTP exchange, the node's chain, the clock and the WebSocket frames are
parameters: `post: Json -> Reply` stands for one HTTP POST and the JSON
decoding of its body (`None` when the body is not JSON), `ts: int -> int`
for the timestamp of each height, `now` for the clock, and a sequence of
frames for what a connection receives. Python exceptions are the `Raise`
case of `Exceptions.Outcome`. Integers are unbounded, as in Python.

Where the written code and its documentation disagree, the model follows
the code:

- `get_height_after_ts` documents nothing about clamping the window or about
  a future timestamp; the code does neither, and the model keeps the code's
  window (`Custom.FutureTimestampInvertsWindow` shows the window inverted
  for a timestamp far in the future).
- pydantic 1 treats `result: Any` and `id: int | None` as optional, so every
  document that reads as an error reply also reads as a success reply whose
  `result` is `None`. The `GethError` branches of `send`, of
  `parse_multiple_responses` and of the WebSocket receive loop are therefore
  unreachable; the model keeps them as written and proves them dead
  (`Geth.ErrorShapeIsSuccessShape`).

Modules follow the source: `Values`, `Convert`, `JsonEncode`, `Geth`,
`Txpool`, `HttpClient`, `Custom`, `GraphQLConnector`, `WsSubscriber`,
`WsBlock`, and `LegacyHttp`, `LegacyCustom`, `LegacyWs` for the earlier
revision. `Common`, `JsonValue`, `Text`, `Numerals` and `Exceptions` hold
the shared vocabulary (optional values, decoded JSON, `str.split`, Python's
integer and byte literals, the exception types).

## Model

| member | source | states |
|---|---|---|
| Numerals.DecimalRoundTrip | src/ethhelper/datatypes/base.py:19-20 | `int(str(i)) == i` and `int(str(i), 0) == i` for every integer, negative ones included |
| Numerals.HexRoundTrip | src/ethhelper/utils/convert.py:25-28 | `int(hex(i), 0) == i` for every integer: the literal the node prints reads back |
| Numerals.ParseHexLiteral | src/ethhelper/utils/convert.py:28 | `int(s, 0)` of a signed `0x` literal is the signed value of its hexadecimal digits |
| Numerals.BytesHexRoundTrip | src/ethhelper/datatypes/base.py:122-123 | `bytes.fromhex(b.hex()) == b`: the digits `str(HexBytes)` prints decode to the same bytes |
| Numerals.BitLengthAtLeast | src/ethhelper/datatypes/base.py:27 | `n.bit_length() >= k + 1` exactly when `n >= 2^k` (the test `to_int_or_str` makes) |
| Numerals.NatDigits | src/ethhelper/datatypes/base.py:58-59 | the printed digits are lower-case, without leading zeros, and denote the number |
| Text.Split | src/ethhelper/datatypes/txpool.py:82-91 | `str.split` of a non-empty separator returns at least one piece |
| Text.SplitJoin | src/ethhelper/datatypes/txpool.py:82-91 | splitting a joined list at a separator none of its parts contains gives the list back |
| Text.SplitPair | src/ethhelper/datatypes/txpool.py:82 | `a + sep + b` splits into exactly `[a, b]` when neither side contains the separator's marker character |
| Text.DropLast | src/ethhelper/datatypes/txpool.py:88-91 | `s[:-n]` drops the last `n` characters, or leaves nothing when `s` is shorter |
| Exceptions.GethErrorOfList | src/ethhelper/datatypes/geth.py:106-116 | `GethError` of a list keeps one `"code: message"` line per detail, in order |
| Exceptions.DetailLine | src/ethhelper/datatypes/geth.py:110 | the line is the code in decimal, which reads back to the code, then `": "`, then the message unchanged |
| Exceptions.GethErrorOf | src/ethhelper/datatypes/geth.py:111-116 | `GethError` of one detail keeps its code and message, and passes the detail's `"code: message"` line to `Exception` |
| Exceptions.DetailLineInverse | src/ethhelper/datatypes/geth.py:110 | code and message can be read back from the `"code: message"` line by splitting at `": "` |
| Exceptions.GraphQLMessage | src/ethhelper/datatypes/geth.py:119-126 | `"\n".join(msgs)` succeeds for every list of strings, so a `GethGraphQLError` can be built |
| Exceptions.GraphQLMessageSplits | src/ethhelper/datatypes/geth.py:119-126 | messages without newlines can be recovered from the joined text |
| Exceptions.Subscript | src/ethhelper/connectors/http/graphql.py:75-81 | `x[key]` returns the entry exactly when `x` is a dict holding `key`; otherwise `KeyError` on a dict and `TypeError` on anything else |
| Values.IntStrInit | src/ethhelper/datatypes/base.py:13-24 | `IntStr(v)`: an `IntStr` keeps its value, an int is kept, a string must be an `int(s, 0)` literal or `ValueError`, anything else `TypeError` |
| Values.HexBytesText | src/ethhelper/datatypes/base.py:122-123 | `str(HexBytes)` is `"0x"` and two lower-case digits per byte |
| Values.HexStringBytes | src/ethhelper/datatypes/base.py:83-89 | a string without `"0x"` raises `ValueError`; an odd digit count gets a leading zero; one byte per two digits |
| Values.HexBytesInit | src/ethhelper/datatypes/base.py:75-93 | `HexBytes(v)`: a `HexBytes` keeps its bytes, bytes are kept, a string goes through the `0x` parser, anything else `TypeError` |
| Values.ToIntOrStr | src/ethhelper/datatypes/base.py:26-29 | the number itself while it has fewer than 64 bits, else its decimal text, which reads back to the number |
| Values.IntStrCompare | src/ethhelper/datatypes/base.py:34-56 | the six comparisons convert the other operand with the same module's `IntStr` (raising what it raises) and compare the values |
| Values.HexBytesCompare | src/ethhelper/datatypes/base.py:98-120 | the six comparisons convert the other operand with `HexBytes` and compare the bytes as Python orders `bytes` |
| Values.IntStrValidate | src/ethhelper/datatypes/base.py:65-71 | pydantic validation: instances pass unchanged, ints and strings are wrapped in the class validated, other values pass through |
| Values.HexBytesValidate | src/ethhelper/datatypes/base.py:129-136 | instances pass unchanged, bytes and `0x` strings are wrapped, other strings and values pass through |
| Values.IntStrTextRoundTrip | src/ethhelper/datatypes/base.py:58-59 | `IntStr(str(x))` and `IntStr(hex(x))` have the value `x` |
| Values.IntStrEqualsItsText | src/ethhelper/datatypes/base.py:42-48 | an `IntStr` equals its own decimal and hexadecimal text and is not unequal to it |
| Values.HexBytesTextRoundTrip | src/ethhelper/datatypes/base.py:122-123 | `HexBytes(str(h))` has the bytes of `h` |
| Values.OddDigitsPadded | src/ethhelper/datatypes/base.py:87-88 | an odd number of digits reads as the same digits with one more leading zero |
| Values.BytesOrderTotal | src/ethhelper/datatypes/base.py:98-120 | the byte order is irreflexive and total: of two different values exactly one is smaller |
| Values.HexBytesComparisonsComplement | src/ethhelper/datatypes/base.py:98-120 | `<` is the negation of `>=`, `>` of `<=` and `==` of `!=` |
| Values.ValidateIdempotent | src/ethhelper/datatypes/base.py:65-71 | validating an already validated value returns it unchanged, for both wrappers |
| Values.ModulesAgreeOnPlainValues | src/ethhelper/utils/stdtype.py:7-24 | the two modules' constructors agree on plain ints, strings and bytes, and each rejects the other's instances with `TypeError` |
| Values.SubclassesParseAlike | src/ethhelper/datatypes/base.py:139-155 | `Wei`, `Hash32` and `Address` validate plain values to the same value as their base class, tagged with the subclass |
| Convert.ParseHexOrStrint | src/ethhelper/utils/convert.py:25-28 | non-strings pass unchanged; a string becomes `int(s, 0)` or raises `ValueError` |
| Convert.ParseHexOrStrintReadsPrinted | src/ethhelper/utils/convert.py:25-28 | the hexadecimal and decimal text of a number both read back as that number |
| Convert.ParseHexOrStrintIdempotent | src/ethhelper/utils/convert.py:25-28 | converting an already converted value changes nothing |
| Convert.BlockIdTransfer | src/ethhelper/utils/convert.py:31-36 | a `Hash32` becomes its raw bytes; every other block identifier passes unchanged |
| Convert.AddressTransfer | src/ethhelper/utils/convert.py:39-42 | an `Address` becomes its raw bytes; an ENS name passes unchanged |
| Convert.TransferRewraps | src/ethhelper/utils/convert.py:31-42 | validating the transferred bytes as the original class restores the value; both transfers are idempotent |
| JsonEncode.EncodeMyClass | src/ethhelper/utils/json.py:16-21 | succeeds exactly on `IntStr` and `HexBytes` values (else `TypeError`); an `IntStr` encodes as `to_int_or_str()` of its value, a number while its bit length is below 64 and otherwise text that reads back to it; `HexBytes` encode as their `0x` text |
| JsonEncode.EncodeMyClassRoundTrip | src/ethhelper/utils/json.py:16-27 | decoding the encoded value and validating it as its class gives the value back |
| Geth.NewRequest | src/ethhelper/datatypes/geth.py:49-58 | a new request has `jsonrpc` "2.0" and exactly the id, method and params given |
| Geth.StrField | src/ethhelper/datatypes/geth.py:51-55 | a `str` field accepts strings, ints and bools (as text) and refuses the rest with a validation error |
| Geth.IntField | src/ethhelper/datatypes/geth.py:93 | an `int` field accepts ints and decimal strings; null, lists and dicts are validation errors |
| Geth.IntFieldReadsDecimal | src/ethhelper/datatypes/geth.py:93-95 | an `int` field reads the decimal text of a number back, and a `str` field prints an int as its decimal text |
| Geth.PairsToMap | src/ethhelper/datatypes/geth.py:68-77 | `dict(pairs)` has exactly the keys of the pairs |
| Geth.KeywordArgs | src/ethhelper/datatypes/geth.py:68-77 | `parse_obj` takes a dict's entries; `None`, bools and ints are validation errors, the empty string an empty dict |
| Geth.NestedArgs | src/ethhelper/datatypes/geth.py:128-135 | a nested model field converts as `parse_obj` does, every failure becoming a validation error |
| Geth.ParseSuccess | src/ethhelper/datatypes/geth.py:68-77 | `GethSuccessResponse.parse_obj` fails only with a validation or type error |
| Geth.ParseError | src/ethhelper/datatypes/geth.py:128-135 | `GethErrorResponse.parse_obj` fails only with a validation or type error |
| Geth.ParsePush | src/ethhelper/datatypes/geth.py:172-186 | `GethWSResponse.parse_obj` fails only with a validation or type error |
| Geth.ParseResponse | src/ethhelper/connectors/http/base.py:99-124 | `parse_response` fails only with a validation or type error |
| Geth.ErrorShapeIsSuccessShape | src/ethhelper/datatypes/geth.py:68-135 | a document that reads as an error reply also reads as a success reply with the same `jsonrpc` and `id` |
| Geth.ParseResponseIsSuccessParse | src/ethhelper/connectors/http/base.py:119-122 | `parse_response` is the success parse: its error-shape fallback is never taken |
| Geth.ErrorReplyReadsAsSuccess | src/ethhelper/connectors/http/base.py:119-122 | a JSON-RPC error reply reads as a success with the same id and `result` `None` |
| Geth.PushMethodUnchecked | src/ethhelper/datatypes/geth.py:181-186 | the `params` validator never looks at `method`: a push with any method name parses |
| Geth.RequestRoundTrip | src/ethhelper/datatypes/geth.py:49-58 | a request reads back from the document `request.dict()` sends |
| Geth.ParseRequest | src/ethhelper/datatypes/geth.py:49-58 | `GethRequest.parse_obj` fails only with a validation or type error; from a dict it succeeds only when `method` and `params` are present, and keeps `params` as given |
| Txpool.StatusField | src/ethhelper/datatypes/txpool.py:31-40 | the `int_val` pre-validator reads a string with `int(s, 0)` and keeps ints; every failure is a validation error |
| Txpool.StatusFromHex | src/ethhelper/datatypes/txpool.py:31-40 | the hexadecimal counters the node reports read back exactly |
| Txpool.ParseStatus | src/ethhelper/datatypes/txpool.py:31-40 | both counters are required (a dict missing one is a validation error); a status read from a dict holds the two fields as `int_val` reads them; it fails only with a validation or type error |
| Txpool.ValidateSnapshot | src/ethhelper/datatypes/txpool.py:68-98 | non-strings go to pydantic; a summary yields address, fee, gas and gas fee, with "contract creation" flagged; failures are `ValueError` or `IndexError` |
| Txpool.ParseAmounts | src/ethhelper/datatypes/txpool.py:87-91 | the amounts part fails only with `ValueError` or `IndexError` |
| Txpool.AmountsRoundTrip | src/ethhelper/datatypes/txpool.py:87-91 | the amounts the node prints (`"<fee> wei + <gas> gas × <fee> wei"`) read back exactly |
| Txpool.SummaryRoundTrip | src/ethhelper/datatypes/txpool.py:68-98 | the summary line of a transaction to an address parses back to that address and those amounts |
| Txpool.ContractCreationRoundTrip | src/ethhelper/datatypes/txpool.py:83-86 | a contract creation is flagged and sent to the all-zero address |
| HttpClient.NextId | src/ethhelper/connectors/http/base.py:222-224 | the next id is one more, or 1 once the counter has reached 100000000; it always lies in 1..100000000 |
| HttpClient.IdsCountFromOne | src/ethhelper/connectors/http/base.py:91-96 | from a fresh client the first 100000000 calls get the ids 1, 2, … in order |
| HttpClient.IdsWrapAround | src/ethhelper/connectors/http/base.py:222-224 | the call after id 100000000 gets id 1 again |
| HttpClient.IdAfterAdds | src/ethhelper/connectors/http/base.py:270-272 | allocating `a` ids then `b` more is allocating `a + b` |
| HttpClient.ParamsOrEmpty | src/ethhelper/connectors/http/base.py:219-220 | `None` params become `[]`, others are kept |
| HttpClient.BatchRequests | src/ethhelper/connectors/http/base.py:268-276 | one request per call |
| HttpClient.BatchIdsFromFreshClient | src/ethhelper/connectors/http/base.py:268-276 | from a fresh client call `k` of a batch gets id `k + 1`, so the ids are pairwise distinct |
| HttpClient.BatchJson | src/ethhelper/connectors/http/base.py:277-278 | the batch body is a list holding each request's document, each of which reads back as that request |
| HttpClient.Partition | src/ethhelper/connectors/http/base.py:161-169 | a completed loop puts every item in one of the two lists; it fails only with a validation or type error |
| HttpClient.PartitionStopsAtRaise | src/ethhelper/connectors/http/base.py:161-169 | the loop stops at the first item that raises |
| HttpClient.ParseBatch | src/ethhelper/connectors/http/base.py:126-169 | a body that is not JSON raises `JSONDecodeError`; every failure is decoding, validation or type |
| HttpClient.PartitionIsItemwise | src/ethhelper/connectors/http/base.py:161-169 | the loop succeeds exactly when every item reads as a success reply, and then the success list is those replies in order |
| HttpClient.BatchErrorsEmpty | src/ethhelper/connectors/http/base.py:161-169 | a batch that parses never has error replies: the `errors` list is always empty |
| HttpClient.SendChecksId | src/ethhelper/connectors/http/base.py:229-235 | a success reply returns its `result` when its id is the allocated one and raises `IdNotMatch` otherwise |
| HttpClient.SendErrorReplyReturnsNull | src/ethhelper/connectors/http/base.py:229-235 | an error reply for the allocated id returns `None` instead of raising `GethError` |
| HttpClient.SendOutcome | src/ethhelper/connectors/http/base.py:193-235 | `send` never raises `GethError`: it fails only with `RequestError`, a validation or type error, or `IdNotMatch` naming the allocated id and a different received one |
| HttpClient.BatchOutcome | src/ethhelper/connectors/http/base.py:237-280 | `send_multiple` fails only with `RequestError`, `JSONDecodeError`, a validation or a type error |
| HttpClient.Client.constructor | src/ethhelper/connectors/http/base.py:91-96 | a new client keeps its URL and starts its counter at 0 |
| HttpClient.Client.Send | src/ethhelper/connectors/http/base.py:193-235 | the counter advances by one allocation even when the exchange fails, and the outcome is that of the reply for the new id |
| HttpClient.Client.ParseMultipleResponses | src/ethhelper/connectors/http/base.py:126-169 | the loop over the decoded list computes `ParseBatch` |
| HttpClient.Client.ParseItems | src/ethhelper/connectors/http/base.py:161-167 | the loop over a list keeps each item as a success reply, else as an error reply, stopping at the first item that is neither; it computes `Partition` |
| HttpClient.Client.ParseKeys | src/ethhelper/connectors/http/base.py:161-169 | iterating over a dict body visits its keys, computing `ParseBatch` of the dict |
| HttpClient.Client.SendMultiple | src/ethhelper/connectors/http/base.py:237-280 | one id per call in list order, allocated before the exchange; the result is the parse of the node's reply to the batch |
| HttpClient.Client.IsConnected | src/ethhelper/connectors/http/base.py:282-304 | true exactly when a `net_version` call raises nothing; the counter advances once |
| Custom.Range | src/ethhelper/connectors/http/custom.py:222 | `range(lo, hi + 1)` lists `lo, lo+1, …, hi` |
| Custom.RangeSplit | src/ethhelper/connectors/http/custom.py:208-219 | two adjacent ranges concatenate to their union |
| Custom.ChunksFromCover | src/ethhelper/connectors/http/custom.py:210-218 | the chunks from `i` list the heights `i..end` once each, in order, no chunk wider than 201 heights |
| Custom.ChunksCover | src/ethhelper/connectors/http/custom.py:121-131 | a call on `[start, end]` fetches exactly the heights of its range, in ascending order, each once |
| Custom.BlockCalls | src/ethhelper/connectors/http/custom.py:221-223 | one `eth_getBlockByNumber` call per height |
| Custom.Prepend | src/ethhelper/connectors/http/custom.py:209-219 | adding earlier results keeps success, failure and the counter |
| Custom.PrependTwice | src/ethhelper/connectors/http/custom.py:209-219 | accumulating results chunk by chunk is concatenation |
| Custom.BlocksLeafResults | src/ethhelper/connectors/http/custom.py:220-227 | when every reply of the batch reads as a success, the blocks are the replies' `result`s in order and one id is spent per height |
| Custom.BlocksLeaf | src/ethhelper/connectors/http/custom.py:220-227 | the leaf spends one id per requested height; it fails only as `send_multiple` does, or with `GethError` |
| Custom.BlocksLeafNeverRaisesGethError | src/ethhelper/connectors/http/custom.py:224-226 | the `GethError` for batch errors is never raised, since the error list is always empty |
| Custom.BlocksOverIds | src/ethhelper/connectors/http/custom.py:208-219 | a successful chunk loop spends one id per height fetched |
| Custom.BlocksOver | src/ethhelper/connectors/http/custom.py:208-219 | the chunk loop fails only as `send_multiple` does, never with `GethError` |
| Custom.Blocks | src/ethhelper/connectors/http/custom.py:194-227 | `get_blocks_by_numbers` fails only as `send_multiple` does, never with `GethError` |
| Custom.BlocksIdsPerHeight | src/ethhelper/connectors/http/custom.py:194-227 | a successful `get_blocks_by_numbers` spends exactly one id per height of `[start, end]` |
| Custom.GetBlocksByNumbers | src/ethhelper/connectors/http/custom.py:194-227 | the method's loop and recursion compute `Blocks`, leaving the client's counter where `Blocks` says |
| Custom.FetchBlocksLeaf | src/ethhelper/connectors/http/custom.py:220-227 | the request-building loop computes the leaf of `Blocks` |
| Custom.LogsAllOrNothing | src/ethhelper/connectors/http/custom.py:121-132 | the chunked logs succeed exactly when every chunk's `get_logs` succeeds, and are then their concatenation in chunk order |
| Custom.LogsOver | src/ethhelper/connectors/http/custom.py:121-132 | the chunk loop succeeds exactly when every chunk's `get_logs` does |
| Custom.Logs | src/ethhelper/connectors/http/custom.py:96-140 | `get_logs_by_blocks` succeeds exactly when `get_logs` succeeds on every range it queries: the 200-block chunks of a wide range, else the range itself |
| Custom.GetLogsByBlocks | src/ethhelper/connectors/http/custom.py:96-140 | the method's loop computes `Logs` |
| Custom.BinarySearch | src/ethhelper/connectors/http/custom.py:142-172 | the height returned lies in `[start, end]` |
| Custom.BinarySearchFindsFirst | src/ethhelper/connectors/http/custom.py:158-172 | with strictly increasing timestamps that bracket the target, the search returns the first height whose timestamp reaches the target |
| Custom.FloorDiv | src/ethhelper/connectors/http/custom.py:188-189 | Python's `//` by a positive divisor: the quotient rounded toward minus infinity |
| Custom.WindowOrdered | src/ethhelper/connectors/http/custom.py:185-189 | for a past timestamp the window is ordered and spans at least ten heights |
| Custom.FutureTimestampInvertsWindow | src/ethhelper/connectors/http/custom.py:185-189 | for a timestamp far in the future the lower bound exceeds the upper |
| Custom.Window | src/ethhelper/connectors/http/custom.py:185-189 | for a past timestamp the upper bound is at most the head plus 5; for the current time the window is the head plus or minus 5 |
| Custom.HeightAfterTs | src/ethhelper/connectors/http/custom.py:174-192 | when the window is ordered the height found lies in it |
| Custom.HeightAfterTsFindsFirst | src/ethhelper/connectors/http/custom.py:174-192 | when the window brackets the timestamp and timestamps increase over it, the height returned is the first block at or after the timestamp |
| GraphQLConnector.GraphqlUrl | src/ethhelper/connectors/http/graphql.py:43-52 | an explicit GraphQL URL is kept; otherwise the URL ends in `/graphql` after the HTTP URL |
| GraphQLConnector.TrailingSlashAddedOnce | src/ethhelper/connectors/http/graphql.py:47-50 | `url` and `url + "/"` give the same endpoint `url/graphql` |
| GraphQLConnector.In | src/ethhelper/connectors/http/graphql.py:75 | `"error" in result` tests the keys of a dict, raises `TypeError` on numbers, bools and `None` |
| GraphQLConnector.SendQuery | src/ethhelper/connectors/http/graphql.py:54-81 | a `GethGraphQLError` is raised only when its messages can be joined |
| GraphQLConnector.SendQueryReplies | src/ethhelper/connectors/http/graphql.py:75-81 | a reply with `error.msg` raises `GethGraphQLError` with those messages and `data`; a reply with only `data` returns it |
| GraphQLConnector.TimestampOf | src/ethhelper/connectors/http/graphql.py:104 | a timestamp is read from a string with `int(s, 0)` |
| GraphQLConnector.BlockTsFromNode | src/ethhelper/connectors/http/graphql.py:83-104 | against a node that answers truthfully, `get_block_ts_by_number` returns the block's timestamp |
| GraphQLConnector.BlockTs | src/ethhelper/connectors/http/graphql.py:83-104 | `get_block_ts_by_number` fails only with `RequestError`, `JSONDecodeError`, `KeyError`, `TypeError`, `ValueError` or `GethGraphQLError` |
| GraphQLConnector.RangeSet | src/ethhelper/connectors/http/graphql.py:149-159 | the heights `a..b` |
| GraphQLConnector.LeafFromNode | src/ethhelper/connectors/http/graphql.py:149-159 | against a truthful node one query returns the timestamp of every height of its range, keyed by height |
| GraphQLConnector.Entry | src/ethhelper/connectors/http/graphql.py:159 | an entry comes from a dict holding `number` and `timestamp`: its key is the hashable `number`, its value the timestamp read with `int(s, 0)`; it fails only with `KeyError`, `TypeError` or `ValueError` |
| GraphQLConnector.EntriesMap | src/ethhelper/connectors/http/graphql.py:159 | the comprehension fails only as an entry does, and the last entry wins its key |
| GraphQLConnector.Leaf | src/ethhelper/connectors/http/graphql.py:149-159 | one `blocks` query fails only with `RequestError`, `JSONDecodeError`, `KeyError`, `TypeError`, `ValueError` or `GethGraphQLError` |
| GraphQLConnector.Queries | src/ethhelper/connectors/http/graphql.py:127-128 | a range no wider than `step` is one query of the whole range |
| GraphQLConnector.QueriesLoop | src/ethhelper/connectors/http/graphql.py:134-148 | the loop from `i` makes no query exactly when `i` has reached `to_height`, and otherwise its first query starts at `i` |
| GraphQLConnector.QueriesBounded | src/ethhelper/connectors/http/graphql.py:127-148 | a range wider than `step` is split into queries at most 5001 heights wide, whatever `step` is |
| GraphQLConnector.FoldAppend | src/ethhelper/connectors/http/graphql.py:134-148 | merging with `|=` over two lists of queries is merging the two results, the later winning |
| GraphQLConnector.RangeFromNode | src/ethhelper/connectors/http/graphql.py:106-160 | against a truthful node the result holds the timestamps of exactly the heights the queries cover |
| GraphQLConnector.RangeTs | src/ethhelper/connectors/http/graphql.py:106-160 | a range at most `step` wide is fetched by a single `blocks` query |
| GraphQLConnector.NarrowRangeIsOneQuery | src/ethhelper/connectors/http/graphql.py:149-159 | a range at most `step` wide returns one timestamp per height |
| GraphQLConnector.DefaultStepCoverage | src/ethhelper/connectors/http/graphql.py:127-148 | with the default step, every height is returned unless `last - first` is a multiple of 5001, in which case `last` is missing |
| GraphQLConnector.SmallStepFetchesOneChunk | src/ethhelper/connectors/http/graphql.py:134-148 | with a step of at most 5000 and a range of at most 5001 heights, the loop issues one query of `step + 1` heights |
| GraphQLConnector.SmallStepCount | tests/connectors/http/test_graphql.py:53-59 | such a call returns `step + 1` timestamps, fewer than the heights of the range |
| GraphQLConnector.IntendedFromCovers | src/ethhelper/connectors/http/graphql.py:134-148 | the corrected chunking covers `i..last` exactly |
| GraphQLConnector.IntendedQueries | src/ethhelper/connectors/http/graphql.py:127-148 | the corrected queries cover `[first, last]` exactly |
| GraphQLConnector.IntendedCoversRange | src/ethhelper/connectors/http/graphql.py:106-160 | with the corrected chunking, every step returns one timestamp per height of `[first, last]` |
| GraphQLConnector.GraphQL.constructor | src/ethhelper/connectors/http/graphql.py:43-52 | the connector keeps its URL and its endpoint is `GraphqlUrl`: the given one, else the URL with one `/` and then `graphql` |
| GraphQLConnector.GraphQL.GetBlocksTsByNumbersRange | src/ethhelper/connectors/http/graphql.py:106-160 | the method computes the merge of its queries as written |
| GraphQLConnector.GraphQL.FetchChunks | src/ethhelper/connectors/http/graphql.py:134-148 | the chunk loop with `|=` computes the merge of the written queries |
| WsSubscriber.Decode | src/ethhelper/connectors/ws/base.py:115-116 | a bytes frame is decoded as UTF-8 or raises `UnicodeDecodeError`; a text frame is kept |
| WsSubscriber.Classify | src/ethhelper/connectors/ws/base.py:119-126 | a frame that reads as a push is a push; otherwise, if it reads as a success reply, a reply |
| WsSubscriber.ClassifyNeverRaisesGethError | src/ethhelper/connectors/ws/base.py:124-126 | the `GethError` of the receive loop is never raised: failures are validation or type errors |
| WsSubscriber.ErrorFrameReachesHandle | src/ethhelper/connectors/ws/base.py:119-127 | a JSON-RPC error frame reaches `handle` as a success reply with `result` `None` |
| WsSubscriber.Receive | src/ethhelper/connectors/ws/base.py:114-127 | text and valid UTF-8 bytes frames are classified from their body |
| WsBlock.HandleStep | src/ethhelper/connectors/ws/block.py:59-88 | while syncing, a non-reply raises `GethIsDead` and a reply sets the event, closing the gate exactly on `false`; then the first message must be a reply with a string token or `NoSubscribeToken`; after both, pushes go to `on_block` and replies to `on_other` |
| WsBlock.DeliveriesNeedOpenGates | src/ethhelper/connectors/ws/block.py:69-88 | over any message list the gates never close again, and every delivery needs both gates open |
| WsBlock.FirstDeliveryAfterTwoMessages | src/ethhelper/connectors/ws/block.py:69-88 | from a fresh connection the first two messages are never delivered |
| WsBlock.SendStep | src/ethhelper/connectors/ws/base.py:95-110 | `send` increments the id and sends a request with that id, changing nothing else |
| WsBlock.Connect | src/ethhelper/connectors/ws/block.py:45-49 | a connection starts at id 0, resets the gates and sends one `eth_syncing` poll with id 1 |
| WsBlock.ConnIds | src/ethhelper/connectors/ws/base.py:72-73 | on every connection the `k`-th request sent carries id `k + 1` |
| WsBlock.SubscribeOnlyWhenSynced | src/ethhelper/connectors/ws/block.py:48-56 | a connection has subscribed exactly when `after_connection` has returned, which happens only after the syncing gate closed; the subscription is the last request |
| WsBlock.ConnectValid | src/ethhelper/connectors/ws/block.py:45-49 | a new connection satisfies the connection invariant |
| WsBlock.ResumeValid | src/ethhelper/connectors/ws/block.py:48-56 | resuming `after_connection` preserves the invariant |
| WsBlock.ReceiveAllValid | src/ethhelper/connectors/ws/base.py:114-127 | the receive loop preserves the invariant over any frames |
| WsBlock.AttemptValid | src/ethhelper/connectors/ws/base.py:75-78 | every connection attempt ends in a valid state |
| WsBlock.SilentNodeHangs | src/ethhelper/connectors/ws/block.py:48-51 | a node that closes without answering the poll leaves `after_connection` waiting on its event forever |
| WsBlock.SyncedNodeSubscribes | src/ethhelper/connectors/ws/block.py:38-83 | a synced node (`false`, then a token) gets the poll and the `newHeads` subscription with ids 1 and 2, and the token is recorded |
| WsBlock.StreamingDeliversPushes | src/ethhelper/connectors/ws/block.py:84-88 | once both gates are open, every push is delivered in order, no frame raises, and nothing else about the connection changes (nothing is sent, no other reply recorded) |
| WsBlock.PushStep | src/ethhelper/connectors/ws/block.py:84-88 | one push frame with both gates open appends its result to the delivered blocks |
| WsBlock.ReceiveAllStep | src/ethhelper/connectors/ws/base.py:114-127 | the loop handles the first frame and continues with the rest only if it did not raise |
| WsBlock.Resume | src/ethhelper/connectors/ws/block.py:48-56 | one pass of `after_connection` sends at most one request and leaves the gates alone; once it has returned nothing changes; when it returns it has subscribed, keeping the subscription id |
| WsBlock.FrameStep | src/ethhelper/connectors/ws/base.py:114-127 | one frame appends at most one request; a frame that raises, or any frame after `after_connection` returned, sends nothing |
| WsBlock.ReceiveAll | src/ethhelper/connectors/ws/base.py:112-127 | the loop only appends requests, at most one per frame, and none once `after_connection` has returned |
| WsBlock.EndOf | src/ethhelper/connectors/ws/base.py:75-93 | a connection whose `after_connection` returned reconnects; one whose syncing event was never set hangs |
| WsBlock.EndOfWhilePolling | src/ethhelper/connectors/ws/base.py:75-93 | once the syncing event is set but `after_connection` still polls, the attempt hangs exactly when the receive loop raised |
| WsBlock.AttemptStep | src/ethhelper/connectors/ws/base.py:72-93 | a failed connection only resets the id and reconnects; an attempt hangs only on an open connection whose `after_connection` has not returned |
| WsBlock.Runs | src/ethhelper/connectors/ws/base.py:70-93 | `run` makes at most the attempts scheduled before the first `close`, and stops short only after an attempt that hung with `after_connection` unfinished |
| WsBlock.SuccessDocReadsBack | src/ethhelper/connectors/ws/base.py:122-123 | a success document reads as that reply |
| WsBlock.Subscriber.constructor | src/ethhelper/connectors/ws/base.py:51-55 | a subscriber starts open and unbound, having delivered nothing |
| WsBlock.Subscriber.Bind | src/ethhelper/connectors/ws/base.py:57-68 | `bind` of a closed subscriber raises `ValueError`; otherwise it binds |
| WsBlock.Subscriber.Close | src/ethhelper/connectors/ws/base.py:164-177 | `close` is idempotent and leaves the connection state alone |
| WsBlock.Subscriber.Send | src/ethhelper/connectors/ws/base.py:95-110 | the state after `send` is `SendStep` of the state before |
| WsBlock.Subscriber.Subscribe | src/ethhelper/connectors/ws/base.py:129-138 | `subscribe` sends `eth_subscribe` with the next id and returns it |
| WsBlock.Subscriber.Handle | src/ethhelper/connectors/ws/block.py:59-88 | the gates and outcome after `handle` are `HandleStep` of the gates before |
| WsBlock.Subscriber.StartConnection | src/ethhelper/connectors/ws/block.py:45-49 | the state after the id reset and the first poll is `Connect` of the state before |
| WsBlock.Subscriber.ResumeAfterConnection | src/ethhelper/connectors/ws/block.py:48-56 | one resumption of `after_connection` is `Resume` |
| WsBlock.Subscriber.HandleFrame | src/ethhelper/connectors/ws/base.py:114-127 | one frame of the loop, then one resumption, is `FrameStep` |
| WsBlock.Subscriber.ReceiveLoop | src/ethhelper/connectors/ws/base.py:112-127 | the loop over a connection's frames computes `ReceiveAll` |
| WsBlock.Subscriber.RunAttempt | src/ethhelper/connectors/ws/base.py:72-93 | the new state and the way the attempt ends are `AttemptStep` of the old state: a failed connection changes only the id, to 0, and reconnects |
| WsBlock.Subscriber.Run | src/ethhelper/connectors/ws/base.py:70-93 | a closed subscriber makes no attempt and changes nothing; an open one ends in the state, after the number of attempts, that `Runs` gives for the schedule; the subscriber ends closed exactly when `close` was called |
| LegacyHttp.LegacySendOutcome | src/ethhelper/connnectors/http/base.py:56-74 | the inline parse of the older `send` behaves exactly as the newer `send` |
| LegacyHttp.LegacySendNeverRaisesGethError | src/ethhelper/connnectors/http/base.py:64-74 | the older `send` never raises `GethError` either |
| LegacyHttp.LegacyClient.constructor | src/ethhelper/connnectors/http/base.py:44-46 | a new client starts its counter at 0 |
| LegacyHttp.LegacyClient.Send | src/ethhelper/connnectors/http/base.py:48-74 | the same id allocation as the newer client, and the outcome of the inline parse |
| LegacyHttp.LegacyClient.IsConnected | src/ethhelper/connnectors/http/base.py:76-86 | true exactly when a `net_version` call raises nothing |
| LegacyCustom.FixedOffset | src/ethhelper/connnectors/http/custom.py:43-46 | `fromtimestamp` at a fixed UTC offset is strictly increasing |
| LegacyCustom.LegacyBinarySearch | src/ethhelper/connnectors/http/custom.py:41-59 | the height returned lies in `[start, end]` |
| LegacyCustom.LegacySearchIsSearch | src/ethhelper/connnectors/http/custom.py:41-59 | the older search is the newer one over the heights' datetimes |
| LegacyCustom.DatesIncrease | src/ethhelper/connnectors/http/custom.py:43-46 | increasing timestamps and an increasing `fromtimestamp` give increasing datetimes |
| LegacyCustom.LegacySearchFindsFirst | src/ethhelper/connnectors/http/custom.py:41-59 | with increasing datetimes bracketing the target, the first height whose datetime reaches it |
| LegacyCustom.TruncDiv | src/ethhelper/connnectors/http/custom.py:65-66 | `int()` of a quotient truncates toward zero |
| LegacyCustom.LegacyWindowAgrees | src/ethhelper/connnectors/http/custom.py:61-66 | for whole-second datetimes the older window is the newer one |
| LegacyCustom.LegacyWindowOrdered | src/ethhelper/connnectors/http/custom.py:65-66 | for a past target the window is ordered and spans at least ten heights |
| LegacyCustom.SubSecondFutureIsNow | src/ethhelper/connnectors/http/custom.py:65-66 | a target less than a second ahead truncates to no difference at all |
| LegacyCustom.LegacyWindow | src/ethhelper/connnectors/http/custom.py:61-66 | for a past target the upper bound is at most the head plus 5; a target less than a second away either way gives the head plus or minus 5 |
| LegacyCustom.LegacyHeightAfterDt | src/ethhelper/connnectors/http/custom.py:61-69 | when the window is ordered the height found lies in it |
| LegacyCustom.LegacyHeightAfterDtFindsFirst | src/ethhelper/connnectors/http/custom.py:61-69 | when the window brackets the target, the height returned is the first block at or after it |
| LegacyWs.LegacyHandleStep | src/ethhelper/connnectors/ws/block.py:34-46 | only the token gate: it never raises `GethIsDead`, and with the syncing gate open it is the newer `handle` |
| LegacyWs.LegacyConnect | src/ethhelper/connnectors/ws/block.py:27-32 | the older connection sends only the `newHeads` subscription with id 1 and arms the token gate |
| LegacyWs.LegacyConnectValid | src/ethhelper/connnectors/ws/block.py:27-32 | an older connection satisfies the newer connection invariant |
| LegacyWs.LegacyFrameStep | src/ethhelper/connnectors/ws/base.py:70-84 | a frame of the older loop changes only the gates, and a frame that raises changes nothing and never raises `GethIsDead` |
| LegacyWs.LegacyFrameStepIsFrameStep | src/ethhelper/connnectors/ws/base.py:70-84 | once `after_connection` has returned, a frame of the older loop is a frame of the newer one |
| LegacyWs.LegacyReceiveAll | src/ethhelper/connnectors/ws/base.py:70-84 | the older loop sends nothing after the subscription and always ends in a reconnection |
| LegacyWs.LegacyConnectionSendsOnlySubscription | src/ethhelper/connnectors/ws/base.py:49-61 | every older connection sent exactly the subscription with id 1 and never hangs |
| LegacyWs.LegacyAttemptStep | src/ethhelper/connnectors/ws/base.py:49-61 | an older attempt resets the id; a failed connection changes nothing else, and an opened one leaves only the subscription sent, with id 1 |
| LegacyWs.LegacyRuns | src/ethhelper/connnectors/ws/base.py:49-61 | the older `run` makes exactly the attempts scheduled before the first `close`, leaves the state unchanged when it makes none, and never lets the id pass 1 |
| LegacyWs.LegacyFirstMessageIsToken | src/ethhelper/connnectors/ws/block.py:35-42 | the first message must be a reply carrying a string; a push first is fatal |
| LegacyWs.LegacySubscriber.constructor | src/ethhelper/connnectors/ws/block.py:22-25 | a subscriber starts open, unbound, with the token gate armed |
| LegacyWs.LegacySubscriber.Bind | src/ethhelper/connnectors/ws/base.py:42-47 | `bind` of a closed subscriber raises `ValueError` |
| LegacyWs.LegacySubscriber.Close | src/ethhelper/connnectors/ws/base.py:97-108 | `close` is idempotent |
| LegacyWs.LegacySubscriber.Send | src/ethhelper/connnectors/ws/base.py:63-68 | the state after `send` is `SendStep` of the state before |
| LegacyWs.LegacySubscriber.AfterConnection | src/ethhelper/connnectors/ws/block.py:30-32 | the state after `after_connection` is `LegacyConnect` |
| LegacyWs.LegacySubscriber.Handle | src/ethhelper/connnectors/ws/block.py:34-46 | the gates and outcome after `handle` are `LegacyHandleStep` |
| LegacyWs.LegacySubscriber.ReceiveLoop | src/ethhelper/connnectors/ws/base.py:70-84 | the older loop computes the newer `ReceiveAll` |
| LegacyWs.LegacySubscriber.RunAttempt | src/ethhelper/connnectors/ws/base.py:49-61 | the state after the attempt is `LegacyAttemptStep` of the state before: a failed connection changes only the id, to 0; otherwise the attempt sends only the subscription and its state is the newer `ReceiveAll` from `LegacyConnect` |
| LegacyWs.LegacySubscriber.Run | src/ethhelper/connnectors/ws/base.py:49-61 | from an open subscriber the final state and attempt count are `LegacyRuns` of the start state and the schedule, so every attempt before the first `close` is made; a closed subscriber makes none and keeps its state; the subscriber ends closed iff the schedule closes it |

## Left out

- I/O, logging, `asyncio` tasks and sleeps: the HTTP POST, the GraphQL POST, the WebSocket and the clock are parameters; the five-second sleeps before a reconnection or a new syncing poll are not modelled.
- Concurrency between `after_connection` and the receive loop is modelled as one interleaving: `after_connection` resumes once after each frame the loop handles. Other interleavings are not modelled.
- `close` after `bind`: cancelling `run_task` and `recv_loop` and closing the socket are not modelled, nor the `AttributeError` a `close` before the first connection raises on `self.ws`. `close` sets the flag and `run` stops before its next attempt.
- The exception paths of `run` are abstracted: a connection that fails or a receive loop that ends becomes `Reconnect`. A receive loop that ends while `after_connection` still waits on its event becomes `Hang`, and so does a receive loop that raises (a push during the syncing stage raises `GethIsDead`, say) while `after_connection` is still polling a syncing node: the socket stays open, `after_connection` never returns and `run` never reconnects. A receive loop that ends without raising after the event was set becomes `Reconnect`, because the next poll fails on the closed socket.
- `on_block` receives the raw `params.result`; `Block.parse_obj` and `Log.parse_obj` (datatypes/eth.py) are not part of this model. In particular Custom.Blocks and Custom.BlocksLeaf return the raw `result` documents, so a `null` result (an unknown height, or any error reply, which reads as a success with result `None`) comes back as `JNull` inside `Ok` where `Block.parse_obj` would raise `ValidationError`. `on_other` keeps the replies it receives.
- Custom.GetLogsByBlocks: `get_logs` (the Web3 call) is a parameter that returns the logs or raises; the filter parameters are not modelled.
- The pass-through methods to Web3 (`connectors/http/eth.py`, `net.py`, `txpool.py`) are not part of this model.
- pydantic's integer parsing: whitespace, underscores, `0o`/`0b` prefixes and the limit on the length of integer strings are not modelled; such strings are treated as malformed.
- JSON floats are not modelled; numbers are integers.
- Dict key order is not modelled, nor which key object Python keeps when `True` and `1` collide as keys: maps are keyed by the normalised value.
- `dict(items)` over a list is modelled for elements that are two-element lists or two-character strings; an element that is a two-key dict (whose keys Python would take as the pair) is treated as invalid.
- Exceptions.GraphQLMessage: for a `msg` that is a non-empty dict the joined text is not computed (`None`), because it depends on key order; the exception is still raised with that `msg`.
- Values.IntStrInit: `IntStr(True)` stores the integer 1 (and `False` 0), where Python keeps the `bool` object, which compares and hashes as that integer.
- GraphQLConnector.SendQuery: the query text is abstracted to the heights it asks for; the GraphQL syntax is not modelled.
- LegacyCustom.LegacyHeightAfterDt: `datetime.fromtimestamp` is a parameter, so daylight-saving changes are captured only as an arbitrary map; `total_seconds()` is exact (its floating-point rounding is not modelled).
- `test_connection` of the earlier `connnectors/http/custom.py` combines two connectivity checks of Web3 and is not part of this model.
- The oracles never raise anything but what their result type says (`RequestFailed` for any `httpx` error).

## Findings

| source | as written | input that shows it | evidently intended | confidence | as-written member | corrected member |
|---|---|---|---|---|---|---|
| src/ethhelper/connectors/http/graphql.py:134 | the chunk loop is `range(from_height, to_height, 5001)`, so its last start is below `to_height` | `from_height = 0`, `to_height = 5001`, default step: one query `[0, 5000]`, block 5001 missing | every height of `[from_height, to_height]` is fetched | not executed | GraphQLConnector.DefaultStepCoverage | GraphQLConnector.IntendedCoversRange |
| src/ethhelper/connectors/http/graphql.py:134-143 | the stride is the constant 5001, whatever `step` is, and the chunk calls do not pass `step` on | `step = 20`, `from_height = 16798774`, `to_height = 16799185` (the test's case 4): one query of 21 heights, 412 expected | chunks of `step + 1` heights starting `step + 1` apart | not executed | GraphQLConnector.SmallStepCount | GraphQLConnector.IntendedCoversRange |
