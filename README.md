# crypto_quant in Dafny

A model of the sequential bookkeeping of the crypto_quant trading system: the
part that sits between the exchange feed and the order call. Each component
keeps its structure from the C++ and Python code. Classes whose methods update
fields in place are Dafny classes with `modifies` clauses. Loops stay loops,
with invariants. Pure helpers are functions. Each method is proved against a
specification function, and lemmas prove the properties of that function.

| file | component |
|---|---|
| `books.dfy`, `trading.dfy`, `wrappers.dfy` | shared values: symbols, 20-level order books, strategy and risk parameters, `ExecutionResult`, Option/Result |
| `book_struct.dfy` | `orderbook_t` as a struct in memory, with two 20-slot arrays |
| `orderbook_store.dfy` | the vector-backed `OrderbookManager` (three slots, out-of-range indices ignored) |
| `engine.dfy` | the `StrategyEngine` state machine; the file and its copy inside `strategy_engine_impl.cpp` are the same text |
| `engine_impl.dfy` | the stub `OrderExecutor` and the map-backed `OrderbookManager` of `strategy_engine_impl.cpp` |
| `provider.dfy` | the flags of `MarketDataProvider` and the book each pass of its data thread produces |
| `windows.dfy`, `real_arith.dfy` | bounded FIFO windows, sums and squared deviations, the square-root-free z-score test, and the product facts the proofs use |
| `mean_reversion.dfy`, `momentum.dfy`, `rsi.dfy` | the three C++ rolling-window strategies |
| `executor.dfy`, `signing.dfy` | the exchange `OrderExecutor`: connection states, pre-flight rejects, order queries, reply mapping, the order table, and request signing |
| `byte_order.dfy`, `net_converter.dfy` | host/network byte order on bit-vectors and the wire conversion of books |
| `depth_reply.dfy`, `rest_client.dfy`, `websocket.dfy` | the C REST and WebSocket clients: level-array filling, return codes, flags |
| `fetcher.dfy`, `market_data.dfy` | the two market-data fetchers, their synthetic books, flags, setters and C entry points |
| `symbols.dfy`, `main_helpers.dfy` | symbol/text maps and the helpers of the command-line program |
| `py_binding.dfy` | the four level accessors of the Python binding |
| `py_strategy_base.dfy` | the Python `StrategyBase`: position table, trade log, counters, risk check |
| `py_mean_reversion.dfy`, `py_momentum.dfy`, `float_quotient.dfy` | the Python mean-reversion and momentum strategies, and NumPy's division by zero |
| `py_lstm.dfy` | the non-network trade rules of the LSTM strategy |
| `spy_qqq.dfy` | the SPY/QQQ drawdown-rebalancing back-test |

The following are inputs to the model rather than computed by it:
- Exchange replies, HTTP transport outcomes and parsed JSON are input datatypes.
- Requests the executor would send are appended to a ghost log.
- HMAC-SHA256 and fixed-point number formatting are function-valued fields of the executor.
- Wall-clock readings are parameters.
- Prices and quantities are `real`. Doubles that cross the wire are their 64-bit patterns.

The code does not enforce the daily-loss and orders-per-minute limits of
`RiskParams`: the exchange executor checks only the order size before
submission. Both limits are declared in `RiskParams`
(`include/crypto_quant.h:139-147`) but enforced by no code shown. The model
follows the code, so neither limit is checked anywhere in it.

## Model

| member | source | states |
|---|---|---|
| Books.ZeroBook | include/market_data.h:76-83 | a zero-initialised `orderbook_t`: 20 zero slots a side, both counts 0, symbol 0, timestamp 0 |
| Books.SumQtyNonNegative | src/orderbook/orderbook_manager.cpp:139-146 | with non-negative quantities the depth sum over any prefix is non-negative |
| Books.SumQtyMonotone | src/orderbook/orderbook_manager.cpp:139-146 | with non-negative quantities, summing more levels never gives a smaller depth |
| Books.AccumulateDepth | src/orderbook/orderbook_manager.cpp:139-146 | the depth loop returns the sum of the first min(levels, count) quantities, and 0 when levels <= 0 or the count is 0 |
| Books.SyntheticBook | src/strategy/strategy_engine_impl.cpp:461-478 | one bid at base−5 and one ask at base+5 (base = 50000 + 1000·symbol), quantity 1 each, counts 1, stamped now, every other slot zero, never crossed (spread 10) |
| Books.TopMid | src/strategy/mean_reversion_strategy.cpp:56 | the mid the strategies read from level 0 of both sides is equidistant from the two prices and between them when bid <= ask |
| OrderbookStore.OrderbookManager.constructor | src/orderbook/orderbook_manager.cpp:14-23 | exactly three zero books, each stamped with the construction time |
| OrderbookStore.OrderbookManager.Cleanup | src/orderbook/orderbook_manager.cpp:31-35 | the slot vector is empty, so no symbol index is in range afterwards |
| OrderbookStore.OrderbookManager.UpdateOrderbook | src/orderbook/orderbook_manager.cpp:37-52 | an in-range symbol's slot becomes the book and every other slot is unchanged; an out-of-range index changes nothing |
| OrderbookStore.OrderbookManager.GetOrderbook | src/orderbook/orderbook_manager.cpp:54-64 | the stored book for an in-range index, the zero book otherwise |
| OrderbookStore.OrderbookManager.GetBestBid | src/orderbook/orderbook_manager.cpp:66-80 | level 0's bid price when the slot exists and its bid count is positive, else 0 |
| OrderbookStore.OrderbookManager.GetBestAsk | src/orderbook/orderbook_manager.cpp:82-96 | level 0's ask price when the slot exists and its ask count is positive, else 0 |
| OrderbookStore.OrderbookManager.GetMidPrice | src/orderbook/orderbook_manager.cpp:98-112 | the mean of best bid and best ask when both counts are positive, else 0 |
| OrderbookStore.OrderbookManager.GetSpread | src/orderbook/orderbook_manager.cpp:114-128 | best ask minus best bid when both counts are positive, else 0 |
| OrderbookStore.OrderbookManager.GetBidDepth | src/orderbook/orderbook_manager.cpp:130-147 | the sum of the first min(levels, bid_count) bid quantities; 0 for an out-of-range index or levels <= 0 |
| OrderbookStore.OrderbookManager.GetAskDepth | src/orderbook/orderbook_manager.cpp:149-166 | the sum of the first min(levels, ask_count) ask quantities; 0 for an out-of-range index or levels <= 0 |
| OrderbookStore.OrderbookManager.GetTimestamp | src/orderbook/orderbook_manager.cpp:168-177 | the stored book's timestamp, 0 for an out-of-range index |
| OrderbookStore.OrderbookManager.IsValid | src/orderbook/orderbook_manager.cpp:179-198 | holds iff both counts are positive and both best prices are positive |
| OrderbookStore.DepthMonotone | src/orderbook/orderbook_manager.cpp:130-147 | with non-negative quantities, asking for more levels never reports a smaller bid depth nor a smaller ask depth |
| BookStruct.Orderbook.Value | include/market_data.h:76-83 | the struct's value is a book with exactly 20 slots a side |
| BookStruct.Orderbook.constructor | include/market_data.h:76-83 | a value-initialised struct reads as the zero book |
| BookStruct.Orderbook.Assign | src/market_data/market_data.cpp:101 | after the structure assignment the struct reads as the assigned book, in the same arrays |
| BookStruct.CopyAll | src/market_data/market_data.cpp:101 | every slot of the side array holds the corresponding level |
| Trading.FailedWith | include/crypto_quant.h:150-159 | a default-constructed result (FAILED, id 0, nothing filled) carrying the given message |
| Trading.TakeIds | src/execution/order_executor.cpp:440-457 | at most `limit` ids, exactly min(limit, table size) of them, all table keys and pairwise distinct |
| Engine.StrategyEngine.constructor | src/strategy/strategy_engine.cpp:26 | a new engine is STOPPED, uninitialised, with no strategy and nothing forwarded |
| Engine.StrategyEngine.Initialize | src/strategy/strategy_engine.cpp:28-33 | sets the initialised flag and returns true; status and strategy unchanged |
| Engine.StrategyEngine.Cleanup | src/strategy/strategy_engine.cpp:35-42 | ends STOPPED and uninitialised, keeping the strategy |
| Engine.StrategyEngine.SetStrategy | src/strategy/strategy_engine.cpp:44-48 | replaces the strategy and changes neither status nor the initialised flag |
| Engine.StrategyEngine.Start | src/strategy/strategy_engine.cpp:50-62 | RUNNING exactly when initialised and a strategy is held; otherwise the status is unchanged |
| Engine.StrategyEngine.Stop | src/strategy/strategy_engine.cpp:64-68 | STOPPED from any state, nothing else changed |
| Engine.StrategyEngine.Pause | src/strategy/strategy_engine.cpp:70-74 | PAUSED from any state, nothing else changed |
| Engine.StrategyEngine.GetStatus | src/strategy/strategy_engine.cpp:76-78 | the current status |
| Engine.StrategyEngine.ProcessMarketData | src/strategy/strategy_engine.cpp:80-86 | the book is forwarded to the held strategy iff RUNNING with a strategy; the engine's own state never changes |
| EngineImpl.OrderExecutor.constructor | src/strategy/strategy_engine_impl.cpp:101 | a new stub executor is IDLE, uninitialised, with default risk limits and an empty order table |
| EngineImpl.OrderExecutor.Initialize | src/strategy/strategy_engine_impl.cpp:103-108 | sets the initialised flag and returns true; status, risk limits, credentials and table unchanged |
| EngineImpl.OrderExecutor.Cleanup | src/strategy/strategy_engine_impl.cpp:110-117 | a CONNECTED executor becomes DISCONNECTED, any other status stays; the flag is cleared; table, risk limits and credentials are kept |
| EngineImpl.OrderExecutor.SetRiskParams | src/strategy/strategy_engine_impl.cpp:119-123 | stores the risk limits; status, flag, credentials and table unchanged |
| EngineImpl.OrderExecutor.SetApiCredentials | src/strategy/strategy_engine_impl.cpp:125-130 | stores key and secret; status, flag, risk limits and table unchanged |
| EngineImpl.OrderExecutor.Connect | src/strategy/strategy_engine_impl.cpp:132-137 | always CONNECTED and true, whatever the credentials; flag, risk limits, credentials and table unchanged |
| EngineImpl.OrderExecutor.Disconnect | src/strategy/strategy_engine_impl.cpp:139-143 | DISCONNECTED; table, flag, risk limits and credentials unchanged |
| EngineImpl.OrderExecutor.SubmitOrder | src/strategy/strategy_engine_impl.cpp:149-161 | never rejects: SUCCESS, filled quantity = quantity, average price = price, id = seconds·1000 + table size modulo 2^64, the result stored under that id; status, flag, risk limits and credentials unchanged |
| EngineImpl.OrderExecutor.CancelOrder | src/strategy/strategy_engine_impl.cpp:163-173 | true iff the id is in the table; the id is erased; status, flag, risk limits and credentials unchanged |
| EngineImpl.OrderExecutor.GetBalance | src/strategy/strategy_engine_impl.cpp:175-178 | the simulated balance 10000 |
| EngineImpl.OrderExecutor.GetPosition | src/strategy/strategy_engine_impl.cpp:180-183 | the simulated position 0 |
| EngineImpl.OrderExecutor.GetOrderStatus | src/strategy/strategy_engine_impl.cpp:185-195 | the stored result for a known id, otherwise FAILED "Order not found" with id 0 |
| EngineImpl.OrderExecutor.GetOrderHistory | src/strategy/strategy_engine_impl.cpp:197-205 | distinct known ids, min(max_count, table size) of them; a negative max_count compares as a huge size_t and returns every id |
| EngineImpl.OrderbookManager.constructor | src/strategy/strategy_engine_impl.cpp:216 | an empty, uninitialised map store |
| EngineImpl.OrderbookManager.Initialize | src/strategy/strategy_engine_impl.cpp:218-223 | sets the flag, the books are kept |
| EngineImpl.OrderbookManager.Cleanup | src/strategy/strategy_engine_impl.cpp:225-230 | no books and the flag cleared |
| EngineImpl.OrderbookManager.UpdateOrderbook | src/strategy/strategy_engine_impl.cpp:232-236 | inserts or replaces the book's symbol entry for any symbol value; every other entry unchanged |
| EngineImpl.OrderbookManager.GetOrderbook | src/strategy/strategy_engine_impl.cpp:238-245 | the stored book, or the zero book for an absent symbol |
| EngineImpl.OrderbookManager.GetOrderbookBounded | src/strategy/strategy_engine_impl.cpp:238-245 | every book the store hands out keeps its counts within the 20 slots |
| EngineImpl.OrderbookManager.GetBestBid | src/strategy/strategy_engine_impl.cpp:247-253 | level 0's bid price when the bid count is positive, else 0 |
| EngineImpl.OrderbookManager.GetBestAsk | src/strategy/strategy_engine_impl.cpp:255-261 | level 0's ask price when the ask count is positive, else 0 |
| EngineImpl.OrderbookManager.GetMidPrice | src/strategy/strategy_engine_impl.cpp:263-270 | the mean of best bid and ask when both are positive, else 0; a nonzero mid implies both counts are positive |
| EngineImpl.OrderbookManager.GetSpread | src/strategy/strategy_engine_impl.cpp:272-279 | best ask minus best bid when both are positive, else 0 |
| EngineImpl.OrderbookManager.GetBidDepth | src/strategy/strategy_engine_impl.cpp:281-289 | the sum of the first min(levels, bid_count) bid quantities; 0 for an absent symbol or levels <= 0 |
| EngineImpl.OrderbookManager.GetAskDepth | src/strategy/strategy_engine_impl.cpp:291-299 | the sum of the first min(levels, ask_count) ask quantities; 0 for an absent symbol or levels <= 0 |
| EngineImpl.OrderbookManager.GetTimestamp | src/strategy/strategy_engine_impl.cpp:301-304 | the stored book's timestamp, 0 for an absent symbol |
| EngineImpl.OrderbookManager.IsValid | src/strategy/strategy_engine_impl.cpp:306-309 | holds iff both counts are positive, whatever the prices; never for an absent symbol |
| Executor.OrderQuery | src/execution/order_executor.cpp:154-169 | the order query splits on '&' into exactly symbol, side (BUY for 0, SELL otherwise), type (LIMIT iff price > 0, else MARKET) and quantity, followed by timeInForce=GTC and price exactly for LIMIT |
| Executor.QuantityPartFields | src/execution/order_executor.cpp:162-169 | the tail of the order query is the quantity field, plus timeInForce and price for a positive price |
| Executor.LeadingField | src/execution/order_executor.cpp:165-167 | a field free of '&' prefixed to a query becomes its first field and the rest is untouched |
| Executor.OrderRef | src/execution/order_executor.cpp:263-267 | the status and cancel query is symbol=BTCUSDT then orderId=<id>, whatever the order's pair, and the decimal id reads back as the id |
| Executor.NumberOr | src/execution/order_executor.cpp:185-186 | `j.value(key, default)` with a numeric default: the number, the default when absent, and the JSON type error for a string |
| Executor.ParsedText | src/execution/order_executor.cpp:394-405 | `std::stod(j.value(key, "0"))`: the JSON type error for a number; otherwise what stod reads from the text, or from "0" when absent |
| Executor.Stod | src/execution/order_executor.cpp:394 | succeeds iff stod reads a number, with that number; the stod exception text otherwise |
| Executor.SubmitOutcome | src/execution/order_executor.cpp:174-232 | a reply with an order id is SUCCESS or PARTIAL with that id, and is stored unless a field read throws (then the half-built result carries "Exception: ..."); PARTIAL iff stored and PARTIALLY_FILLED; FILLED sets the filled quantity to the order's; an absent price gives the order price; a code reply is FAILED with its msg or "Unknown error"; every other reply is FAILED and not stored |
| Executor.StatusOutcome | src/execution/order_executor.cpp:387-429 | only an order-id reply can throw; it is written back exactly when it has an order id; SUCCESS iff FILLED and PARTIAL iff PARTIALLY_FILLED; CANCELED and REJECTED give "Order CANCELED"/"Order REJECTED"; an unparsable reply gives FAILED "Parse error" and no write |
| Executor.OrderExecutor.constructor | src/execution/order_executor.cpp:38-41 | IDLE, next id 1, the Binance base URL, default risk limits, no credentials, no orders, no requests |
| Executor.OrderExecutor.Initialize | src/execution/order_executor.cpp:43-50 | IDLE with the next id reset to 1, true; table, limits and credentials unchanged |
| Executor.OrderExecutor.Cleanup | src/execution/order_executor.cpp:52-58 | the table is emptied and the status is IDLE, nothing else changes |
| Executor.OrderExecutor.SetRiskParams | src/execution/order_executor.cpp:60-67 | stores the risk limits, nothing else changes |
| Executor.OrderExecutor.SetApiCredentials | src/execution/order_executor.cpp:69-75 | stores key and secret, nothing else changes |
| Executor.OrderExecutor.GetStatus | src/execution/order_executor.cpp:127-130 | the current connection status |
| Executor.OrderExecutor.Disconnect | src/execution/order_executor.cpp:120-125 | DISCONNECTED, nothing else changes |
| Executor.OrderExecutor.SignedUrl | src/execution/order_executor.cpp:516-528 | the URL starts with the base URL, the endpoint and "?"; the rest splits at '&' into the caller's fields (none for an empty query), one timestamp field and one signature field holding the hex rendering of the signed string's HMAC under the secret (empty when HMAC returns null) |
| Executor.OrderExecutor.SendSignedRequest | src/execution/order_executor.cpp:503-528 | the URL is base + endpoint + "?" + the query, "&" only after a non-empty query, "timestamp=<ms>", and "&signature=" + the hex digest of HMAC(secret, that string); exactly one request is recorded |
| Executor.OrderExecutor.Connect | src/execution/order_executor.cpp:77-118 | true iff both credentials are non-empty and the reply has an account type; CONNECTED when true, ERROR otherwise; no request without credentials, one signed account request with them |
| Executor.OrderExecutor.SubmitOrder | src/execution/order_executor.cpp:132-233 | not connected, or a quantity over the order-size limit, gives its FAILED message with no request and no table change; otherwise one signed POST of the order query, the result `SubmitOutcome` gives, stored under the exchange id when it says so |
| Executor.OrderExecutor.GetOrderStatus | src/execution/order_executor.cpp:361-438 | not connected gives FAILED; an unknown id gives FAILED "Order not found" with no request; a known id sends one status request and takes the reply as `StatusOutcome` maps it, a thrown read leaving the table unchanged |
| Executor.OrderExecutor.CancelOrder | src/execution/order_executor.cpp:235-299 | false with no request when not connected or the id is unknown; for a known id, the status request and `AfterStatus` of its reply, then: a thrown read escapes, a FAILED status answers false, otherwise one DELETE follows and its order-id reply answers true with the entry set FAILED "Order cancelled", any other reply false; every path gives the whole new table and request log |
| Executor.OrderExecutor.SendCancel | src/execution/order_executor.cpp:265-298 | exactly one DELETE request for the order; an order-id reply answers true and marks a known entry FAILED "Order cancelled", any other reply answers false with the table unchanged |
| Executor.AfterStatus | src/execution/order_executor.cpp:361-438 | the table after a status query: the reply written back under the id exactly when it carries an order id, every other key unchanged |
| Executor.OrderExecutor.GetPosition | src/execution/order_executor.cpp:354-359 | always 0, spot trading holds no positions |
| Executor.OrderExecutor.GetOrderHistory | src/execution/order_executor.cpp:440-458 | a negative count makes `reserve` throw; otherwise min(count, table size) distinct ids, all from the table |
| Signing.HexDigit | src/execution/order_executor.cpp:480 | a value below 16 becomes one lowercase hexadecimal digit |
| Signing.HexByte | src/execution/order_executor.cpp:480 | `setw(2) << setfill('0') << hex` on a byte: exactly two lowercase digits whose value is the byte |
| Signing.HexString | src/execution/order_executor.cpp:477-484 | two lowercase hex digits per byte, in byte order |
| Signing.UnhexHexString | src/execution/order_executor.cpp:477-484 | the hex rendering loses nothing: reading it back two digits at a time gives the bytes |
| Signing.HexDigest | src/execution/order_executor.cpp:477-484 | the 32-iteration loop yields the digest's hex string, 64 characters |
| Signing.Signature | src/execution/order_executor.cpp:472-484 | "" exactly when HMAC returns null; otherwise 64 lowercase hex digits that decode to the digest |
| Signing.Decimal | src/execution/order_executor.cpp:522 | `std::to_string` of a non-negative integer is a non-empty run of decimal digits |
| Signing.ParseDecimal | src/execution/order_executor.cpp:267 | reading a decimal digit run back as a number never gives a negative value |
| Signing.ParseDecimalOfDecimal | src/execution/order_executor.cpp:522 | the decimal text reads back as the number it renders |
| Signing.Fields | src/execution/order_executor.cpp:517-526 | splitting a query at '&' always yields at least one field |
| Signing.FieldsOfToken | src/execution/order_executor.cpp:517-526 | text without '&' is one field |
| Signing.FieldsOfJoin | src/execution/order_executor.cpp:518-521 | joining two strings with '&' concatenates their field lists |
| Signing.ToSign | src/execution/order_executor.cpp:517-522 | the signed string splits at '&' into the caller's fields (none for an empty query) followed by exactly one timestamp field |
| Signing.SignedQuery | src/execution/order_executor.cpp:516-526 | with a signature free of '&', the sent query is the caller's fields (none for an empty query) followed by exactly a timestamp field and a signature field |
| ByteOrder.IsLittleEndian | src/utils/network_utils.h:7-23 | the build counts as big-endian exactly when `__BYTE_ORDER__` says big-endian, or it is undefined, no little-endian hint is set and `__BIG_ENDIAN__` is; every other build, unrecognised orders included, is little-endian |
| ByteOrder.SwapsAreInvolutions | src/utils/network_utils.h:30-36 | the 2-byte and 4-byte swaps of `htons`/`htonl` undo themselves |
| ByteOrder.HalvesTogether | src/utils/network_utils.h:40-41 | a 64-bit value is its low half ORed with its high half shifted up by 32 |
| ByteOrder.HtonlInvolution | src/utils/network_utils.h:34-36 | `htonl` applied twice is the identity on either host order |
| ByteOrder.HighOfHton64 | src/utils/network_utils.h:40-41 | on the little-endian path the high half of the result is htonl of the low half |
| ByteOrder.LowOfHton64 | src/utils/network_utils.h:40-41 | on the little-endian path the low half of the result is htonl of the high half |
| ByteOrder.RoundTrips | src/utils/network_utils.h:30-83 | every to-network conversion (16, 32, 64 bits and the double's bit pattern) and its counterpart undo each other in both orders, on every build |
| ByteOrder.Ntoh64IsHton64 | src/utils/network_utils.h:38-62 | `ntoh64` and `hton64` compute the same function |
| ByteOrder.Hton64IsByteReversal | src/utils/network_utils.h:38-45 | on a little-endian host built as such, `hton64` leaves in memory the value's big-endian bytes (a full 8-byte reversal); on a big-endian build it is the identity |
| ByteOrder.Hton32IsByteReversal | src/utils/network_utils.h:34-36 | on a little-endian host `hton32` reverses the 4 bytes |
| ByteOrder.Hton16 | src/utils/network_utils.h:30-32 | the network value converts back to the host value under `htons`; on a little-endian host its two bytes are the host value's swapped, on a big-endian host it is the value itself |
| ByteOrder.Ntoh16 | src/utils/network_utils.h:47-49 | the host value converts back to what was received; the two bytes swap on a little-endian host and stay on a big-endian one |
| ByteOrder.Hton32 | src/utils/network_utils.h:34-36 | the network value converts back to the host value under `htonl`, and is the value itself on a big-endian host |
| ByteOrder.Ntoh32 | src/utils/network_utils.h:51-53 | the host value converts back under `htonl` to what was received, and is it unchanged on a big-endian host |
| ByteOrder.Hton64 | src/utils/network_utils.h:38-45 | `ntoh64` of the result is the original value on every build, even one whose endianness detection disagrees with the host; on a big-endian build nothing moves |
| ByteOrder.Ntoh64 | src/utils/network_utils.h:55-62 | on the little-endian path, crossing the halves of the result again gives back the received value; on a big-endian build the value is returned as received |
| ByteOrder.HtonDouble | src/utils/network_utils.h:65-73 | the double's bit pattern converts back under `ntoh_double` on every build, and is unchanged on a big-endian build |
| ByteOrder.NtohDouble | src/utils/network_utils.h:75-83 | on the little-endian path, crossing the halves of the result gives back the received pattern; unchanged on a big-endian build |
| NetConverter.Visited | src/utils/network_converter.cpp:24 | a loop `i < count && i < 20` visits min(count, 20) slots, never more than 20 |
| NetConverter.ConvertLevels | src/utils/network_converter.cpp:24-35 | slot i holds the converted level for i below min(count, 20) and stays zero from there on |
| NetConverter.WireImage | src/utils/network_converter.cpp:10-36 | the wire image is 20 slots a side with zero reserved bytes, and every slot from min(count, 20) on is zero |
| NetConverter.HostOf | src/utils/network_converter.cpp:39-65 | the host book read from a wire image has 20 slots a side, and every slot from min(count, 20) on (the converted count) is zero |
| NetConverter.LevelToNet | src/utils/network_converter.cpp:25-27 | a level converted field by field to network order reads back, on the same build, bit for bit as the original |
| NetConverter.LevelFromNet | src/utils/network_converter.cpp:53-55 | a level read field by field from network order converts back to exactly the level received |
| NetConverter.LevelsRoundTrip | src/utils/network_converter.cpp:24-64 | one side's visited levels survive the round trip and the rest come back zero |
| NetConverter.SymbolByte | src/utils/network_converter.cpp:18-47 | a symbol below 256 survives the cast to its low byte and back |
| NetConverter.RoundTrip | src/utils/network_converter.cpp:10-65 | reading back what `orderbook_to_net` wrote gives the original header and its first min(count, 20) levels a side, every later level zero, on every build, for a symbol that fits a byte |
| NetConverter.ConvertSide | src/utils/network_converter.cpp:24-35 | the conversion loop over one side yields exactly `ConvertLevels` of it |
| NetConverter.OrderbookToNet | src/utils/network_converter.cpp:10-36 | a null argument leaves the output untouched; otherwise the output becomes the wire image |
| NetConverter.OrderbookFromNet | src/utils/network_converter.cpp:39-65 | a null argument leaves the output untouched; otherwise the output becomes the host book read from the image, its counts stored as received even above 20 |
| DepthReply.Clamped | src/market_data/rest_client.cpp:205-206 | the visited slot count is the array size cut to 32 bits and then clamped to 20: never above 20 nor above the size, and min(size, 20) for any size that fits 32 bits |
| DepthReply.FillFrom | src/market_data/rest_client.cpp:208-213 | the level loop keeps the 20-slot shape of the side it writes |
| DepthReply.Read | src/market_data/rest_client.cpp:209-212 | reading one entry never touches the slot's timestamp |
| DepthReply.FillFromSpec | src/market_data/rest_client.cpp:208-213 | the loop finishes iff no visited level has a throwing cell; then each visited slot holds its entry's price and quantity (a non-level entry leaves its slot alone); slots outside the visited range are untouched even after a throw |
| DepthReply.ReadSide | src/market_data/rest_client.cpp:204-214 | an absent or non-array side changes nothing; a present one sets the count to the clamped size before the loop |
| DepthReply.ReadSideSpec | src/market_data/rest_client.cpp:204-227 | a present side reads iff its visited levels are readable; then slot j holds entry j below the new count and every slot from the count on keeps its old level |
| DepthReply.FillSide | src/market_data/websocket_client.cpp:74-79 | the array loop over one side does exactly what `FillFrom` describes, early exit on a throw included |
| DepthReply.ReadBids | src/market_data/websocket_client.cpp:70-80 | the bids side of the struct becomes `ReadSide` of the reply's "bids"; the asks, symbol and timestamp are untouched |
| DepthReply.ReadAsks | src/market_data/websocket_client.cpp:83-93 | the asks side of the struct becomes `ReadSide` of the reply's "asks"; the bids, symbol and timestamp are untouched |
| RestClient.DepthEndpoint | src/market_data/rest_client.cpp:175-193 | the depth endpoint is the fixed path, the pair's exchange name and "&limit=20" |
| RestClient.DepthEndpointNamesPair | src/market_data/rest_client.cpp:175-193 | the pair's exchange name sits between the path and the limit, and names the requested pair back for every enum value |
| RestClient.PriceBook | src/market_data/rest_client.cpp:149-159 | the ticker book is zeroed except one bid at price−5 and one ask at price+5, each of quantity 1, with counts 1 and the given time |
| RestClient.PriceBookAtBaseIsSynthetic | src/market_data/rest_client.cpp:149-159 | at the pair's base price the ticker book equals the provider's synthetic fallback book |
| RestClient.DepthInto | src/market_data/rest_client.cpp:200-246 | the return code is 0 or −1; on 0 the symbol and time are set; on −1 they are the caller's, with the partial writes kept |
| RestClient.DepthIntoSpec | src/market_data/rest_client.cpp:200-246 | code 0 iff both present sides read; each present side then shows its entries below the clamped count and keeps the caller's stale slots past it; an absent side keeps its count and slots |
| RestClient.RestClient.constructor | src/market_data/rest_client.cpp:23 | no key, no secret, a 10-second timeout, not initialised |
| RestClient.Create | src/market_data/rest_client.cpp:41-63 | no client iff curl cannot be set up; otherwise an initialised client with the base URL (empty for a null one) and no credentials |
| RestClient.SetCredentials | src/market_data/rest_client.cpp:74-92 | −1 and no change for a null or uninitialised client; otherwise 0, and a null key or secret leaves that field as it was |
| RestClient.Get | src/market_data/rest_client.cpp:95-126 | −1 with no request for an unusable client or a null endpoint; otherwise base URL + endpoint is requested and the code is 0 iff the transfer completed with HTTP 200 |
| RestClient.GetMarketData | src/market_data/rest_client.cpp:129-172 | always requests the BTCUSDT ticker; 0 iff the client is usable, the request succeeds and "price" is a JSON number, and then the book is the one-level ticker book; −1 leaves the caller's book untouched; an unusable client or a null book sends no request; base URL, credentials and timeout are unchanged |
| RestClient.GetOrderbook | src/market_data/rest_client.cpp:185-247 | requests the pair's depth endpoint; a parsed reply gives the code and book `DepthInto` gives; an invalid call, a failed request or an unparsable body give −1 with the book untouched; an unusable client or a null book sends no request; base URL, credentials and timeout are unchanged |
| WebSocket.ContainsAfter | src/market_data/websocket_client.cpp:49 | `find` succeeds on any string with the pattern somewhere in it |
| WebSocket.MissingCharNotContained | src/market_data/websocket_client.cpp:55-61 | a string missing one of the pattern's characters does not contain the pattern |
| WebSocket.StreamSymbol | src/market_data/websocket_client.cpp:52-61 | the pair is the first of btcusdt, ethusdt, btceth found in the stream name, else the zeroed SYMBOL_BTC_USDT |
| WebSocket.DepthBook | src/market_data/websocket_client.cpp:39-110 | a book is delivered only for a parsed payload with a textual stream containing "@depth" and a data member, and then it is bounded, carries the arrival time and the stream's pair |
| WebSocket.CountOf | src/market_data/websocket_client.cpp:70-72 | a side's count is at most 20 |
| WebSocket.DepthBookSpec | src/market_data/websocket_client.cpp:46-98 | a depth payload is delivered iff both sides' visited levels read; each counted slot then holds its entry's numbers (zero for a non-level entry that is still counted), and every slot past the count is zero |
| WebSocket.NonDepthIgnored | src/market_data/websocket_client.cpp:44-49 | an unparsable payload, or one without a textual depth stream or a data member, delivers nothing |
| WebSocket.StreamNameClassifies | src/market_data/websocket_client.cpp:49-61 | the stream the fetcher subscribes to for each pair is a depth stream that names that pair |
| WebSocket.LowerNames | src/market_data/websocket_client.cpp:55-61 | the lower-case exchange names are btcusdt, ethusdt and btceth |
| WebSocket.StreamOf | src/market_data/websocket_client.cpp:49-61 | a pair's lower-case name followed by "@depth20@100ms" contains "@depth" and classifies as that pair |
| WebSocket.WebSocketClient.constructor | src/market_data/websocket_client.cpp:25 | not running, not initialised, no callback |
| WebSocket.OnWrite | src/market_data/websocket_client.cpp:35-114 | returns size·nmemb modulo 2^64 whatever the payload; the callback gets the payload's book at most once, and only when the count is positive, a callback is set and `DepthBook` yields a book; the handle's flags are untouched |
| WebSocket.Create | src/market_data/websocket_client.cpp:151-173 | no client iff curl cannot be set up; otherwise an initialised, stopped client for the URL (empty for a null one) |
| WebSocket.SetCallback | src/market_data/websocket_client.cpp:188-201 | −1 and no change for an unusable client; otherwise 0 with the callback and user data stored |
| WebSocket.Start | src/market_data/websocket_client.cpp:204-227 | −1 for an unusable client; 0 with no new worker when already running; otherwise running with one worker more, or −1 and stopped when the thread cannot be created |
| WebSocket.Stop | src/market_data/websocket_client.cpp:230-250 | −1 for an unusable client; otherwise 0 and stopped, a second stop being a no-op |
| Fetcher.BinanceSymbol | src/market_data/market_data_fetcher.cpp:235-247 | BTCUSDT, ETHUSDT and BTCETH for the three pairs, BTCUSDT for any other value |
| Fetcher.StreamUrl | src/market_data/market_data_fetcher.cpp:186-190 | the stream URL is the fixed wss base, the lower-cased exchange name and "@depth20@100ms" |
| Fetcher.StreamUrlRoundTrip | src/market_data/market_data_fetcher.cpp:186-190 | the stream in the URL is a depth stream the WebSocket handler files under the same pair; a value outside the enum gets the BTCUSDT stream |
| Fetcher.MarketDataFetcher.constructor | src/market_data/market_data_fetcher.cpp:13-18 | stopped, both sources on, no callback and no WebSocket client |
| Fetcher.MarketDataFetcher.Initialize | src/market_data/market_data_fetcher.cpp:29-34 | always true |
| Fetcher.MarketDataFetcher.InitializeWebSocketClient | src/market_data/market_data_fetcher.cpp:180-233 | true and no change when a client is held; otherwise true iff the new client reports itself initialised and starts, and the pair's stream client is kept exactly then |
| Fetcher.MarketDataFetcher.Start | src/market_data/market_data_fetcher.cpp:36-99 | always 0; no change while running; otherwise running on the pair with one data thread more, and a WebSocket client attempted only when the exchange source is on |
| Fetcher.MarketDataFetcher.Stop | src/market_data/market_data_fetcher.cpp:101-127 | a no-op when stopped; otherwise stopped with the WebSocket client dropped |
| Fetcher.MarketDataFetcher.Tick | src/market_data/market_data_fetcher.cpp:56-94 | one data-thread pass delivers the synthetic book for the current pair only when no running WebSocket client is held and a callback is set, then sleeps 5000 ms with a live client and 1000 ms without |
| Fetcher.MarketDataFetcher.OnWebSocketBook | src/market_data/market_data_fetcher.cpp:202-217 | a non-null book from the WebSocket client is passed on exactly when a callback is set |
| Fetcher.MarketDataFetcher.SetOrderbookCallback | src/market_data/market_data_fetcher.cpp:129-134 | stores the callback |
| Fetcher.MarketDataFetcher.GetOrderbook | src/market_data/market_data_fetcher.cpp:136-141 | the synthetic book, whatever the sources say |
| Fetcher.MarketDataFetcher.SetApiKey | src/market_data/market_data_fetcher.cpp:143-149 | stores key and secret |
| Fetcher.MarketDataFetcher.SetDataSources | src/market_data/market_data_fetcher.cpp:151-156 | stores both source flags |
| Fetcher.GenerateOrderbook | src/market_data/market_data_fetcher.cpp:158-178 | one level a side, bid below ask, centred on 50000 + 1000·symbol |
| MarketData.MarketDataFetcher.constructor | src/market_data/market_data.cpp:28-30 | no callbacks, stopped, both sources on |
| MarketData.MarketDataFetcher.SetCCallback | src/market_data/market_data.cpp:40-45 | stores the C callback and its user data |
| MarketData.MarketDataFetcher.SetCppCallback | src/market_data/market_data.cpp:124-128 | stores the C++ callback |
| MarketData.MarketDataFetcher.Start | src/market_data/market_data.cpp:47-79 | always 0 and running; no change while already running; otherwise running on the pair with one data thread more |
| MarketData.MarketDataFetcher.Stop | src/market_data/market_data.cpp:81-92 | stopped, a no-op when already stopped |
| MarketData.MarketDataFetcher.Tick | src/market_data/market_data.cpp:59-73 | one pass hands the same synthetic book first to the C callback with its user data, then to the C++ callback, each only if set |
| MarketData.MarketDataFetcher.GetOrderbookInto | src/market_data/market_data.cpp:94-103 | −1 iff the `orderbook_t*` argument is null; otherwise 0 with the synthetic book written through it |
| MarketData.MarketDataFetcher.GetOrderbook | src/market_data/market_data.cpp:130-133 | the synthetic book |
| MarketData.MarketDataFetcher.SetApiKeyC | src/market_data/market_data.cpp:105-114 | a null key or secret leaves that field as it was, a non-null one replaces it |
| MarketData.MarketDataFetcher.SetApiKey | src/market_data/market_data.cpp:135-140 | stores key and secret |
| MarketData.MarketDataFetcher.SetDataSourcesC | src/market_data/market_data.cpp:116-121 | any non-zero value switches a source on, zero switches it off |
| MarketData.MarketDataFetcher.SetDataSources | src/market_data/market_data.cpp:142-146 | stores both source flags |
| MarketData.GenerateOrderbook | src/market_data/market_data.cpp:149-168 | one bid at base−5 and one ask at base+5 with base = 50000 + 1000·symbol, counts 1, the given time |
| MarketData.FetcherCreate | src/market_data/market_data.cpp:174-183 | a new stopped fetcher without callbacks, or null when allocation throws |
| MarketData.FetcherSetCallback | src/market_data/market_data.cpp:192-202 | −1 iff the handle is null; otherwise 0 with the C callback and user data stored and every other field unchanged |
| MarketData.FetcherStart | src/market_data/market_data.cpp:204-211 | −1 iff the handle is null; otherwise what `start` does and returns (one more thread and the new pair only when stopped), callbacks, credentials and flags unchanged |
| MarketData.FetcherStop | src/market_data/market_data.cpp:213-221 | −1 iff the handle is null; otherwise 0 and stopped, every other field unchanged |
| MarketData.FetcherGetOrderbook | src/market_data/market_data.cpp:223-232 | −1 iff the handle or the book pointer is null; otherwise 0 with the synthetic book written; a null handle leaves the book untouched |
| MarketData.FetcherSetApiKey | src/market_data/market_data.cpp:234-244 | −1 iff the handle is null; otherwise the null-aware setter, every other field unchanged |
| MarketData.FetcherSetDataSources | src/market_data/market_data.cpp:246-256 | −1 iff the handle is null; otherwise the flags are the non-zero tests of the arguments, every other field unchanged |
| DataProvider.FetchedBook | src/strategy/strategy_engine_impl.cpp:427-458 | the fetched book carries the pair and stays within 20 levels; a REST client that cannot be created leaves the zeroed book with only the symbol set; otherwise the book is stamped with the current time |
| DataProvider.FetchedBookSpec | src/strategy/strategy_engine_impl.cpp:427-458 | the fetched book always carries the pair and stays within 20 levels; with no REST client it is the zeroed book with only the pair set (no fallback); a failed request, an unparsable body or a throwing cell gives the fallback book; a readable reply gives each present side its clamped count and zero slots past the count, stamped now |
| DataProvider.MarketDataProvider.constructor | src/strategy/strategy_engine_impl.cpp:331-332 | not initialised, not running, both sources on, no callback |
| DataProvider.MarketDataProvider.Initialize | src/strategy/strategy_engine_impl.cpp:334-339 | initialised, true |
| DataProvider.MarketDataProvider.Cleanup | src/strategy/strategy_engine_impl.cpp:341-348 | stopped and no longer initialised |
| DataProvider.MarketDataProvider.SetCallback | src/strategy/strategy_engine_impl.cpp:350-354 | stores the callback |
| DataProvider.MarketDataProvider.Start | src/strategy/strategy_engine_impl.cpp:356-390 | true iff initialised; uninitialised or already running changes nothing; otherwise running on the pair with one data thread more |
| DataProvider.MarketDataProvider.Stop | src/strategy/strategy_engine_impl.cpp:392-404 | stopped, a no-op when not running |
| DataProvider.MarketDataProvider.SetApiKey | src/strategy/strategy_engine_impl.cpp:411-416 | stores key and secret |
| DataProvider.MarketDataProvider.SetDataSources | src/strategy/strategy_engine_impl.cpp:418-423 | stores both source flags |
| DataProvider.MarketDataProvider.GenerateOrderbook | src/strategy/strategy_engine_impl.cpp:480-487 | the REST-fetched book when the exchange source is on, the fallback book otherwise |
| DataProvider.MarketDataProvider.Tick | src/strategy/strategy_engine_impl.cpp:373-386 | one pass delivers the generated book for the current pair exactly when a callback is set |
| DataProvider.GenerateFallbackOrderbook | src/strategy/strategy_engine_impl.cpp:461-478 | one level a side at base−5 and base+5 with base = 50000 + 1000·symbol, counts 1, never crossed |
| MainHelpers.BestPrice | src/main.cpp:42-50 | level 0's price for a quoted side, 0 for an empty one |
| MainHelpers.Displayed | src/main.cpp:39-53 | both figures are 0 unless both best prices are positive; then the mid is equidistant from bid and ask (inside them for an uncrossed book) and the spread is ask − bid; a nonzero quote implies both sides are quoted |
| MainHelpers.DisplayedMatchesMapStore | src/main.cpp:52-53 | the program prints the same mid and spread that the engine's map store reports for the stored book |
| MainHelpers.OrdersPerMinute | src/main.cpp:150-152 | the per-second limit becomes a per-minute one: a multiple of 60 whose sixtieth is the configured value |
| MainHelpers.RiskFromConfig | src/main.cpp:259-265 | the position limit is ten orders' worth (never below one order of non-negative size); daily loss and order size are copied; the order rate is the per-minute conversion |
| Symbols.ExchangeSymbol | src/execution/order_executor.cpp:23-36 | BTCUSDT, ETHUSDT or BTCETH, BTCUSDT for any value outside the enum |
| Symbols.SymbolOf | src/main.cpp:105-114 | both spellings of each pair map to it; anything else gives SYMBOL_BTC_USDT |
| Symbols.SymbolOfInvertsExchangeSymbol | src/main.cpp:105-114 | parsing undoes the exchange map on each pair, and the exchange map undoes parsing on each exchange name |
| Symbols.DisplayName | src/main.cpp:29-36 | the exchange name with a '/' after the base asset for each pair; UNKNOWN exactly outside the enum |
| Symbols.PySymbolName | strategies/mean_reversion_strategy.py:91-98 | the exchange name for codes 0, 1, 2, UNKNOWN for any other code |
| Symbols.LowerChar | src/market_data/market_data_fetcher.cpp:188-189 | `tolower` moves A-Z to a-z and leaves every other character |
| Symbols.Lower | src/market_data/market_data_fetcher.cpp:188-189 | the string lower-cased character by character, same length |
| Windows.Push | src/strategy/mean_reversion_strategy.cpp:60-65 | the new value is appended and the oldest dropped once the window exceeds its capacity: length min(n+1, cap), newest last, a plain append below capacity, a shift at capacity |
| Windows.PushEvict | src/strategy/mean_reversion_strategy.cpp:57-65 | the in-place update yields `Push` of the window; the count becomes the new size below capacity and keeps its value on an eviction |
| Windows.Replay | src/strategy/mean_reversion_strategy.cpp:60-65 | a window fed value by value never exceeds its capacity |
| Windows.ReplayIsSuffix | src/strategy/mean_reversion_strategy.cpp:60-65 | after any sequence of ticks the window holds exactly the most recent min(n, cap) values, in order |
| Windows.SumCons | src/strategy/momentum_strategy.cpp:75-81 | summing newest-first gives the same total as oldest-first |
| Windows.SqDev | src/strategy/mean_reversion_strategy.cpp:80-84 | the squared-deviation sum is never negative |
| Windows.SumConstant | src/strategy/mean_reversion_strategy.cpp:73-76 | the sum of n equal values c is n·c |
| Windows.MeanConstant | src/strategy/mean_reversion_strategy.cpp:77 | the mean of a non-empty constant window is that constant |
| Windows.SqDevConstant | src/strategy/mean_reversion_strategy.cpp:80-84 | a constant window has zero deviation from its value |
| Windows.SqDevPositive | src/strategy/mean_reversion_strategy.cpp:80-85 | a window with any value off m has a positive deviation sum, so the variance vanishes only on constant windows |
| Windows.ZAboveIsZScore | src/strategy/mean_reversion_strategy.cpp:85-92 | the root-free test equals d/sigma > t for every standard deviation sigma > 0 with n·sigma² equal to the deviation sum, for thresholds of either sign |
| MeanReversion.Rule | src/strategy/mean_reversion_strategy.cpp:67-100 | NONE while the history is shorter than the lookback or the lookback is not positive; the rule never yields HOLD |
| MeanReversion.RuleIsZScoreTest | src/strategy/mean_reversion_strategy.cpp:72-98 | over the last lookback values, SELL iff z > threshold and BUY iff not that and z < −threshold, for z = (newest − mean)/sigma |
| MeanReversion.ConstantWindowNoSignal | src/strategy/mean_reversion_strategy.cpp:72-100 | equal values in the lookback window give NONE for any threshold |
| MeanReversion.Evaluate | src/strategy/mean_reversion_strategy.cpp:67-100 | the sum and variance loops over the last lookback values compute exactly `Rule` |
| MeanReversion.MeanReversionStrategy.constructor | src/strategy/mean_reversion_strategy.cpp:18-24 | STOPPED with default parameters and three empty windows with zero counts |
| MeanReversion.MeanReversionStrategy.Initialize | src/strategy/mean_reversion_strategy.cpp:26-31 | STOPPED and true; windows, counts and parameters kept |
| MeanReversion.MeanReversionStrategy.Cleanup | src/strategy/mean_reversion_strategy.cpp:33-41 | every window emptied, every count zero, STOPPED |
| MeanReversion.MeanReversionStrategy.GetStatus | src/strategy/mean_reversion_strategy.cpp:103-106 | the current status |
| MeanReversion.MeanReversionStrategy.SetStatus | src/strategy/mean_reversion_strategy.cpp:119-122 | sets the status, nothing else changes |
| MeanReversion.MeanReversionStrategy.SetParams | src/strategy/mean_reversion_strategy.cpp:108-112 | sets the parameters, nothing else changes |
| MeanReversion.MeanReversionStrategy.GetParams | src/strategy/mean_reversion_strategy.cpp:114-117 | the current parameters |
| MeanReversion.MeanReversionStrategy.ProcessMarketData | src/strategy/mean_reversion_strategy.cpp:43-101 | not RUNNING or a symbol outside [0, 3) gives NONE with no change; otherwise level 0's mid is pushed into that symbol's window (counts tracking lengths, at most 100) and the signal is `Rule` of the new window |
| Momentum.Rule | src/strategy/momentum_strategy.cpp:67-98 | NONE for a negative long period, whose `size_t` conversion is huge, or a history shorter than the long period; NONE when either period is 0, since its average is NaN; a zero long average gives BUY, SELL or NONE by the sign of the short average, as the infinite or NaN quotient does; never HOLD |
| Momentum.MovingAverage | src/strategy/momentum_strategy.cpp:75-84 | `sum / period` in double precision: the mean of the newest n values for n ≥ 1, NaN for n = 0, and a zero for a negative n, whose loop never runs |
| Momentum.MomentumOf | src/strategy/momentum_strategy.cpp:87 | `(short_ma − long_ma) / long_ma` is finite iff both averages are finite and the long one is non-zero, and then short = long·(1 + momentum); against a zero long average the sign of the short one picks +∞, −∞ or NaN |
| Momentum.NegativeShortPeriodSells | src/strategy/momentum_strategy.cpp:75-96 | a negative short period against a non-zero long average has momentum exactly −1, so SELL for every threshold in [−1, 1) |
| Momentum.RuleAsRatio | src/strategy/momentum_strategy.cpp:83-96 | for a positive long average and a non-negative threshold, BUY iff short > long·(1 + threshold) and SELL iff short < long·(1 − threshold) |
| Momentum.ConstantWindowNoSignal | src/strategy/momentum_strategy.cpp:72-98 | equal values across the long window give NONE for every threshold ≥ 0 |
| Momentum.NewestSum | src/strategy/momentum_strategy.cpp:75-81 | the newest-first loop sums exactly the newest n values, and gives 0 for n ≤ 0 |
| Momentum.Evaluate | src/strategy/momentum_strategy.cpp:67-98 | for every period pair whose reads stay inside the history, zero and negative periods included, the length check, the two summing loops and the quotients compute exactly `Rule` |
| Momentum.MomentumStrategy.constructor | src/strategy/momentum_strategy.cpp:18-24 | STOPPED with default parameters and three empty windows with zero counts |
| Momentum.MomentumStrategy.Initialize | src/strategy/momentum_strategy.cpp:26-31 | STOPPED and true; windows, counts and parameters kept |
| Momentum.MomentumStrategy.Cleanup | src/strategy/momentum_strategy.cpp:33-41 | every window emptied, every count zero, STOPPED |
| Momentum.MomentumStrategy.GetStatus | src/strategy/momentum_strategy.cpp:101-104 | the current status |
| Momentum.MomentumStrategy.SetStatus | src/strategy/momentum_strategy.cpp:117-120 | sets the status, nothing else changes |
| Momentum.MomentumStrategy.SetParams | src/strategy/momentum_strategy.cpp:106-110 | sets the parameters, nothing else changes |
| Momentum.MomentumStrategy.GetParams | src/strategy/momentum_strategy.cpp:112-115 | the current parameters |
| Momentum.MomentumStrategy.ProcessMarketData | src/strategy/momentum_strategy.cpp:43-99 | not RUNNING or a symbol outside [0, 3) gives NONE with no change; otherwise level 0's mid is pushed into that symbol's window and the signal is `Rule` of the new window, for every period pair whose reads stay inside that window |
| Rsi.Gains | src/strategy/rsi_strategy.cpp:23-27 | the summed rises over a range of consecutive price changes are never negative |
| Rsi.Losses | src/strategy/rsi_strategy.cpp:23-29 | the summed falls over a range of consecutive price changes are never negative |
| Rsi.NoFallNoLoss | src/strategy/rsi_strategy.cpp:23-29 | prices that never fall over a range accumulate no loss |
| Rsi.AllFallNoGain | src/strategy/rsi_strategy.cpp:23-29 | prices that fall at every step accumulate no gain and, over a non-empty range, a positive loss |
| Rsi.RsiOf | src/strategy/rsi_strategy.cpp:16-41 | the index lies in [0, 100]: the neutral 50 for a short history, 100 when the window has no loss, and otherwise 100·G/(G + L), the gains' share of all movement |
| Rsi.NoFallIsHundred | src/strategy/rsi_strategy.cpp:35-37 | flat or rising prices over the last period changes give exactly 100 |
| Rsi.AllFallIsZero | src/strategy/rsi_strategy.cpp:32-40 | prices falling at every one of the last period changes give exactly 0 |
| Rsi.CalculatedRsi | src/strategy/rsi_strategy.cpp:16-41 | the index `RsiOf` for period ≥ 1; NaN for period 0 (0/0 averages); 100 for period −1 (no change visited, a zero average loss); the neutral 50 for period ≤ −2, whose `size_t` bound is huge |
| Rsi.CalculateRsi | src/strategy/rsi_strategy.cpp:16-41 | for every `int` period the gain/loss loop and the double-precision quotients compute exactly `CalculatedRsi` |
| Rsi.Rule | src/strategy/rsi_strategy.cpp:93-110 | NONE below period + 1 values or for period ≤ −2; NONE for period 0 (a NaN index); for period ≥ 1, BUY iff the index is under the oversold level and SELL iff it is not and it is above the overbought level; for period −1 the same tests on an index of 100 |
| Rsi.NoFallSells | src/strategy/rsi_strategy.cpp:93-110 | a flat or rising window gives SELL whenever the overbought level is below 100 and the oversold level at most 100 |
| Rsi.AllFallBuys | src/strategy/rsi_strategy.cpp:93-110 | a window falling at every step gives BUY whenever the oversold level is above 0 |
| Rsi.Evaluate | src/strategy/rsi_strategy.cpp:93-110 | for every `int` period, the length check, `calculateRSI` and the threshold comparisons compute exactly `Rule` |
| Rsi.RsiStrategy.constructor | src/strategy/rsi_strategy.cpp:44-50 | STOPPED with default parameters and three empty windows with zero counts |
| Rsi.RsiStrategy.Initialize | src/strategy/rsi_strategy.cpp:52-57 | STOPPED and true; windows, counts and parameters kept |
| Rsi.RsiStrategy.Cleanup | src/strategy/rsi_strategy.cpp:59-67 | every window emptied, every count zero, STOPPED |
| Rsi.RsiStrategy.GetStatus | src/strategy/rsi_strategy.cpp:113-116 | the current status |
| Rsi.RsiStrategy.SetStatus | src/strategy/rsi_strategy.cpp:129-132 | sets the status, nothing else changes |
| Rsi.RsiStrategy.SetParams | src/strategy/rsi_strategy.cpp:118-122 | sets the parameters, nothing else changes |
| Rsi.RsiStrategy.GetParams | src/strategy/rsi_strategy.cpp:124-127 | the current parameters |
| Rsi.RsiStrategy.ProcessMarketData | src/strategy/rsi_strategy.cpp:69-111 | not RUNNING or a symbol outside [0, 3) gives NONE with no change; otherwise level 0's mid is pushed into that symbol's window (at most 100) and the signal is `Rule` of the new window, for every period |
| PyBinding.Visible | pybinding/python_bindings.cpp:23-28 | a side's visible part has min(count, 20) levels, equal slot by slot to the stored ones |
| PyBinding.Written | pybinding/python_bindings.cpp:30-35 | a written side keeps all 20 slots |
| PyBinding.WrittenRoundTrip | pybinding/python_bindings.cpp:23-48 | reading a side after writing a list gives back its first min(n, 20) levels, and the slots past them keep their old levels |
| PyBinding.WriteVisibleIsIdentity | pybinding/python_bindings.cpp:23-48 | writing back what a side shows leaves its slots unchanged |
| PyBinding.GetBids | pybinding/python_bindings.cpp:23-29 | the bid levels below both the count and 20, in order |
| PyBinding.GetAsks | pybinding/python_bindings.cpp:36-42 | the ask levels below both the count and 20, in order |
| PyBinding.SetBids | pybinding/python_bindings.cpp:30-35 | the bid count becomes min(n, 20), exactly that many slots are copied, and the asks, symbol and timestamp stay |
| PyBinding.SetAsks | pybinding/python_bindings.cpp:43-48 | the ask count becomes min(n, 20), exactly that many slots are copied, and the bids, symbol and timestamp stay |
| PyBinding.CopyVisible | pybinding/python_bindings.cpp:25-27 | the `push_back` loop yields `Visible` of the side |
| PyBinding.CopyIn | pybinding/python_bindings.cpp:32-34 | the copy loop leaves the side equal to `Written` of its old contents |
| PyStrategyBase.Find | strategies/strategy_base.py:92-93 | dictionary lookup: the entry index holding the symbol, or −1 exactly when no entry holds it |
| PyStrategyBase.AddTo | strategies/strategy_base.py:94-98 | a same-side add sums the sizes and moves the entry price to the size-weighted average of the old entry and the new price |
| PyStrategyBase.Open | strategies/strategy_base.py:113-125 | opening puts the fresh position (entry and current price at `price`, no unrealised profit) in the table, adds an entry only for a new symbol, and leaves the log, the counters, the equity high and the drawdown alone |
| PyStrategyBase.Close | strategies/strategy_base.py:127-159 | closing logs one trade exactly when the symbol is held, keeping the earlier log as a prefix; the trade count and the win + loss count each grow by the number of trades logged; the table never grows; the equity high and drawdown stay |
| PyStrategyBase.Update | strategies/strategy_base.py:90-111 | `update_position` raises only ZeroDivisionError and only for a held symbol; otherwise it logs at most one trade after the old log and leaves the equity high and drawdown alone |
| PyStrategyBase.Mark | strategies/strategy_base.py:164-179 | one price item never lowers the equity high or the maximum drawdown, keeps the table's length and keys, and leaves the log and counters alone |
| PyStrategyBase.MarkAll | strategies/strategy_base.py:161-179 | marking all items leaves the trade log, the total profit and the number of positions as they were |
| PyStrategyBase.AdmissibleAsWritten | strategies/strategy_base.py:200-216 | the check as written never admits an order: when it answers, the answer is false |
| PyStrategyBase.Admissible | strategies/strategy_base.py:200-216 | every order the corrected check admits is one on which the check as written raises |
| PyStrategyBase.Pnl | strategies/strategy_base.py:133 | for a positive size the profit is positive iff the price moved the position's way (up for long, down otherwise); no move or no size gives 0; any side other than "long" is booked as short |
| PyStrategyBase.TotalSize | strategies/strategy_base.py:206 | the total held size is non-negative and at least the absolute size of every position |
| PyStrategyBase.TotalSizeConcat | strategies/strategy_base.py:206 | the total held size of two tables together is the sum of their totals |
| PyStrategyBase.TotalSizeEdits | strategies/strategy_base.py:206 | replacing or deleting one entry moves the total held size by exactly that entry's size |
| PyStrategyBase.TotalSizeAppend | strategies/strategy_base.py:206 | a new entry adds its size to the total |
| PyStrategyBase.OpenExposure | strategies/strategy_base.py:113-124 | opening a position adds at most its size to the total exposure |
| PyStrategyBase.UpdateExposure | strategies/strategy_base.py:90-111 | an order of size q ≥ 0 raises the total exposure by at most q, in all four branches of `update_position` |
| PyStrategyBase.RiskCheckBoundsExposure | strategies/strategy_base.py:200-216 | an order the corrected risk check admits keeps the total held size within `max_position_size` once executed |
| PyStrategyBase.RiskCheckAsWrittenRaises | strategies/strategy_base.py:200-216 | as written the check raises exactly when trading is on and the position limit is met, e.g. on a fresh account with trading enabled and a 0.1 order, and otherwise answers false |
| PyStrategyBase.RiskCheckAgreesWhereDefined | strategies/strategy_base.py:200-216 | the corrected check refuses iff trading is off, the limit would be passed, or the loss exceeds the daily limit; it agrees with the source wherever the source answers |
| PyStrategyBase.KeyedReplace | strategies/strategy_base.py:124 | overwriting a symbol's entry keeps one entry per symbol |
| PyStrategyBase.KeyedWithout | strategies/strategy_base.py:156-157 | deleting an entry keeps one entry per symbol |
| PyStrategyBase.WinsAppend | strategies/strategy_base.py:144-152 | one more trade adds its profit to the totals and counts as a win iff its profit is positive |
| PyStrategyBase.OpenKeepsLedger | strategies/strategy_base.py:113-124 | opening keeps the counters in step with the trade log and the table keyed, and logs nothing |
| PyStrategyBase.CloseKeepsLedger | strategies/strategy_base.py:127-157 | closing a held symbol logs exactly one trade with its profit and moves exactly one win/loss counter; an absent symbol changes nothing |
| PyStrategyBase.UpdateKeepsLedger | strategies/strategy_base.py:90-111 | every update that does not raise keeps the counters in step with the log and the table keyed |
| PyStrategyBase.UpdateSpec | strategies/strategy_base.py:90-111 | a new symbol is appended at the price; a same-side add raises iff the sizes cancel and otherwise sums them at the weighted entry; a smaller opposite update is a partial close |
| PyStrategyBase.UpdateReverseReopensFullSize | strategies/strategy_base.py:101-105 | an opposite-side update of at least the held size books one trade of the held size, then leaves a position of the new side holding the full requested size at the price |
| PyStrategyBase.FindFirst | strategies/strategy_base.py:92 | lookup returns the first entry holding the symbol |
| PyStrategyBase.MarkAllMonotone | strategies/strategy_base.py:161-179 | marking to market never lowers the equity high or the maximum drawdown, never touches the log or counters, and keeps the table keyed |
| PyStrategyBase.GainsAndLosses | strategies/strategy_base.py:184-185 | summed gains are non-negative, summed losses non-positive, and any win makes the gains positive |
| PyStrategyBase.StatsBounds | strategies/strategy_base.py:183-185 | with consistent counters the win rate lies in [0, 1], the average win is positive and the average loss is not |
| PyStrategyBase.StrategyBase.constructor | strategies/strategy_base.py:38-52 | running, no start time, the given configuration, an empty account with consistent counters |
| PyStrategyBase.StrategyBase.Start | strategies/strategy_base.py:69-73 | running, with the start time set to the given clock reading |
| PyStrategyBase.StrategyBase.Stop | strategies/strategy_base.py:75-78 | not running |
| PyStrategyBase.StrategyBase.Pause | strategies/strategy_base.py:80-83 | not running |
| PyStrategyBase.StrategyBase.Resume | strategies/strategy_base.py:85-88 | running |
| PyStrategyBase.StrategyBase.OpenPosition | strategies/strategy_base.py:113-125 | the account becomes `Open` of the old one: a fresh position at the price under the symbol's key |
| PyStrategyBase.StrategyBase.ClosePosition | strategies/strategy_base.py:127-159 | the account becomes `Close` of the old one: a logged trade, moved counters, a reduced or deleted entry |
| PyStrategyBase.StrategyBase.UpdatePosition | strategies/strategy_base.py:90-111 | raises exactly when `Update` fails, changing nothing then; otherwise the account becomes `Update` of the old one |
| PyStrategyBase.StrategyBase.Reverse | strategies/strategy_base.py:99-108 | for a held symbol of the other side, the account becomes `Update` of the old one, which then cannot raise |
| PyStrategyBase.StrategyBase.UpdateMarketPrices | strategies/strategy_base.py:161-179 | the loop over the price items leaves the account at `MarkAll` of the old one |
| PyStrategyBase.StrategyBase.MarkPrice | strategies/strategy_base.py:164-179 | one price item changes the account exactly as `Mark` says: the held position is re-marked, then the peak equity rises or the drawdown grows; no change for a symbol not held |
| PyStrategyBase.StrategyBase.GetPerformanceStats | strategies/strategy_base.py:181-198 | the reported counters are the fields; with no trades the win rate is 0; with consistent counters the win rate is in [0, 1], the average win positive when there are wins and the average loss never positive |
| PyStrategyBase.StrategyBase.RiskCheckAsWritten | strategies/strategy_base.py:200-216 | as written, the check never admits: it answers false or raises, raising exactly when trading is on and the position limit is met |
| PyStrategyBase.StrategyBase.RiskCheck | strategies/strategy_base.py:200-216 | an admitted order has trading on and keeps the total held size within the limit |
| PyMeanReversion.GenerateSignal | strategies/mean_reversion_strategy.py:47-89 | nothing below 20 prices; IndexError iff there are 20 and a side is empty; an emitted signal is for the symbol's name, of size 0.1 and confidence 1, a 'sell' at the best bid or a 'buy' at the best ask |
| PyMeanReversion.SignalIsZScoreTest | strategies/mean_reversion_strategy.py:54-87 | for the history's population standard deviation sigma > 0, 'sell' iff z > 2, 'buy' iff z < −2, and the confidence min(\|z\|/2, 1) reported is the one emitted |
| PyMeanReversion.ConstantHistoryNoSignal | strategies/mean_reversion_strategy.py:58-62 | a history of equal prices has zero deviation and yields no signal |
| PyMeanReversion.MeanReversionStrategy.constructor | strategies/mean_reversion_strategy.py:15-20 | a running base with an empty account and no histories |
| PyMeanReversion.MeanReversionStrategy.ExecuteIfAdmitted | strategies/mean_reversion_strategy.py:40-41 | an order the risk check refuses changes nothing; an admitted one lands the account on `Update` of it, an error escaping exactly when `Update` fails |
| PyMeanReversion.MeanReversionStrategy.OnMarketData | strategies/mean_reversion_strategy.py:22-41 | nothing while stopped; IndexError and no change for an empty side; otherwise the mid is pushed into the symbol name's history (at most 100) and the signal over the new history is executed when admitted |
| PyMeanReversion.MeanReversionStrategy.PushMid | strategies/mean_reversion_strategy.py:27-36 | the symbol name's history becomes `Push` of the old one (empty when absent) with the mid, every history staying at most 100 long |
| PyMeanReversion.MeanReversionStrategy.ActOnSignal | strategies/mean_reversion_strategy.py:39-41 | no signal or a refused one leaves the account untouched; an admitted one moves it to `Update` of the old account, with an error exactly when that update raises |
| FloatQuotient.Div | strategies/momentum_strategy.py:72-78 | a non-zero divisor gives the finite quotient; a zero divisor gives an infinity of the dividend's sign, or NaN exactly for 0/0 |
| PyMomentum.TickVolume | strategies/momentum_strategy.py:32-33 | the tick volume over the first five visible levels of each side is non-negative when all quantities are |
| PyMomentum.SumQtyNonNegativeIf | strategies/momentum_strategy.py:32-33 | a sum of non-negative quantities is non-negative |
| PyMomentum.Rule | strategies/momentum_strategy.py:56-104 | nothing below 30 prices; an error exactly when a side is empty (IndexError) or the volumes sum to at most 0 with a zero mid (ZeroDivisionError); an emitted signal is for the symbol's name and of size 0.1, a 'buy' at the best ask or a 'sell' at the best bid |
| PyMomentum.ConfidenceIsOne | strategies/momentum_strategy.py:83-94 | an emitted signal's confidence min(\|momentum\|/0.02, 1) is exactly 1, infinite momenta included |
| PyMomentum.MomentumAsRatio | strategies/momentum_strategy.py:68-98 | with a positive long average, a buy has short MA > 1.02·long MA and a sell has short MA < 0.98·long MA |
| PyMomentum.ConstantHistoryNoSignal | strategies/momentum_strategy.py:68-104 | a constant positive price history has zero momentum and, whatever the volumes, yields no signal |
| PyMomentum.MomentumStrategy.constructor | strategies/momentum_strategy.py:15-23 | a running base with an empty account and no histories |
| PyMomentum.MomentumStrategy.GenerateSignal | strategies/momentum_strategy.py:56-61 | no signal for a symbol name without history; otherwise the rule over that name's price and volume histories |
| PyMomentum.MomentumStrategy.ExecuteIfAdmitted | strategies/momentum_strategy.py:49-50 | an order the risk check refuses changes nothing; an admitted one lands the account on `Update` of it, an error escaping exactly when `Update` fails |
| PyMomentum.MomentumStrategy.OnMarketData | strategies/momentum_strategy.py:25-50 | nothing while stopped; IndexError and no change for an empty side; otherwise mid and tick volume are pushed together (at most 50), then a ZeroDivisionError escapes with the account untouched or the admitted signal is executed |
| PyMomentum.MomentumStrategy.PushTick | strategies/momentum_strategy.py:30-45 | price and volume histories become `Push` of the old ones with the mid and the tick volume, keeping the same keys and equal lengths of at most 50 |
| PyMomentum.MomentumStrategy.ActOnSignal | strategies/momentum_strategy.py:48-50 | a ZeroDivisionError escapes with the account untouched; no signal or a refused one changes nothing; an admitted one moves the account to `Update` of the old one |
| PyLstm.Len | strategies/lstm_strategy.py:157-158 | `len(data) − sequence_length` counts the items: an index below it, and only such an index, yields an item |
| PyLstm.Item | strategies/lstm_strategy.py:157-163 | an item exists exactly for an index below `len(data) − sequence_length`, and is the window of that many rows from the index together with the row after it; past the end it raises IndexError |
| PyLstm.ItemsSlide | strategies/lstm_strategy.py:160-163 | the next item's window is this window shifted by one row, ending in this item's target |
| PyLstm.ClampUnitQ | strategies/lstm_strategy.py:363 | `min(1, max(0, x))` lies in [0, 1] for every float, NaN and infinities included |
| PyLstm.PredictionConfidence | strategies/lstm_strategy.py:363 | the confidence lies in [0, 1] and is 0 for a zero last close |
| PyLstm.PredictionConfidenceSpec | strategies/lstm_strategy.py:363 | for a positive close: full confidence iff the prediction equals it, 0 once the error reaches the close, 1 − relative error in between |
| PyLstm.GenerateTradingSignal | strategies/lstm_strategy.py:367-393 | the signal carries the inputs through, and is HOLD whenever the confidence is under the threshold |
| PyLstm.SignalRule | strategies/lstm_strategy.py:380-391 | for a positive price: BUY iff the threshold is cleared and prediction > price·(1 + take_profit); SELL iff cleared and prediction < price·(1 − take_profit) |
| PyLstm.Execute | strategies/lstm_strategy.py:395-421 | the result echoes the action and price; a trade happens iff BUY from a flat or short position or SELL from a flat or long one, then moving the position by ±position_size and setting the entry price; otherwise the holding is unchanged with quantity 0 |
| PyLstm.ExecuteKeepsOneLot | strategies/lstm_strategy.py:395-421 | from flat or one lot either way, every signal leaves flat or one lot; an executed trade moves the position by its quantity at the price; HOLD and refused trades change nothing |
| PyLstm.FlatStartStaysOneLot | strategies/lstm_strategy.py:395-421 | starting flat, every sequence of signals holds at most one lot either way |
| PyLstm.ExitFor | strategies/lstm_strategy.py:423-448 | nothing while flat; an exit closes the whole position at the current price |
| PyLstm.ExitRule | strategies/lstm_strategy.py:428-448 | for a positive entry: a stop exactly when the price is at most entry·(1 − stop_loss), else a take-profit exactly when it is at least entry·(1 + take_profit), else no exit |
| PyLstm.LstmTrader.constructor | strategies/lstm_strategy.py:176-187 | flat with no entry price, with the configured parameters |
| PyLstm.LstmTrader.ExecuteTrade | strategies/lstm_strategy.py:395-421 | the result and the new position are `Execute` of the old position |
| PyLstm.LstmTrader.CheckStopLossTakeProfit | strategies/lstm_strategy.py:423-448 | the exit `ExitFor` proposes for the current position, without changing it |
| PyLstm.DrawdownScan | strategies/lstm_strategy.py:530-538 | the scan can only raise ZeroDivisionError, and when it completes the largest drawdown found is non-negative |
| PyLstm.ScanStaysFailed | strategies/lstm_strategy.py:533-538 | once a step has raised, the scan over any longer prefix raises the same error |
| PyLstm.MaxDrawdown | strategies/lstm_strategy.py:528-540 | an empty list raises IndexError, any other failure is ZeroDivisionError, and a computed maximum drawdown is never negative |
| PyLstm.CalculateMaxDrawdown | strategies/lstm_strategy.py:528-540 | the loop computes exactly `MaxDrawdown`: IndexError for an empty list, ZeroDivisionError at a zero peak (plain Python floats) |
| PyLstm.RunningPeakBounds | strategies/lstm_strategy.py:530-535 | over positive values the running peak is positive, at least the current value and one of the values seen |
| PyLstm.DrawdownAtBounds | strategies/lstm_strategy.py:536 | over positive values each step's drawdown lies in [0, 1) |
| PyLstm.ScanIsMaximum | strategies/lstm_strategy.py:530-538 | after k positive values the scan holds the running peak and the largest step drawdown so far |
| PyLstm.MaxDrawdownSpec | strategies/lstm_strategy.py:528-540 | for a non-empty positive series the result exists, lies in [0, 1), bounds every step's drawdown and equals one of them |
| PyLstm.NonDecreasingNoDrawdown | strategies/lstm_strategy.py:528-540 | a non-decreasing series starting above zero has maximum drawdown 0 |
| SpyQqq.Step | strategies/spy_qqq.py:39-87 | one day appends the holdings' value at its closes to the record and moves SPY's high to the larger of the old high and the day's close |
| SpyQqq.Run | strategies/spy_qqq.py:38-87 | a run records one value per day and never lowers SPY's high |
| SpyQqq.RunStrategy | strategies/spy_qqq.py:12-91 | the loop computes exactly `RunStrategySpec`: 0 without a first row, else the last value's return over the capital after replaying every day |
| SpyQqq.Init | strategies/spy_qqq.py:13-36 | the opening holdings are worth the capital: b0 of it in bonds, the rest in SPY, no QQQ; level 0, not frozen, no values recorded, SPY's high at the first close |
| SpyQqq.Rotate | strategies/spy_qqq.py:74-76 | a rotation leaves SPY alone, buys QQQ worth fraction y of the bond value at that day's closes, and keeps the holdings' value |
| SpyQqq.Rebound | strategies/spy_qqq.py:65-67 | a rebound sells all QQQ into SPY, leaves the bonds alone and keeps the holdings' value |
| SpyQqq.RotateMovesFraction | strategies/spy_qqq.py:73-87 | with a non-negative bond holding and 0 ≤ y ≤ 1, a rotation moves fraction y of the bond value into QQQ and never sells more bonds than held |
| SpyQqq.StepSpec | strategies/spy_qqq.py:39-87 | a crash day only sets the flag and the high; otherwise the flag clears, a recovery to the entry price sells all QQQ for SPY, level 0→1 needs drawdown past m and 1→2 past 2m, and the value is kept; the level stays in {0, 1, 2} with QQQ only above 0 |
| SpyQqq.FrozenIsInert | strategies/spy_qqq.py:55-61 | the crash flag never influences a trade: runs differing only in the flag end differing only in the flag |
| SpyQqq.RunKeepsInvariant | strategies/spy_qqq.py:38-87 | every run keeps the level in {0, 1, 2} with QQQ held only above 0, and never grows a non-negative bond holding when 0 ≤ y ≤ 1 |
| SpyQqq.HighIsRunningMax | strategies/spy_qqq.py:50-51 | SPY's high is at least every close seen and equals the start or one of them |
| SpyQqq.DrawdownBounds | strategies/spy_qqq.py:53 | with positive prices each day's drawdown lies in [0, 1) |
| SpyQqq.RunStrategySpec | strategies/spy_qqq.py:12-91 | 0 for no data; otherwise the run records one value per day and the result is the return of the last day's pre-trade value over the capital |

## Left out

- Network transport is not modelled: libcurl requests, headers, HTTP status codes, the WebSocket upgrade and its reconnect loop. Each request becomes an entry in a ghost log, and each reply an input datatype.
- JSON parsing is not modelled, and neither is `std::stod` text conversion; parsed replies are datatypes. The `%.8f` rendering of quantities and prices is a function-valued field of the executor, because its digits depend on binary floating point.
- HMAC-SHA256 itself (RFC 2104 over SHA-256 of FIPS 180-4) is a function-valued field returning the digest. Only its base-16 rendering and the query composition are modelled. A curl-handle failure inside `send_signed_request` is not distinguished from an unparsable reply.
- Threads, mutexes, atomics, sleeps and joins are not modelled. Each data-thread loop is one `Tick` pass, and the sleep it chooses is returned as a value.
- Four operations lock a mutex they already hold, and in the source they self-deadlock. Each is modelled as the same code run sequentially, with the nested lock taken as a no-op. The four lines below give each one's condition.
- Engine.StrategyEngine.Cleanup: deadlocks whenever the engine is not STOPPED, since `stop()` re-locks the mutex `cleanup()` holds (`strategy_engine.cpp:35-39`, 64-65).
- EngineImpl.OrderExecutor.Cleanup: deadlocks whenever the executor is CONNECTED, since `disconnect()` re-locks the mutex (`strategy_engine_impl.cpp:110-114`, 139-140).
- DataProvider.MarketDataProvider.Cleanup: deadlocks whenever the provider is running, since `stop()` re-locks the mutex (`strategy_engine_impl.cpp:341-345`, 392-393).
- Executor.OrderExecutor.CancelOrder: every call while connected deadlocks, since it locks the mutex (`order_executor.cpp:243`) and then calls `getOrderStatus`, which locks it again (`order_executor.cpp:255`, 372).
- WebSocket.WebSocketClient.constructor: the source leaves the callback and user data uninitialised (`websocket_client.cpp:25`). The model starts them as `None` and 0, meaning "not yet set". The only caller, `market_data_fetcher.cpp:180-233`, sets the callback before it starts the client.
- Destructors and logging are not modelled.
- Wall-clock readings are parameters.
- Floating-point rounding is not modelled. Prices are `real`; square roots are avoided by squared comparisons. NumPy's division by zero is modelled by `FloatQuotient`, but overflow to infinity is not.
- The C++ `WebSocketClient` wrapper class (`websocket_client.h`) is not part of this model. `MarketDataFetcher` sees it only through the answers it gives, which are parameters.
- `OrderExecutor::getBalance` of the exchange executor is not modelled: it is a transport call followed by a search of the reply's balance list. The stub executor's `getBalance` is modelled.
- The retry constants at `include/market_data_fetcher.h:53-55` are used by no code shown, and no retry policy is modelled.
- The LSTM network, its training, feature engineering, data download, back-test and Sharpe ratio are not modelled. The prediction is an input. `prediction_horizon` is read but never used.
- Other parts of the program are not modelled:
  - `main()` and configuration file loading;
  - `strategies/config.py` file I/O;
  - `strategies/main.py`, the factory wiring, and pybind11 registration beyond the four level accessors;
  - the pair-trading and stochastic-process scripts;
  - the `main` of `spy_qqq.py`.
- The Python signals' text `reason`, their timestamp and the LSTM signal's display percentage are not modelled.
- A missing column in the `spy_qqq.py` price table raises `KeyError` after the first row, and this is not modelled. The model takes the table as a sequence of rows, so an empty table is the only path that reaches the bare `except`.
- MeanReversion.Rule: a lookback of at most 0 gives NONE, not a NaN z-score. The source's `size_t` comparison and 0/0 are not modelled bit for bit.
- Momentum.Rule: requires that the short-period loop reads inside the history. When 0 ≤ long_period ≤ |history| < short_period, the source indexes before the start of the vector, which is undefined behaviour. Every other period pair is modelled, zero and negative periods included.
- Momentum.Evaluate: carries the same requirement as `Momentum.Rule`.
- Momentum.MomentumStrategy.ProcessMarketData: carries the same requirement, on the window after the push.
- The `int` periods are unbounded in the model. For `rsi_period` = 2^31 − 1 the source's `rsi_period + 1` overflows, which is undefined behaviour; the model gives NONE there, as the usual wrap-around would.
- SpyQqq.RunStrategy: requires every price to be positive. The source's NumPy division by a zero or missing price is not modelled.
- SpyQqq.RunKeepsInvariant: the bond holding is proved never to grow only when it starts non-negative and 0 ≤ y ≤ 1.
- PyLstm.Item: covers non-negative indices only. Python's negative indexing from the end is not modelled.
- PyLstm.PredictionConfidence: a NaN prediction cannot be represented as a `real`. The NaN and infinite quotients of the relative error are modelled.
- MainHelpers.OrdersPerMinute: the 32-bit `int` overflow of seconds × 60 is not modelled.
- PyMeanReversion.MeanReversionStrategy.OnMarketData: the Python strategies execute through the corrected `risk_check` (see Findings), with the daily-loss limit passed in. The risk check as written raises `AttributeError` on every admissible order.
- PyMomentum.MomentumStrategy.OnMarketData: executes through the same corrected risk check.
- PyMeanReversion.MeanReversionStrategy.ExecuteIfAdmitted: gates on the corrected risk check, with the daily-loss limit passed in, not on the source's raising `risk_check`.
- PyMeanReversion.MeanReversionStrategy.ActOnSignal: reaches execution only through `ExecuteIfAdmitted`, so it admits orders that the source's `risk_check` would answer by raising.
- PyMomentum.MomentumStrategy.ExecuteIfAdmitted: gates on the corrected risk check, with the daily-loss limit passed in, not on the source's raising `risk_check`.
- PyMomentum.MomentumStrategy.ActOnSignal: reaches execution only through `ExecuteIfAdmitted`, so it admits orders that the source's `risk_check` would answer by raising.
- PyLstm.CalculateMaxDrawdown: assumes plain Python floats, where a zero peak raises ZeroDivisionError. `backtest` passes NumPy floats, which would give an infinite or NaN drawdown there instead of raising; this path is not modelled.
- The Python strategies index `orderbook.bids` and `orderbook.asks` lists of levels. The binding's `Orderbook` exposes only `get_bids`, `get_asks`, `set_bids` and `set_asks`, so no code shown builds the book objects the strategies receive. `PyBook` is that assumed shape.

## Findings

| source | as written | input that shows it | evidently intended | confidence | as-written member | corrected member |
|---|---|---|---|---|---|---|
| strategies/strategy_base.py:200-216 | the daily-loss test reads `self.config.max_daily_loss`. The strategy `StrategyConfig` at `strategies/config.py:25-34` has no such field, so with trading on and room under the position limit the check raises `AttributeError` instead of answering | a fresh strategy with `enable_trading = True`, the default 1000 position limit and a 0.1 order | compare `total_pnl` with the execution configuration's `max_daily_loss` (100 by default) and admit the order when the loss is within it | not executed | PyStrategyBase.RiskCheckAsWrittenRaises | PyStrategyBase.RiskCheckBoundsExposure |
