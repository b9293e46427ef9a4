# A verified model of the two-trader exchange

Two traders each hold part of every stock's orders. Each encodes its part into a bit stream, cuts
the stream into numbered packets and ships them over several unordered, failing paths. Each then
merges both parts back into one list per stock and runs ten matching engines, which wait for each
other's trades through hooks. The point of the design is that both traders compute the same trades.
This project models the four cores behind that promise (matching engine, codec and bit stream,
packet transport, hooks and the ten concurrent stocks) and proves the promise itself in
`Exchange.dfy` and `Progress.dfy`: for given input files there is one result, however the packets are
cut; every run of the system can still reach it, and no run that has come to rest has another
(`Progress.ResultIsDetermined`). The input files are the raw orders with their order ids, the hooks and
the closing prices. They are asked for no more than this: every order of every stock is exactly once in
one of the two traders' files, price differences fit the encoder, and hooks name existing stocks
(`Exchange.InputOk`).

## How it is organised

| file | content |
|---|---|
| `Types.dfy`, `Book.dfy`, `BestFive.dfy`, `Engine.dfy` | the engine on values: comparators, sweep, level counter, six order types, the run invariant |
| `Ledger.dfy`, `EngineLaws.dfy`, `MarketRules.dfy`, `ZeroVolume.dfy`, `Mirror.dfy` | conservation, derived order types, legality of every trade, the rules of the market in plain numbers, the zero-volume trap, Bid/Ask symmetry |
| `PriorityQueue.dfy`, `Persister.dfy`, `Processor.dfy` | the imperative engine: queues, totals, trade file and one sweep loop per order type and side, each method proved against `Engine` |
| `Hooks.dfy`, `Schedule.dfy`, `Verdicts.dfy` | sharding, checker and notifier stacks; the ten stocks as a step system; what a hook means in a run |
| `Stocks.dfy` | ten processor objects sharing one board of promised values, proved to follow the step system |
| `Bits.dfy`, `BitStream.dfy`, `Codec.dfy`, `WireFormat.dfy` | bit packing, packet framing, reorder buffer, price-difference codec, and the format field by field |
| `Network.dfy`, `Transport.dfy`, `Receiving.dfy` | packet queue, demultiplexer, requeue guard; the network as a step system; the bit stream as its reader |
| `Reader.dfy`, `Merger.dfy` | sorting by order id, encoding one's part, merging both parts |
| `Exchange.dfy`, `Progress.dfy` | the whole system: agreement of the traders, and that it can always come to rest |

The engine is stated twice. The functions of `Engine` work on books listed in priority order. The
class `Processor.Processor` has the source's fields and loops over `std::priority_queue`, seen as a
bag whose top is the maximum under the comparator; its methods say exactly which `Engine` state and
which notifier state they end in. Everything about runs is then proved on `Engine`, and the sweep
function itself is tied to a loop-free description of price-time priority
(`Book.PriceTimeRefinement`), so a sweep that skipped an order, cut the wrong one short or stopped at
the wrong price would not fit.

`std::promise`/`std::future` pairs are channels numbered by hook, with write-once values on a board.
A blocking call is a call that has not returned: `None`, `Waiting` or false in the classes, each with the
exact condition, and a step that is not enabled in the step systems. For the stream classes the
condition is that the bits received so far (`IBitStream.Received`: those after the cursor and those of
the packets up to the first that is missing) do not hold the next bit, number or order.

The network is a step system over whole packets: encode, take to send, fail and requeue, write in
full, duplicate, deliver, forward, demultiplex, fetch, consume. The assumption on links is explicit: a
packet handed over in full stays on its link until it is delivered, in any order; a write that fails
puts the packet back in the queue it came from, and may have delivered it all the same.

## What is true only under a condition

Each of these is proved as an if-and-only-if.

* **BestFive.** The level counter starts from the sentinel price 0. It equals a sweep limited to the
  fifth-best level exactly if the top of the book is not a price-0 level with at least five more levels
  behind it (`BestFive.BestFiveExact`). With closing prices up to 3.8 million the price band makes that
  unreachable (`Engine.SentinelIsSafe`, `Engine.UsualPricesFit`).
* **Zero volume.** The assert in `commit` becomes reachable exactly when a ClientBest order of volume
  0 passes its hook and finds its own book not empty (`ZeroVolume.ZeroVolumeExact`). All other
  results only ask that ClientBest orders carry volume and that volumes fit ten bits; other types may
  have volume 0.
* **Hook ids.** `check` pops at most one future per order and only from the top, so every hook of a
  stock is consulted exactly if its order ids are distinct and at least 1
  (`Hooks.EveryHookConsulted`); `notify` can resolve every promise exactly if no target trade id is 0
  (`Hooks.EveryPromiseResolves`).
* **Scatter.** The table built in `read_all` finds every raw order again exactly if no stock has two
  orders with one id (`Reader.ScatterInverts`).
* **Volume on the wire.** Decoding gives back an order up to `Order::operator==` exactly if its volume is
  below 1024 (`Codec.CanonIsSame`).
* **Bit fields.** `ComOrder` keeps its arguments exactly if they fit 30, 22 and 10 bits
  (`Processor.FieldsFit`); every order the engine pushes does.
* **Masks.** The two traders' rows of the table are complementary exactly if their files partition the
  stock's order ids (`Merger.RowsComplement`).
* **Waiting.** A decoder waits exactly if the bits received do not hold a whole order
  (`Codec.OrderDecoder.Next`), and a processor exactly if the order's hook is unresolved
  (`Processor.Processor.Process`).

The engine results assume a closing price whose band fits the 22-bit price field (`Engine.PrevCloseFits`)
and fewer than 2^30 orders; the codec results assume that the signed 32-bit difference of successive
limit prices and its negation do not overflow, which limit prices below 2^31 guarantee
(`Codec.SmallPricesEncode`).

## Model

| member | source | states |
|---|---|---|
| Book.StrictTotalOrder | include/processor.h:45-52 | both comparators are irreflexive, asymmetric and transitive, and decide any two orders with different ids |
| Book.LayoutIndependence | include/processor.h:55-57 | two heaps with the same contents empty in the same sequence, so trades cannot depend on heap layout |
| Book.InsertSorted | src/processor.cpp:61-64 | pushing an order with a fresh id keeps the listing in priority order and its ids distinct |
| Book.MatchIsPriceTime | src/processor.cpp:46-60 | a sweep fills a prefix of the sorted book, each order with what the earlier ones left over; only the last may be cut short and its residual is again the top; it stops exactly when volume, book or limit is exhausted |
| Book.PriceTimeRefinement | src/processor.cpp:66-80 | the loop-free description of price-time priority determines the sweep: it holds of the sweep's result and of nothing else |
| BestFive.LevelsAreMonotone | src/processor.cpp:124-130 | the distinct prices of a sorted book get strictly worse, the first is the top's, and each occurs in the book |
| BestFive.NextAdmitted | src/processor.cpp:126-130 | popping the top moves the counter by at most one and leaves unchanged the price limit it stands for |
| BestFive.CounterIsLimit | src/processor.cpp:121-169 | from any point of the loop the level counter trades what a plain limit at the last admitted level trades |
| BestFive.BestFiveIsThreshold | src/processor.cpp:121-169 | with a safe sentinel, BestFive is a sweep limited to the fifth-best opposite price, unlimited with fewer levels |
| BestFive.BestFiveExact | src/processor.cpp:123-130 | counter and threshold agree on every volume if and only if the top is not a price-0 level followed by five more |
| Engine.InitInv | include/processor.h:72-83 | the constructor's band, 32-bit wrap-around included, starts in the invariant with prices that fit the price field if and only if PrevCloseFits holds |
| Engine.UsualPricesFit | include/processor.h:79-82 | every closing price up to about 3.8 million meets that condition |
| Engine.MatchResidue | src/processor.cpp:46-60 | what a sweep leaves is a suffix of the book whose head alone may have lost volume, never all of it |
| Engine.MatchAccounts | src/processor.cpp:46-60 | a sweep conserves volume, frees a queue slot with every trade but the one that exhausts the order, and if volume remains the next price is out of reach |
| Engine.MatchFills | src/processor.cpp:49-54 | every fill is at the resting order's price, within the limit, of positive volume and no more than the order has |
| Engine.SweptInv | src/processor.cpp:46-80 | any sweep by the newest order keeps the invariant and, with volume left, uncrosses the book at its limit |
| Engine.RestInv | src/processor.cpp:61-64 | posting a passive in-band order under the newest id keeps the invariant |
| Engine.LimitInv | src/processor.cpp:40-86 | a limit order, in or out of the band, keeps the invariant |
| Engine.SentinelIsSafe | src/processor.cpp:123-130 | in every state of the invariant the counter's sentinel is harmless, because of the band |
| Engine.BestFiveInv | src/processor.cpp:121-169 | a BestFive order keeps the invariant |
| Engine.ClientBestInv | src/processor.cpp:107-119 | a ClientBest order with volume keeps the invariant |
| Engine.DispatchInv | src/processor.cpp:14-35 | each of the six order types keeps the invariant |
| Engine.ProcessInv | src/processor.cpp:7-38 | every call keeps it: books sorted and uncrossed, prices in band, volumes 1..1023, ids distinct across books and already given out, cached totals exact, trades of positive volume, and trades plus resting orders at most the orders processed |
| Engine.ProcessContinues | src/processor.cpp:7-38 | a call takes one id, keeps the band and only appends to the trade log |
| Engine.RunInv | src/processor.cpp:7-38 | the invariant holds after every run, and order ids count the orders |
| Engine.TradeFileSuffices | include/persister.h:27 | over every run trades plus resting orders never exceed orders, so a file with one slot per order never overflows |
| Ledger.MatchConserves | src/processor.cpp:46-60 | for every resting id, filled plus remaining equals what it had; for the incoming order, fills plus rest equal its volume |
| Ledger.MatchLeft | src/processor.cpp:46-60 | a sweep fills exactly the minimum of its volume and the volume within its limit |
| Ledger.DispatchAccount | src/processor.cpp:14-35 | per order type, what the new order trades plus posts is its volume minus a stated cancelled part; no other order's account moves |
| Ledger.ProcessAccount | src/processor.cpp:7-38 | one call leaves every other order's traded-plus-resting volume unchanged and opens the new one's with all that was not cancelled |
| Ledger.RunConserves | src/processor.cpp:40-249 | over every run and for every id, submitted = traded + resting + cancelled, and nothing is booked under an id never submitted |
| EngineLaws.FokAllOrNothing | src/processor.cpp:210-249 | FOK changes nothing if the opposite book holds too little; otherwise it is a FAK that fills completely |
| EngineLaws.FakIsEdgeLimit | src/processor.cpp:171-208 | FAK trades what a limit order at the band's edge trades, and posts nothing |
| EngineLaws.CounterBestOnePrice | src/processor.cpp:88-105 | CounterBest is never rejected by the band, trades at exactly the one price it found on top, and posts what is left there |
| EngineLaws.RunTermsAt | src/processor.cpp:88-119 | the price an order may rest at and the limit on what it takes come from the books it finds on arrival: a limit order's own price, the opposite top for CounterBest, the own-side top for ClientBest, the fifth level for BestFive |
| EngineLaws.SweptOk | src/processor.cpp:46-80 | a sweep trades at exactly the prices its counterparties rest at, all within the newest order's limit |
| EngineLaws.DispatchOk | src/processor.cpp:14-35 | each order type makes only such trades and rests only at the price its arrival fixed |
| EngineLaws.RunTrades | src/processor.cpp:40-249 | every trade of every run pairs one Bid id with one Ask id, for no more than either submitted, at exactly the price its older order came to rest at, and within the limit its newer order had on arrival |
| MarketRules.BeforeIsAhead | include/processor.h:45-52 | higher bids and lower asks go first, and at one price the order with the smaller id |
| MarketRules.RunBooks | include/processor.h:45-62 | in prices, ids and volumes alone: after every run each book is listed by price and then by age, every bid is below every ask, and prices, volumes and ids are in range |
| MarketRules.NobodyIsSkipped | src/processor.cpp:46-80 | when an arriving order of any type trades with a resting order, every order of that book at a better price, or older at the same price, has been used up |
| MarketRules.TradesWithinLimits | src/processor.cpp:46-80 | over every run no limit order trades above its price as a bid or below it as an ask |
| MarketRules.BandEdges | include/processor.h:79-82 | the edges are ten per cent either way, rounded half up, and at least one tick, with the closing prices up to 5 written out |
| MarketRules.UpperEdge | include/processor.h:79-80 | the upper edge for every closing price, wrap-around of 32-bit arithmetic included |
| MarketRules.LowerEdge | include/processor.h:81-82 | likewise the lower edge |
| MarketRules.DroppedOutsideTheBand | src/processor.cpp:41-43 | after every run a limit order with volume changes nothing exactly if its price is outside ten per cent of the closing price; otherwise all its volume is traded or rests |
| MarketRules.BestFiveReach | src/processor.cpp:121-169 | a BestFive order touches a resting order only if fewer than five distinct prices are better than its own, and if it keeps volume, all those are used up |
| MarketRules.SameToTheMarket | include/trade.h:34-37 | orders equal under operator== have the same effect on every engine |
| ZeroVolume.ZeroRestTrips | src/processor.cpp:253 | a resting zero-volume order can always be sprung by later orders |
| ZeroVolume.ZeroVolumeExact | src/processor.cpp:107-119 | an arriving order makes the assert in commit reachable if and only if it is a zero-volume ClientBest that passes its hook and finds its own book not empty |
| Mirror.FlipMatch | src/processor.cpp:46-80 | the mirrored sweep of the mirrored book is the mirror of the sweep |
| Mirror.FlipInsert | include/processor.h:45-52 | the two comparators are mirror images: pushing commutes with reflection |
| Mirror.FlipBestFive | src/processor.cpp:124-165 | the two BestFive branches are mirror images, sentinel included |
| Mirror.FlipInv | include/processor.h:39-62 | the mirrored engine satisfies the invariant |
| Mirror.FlipDispatch | src/processor.cpp:14-35 | every order type commutes with swapping the sides and reflecting prices in the band |
| Mirror.MirrorRun | src/processor.cpp:40-249 | every run on mirrored input ends in the mirrored books, totals and trade log |
| PriorityQueues.PriorityQueue.constructor | include/processor.h:55-57 | a new queue is empty |
| PriorityQueues.PriorityQueue.Empty | include/processor.h:55-57 | empty exactly if nothing is listed |
| PriorityQueues.PriorityQueue.Top | include/processor.h:55-57 | the maximum under the comparator is the head of the listing |
| PriorityQueues.PriorityQueue.Pop | include/processor.h:55-57 | removes the head of the listing and nothing else |
| PriorityQueues.PriorityQueue.Push | include/processor.h:55-57 | inserts at the place priority demands |
| Persister.Persister.constructor | src/persister.cpp:16-17 | no trade written, capacity as asked |
| Persister.Persister.Persist | src/persister.cpp:38-47 | given a free slot, appends the trade and changes none before it |
| Processor.FieldsFit | include/processor.h:40-44 | the bit fields keep their arguments if and only if these fit 30, 22 and 10 bits |
| Processor.ResidualOnTop | src/processor.cpp:53-58 | a partially filled order, pushed back, is again the top |
| Processor.MidwayTurn | src/processor.cpp:46-60 | one turn of a sweep loop keeps the distance to the goal state: book, totals, log and notifier together |
| Processor.Processor.constructor | include/processor.h:72-83 | the object is the initial engine for every closing price, and in order if and only if the band fits |
| Processor.Processor.Commit | src/processor.cpp:251-257 | needs volume and a free slot; appends one trade and notifies once |
| Processor.Processor.TakeSell | src/processor.cpp:47-59 | the Bid loop body: one trade with the best ask, its residual back on top, total and remaining volume adjusted |
| Processor.Processor.TakeBuy | src/processor.cpp:67-79 | the Ask loop body, likewise |
| Processor.Processor.BidSweepTo | src/processor.cpp:46-60 | the loop reaches the state of a sweep limited by the order's price |
| Processor.Processor.AskSweepTo | src/processor.cpp:66-80 | likewise for Ask |
| Processor.Processor.BidSweepFive | src/processor.cpp:125-144 | the counting loop reaches the state of the level-counter sweep |
| Processor.Processor.AskSweepFive | src/processor.cpp:146-165 | likewise for Ask |
| Processor.Processor.BidSweepAll | src/processor.cpp:174-188 | the FAK loop reaches the state of an unlimited sweep |
| Processor.Processor.AskSweepAll | src/processor.cpp:190-204 | likewise for Ask |
| Processor.Processor.RestBuy | src/processor.cpp:110-111 | the order enters the buy book unaltered by the bit fields, and the total grows by its volume |
| Processor.Processor.RestSell | src/processor.cpp:114-115 | likewise for the sell book |
| Processor.Processor.ProcessLimit | src/processor.cpp:40-86 | the object becomes the engine state a limit order leads to, and the notifier has seen exactly the new trades |
| Processor.Processor.ProcessCounterBest | src/processor.cpp:88-105 | likewise for CounterBest |
| Processor.Processor.ProcessClientBest | src/processor.cpp:107-119 | likewise for ClientBest |
| Processor.Processor.ProcessBestFive | src/processor.cpp:121-169 | likewise for BestFive |
| Processor.Processor.ProcessFak | src/processor.cpp:171-208 | likewise for FAK |
| Processor.Processor.ProcessFok | src/processor.cpp:210-249 | likewise for FOK, decided on the cached total |
| Processor.Processor.Dispatch | src/processor.cpp:14-35 | the object becomes the dispatched engine state |
| Processor.Processor.TakeId | src/processor.cpp:9 | takes the next id and changes nothing else of the engine |
| Processor.Processor.Complete | src/processor.cpp:9-38 | the rest of the call, which can be resumed: gets through exactly if the order has no unresolved hook, consumes exactly that hook and dispatches as it answers; otherwise nothing has changed |
| Processor.Processor.Process | src/processor.cpp:7-38 | both together: gets through exactly if the hook is not unresolved, and then refines one engine step with its answer; otherwise the id is taken and Complete goes on from there |
| Hooks.PrepareHooks | src/hook.cpp:3-17 | every stock gets the futures and promises of its hooks; fails exactly if a stock code is out of range |
| Hooks.HooksArePaired | src/hook.cpp:6-11 | each hook is one future at its own stock and one promise at its target, joined by one channel no other hook uses |
| Hooks.CheckIsExact | include/hook.h:61-69 | checking orders 1, 2, 3, ..., an order with a hook waits for its own channel and one without waits for none |
| Hooks.EveryHookConsulted | include/hook.h:61-69 | no hook is lost if and only if a stock's hook ids are distinct and at least 1 |
| Hooks.NotifyExtends | include/hook.h:86-92 | values once set are never revised by later trades |
| Hooks.ResolveExact | include/hook.h:88-91 | the loop of notify resolves exactly the promises due at this trade, several if they share it |
| Hooks.NotifyExact | include/hook.h:86-92 | after any trades the resolved promises are exactly those whose trade has happened, each with volume <= threshold of its own trade |
| Hooks.EveryPromiseResolves | include/hook.h:86-92 | every promise can be resolved if and only if none targets trade 0 |
| Hooks.FuturesAreSorted | include/hook.h:56-59 | the futures are sorted by descending order id, none lost |
| Hooks.PromisesAreSorted | include/hook.h:77-80 | the promises are sorted by descending trade index, none lost |
| Hooks.Board.SetValue | include/hook.h:49 | a promise is set once, and no other changes |
| Hooks.HookChecker.constructor | include/hook.h:56-59 | sorts its futures |
| Hooks.HookChecker.Check | include/hook.h:61-69 | answers with the channel's value, or true if the order has no hook, and pops exactly that future; waits exactly if the channel is unset |
| Hooks.HookNotifier.constructor | include/hook.h:77-80 | starts before the first trade, with sorted promises |
| Hooks.HookNotifier.Notify | include/hook.h:86-92 | counts the trade, resolves what is due and never sets a promise twice |
| Schedule.ValueIsStable | include/hook.h:49 | a known hook outcome never changes as its target trades on |
| Schedule.StepSettled | trader.cpp:70-73 | after any step of any stock, every earlier step of every stock is still justified by the board |
| Schedule.SchedulesAgree | trader.cpp:70-73 | for any two interleavings, each stock's history in one is a prefix of its history in the other |
| Schedule.TradeLogsAgree | trader.cpp:70-73 | trade logs of any two runs agree as far as both go; after equally many orders everything is equal |
| Schedule.TerminalIsLast | include/hook.h:61-69 | a run that cannot go on has overtaken every other run |
| Schedule.ScheduleIndependence | trader.cpp:70-73 | all maximal interleavings end in the same books and logs, finished or stuck |
| Schedule.NoDeadlock | include/hook.h:61-69 | if one schedule finishes every stock, no schedule can get stuck |
| Schedule.FinalStaysReachable | trader.cpp:70-73 | from any reachable state the final one can still be reached: no scheduling choice is a mistake |
| Schedule.OutcomeMeaning | include/hook.h:49 | with usable hooks, an outcome is known exactly from its target's n-th trade on, and is that trade's volume <= threshold |
| Verdicts.SortedFuturesAre | src/hook.cpp:6-11 | a checker's sorted stack holds exactly one future for each hook of its stock |
| Verdicts.SortedPromisesAre | src/hook.cpp:6-11 | a notifier's sorted stack holds exactly one promise for each hook that targets its stock |
| Verdicts.FuturesAre | src/processor.cpp:9 | in every run, the stack before an order is what checking all earlier orders leaves |
| Verdicts.HookExactness | include/hook.h:61-92 | in every reachable state of the ten stocks, an order without a hook passes; one with a hook passes or is dropped as the trade its hook names has at most the threshold's volume or more, and waits until that trade is made |
| Stocks.NotifyShares | include/hook.h:86-92 | on the shared board a stock's trades resolve what they would resolve alone, and touch no channel of another stock |
| Stocks.AnswerIsPass | include/hook.h:61-69 | the board gives each order the answer the step system gives it |
| Stocks.StepShows | include/hook.h:86-92 | after a stock's step the board shows the outcomes of the new state, for every stock |
| Stocks.Begin | src/processor.cpp:9 | a processor whose next order has taken its id stands where it stood, waiting |
| Stocks.Continue | src/processor.cpp:7-38 | a waiting processor's turn is its stock's step if the step system can step, and leaves other stocks' channels alone; otherwise it goes on waiting with the board unchanged |
| Stocks.ProcessNext | trader.cpp:70-73 | with ten processors on one board, a turn of one, new or resumed, gets through exactly if the step system can step, and all ten objects and the board are then where the step leads; otherwise this stock waits and all else is as it was |
| Stocks.SetupIsPlaced | src/hook.cpp:6-11 | sharded by target, no two stocks resolve the same channel |
| Stocks.StartStocks | trader.cpp:64-68 | freshly built, the ten processors and the board are at the start of the step system |
| Stocks.FilesAreStartable | trader.cpp:108-110 | the files and the sharded hooks give all that building the processors needs |
| Stocks.StartTrader | trader.cpp:64-68 | so a trader's processors, built from its hooks and closing prices, are at the start |
| Bits.BitsRoundTrip | include/bitstream.h:95-103 | reading n bits back gives the low n bits of what was written |
| Bits.BitsSnoc | include/bitstream.h:40-44 | the loop's bit test appends the next bit of the number |
| Bits.ValueSnoc | include/bitstream.h:97-101 | or-ing in bit i adds its weight |
| Bits.MaskSets | include/bitstream.h:33 | or-ing a mask sets one bit of the byte and no other |
| BitStream.OBitStream.constructor | include/bitstream.h:27-28 | nothing put, nothing sent |
| BitStream.OBitStream.PutBit | include/bitstream.h:32-38 | one bit is appended to all that was put; a packet goes out exactly when the buffer is full, with all its bits, and otherwise nothing is sent |
| BitStream.OBitStream.PutBits | include/bitstream.h:40-44 | the low bits are appended, least significant first, and the bits are cut into full packets and a rest short of one |
| BitStream.CutCounts | include/bitstream.h:35-37 | from an empty buffer n bits make n / max_num_bits packets and leave n % max_num_bits bits |
| BitStream.PacketBytes | include/bitstream.h:33 | byte j of a packet is the number its bits 8j to 8j + 7 make, least significant first, missing ones zero |
| BitStream.OBitStream.Flush | include/bitstream.h:46-54 | ships exactly the buffered bits under the next number, also when there are none, and loses no bit; packets stay consecutive and well-formed |
| BitStream.ShipPacket | include/bitstream.h:50-51 | cutting the buffer to ceil(n/8) bytes keeps its bits and makes a well-formed packet |
| BitStream.WriteBit | include/bitstream.h:33 | because bits beyond the cursor are zero, or-ing appends exactly this bit and keeps them zero |
| BitStream.IBitStream.constructor | include/bitstream.h:92-93 | what can be received is everything sent up to the first packet that is missing among the arrivals, and everything if none is |
| BitStream.FrontierIs | include/bitstream.h:67-81 | the horizon is the first packet neither kept nor arriving |
| BitStream.ReadableIsPrefix | include/bitstream.h:105-112 | what can be received is an initial part of what is still to come |
| BitStream.IBitStream.Accept | trader.cpp:30 | a packet handed to the stream's queue is queued by sequence number and can be taken from then on |
| BitStream.IBitStream.AwaitPacket | include/bitstream.h:67-81 | takes arrivals, in any order and duplicated, until the wanted packet is kept; loses no wanted one; terminates with the arrivals |
| BitStream.IBitStream.FetchPacket | include/bitstream.h:66-89 | succeeds if and only if the wanted packet is among kept and arriving ones, then moves to exactly the next number; the bits received stay the same |
| BitStream.IBitStream.GetBit | include/bitstream.h:105-112 | yields the first bit received, across empty and partial packets; waits if and only if there is none |
| BitStream.IBitStream.GetBits | include/bitstream.h:95-103 | yields the number encoded by the next bits and leaves exactly the rest; waits if and only if fewer have been received |
| BitStream.AbsorbKeeps | include/bitstream.h:72-76 | the reorder map keeps only genuine packets not yet consumed; dropping older duplicates loses nothing wanted |
| BitStream.PayloadAppend | include/bitstream.h:46-54 | the bits of consecutive packets are the concatenation of their payloads |
| Codec.UintRoundTrip | include/codec.h:97-101 | the length prefix and elided leading one restore every value in 1..2^31-1, leaving later bits alone |
| Codec.ShortRoundTrip | include/codec.h:113-116 | twelve sign-extended bits restore every price whose difference is in -2048..2047, in wrapping arithmetic |
| Codec.LongPrice | include/codec.h:117-124 | both long forms restore the price for every difference that does not overflow |
| Codec.OrderRoundTrip | include/codec.h:106-152 | decoding an encoded order returns it, with encoder and decoder last price equal and following bits untouched |
| Codec.StreamRoundTrip | include/codec.h:40-80 | decoding the bits of any encodable order list returns the list |
| Codec.SmallPricesEncode | include/codec.h:45 | limit prices below 2^31 are always encodable |
| WireFormat.OrderForm | include/codec.h:40-43 | an order is one bit, set for an ask, ten bits of volume and its body |
| WireFormat.BodyForm | include/codec.h:44-60 | a limit order's body is the tag and form of its difference to the previous limit price |
| WireFormat.PlainDifference | include/codec.h:45 | that difference is the plain one below 2^31 and otherwise equal to it modulo 2^32; only limit orders change the previous price |
| WireFormat.ShortForm | include/codec.h:45-49 | a difference in -2048..2047 is three zero bits and exactly its twelve two's complement bits |
| WireFormat.LongFormUp | include/codec.h:50-52 | a larger difference is tag 1, the position n of its leading bit in five bits, and its n lower bits |
| WireFormat.LongFormDown | include/codec.h:53-55 | a smaller one is tag 2 and its absolute value in the same form |
| WireFormat.OtherTags | include/codec.h:62-76 | the three-bit tags of the five other types, written out |
| Codec.CanonIsSame | include/trade.h:34-37 | what survives the wire equals the order under operator== if and only if its volume is below 1024 |
| Codec.DecodeMonotone | include/codec.h:106-152 | more bits never change an order that was complete without them |
| Codec.PrefixDecodes | include/codec.h:106-152 | any prefix of the bits decodes to a prefix of the orders |
| Codec.OrderEncoder.constructor | include/codec.h:38 | starts with last price 0, nothing put and the packet size given |
| Codec.OrderEncoder.EncodeUintTo | include/codec.h:31-35 | appends length and low bits of the value |
| Codec.OrderEncoder.SendDiff | include/codec.h:45-58 | appends the short or long form of a price difference |
| Codec.OrderEncoder.SendBody | include/codec.h:43-79 | appends type tag and price, and updates the last price |
| Codec.OrderEncoder.Send | include/codec.h:40-80 | appends exactly the order's encoding to the bits put; packets that go out on the way are full |
| Codec.OrderEncoder.Flush | include/codec.h:82 | afterwards all bits put are in sent packets |
| Codec.OrderDecoder.constructor | include/codec.h:104 | starts with last price 0 |
| Codec.OrderDecoder.DecodeUintFrom | include/codec.h:97-101 | reads the number at the front of the bits received; waits if and only if it is not all there |
| Codec.OrderDecoder.NextPrice | include/codec.h:113-124 | reads the price of each of the three forms; waits if and only if it is not all there |
| Codec.OrderDecoder.Next | include/codec.h:106-152 | returns the first order of the bits received and leaves exactly the rest; waits if and only if they hold no whole order |
| Network.PacketQueue.constructor | include/network.h:50-53 | a new queue is empty |
| Network.PacketQueue.Send | include/network.h:56-61 | adds the packet, duplicates counted |
| Network.PacketQueue.Next | include/network.h:63-71 | removes one packet of least sequence number, or waits on an empty queue |
| Network.SenderTurn | src/network.cpp:92-111 | a failed write leaves the queue as it was; a successful one removes exactly the least-numbered packet; the well-formedness check holds |
| Network.Demux.Send | trader.cpp:30 | the packet goes to its shard's queue and no other changes; an unknown shard is refused |
| Network.RequeueUndoes | src/network.cpp:95-98 | taking a packet and putting it back after a failed write leaves every place as before |
| Transport.EncodeSafe | include/bitstream.h:51 | a newly sent packet keeps the network safe |
| Transport.MoveSafe | src/network.cpp:70-82 | moving a packet on, or back to its queue, keeps the network safe |
| Transport.DuplicateSafe | src/network.cpp:95-98 | a packet both delivered and requeued keeps the network safe |
| Transport.FetchSafe | include/bitstream.h:69-77 | keeping or discarding an arrival keeps the network safe |
| Transport.StepSafe | src/network.cpp:92-111 | every step keeps every packet genuine and in the right shard, the reorder maps correct, and every unconsumed packet somewhere |
| Transport.NetRunSafe | src/network.cpp:188-201 | so does every run of the network |
| Transport.TransportSafety | include/network.h:56-71 | in every reachable state the bits handed out are a prefix of the bits put, and every packet sent but not consumed is in some queue, link or reorder map |
| Transport.QuietIsComplete | src/network.cpp:188-201 | a network in which only failing writes could still happen has delivered everything, in order |
| Receiving.TakeIsFetch | include/bitstream.h:69-77 | a reader that takes the next arrival makes a fetch of the network, and holds what the network's reader then holds |
| Receiving.NextIsAdvance | include/bitstream.h:82-88 | going on to the wanted packet is the network's advance |
| Receiving.HopIsArrival | trader.cpp:30 | a packet that reaches the shard's read queue is an arrival, queued by sequence number |
| Receiving.OtherStepsPass | src/network.cpp:188-201 | no other step of the network concerns the reader |
| Receiving.StreamIsReader | include/bitstream.h:66-89 | a stream that started as the network's reader has, after any reads on demand, the sequence number, reorder map and queue of that reader after a run of the shard's fetches and advances |
| Receiving.ReadsUpToHorizon | include/bitstream.h:66-89 | a reader that goes on while it can consumes exactly up to the first missing packet |
| Receiving.ReadersDeliver | trader.cpp:64 | from any reachable state of the whole system the reader's steps lead to one in which its trader may process exactly the merge of what has arrived in sequence |
| Receiving.CollectInWorld | trader.cpp:43-73 | the merging half of a stock's thread, run on the packets of the whole system's queues, collects exactly the orders the system lets that trader process |
| Reader.LastAtIs | src/reader.cpp:213-215 | a table cell names the last raw entry of its stock and order id, or -1 if there is none |
| Reader.ScatterInverts | src/reader.cpp:210-218 | the table finds every raw order again if and only if no stock has two orders of one id |
| Reader.RowIsSorted | src/reader.cpp:210-218 | the entries of a stock's row other than -1 are raw entries of that stock, strictly ascending by order id, hence none twice; with distinct ids they are all of them |
| Reader.EntryIsInItsCell | src/reader.cpp:213-215 | the raw entry at (x, y, z) is in row x % 10, in the column of its order id, unless another entry of that stock has the same id |
| Reader.Scatter | src/reader.cpp:210-218 | the triple loop builds exactly the table of all stocks' rows in place |
| Merger.MergeRestores | include/processor.h:18-27 | merging any parts of the two streams gives an initial part of the full list, and all of it from both in full |
| Merger.RemoteIsOthersLocal | trader.cpp:48-58 | with complementary masks, what one trader lacks is what the other encodes |
| Merger.EncodedOnceInOrder | trader.cpp:48-58 | on a row of the table, the loop that skips -1 sends each of the trader's orders of the stock exactly once, by strictly ascending order id |
| Merger.RowsComplement | trader.cpp:48-58 | the two traders' rows are complementary if and only if their files partition the stock's order ids |
| Merger.OwnIsLocal | trader.cpp:48-58 | what a trader sends is the part of the full list, in order, where its row is not -1 |
| Merger.EncodeStock | trader.cpp:45-59 | after loop and flush the packets carry exactly the encoding of the owned orders, and every one but the last is full |
| Merger.OrderMerger.constructor | include/processor.h:16-17 | starts at the first order |
| Merger.OrderMerger.Next | include/processor.h:18-27 | returns the head of the merge of what has been received and leaves its tail; waits if and only if that merge is exhausted before the last order, on the stream the mask names; ends exactly after the last order |
| Merger.MergedStream | trader.cpp:64 | any received parts of the two bit streams merge to a prefix of the global order list, up to operator==, and to all of it once both are complete |
| Merger.CollectOrders | trader.cpp:70-73 | the loop hands on exactly the merge of what has been received |
| Merger.MergeStock | trader.cpp:43-73 | a fresh merger, drained, hands on exactly the merge of the packets that have arrived in sequence, a prefix of the stock's global order list; if no packet is missing, however reordered and duplicated, all of it, and then ends |
| Exchange.StockIsOk | trader.cpp:48-58 | files that partition the ids give every stock complementary rows whose orders can be encoded |
| Exchange.CaseExists | trader.cpp:35-75 | every pair of files that partition the ids can be run: its orders fit into packets, and the engines' input exists |
| Exchange.SetupIsUnique | trader.cpp:108-110 | the files determine what the engines run on |
| Exchange.DeliveredIsPrefix | trader.cpp:41-64 | either trader's own packets and any received prefix of the other's bits merge to a prefix of the one global order list, and to all of it once everything is received |
| Exchange.AvailableIsPrefix | trader.cpp:64 | in every safe network a trader's merger can deliver only an initial part of the global list |
| Exchange.ProcessedIsStep | trader.cpp:70-73 | processing what the merger delivers is a step of the ten-stock system on the global list |
| Exchange.ActKeepsWorld | trader.cpp:35-75 | every action of either network or any of the twenty threads keeps networks safe and traces reachable |
| Exchange.WorldRunOk | trader.cpp:35-75 | so does every run of the whole system |
| Exchange.TradersAgree | trader.cpp:35-75 | for any two runs on the same files, with any packet sizes, networks and interleavings, and either trader of each: every stock's trade logs agree as far as both go, and all state is equal after equally many orders |
| Exchange.RestIsTerminal | trader.cpp:70-73 | at rest, no schedule of the engines could go on either |
| Exchange.RestingTradersAgree | trader.cpp:35-75 | two runs at rest have computed exactly the same, whichever traders are compared |
| Exchange.RestingIsFinished | trader.cpp:70-73 | if the hooks leave any schedule a way to the end, every run at rest has processed all orders of all stocks |
| Exchange.OrdersArrive | trader.cpp:48-64 | the engines see each raw order of either file at its own id, as it comes off the wire |
| Exchange.OrdersSurvive | include/trade.h:34-37 | so side, type, limit price and the volume modulo 1024 are those of the file, and the order is equal under operator== if and only if its volume fits ten bits |
| Exchange.EnginesStaySound | src/persister.cpp:38-40 | in every state a stock goes through the book invariant holds and no more trades than orders have been written |
| Exchange.TradersStaySound | trader.cpp:70-73 | so in every state of every run of the whole system, at both traders |
| Progress.ProgressLessens | src/network.cpp:92-111 | every network step but a failed write and a duplicate strictly lessens what is left to do |
| Progress.ActLessens | trader.cpp:35-75 | so does every processed order, in the whole system |
| Progress.SetbackCosts | src/network.cpp:95-98 | a failed write or a duplicate adds at most six moves to what is left to do |
| Progress.RunIsBounded | trader.cpp:35-75 | every run's length plus what is left to do is at most what there was to do at the start plus seven per setback: a run with finitely many failed writes and duplicates is of bounded length |
| Progress.MaximalRunRests | trader.cpp:35-75 | a run that can only go on with setbacks has come to rest |
| Progress.RestStaysReachable | trader.cpp:35-75 | every run, whatever has failed or been duplicated in it, can be continued until the system rests |
| Progress.ResultIsDetermined | trader.cpp:35-75 | the files determine one result: whatever packets are cut from them, every run can still reach it at both traders, and every run at rest has it |

## Left out

- Processor.Processor.Complete: a call that has to wait returns false and is resumed by calling it again; the thread's own blocking and waking is not modelled.
- Processor.Processor.BidSweepAll: the FAK and FOK loops of one side are the same text in the source and are one method here, and the loop bodies of a side are one method.
- Persister.Persister.Persist: the free slot is a precondition here and in `Commit`, which the callers prove; the file itself (mmap, ftruncate, packed records) is not modelled.
- Hooks.HookChecker.constructor: `std::sort` is one fixed sort here; for repeated ids its tie order is unspecified in the source, and both traders are taken to have the same.
- BitStream.IBitStream.AwaitPacket: the arrivals are a finite list, to which `Accept` adds, and running out of them stands for blocking; the endless loop on end of stream is not modelled.
- Codec.OrderEncoder.Send: limit prices whose signed difference to the previous one, or its negation, overflows are excluded; the source leaves them undefined.
- BitStream.OBitStream.Flush: sequence numbers are unbounded; the 32-bit counter wraps after 2^32 packets. The destructor's flush is a further call of the same method.
- Reader.Scatter: order ids outside the table, which the source writes outside its row, are excluded; the 100 x 1000 x 1000 dimensions are parameters.
- Network.PacketQueue.Next: one call is atomic; mutex, condition variable and memory order are not modelled.
- Progress.RunIsBounded: no fairness is assumed, so writes may fail for ever; links never lose a packet handed over in full.
- Exchange.AtRest: packets are consumed as soon as they can be, where the source fetches on demand; a finished trader with an unread, empty last packet is therefore not yet at rest here.
- Exchange.TradersAgree: a trader's own packets are available to its merger as soon as it has encoded them all, without the detour through its own queue.
- Sockets, connection setup, keys, retries and the byte-level read and write loops: operating-system calls.
- Reading the input files, prices as floating point (`lround(price * 100)`, `price / 100.0`): prices are taken as integers.
- Configuration, metrics, console, logging and process start-up: no property of interest.
