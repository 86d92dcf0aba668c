# Verified model of the market-data and signal engine

A Dafny model of the engine's self-contained algorithms, each proved against a simple specification of what it
stands for. Code that works step by step is modelled as classes and loops; calendar arithmetic and the histogram's
bucket functions are functions. `dafny verify dfyconfig.toml` checks the whole project.

| file | component | what is proved |
|---|---|---|
| `ScorerText`, `PatternMatch`, `TrieBfs`, `AhoCorasick`, `Scorer` | headline scorer | trie, breadth-first completion and scan report exactly the patterns ending at each position; a rule fires iff its words stand in the text, letter by letter |
| `FlatMap64` | open-addressing map | any run of operations answers like a mathematical map; backward-shift deletion keeps every key reachable |
| `LevelBook`, `ItchBook` | ladders and order book | ladders, the published top and the quote on the board are those of the live orders after every message; an order's life and the prices it is reported at |
| `Rings`, `MpscQueue`, `SpscQueue`, `SeqLock` | lock-free structures | safety over every interleaving: delivery in order, no slot reused early, snapshots of whole writes |
| `MoldUdp64` | MoldUDP64 receiver | every run is the fold of its packets and ticks; from the first packet on delivery is in order and at most once, delivered plus lost is the distance, and without timeouts it is the feed itself; what is asked for is what is missing, and replies close the gap |
| `HttpText`, `HttpChunks`, `HttpResponse`, `HttpServer`, `HttpFields`, `HttpReplies` | HTTP response parser | any way of cutting the stream gives the answer of one feed, with the exact exception; for every code and any header lines what the message says and how its body is framed |
| `Calendar`, `EasternTime` | dates and US Eastern time | bijection of day numbers and dates, days counted one by one, change days, the wall clock of every second, the date of every instant |
| `EngineCore`, `EngineRules`, `DayRun`, `DayRules`, `MidnightRun` | simulated-clock driver | on one Eastern date, or without a paper trader, the idle skip and the fast path are not observable, with mover scans too; news in order, once, on time; exactly when a look at the date can be told, and a replay in which the skip is |
| `Histogram` | latency histogram | a percentile is within a sixteenth above the exact order statistic; merge is recording both |
| `JsonText` | JSON strings | escape round trip, the closing quote the grammar gives, `\u` escapes and surrogate pairs to UTF-8 |
| `Watchlist`, `WatchRules` | engine watchlist | every run is the fold of its events; table, lists and index agree; tiers and scores of a story never fall and no tier is signalled twice; equal signals a cooldown apart |
| `PaperTrader`, `PaperRules` | paper trader | every run is the fold of its events; accounts, peak and drawdown are those of the equity curve of the reported trades; when and at which side it trades |
| `Options`, `Ascii`, `Sequences`, `Arithmetic` | shared | optional values, ASCII classes, a sequence within another, bounds and 64-bit subtraction |

Concurrent code is modelled as interleaved steps, one per atomic operation, in sequentially consistent order;
data copies of the sequence lock take one step per word. Characters of text stand for bytes. Counters are unbounded
unless a narrowing matters: 16-bit state numbers, 32-bit prices, the 32-bit sequence of the lock and 64-bit time
differences are written out. Prices and amounts of the paper trader are exact reals.

Five places where the code does less than one would hope are stated exactly:

- A response whose headers pass 1 MiB is refused when a prefix over the limit is fed before they end, and accepted
  when they come in one piece: `HttpResponse.SplitsAgree` gives the exact condition, `HttpServer.LongHeadersFail` the
  whole failing family and `HttpServer.OverfedInput` one response of it.
- The Eastern date of a time before the epoch is rounded toward zero: within the last second before a midnight it is
  already the next day. `EasternTime.DateOfInstant` gives the exact condition, `EasternTime.SlipsBefore` and
  `EasternTime.LastNanosecond` instants that meet it.
- The trader looks up the Eastern date at most once a minute, in evaluations too, so leaving out those of an idle engine
  moves the minutes in which a date is remembered. `EngineCore.LookTells` says exactly when one look more can be told by
  later ones: when it was not itself remembered and the date changes by then, however far away that midnight
  is (1 January 1970 aside, whose day number stands for no date).
  `MidnightRuns.SkipTells` gives, for every midnight, a replay of a fresh engine in which the driver buys where the
  reference driver still remembers the day before and refuses. Within one date, as in the replay of a recorded market day,
  and without a paper trader the driver is the reference driver (`DayRuns.DayAgrees`, `DayRuns.ReplayIsReference`).
- Header fields of an interim response stay in force for the reply behind it, a Content-Length too:
  `HttpReplies.LengthReply` counts it when the reply has none of its own.
- A read that spans exactly 2^31 writes can return a torn value (`SeqLocks.SequenceReuseTears`).

And one that only holds for well-behaved feeds: an added or replacing order whose reference is already live on a
quoted symbol leaves the ladders wrong (`ItchBooks.AddConsistent`, `ItchBooks.DuplicateReference`), and so does a locate
code given a new meaning, by a directory message or a trading action, while it has live orders that are or would be shown
(`ItchBooks.RemapConsistent`). No other message that changes orders or locate codes does (`ItchBooks.ItchBook.Handle`).

## Model

| member | source | states |
|---|---|---|
| Ascii.LowersLetters | src/core/ascii.hpp:16-32 | capital letters become the small letters in the same order, every other character is its own |
| Ascii.HexDigits | src/net/http.cpp:209-216 | the sixteen digits of either case in order, and no other character, have a value |
| ScorerText.SeparatorsAreOthers | src/engine/scorer.cpp:12-19 | exactly the ASCII letters and digits are not separators |
| ScorerText.SymbolsFoldCase | src/engine/scorer.cpp:12-19 | two characters share a symbol other than the separator iff they are the same letter or digit up to case |
| ScorerText.WordsAreRuns | src/engine/scorer.cpp:234-241 | the words of a text are its longest runs of letters and digits, in small letters, in order, none left out |
| ScorerText.StreamIsJoin | src/engine/scorer.cpp:229-248 | the folded stream of any text is its words, in order, with one separator around and between them |
| PatternMatch.MatchesAreSuffixes | src/engine/scorer.cpp:241-248 | the ids due at a position are exactly those of the patterns that are suffixes of the stream so far |
| PatternMatch.MatchesOnce | src/engine/scorer.cpp:200-202 | no id is due twice at one position |
| PatternMatch.HitsArePositions | src/engine/scorer.cpp:234-248 | an id is reported iff its pattern ends at some position after the leading separator |
| PatternMatch.HitsAreOccurrences | src/engine/scorer.cpp:224-249 | for a pattern of two symbols or more that is plain substring search |
| PatternMatch.BareSeparatorFires | src/engine/scorer.cpp:229-248 | a pattern that is only a separator fires iff the text has a word |
| PatternMatch.RuleFires | src/engine/scorer.cpp:141-249 | a rule fires iff its words, as characters and whatever their case, stand in the text as consecutive whole words, for `*` rules with the last a word prefix; a phrase without a word fires iff the text has one |
| PatternMatch.HoldsInSymbols | src/engine/scorer.cpp:12-19 | words stand in a text as characters exactly where their symbols do |
| Scoring.Fold | src/engine/scorer.cpp:150-155 | the normalised phrase read as symbols is the join of the phrase's words |
| Scoring.DropBlanks | src/engine/scorer.cpp:156 | the end of a `*` pattern is left open, its leading blank kept |
| Scoring.Normalize | src/engine/scorer.cpp:144-157 | a phrase is compiled to its pattern, `*` or not |
| Scoring.NormalizeAll | src/engine/scorer.cpp:142-158 | the same for the rules in order |
| AhoCorasick.Insert | src/engine/scorer.cpp:164-175 | inserting a pattern keeps one node per pattern prefix and lists the id at its node |
| AhoCorasick.BuildTrie | src/engine/scorer.cpp:160-176 | the nodes are exactly the prefixes of the patterns |
| AhoCorasick.LongestIsLongest | src/engine/scorer.cpp:224-249 | the state of a stream is its longest suffix that is a prefix of a pattern |
| AhoCorasick.LongestStep | src/engine/scorer.cpp:242 | that state can be computed from the previous state and the next symbol alone |
| AhoCorasick.MatchesOfState | src/engine/scorer.cpp:199-202 | and it determines the patterns that end here |
| AhoCorasick.WordsHaveLaws | src/engine/scorer.cpp:203-213 | failure states, targets and merged outputs by words obey the equations the breadth-first pass relies on |
| TrieBfs.ExpandRoot | src/engine/scorer.cpp:183-193 | the root row is the automaton's, its children are queued with failure link 0 |
| TrieBfs.ExpandRow | src/engine/scorer.cpp:203-213 | a popped state's row is the automaton's, its children get their failure states |
| TrieBfs.Unexplored | src/engine/scorer.cpp:195-199 | a state not yet popped is no shallower than the queue's front, so failure rows are complete when used |
| TrieBfs.Complete | src/engine/scorer.cpp:179-214 | every row and every merged output list is the automaton's |
| Scoring.Flatten | src/engine/scorer.cpp:215-221 | every output list is found between its offsets |
| AhoCorasick.StatesArePrefixes | src/engine/scorer.cpp:160-177 | a trie of the patterns has one state for each distinct prefix of a pattern |
| Scoring.Build | src/engine/scorer.cpp:159-222 | the states are exactly the distinct pattern prefixes, whatever their number; for fewer than 65535 the tables are those of the automaton |
| Scoring.TableStep | src/engine/scorer.cpp:242-243 | a lookup leads from the longest suffix to the longest suffix, its list being the matches |
| Scoring.Scorer.Load | src/engine/scorer.cpp:127-138 | a rule set is compiled iff it has fewer than 65535 rules and their patterns fewer than 65535 distinct prefixes |
| Scoring.Scorer.Advance | src/engine/scorer.cpp:242-243 | one symbol appends exactly the matches there |
| Scoring.Scorer.Scan | src/engine/scorer.cpp:224-249 | the hits are those of naive search over the word stream, and a rule is among them iff its words stand in the text, letter by letter |
| FlatHash.ProbeMiss | src/core/flat_hash.hpp:37-45 | a probe that ends in an empty slot has proved the key absent |
| FlatHash.EmptySlotExists | src/core/flat_hash.hpp:52 | a map smaller than the table leaves an empty slot, so every probe ends |
| FlatHash.LoadFactorIsRoomy | src/core/flat_hash.hpp:131 | every load factor from one half up to, but not, one keeps it so |
| FlatHash.MovableIffHoleOnPath | src/core/flat_hash.hpp:90-91 | the two-case test says exactly that the hole is on the entry's probe path |
| FlatHash.ShiftSkip | src/core/flat_hash.hpp:86-96 | an entry whose path misses the hole may stay |
| FlatHash.ShiftMove | src/core/flat_hash.hpp:92-95 | one whose path meets it may move, leaving the hole behind |
| FlatHash.ShiftDone | src/core/flat_hash.hpp:88-97 | at the end of the cluster the hole can be emptied with every key still reachable |
| FlatHash.SameSlotsSameMap | src/core/flat_hash.hpp:142 | the slots determine the map |
| FlatHash.CloseGap | src/core/flat_hash.hpp:83-97 | the deletion loop leaves a table of the map without the key |
| FlatHash.NextPow2 | src/core/flat_hash.hpp:30 | the smallest power of two that is at least the capacity |
| FlatHash.FlatMap64.Probe | src/core/flat_hash.hpp:38-44 | the probe finds the key or the empty slot that ends its path |
| FlatHash.FlatMap64.Find | src/core/flat_hash.hpp:37-46 | finds exactly the keys of the map, with their values |
| FlatHash.FlatMap64.TryEmplace | src/core/flat_hash.hpp:51-65 | inserts a default value iff the key is new; the table doubles iff one entry more would pass the load limit |
| FlatHash.FlatMap64.Reserve | src/core/flat_hash.hpp:107-110 | the same map with room for the slots asked for |
| FlatHash.ReserveSuffices | src/core/flat_hash.hpp:107-110 | the slots asked for hold that many entries without growing |
| FlatHash.FlatMap64.InsertOrAssign | src/core/flat_hash.hpp:67-71 | the map with the key set |
| FlatHash.FlatMap64.Erase | src/core/flat_hash.hpp:73-100 | the map without the key |
| FlatHash.FlatMap64.Clear | src/core/flat_hash.hpp:102-105 | the empty map |
| FlatHash.LimitGrows | src/core/flat_hash.hpp:131 | a larger table takes at least one entry more |
| FlatHash.FlatMap64.Rehash | src/core/flat_hash.hpp:126-140 | the same map in a table of any larger power of two |
| FlatHash.FlatMap64.ForEach | src/core/flat_hash.hpp:112-121 | every entry once |
| FlatHash.FlatMap64.Run | src/core/flat_hash.hpp:37-140 | any run of operations gives the answers of the mathematical map |
| LevelBooks.TouchIsBest | src/market/level_book.hpp:54-55 | the last level is the best price with its quantity, 0 for an empty side |
| LevelBooks.LadderIsCanonical | src/market/level_book.hpp:27-51 | sorted ladders with the same quantities are the same ladder |
| LevelBooks.SideLadder.Position | src/market/level_book.hpp:62-68 | where a price belongs |
| LevelBooks.SideLadder.Add | src/market/level_book.hpp:27-35 | the quantity at the price grows, no other changes, the ladder stays sorted |
| LevelBooks.SideLadder.Remove | src/market/level_book.hpp:38-51 | it shrinks, by no more than is there, and an empty level is gone |
| ItchBooks.AddConsistent | src/market/itch_book.hpp:58-69 | an add keeps the ladders the sums of the live orders iff its reference was not live on a quoted symbol |
| ItchBooks.DuplicateReference | src/market/itch_book.hpp:58-69 | two adds under one reference, after which a ladder shows shares that no order has |
| ItchBooks.ReduceConsistent | src/market/itch_book.hpp:164-175 | reducing an order on both sides keeps them so |
| ItchBooks.TouchOfOrders | src/market/itch_book.hpp:151-154 | the touch of a ladder that agrees with the orders is their best price, with all shares there |
| ItchBooks.PublishedIsBest | src/market/itch_book.hpp:151-162 | published prices and sizes, and the board's, are the best of the live orders |
| ItchBooks.BoardIsBest | src/market/board.cpp:94-104 | a quote on the board has the highest buy price as its bid and the lowest other price as its ask, in 32 signed bits, each with all shares there up to 2^32 - 1, or 0 and 0 |
| ItchBooks.OrderLife | src/market/itch_book.hpp:70-117 | over any run an order keeps price, side and locate code and loses exactly the shares asked of it; it is gone iff a message ended it or as many were asked as it had |
| ItchBooks.OrderBegins | src/market/itch_book.hpp:58-117 | an order begins as its add says, a replacement on the side and locate code of the order it replaces |
| ItchBooks.PrintsAtRestingPrice | src/market/itch_book.hpp:70-80 | an execution is reported at the price its order was stored with, however long ago, and only while the order lives |
| ItchBooks.PrintsAtCarriedPrice | src/market/itch_book.hpp:81-122 | a trade that carries its price is reported at that price, an execution only if printable |
| ItchBooks.CodeMeans | src/market/itch_book.cpp:35-46 | a directory message gives its code a meaning, a trading action only a code without one, and no other code changes |
| ItchBooks.MeaningStays | src/market/itch_book.cpp:35-46 | until a directory message names it a locate code keeps its meaning over any run |
| ItchBooks.RemapConsistent | src/market/itch_book.cpp:35-38 | a new meaning of a locate code keeps the ladders right iff none of its live orders was or would be shown, or nothing changes |
| ItchBooks.ItchBook.OnAdd | src/market/itch_book.hpp:58-69 | orders after an add; the books stay in step iff it was fresh |
| ItchBooks.ItchBook.OnExecuted | src/market/itch_book.hpp:70-80 | orders and prints after an execution; the books stay in step |
| ItchBooks.ItchBook.OnExecutedPrice | src/market/itch_book.hpp:81-91 | the same at a price, printed only if printable, unknown references included |
| ItchBooks.ItchBook.OnCancel | src/market/itch_book.hpp:92-95 | the order loses shares or is gone |
| ItchBooks.ItchBook.OnDelete | src/market/itch_book.hpp:96-99 | the order is gone |
| ItchBooks.ItchBook.OnReplace | src/market/itch_book.hpp:100-117 | the new order takes the old one's place; in step iff its reference was free |
| ItchBooks.ItchBook.OnTrade | src/market/itch_book.hpp:118-122 | a print and nothing else |
| ItchBooks.ItchBook.Reduce | src/market/itch_book.hpp:164-175 | takes what is there from the order and from its ladder |
| ItchBooks.ItchBook.PublishTop | src/market/itch_book.hpp:151-162 | the board shows the touch of the ladders, and is written only when it changed |
| ItchBooks.ItchBook.MapLocate | src/market/itch_book.cpp:35-38 | the new meaning, and in step under exactly that condition |
| ItchBooks.ItchBook.OnTradingAction | src/market/itch_book.cpp:40-46 | a locate code without a meaning gets one, and in step under the same condition |
| ItchBooks.ItchBook.Handle | src/market/itch_book.hpp:58-122 | any message that changes orders or locate codes: orders, prints, locate codes, and in step iff it was fresh |
| ItchBooks.ItchBook.Run | src/market/itch_book.hpp:58-175 | orders, locate codes and prints after any run are the folds of its messages, and if they were fresh the published top of every quoted symbol and its quote on the board are the best of its live orders, buys as the bid |
| Rings.SlotsDiffer | src/core/mpsc_queue.hpp:32 | positions less than a lap apart have different cells |
| Rings.SlotNextLap | src/core/mpsc_queue.hpp:73 | positions a lap apart share one |
| MpscQueues.KeepInv | src/core/mpsc_queue.hpp:29-75 | every step of any producer or of the consumer keeps claims, cells and sequence numbers in agreement |
| MpscQueues.KeepOrdered | src/core/mpsc_queue.hpp:29-46 | a producer's claims stay in its program order |
| MpscQueues.Delivery | src/core/mpsc_queue.hpp:29-75 | in every interleaving position k hands out what the producer that claimed k wrote, in order, none lost or twice, per producer in order |
| MpscQueues.PublishedCellKept | src/core/mpsc_queue.hpp:49-75 | a committed cell is not written before it is popped |
| MpscQueues.FrontIsPublished | src/core/mpsc_queue.hpp:64-69 | the consumer only sees a committed cell, with its claim's value |
| MpscQueues.FullMeansFull | src/core/mpsc_queue.hpp:34-41 | a refused claim means that every cell was outstanding |
| MpscQueues.SoloPush | src/core/mpsc_queue.hpp:29-67 | with room in the ring a push that nobody disturbs succeeds and is published at the next position |
| MpscQueues.SoloPop | src/core/mpsc_queue.hpp:70-81 | what is published at the front can be taken, and is what its claimant pushed |
| SpscQueues.KeepInv | src/core/spsc_queue.hpp:36-69 | every step keeps indices, caches and slots in agreement |
| SpscQueues.ConsumedIsPrefix | src/core/spsc_queue.hpp:36-69 | consumed values are a prefix of the published ones, at most the capacity outstanding, caches never ahead |
| SpscQueues.FillsArePublished | src/core/spsc_queue.hpp:36-56 | what is published are the values the producer filled in, each once and in their order |
| SpscQueues.ClaimedSlotIsFree | src/core/spsc_queue.hpp:36-43 | the producer's slot is none the consumer may still read |
| SpscQueues.CachesAreTransparent | src/core/spsc_queue.hpp:38-62 | cached indices give the answers of the real ones: refused iff full, empty iff empty |
| SeqLocks.RunInv | src/core/seqlock.hpp:27-60 | the invariant of writer, words and readers over every run |
| SeqLocks.SnapshotsAreConsistent | src/core/seqlock.hpp:48-60 | a returned prefix is that of the state after a whole number of writes within the read, unless the sequence wrapped |
| SeqLocks.QuietRead | src/core/seqlock.hpp:51-64 | between writes a read of any length returns that much of the data at once |
| SeqLocks.WholePrefix | src/core/seqlock.hpp:51-64 | a read ends only with the whole prefix asked for, and does not begin during a write |
| SeqLocks.SequenceReuseTears | src/core/seqlock.hpp:50-58 | a run in which the wrapped sequence lets a torn read through |
| MoldUdp64.PacketRoundTrip | src/market/sources.hpp:180-238 | session, number, count and messages of an encoded packet are read back: numbers with the highest byte first, each message behind its length |
| MoldUdp64.MoldReceiver.Process | src/market/sources.hpp:178-200 | exactly the complete blocks after the skipped ones are handed over; undecodable ones and a cut-off packet are counted |
| MoldUdp64.MoldReceiver.Walk | src/market/sources.hpp:180-199 | the block walk, as values |
| MoldUdp64.TakeHonest | src/market/sources.hpp:282-283 | a packet that spans the next expected message keeps delivery a strictly increasing run of the feed |
| MoldUdp64.NoLossIsContiguous | src/market/sources.hpp:178-304 | without counted losses the delivered sequence numbers have no gap |
| MoldUdp64.ReplayedLeaves | src/market/sources.hpp:203-215 | a replay leaves exactly the packets beyond where it stopped, and has taken all that went on |
| MoldUdp64.DrainedValid | src/market/sources.hpp:202-221 | after a delivery what is held back lies beyond the next expected message, and only while a gap is being recovered |
| MoldUdp64.ArrivedValid | src/market/sources.hpp:223-285 | so it does after any packet, and nothing handed over is taken back |
| MoldUdp64.TickedValid | src/market/sources.hpp:287-303 | and after any tick |
| MoldUdp64.WithMessagesInSession | src/market/sources.hpp:258-284 | an honest packet with messages keeps delivery in order and at most once, whether old, current, lost behind or held back |
| MoldUdp64.GaveUpInSession | src/market/sources.hpp:290-301 | so does giving up on a gap, whose messages count as lost |
| MoldUdp64.ArrivedInSession | src/market/sources.hpp:223-285 | any honest packet keeps delivered plus lost the distance from the session's first message |
| MoldUdp64.ArrivedStarts | src/market/sources.hpp:231-257 | the count starts at the sequence number of the first heartbeat or packet of the session, with nothing delivered |
| MoldUdp64.RunKeeps | src/market/sources.hpp:178-304 | both after every run of honest packets of one session and ticks |
| MoldUdp64.HonestRun | src/market/sources.hpp:178-304 | over such a run, with loss, duplication and reordering: in order from the first packet's number on, at most once, delivered plus lost is the distance; with recovery and no timeout the messages are exactly the feed's |
| MoldUdp64.RunAsksRightly | src/market/sources.cpp:134-143 | at every step of any run the receiver asks for nothing or for the message it is missing and as many behind it as the limit and what is held back allow; it asks when a gap opens and when it got further and there is another hole |
| MoldUdp64.TickedAsks | src/market/sources.hpp:287-303 | a tick gives up past the gap timeout, otherwise asks again past the retry time, otherwise does nothing |
| MoldUdp64.RepliesInOrder | src/market/sources.hpp:223-285 | packets that go on from one another take the receiver behind the last of them, whatever comes in between |
| MoldUdp64.RepliesClose | src/market/sources.hpp:202-285 | packets that together bring every message asked for take it behind them all, in any order and with other packets of the session in between, if the buffer has room and the feed is always cut the same way |
| MoldUdp64.EarlyPacketSecures | src/market/sources.hpp:262-280 | a packet that comes early is kept for later iff there is room and its number is still free |
| MoldUdp64.GivingUpLosesTheHole | src/market/sources.hpp:290-301 | giving up loses exactly the messages in front of the lowest packet held, nothing when none is |
| MoldUdp64.PacketLosesTheHole | src/market/sources.hpp:262-269 | a packet loses nothing with recovery, without it exactly the hole in front of it |
| MoldUdp64.BufferStaysInLimit | src/market/sources.hpp:270 | never more packets than the limit are held back |
| MoldUdp64.MoldReceiver.Take | src/market/sources.hpp:282-283 | hands over what is new in a packet |
| MoldUdp64.MoldReceiver.RequestGap | src/market/sources.cpp:134-143 | asks once, from the missing message on, up to the lowest packet held or the gap's end, within the limit; for nothing else |
| MoldUdp64.MoldReceiver.Replay | src/market/sources.hpp:203-215 | the loop is the replay in order, as far as the sequence is unbroken |
| MoldUdp64.MoldReceiver.Drain | src/market/sources.hpp:202-221 | the same, with the end of recovery or the next request |
| MoldUdp64.MoldReceiver.OnPacket | src/market/sources.hpp:223-285 | any packet: the state of the specification |
| MoldUdp64.MoldReceiver.OnHeartbeat | src/market/sources.hpp:243-256 | a heartbeat delivers nothing, starts the count or opens a gap |
| MoldUdp64.MoldReceiver.OnMessages | src/market/sources.hpp:258-284 | old packets are dropped and counted, current ones taken with what follows from the buffer, early ones counted as a loss or held back |
| MoldUdp64.MoldReceiver.HoldBack | src/market/sources.hpp:270-280 | with recovery nothing is delivered out of order |
| MoldUdp64.MoldReceiver.Tick | src/market/sources.hpp:287-303 | a timeout gives up what is missing before the lowest packet held, a retry asks again |
| MoldUdp64.MoldReceiver.GiveUp | src/market/sources.hpp:290-301 | the loss is counted in full and delivery resumes from the buffer |
| MoldUdp64.MoldReceiver.Run | src/market/sources.hpp:178-304 | any run ends in the fold of its packets and ticks |
| HttpText.FindGrows | src/net/http.cpp:253-254 | a hit stays the first hit as the buffer grows; after a miss only the unseen tail need be searched |
| HttpText.HexRoundTrip | src/net/http.cpp:188-198 | every size survives being written in hexadecimal |
| HttpChunks.StepGrows | src/net/http.cpp:174-245 | a decoding step that does not wait is the same in any longer buffer |
| HttpChunks.StepResumes | src/net/http.cpp:174-245 | one that waits has only moved closer |
| HttpChunks.DecodeResumes | src/net/http.cpp:174-245 | decoding what has arrived and then the rest is decoding everything at once; answers do not change |
| HttpChunks.ChunkedRoundTrip | src/net/http.cpp:174-245 | any encoding of non-empty chunks up to 512 MiB, with extensions and trailers, decodes to their concatenation and ends right behind it |
| HttpChunks.PlainIsWellFormed | src/net/http.cpp:178-200 | plain hexadecimal sizes are such an encoding of any list of pieces |
| HttpResponse.HeadRoundTrip | src/net/http.cpp:83-158 | a rendered header block is read line by line, the status line first |
| HttpResponse.BlockIsForward | src/net/http.cpp:253-268 | a resumed search never finds the end of a block before its start |
| HttpResponse.HeadsGrow | src/net/http.cpp:252-278 | header blocks read stay read, interim ones included; a waiting parser resumes as from the start |
| HttpResponse.BodyGrows | src/net/http.cpp:279-307 | the same for bodies of a length, chunked, and until close |
| HttpResponse.FeedResumes | src/net/http.cpp:247-310 | feeding what has arrived and then more is feeding more at once |
| HttpResponse.SplitsAgree | src/net/http.cpp:247-310 | every cutting of a stream into growing prefixes gives the verdict, fields and body of one feed, iff no prefix over 1 MiB came before the end of the headers |
| HttpResponse.ChunkedResponse | src/net/http.cpp:83-310 | a whole response whose headers say chunked gives its message and its chunks' concatenation, whatever follows |
| HttpResponse.LengthResponse | src/net/http.cpp:83-310 | one with a Content-Length gives exactly that much |
| HttpServer.StatusRead | src/net/http.cpp:83-104 | any three-digit code is read, whatever the reason phrase |
| HttpServer.TrimIs | src/core/ascii.hpp:46-51 | trimming takes blanks off both ends, and all of them |
| HttpServer.IntegerRead | src/core/ascii.hpp:79-87 | a numeral, signed or not, is read as its integer iff that is in range |
| HttpServer.TimeoutRead | src/net/http.cpp:146-153 | a Keep-Alive timeout is the number behind the first "timeout=", up to the last of its digits |
| HttpFields.LinesTell | src/net/http.cpp:106-158 | header lines are refused iff a Content-Length among them is no number or negative; otherwise every field is that of the last line that gives it, names in any case, and the body is chunked iff some line says so |
| HttpReplies.BodylessReply | src/net/http.cpp:160-162 | a reply to a HEAD request, and every 101, 204 and 304, is complete with its headers and has no body, whatever its framing headers and whatever follows, interim responses in front or not |
| HttpReplies.ChunkedReply | src/net/http.cpp:162-165 | any other reply that says chunked, with a Content-Length or without, gives its chunks put together |
| HttpReplies.LengthReply | src/net/http.cpp:165-166 | otherwise the last Content-Length says how much of what follows is the body; less is waited for, or an error at the close |
| HttpReplies.CloseReply | src/net/http.cpp:167-170 | without either everything up to the close is the body and the connection is not kept |
| HttpReplies.NoticesAreSilent | src/net/http.cpp:270-276 | interim responses without header lines leave no trace in the reply behind them |
| HttpServer.LengthRoundTrip | src/net/http.cpp:83-310 | a body sent with "Content-Length: n" comes back, with the code, whatever follows |
| HttpServer.ChunkedBodyRoundTrip | src/net/http.cpp:83-310 | a body sent in pieces with "Transfer-Encoding: chunked" comes back whole, with the code, whatever follows |
| HttpServer.LongHeadersFail | src/net/http.cpp:252-260 | every response cut inside its headers beyond 1 MiB is refused, and read when fed at once |
| HttpServer.OverfedInput | src/net/http.cpp:252-260 | one such response |
| HttpResponse.ResponseParser.ReadHex | src/net/http.cpp:188-198 | the digit loop reads the number or refuses |
| HttpResponse.ResponseParser.ParseHeaders | src/net/http.cpp:83-172 | the header loop is the line-by-line reading; there is no body to read iff the request was a HEAD or the code is 204, 304 or of the 1xx class |
| HttpResponse.ResponseParser.ParseChunked | src/net/http.cpp:174-245 | the chunk loop is the decoder |
| HttpResponse.ResponseParser.NextBlock | src/net/http.cpp:252-278 | one header block is waited for, refused or taken |
| HttpResponse.ResponseParser.Advance | src/net/http.cpp:247-310 | one feed: the answer and the new state of the specification |
| HttpResponse.ResponseParser.Exchange | src/net/http.cpp:247-310 | a caller feeding growing prefixes gets the answer of one feed, with the same exact condition |
| Calendar.DaysOfCivil | src/util/time.cpp:9-20 | every day number has a valid Gregorian date whose number it is |
| Calendar.CivilOfDays | src/util/time.hpp:13-20 | every valid date comes back from its day number |
| Calendar.DaysIncrease | src/util/time.hpp:13-20 | day numbers are ordered as dates are, both ways |
| Calendar.DaysCount | src/util/time.hpp:13-20 | the next date of the calendar is the next day number |
| Calendar.Epoch | src/util/time.hpp:13-27 | 1 January 1970 is day 0, a Thursday |
| Calendar.WeekdayIs | src/util/time.hpp:25-27 | weekdays are day numbers modulo 7, negative ones included |
| Calendar.WeekdaysCycle | src/util/time.hpp:25-27 | they follow one another |
| EasternTime.SpringIsSecondSunday | src/util/time.cpp:194-199 | daylight time starts exactly on the second Sunday of March |
| EasternTime.FallIsFirstSunday | src/util/time.cpp:195-200 | and ends exactly on the first Sunday of November |
| EasternTime.SameOffset | src/util/time.cpp:204-208 | the clocks never change between the two instants that may be midnight |
| EasternTime.LocalDay | src/util/time.cpp:210-215 | the local clock has reached a day exactly from its midnight on |
| EasternTime.DateOfInstant | src/util/time.cpp:210-215 | an instant has the date whose day it is in, iff it is not within the last second before a midnight up to the epoch |
| EasternTime.SlipsBefore | src/util/time.cpp:210-215 | a nanosecond before the midnight of a date before 1970 that date is there already |
| EasternTime.LastNanosecond | src/util/time.cpp:210-215 | for example at the end of 30 December 1969 |
| EasternTime.DatesAdvance | src/util/time.cpp:210-215 | dates never go back, although the clocks do |
| EasternTime.MidnightRoundTrip | src/util/time.cpp:204-223 | the midnight of any date has that date and minute 0, on change days too |
| EasternTime.ClockReads | src/util/time.cpp:217-223 | date and minute make up the local clock, whichever of the two it is at the moment |
| EasternTime.WallClock | src/util/time.cpp:188-223 | for every second of every year, date and minute are those of a clock 4 hours behind Greenwich from 07:00 UTC of the second Sunday of March to 06:00 UTC of the first Sunday of November, 5 hours otherwise |
| EasternTime.EveryYearChanges | src/util/time.cpp:194-200 | every year has these two Sundays |
| EasternTime.SpringForward | src/util/time.cpp:188-223 | in every year 01:59:59 of the second Sunday of March is followed by 03:00:00 |
| EasternTime.FallBack | src/util/time.cpp:188-223 | and 01:59:59 of the first Sunday of November by 01:00:00 |
| EasternTime.MidnightsOfYear | src/util/time.cpp:204-208 | a midnight comes 5 hours after that of Greenwich up to and including the spring date and after the fall date, 4 hours in between |
| EasternTime.SinceMidnight | src/util/time.cpp:204-223 | the minute is the time since midnight, off by the hour exactly when the clocks changed since |
| EngineRules.NothingMissed | src/engine/engine.cpp:228 | passing on only alerts and highs keeps nothing from the paper trader that it would act on |
| EngineRules.EvaluationTrades | src/engine/engine.cpp:535-580 | an evaluation looks at the watched stories if there are any, then the trader hears of their signals and steps every position at the prices the look left |
| EngineRules.NewsTrades | src/engine/engine.cpp:296-488 | the trader hears of the signals of a news item; an evaluation follows at once iff a story was stored |
| EngineRules.ShutdownCloses | src/engine/engine.cpp:292-294 | a shutdown leaves nothing open |
| EngineCore.MoversIgnored | src/engine/engine.cpp:228 | the paper trader never hears of mover signals |
| EngineCore.ScansKeepIdle | src/engine/engine.cpp:582-621 | a mover scan changes neither the trader nor whether the engine is idle |
| EngineCore.IdleRolls | src/engine/engine.cpp:535-580 | an evaluation of an idle engine only has the trader mind the date |
| EngineCore.IdleEvaluation | src/engine/engine.cpp:535-580 | on one date, or without a paper trader, it cannot be told from none |
| EngineCore.EvaluateSame | src/engine/engine.cpp:535-580 | engines that differ only in that stay so through an evaluation, losing nothing of the accounts |
| EngineCore.OnNewsSame | src/engine/engine.cpp:296-487 | and through a news item with its signals and its evaluation |
| EngineCore.ShutdownSame | src/engine/paper.hpp:108-121 | and close out the same positions with the same reports |
| PaperTrading.RunTrue | src/engine/paper.cpp:27-38 | the day of a trader is always that of its last look at the date, or still unset |
| EngineCore.OneDateHides | src/engine/paper.cpp:27-38 | on one date one look more is not told by any sequence of later looks |
| EngineCore.Diverge | src/engine/paper.cpp:27-38 | two traders that looked at different phases of a minute can be kept apart look by look until a midnight tells them |
| EngineCore.LookTells | src/engine/paper.cpp:27-38 | some sequence of looks up to a time tells one look more from none iff it was not remembered and the date changes by then |
| MidnightRuns.PartsFast | src/research/backtest.cpp:45-110 | a fresh engine buys, sells at a loss beyond the day's limit, has one idle tick left out, and buys again at midnight |
| MidnightRuns.PartsSlow | src/research/backtest.cpp:45-110 | the reference driver, with that tick, still remembers the day before and refuses |
| MidnightRuns.SkipTells | src/research/backtest.cpp:45-110 | so it is at every midnight |
| DayRules.LoopDone | src/research/backtest.cpp:47-78 | the loop leaves the engine as the calls it makes, one after the other, make it |
| DayRules.ReplayCalls | src/research/backtest.cpp:45-110 | calls come by time, at one time news before the evaluation before the scan; the reference driver evaluates at every point of the grid that starts with the first news or call, the driver at some of them; scans miss no second |
| DayRuns.SkipOne | src/research/backtest.cpp:54-59 | leaving out one tick of an idle engine changes nothing, with scans in between too |
| DayRuns.LoopSkips | src/research/backtest.cpp:47-78 | the loop with the skip ends where the loop without it does, with the same calls that had an effect |
| DayRuns.AdvanceRefines | src/research/backtest.cpp:45-79 | so does a call with the fast path; the engines cannot be told apart on its date |
| DayRuns.AdvanceSettles | src/research/backtest.cpp:45-79 | after any call everything due has been done, in time order, and the due time is the next thing to come |
| DayRuns.DaySettles | src/research/backtest.cpp:45-79 | the news handed over is exactly what arrived by the latest time, once and in order |
| DayRuns.DayAgrees | src/research/backtest.cpp:45-135 | whatever the scans, a whole run, finish included, is the reference driver's on the same tick grid, within one Eastern date if there is a paper trader |
| DayRuns.ReplayIsReference | src/research/backtest.cpp:45-135 | from a fresh engine to its shutdown: the same calls with an effect, the same engine, the same trades reported and closed out |
| DayRuns.DayRun.AdvanceTo | src/research/backtest.cpp:45-79 | the driver's loop is the specified one |
| DayRuns.DayRun.FinishAt | src/research/backtest.cpp:105-110 | the last call goes without the fast path |
| DayRuns.DayRun.MarketEvents | src/research/backtest.cpp:81-87 | market data reaches the engine between calls |
| DayRuns.DayRun.Replay | src/research/backtest.cpp:105-135 | the whole day is the specified one |
| Histograms.IndexMonotone | src/core/histogram.hpp:58-64 | larger values are in no lower bucket |
| Histograms.IndexInTable | src/core/histogram.hpp:58-64 | every 64-bit value has a bucket in the table |
| Histograms.UpperBoundIsLargest | src/core/histogram.hpp:65-70 | the upper bound is the largest value of its bucket, the next value starts the next bucket |
| Histograms.BucketIsNarrow | src/core/histogram.hpp:58-70 | it is at most a sixteenth above any value of the bucket |
| Histograms.RankBucket | src/core/histogram.hpp:33-37 | the bucket where the running count reaches a rank holds the value of that rank |
| Histograms.RankExists | src/core/histogram.hpp:30-39 | there is a value of every rank |
| Histograms.LatencyHistogram.Record | src/core/histogram.hpp:16-22 | table and totals are those of one more value |
| Histograms.RankFits | src/core/histogram.hpp:32 | a percentage up to 100 is the nearest rank that some value has |
| Histograms.LatencyHistogram.Percentile | src/core/histogram.hpp:30-39 | for any percentage between the order statistic of its rank and a sixteenth above it, never above the largest value |
| Histograms.LatencyHistogram.Merge | src/core/histogram.hpp:49-55 | merging, into itself too, is recording the other's values |
| Histograms.LatencyHistogram.Reset | src/core/histogram.hpp:41-47 | nothing recorded |
| JsonText.Utf8RoundTrip | src/util/text.cpp:10-26 | every code point comes back from its UTF-8 encoding, whose lead byte tells the length |
| JsonText.ScanIsLiteralEnd | src/util/json.cpp:42-55 | counting backslashes back from each quote finds the end a left-to-right reading gives, for every input |
| JsonText.EscapedEndsAtQuote | src/util/json.cpp:42-55 | an escaped string followed by a quote and anything ends at that quote |
| JsonText.StandardEscapes | src/util/json.cpp:201-206 | the two-character escapes stand for the characters RFC 8259 gives them, any other for itself |
| JsonText.UnreadableEscape | src/util/json.cpp:207-224 | `\u` without four digits gives a question mark and reading goes on behind it |
| JsonText.NoControls | src/util/text.cpp:254-276 | escaped text has no control characters |
| JsonText.EscapeRoundTrip | src/util/json.cpp:191-241 | unescaping what was escaped gives every byte string back |
| JsonText.CodePointRead | src/util/json.cpp:207-236 | every scalar value written as escapes, pairs included, is read as its UTF-8 encoding |
| JsonText.AppendEscaped | src/util/text.cpp:254-276 | the escaping loop |
| JsonText.FindStringEnd | src/util/json.cpp:42-55 | the scanning loop returns the grammar's answer |
| JsonText.UnescapeText | src/util/json.cpp:191-241 | the unescaping loop |
| WatchRules.LookRules | src/engine/engine.cpp:538-578 | a look leaves a story on the list iff it is no older than the window, with the higher of its tier and what the market says of it; slots not in use are left alone |
| WatchRules.LookSignals | src/engine/engine.cpp:112-118 | it signals exactly the rises of stories that stay, unless the ticker had that tier within the cooldown |
| WatchRules.StoryRules | src/engine/engine.cpp:453-481 | a story that is not eligible or not stronger than its ticker's changes nothing; any other is on the list with its score, the first of its ticker dated and watched, a stronger one with date and tier kept |
| WatchRules.NewsRules | src/engine/engine.cpp:296-488 | if any story of a news item counted the whole list is looked at at once, otherwise nothing has changed |
| Watchlists.DeactivateConsistent | src/engine/engine.cpp:144-152 | giving a slot back keeps the lists a partition of the table and the index exact |
| Watchlists.ActivateConsistent | src/engine/engine.cpp:133-141 | so does taking one |
| Watchlists.Admit | src/engine/engine.cpp:125-142 | so does putting a new story on the list |
| Watchlists.Room | src/engine/engine.cpp:126-132 | a full table gives up its oldest story and no other |
| Watchlists.AdmitDrops | src/engine/engine.cpp:125-142 | the list gains the ticker and, when the table was full, loses that of the first of the oldest stories; no other |
| Watchlists.OneOldest | src/engine/engine.cpp:128-131 | which is one story only |
| Watchlists.VisitKeeps | src/engine/engine.cpp:538-578 | looking at one story leaves the stories still to be seen in place, in spite of the swap |
| Watchlists.VisitLogs | src/engine/engine.cpp:574-577 | and emits what that story's own rules say |
| Watchlists.TiersRise | src/engine/engine.cpp:559-577 | no tier falls in an evaluation |
| Watchlists.LookedMeans | src/engine/engine.cpp:538-578 | an evaluation has looked at every story once as it stood, and emitted what their own rules say |
| Watchlists.AdmitKeeps | src/engine/engine.cpp:125-142 | a story that stays when another is put on the list keeps its slot and its content |
| Watchlists.VisitRises | src/engine/engine.cpp:538-578 | a look signals a story only when its tier rises, and leaves the others alone |
| Watchlists.StoryRises | src/engine/engine.cpp:453-481 | a stored story, of any ticker, lowers no score and no tier of the stories that stay |
| Watchlists.RunRises | src/engine/engine.cpp:453-578 | over any run that a story stays on the list its time is kept, its score and tier never fall, and each of its signals is of a higher tier than the one before |
| Watchlists.RunAppends | src/engine/engine.cpp:453-578 | no signal is ever taken back |
| Watchlists.EmitSpaced | src/engine/engine.cpp:112-118 | an emission after its cooldown keeps all of one tier and ticker apart |
| Watchlists.RunSpaced | src/engine/engine.cpp:453-578 | over any run with a clock that does not go back, signals of one tier and ticker are a cooldown apart |
| Watchlists.Watchlist.Oldest | src/engine/engine.cpp:128-131 | the loop finds the first of the oldest stories |
| Watchlists.Watchlist.ActivateFor | src/engine/engine.cpp:125-142 | the list with the new story |
| Watchlists.Watchlist.CooledDown | src/engine/engine.cpp:112-118 | true, with the time noted, unless within the cooldown |
| Watchlists.Watchlist.Evaluate | src/engine/engine.cpp:535-578 | the loop from the back: every active story is looked at once, expired ones leave, the others rise by their own rules |
| Watchlists.Watchlist.OnStory | src/engine/engine.cpp:453-481 | a story is stored iff its ticker has none at least as strong; what that does to table and signals |
| Watchlists.Watchlist.OnNews | src/engine/engine.cpp:453-487 | the stories one after the other, then an evaluation iff one was stored |
| Watchlists.Watchlist.Run | src/engine/engine.cpp:453-578 | any run ends in the fold of its events; signals are only added, and a cooldown apart if they were and the clock does not go back |
| PaperRules.EntryRules | src/engine/paper.cpp:74-111 | an order in the market is filled iff the stock trades, its ask, or without a quote its last price, has not run away, and one share is affordable; at that price and slippage, in whole shares for no more than the position; otherwise it is dropped or waits |
| PaperRules.ExitRules | src/engine/paper.cpp:113-132 | a held position is sold, at the bid or without a quote at the last price less slippage, iff the stock trades and an exit rule applies, for the first of stop, target, trail, holding time and end of day |
| PaperRules.NoBetterThanTouch | src/engine/paper.hpp:32-36 | with slippage against it the trader never pays less than the ask nor gets more than the bid |
| PaperRules.SignalRules | src/engine/paper.cpp:40-72 | a signal of a traded tier meets exactly one of four fates: its ticker is held, the day's loss is at the limit, no slot is free, or it is an order in the first free slot, in the market after the latency |
| PaperRules.DayRules | src/engine/paper.cpp:27-38 | the day is that of a look less than a minute old; a new day starts a new account, the same day goes on with the old one |
| PaperRules.DropsCounted | src/engine/paper.cpp:74-94 | dropped orders are counted by their reason |
| PaperRules.CloseRules | src/engine/paper.hpp:108-121 | at the shutdown a held position is sold at the bid or last price, halted or not, an order dropped |
| PaperRules.ReportsReliable | src/engine/paper.cpp:40-158 | every trade a run and its shutdown report: opened no earlier than signal and latency, no further above the signal than allowed, in whole shares within the position; every close closes an opening before it, both commissions off its proceeds |
| PaperTrading.TryFill | src/engine/paper.cpp:74-111 | a filled order has a positive price and at least one share |
| PaperTrading.BookBalances | src/engine/paper.cpp:144-155 | closing a trade keeps wins, losses, realized, peak and drawdown those of the equity curve |
| PaperTrading.DrawdownAppends | src/engine/paper.cpp:154-155 | the running maximum is the greatest fall from any point of the curve to a later one |
| PaperTrading.EquityEnds | src/engine/paper.cpp:144-153 | the equity curve of the reported trades ends at the sum of the profits of the closed ones |
| PaperTrading.OpenedSound | src/engine/paper.cpp:74-111 | filling and reporting an order keeps positions, accounts and reported trades in agreement |
| PaperTrading.SoldSound | src/engine/paper.cpp:134-158 | so does closing and reporting a position, peak and drawdown being those of the longer curve |
| PaperTrading.OrderSound | src/engine/paper.cpp:63-71 | and ordering into a free slot for a ticker not held |
| PaperTrading.StepsApart | src/engine/paper.hpp:88-105 | in a step each position does what it would do alone, and the sink is told of each in turn |
| PaperTrading.StepsNothing | src/engine/paper.hpp:88-105 | with nothing held or pending a step does nothing |
| PaperTrading.CloseFromSound | src/engine/paper.hpp:108-121 | after shutdown nothing is open, what was bought is sold, and the accounts agree |
| PaperTrading.RunAccounts | src/engine/paper.cpp:40-158 | after any run from a fresh trader: one position per ticker within capacity, bought minus sold is what is open, realized is the profits of the reported trades, peak and drawdown those of their equity curve |
| PaperTrading.PaperTrader.OnSignal | src/engine/paper.cpp:40-72 | an order in the first free slot, unless the ticker is held, the day's loss limit is reached or all slots are taken, the first reason counted |
| PaperTrading.PaperTrader.RollDay | src/engine/paper.cpp:27-38 | a new Eastern date, looked up at most once a minute, starts the day's account afresh |
| PaperTrading.PaperTrader.StepOne | src/engine/paper.hpp:90-105 | a position enters, waits, is dropped or leaves by its own rules |
| PaperTrading.PaperTrader.Finish | src/engine/paper.cpp:134-158 | the trade is booked and reported, the slot freed |
| PaperTrading.PaperTrader.Step | src/engine/paper.hpp:87-106 | the loop is the step of every position in turn |
| PaperTrading.PaperTrader.CloseAll | src/engine/paper.hpp:108-121 | the loop closes out every position in turn; accounts and reports are those of the specification |
| PaperTrading.PaperTrader.Run | src/engine/paper.cpp:40-158 | any run and its shutdown end in the fold of the events, whose accounts agree |

## Left out

- Scoring.Scorer.Load: does not model that a refused rule set leaves truncated tables behind; it keeps the previous ones.
- FlatHash.FlatMap64.Run: the hash and the load factor are arbitrary functions; the all-ones key is reserved. The quotient in `reserve` is exact, not a double.
- MpscQueues.Delivery: sequentially consistent steps; memory orders and the wrap-around of 64-bit positions are not modelled.
- ItchBooks.ItchBook.Run: the order map is a mathematical map (the hash map is verified by itself); time stamps, statistics, system and cross messages, and what a trading action says of its symbol, are not modelled.
- MoldUdp64.MoldReceiver.Run: messages are byte blocks and whether one can be decoded is a function of it; the recorder, sockets and the clock for packets without a time are not modelled; sequence numbers do not wrap; statistics that decide nothing are stated per step only.
- HttpResponse.ResponseParser.Advance: the header fields are one record; the receive buffer is a value that only grows.
- EasternTime.DateOfInstant: years are not narrowed to 32 bits nor times to 64.
- DayRuns.AdvanceSettles: of the engine the story slots and the paper trader are modelled, the rest is behind functions that do not look at the trader; journals, queues and counters of the run are not modelled, and tick times do not wrap at 64 bits.
- Histograms.LatencyHistogram.Percentile: the rank is computed in exact reals, not doubles.
- Watchlists.Watchlist.Evaluate: market conditions are a function of the story and the time; price extremes, outcome records, journals, the paper step and halt, mover and filing notices are not modelled here.
- Watchlists.Watchlist.OnNews: starts from the scored stories of a news item; scoring, penalties and the journal are not modelled.
- PaperTrading.PaperTrader.Run: asks for a slippage that leaves prices positive, above -10000 basis points; percentages of a closed trade and log lines are not modelled.
- Scoring of a text beyond its hits (weights, amounts, penalties) and parsing of rule files: heuristics without a specification beyond the code.
- The minute-bar ring of the market board: sums over a short array, easier than what is here.
- Request building, inflating, connections, feeds, HTML, company names, settings and reports: I/O, foreign calls or plumbing.
