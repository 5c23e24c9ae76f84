# Rootmode, modelled and proved

Rootmode is a peer-to-peer inference network. A worker sells GPU time against prepaid, cumulative,
signed tickets and redeems the newest one on a contract. This project models the parts of it whose
correctness spans functions, jobs, workers and the chain, and proves what they are for.

| file | what it models |
|---|---|
| `Pricing.dfy` | the price table, the token counts, the bill, and the budget a bond buys |
| `Ledger.dfy` | the worker's ledger, its file, and the crash-safe write |
| `Bonds.dfy` | one job's prepaid bond: taken, admitted against the lock, topped up, captured |
| `Fleet.dfy` | N workers on one payout address, the chain, racing settles, lagging reads, crashes |
| `JobStream.dfy` | the messages of one submission and the forwarder that meters them |
| `Draws.dfy`, `Routing.dfy`, `Fallbacks.dfy`, `Sorting.dfy` | who gets a job, how ties are broken, who is next |
| `Bytes.dfy`, `Rlp.dfy`, `Abi.dfy`, `Eip712.dfy` | the byte encodings that reach the chain |
| `Framing.dfy` | one message a line over a byte stream |
| `Node.dfy` | the libp2p event loop's own bookkeeping |
| `Text.dfy`, `CodexConfig.dfy`, `ShellBlock.dfy` | the edits made in users' own files |
| `U64.dfy` | saturating 64-bit arithmetic, `Option`, `Result` |

How the model takes the source's form. The ledger, the worker's bonds, the stream and the event loop
are classes with the source's fields; their methods are proved against functions and step relations
of values (`BookStep`, `QueryStep`, `Hear`, `SlotStep`, ...), and the promises over whole runs are
lemmas about those. Money is counted exactly: every rate the source multiplies by has been rounded up
to a whole cent, so a rate is a natural number of cents per million tokens and a charge is
tokens * cents / 100 micros, with the source's own rounding written out. 64-bit saturation is
explicit. Everything a worker cannot see (the chain's answers, the file system, other jobs, the
signature scheme, the random draws, how bytes arrive) is a parameter or a nondeterministic step.

The rules of the chain are the ones the comments at crates/rootmode-worker/src/chain.rs:14-28,
101-107, 128-134 and contracts/README.md:9-16, 30-31 give: `reserved` and `earned` of a pair, `earned`
only rising and never past `reserved`, a settle mined only when it raises `earned`.

Where the code does not do what one would expect of it, the model keeps the code, and proves when it
does, with an input that shows where it does not:

* A ledger entry can be credited more than it rose by, exactly when adding the credit to what was
  authorised passes the top of a `u64` (`Ledger.CreditWithinRise`, `Ledger.SaturationOvercredits`).
* An entry stays with the client that opened it, and the earlier kind of authorisation may open any
  entry: after that no ticket of the pair's own client can be banked (`Ledger.OwnerStays`,
  `Ledger.StrangerTakesTheEntry`). What is promised of a silent client asks that this had not happened
  when its bond was taken.
* Credits are conserved per entry, and a wallet spelled with and without `0x` has two
  (`Ledger.EntriesFollowTheSpelling`, `Ledger.TwoSpellingsAreCreditedTwice`). What an entry writes off is
  within what the chain recognised for its pair; what two entries write off together is, in every run,
  exactly when the contract does not file both under one channel: else the second settle finds the money
  of the first and is taken for done (`Fleet.TwoEntriesStayWithinTheChainExactly`).
* A slice paid for in mid-stream need not name the job's own parties, and is not measured against the
  lock. The last bond is banked exactly when its ticket is for this job and its parties; the lock holds
  it as long as no slice was granted (`Bonds.Worker.ServeJob`, `Bonds.GrantMayNameStrangers`,
  `Bonds.GrantMayPassTheLock`).
* A settle put off stays under the channel's cap after one more bill exactly when that bill fits beside
  the most that can be put off; half the cap always does (`Bonds.DeferringIsSafe`).
* Unpaid tokens are forwarded by the last drain, which sends exactly what was queued when the channels
  closed: what is delivered was paid for exactly when that queue was (`JobStream.DeliveredIsPaidExactly`,
  `JobStream.DrainForwardsUnpaidTokens`).
* A job that has not ended can take no step at all exactly when its run is over while its forwarder asks
  for budget, and a run gets there (`JobStream.StuckExactly`, `JobStream.AJobCanHang`).
* Rounding up to cents lowers a raw price exactly when it is less than a millionth of a cent above a
  whole cent (`Pricing.CeilCentsBounds`); no rate that is billed is ever lowered.
* A prepaid chunk covers every mix of tokens exactly when the cache rate, which the dearest rate
  leaves out, is not above it (`Pricing.ChunkCoversEveryMix`). Counting cached tokens as fresh leaves
  room for the bill, whatever is cached, exactly when the cache rate is not above the fresh one
  (`Pricing.ClampCoversEveryCacheShare`).
* A retry is said never to cost more, and a fallback is picked by its dearest rate but for the cache rate.
  Its bill for up to a million tokens is within a million at the first choice's price exactly when its
  cache rate is (`Fallbacks.FallbackBillIsBounded`). The same tokens cost no more by one table than by
  another exactly when none of its rates is above the other's (`Pricing.NeverDearerExactly`), and no
  fallback within its own dearest rate costs more exactly when the first choice asks the one price it was
  ranked by for everything (`Fallbacks.NoRetryCostsMoreExactly`, `Fallbacks.SameTokensMayCostMore`,
  `Fallbacks.CacheIsNotRanked`).
* A bill is never short of the backend's floor exactly when the table is not free, and never short of the
  provider's own counts exactly when a free table has no cache rate, which freeness does not look at
  (`Pricing.NeverShortExactly`, `Pricing.CacheIsGivenAway`).
* A row's `unpriced`, said to mean that nobody named a price, is the flag of the offer that was drawn. It
  means that, whatever is drawn, exactly when nobody did or no offer at the least price is without one
  (`Routing.UnpricedMeansNobodyPricedExactly`, `Routing.OnePricedAndStillUnpriced`).
* A job is handed to another provider after an answer was stored exactly when the provider then sends a
  failure or an empty answer with nothing said and nothing of the kind sent before
  (`Fallbacks.HandedOnWithAnAnswerExactly`); one that keeps the worker's own grammar never does.
* The EIP-155 `v` names its chain exactly for the chain ids that leave 36 free below the top of a `u64`
  when doubled; beyond, its last addition can overflow (`Rlp.VNamesTheChain`, `Rlp.VOverflowsExactly`).
* A message going out drops the read that waits, and nothing else does. What a connection hears is the newline split of its
  stream exactly when no dropped read had taken part of a line (`Framing.JsonStream.Serve`,
  `Framing.TornExactly`, `Framing.ALineIsTorn`).
* Connecting Codex twice differs from once exactly when a second table of its own is left in the file
  that is not a copy of the one written (`CodexConfig.ConnectTwice`, `CodexConfig.TwoTablesAreNotEnough`).
* A setting written without a space before the equals sign is not recognised, so a connect can leave two
  of one key; what is left by a connect and by a disconnect is counted (`CodexConfig.SettingsAfterConnect`,
  `CodexConfig.TwoSettingsOfOneKey`, `CodexConfig.GoneAfterDisconnect`).
* Writing the guarded block twice differs from once exactly when a stray begin mark is in the text
  that is kept; if no end mark follows it, the second write deletes the text after it
  (`ShellBlock.ReplaceIsIdempotent`, `ShellBlock.StrayMarkLosesText`).
* The set of announced keys is the last one provided exactly when the store refused none that was new
  (`Node.AnnouncedIsTheLastSet`).

The RLP encoder stands twice in the repository, at crates/rootmode-worker/src/chain.rs:236-334 and
apps/desktop/src-tauri/src/eth_tx.rs:90-188. The two are the same line for line but for the error type
of a failed signature, so one model is both.

## Model

| member | source | states |
|---|---|---|
| Pricing.CeilCentsBounds | crates/rootmode-core/src/protocol.rs:388-407 | a rounded rate is never a cent above the price nor a millionth of a cent below it, and is below it at all iff the price is that little above a whole cent |
| Pricing.CeilCentsOfCents | crates/rootmode-core/src/protocol.rs:396-407 | a whole number of cents is left as it is |
| Pricing.RoundProtocolIdempotent | crates/rootmode-core/src/protocol.rs:418-429 | rounding a price table twice is rounding it once |
| Pricing.RoundProtocolLowersNoBilledRate | crates/rootmode-core/src/protocol.rs:418-445 | no billed rate falls by rounding, and the two tables bill alike iff no omitted component is below the dearest rate |
| Pricing.RatesFillIn | crates/rootmode-core/src/protocol.rs:437-445 | a flat price fills in for missing rates, the prompt rate for missing cache rates, and writing the cache is never cheaper than reading the prompt |
| Pricing.EachTokenOnce | crates/rootmode-core/src/protocol.rs:447-460 | each token is charged once, at its own rate, and no more tokens are taken for cached than the prompt has |
| Pricing.NearestIsNear | crates/rootmode-core/src/protocol.rs:452-460 | a charge is the nearest micro, at most half a micro off, half a micro rounded up |
| Pricing.MillionCosts | crates/rootmode-core/src/protocol.rs:469-471 | a million tokens at c cents are ten thousand micros a cent, one where they are free, and the top of a u64 beyond |
| Pricing.ChargeMonotone | crates/rootmode-core/src/protocol.rs:452-460 | no count that grows, the others kept, makes a bill smaller |
| Pricing.AuthorizedMonotone | crates/rootmode-core/src/protocol.rs:485-494 | a bigger budget never authorises fewer tokens |
| Pricing.BudgetNeverOversells | crates/rootmode-core/src/protocol.rs:472-494 | any answer within the authorised tokens costs at most the budget, or the prompt where the prompt alone is over it |
| Pricing.BudgetIsTight | crates/rootmode-core/src/protocol.rs:472-494 | one more completion token than authorised costs at least the budget |
| Pricing.FreeAnswersAreNotMetered | crates/rootmode-core/src/protocol.rs:485-494 | where answers have no rate any budget authorises any count, and none of it costs anything |
| Pricing.NeverDearerExactly | crates/rootmode-core/src/protocol.rs:452-460 | the same tokens never cost more by one table than by another iff none of its three rates is above the other's |
| Pricing.PriceCoversEveryMix | crates/rootmode-core/src/protocol.rs:452-471 | a million tokens at a price no rate but the cache rate is above cover every mix of a million iff the cache rate is not above it either |
| Pricing.ChunkCoversEveryMix | crates/rootmode-core/src/protocol.rs:463-471 | a prepaid chunk covers every mix of a million tokens iff the cache rate is not the dearest |
| Pricing.CeilingIsTheMost | crates/rootmode-worker/src/server.rs:351-391 | a job is turned away iff its prompt alone spends the bond; its ceiling is what it asked for or the most the bond still holds, never less than one token asked for |
| Pricing.ClampKeepsTheBond | crates/rootmode-worker/src/server.rs:351-391 | a job held to its ceiling costs at most its bond when no cached token is dearer than a fresh one; with no room for a token it is exceeded by less than one token's price |
| Pricing.ClampCoversEveryCacheShare | crates/rootmode-worker/src/server.rs:351-391 | ... whatever is cached, iff the cache rate is not above the fresh one |
| Pricing.DearCacheOverruns | crates/rootmode-worker/src/server.rs:351-391 | above it, a fully cached prompt overruns a bond that covers it as fresh and one token more |
| Pricing.BillIsNeverShort | crates/rootmode-worker/src/server.rs:430-462 | the bill of a table that is not free is at least what the provider's own counts cost, at least what the local counts cost with the same cache credit, and at least the backend's floor |
| Pricing.NeverShortExactly | crates/rootmode-worker/src/server.rs:430-462 | that holds of every bill without a floor iff the table is not free or has no cache rate either, and of every bill with one iff it is not free |
| Pricing.CacheIsGivenAway | crates/rootmode-core/src/protocol.rs:431-460 | a table with only a cache rate bills nothing for cached tokens that cost something by it |
| Pricing.FreeTablesHaveNoRates | crates/rootmode-core/src/protocol.rs:431-435 | a free table charges nothing for what is not cached; a rounded one is free iff it has neither a price nor a billed rate |
| Pricing.CountsAreKept | crates/rootmode-core/src/tokens.rs:63-98 | a claim keeps its totals, with its subsets held inside them; merged counts are the greater of each, with the claimed cache credit |
| Pricing.ReconcileRaisesTheirs | crates/rootmode-core/src/tokens.rs:86-98 | merged counts never cost less than the provider's clamped claim |
| Pricing.ReconcileRaisesOurs | crates/rootmode-core/src/tokens.rs:86-98 | merged counts never cost less than the local ones with the claimed cache credit |
| Ledger.Channels.Load | crates/rootmode-worker/src/channels.rs:80-128 | the ledger is the entries of the file recorded under this contract, or under none and not past their deadline, and the file is rewritten only when some were left behind |
| Ledger.Channels.Write | crates/rootmode-worker/src/channels.rs:320-331 | the temporary file gets all of the ledger before it replaces the main one; a failed write leaves the main file alone |
| Ledger.Channels.Accept | crates/rootmode-worker/src/channels.rs:139-180 | accepts iff signed by the client, strictly rising and not another client's entry; then that one entry is this client's, raised, with what it had settled and banked kept; otherwise nothing changes; never refuses for the reserve |
| Ledger.Channels.AcceptSpend | crates/rootmode-worker/src/channels.rs:187-267 | banks iff the ticket is unexpired, its recovered signer is the registered key, its entry is not another client's, and it rises and covers the job or has reached the top of a u64; the ledger moves by exactly that ticket and the entry is its client's |
| Ledger.Channels.Settled | crates/rootmode-worker/src/channels.rs:312-318 | only that channel's settled amount rises, and the ledger stays sound when the amount was authorised |
| Ledger.BookStepKeepsOk | crates/rootmode-worker/src/channels.rs:139-267 | every move keeps settled <= authorised <= reserved and the newest ticket within what is authorised |
| Ledger.CreditWithinRise | crates/rootmode-worker/src/channels.rs:209-224 | a move credits no more than it raised iff the saturating add did not saturate |
| Ledger.SaturationOvercredits | crates/rootmode-worker/src/channels.rs:215 | a ledger one below the top of a u64 credits ten for a rise of one |
| Ledger.CreditsAreConserved | crates/rootmode-worker/src/channels.rs:139-267 | over any interleaving of moves on any entries, an entry's credits sum to at most its total rise |
| Ledger.OwnerStays | crates/rootmode-worker/src/channels.rs:160-206 | over any run an entry stays with the client that opened it, and no other client's ticket can be banked on it |
| Ledger.StrangerTakesTheEntry | crates/rootmode-worker/src/channels.rs:139-206 | whoever opens a pair's entry first by an authorisation shuts the pair's own client out |
| Ledger.EntriesFollowTheSpelling | crates/rootmode-core/src/payments.rs:74-80 | two pairs share an entry iff both parties are spelled alike, letter case aside |
| Ledger.TwoSpellingsAreCreditedTwice | crates/rootmode-core/src/payments.rs:74-80 | one wallet spelled two ways is credited in two entries for one amount |
| Ledger.SameNameExactly | crates/rootmode-worker/src/channels.rs:160-206 | two names are one iff they differ in letter case at most |
| Ledger.IdNamesInOrder | crates/rootmode-core/src/payments.rs:74-80 | an entry's key is made of the client, the payout and the contract, in this order |
| Ledger.LoadUndoesWrite | crates/rootmode-worker/src/channels.rs:80-128 | loading what was written gives back the ledger less the entries of other contracts, all of it when every entry is this contract's |
| Ledger.CollectHolds | crates/rootmode-worker/src/channels.rs:92-114 | an entry is loaded iff it was written and may be kept, unchanged |
| Ledger.CrashLeavesAWholeLedger | crates/rootmode-worker/src/channels.rs:320-331 | stopping a write at any step leaves either the ledger before it or the new one, whole |
| Ledger.WriteFollowsTheSteps | crates/rootmode-worker/src/channels.rs:320-331 | what one write leaves is what its steps leave, cut where the file system failed |
| Bonds.Worker.TakeBond | crates/rootmode-worker/src/server.rs:298-347 | a bond is held iff it is for this job, recoverable, names both parties and rises over what is banked; its delta is exactly the rise |
| Bonds.EnoughLockExactly | crates/rootmode-worker/src/server.rs:519-526 | what is left of a lock is enough iff some of it is unearned and it holds what the first answer had not recognised; on one answer, iff all of the ticket is locked and some of the lock unearned |
| Bonds.LockIsGoodExactly | crates/rootmode-worker/src/server.rs:596-640 | the source's tests of a lock come to that, a cap the one bill fits under, and a registered key that signed the ticket |
| Bonds.ZeroAddressExactly | crates/rootmode-worker/src/chain.rs:31-34 | an address is the zero address iff it is zeros after any number of marks |
| Bonds.Worker.EnsureLock | crates/rootmode-worker/src/server.rs:486-653 | without a raise a priced job is admitted iff the first answer locks all of its ticket, leaves some of the lock unearned and is open to the job; with one for its pair, whenever every answer is; its bond is then within the last-read lock, cut to the rise over what the chain has recognised, whatever other jobs do meanwhile; a raise is posted only if the payer signed it for this pair above a lock that was read |
| Bonds.AdmittedBondIsTheRise | crates/rootmode-worker/src/server.rs:641-652 | the bond a job is let in with claims nothing the ledger or the chain already counts, and leaves out nothing that neither does |
| Bonds.Worker.WaitForLock | crates/rootmode-worker/src/server.rs:549-563 | at most eight more reads, ending early only with enough lock |
| Bonds.Worker.SettleRaise | crates/rootmode-worker/src/server.rs:536-595 | a raise is waited for or posted once, and only this pair's own |
| Bonds.GoodLockHoldsTheBond | crates/rootmode-worker/src/server.rs:505-653 | a lock measured against the first answer holds the bond on the last, however many reads and settles lie between |
| Bonds.Worker.RequestTopUp | crates/rootmode-worker/src/server.rs:1237-1318 | a slice is granted iff its unexpired ticket is signed by the bond's key and rises over what is banked by more than the bond held; the bond is then that ticket and that rise |
| Bonds.GrantRaises | crates/rootmode-worker/src/server.rs:1293-1318 | a granted slice is a strictly bigger bond that covers its delta |
| Bonds.GrantMayNameStrangers | crates/rootmode-worker/src/server.rs:1279-1318 | a slice may name other parties than the job's, and then neither it nor the bond it replaced can be banked |
| Bonds.GrantMayPassTheLock | crates/rootmode-worker/src/server.rs:1279-1318 | a slice may raise the bond past the lock the job was let in on |
| Bonds.Worker.TopUps | crates/rootmode-worker/src/server.rs:1174-1189 | each answer is a grant iff its ticket is good against the bond then held and the ledger it was looked at against, and the bond at the end is the one all grants in turn leave; every such ledger is an earlier one raised |
| Bonds.HeldBondIsGood | crates/rootmode-worker/src/server.rs:1237-1318 | after any answers the bond in hand is never smaller, under the same key, covers its delta over the ledger of the last grant, and is the first one when nothing was granted |
| Bonds.SettledOnSilence | crates/rootmode-worker/src/server.rs:1237-1426 | while its pair is not raised, the last bond is still all above what is banked and its ticket still good when it is captured |
| Bonds.Worker.BankPay | crates/rootmode-worker/src/server.rs:1533-1562 | a ticket is banked iff it is this job's, names the parties, is unexpired and signed by the bond's key, and the ledger takes it |
| Bonds.Worker.CaptureChunk | crates/rootmode-worker/src/server.rs:1323-1426 | at most one ticket a job, for the invoice or the whole bond, 1 <= invoice <= delta; a silent client's bond, not outrun and on an entry no other client had opened when capture began, is banked iff it is still good and names this job and its parties |
| Bonds.Worker.Admit | crates/rootmode-worker/src/server.rs:1000-1040 | a job let in holds exactly what its ticket adds to both the ledger and the chain, named for it and its parties, signed by the chain's key and within the lock; without a raise it is let in iff the ticket is taken and the first answer locks enough and is open to it; one refused leaves no bond |
| Bonds.Worker.ServeSilentClient | crates/rootmode-worker/src/server.rs:298-653 | from submission to capture without a slice: let in as `Admit` says, a job is paid within its lock though its client never speaks again, unless another job raises the pair, the entry was another client's before, or the ticket runs out; the job's one effect on the ledger other jobs left is to bank its ticket, or none |
| Bonds.Worker.ServeJob | crates/rootmode-worker/src/server.rs:970-1426 | from submission through any slices to a silent capture: which answers are grants, which bond is left, and that it is banked iff its ticket is for this job and its parties, unless its pair was raised; the ledger left behind is the one other jobs left moved by that ticket, or itself; within the lock as long as no slice was granted |
| Bonds.OtherJobsRise | crates/rootmode-worker/src/channels.rs:139-267 | whatever other jobs do to the ledger meanwhile lowers no authorisation and takes over no entry |
| Bonds.UnraisedBondIsBankable | crates/rootmode-worker/src/server.rs:1395-1426 | a bond stays bankable while nobody else raises its pair, on an entry that was not another client's |
| Bonds.DeferringIsSafe | crates/rootmode-worker/src/server.rs:1477-1495 | a settle that is put off is clear of its deadline, and a further bill keeps every such claim under the cap iff it fits beside the most that can be put off; half the cap always does |
| Bonds.SettlesOnlyNews | crates/rootmode-worker/src/server.rs:1477-1495 | a ticket is settled for its deadline, for an unread chain or for enough that the chain has not recognised, never for nothing |
| Fleet.StepKeepsSystemOk | crates/rootmode-worker/src/server.rs:1497-1531 | every event of every worker and of the chain keeps the whole system's invariant |
| Fleet.StepIsLocal | crates/rootmode-worker/src/chain.rs:135-156 | an event changes one worker at most, and the chain's earned amounts never fall |
| Fleet.ChainMovesForward | crates/rootmode-worker/src/chain.rs:101-156 | a raise locks more, a close unlocks what is not earned, a settle earns strictly more within the lock, and nothing else moves a channel |
| Fleet.SettlementsTakeTheirCourse | crates/rootmode-worker/src/server.rs:1497-1531 | a settlement under way keeps its ticket until it is recorded, given up or lost in a crash; one known to be recognised is not given up |
| Fleet.RisingPotKeepsNode | crates/rootmode-worker/src/server.rs:1497-1531 | settles by others never break a worker's ledger |
| Fleet.MoveKeepsNode | crates/rootmode-worker/src/server.rs:1497-1531 | a ledger move keeps every settlement under way covered |
| Fleet.NoWorkerWritesOffUnpaidMoney | crates/rootmode-worker/src/server.rs:1497-1531 | in every run what each entry of each worker has settled is at most what the chain earned for its pair, whatever races, lags or crashes |
| Fleet.TwoEntriesStayWithinTheChainExactly | crates/rootmode-worker/src/server.rs:1497-1531 | in every run two entries together have settled at most what their channels earned iff the contract files them under two; under one, a run settles the same money in both |
| Fleet.AnswersNeverFall | crates/rootmode-worker/src/chain.rs:36-82 | what a worker assumes of the chain's successive answers holds of any answers taken in any run |
| Fleet.RestartKeepsNode | crates/rootmode-worker/src/channels.rs:80-128 | a restart at any moment keeps the invariant |
| Fleet.RestartBringsBackALedger | crates/rootmode-worker/src/channels.rs:80-128 | whatever run came before, what is loaded is a ledger once held, whole when all its entries are this contract's |
| JobStream.StepKeepsShape | crates/rootmode-worker/src/server.rs:970-1233 | every step of the runner and of the forwarder keeps the messages sent in the shape of their phase |
| JobStream.MessagesFollowTheGrammar | crates/rootmode-worker/src/server.rs:970-1233 | under every schedule the messages are a prefix of the grammar, and a whole sentence once the runner ended |
| JobStream.GrammarIsSafe | crates/rootmode-worker/src/server.rs:1180-1233 | nothing follows a terminal status, nothing is delivered beside a failure, one result at most, an invoice only after it |
| JobStream.EndsAsItWent | crates/rootmode-worker/src/server.rs:1000-1233 | in every run that is over a result is delivered, and the job done, iff its run finished; it failed iff it was refused, stopped, shut down or broke |
| JobStream.InvoicedExactly | crates/rootmode-worker/src/server.rs:1197-1225 | an invoice is sent iff the run that finished came to something, is prepaid, and held a bond |
| JobStream.StreamIsTheAnswer | crates/rootmode-worker/src/server.rs:1086-1152 | under every schedule the pieces sent are, in order and once each, the beginning of what the backend emitted, and all of it unless a slice was refused |
| JobStream.ProgressIsToldOnce | crates/rootmode-worker/src/server.rs:1086-1152 | running is said once at the start and once for each fraction reported, unless a slice was refused; the client is asked as often as the runner asks |
| JobStream.StepKeepsMetered | crates/rootmode-worker/src/server.rs:1116-1145 | what was forwarded stays within what the bond of the moment authorises, which never falls |
| JobStream.RunsStayMetered | crates/rootmode-worker/src/server.rs:1116-1145 | ... in every run |
| JobStream.ToldIsCounted | crates/rootmode-worker/src/server.rs:1086-1152 | the tokens of the pieces sent are those metered and those drained |
| JobStream.AsksExactly | crates/rootmode-worker/src/server.rs:1116-1136 | a piece waits for the client iff the tokens up to and with it are past what the bond buys |
| JobStream.EveryQuestionIsAnswered | crates/rootmode-worker/src/server.rs:1126-1177 | the client is asked for one slice at a time, and each question has one answer, a slice or none |
| JobStream.FreeJobsNeverWait | crates/rootmode-worker/src/server.rs:1075-1085 | a job that is not prepaid never waits for its client, and a prepaid one without a bond is forwarded nothing |
| JobStream.ForwardedTokensArePaid | crates/rootmode-worker/src/server.rs:1116-1145 | at any moment of any run, the tokens the metered loop sent cost at most the bond held then |
| JobStream.GrantRaisesTheBond | crates/rootmode-worker/src/server.rs:1293-1318 | a step that grants a slice, by the worker's own check of the ticket, raises the bond strictly |
| JobStream.GrantsRunOut | crates/rootmode-worker/src/server.rs:1126-1136 | so a run grants fewer than 2^64 slices: asking ends |
| JobStream.DrainSendsTheQueue | crates/rootmode-worker/src/server.rs:1146-1151 | the last drain sends, unmetered, exactly what was queued when the channels closed |
| JobStream.DrainIsOneSided | crates/rootmode-worker/src/server.rs:1104-1152 | the last drain sends what was left of one queue, pieces or fractions; the loop has emptied the other |
| JobStream.DeliveredIsPaidExactly | crates/rootmode-worker/src/server.rs:1116-1177 | what a finished forwarder has delivered is within a budget iff what it had forwarded and what was queued at the closing are |
| JobStream.DrainForwardsUnpaidTokens | crates/rootmode-worker/src/server.rs:1146-1177 | a run delivers fifty micros' worth on a bond of ten |
| JobStream.StuckExactly | crates/rootmode-worker/src/server.rs:1126-1197 | a job not ended can take no step iff its run is over while the forwarder asks for budget |
| JobStream.AJobCanHang | crates/rootmode-worker/src/server.rs:1126-1197 | a run reaches such a state |
| Draws.TiesAreUniform | apps/desktop/src-tauri/src/routing.rs:42-94 | each of the k providers tied at the least price is chosen by exactly one in k of the draw sequences, wherever other offers fall |
| Draws.EveryTieIsChosen | apps/desktop/src-tauri/src/routing.rs:42-94 | every offer tied at the least price is the choice of some sequence of draws |
| Draws.EqualOffersShareTheLoad | apps/desktop/src-tauri/src/routing.rs:42-94 | k equal offers: each is chosen by (k-1)! of the k! sequences |
| Draws.StandIsLeast | apps/desktop/src-tauri/src/routing.rs:69-92 | a model stands at the least price anyone asks for it, and nowhere when nobody lists it |
| Draws.TiesAreCounted | apps/desktop/src-tauri/src/routing.rs:69-92 | its tie count is the number of offers at that price |
| Draws.ChoosingExtends | apps/desktop/src-tauri/src/routing.rs:60-90 | what one more offer does to the sequences that choose a given one |
| Routing.ModelOptions | apps/desktop/src-tauri/src/routing.rs:42-104 | one row per model, by price and at one price by name, character by character, each with its count and the offer the draws left in place, for draws the generator can give |
| Routing.Tabulate | apps/desktop/src-tauri/src/routing.rs:42-94 | the two loops build the table of all offers met |
| Routing.Consider | apps/desktop/src-tauri/src/routing.rs:52-92 | one more offer adds or updates exactly its model's row |
| Routing.HolderHolds | apps/desktop/src-tauri/src/routing.rs:60-90 | whatever the draws, a row's provider asks the model's least price |
| Routing.UnpricedMeansNobodyPricedExactly | apps/desktop/src-tauri/src/routing.rs:29-83 | a row's flag says, whatever is drawn, that nobody serving the model named a price iff nobody did or no offer at the least price is without one |
| Routing.OnePricedAndStillUnpriced | apps/desktop/src-tauri/src/routing.rs:29-83 | one provider without a price and one with: the row is marked unpriced |
| Routing.AmountIsTheDearest | crates/rootmode-core/src/protocol.rs:713-721 | a listing is ranked by the greater of its price and its dearest rate, in whole cents |
| Routing.OffersAreListed | apps/desktop/src-tauri/src/routing.rs:137-160 | an offer is on the table iff somebody online lists it |
| Routing.CountIsExact | apps/desktop/src-tauri/src/routing.rs:60-90 | a row's count is the number of offers of its model |
| Routing.ModelOptionsRefineProviderOptions | apps/desktop/src-tauri/src/routing.rs:42-176 | a row counts the providers of the long list, names an online one that lists the model at its price, one of the cheapest, and exists iff the model is listed online |
| Routing.ProviderOptionsAreInOrder | apps/desktop/src-tauri/src/routing.rs:137-176 | the long list is by price, then by model, then by label, character by character |
| Sorting.LexLeExactly | apps/desktop/src-tauri/src/routing.rs:96-103 | one text comes before another iff at the first place they differ it has ended or has the smaller character |
| Fallbacks.Fallbacks | apps/desktop/src-tauri/src/routing.rs:201-241 | exactly the other online offers priced at most what the first choice was, on a model whose name begins the asked one, by price, and then, for text from a free choice, the free ones on any, each as often as it is met and in the order of the draws where prices are level; a free choice is never retried on a paid one |
| Fallbacks.FirstPriceIs | apps/desktop/src-tauri/src/routing.rs:202-207 | what the user saw is the price of the first provider of that id on its first model of the kind whose name begins the asked one, and nothing without one |
| Fallbacks.FallbackBillIsBounded | apps/desktop/src-tauri/src/routing.rs:188-241 | a fallback no dearer bills every mix of a million tokens within a million at the first choice's ranking price iff its cache rate is within it; that is the first choice's chunk iff that price is its dearest rate |
| Fallbacks.NoRetryCostsMoreExactly | apps/desktop/src-tauri/src/routing.rs:188-241 | whichever fallback is no dearer and caches within its dearest rate, no retry costs more for the same tokens iff the first choice asks the one price it was ranked by for everything |
| Fallbacks.CacheIsNotRanked | apps/desktop/src-tauri/src/routing.rs:188-241 | with a cache rate alone a fallback is ranked as free and costs more than the first choice |
| Fallbacks.SameTokensMayCostMore | apps/desktop/src-tauri/src/routing.rs:188-241 | a fallback that is no dearer costs fifty times as much for the same prompt |
| Fallbacks.Attempt | apps/desktop/src-tauri/src/jobs.rs:310-416 | a provider gave nothing iff it failed or answered emptily before anything was said, or fell silent with the job unresolved; an answer is kept iff one was stored before that |
| Fallbacks.HandedOnWithAnAnswerExactly | apps/desktop/src-tauri/src/jobs.rs:318-415 | a job is handed on with an answer on record iff the provider stored one and then sent a failure or an empty answer, with nothing said and nothing of the kind before |
| Fallbacks.HandedOnOnlyWhenNothingWasShown | apps/desktop/src-tauri/src/jobs.rs:318-415 | a provider that keeps the worker's grammar never does, and nothing it said was shown |
| Fallbacks.ShownAndStillHandedOn | apps/desktop/src-tauri/src/jobs.rs:318-415 | one outside it can: a picture, then a failure |
| Fallbacks.OtherJobsAreIgnored | apps/desktop/src-tauri/src/jobs.rs:318-370 | what a provider sends about other jobs is not part of what it says about this one |
| Fallbacks.Submit | apps/desktop/src-tauri/src/jobs.rs:150-217 | at most one try more than there are fallbacks, each the next known one, asked for its own model and nothing else changed, stopping at the first that settles |
| Fallbacks.NextKnown | apps/desktop/src-tauri/src/jobs.rs:169-180 | fallbacks that are gone are skipped, and only those |
| Bytes.ShortestIsStripped | crates/rootmode-worker/src/chain.rs:321-334 | the stripped big-endian bytes are the shortest spelling |
| Bytes.ShortestIsUnique | crates/rootmode-worker/src/chain.rs:321-334 | a number has one spelling without leading zeros |
| Rlp.RlpList | crates/rootmode-worker/src/chain.rs:280-287 | the pushed items are wrapped whole and in order |
| Rlp.RlpU64 | crates/rootmode-worker/src/chain.rs:295-302 | a number is the string of its shortest bytes, none for zero |
| Rlp.WrapRoundTrip | crates/rootmode-worker/src/chain.rs:304-319 | a header announces exactly what follows it, short or long form |
| Rlp.StringRoundTrip | crates/rootmode-worker/src/chain.rs:288-319 | a reader by Appendix B of the Yellow Paper gets the string back and leaves the rest |
| Rlp.SpellingIsUnique | crates/rootmode-worker/src/chain.rs:288-319 | nothing else reads as that string |
| Rlp.ListRoundTrip | crates/rootmode-worker/src/chain.rs:280-319 | a list of strings is read back item by item |
| Rlp.LegacyRlp | crates/rootmode-worker/src/chain.rs:256-278 | both forms of a transaction are read back as the nine items Ethereum names, in its order, numbers in their shortest bytes |
| Rlp.LegacyRlpInjective | apps/desktop/src-tauri/src/eth_tx.rs:110-188 | equal bytes are the same transaction and signature; only an all-zero signature could be taken for none |
| Rlp.VNamesTheChain | apps/desktop/src-tauri/src/eth_tx.rs:100-108 | v says which chain and parity was signed for iff the chain id doubled leaves 36 below the top of a u64 |
| Rlp.VOverflowsExactly | apps/desktop/src-tauri/src/eth_tx.rs:100-108 | the last addition overflows iff the parity is odd and the rest has reached the top |
| Rlp.SignedExactly | apps/desktop/src-tauri/src/eth_tx.rs:100-108 | a signature is put in as it was made, with the EIP-155 v where a u64 holds it, and none iff its last addition overflows |
| Rlp.SignedBytesNameTheChain | apps/desktop/src-tauri/src/eth_tx.rs:100-188 | the bytes of a signed transaction fix all of it, chain and parity included, for those chain ids |
| Abi.Pad | crates/rootmode-worker/src/chain.rs:369-376 | the least number of zeros to a whole word |
| Abi.EncodeCall | crates/rootmode-worker/src/chain.rs:355-377 | selector, four words, offset, length, padded bytes |
| Abi.CallRoundTrip | crates/rootmode-worker/src/chain.rs:355-398 | a decoder by the ABI's rules gets every field back, for signatures of any length |
| Abi.WordsReadBack | crates/rootmode-worker/src/chain.rs:390-398 | a word of the chain reads as its number when a u64 holds it and as zero when not; so reading undoes writing for every u64 |
| Abi.TextsRead | crates/rootmode-worker/src/chain.rs:396-398 | a text of digits reads as its number, or zero beyond a u64, with any zeros and then one plus sign in front; no number reads as zero |
| Abi.EitherCase | crates/rootmode-worker/src/chain.rs:396-398 | digits are read in either case |
| Eip712.DigestBindsEverything | crates/rootmode-core/src/payments.rs:229-292 | equal pot digests are the same ticket, kind, chain and contract, unless one of four named pairs of hashed texts collides |
| Eip712.DomainBinds | crates/rootmode-core/src/payments.rs:56-67 | the domain text fixes the chain and the contract |
| Eip712.StructBinds | crates/rootmode-core/src/payments.rs:250-292 | the struct text fixes the parties, amount and deadline, and a reserve is never a spend |
| Eip712.TicketLayout | crates/rootmode-core/src/payments.rs:250-292 | the struct text is five words: the hash of the kind's type, the two parties, the amount and the deadline, in the order the type names them |
| Eip712.DomainLayout | crates/rootmode-core/src/payments.rs:56-67 | the domain text is five words: the hashes of the type, the name and the version, the chain id and the contract |
| Eip712.DigestLayout | crates/rootmode-core/src/payments.rs:229-236 | the digest is the hash of 0x19 0x01, the hashed domain and the hashed struct |
| Framing.JsonStream.Send | crates/rootmode-p2p/src/framing.rs:31-44 | a message and one newline are put on the wire, or, when the write fails, the beginning of the message |
| Framing.JsonStream.Recv | crates/rootmode-p2p/src/framing.rs:50-85 | the next line of the newline split however the bytes arrive, refused only when over the limit, never buffering more than the limit and one read |
| Framing.JsonStream.ReadAll | crates/rootmode-p2p/src/framing.rs:50-94 | reading with nothing going out yields the newline split up to the first line that is over the limit or not text |
| Framing.JsonStream.RecvUnlessDropped | crates/rootmode-p2p/src/framing.rs:50-85 | a read dropped while it waits has taken no more than its line's own bytes, and they are gone |
| Framing.JsonStream.Serve | crates/rootmode-worker/src/server.rs:874-894 | the connection's loop drops one read for each message sent and no other, and hears the newline split of its stream iff no read was dropped in the middle of a line, so always when nothing was sent; it fails only on a failed write or a line over the limit or not text |
| Framing.TornExactly | crates/rootmode-worker/src/server.rs:874-894 | for every trace of deliveries and drops that uses up the stream, what was heard is the newline split iff no drop lost a byte |
| Framing.NothingElseGoesMissing | crates/rootmode-worker/src/server.rs:874-894 | every byte that is no newline was heard, lost to a drop, or is still to come |
| Framing.ALineIsTorn | crates/rootmode-worker/src/server.rs:874-894 | a trace whose one line is heard as its tail |
| Framing.LinesUndoWire | crates/rootmode-p2p/src/framing.rs:31-85 | reading gives back what was sent |
| Node.PublicIp4IsOutsideTheBlocks | crates/rootmode-p2p/src/node.rs:447-469 | the octet tests refuse exactly eleven address blocks |
| Node.PublicIp6IsOutsideTheBlocks | crates/rootmode-p2p/src/node.rs:459-463 | the IPv6 tests refuse exactly none, this machine, fc00::/7 and fe80::/10 |
| Node.ReachableExactly | crates/rootmode-p2p/src/node.rs:447-469 | an address travels iff it begins with a name or with an IP address outside the closed blocks |
| Node.UnspecifiedExactly | crates/rootmode-p2p/src/node.rs:471-477 | an address is unspecified iff an IP address in it is all zeros |
| Node.PeerIsTheFirstNamed | crates/rootmode-p2p/src/node.rs:479-484 | the peer of an address is the first it names, none iff it names none |
| Node.AnsweredOnceWithTheUnion | crates/rootmode-p2p/src/node.rs:770-797 | in every trace a query is answered at most once, at its first ending event, with exactly the providers reported for its own id |
| Node.QuietBeforeAsking | crates/rootmode-p2p/src/node.rs:770-797 | events for an id nobody asked about answer nothing |
| Node.AnnouncedIsTheLastSet | crates/rootmode-p2p/src/node.rs:608-620 | nothing outside the last set is announced, and all of it iff the store refused no new key of it |
| Node.AdvertisedExactly | crates/rootmode-p2p/src/node.rs:670-707 | the advertised addresses in closed form: with a public one known, no private address that only a listener reported stays, and none is held back to withdraw |
| Node.ReservedExactly | crates/rootmode-p2p/src/node.rs:709-724 | a slot is held iff an accepted request for a wanted relay came after every release; held slots are wanted relays |
| Node.LosingACircuitFreesItsRelay | crates/rootmode-p2p/src/node.rs:849-871 | a closed circuit frees the relay it went through and no other |
| Node.EventLoop.constructor | crates/rootmode-p2p/src/node.rs:524-552 | a fresh loop wants exactly the relays its entry points name, and knows whether a declared address is public |
| Node.EventLoop.FindProviders | crates/rootmode-p2p/src/node.rs:622-625 | an asked query waits with nothing seen |
| Node.EventLoop.OnProviders | crates/rootmode-p2p/src/node.rs:770-787 | a progress event does to the pending map what the specification step does |
| Node.EventLoop.OnProvidersFailed | crates/rootmode-p2p/src/node.rs:789-797 | a failed query answers with what was seen |
| Node.EventLoop.ProvideKeys | crates/rootmode-p2p/src/node.rs:608-620 | keys that left the set are withdrawn, the rest published, whatever the order |
| Node.EventLoop.OnNewListenAddr | crates/rootmode-p2p/src/node.rs:670-707 | the first public address withdraws every private one advertised so far |
| Node.EventLoop.OnConnectionEstablished | crates/rootmode-p2p/src/node.rs:709-732 | a relay is asked only while no slot is held, and a refusal leaves it to be asked again |
| Node.EventLoop.OnListenerClosed | crates/rootmode-p2p/src/node.rs:849-871 | exactly the relays named by a lost circuit are freed |
| Node.EventLoop.ReconnectIfAlone | crates/rootmode-p2p/src/node.rs:583-598 | entry points are dialled, and slots freed, only with nobody connected |
| CodexConfig.RemoveProviderTable | apps/desktop/src-tauri/src/connected_tools.rs:552-561 | the first own table, up to the next table, is what is taken out |
| CodexConfig.SetTopLevel | apps/desktop/src-tauri/src/connected_tools.rs:563-575 | the one top-level line that sets the key is replaced, or added before the first table |
| CodexConfig.RemoveTopLevel | apps/desktop/src-tauri/src/connected_tools.rs:577-583 | that one line is removed and nothing else |
| CodexConfig.ConnectCodex | apps/desktop/src-tauri/src/connected_tools.rs:590-612 | the lines kept, one blank line, then the table |
| CodexConfig.ConnectSays | apps/desktop/src-tauri/src/connected_tools.rs:590-612 | after a connect the file names the gateway as provider and the given model, and ends in a table of the gateway's name, address, wire format and key variable, each readable as TOML |
| CodexConfig.DisconnectCodex | apps/desktop/src-tauri/src/connected_tools.rs:614-623 | the first own table and the first line recognised as the provider's setting are taken out |
| CodexConfig.GoneAfterDisconnect | apps/desktop/src-tauri/src/connected_tools.rs:614-623 | no own table is left iff there was one at most; the provider is set nowhere iff it was not, or once in the form the edit recognises |
| CodexConfig.SettingsAfterConnect | apps/desktop/src-tauri/src/connected_tools.rs:563-605 | after a connect a key is set once more than by the lines not recognised as its setting, so exactly once iff there are none |
| CodexConfig.TwoSettingsOfOneKey | apps/desktop/src-tauri/src/connected_tools.rs:563-605 | a setting without the space leaves two |
| CodexConfig.ConnectTwice | apps/desktop/src-tauri/src/connected_tools.rs:590-612 | a second connect changes nothing iff no other own table is left, or only copies of the one written |
| CodexConfig.ConnectTwiceWithOneTable | apps/desktop/src-tauri/src/connected_tools.rs:552-612 | so with one own table at most it is idempotent |
| CodexConfig.TwoTablesAreNotEnough | apps/desktop/src-tauri/src/connected_tools.rs:552-612 | with two empty ones it is not |
| CodexConfig.OnlyCopiesStay | apps/desktop/src-tauri/src/connected_tools.rs:552-561 | taking out the first own table and writing it again gives the same lines iff they are copies of it |
| CodexConfig.ConnectKeepsForeignLines | apps/desktop/src-tauri/src/connected_tools.rs:563-605 | every non-blank line outside the own table and the two keys is kept, in order, and both keys are set |
| CodexConfig.DisconnectAfterConnect | apps/desktop/src-tauri/src/connected_tools.rs:614-623 | a disconnect after a connect keeps the model key that was set and the user's lines; with a second own table in the file, that one goes and the written one stays |
| CodexConfig.LineEnds | apps/desktop/src-tauri/src/connected_tools.rs:533-537 | a line of the file ends in a newline, and a return right before it, but one only, is taken off too |
| Text.SpacesByNumber | apps/desktop/src-tauri/src/connected_tools.rs:547-550 | what is trimmed is Unicode's White_Space, by code point |
| CodexConfig.LinesRoundTrip | apps/desktop/src-tauri/src/connected_tools.rs:533-537 | lines written and read back are the same lines |
| CodexConfig.ConnectTextTwice | apps/desktop/src-tauri/src/connected_tools.rs:590-612 | the whole file is the same after a second connect under exactly that condition |
| ShellBlock.ReplaceIsIdempotent | apps/desktop/src-tauri/src/connected_tools.rs:879-898 | writing the block again changes nothing iff no begin mark stands in the text that is kept |
| ShellBlock.KeptTextSurvives | apps/desktop/src-tauri/src/connected_tools.rs:879-898 | then the text around the block survives any later block |
| ShellBlock.StrayMarkLosesText | apps/desktop/src-tauri/src/connected_tools.rs:889-898 | with a stray begin mark and no end mark after it, the second write drops the text from the mark on |
| ShellBlock.TheMarksAreGood | apps/desktop/src-tauri/src/connected_tools.rs:812-813 | the two marks differ, are of one length and hold no newline, as the results above ask of them |

## Left out

- Hashes and recovery: ledger ids are their pre-image texts, a signer is any function of the statement and the bytes, keccak is any function to 32 bytes with the collisions that matter named.
- f64 rounding inside products, NaN and infinities: charges are exact in cents; `to_lowercase` is ASCII only.
- VideoOffer, the flat bill of a picture or a clip, `tokens_for_micros`, `measure` and the tokenizer, `settle_due`, `redeemable`, worker statistics: single-function menus, counts and sums that add only easy members.
- Two live submissions under one job id: each worker method is one critical section except at `Await`, where other jobs may do anything that lowers no authorisation and leaves this job's bond alone.
- `pending_bonds` on the early failing exits: nothing is claimed about it being cleared there.
- JobStream.ForwardedTokensArePaid: covers the metered loop and counts that stay below 2^64; the drain is counted apart, by `JobStream.DeliveredIsPaidExactly`.
- JobStream.MessagesFollowTheGrammar: safety only; that a job need not end is `JobStream.AJobCanHang`.
- Framing.JsonStream.Send: JSON printing is not modelled; a message is any bytes, and the round trip asks for none that holds a newline, as JSON text never does.
- Fleet.NoWorkerWritesOffUnpaidMoney: which ids the contract files under one channel is any function of the id; that it is by the two wallets' bytes is not part of this model.
- Bonds.Worker.ServeJob: the run between admission and capture finishes; a prompt refused by the ceiling, an invalid payload, and a failed or stopped run capture nothing, and are not part of it.
- Bonds.Worker.EnsureLock: other jobs run at two points, after the first read and after the raise; what they may do in between is the same. With a raise to post, what the last answer must show and a chain that always shows enough are stated; which answers end each wait is not.
- Rlp.VNamesTheChain: recovery ids are 0 and 1; the two for a reduced `r`, which no signer is known to produce, are left out.
- CodexConfig.GoneAfterDisconnect: settings of a key in quotes, and settings inside multi-line strings, are not counted.
- Routing.Tabulate: the source's nested loops are split over two methods, and `Fallbacks.Sift` walks the offers flattened into one list, in the order the source meets them.
- Routing.Consider: tie counts are unbounded, where the source counts in a `u32`; a row's currency and latency are not modelled.
- Rlp.LegacyRlp: buffers are shorter than 2^63 bytes, as a `Vec` is.
- Kademlia, mDNS, identify, the relay client and the swarm: environment. External addresses that libp2p itself confirms are outside `external`, `pending_lookups` and `local_peers` are simple maps left out.
- Node.AnsweredOnceWithTheUnion: asks that a query id is used once, as Kademlia's are.
- CodexConfig.ConnectTextTwice: asks that no line of the file ends in a second carriage return and that the values hold no newline; one of either is read back differently from how it was written.
- ShellBlock.ReplaceIsIdempotent: asks that the exported value does not hold the end mark.
- The backup file, the environment variable itself, `strip_jsonc` and the other tools' JSON edits, JSON-RPC, HTTP, sockets and SQLite: I/O or library calls.
- The contract source is not part of this model.
