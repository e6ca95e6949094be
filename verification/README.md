# USSD gateway: models and proofs

A Dafny 4.11 project that models the parts of the USSD state-builder where correctness is subtle, and proves
what they promise. `dafny verify dfyconfig.toml` checks all of it. Nothing here runs the JavaScript.

## What is modelled

**The turn protocol** (`Transcript`, `TurnTypes`, `TurnStore`, `TurnGateway`, `TurnProtocol`, `TurnInvariant`,
`TurnTheorems`, `TurnClosure`, `TurnProcess`, `TurnBudget`). A provider re-sends the whole cumulative transcript of a
session with every request. A request reads the session's ledger, claims the next revision with a fresh token, runs the
handler in staging and commits snapshot and receipt together; a recoverer takes a pending revision over by replacing its
token; a provider end event fences the session. Both stores are classes proved against one specification of their atomic
operations. `TurnProtocol` interleaves any number of requests, which may stall or be abandoned between any two steps,
with clock ticks, key expiry and end events; the theorems hold for every legal run. `TurnProcess` runs one whole call
against the Redis store: which requests are due, which are refused and why, and when a due one is answered, stated on
what the slot holds and on the readings of the clocks. A SHA-256 identity is the tuple it digests, and a UUID token is
the number of its request, which is the same as assuming no collisions.

**End events** (`EventStore`), **the effect journal** (`Market`) and **recovery** (`OrderTexts`, `Recovery`,
`RecoveryRuns`). The event journal is a compare-and-set loop; the market's Lua scripts are atomic steps over stock,
orders and an idempotency journal; `Recovery` composes the market with the turn protocol, so that a handler whose claim
was taken over may still perform its effect later, and other customers trade at any time; `RecoveryRuns` exhibits two
such runs; `OrderTexts` reads the order and the total back from the printed answers.

**Metric evidence** (`MetricEvents`, `Tally`, `MetricGroups`, `MetricTimeline`, `MetricSessions`, `MetricTallies`,
`MetricAggregate`, `MetricOutcomes`; `Partition`, `MetricBuckets`, `MetricStates`, `MetricReport`,
`MetricDecomposition`; `MetricBuffer`, `MetricBufferInvariant`, `MetricBufferTheorems`, `MetricBufferAdmission`,
`MetricBufferCauses`, `MetricEventBuffer`). `MetricEvents` says, without any loop, when a set of events is consistent
and what summary it determines. The aggregator's loops are proved to fail on exactly the unacceptable batches and to
return that summary on all others; `MetricOutcomes` says what both mean in plain terms. The report's loops are proved to
fill exactly the rows the evidence opens, and its columns to add up. The buffer is a state machine over record, delete,
clear, close and observation with arbitrary clock readings, and a class that refines it; `MetricBufferAdmission` says
which events it keeps and why it refuses the others, `MetricBufferCauses` what brought about its denials, seals and
counts.

**Flows** (`FlowAnalysis`, `SdkFlow`), **the session lock** (`SessionMutex`) and **the sliding window**
(`SlidingWindow`).

## Findings

- The limiter's documentation promises at most `maxRequests` per window. It bounds spans of at most one clock tick
  more than the window less one sub-window, for every limit and window (`BoundedSpans`), so the promise per whole
  window holds only when a sub-window is a single tick.
- A state that is terminal and still names a next state makes the machine store a state the analysis calls
  unreachable (`TerminalStateEscapes`). The analysis reports that flow as invalid, and for every valid one the stored
  states are covered.
- Aggregation of a batch with repeated deliveries differs from the batch without them only in `duplicateEvents`, unless
  the repetitions push it over 100000 events, when it fails (`RedeliveryCountsOnly` says exactly that).
- An end event does not close a session for ever. Its mark on the turn's key and its event record lapse, each in its own
  time, and the next dial is then served. `TurnClosure.ServedExactlyWhenUnfenced` says exactly when: a normal turn gets
  through if and only if the key is not marked and the gateway either does not consult the event store or finds no
  record there. The mark stands for the lifetime of the accepting record (`FencedForLife`), the record for its retention
  (`FencedForRetention`). `ForgottenEvent` is a run in which both lapse together, which happens whenever the event comes
  before any turn; `OnlyTheRecordRemembers` is one in which only a gateway with the event store still refuses.
- If the turn record lapses while the market's journal entry remains, a handler can replay an old placement and report
  a total computed from the new cart: `RecoveryRuns.ReplayMisstates` is such a run, with two totals for one order.
  `Recovery.ExactTotals` says exactly when an answer states the stored total: every recovery's does, and a handler's if
  and only if the two totals agree, as they do whenever the handler found its key unused. By
  `Recovery.KeyUsedAcrossLives` it finds it used exactly when the same turn acted in another lifetime of the record.

## Hypotheses

- A key of the turn store does not lapse between one request's read and its claim; it may lapse at any other time. The
  store's clock does not run backwards. In the deadline theorems the gateway's clock and the store's run at the same
  rate with any offset.
- In `EventStore` all accepts of a session carry one binding and the event record does not lapse during a run; in the
  turn protocol it lapses after its retention.
- In `Market` and `Recovery` the 24-hour journal and checkout keys do not lapse, and a cart lists each product once.
- The buffer's and the limiter's environment calls one operation at a time, as JavaScript's event loop does. The limiter's
  clock does not run backwards; the buffer's may.

## Model

| member | source | states |
|---|---|---|
| Transcript.SegmentsInjective | lib/AfricasTalkingAdapter.js:14-20 | Transcripts with the same choices are the same text, so equal length without equality means divergence. |
| Transcript.ComparisonIsExact | lib/AfricasTalkingAdapter.js:132-145 | Each verdict of the comparison holds exactly when the two lists of choices stand in the relation it names. |
| Transcript.NextSplitsOff | lib/AfricasTalkingAdapter.js:14-20 | A transcript one segment longer is the previous one with its latest input appended. |
| Transcript.ChoiceExtends | lib/AfricasTalkingAdapter.js:14-20 | Appending one star-free choice extends a transcript by exactly one segment. |
| Transcript.NextIsOneMoreChoice | lib/AfricasTalkingAdapter.js:132-145 | The verdict `next` means the new text is the old text with one more star-free choice, which is the handler's input, and the position grows by one. |
| RedisTurns.RedisTurnStore.Expire | lib/TurnStore.js:107-109 | A key whose time to live has passed presents an absent slot; other keys are untouched. |
| RedisTurns.RedisTurnStore.Read | lib/TurnStore.js:134-142 | Reading the hash's scattered fields gives exactly the observation of the abstract slot: empty, orphan, or the ledger with its owner deadline. |
| RedisTurns.RedisTurnStore.Claim | lib/TurnStore.js:80-110 | A claim is installed exactly when its arguments are valid and the slot grants it; then the slot is the claimed one, otherwise unchanged, and no other key is touched. |
| RedisTurns.RedisTurnStore.Commit | lib/TurnStore.js:111-125 | A commit is installed exactly when the caller is the unexpired, unfenced owner of the revision; ledger and snapshot change together or not at all, the window opens for activeMs and the record lives for its ttl. |
| InMemoryTurns.InMemoryTurnStore.Read | lib/TurnStore.js:38-44 | The in-memory record, or a stray session, is presented as the same abstract slot; expired entries go without changing what is seen. |
| InMemoryTurns.InMemoryTurnStore.Claim | lib/TurnStore.js:45-58 | The same claim rule as the Redis store; a first claim over a stray session starts from no snapshot. |
| InMemoryTurns.InMemoryTurnStore.Commit | lib/TurnStore.js:59-69 | The same commit rule, window and life; the machine's own storage receives the committed snapshot. |
| TurnStoreSpec.CommitLasts | lib/TurnStore.js:121-123 | After a commit at t the record is there until exactly t + ttl seconds and then nothing is; the window of a valid commit opens and lies within that life. |
| TurnStoreSpec.ClaimLasts | lib/TurnStore.js:98-109 | After a claim at t the record lapses at exactly t + ttl seconds, and its owner may commit exactly while both lease and deadline last and no fence bars it; snapshot and window are untouched. |
| TurnStoreSpec.CloseLasts | lib/RedisSessionEventStore.js:20-21 | An end event takes nothing away and lengthens no record's life; a mark on an absent record lasts exactly the retention. |
| TurnGateway.FindReceipt | lib/TurnGateway.js:46-47 | A receipt found answers this very identity; none found means no receipt does. |
| TurnGateway.DistinctFingerprints | lib/TurnGateway.js:26-28 | In a well-formed ledger no two receipts answer the same request. |
| TurnGateway.AdmitShape | lib/TurnGateway.js:41-65 | An admitted request carries the ledger it read and, exactly when recovering, the token it replaces; a replay returns the stored answer to the bound caller. |
| TurnGateway.AdmissionIsExact | lib/TurnGateway.js:39-65 | On what the slot holds: a request is admitted if and only if it is due (in scope, bound, unanswered, below maxTurns, and either the next turn of an open, unfenced, unfinished, active session or the recovery of the very turn pending), replayed if and only if it was answered, and refused with each code exactly for its own reason. |
| TurnGateway.ActiveWindow | lib/TurnGateway.js:56-57 | Across commit, read, admission and claim, for all ttl and activeMs: an otherwise admissible next turn at t' after a commit at t is admitted, and its claim granted, if and only if t' < t + activeMs. |
| TurnGateway.FormattedIs | lib/AfricasTalkingAdapter.js:151-152 | An answer is CON or END followed by a text that is not empty, and ends the session exactly if the word is END. |
| TurnGateway.AdmittedFollows | lib/TurnGateway.js:51-65 | An admitted request, first attempt or recovery, is the next step of the ledger it read. |
| TurnGateway.CommitKeepsChain | lib/TurnGateway.js:108-109 | Installing an admitted request's answer appends exactly one receipt and keeps the chain of transcripts, positions and endings. |
| TurnInvariant.StepKeeps | lib/TurnGateway.js:39-124 | Every step of every request, of the clock and of an end event keeps the protocol's invariant. |
| TurnInvariant.ClaimKeeps | lib/TurnGateway.js:61-76 | A claim, granted or lost, keeps it: a granted normal claim is the first for its revision. |
| TurnInvariant.InstallKeeps | lib/TurnGateway.js:108-116 | An attempted commit keeps it: only the stored owner installs, and exactly the ledger it claimed plus one receipt. |
| TurnInvariant.TickKeeps | lib/TurnStore.js:80-110 | Time passing, owner deadlines lapsing and keys expiring keep it. |
| TurnInvariant.AcceptEndKeeps | lib/RedisSessionEventStore.js:4-22 | An accepted end event keeps it. |
| TurnTheorems.RunKeeps | lib/TurnGateway.js:39-124 | The invariant holds after every legal run. |
| TurnTheorems.PreparedAtMostOnce | lib/TurnGateway.js:51-98 | Over every run, prepareTurn starts at most once and a normal claim is granted at most once for a revision of a record lifetime; no crash, lapsed lease or recovery reopens it. |
| TurnTheorems.RunGrows | lib/TurnGateway.js:108-116 | No continuation rewrites or drops an installed receipt. |
| TurnTheorems.OneInstallPerRevision | lib/TurnStore.js:111-125 | Of the owner and all successive recoverers of a revision at most one installs it: whatever follows, the revision keeps that installer, kind, request and response. |
| TurnTheorems.LedgerShape | lib/TurnGateway.js:53-59 | In every reachable ledger: as many receipts as revisions, at most maxTurns; receipt i answers position i; identities distinct; each transcript extends the last by one segment; only the last can be an END. |
| TurnTheorems.AnswersAgree | lib/TurnGateway.js:46-47 | Any two answers ever returned for one request in one record lifetime are equal and went to the same caller, whether committed, replayed, or replayed after a lost claim. |
| TurnTheorems.LaterAnswersAgree | lib/TurnGateway.js:46-47 | What was answered at one point of a run is answered the same at any later point of any continuation. |
| TurnTheorems.CommitsMeetDeadlines | lib/TurnStore.js:118-120 | Over every run a commit is granted only before the deadline that this request's own claim asked for. |
| TurnTheorems.NoCommitAfterBudgetEnd | lib/TurnGateway.js:67-69 | Over every run, whatever the offset of the clocks and the delays of the calls, no commit is granted after the gateway's own budget has ended. |
| TurnClosure.NoNormalClaimWhileFenced | lib/TurnStore.js:86-90 | While the key is marked closed, or an event record stands that the gateway consults, no step grants a normal claim. |
| TurnClosure.ClosedSession | lib/TurnStore.js:112-124 | From any accepted end event on, as long as a fence stands: no normal claim, at most one more revision, and that only as a recovery of the very turn pending when the event was accepted; later lifetimes stay empty. |
| TurnClosure.FencedForLife | lib/TurnStore.js:89-89 | The mark on the key is a fence for the whole lifetime of the record, whatever the gateway consults. |
| TurnClosure.FencedForRetention | lib/RedisSessionEventStore.js:19-19 | For a gateway that consults it, the event record is a fence for its whole retention, in whatever lifetime of the turn record. |
| TurnClosure.ServedExactlyWhenUnfenced | lib/TurnGateway.js:48-50 | After any run from an accepted end event that took its steps behind a fence, a promptly handled turn that opens a session is served if and only if no fence stands any more. |
| TurnClosure.ForgottenEvent | lib/RedisSessionEventStore.js:19-21 | A run in which an early end event is forgotten and the next dial served, with and without the event store. |
| TurnClosure.OnlyTheRecordRemembers | lib/RedisSessionEventStore.js:19-21 | A run in which the key has lapsed and the event record has not: the next dial is served exactly by gateways without the event store. |
| TurnTheorems.UndisturbedIsAnswered | lib/TurnGateway.js:39-124 | From any state, an admissible request that nothing disturbs claims, commits exactly one receipt and is answered, so the safety theorems are not vacuous. |
| TurnTheorems.LoserIsAnswered | lib/TurnGateway.js:68-75 | In every state the invariant allows: a request outrun by another attempt of the same turn loses its claim, reads again and gives that attempt's answer, and the store is untouched. |
| TurnProcess.AnsweredReplays | lib/TurnGateway.js:45-47 | Once a request has been answered, any attempt by any instance, recovering or not, closed or not, replays that answer. |
| TurnProcess.InstallAnswers | lib/TurnGateway.js:108-116 | After a commit the store answers this request with this response, and the receipts grew by exactly it. |
| TurnProcess.ClaimHolds | lib/TurnGateway.js:61-69 | A granted claim leaves every receipt in place and makes the caller the pending owner. |
| TurnProcess.Gateway.Process | lib/TurnGateway.js:32-123 | One call, exactly: an answered request gets its answer and nothing changes; a refused one the code of its reason and nothing changes; a due one is answered if and only if its claim is granted, the answer can be delivered and the commit meets both deadlines, and then the store holds one more receipt and the new session; otherwise it gets the failure that names what went wrong, with at most its claim left. |
| TurnProcess.Gateway.Take | lib/TurnGateway.js:67-123 | From admission on, for first attempts and recoveries: which of the six results the call has, each by an if-and-only-if on the readings of the clocks, the slot and the work done, and the exact slot it leaves. |
| TurnProcess.Gateway.Ask | lib/TurnGateway.js:67-76 | The claim is won exactly when the budget still runs, its arguments are valid and the slot grants it; then the slot holds exactly the claim. |
| TurnProcess.Gateway.Deliver | lib/TurnGateway.js:87-117 | From a won claim on: no work, an answer that cannot be delivered, a late one and a stale owner each have their own result, and only a reply changes the slot. |
| TurnProcess.PromptCommitOwns | lib/TurnGateway.js:67-69 | Whatever the offsets of the clocks: a commit two milliseconds and one read's delay before the budget's end is never refused as stale, and none is granted past that end. |
| TurnProcess.Gateway.ReadAgain | lib/TurnGateway.js:70-75 | A lost claim is answered only with an answer the store really holds for this request. |
| TurnBudget.TurnBudget.constructor | lib/TurnBudget.js:7-18 | The budget ends after exactly the smaller of the timeout and what is left of the caller's deadline, and at once when that has passed. |
| TurnBudget.TurnBudget.Shorten | lib/TurnBudget.js:27-27 | Shortening never extends the budget. |
| TurnBudget.TurnBudget.Remaining | lib/TurnBudget.js:26-26 | Remaining milliseconds are zero exactly when the end has been reached, and otherwise the time left rounded up. |
| TurnBudget.TurnBudget.Check | lib/TurnBudget.js:29-32 | The check passes exactly inside an unaborted budget, and records why it does not. |
| TurnBudget.CommitBeforeDeadline | lib/TurnBudget.js:24-25 | Store time before the computed deadline is gateway time before the budget's end, for any offset of the clocks. |
| TurnBudget.EarlyCommitIsNotLate | lib/TurnBudget.js:24-25 | The store deadline gives away no more than the read's latency and two milliseconds. |
| EventStore.SessionEvents.Install | lib/RedisSessionEventStore.js:4-22 | The script installs record, its time to live and the closure together exactly when revision and binding still match; the turn's key gets a time to live only if it has none. |
| EventStore.SessionEvents.Accept | lib/RedisSessionEventStore.js:39-63 | The retry loop: an acknowledged event is in the record, rightly classified, together with everything rivals installed meanwhile; any number of rivals may come between a read and its install, and contention is reported only if every one of eight attempts met some. |
| EventStore.AttemptAdds | lib/RedisSessionEventStore.js:50-56 | One installed attempt adds exactly its event, and a recorded conflict is sticky. |
| EventStore.AttemptOutcome | lib/RedisSessionEventStore.js:51-56 | The outcome is a conflict exactly when two events differ in status or share a time, although it is computed incrementally. |
| EventStore.ClassifiedAs | lib/RedisSessionEventStore.js:50-52 | A new event is conflicting exactly if it clashes with one held, stale exactly if it does not and one held is later, and accepted otherwise. |
| EventStore.RecordUnique | lib/RedisSessionEventStore.js:53-56 | A record is determined by its set of events: list, revision and outcome. |
| EventStore.RevisionIsSize | lib/RedisSessionEventStore.js:55-56 | The revision counts the events, so an unchanged revision means an unchanged set. |
| EventStore.StepKeeps | lib/RedisSessionEventStore.js:39-63 | Every step of concurrent accepts keeps the record the one that stands for its set of events. |
| EventStore.Confluent | lib/RedisSessionEventStore.js:39-63 | Any two interleavings that acknowledge the same events end in the same record. |
| Market.MarketStore.PlaceOrder | examples/live-market/marketStore.js:3-32 | The script's loops perform exactly the specified placement: all items or none, one order, one journal entry. |
| Market.MarketStore.Cancel | examples/live-market/marketStore.js:34-53 | The script performs exactly the specified cancellation. |
| Market.PlaceConserves | examples/live-market/marketStore.js:16-31 | A placement moves stock into exactly the new order and never below zero. |
| Market.CancelConserves | examples/live-market/marketStore.js:41-52 | A cancellation returns exactly the order's items. |
| Market.RunConserves | examples/live-market/marketStore.js:3-72 | Over every run, for every product, stock plus what placed orders hold is what was seeded, and stock is never negative. |
| Market.RunSettles | examples/live-market/marketStore.js:3-72 | Over every run journal entries, orders, checkouts and cancellations are never undone, and fulfilment versions only rise. |
| Market.PlaceRetry | examples/live-market/marketStore.js:94-108 | A placement retried with its key at any later time changes nothing and repeats its first answer. |
| Market.CancelRetry | examples/live-market/marketStore.js:164-170 | So does a cancellation. |
| Market.RestockedOnce | examples/live-market/marketStore.js:45-52 | An order is restocked at most once. |
| Market.PlacementAnswers | examples/live-market/marketStore.js:10-31 | A placement finds its checkout's order if there is one, creates one exactly if there is none and every item is in stock, and otherwise names the first item that is not; only a created order changes more than the journal. |
| Market.CheckoutOnce | examples/live-market/marketStore.js:10-15 | A checkout brings one order: after any run, a later placement of its session finds that order, as it then stands, and changes nothing but the journal. |
| Market.OnlyOwnerCancels | examples/live-market/marketStore.js:41-52 | An order is cancelled exactly if it is placed and the phone is its own; each refusal is given exactly for its reason. |
| Market.RunLists | examples/live-market/marketStore.js:29-29 | Over every run, the listing of every phone names exactly its orders, the latest first. |
| Market.SeededConserves | examples/live-market/marketStore.js:84-88 | From the seeded market on, every run conserves the seed. |
| Market.VersionsRise | examples/live-market/marketStore.js:55-72 | An update is taken exactly when it has a higher version than the one before and a new event id, and the order is still placed; any other update changes nothing. |
| Market.UpdateAnswers | examples/live-market/marketStore.js:55-72 | Which of the five refusals an update gets: its order is missing, it is older, it is the one recorded, it clashes with that one, or the order is closed. |
| Market.LatestUpdateStands | examples/live-market/marketStore.js:55-72 | A placed order ends up with the latest of the updates delivered for it, and nothing else changes. |
| Market.UpdatesConverge | examples/live-market/marketStore.js:55-72 | However the same updates are ordered and repeated, a placed order ends up the same. |
| OrderTexts.IdReads | examples/live-market/marketStore.js:22-22 | The printed identifier is an M and at least five digits, whose value is the order's number. |
| OrderTexts.PlacedReads | examples/live-market/app.js:139-139 | Read back from its text, a confirmation names exactly its order and states exactly its total. |
| OrderTexts.CancellationsRead | examples/live-market/app.js:136-138 | So do the texts about a cancelled and a withdrawn order. |
| OrderTexts.TextsDiffer | examples/live-market/provider.js:11-15 | Texts about different orders, or confirmations of different totals, are different. |
| Recovery.KeyUsedAcrossLives | examples/live-market/marketStore.js:3-9 | A handler that has not acted finds its idempotency key used exactly when a request of another record lifetime acted under the same identity, takeovers included. |
| Recovery.EventKeeps | examples/live-market/provider.js:5-16 | Every protocol step, effect, late effect, recovery and foreign trade keeps the end-to-end invariant. |
| Recovery.OneCreation | examples/live-market/marketStore.js:3-32 | A transaction brings at most one order into the market, under a key it finds unused, and journals it. |
| Recovery.OneOrderPerKey | examples/live-market/marketStore.js:94-120 | Over every run with crashes, take-overs, late effects, lapsed records and other customers: two orders brought in under one key are one order, and it is the one the journal names; stock is conserved. |
| Recovery.CommittedAnswersAreReal | lib/TurnGateway.js:88-117 | Every committed answer of a checkout or withdrawal, original or recovered, reports the journalled result, and the order read back from its text is exactly the journalled one, which exists. |
| Recovery.ExactTotals | examples/live-market/marketStore.js:100-119 | Over all lifetimes, the total read back from a committed answer to a created order is the stored one if and only if it is a recovery's answer or the handler's own total is the stored one; so it is whenever the handler found its key unused, and in the first lifetime. |
| Recovery.EndedCheckoutHasOrder | examples/live-market/app.js:122-140 | A checkout answered with END names, in its text, an order that exists. |
| Recovery.RecoveryMatchesHandler | examples/live-market/provider.js:5-16 | Over one journal a recovery gives the handler's own text for a checkout, or cannot tell. |
| Recovery.WithdrawalRecoveryMatchesHandler | examples/live-market/provider.js:13-14 | Over one journal a recovery always gives the handler's own text for a withdrawal. |
| Recovery.OwnOrdersOnly | examples/live-market/marketStore.js:122-133 | An order found again, by the handler or by a recovery, is answered for, by its own name, only to the phone it was placed from. |
| Recovery.StatesPickup | examples/live-market/app.js:139-139 | Any answer, a handler's or a recovery's, that states a total also states the session's own pickup point. |
| Recovery.WithdrawsOwn | examples/live-market/app.js:158-168 | A withdrawal touches the market exactly if the order viewed is the caller's own, and then no other order. |
| RecoveryRuns.LateEffectIsRecovered | lib/TurnGateway.js:88-117 | A run in which the first owner performs its effect after the take-over: it is the only order, and the recovery's committed answer reports it. |
| RecoveryRuns.ReplayMisstates | examples/live-market/marketStore.js:119-119 | A run over two record lifetimes whose second committed answer states another total than the stored order's. |
| MetricEvents.ConsistentSubset | lib/MetricEvents.js:104-162 | Leaving evidence out never makes a batch inconsistent. |
| MetricEvents.LocalCheckSuffices | lib/MetricEventBuffer.js:100-104 | A new event consistent with its session and with the holders of its logical identifier is consistent with everything held. |
| MetricEvents.DetailUnique | lib/MetricEvents.js:157-178 | The evidence determines every field of a session's detail. |
| MetricEvents.SummaryUnique | lib/MetricEvents.js:186-200 | The evidence determines the summary. |
| MetricGroups.Deduplicate | lib/MetricEvents.js:102-110 | The first loop keeps one event per identity and counts the rest; it fails exactly on an invalid event or on two events claiming one identity. |
| MetricGroups.GroupBy | lib/MetricEvents.js:88-119 | Every event of a kind is in the group of its key, once, and nothing else is. |
| MetricGroups.CheckUniform | lib/MetricEvents.js:122-133 | The group-wise check passes exactly when all groups agree, and counts the surplus envelopes. |
| MetricGroups.CheckBusiness | lib/MetricEvents.js:128-131 | The business check passes exactly when each operation keeps one session and flow, and counts repeated bodies. |
| MetricGroups.CountReps | lib/MetricEvents.js:134-143 | Counting a field over one envelope per operation counts operations, whichever envelopes were picked. |
| MetricTimeline.CheckPositions | lib/MetricEvents.js:136-141 | The set of seen keys detects exactly a shared position. |
| MetricTimeline.SortByPosition | lib/MetricEvents.js:149-149 | Sorting gives the same turns in strictly increasing positions. |
| MetricTimeline.ChronologyByLine | lib/MetricEvents.js:150-150 | Comparing neighbours finds exactly the pairs of turns whose times contradict their positions. |
| MetricTimeline.RetriesByLine | lib/MetricEvents.js:147-156 | Counting neighbours on the sorted lines counts every turn that repeats the state of the validation error just before it. |
| MetricSessions.StartsByGroup | lib/MetricEvents.js:157-162 | The per-session start checks are exactly agreement of starts and no evidence before the start. |
| MetricSessions.LatestIs | lib/MetricEvents.js:169-169 | The reduction finds the latest of the start and the turns. |
| MetricSessions.DisputedIs | lib/MetricEvents.js:166-168 | The length comparisons detect exactly disagreeing or same-time provider closures. |
| MetricSessions.Judge | lib/MetricEvents.js:170-174 | Stated reasons decide a session's outcome, then any closure, then inactivity. |
| MetricSessions.DetailOf | lib/MetricEvents.js:163-177 | A session's detail is the one its evidence determines. |
| MetricTallies.SortDetails | lib/MetricEvents.js:179-179 | The same details in order of session identifier. |
| MetricTallies.CountBusiness | lib/MetricEvents.js:181-184 | Counting verdicts counts operations whose outcomes agree on one value, or disagree. |
| MetricTallies.CountOrphans | lib/MetricEvents.js:185-188 | Orphans are exactly the evidence of sessions without a start. |
| MetricAggregate.ChecksAreConsistency | lib/MetricEvents.js:120-162 | The checks made by group, position, line and session together are pairwise consistency of the batch. |
| MetricAggregate.CheckAll | lib/MetricEvents.js:112-178 | The checks fail exactly on inconsistent evidence and leave behind what the counts need. |
| MetricAggregate.Aggregate | lib/MetricEvents.js:98-201 | Aggregation fails exactly on unacceptable batches and otherwise returns the summary the evidence determines. |
| MetricAggregate.OrderDoesNotMatter | lib/MetricEvents.js:98-201 | Whether aggregation fails and what it returns are the same for every order of the input. |
| MetricAggregate.RedeliveryCountsOnly | lib/MetricEvents.js:102-110 | Delivering events again raises only the duplicate count, and fails exactly when the batch becomes too large. |
| MetricOutcomes.RefusedExactly | lib/MetricEvents.js:98-162 | Aggregation refuses a batch exactly for an inactivity period that is not positive, more than 100000 events, an ill-formed event, two events under one identity, or two events up to the time of reckoning that contradict each other, each spelled out. |
| MetricOutcomes.OutcomeIsEvidence | lib/MetricEvents.js:163-174 | A session is completed, cancelled or expired exactly if that is the one reason stated; unknown exactly if it was closed otherwise; abandoned or open exactly if it was never closed and has, or has not, been quiet for the period. |
| MetricOutcomes.SessionsCounted | lib/MetricEvents.js:180-180 | Each session count is the number of started sessions whose evidence comes to that outcome. |
| MetricOutcomes.LastStateIsEvidence | lib/MetricEvents.js:176-176 | A session was last where its final turn led, or stayed if that led nowhere. |
| MetricOutcomes.ErrorsAreClassified | lib/MetricEvents.js:58-60 | Every failed turn has one error class: the classes add up to the errors and validation errors, and the latter are all in the class of that name. |
| MetricBuckets.UniqueRepresents | lib/MetricReporting.js:61-66 | The Maps keyed by operation leave one value of each request and turn. |
| MetricBuckets.FillFlows | lib/MetricReporting.js:68-102 | The buckets are exactly the versions that occur, each with exactly its own turns, requests, sessions and outcomes. |
| MetricStates.FillStates | lib/MetricReporting.js:75-97 | The rows are exactly the states met, reached or exited, each with exactly its own turns, sessions and exits. |
| MetricStates.VersionsAre | lib/MetricReporting.js:82-101 | The flow rows are determined by the evidence. |
| MetricStates.RowsAre | lib/MetricReporting.js:83-97 | The state rows are determined by the evidence; an exit opens a row of its own only for a session without turns. |
| MetricReport.CountRetries | lib/MetricReporting.js:37-50 | A row's retries are the turns that retry another turn of the row. |
| MetricReport.SummarizeTurns | lib/MetricReporting.js:35-55 | A row's turn summary counts its outcomes, errors, retries and durations. |
| MetricReport.BackendIs | lib/MetricReporting.js:53-53 | Backend errors are exactly the errors of storage, provider and handler. |
| MetricReport.MeanWithinRange | lib/MetricReporting.js:26-26 | The average duration of a row lies between the shortest and the longest. |
| MetricReport.BuildReport | lib/MetricReporting.js:58-124 | A report is produced exactly when aggregation succeeds and the rows fit the limits, and its rows are those of the evidence. |
| MetricDecomposition.RetriesAtMostErrors | lib/MetricEvents.js:151-155 | Retries never exceed validation errors: each retries a different one. |
| MetricDecomposition.RetriesDecompose | lib/MetricReporting.js:35-55 | Retries summed over flow rows, summed over state rows and counted globally are one number, at most the validation errors. |
| MetricDecomposition.TurnsByFlow | lib/MetricReporting.js:104-112 | Turns, their outcomes and their errors are partitioned by flow. |
| MetricDecomposition.TurnsByState | lib/MetricReporting.js:114-119 | Turns, their outcomes and their errors are partitioned by state. |
| MetricDecomposition.LatencyAgrees | lib/MetricReporting.js:22-28 | Total durations agree by flow and by state. |
| MetricDecomposition.RequestsByFlow | lib/MetricReporting.js:105-109 | Requests and their outcomes are partitioned by flow. |
| MetricDecomposition.SessionsByFlow | lib/MetricReporting.js:29-34 | Sessions and their outcomes are partitioned by flow. |
| MetricDecomposition.BusinessByFlow | lib/MetricReporting.js:98-111 | Business operations, and those completed, cancelled, failed or disputed, are partitioned by flow. |
| MetricDecomposition.ExitsByState | lib/MetricReporting.js:91-97 | Session exits, by outcome, are partitioned by state. |
| MetricDecomposition.ExitsWithinReached | lib/MetricReporting.js:114-119 | No state loses more sessions than reached it. |
| MetricDecomposition.ReachedByOutcome | lib/MetricReporting.js:115-117 | The sessions that reached a state are split by outcome without loss, and those it lost are among them, outcome by outcome. |
| MetricBufferInvariant.CohortDecides | lib/MetricEventBuffer.js:100-104 | The check of one cohort passes exactly when everything then held is consistent. |
| MetricBufferInvariant.BeginKeeps | lib/MetricEventBuffer.js:63-70 | Reading the clock and pruning, in any order of sessions, keeps the books. |
| MetricBufferInvariant.RecordKeeps | lib/MetricEventBuffer.js:71-110 | Recording keeps the books, whatever the verdict. |
| MetricBufferInvariant.DeletedKeeps | lib/MetricEventBuffer.js:124-133 | Deletion keeps the books. |
| MetricBufferInvariant.StepKeeps | lib/MetricEventBuffer.js:33-143 | Every call keeps the invariant: balanced counters, exact session table, disjoint tombstones, bounds, consistency and budget. |
| MetricBufferTheorems.BooksBalance | lib/MetricEventBuffer.js:46-108 | After every call accepted = held + evicted + deleted, the byte count is the sum held, the session table is exactly the held sessions with their earliest times, disjoint from the tombstones, and all bounds hold. |
| MetricBufferTheorems.RowsBudgeted | lib/MetricEventBuffer.js:92-99 | Every row a report can open was counted when its events were admitted. |
| MetricBufferTheorems.ReportingNeverFails | lib/MetricEventBuffer.js:111-117 | In every reachable state aggregation and report of the held events succeed. |
| MetricBufferTheorems.DeletionIsPermanent | lib/MetricEventBuffer.js:124-133 | After deleteSession no later state holds an event of the session, even after tombstone overflow or clear. |
| MetricBufferTheorems.ClearingIsPermanent | lib/MetricEventBuffer.js:134-143 | After clear or close nothing is ever held again. |
| MetricBufferTheorems.EvictionIsPermanent | lib/MetricEventBuffer.js:63-70 | After a session is evicted at time t no event of it dated at or before t is held again, even if the clock runs backwards. |
| MetricBufferTheorems.DenialBars | lib/MetricEventBuffer.js:59-62 | Until a denial's end no event of the session is kept, whether it got a tombstone or the buffer was sealed for want of one. |
| MetricBufferTheorems.CurrentSnapshotIsPrefix | lib/MetricEventBuffer.js:156-159 | While the generation is the snapshot's, its events are a prefix of those held. |
| MetricBufferAdmission.JudgedExactly | lib/MetricEventBuffer.js:76-104 | For every verdict an if-and-only-if on what is held and what is offered: kept exactly if open, well-formed, in the vocabulary, not denied, timely, of a new identity, with room and rows to spare and in agreement with everything held; room means fewer events than the limit, bytes that fit, and a session held already or one more than are held. |
| MetricBufferAdmission.KeptExactly | lib/MetricEventBuffer.js:71-110 | Over every run, an offered event is added to what pruning left if and only if it meets those conditions, and otherwise nothing is. |
| MetricBufferAdmission.PrunedExactly | lib/MetricEventBuffer.js:63-70 | Whatever order it visits the sessions in, pruning leaves exactly the events of sessions whose earliest event is still retained. |
| MetricBufferCauses.DenialHasCause | lib/MetricEventBuffer.js:59-70 | Over every run, a session is denied only because a call deleted it, or evicted it one retention before the denial ends. |
| MetricBufferCauses.DenialsEnd | lib/MetricEventBuffer.js:64-64 | Once a call has read the clock, no denial that has ended is left. |
| MetricBufferCauses.SealHasCause | lib/MetricEventBuffer.js:59-62 | Over every run, the buffer is sealed only because it was cleared or closed, or had no room for a denial. |
| MetricBufferCauses.ClosedExactly | lib/MetricEventBuffer.js:140-143 | Over every run, the buffer is closed if and only if it was told to close. |
| MetricBufferCauses.SnapshotsInvalidated | lib/MetricEventBuffer.js:69-69 | A call invalidates earlier snapshots exactly if it deletes a session or evicts one that has events. |
| MetricBufferCauses.OffersCounted | lib/MetricEventBuffer.js:71-110 | Over every run, each event offered is counted once, as accepted, as a duplicate or as rejected. |
| MetricBufferCauses.OfferMoves | lib/MetricEventBuffer.js:71-110 | Exactly which counters an offered event moves, whatever the clock and the state. |
| MetricEventBuffers.MetricEventBuffer.constructor | lib/MetricEventBuffer.js:16-32 | A new buffer is the empty state and valid. |
| MetricEventBuffers.MetricEventBuffer.Remove | lib/MetricEventBuffer.js:51-58 | The loop removes exactly the session's events and their bytes. |
| MetricEventBuffers.MetricEventBuffer.PruneAll | lib/MetricEventBuffer.js:63-70 | Pruning as specified, in the order the sessions are visited. |
| MetricEventBuffers.MetricEventBuffer.FitsBudget | lib/MetricEventBuffer.js:93-99 | The loop decides exactly whether the rows fit the report's limits. |
| MetricEventBuffers.MetricEventBuffer.Record | lib/MetricEventBuffer.js:71-110 | The verdict is the one that the event, the pruned books and the limits call for, by the if-and-only-ifs of admission; a kept event is added and nothing else is, and the books change accordingly. |
| MetricEventBuffers.MetricEventBuffer.DeleteSession | lib/MetricEventBuffer.js:124-133 | The session is erased for good, or nothing happens when the clock is unusable. |
| MetricEventBuffers.MetricEventBuffer.Clear | lib/MetricEventBuffer.js:134-139 | Everything local is erased and ingestion sealed. |
| MetricEventBuffers.MetricEventBuffer.Close | lib/MetricEventBuffer.js:140-143 | Clearing, then closed. |
| MetricEventBuffers.MetricEventBuffer.TakeSnapshot | lib/MetricEventBuffer.js:111-117 | A snapshot of an open buffer with a good clock always carries the report of exactly the events held. |
| MetricEventBuffers.MetricEventBuffer.IsCurrent | lib/MetricEventBuffer.js:156-159 | True exactly when the buffer is open, the clock is good and no erasure happened since. |
| FlowAnalysis.ClassifyState | lib/FlowAnalysis.js:17-51 | One state's loop reports each of its five errors exactly when the state has a transition, or a pair of them, of that kind, and follows exactly the declared edges. |
| FlowAnalysis.Traverse | lib/FlowAnalysis.js:53-65 | The worklist ends with exactly the states that have a declared path, each once. |
| FlowAnalysis.Analyze | lib/FlowAnalysis.js:2-92 | Validity, every error code, completeness, labels and dead ends describe the declared graph. |
| FlowAnalysis.ErrorsMean | lib/FlowAnalysis.js:12-51 | Validity and each error code on their own terms: an error is reported exactly if the flow, or the state it names, has the defect. |
| FlowAnalysis.ExitMeans | lib/FlowAnalysis.js:75-80 | A static, non-terminal state that leads on nowhere is a back-only exit exactly if the back key can leave it, and a dead end exactly if not. |
| FlowAnalysis.UnreachableIsFinal | lib/FlowAnalysis.js:66-84 | A state is labelled unreachable exactly when no transitions added out of dynamic or unannotated states can reach it. |
| FlowAnalysis.DeclaredIsLeast | lib/FlowAnalysis.js:53-65 | The declared states are the least set with the entry point that is closed under declared edges. |
| SdkFlow.RunHandler | lib/sdk/compiler.js:100-232 | The compiled handler's steps compute the specified reply. |
| SdkFlow.StoredSession.ProcessInput | lib/USSDStateMachine.js:366-460 | The machine's writes leave the specified session: back navigation, refusals, transitions and completion. |
| SdkFlow.StoredSession.GoBack | lib/USSDStateMachine.js:535-546 | Going back pops exactly the last state and stores it. |
| SdkFlow.WhatIsStored | lib/USSDStateMachine.js:366-460 | What a request stores, by cases on the request alone: nothing when too long or completed, the previous state when it goes back, the same state when refused, and otherwise the state its answer leads to with the state it left on the history; completed exactly by an answer that starts with END. |
| SdkFlow.CompletedStays | lib/USSDStateMachine.js:352-355 | A completed session is not changed by any requests until it expires. |
| SdkFlow.ExpiryForgets | lib/USSDStateMachine.js:366-460 | What follows an expiry depends on nothing before it. |
| SdkFlow.BackUndoes | lib/USSDStateMachine.js:535-546 | Going back undoes a move: state and history are what they were, up to the history's limit. |
| SdkFlow.MostRecentKept | lib/InMemoryStorage.js:129-133 | The history keeps its most recent states, in order, as many as its limit allows. |
| SdkFlow.ExactBeatsWildcard | lib/sdk/compiler.js:136-144 | An exact route beats the wildcard, the wildcard takes what no route names, and an empty input is nobody's. |
| SdkFlow.AnswerIs | lib/sdk/compiler.js:145-167 | What a state answers to an input and where it leads, by the kind of route taken. |
| SdkFlow.MovesShow | lib/sdk/compiler.js:193-211 | A move shows the screen of the state it leads to, unless the route brings a text of its own. |
| SdkFlow.PrefixIs | lib/sdk/compiler.js:33-38 | Every answer carries one of the two words: its own, or else END where the state ends and CON where it goes on. |
| SdkFlow.RoutesDoAsDeclared | lib/sdk/compiler.js:307-310 | In a compiled flow every route is taken on its input and does what its declared transition says. |
| SdkFlow.FlagsAre | lib/sdk/compiler.js:311-314 | Annotations win; otherwise a state is static, and declared terminal exactly as it opens. |
| SdkFlow.StuckStays | lib/FlowAnalysis.js:75-80 | From a state reported to have no exit, no input but the back key leads to another state. |
| SdkFlow.HandlerMovesAreDeclared | lib/sdk/compiler.js:307-314 | A handler moves only along a transition its state declares. |
| SdkFlow.MovesAreEdges | lib/FlowAnalysis.js:17-51 | In a flow without errors every move is an edge the analysis follows. |
| SdkFlow.ProcessKeeps | lib/USSDStateMachine.js:366-460 | One request keeps every stored state, including the back history, declared. |
| SdkFlow.StoredStatesAreDeclared | lib/USSDStateMachine.js:366-460 | For a valid flow, over any inputs, refusals, back navigation and expiries, every state ever stored is labelled declared. |
| SdkFlow.AnalysisCoversRuns | lib/FlowAnalysis.js:70-84 | The same in the analysis's own output. |
| SdkFlow.TerminalStateEscapes | lib/USSDStateMachine.js:435-452 | Validity is needed: an invalid flow whose machine stores a state labelled unreachable. |
| SessionMutex.SessionLocks.Acquire | lib/USSDStateMachine.js:134-139 | A request is refused when aborted, takes a free lock, or waits. |
| SessionMutex.SessionLocks.Resume | lib/USSDStateMachine.js:141-157 | A woken waiter is refused when aborted, takes a free lock, or waits again. |
| SessionMutex.SessionLocks.Abort | lib/USSDStateMachine.js:145-153 | An abort removes exactly one waiter, or is noticed when a woken one resumes. |
| SessionMutex.SessionLocks.Release | lib/USSDStateMachine.js:164-170 | Release frees the session, wakes every waiter of it and touches no other request. |
| SessionMutex.HeldOrRunnable | lib/USSDStateMachine.js:134-170 | In every state: at most one holder per session, and no wakeup is lost, for an unheld session has no waiter left. |
| SessionMutex.WokenTakesFree | lib/USSDStateMachine.js:141-157 | A woken request takes a free session as soon as it runs. |
| SlidingWindow.SlidingWindowRateLimit.Check | lib/SlidingWindowRateLimit.js:46-66 | A request is admitted exactly when fewer than the limit are still counted; pruned buckets never change the count. |
| SlidingWindow.SlidingWindowRateLimit.Cleanup | lib/SlidingWindowRateLimit.js:140-158 | The periodic cleanup changes nothing observable. |
| SlidingWindow.SlidingWindowRateLimit.Reset | lib/SlidingWindowRateLimit.js:169-171 | A reset forgets exactly one key. |
| SlidingWindow.AtMostMaxPerSpan | lib/SlidingWindowRateLimit.js:88-117 | Never more than the limit in a span one sub-window shorter than the window. |
| SlidingWindow.RefusedOnlyWhenFull | lib/SlidingWindowRateLimit.js:46-66 | Never a refusal unless the limit was admitted within the last window. |
| SlidingWindow.BoundedSpans | lib/SlidingWindowRateLimit.js:88-117 | Exactly which spans are bounded, for all limits and windows; the documented bound per window holds only for sub-windows of one tick. |
| SlidingWindow.CountedAtMostMax | lib/SlidingWindowRateLimit.js:88-99 | What is counted never exceeds the limit. |
| SlidingWindow.ResetTimeIsExclusive | lib/SlidingWindowRateLimit.js:123-134 | A client refused now is admitted exactly after the reported reset time. |

## Left out

- TurnProcess.Gateway.Process: runs one call without interference; interference is TurnProtocol's subject. The abort timer, the ownership monitor and notifications after the commit are not modelled.
- TurnProcess.Gateway.Take: likewise one call without interference.
- RedisTurns.RedisTurnStore.Read: a ledger without a snapshot is presented as no session, where READ returns an object of null fields; only a recovery reads such a ledger, and recoverTurn treats both alike.
- Market.PlaceRetry: is about the script's result; the total that the caller adds to its answer is Recovery's subject.
- MetricDecomposition.LatencyAgrees: covers counts and sums; minimum, maximum and percentiles are not modelled, since the percentile index is computed in floating point.
- MetricReport.SummarizeTurns: rates, and the minimum, maximum and percentiles of durations, are left out.
- MetricReport.BuildReport: rates are left out, and rows are a map, so their order in the output is not modelled.
- MetricEventBuffers.MetricEventBuffer.Record: the counters of the individual refusal reasons are one counter.
- MetricEventBuffers.MetricEventBuffer.IsCurrent: the abort signal of an export is not modelled.
- SdkFlow.RunHandler: saved inputs and session data are left out.
- SdkFlow.StoredSession.ProcessInput: session data, flow versions, middleware and observers are left out.
- SlidingWindow.BoundedSpans: takes clock readings at single ticks; with readings in whole milliseconds it applies directly when precision divides the window, otherwise it is an upper bound only.
- EventStore.SessionEvents.Accept: the event record does not lapse while accepts run, so a retry never finds it gone.
- Redis, MongoDB and PostgreSQL clients, HTTP servers, the workbench and the keypad: input and output.
- Hashing, HMAC, UUIDs and encryption: assumed injective and fresh.
- Marketplace order lookup followed by a cancel script is one step; order identifiers are numbers printed with five digits.
- Size limits (maxRecordBytes, the 2048-byte event limit), the wire parsing and field limits of the adapter, and formatResponse's budgets and its checks for control characters and blank text.
- The event schema's field syntax (identifier, state and version patterns); identifiers and times are numbers, and the outcome and error rules are kept.
- The exporter of flush is an observer; its deadline and failure counters are not modelled.
- Custom handlers in SDK flows (the analysis marks them dynamic), session data, saved inputs, flow versions, middleware and lifecycle hooks.
- Diagnostics of the flow analysis beyond errors, reachability and exits; diagrams, loggers, metrics exporters and translations.
