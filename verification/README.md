# ParcelLab: a verified model

ParcelLab creates shipments, prices them, and dispatches each of them once. A shipment and its event are
stored in one transaction; a relay carries events from the outbox table to a Kafka topic; a consumer turns
each event into a dispatch row. No single function promises "one dispatch per shipment, at the price quoted":
it follows from how the pieces fit together under crashes, ambiguous commits and publishes, replays, and any
number of relays and consumers. This project states and proves that, and the properties of the code around it.

## How it is laid out

- **Values and contracts**: `Domain`, `Json`, `Decimal`, `Events`, `Pricing`, `ShipmentApi`, `Messages`.
- **The tables**: `Database` gives the schema and, for every transaction of the store, what it does to the
  tables when nothing else runs. `Storage` is the store itself, a class whose methods change rows statement by
  statement and roll back; each method is proved against `Database`. `Server` is the shipment API on top of it.
- **The protocol**: `DispatchTxns` interleaves `RecordDispatch` statement by statement under row locks.
  `Protocol` is the whole system as a transition system: creates, claims, single publishes, commits and
  rollbacks of relays, replays, foreign records, fetching, store calls, offset commits, partition hand-over and
  crashes, each with its ambiguous outcomes. `NoLoss`, `OwnEvents`, `Refinement`, `Ledger`, `Order`, `Liveness`
  and `Confluence` prove properties of every run of it.
- **The processes**: `Handler` (retry loop), `Retry` (its arithmetic), `Consumer` and `Relay` (loops over a
  class `Kafka.Broker` and the store) are the imperative code. `Server.CreateIsAStep`,
  `Relay.PollIsARun`, `Relay.ReplayIsAStep` and `ConsumerRun.TurnIsARun` tie them to the protocol: a call of the
  service, a relay's poll, a replay and a consumer's turn, carried out alone, are runs of it with the same
  effect on topic, tables, positions and committed offsets.
- **The port tool**: `Lines`, `DotEnv`, `Ports`, `Render` and `PortsFixedPoint`.

## Conventions

- The number of partitions is left open; the deployed topic has three (docker-compose.yml:174).
- The topic is one sequence in global append order and a record's offset is its index there. Within a
  partition this is the order of Kafka's own offsets.
- Identifiers are fresh and non-empty when they are drawn (64 random bits in the code); the empty event
  identifier is the code's own mark for "nothing failed".
- A database commit succeeds, fails without effect, or fails to its caller although it took effect; a publish is
  acknowledged, not written, or written without acknowledgment; an offset commit likewise.
- Payloads are JSON values with case-sensitive keys, so equality of a stored and an encoded payload is equality
  of values. Instants are integers, written as a decimal count followed by `Z`.
- 64-bit arithmetic is written out where it can overflow: retry waits, `MaxWait`, the relay's backoff, numbers
  in JSON and in dotenv files.
- Clock, randomness, contexts, faults, probes, the choice of partition and the assignment of partitions are
  parameters, so every statement holds for all of them.

## Where the code and its documentation differ

The model follows the code.

- A duplicate `RecordDispatch` returns the zero `Dispatch`, not one with status pending
  (internal/storage/store.go:302-305 against 318-320).
- Deduplication is `ON CONFLICT DO NOTHING`, not a unique violation (db/migrations/0001_init.sql:35-36).
- "Nothing was claimed or marked" after a storage error of a poll (internal/relay/relay.go:113) is not always
  so. Messages may be on the topic, and when a commit took effect although it was reported as failed the rows
  are marked. `FailedPollLeavesOutbox` says exactly when the outbox is unchanged: claiming failed, the
  transaction had no effect, or there was nothing to claim.
- A future schema that gives a known field another type is malformed, not unsupported
  (internal/events/events.go:104-105); `UnsupportedExactly` says when it is unsupported.
- "Everything else is preserved byte for byte" (tools/ports/ports.go:183) holds, when anything changes, exactly
  for an empty text and one that ends in exactly one newline (`ByteForByteExactly`): afterwards there always is
  exactly one, so a second newline at the end is lost (`SecondNewlineIsLost`) and a missing one is added.
- `MaxWait` is the total wait of an exhausted policy exactly when its product fits 64 bits
  (`MaxWaitIsTotal`); otherwise validation can accept a policy that outlasts its record timeout
  (`OverflowPassesValidation`, `ValidatedWaitsFit`).
- The relay's backoff is the capped doubling exactly when twenty poll intervals fit 64 bits
  (`BackoffIsCapped`).

## Model

| member | source | states |
|---|---|---|
| Refinement.ProtocolRefinesSpec | internal/storage/store.go:95-346 | every run of the whole system, with any number of relays, consumers, crashes, ambiguous outcomes and replays, is step by step a run of a machine that only creates a shipment or dispatches it at most once, after its creation, with its own event and price |
| Refinement.TraceRefines | internal/storage/store.go:95-346 | the same from any state reached by the system's own producers, including where the run ends |
| Refinement.DispatchedAmountIsTariff | pricing/app/pricing.py:39-48 | when quotes come from the pricing service, every dispatched amount is 500 cents plus 100 for each kilogram begun, in USD |
| Refinement.JoinHasOneRow | internal/storage/store.go:155-177 | a shipment that exists joins exactly one outbox row, so the query has exactly one row for it and none for any other |
| Refinement.ObservedExactly | internal/storage/store.go:129-177 | what GetShipment shows is the stored shipment, PUBLISHED exactly when its event row has been marked, DISPATCHED exactly when there is a dispatch row, whose columns it shows; and nothing else is shown |
| Refinement.ObservationsAreMonotone | internal/storage/store.go:129-177 | between two observations of a shipment PUBLISHED stays, DISPATCHED stays with the same identifiers, and the shipment itself is unchanged |
| Refinement.DispatchedIsOnTheTopic | internal/storage/store.go:129-177 | a shipment shown as DISPATCHED has its own event on the topic, also while the outbox shows PENDING |
| DispatchTxns.InterleavingsAreSerial | internal/storage/store.go:310-346 | any statement-level interleaving of any number of RecordDispatch calls leaves the tables, and returns to each caller, what the finished calls give one by one in order of completion |
| DispatchTxns.NoWaitCycle | internal/storage/store.go:311-333 | the event key is taken before the shipment key, so chains of waiting calls have at most three members and never close |
| DispatchTxns.StepOrWait | internal/storage/store.go:311-333 | an open call can make its next statement unless it waits for the key of another one |
| DispatchTxns.SomeCallCanAdvance | internal/storage/store.go:311-333 | while a call is open some call can make its next step |
| NoLoss.NothingCommittedIsLost | internal/consumer/consumer.go:96-146 | in every run, foreign records included, each record below its partition's committed offset decoded, is processed and has a dispatch: nothing that was rejected is ever skipped |
| NoLoss.ProcessedAndDispatchesCorrespond | internal/storage/store.go:310-346 | processed events and dispatches are in bijection by event in every run |
| NoLoss.SafeStep | internal/consumer/consumer.go:96-146 | every step of every process keeps "all records behind a committed offset or a fetch position are processed, except the one at hand" |
| OwnEvents.ConflictIsUnreachable | internal/storage/store.go:328-339 | while CreateShipment is the only producer, a finished RecordDispatch created the dispatch or found it there: no conflict, no missing shipment, no bad amount |
| OwnEvents.RecordsNameTheirShipment | internal/shipmentapi/server.go:118-130 | every record on the topic names a committed shipment at its stored price, and that shipment has exactly this one outbox event |
| OwnEvents.DispatchCarriesStoredPrice | internal/storage/store.go:323-333 | every dispatch row is of the shipment's own event, at the price stored at creation, and the event is on the topic |
| OwnEvents.OwnedStep | internal/storage/store.go:95-346 | every step of the system's own producers keeps tables, topic and open calls consistent, and never removes or re-identifies a row |
| Ledger.CopiesAreConserved | internal/storage/store.go:190-234 | copies of an event on the topic are its mark, plus acknowledged publishes rolled back, plus failed publishes that were written, plus replays and foreign copies, plus at most one acknowledgment still open; it is marked at most once |
| Ledger.ClaimsAreDisjoint | internal/storage/store.go:236-252 | open relay transactions hold distinct pending rows and no row twice |
| Ledger.RowsAreBooked | internal/storage/store.go:210-228 | attempts counts the committed polls that tried the row; a published row has at least one attempt and no error; a pending row has an error exactly when it was tried |
| Ledger.MarkedRow | internal/storage/store.go:210-228 | what a committed poll does to each row: an acknowledged one is marked with its error cleared, the failed one gets the error, each with one more attempt, and no other row changes |
| Ledger.RowsAfterTheFailureAreUnchanged | internal/relay/relay.go:157-177 | rows of a batch after the one that failed stay exactly as they were |
| Order.FirstOccurrencesFollowCreation | internal/relay/relay.go:157-177 | with one relay, no replays and increasing creation times, first occurrences on the topic are the oldest events of the outbox in order, whatever crashes, rollbacks and unacknowledged writes happen |
| Liveness.FaultFreeRunsDrain | internal/storage/store.go:199-252 | from every reachable state, however its processes stop: once one relay and one consumer are started, every fault-free schedule that has ended made exactly ceil(pending / batch size) non-empty polls, left every shipment published and dispatched, and GetShipment shows each as PUBLISHED and DISPATCHED |
| Liveness.EveryReachableStateDrains | internal/consumer/consumer.go:96-114 | from every reachable state there is such a way to rest and on to the end |
| Liveness.SettlingEnds | internal/storage/store.go:199-234 | stopping consumers, rolling back polls and aborting calls brings every state to rest |
| Liveness.SettlingKeeps | internal/storage/store.go:199-234 | coming to rest changes neither tables nor topic |
| Liveness.EveryScheduleDrains | internal/storage/store.go:199-252 | along every fault-free run claims made and batches left add up, and as long as anything is left some step is possible |
| Liveness.NoEndlessSchedule | internal/relay/relay.go:100-135 | no fault-free schedule goes on for ever |
| Liveness.SomeScheduleEnds | internal/consumer/consumer.go:96-114 | a fault-free schedule that finishes everything exists from every such state |
| Liveness.CeilDiv | internal/storage/store.go:236-252 | the number of batches is the pending count divided by the batch size, rounded up |
| Confluence.ConsumingIsConfluent | internal/consumer/handler.go:132-182 | for records of outbox rows in any order and with any repetitions, the dispatches are those of the set of distinct events, identifiers and times aside |
| Confluence.ReadingAgainChangesNothing | internal/consumer/handler.go:132-182 | re-reading records from an earlier offset changes no dispatch |
| Confluence.ReachableDispatchesFollowProcessed | internal/storage/store.go:310-346 | the same in every reachable state of the concurrent system |
| Storage.Store.CreateShipment | internal/storage/store.go:92-113 | both rows exist afterwards or neither was added, by outcome of the commit; an error names the constraint, unless the transaction was lost |
| Storage.Store.RecordDispatch | internal/storage/store.go:310-346 | the event is processed and the dispatch created together or not at all; exact results for new, duplicate, conflicting and refused requests under every commit outcome |
| Storage.Store.ClaimPending | internal/storage/store.go:236-252 | the claimed rows are the oldest pending ones, oldest first, up to the limit |
| Storage.Store.RecordPublished | internal/storage/store.go:210-228 | acknowledged rows are marked, the failed one gets its error, all in one transaction |
| Storage.Store.GetShipment | internal/storage/store.go:155-177 | the row is one of the join's; not found exactly when there is no such shipment |
| Database.ClaimExists | internal/storage/store.go:239-245 | the claiming query always has an answer, whatever is locked |
| Database.ClaimIsAll | internal/storage/store.go:239-245 | a claim shorter than its limit holds every row that nobody has locked |
| Database.CreateTxExactly | db/migrations/0001_init.sql:8-29 | which shipments and events the schema takes together, what their rows say, and which constraint refuses every other pair |
| Database.RecordTxExactly | internal/storage/store.go:310-346 | which requests create a dispatch and what its row says, which are duplicates, which conflict, and which the schema refuses |
| Server.CreateShipment | internal/shipmentapi/server.go:63-95 | a call is answered with the shipment exactly when nothing fails, the parcel weighs 1 gram to 30 kilograms, a 200 answer spells out valid money and the identifiers are new; the shipment is then stored with its event and is what GetShipment shows; any error without an ambiguous commit leaves the tables alone |
| Server.CreateIsAStep | internal/shipmentapi/server.go:63-95 | any accepted call with new identifiers is a step of the protocol, with the same effect on the tables |
| Server.GetShipment | internal/shipmentapi/server.go:98-107 | an empty identifier is refused, anything else is looked up |
| ShipmentApi.AcceptedExactly | internal/shipmentapi/server.go:63-115 | which calls are accepted, and the error of every other one: invalid weight, rejected exactly for 400 and 422, unavailable for any other answer without valid money, or not encodable |
| ShipmentApi.StoredPayloadDecodes | internal/shipmentapi/server.go:118-130 | for every accepted parcel and quote the stored payload decodes to the event encoded, which carries the call's identifiers, instant, weight and correlation identifier and the price |
| ShipmentApi.PreparedIsValid | internal/shipmentapi/server.go:63-130 | what reaches the store has a valid weight and valid money and is made of the call's own data |
| ShipmentApi.PreparedPriceIsTariff | internal/shipmentapi/server.go:110-115 | with the pricing service's own answer the stored price is its tariff |
| Messages.CreatedRowIsPublishable | internal/relay/relay.go:183-198 | every row that CreateShipment stores has a message on the topic shipment.created.v1, keyed by its shipment, with its payload and the three headers, and it decodes to the created event |
| Events.DecodeAcceptsExactly | internal/events/events.go:106-163 | Decode accepts exactly the payloads that spell out a valid event key by key, and returns that event |
| Events.UnsupportedExactly | internal/events/events.go:106-121 | unsupported exactly when every known field is absent, null or of its type, and the event type or version is another one |
| Events.RetypedFieldIsMalformed | internal/events/events.go:106-110 | a payload with any known field of a wrong type is malformed, whatever type and version it claims |
| Events.EncodeDecode | internal/events/events.go:78-163 | an encoded event decodes to itself exactly when it obeys the contract |
| Events.DecodeEncodeDecode | internal/events/events.go:78-163 | whatever was decoded encodes again and decodes to itself |
| Pricing.QuotePrice | pricing/app/pricing.py:26-48 | a weight is priced exactly when it is valid, at 500 cents plus 100 for each kilogram begun |
| Pricing.QuoteAcceptedExactly | internal/pricing/client.go:166-186 | money is accepted exactly from a 200 answer whose body spells it out, with an amount that is not negative and a currency code, and it is accepted as spelled |
| Pricing.QuoteSurvivesTheWire | internal/pricing/client.go:166-186 | the client reads back the price the pricing service computed |
| Handler.Handle | internal/consumer/handler.go:132-189 | for every sequence of attempt results, errors that committed included: outcome, error, number of calls and waits are those the attempts call for, the tables change by at most one RecordDispatch, and the waits are one, two, three and so on times the backoff, stay within MaxWait and reach it when the last allowed attempt is made; a payload that does not decode is unsupported or malformed and touches nothing |
| Handler.Attempts | internal/consumer/handler.go:148-181 | every attempt but the last failed transiently with its context alive and its sleep undisturbed; there is no error if and only if the last one succeeded; one wait follows each attempt but the last, and that one too if it was interrupted asleep |
| Handler.HandlingIsDetermined | internal/consumer/handler.go:148-181 | the attempts determine the report and the tables |
| Handler.OneEffect | internal/consumer/handler.go:148-181 | however many attempts take effect, reported or not, the tables are those of at most one RecordDispatch |
| Handler.OutcomesMean | internal/consumer/handler.go:148-165 | no error exactly when the last attempt was undisturbed and the event is processed; processed when that attempt created the dispatch and duplicate when it did not; conflict exactly when the event is not processed and the shipment or the identifier is taken; failed otherwise |
| Handler.WaitsAreBounded | internal/consumer/handler.go:93-97 | failing with the context alive and no sleep interrupted means that all attempts were made; the waits are within MaxWait while its product fits and equal to it once all attempts were made |
| Handler.DuplicateAfterRecorded | internal/consumer/handler.go:148-165 | once an attempt has recorded the dispatch every later one is a duplicate that changes nothing |
| Retry.MaxWaitIsTotal | internal/consumer/handler.go:93-97 | MaxWait is the total wait of an exhausted policy if and only if its product fits 64 bits |
| Retry.WaitIsLinear | internal/consumer/handler.go:178 | while the product fits the wait after attempt k is k times the backoff |
| Retry.ConfigAcceptedExactly | internal/consumer/consumer.go:47-64 | while the product fits, a configuration passes exactly when it names a broker, allows an attempt, does not wait negatively, gives a record at most 20 seconds and waits for less than that |
| Retry.ValidatedWaitsFit | internal/consumer/consumer.go:47-64 | a validated configuration keeps the waits of a record inside its timeout if and only if that product fits, and a record with its commit fits half the rebalance timeout |
| Retry.OverflowPassesValidation | internal/consumer/consumer.go:60-62 | a policy whose product overflows can pass validation and outlast the record timeout |
| Retry.SleptIsTriangular | internal/consumer/handler.go:93-97 | linear waits add up to the closed form |
| Consumer.Run | internal/consumer/consumer.go:73-114 | turn by turn the next record is handled and its offset committed, until the context ends, the client closes or a turn fails, and for no other reason; committed offsets only go up and never pass an unprocessed record, whatever fails and however partitions move |
| Consumer.TakeTurn | internal/consumer/consumer.go:79-127 | one poll: a partition that comes in resumes at its committed offset and a kept one where it was; exactly the next record of an assigned partition is handed out and processed, or there is none and nothing happens |
| Consumer.TurnGoesUp | internal/consumer/consumer.go:129-146 | no turn lowers a committed offset |
| Consumer.ProcessRecord | internal/consumer/consumer.go:129-146 | the failure, the committed offset and the tables are those that the handler's report and the outcome of the commit call for: an error moves no offset, and an offset moves only past a processed record |
| ConsumerRun.RecordIsARun | internal/consumer/consumer.go:116-146 | processing a record is a run of the protocol with the same effect on tables, committed offsets and the process |
| ConsumerRun.TurnIsARun | internal/consumer/consumer.go:96-146 | a whole turn, with partitions revoked and assigned, is a run of the protocol with the same positions, tables and committed offsets |
| ConsumerRun.CallRuns | internal/storage/store.go:310-346 | a store call carried out alone is its statements one after another, with the same effect and result |
| Consumer.UnreadableIsNeverPassed | internal/consumer/consumer.go:116-127 | no safe offset lies beyond a record that does not decode |
| Relay.PublishBatch | internal/relay/relay.go:157-177 | the batch is sent in order up to the first failure; the result is the acknowledged prefix and that failure; the topic gains exactly those records, and the failed one if it was written |
| Relay.ProcessPending | internal/storage/store.go:199-234 | claim, publish and mark in one transaction, for every outcome of the commit; whatever becomes published was on the topic first |
| Relay.Run | internal/relay/relay.go:100-135 | polls one after another until the context ends; after the k-th poll in trouble in a row (claiming failed, the transaction was not reported as done, or a message of the batch was not acknowledged) the wait is the interval doubled k-1 times and capped at ten intervals; without trouble it is none after a batch and one interval after nothing, and the count starts again |
| Relay.BackoffIsCapped | internal/relay/relay.go:101-125 | the backoff is that closed form for every number of failures if and only if twenty intervals fit 64 bits |
| Relay.BackoffBounds | internal/relay/relay.go:101-125 | the backoff stays between one interval and ten for every number of failures if and only if the cap as computed is at least the interval and can be doubled, which twenty fitting intervals ensure |
| Relay.FailedPollLeavesOutbox | internal/relay/relay.go:110-116 | a poll that reports a failure left the outbox unchanged if and only if claiming failed, the transaction had no effect, or nothing was claimed |
| Relay.PollIsARun | internal/relay/relay.go:137-177 | a relay's poll is a run of the protocol with the same effect on topic and tables |
| Relay.Replay | cmd/replay/main.go:48-64 | any row that has a message is published again, marked or not; a missing or unpublishable one is refused and a publish that is not acknowledged is reported |
| Relay.ReplayIsAStep | cmd/replay/main.go:48-64 | a replay is a step of the protocol |
| Kafka.Broker.Publish | internal/broker/publisher.go:69-113 | a publish is written and acknowledged, not written, or written without acknowledgment |
| Kafka.Broker.CommitRecord | internal/consumer/consumer.go:137-144 | the committed offset becomes the one after the record; a commit that fails may have done so |
| Protocol.AfterCreate | internal/shipmentapi/server.go:63-82 | what CreateShipment prepares with fresh identifiers is never refused by the schema |
| DotEnv.MatchIsThePattern | tools/ports/ports.go:16-18 | reading a line from left to right finds an assignment exactly where the regular expression matches, with the same parts |
| DotEnv.PortNamesExactly | tools/ports/ports.go:18 | names are a capital letter, then capitals, digits and underscores, then _PORT |
| Decimal.ReadByPlace | tools/ports/ports.go:60 | digits count by their place |
| Decimal.PrintIsShort | tools/ports/ports.go:206 | numbers are written without leading zeros |
| Decimal.ReadPrint | tools/ports/ports.go:206 | a number written is read back |
| DotEnv.ParseOverrides | tools/ports/ports.go:70-87 | the loop computes the active assignments, stopping at the first number that does not fit |
| DotEnv.OverridesMean | tools/ports/ports.go:70-87 | parsing succeeds exactly when every active number fits; then each variable has the number of its last active line and no other variable is there |
| DotEnv.ParseSpecs | tools/ports/ports.go:49-68 | the variables of the template in file order, or the first introducing line whose number does not fit |
| DotEnv.SpecsMean | tools/ports/ports.go:49-68 | names are distinct, each default is that of the line introducing the name, and no name is missing |
| DotEnv.SpecsInFileOrder | tools/ports/ports.go:49-68 | entries follow each other like the lines that introduce them |
| Ports.DesiredPorts | tools/ports/ports.go:142-162 | succeeds exactly when all wishes are in range and different; otherwise names the first spec that is wrong and why |
| Ports.NextFree | tools/ports/ports.go:164-178 | the first port in reach that is neither reserved nor taken, the probe failure met before it, or that there is none |
| Ports.Choose | tools/ports/ports.go:101-140 | a choice for every spec, or the first thing that goes wrong and no choice |
| Ports.ChoicesAreSound | tools/ports/ports.go:101-140 | chosen ports are valid, pairwise different and never another spec's wish; a swapped port is the least one above its wish, within the limit, that is neither reserved nor taken; only taken wishes are swapped; the reason says whether the wish is ours, free or taken |
| Ports.GivingUpIsDue | tools/ports/ports.go:164-178 | a spec is given up only when its wish is taken and every port above it within the limit and up to 65535 is taken, wished for or given away; a failing probe is reported only for the wish or the first available port above |
| Ports.SharedPortsExactly | tools/ports/ports.go:101-140 | whatever the specs, two choices share a port if and only if they are for one name and its wish was granted |
| Ports.RepeatedNameSharesAPort | tools/ports/ports.go:118-127 | an input for that: one name with two defaults and nothing taken |
| Render.RenderEnv | tools/ports/ports.go:180-221 | lines of changed variables are replaced in place, variables without a line follow in name order, no change means the same text |
| Render.ReplaceLines | tools/ports/ports.go:199-209 | the pass over the lines replaces exactly those of changed variables and notes which variables have one |
| Render.SortNames | tools/ports/ports.go:210-216 | the missing names, each once, in byte order |
| Render.RenderThenParse | tools/ports/ports.go:180-221 | the rendered text parses to the old active values with the changed ports put in, even with repeated and commented lines |
| Render.RenderKeepsLines | tools/ports/ports.go:180-221 | every other line keeps content and place, changed ones become NAME=port, further NAME=port lines follow in name order, and the text ends in exactly one newline |
| Render.RenderTwice | tools/ports/ports.go:180-221 | rendering twice is rendering once |
| Render.RenderIsDeterministic | tools/ports/ports.go:210-219 | the text is determined by the old text and the changed ports, in whatever order the map of updates is walked |
| Render.ByteForByteExactly | tools/ports/ports.go:180-221 | when anything changes, everything outside replaced and appended lines is kept byte for byte if and only if the old text is empty or ends in exactly one newline |
| Render.SecondNewlineIsLost | tools/ports/ports.go:195-220 | inputs where it is not: a line to replace and two newlines |
| Lines.SplitJoin | tools/ports/ports.go:195-220 | joining lines and splitting the text gives the lines back |
| Lines.JoinSplit | tools/ports/ports.go:195-220 | splitting text and joining the lines gives the text back |
| PortsFixedPoint.Update | tools/ports/main.go:66-130 | a run or a check: the new .env, the number of conflicts and the exit code, or the error, including port variables set in the environment; a check never writes |
| PortsFixedPoint.ConflictsAreSwaps | tools/ports/main.go:94-99 | the number of conflicts is the number of swapped ports |
| PortsFixedPoint.FirstWriteKeepsTemplate | tools/ports/main.go:114-121 | a first write keeps every line of the template in its place, as it is or with the chosen port |
| PortsFixedPoint.OneRunIsEnough | tools/ports/ports.go:101-221 | after one run, another run or check on any machine where each port the file asks for is free or ours succeeds, finds no conflict and leaves the file alone |
| PortsFixedPoint.AvailableFileIsKept | tools/ports/ports.go:101-162 | with all its ports available, a file is left alone if and only if they are different and in range and no port variable is set in the environment |
| PortsFixedPoint.WantsAreChosen | tools/ports/ports.go:107-221 | read back, the file wants for each spec the port that was chosen |
| PortsFixedPoint.CommentedIsNeutral | tools/ports/main.go:114-121 | a template with commented assignments only means the same as an empty .env |

## Left out

- PostgreSQL, Kafka, gRPC and HTTP: only locks, unique keys, atomic commit, append and acknowledgment remain; a publish with the client's own retries is one publish.
- JSON text: payloads are values, so syntax, duplicate keys and invalid UTF-8 are not modelled.
- RFC 3339, time zones and timestamp precision: instants are integers with a decimal text form; as with Go's encoder, some instants (here the negative ones) have none.
- processed_at and the order of rows with equal created_at: the first is never read, the second is any order.
- Metrics, logging, correlation plumbing, the management server, internal/app, internal/config and internal/observability: no invariants.
- toStatus, classify and classifyTransport: each is a switch over library error chains.
- internal/storage/migrate.go applies one migration file once; cmd/smoke drives a deployed stack; tools/protoc, Docker and Makefile build and start it: no property here depends on them.
- internal/app ordering of shutdown and broker start-up checks: a process may stop between any two steps instead.
- Log retention and compaction: the topic only grows.
- Probing and container listing in tools/ports/main.go: the probe is a function from ports to free, taken or error, constant during one selection; the published ports are a set.
- DotEnv.ParseOverrides: works on the lines of the text; the scanner's line-length limit is not modelled, and the carriage return it drops is white space to the pattern anyway.
- Ports.NextFree: adds the limit to the port without 64-bit wrap-around, because the only caller uses 200.
- Handler.Handle: bounds the waits requested; time spent in the store, which the record timeout cuts off, is not modelled.
- ConsumerRun.TurnIsARun: no other call is open meanwhile, and dispatch identifiers are fresh when drawn; interleaved calls are covered by DispatchTxns.
- Consumer.Run: covers finitely many polls with an arbitrary assignment before each; several consumers at once are covered by the protocol.
- Relay.Run: covers finitely many polls by one relay; several relays at once are covered by the protocol.
- Storage.Store.GetShipment: a failing query changes nothing and is not modelled.
- Liveness.FaultFreeRunsDrain: once the relay and the consumer are started no shipment is created and nothing is replayed, because either could go on for ever.
- Events.DecodeAcceptsExactly: keys match exactly; Go's decoder also takes keys in another letter case, and of repeated keys the last, which depends on the order of keys in the text.
- PortsFixedPoint.Update: finding the repository root, reading and writing files, and the deadline just before the write.
- PortsFixedPoint.OneRunIsEnough: when .env is empty it needs a template that means the same as an empty file, because active lines of the template become wishes only with the first write; AvailableFileIsKept says what holds of any file.
