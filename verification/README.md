# Delivery, retry and dead-lettering: a verified model

A Dafny model of an AMQP worker library: how workers declare their queues, share one channel, run handlers, retry failures
through a TTL queue and give up into a dead-letter queue. `dafny verify dfyconfig.toml` checks all of it.

The centre is `Protocol.dfy`, a step system over a small broker. A state holds the queues, every message copy and where it
is, every delivery with the program point of the task handling it, the channels with the frames on their way, the cached
channel, the workers' start-up states and a clock. Steps are external publishes, the start-up of a consumer, delivery, the
handler's verdict, each await of a handling task (take a channel, publish, settle, fail), the broker processing one frame, TTL
expiry, the two ends of a channel closing, and the return of unacknowledged deliveries. The theorems range over all lists of
steps, so over every interleaving, every channel death and every failed await. What is assumed about the broker is listed
once, at the head of that file.

Around it:

- `Sums`, `Amqp`, `Topics`, `Routing`, `Wire`, `Wrappers`: counting, header values, topic patterns, routing, frames.
- `Pool`, `PoolRace`: the one-slot channel cache, as an object and as racing calls under its mutex.
- `Invariants`, `Effects`, `Ledger`: what every reachable state keeps; `Surroundings`: what publishers, network and broker
  may do in each of them.
- `Accounting`, `Survival`, `Duplicates`, `Scenario`, `Conservation`, `Amplification`, `Attempts`, `Progress`, `Draining`,
  `RetryLife`, `Flight`, `SingleActive`: the theorems about whole runs.
- `Setup`, `Confluence`, `SharedReplies`: topology set-up, alone and interleaved, on a channel of its own and on a shared
  one.
- `Deployment`: from set-ups of any kinds on any exchanges to the routing hypotheses of the run theorems.
- `World`, `Subscriber`, `Startup`, `MessageLoop`, `Service`: the source's set-up, start-up and loop as imperative code,
  each and composed. At every await all other tasks,
  workers, the broker and failing channels take any steps they like; what the code does itself is checked against the
  step system, so the whole is one of its runs.
- `Middleware`, `Visibility`, `Overtaken`: the thread-local headers and timer, alone and in runs of the protocol.

Messages carry two pieces of history that no step reads: the publish they descend from and the queue that accepted them
then, their home. The theorems about messages are stated per accepting queue, so a publish that several queues accepted has
one account in each, with that queue's own limit and delay.

"Isolated" below means: what the retry queue of a worker's queue releases goes back to that queue and nowhere else.
`Deployment` says exactly when that is so.

Three things one might expect of the library do not hold. Duplicates are not only caused by channels that close between
republication and acknowledgement: a task whose channel closed while its handler ran still republishes, on a new channel
(`Scenario.DuplicateWithoutLateClosure`; the exact count is `Accounting.DuplicationExact`, the causes and when the simpler
count is right `Duplicates.DuplicatesByCause`). And although with prefetch 1 every handler finds its own message's headers
even when tasks are spawned (`Visibility.HandlerReadsOwn`), its `after` functions need not (`Overtaken.AfterReadsNextMessage`;
exactly when they do is `Visibility.AfterReadsOwnIff`). And a set-up that succeeds need not have left its retry queue: when
set-ups that disagree share a channel, one's refusal closes it under another's waiting request, whose error then reads like
its own tolerated mismatch (`SharedReplies.RetryQueueGoesMissing`; exactly when all is there,
`SharedReplies.ReadyIffSkippedProvided`; always where set-ups agree, `SharedReplies.AgreedSharesFreely`).

Where the repository's README and its code disagree, the model follows the code: prefetch is not divided among workers
(README.md:394), and middleware `before` functions run after the handler (README.md:471-474).

## Model

| member | source | states |
|---|---|---|
| Amqp.RetryCountRoundTrip | src/subscriber.rs:543-549 | For every limit a u32 can hold, the header written below the limit decodes to one more, without overflow, and is the only header |
| Amqp.RetryCountMeaning | src/subscriber.rs:532-541 | Decoding is total: congruent modulo 2^32 to the signed integer carried, 0 when absent or of another type |
| Amqp.RetryCountOfSigned | src/subscriber.rs:532-541 | A signed value decodes to itself if and only if a u32 can hold it; all others wrap by multiples of 2^32, negatives to the top |
| Amqp.RetryCountOfVariants | src/subscriber.rs:532-541 | 8-, 16- and 32-bit integers decode to themselves, negative ones to 2^32 more, 64-bit ones modulo 2^32, every other value and an absent header to 0 |
| Topics.MatchesIffBlocks | src/subscriber.rs:117-127 | The topic matcher decides exactly the declarative reading of section 3.1.3.3 of AMQP 0-9-1: one word per `*`, any words per `#` |
| Topics.LiteralMatches | src/subscriber.rs:117-127 | A pattern without wildcards matches itself alone |
| Topics.WordsAreUnique | src/subscriber.rs:117-127 | A key has exactly one list of dot-free words that join to it, and that is what the matcher works on |
| Topics.Wildcards | src/subscriber.rs:117-127 | For any words: `a.*` matches `a.b`, not `a` or `a.b.c`; `a.#` matches all three |
| Routing.KindsMatch | src/subscriber.rs:107-135 | On direct exchanges keys match when equal, on fanout ones always, on topic ones exactly when the dot-free words of the binding key can be laid over those of the routing key |
| Routing.SelfKeyMatches | src/subscriber.rs:220-231 | A binding under the routing key itself delivers on direct, fanout and topic exchanges, wildcard words included |
| Routing.DerivedNamesDiffer | src/subscriber.rs:215-216 | `.job`, `.retry` and `.dlq` names are injective and never collide |
| Pool.AcquireHandsOutTheOnlyLiveChannel | src/pool.rs:74-96 | The channel handed out is the only one open; older channels are untouched; it fails exactly when none is live and none can be made |
| Pool.ChannelPool.GetChannel | src/pool.rs:74-96 | The whole effect is one atomic acquisition that keeps the one-live-channel invariant; an error says which of the two suppliers failed, and comes only when the cached channel was dead |
| PoolRace.AtMostOneLiveChannel | src/pool.rs:74-96 | Under any interleaving of calls and deaths: a live channel in anyone's hands is the cached one, at most one is live, channels made are at most one plus deaths |
| PoolRace.RaceRefinesAtomic | src/pool.rs:75-95 | Every step of racing calls is one call of the sequential cache, at that call's point and only there, or one death, or nothing |
| PoolRace.OnePointPerCall | src/pool.rs:75-95 | Each call takes effect at exactly one point, and what its caller is handed, channel or error, is the answer of the sequential cache there |
| PoolRace.AnyoneAnyTime | src/pool.rs:74-96 | In every reachable state any channel may die, stored or not, and any task outside a call may make one |
| PoolRace.CallsComplete | src/pool.rs:75-95 | From every reachable state a waiting caller can get through: handed a channel where the slot is live or one can be made, refused where neither is the case |
| Invariants.NextKeepsInv | src/subscriber.rs:498-625 | Every protocol step keeps the invariant: each copy in one place, one open delivery per copy in flight, frames that tell the truth about their task, an acknowledgement behind its republication on the same channel |
| Invariants.RunKeepsInv | src/subscriber.rs:498-625 | So every reachable state has it, channel deaths and failed awaits included |
| Surroundings.ChannelsCloseAnyTime | src/pool.rs:77-81 | In every reachable state either end of any channel may close without the other, and only the broker's end takes the frames on their way with it |
| Surroundings.WritingNeedsThisEnd | src/subscriber.rs:335-350 | Publishing, settling and setting the limit succeed exactly while this end of the channel is open, consuming exactly while both are |
| Surroundings.ReturnsAnywhere | src/subscriber.rs:498-625 | Any delivery left unsettled on a channel the broker dropped may return at any time to any place in its queue |
| Surroundings.AnyoneMayPublish | src/publisher.rs:41-70 | Any publish is possible at any time; one new copy joins the end of each queue it is routed to and nothing else changes |
| Surroundings.ServedIff | src/subscriber.rs:335-350 | The broker serves a consumer exactly when its channel stands there, a message waits, it has room within its prefetch and, with single active consumer only, all older ones are gone; it gets the message waiting longest |
| Effects.StepHasEffect | src/subscriber.rs:512-610 | What each enabled step does to copies and deliveries, and that it does nothing else to them |
| Ledger.RunLedger | src/subscriber.rs:501-504 | In every run each copy descends from a publish with its payload, and each finished copy was settled by the delivery and in the way recorded |
| Ledger.RunWithin | src/subscriber.rs:213-282 | A message never leaves the queues its workers' retry set-up gives it |
| Survival.NothingLostAt | src/subscriber.rs:220-235 | Isolated or not, queue by queue and by place, in every run: copies of an accepted publish at the queue are at least one plus its deliveries republished but not acknowledged |
| Survival.NoLoss | src/subscriber.rs:521-610 | In every run with deaths and errors anywhere, isolated or not, for every queue that accepted a message: a copy is, payload unchanged, in that main queue or its retry or dead-letter queue, in flight from it, handled successfully there, or refused there by a worker without retry |
| Survival.IsolatedIsGuarded | src/subscriber.rs:220-235 | Isolated queues are among those whose returns come back |
| Accounting.LineSurvives | src/subscriber.rs:521-610 | For an isolated queue that copy is one at home there |
| Accounting.DuplicationExact | src/subscriber.rs:555-602 | Queue by queue, in every run: the copies of a publish at home in an isolated queue are one plus its deliveries republished but not acknowledged |
| Accounting.DuplicationByPlace | src/subscriber.rs:555-602 | The same counted by where the copies are: in the queue, its retry or dead-letter queue, in flight from it or settled there, against the unpaid deliveries from that queue |
| Accounting.Balance | src/subscriber.rs:555-602 | The same for any set of accepting queues together |
| Duplicates.DuplicatesByCause | src/subscriber.rs:544-575 | These debts by cause: channel lost between republication and acknowledgement, acknowledgement under way, republication over another channel; in a settled run the first alone counts the duplicates if and only if no task that republished took its channel after its delivery's was closed at this end |
| Duplicates.StaleIffTookWhileClosed | src/subscriber.rs:544-545 | In every run a task takes another channel than its delivery's exactly when its delivery's was closed at this end by then |
| Duplicates.TakeKeepsChannelIff | src/pool.rs:74-96 | `get_channel` hands a task its own channel exactly when this end still holds that open |
| Duplicates.StaleNeverAcked | src/subscriber.rs:544-575 | A delivery republished over another channel is never acknowledged, whatever follows |
| Duplicates.ClosedChannelNeverAcks | src/subscriber.rs:572-575 | Once the broker has dropped a delivery's channel that delivery is never acknowledged |
| Duplicates.AckFollowsRepublish | src/subscriber.rs:555-575 | An acknowledged failure was republished first, over the delivery's own channel |
| Duplicates.StaleTaskStillForwards | src/subscriber.rs:544-564 | A failed task whose message was already returned still republishes on a fresh channel |
| Scenario.DuplicateWithoutLateClosure | src/subscriber.rs:512-575 | A concrete isolated run, every step taken in turn, with two copies of one message, none lost between republication and acknowledgement and none awaited |
| Conservation.Conserved | src/subscriber.rs:521-603 | Isolated, in every run and for every payload: copies held equal copies accepted, corrected by the republications not yet acknowledged |
| Conservation.PayloadsNeverChange | src/subscriber.rs:501-504 | In any configuration, copies, deliveries and publish frames carry the payload that was published |
| Amplification.InternalDrift | src/subscriber.rs:531-603 | Every internal step is paid for by the remaining weight W(c) = 1 + n W(c+1); exactly so when handlers fail and nothing else does |
| Amplification.Budget | src/subscriber.rs:531-603 | In every run, spent plus remaining is at most the price of the publish plus one full price per delivery returned by a closing channel |
| Amplification.ExactBudget | src/subscriber.rs:531-603 | Equality when every handler fails and the library never does |
| Attempts.FanoutRunsIs | src/subscriber.rs:129-135 | The sum of n^(c+1), c = 0..R, is n times the weight in closed form |
| Attempts.FanoutAmplification | src/subscriber.rs:129-135 | One publish causes at most that sum of handler runs, plus a bounded amount per delivery returned by a closing channel |
| Attempts.RunsAreBounded | src/subscriber.rs:129-135 | However often channels close, that amount is at most what the workers' prefetches allow to be returned: runs are bounded by limit, fan-out, workers and prefetch |
| Attempts.FanoutExact | src/subscriber.rs:129-135 | Exactly that sum when all handlers fail |
| Attempts.MovesAreBounded | src/subscriber.rs:531-603 | Termination: with nothing returned, the steps moving a publish are bounded by its weight |
| Attempts.ExactAttempts | src/subscriber.rs:531-603 | Per isolated accepting queue, its handler always failing: exactly max(0, R - c0) + 1 handler runs with that queue's own limit R, then exactly one dead letter, whatever the other accepting queues do |
| Attempts.ExactAttemptsByPlace | src/subscriber.rs:531-603 | The same counting deliveries from that queue and copies in its dead-letter queue |
| Attempts.NeverMoreThanLimitPlusOne | src/subscriber.rs:531-603 | Per isolated accepting queue, no starting header gives more than R + 1 runs, plus R + 1 per delivery returned by a closing channel |
| Progress.UndrainedCanStep | src/subscriber.rs:498-625 | While channels are open, no task has given up and the queues have consumers, a message not done with leaves the system a step to take, after waiting for a retry delay at most |
| Draining.OwnStepsAreBounded | src/subscriber.rs:498-625 | Without new publishes, start-ups or closures a run takes only a bounded number of further steps, over all publishes together |
| Draining.RunsEndDrained | src/subscriber.rs:498-625 | From every such state finitely many steps and waits, the library failing in none, lead to all publishes drained, and a run whose handlers all failed can stay so |
| Draining.AttemptsComplete | src/subscriber.rs:531-603 | So a message that keeps failing at an isolated queue can always get exactly its max(0, R - c0) + 1 runs there and its one dead letter |
| RetryLife.RetrySpacing | src/subscriber.rs:232-235 | In every run every attempt begins at least the TTL of its own retry queue after the republication before it, whatever the limits and the other accepting queues |
| RetryLife.DeadLetterDelay | src/subscriber.rs:576-590 | A dead letter whose home retries R times failed exactly max(0, R - c0) + 1 times, has no headers, and arrived no earlier than max(0, R - c0) TTLs after its first failure |
| RetryLife.CounterFollowsFailures | src/subscriber.rs:532-549 | Whatever the limits, the decoded count is the published one plus the failures so far; where the home retries R times it never exceeds max(c0, R) |
| RetryLife.HeadReleaseIsExact | src/subscriber.rs:232-235 | In an ordered queue, releasing from the head releases exactly what is due |
| RetryLife.HeadExpiryIsExact | src/subscriber.rs:232-235 | In every run retry queues are ordered, so head-only expiry is exact |
| Flight.PrefetchRespected | src/subscriber.rs:335-350 | Each consumer runs under the prefetch of some configured worker, though qos and consume are not atomic, and what it holds unsettled or had returned never exceeds it |
| Flight.InFlightBound | src/subscriber.rs:370-387 | k workers of prefetch at most p: unfinished tasks, running or stuck, on open and closed channels, never exceed k p |
| Flight.HeldBound | src/subscriber.rs:370-387 | Nor do deliveries unsettled or returned |
| Flight.OneAtATime | src/subscriber.rs:620-624 | One worker of prefetch 1: no two tasks are ever unfinished together, spawned or not |
| SingleActive.SoloDeliversInOrder | src/subscriber.rs:182-185 | Single active consumer and prefetch 1: deliveries in arrival order through failover; of two unfinished tasks the earlier is a leftover of a channel the broker dropped |
| Setup.TtlIsDelay | src/subscriber.rs:218 | The queue's TTL is the configured delay exactly when that is below 2^32 ms, and otherwise differs from it by whole multiples of 2^32 |
| Setup.ServeMeaning | src/subscriber.rs:157-211 | The broker refuses as a mismatch exactly what exists otherwise, as missing exactly a binding that lacks an end; accepting makes this one request hold and nothing else |
| Setup.DeclaresNeverAlter | src/subscriber.rs:137-300 | In any interleaving, nothing that exists is altered or removed |
| Setup.DoneMeansProvided | src/subscriber.rs:641-646 | Whatever a set-up has got past exists, tolerated mismatches included |
| Setup.ScriptFacts | src/subscriber.rs:637-646 | A worker's requests ask for exactly its exchange, queues and bindings |
| Setup.FinishedMeansReady | src/subscriber.rs:302-308 | A finished set-up, in any interleaving with conflicting ones, every reply being to its own request, has left all that the message loop needs |
| SharedReplies.AgreedSharesFreely | src/registry.rs:31-38 | Set-ups that agree run on a shared channel as if each had its own |
| SharedReplies.RefusalSpreads | src/subscriber.rs:237-267 | A request waiting behind another's refusal is never looked at; its set-up goes on exactly when the refusal is a mismatch and the request would have swallowed its own, and otherwise fails |
| SharedReplies.SkippedIff | src/subscriber.rs:237-267 | So what a set-up got past unheard is exactly what it waited with, tolerantly, behind another's mismatch |
| SharedReplies.ReadyIffSkippedProvided | src/subscriber.rs:237-267 | When a waiting request is failed with another's refusal, a finished set-up is ready if and only if everything it got past that way is there all the same |
| SharedReplies.RetryQueueGoesMissing | src/subscriber.rs:237-250 | Two set-ups, one with a tolerated mismatch, for which it is not: the other succeeds without its retry queue |
| Setup.InternalPublishesRoutable | src/subscriber.rs:213-282 | There, retry and dead-letter publishes reach their queue alone and the return key reaches the main queue on every kind of exchange |
| Confluence.SetupsReachTheUnion | src/registry.rs:31-38 | Agreeing set-ups never abort and end in the starting topology plus the union of their requests |
| Confluence.SetupsConfluent | src/registry.rs:31-38 | Any two interleavings end in the same topology |
| Confluence.SetupIdempotent | src/subscriber.rs:641-646 | Running any finished set-up again changes nothing and does not fail, tolerated mismatches included |
| Confluence.FirstDeclarationWins | src/subscriber.rs:157-170 | Without agreement the first declaration of an exchange fixes its kind for good |
| Deployment.CoherentAgree | src/registry.rs:18-46 | Workers of any kinds on any exchanges agree if their names are apart and each exchange is named under one kind, RabbitMQ's own included |
| Deployment.DefaultsAreCoherent | src/utils.rs:4-12 | Workers on the default exchanges of their kinds are coherent if and only if their names are apart |
| Deployment.CoherentDeploys | src/registry.rs:28-46 | On a fresh broker every interleaving of their set-ups ends in exactly what it came with and what they asked for |
| Deployment.QueuesAsConfigured | src/subscriber.rs:174-282 | What a deployment leaves of a worker's queues: its own single-active setting and no expiry on the main queue, return to its exchange under the main queue's name after its delay on `.retry`, nothing on `.dlq` |
| Deployment.SoloIff | src/subscriber.rs:182-185 | The ordering theorem applies to a worker's queue exactly when it asked for a single active consumer and every running worker has prefetch 1 |
| Deployment.BuiltDeliversInOrder | src/worker.rs:314-341 | So from the builders' settings alone: deliveries from such a queue follow arrival order in every run whose failovers return to the head |
| Deployment.ReturnRoute | src/subscriber.rs:220-235 | What a retry queue releases is routed by the worker's exchange under its queue name, and the main queue is among the targets |
| Deployment.IsolatedIffReturnsAlone | src/subscriber.rs:220-235 | Isolation is exactly: every return of a running worker reaches only its own main queue |
| Deployment.ReturnReaches | src/subscriber.rs:195-235 | A return enters exactly the queues of the workers on that exchange one of whose bindings matches the queue name |
| Deployment.IsolatedIffUnheard | src/subscriber.rs:195-235 | Any kinds, any exchanges, any concurrency: isolated if and only if every running, retrying worker is on the nameless exchange or no other worker on its exchange has a binding matching its queue name |
| Deployment.IsolatedQueueIff | src/subscriber.rs:220-235 | One worker's queue is isolated exactly when its returns reach it alone, or it does not retry, or starts no loop |
| Deployment.DeployedIsGuarded | src/subscriber.rs:220-235 | Every deployed worker's queue gets its returns back, nobody else consuming its retry and dead-letter queues |
| Deployment.DeploymentLosesNothing | src/subscriber.rs:521-610 | So any workers on any exchanges, fanout and overhearing ones included, lose no accepted message |
| Deployment.DeployedRealm | src/subscriber.rs:220-235 | Retries never leave the deployed workers' queues, so their runs end drained |
| Deployment.SpecsCount | src/subscriber.rs:370-387 | A deployment has as many message loops as its workers' `concurrency` settings add up to |
| Deployment.LoopsAsConfigured | src/subscriber.rs:310-321 | `concurrency` loops with a spawner, none without one, one without `concurrency`; each with the worker's queue, whole prefetch and limit |
| Deployment.LiteralKeyOverhears | src/subscriber.rs:117-127 | A routing key without wildcard words matches only the queue of that name |
| Deployment.DirectIsolatedIff | src/subscriber.rs:107-115 | Direct workers: isolated if and only if no routing key is a running, retrying worker's key followed by `.job` |
| Deployment.DirectBuilders | src/worker.rs:314-330 | The same in terms of the builders' `queue`, `concurrency` and `parallelize` settings |
| Deployment.BuiltAsConfigured | src/worker.rs:314-341 | Queue and routing key for each kind, a topic worker without a key failing, every other setting passed on |
| Deployment.DeploymentTiming | src/worker.rs:211-216 | Per isolated worker, however many loops it runs, the spacing and attempt theorems hold with the limit and TTL its builder configured |
| Deployment.FanoutRoute | src/subscriber.rs:129-135 | A fanout exchange delivers every key to every worker on it |
| Deployment.FanoutSpread | src/subscriber.rs:220-231 | Failures of n fanout workers return to at most n queues, to all n where all retry |
| Deployment.FanoutDeploymentBounded | src/subscriber.rs:129-135 | n fanout workers with limits at most R: at most the sum of n^(c+1), c = 0..R, handler runs per publish, plus message loops times prefetch times the sum of n^c for channel deaths |
| Deployment.FanoutDeploymentAmplifies | src/subscriber.rs:129-135 | n fanout workers all with limit R, all failing: exactly that sum |
| Subscriber.RequestMoves | src/subscriber.rs:157-170 | One request moves a set-up past it or aborts it, as the branch on the reply decides |
| Subscriber.Subscriber.Send | src/subscriber.rs:188-191 | One request on a given channel: answered exactly if both ends hold it open as it is made, a refusal closing it; otherwise carried out only if it still arrived, and its reply lost |
| Subscriber.Subscriber.Ask | src/subscriber.rs:284-300 | One request on the channel handed out, others acting meanwhile: the reply heard, or an error exactly when none was heard, no channel being to be had or that one being down |
| Subscriber.Subscriber.EnsureExchange | src/subscriber.rs:137-172 | The exchange's declaration, as the script's first request, unless nameless; any reply, a mismatch included, counts as success |
| Subscriber.Subscriber.TryDeclareQueue | src/subscriber.rs:284-300 | One declaration, as a request of the script; the broker's refusal is the error, and any other error means no reply came |
| Subscriber.Subscriber.EnsureQueue | src/subscriber.rs:174-193 | The main queue's declaration, as that request of the script; on success the queue has the worker's own single-active setting |
| Subscriber.Subscriber.EnsureBinding | src/subscriber.rs:195-211 | One binding, as that request of the script, unless nameless; on success it is there, missing ends are an error |
| Subscriber.Subscriber.DeclareTolerantly | src/subscriber.rs:237-267 | Whatever the broker replies is success, reporting whether the queue is as asked; only a request without a reply is an error |
| Subscriber.Subscriber.SetupRetryInfrastructure | src/subscriber.rs:213-282 | Continues the script to its end and yields the retry queue's name exactly when retry is configured; it fails only by a refused binding or a request without a reply |
| Subscriber.Subscriber.PrepareToConsume | src/subscriber.rs:302-308 | Second declaration of the main queue, then the retry set-up, before anything is consumed |
| Subscriber.Subscriber.Build | src/subscriber.rs:637-646 | Out of every reply heard: success means the whole script carried out with none refused for good; a refusal is the last reply heard, where the script alone would have been refused; any other error means the next request went without a reply; the worker does not consume meanwhile |
| Subscriber.BuiltMeansReady | src/subscriber.rs:637-646 | Success leaves all the message loop needs, whatever was there before |
| World.PastGoesOn | src/subscriber.rs:498-625 | What imperative code and its surroundings do goes on as one run of the protocol |
| World.World.Others | src/subscriber.rs:498-625 | While code waits, others take any steps: they may make its republications take effect and settle its deliveries, and leave its tasks where they are |
| MessageLoop.Loop.Outgoing | src/subscriber.rs:532-590 | Chooses queue and headers of the republication exactly as the step system does |
| MessageLoop.Loop.Republish | src/subscriber.rs:543-564 | Taking a channel and writing one frame, anything happening in between, is a run of the protocol; it fails, with the task stuck before anything was sent, only where no channel was to be had or the one it took is closed |
| MessageLoop.Loop.Settle | src/subscriber.rs:572-575 | Acknowledges or refuses on the delivery's own channel, and fails only where that is closed |
| MessageLoop.Loop.ProcessDelivery | src/subscriber.rs:512-618 | One task, spawned or awaited, anything happening at its awaits, is a run of the protocol, ends without error exactly when its settling frame was sent, and fails only because a channel it needed was not there |
| MessageLoop.Loop.NextItem | src/subscriber.rs:498-504 | While it waits the broker delivers; it yields an error where the stream has one, else the earliest delivery not yielded before, and the end only where none is waiting |
| MessageLoop.Loop.ProcessMessages | src/subscriber.rs:498-633 | The loop without a spawner, watched over any events: a run of the protocol in which every delivery yielded is the next one waiting, is treated as its handler said and settled before the next begins; errors of the stream are passed over; it ends only with nothing waiting or at the first failed task, which it leaves unsettled and whose channel was not there |
| Startup.Starter.StartConsumer | src/subscriber.rs:333-350 | Start-up, others acting in between, is a run of the protocol; the consumer that comes up has some configured prefetch, and this worker's own, undivided, if no other worker is starting; it fails only where no channel was to be had or its channel closed |
| Service.Service.RunLoop | src/subscriber.rs:403-455 | One consumer started and its deliveries handled as ProcessMessages says, with the limit the set-up returned and, no other worker starting, the worker's own prefetch |
| Service.Service.Serve | src/subscriber.rs:302-354 | From `build` on: consuming starts exactly after the whole set-up has succeeded and left all the loop relies on; each error has its cause; `concurrency` without a spawner is an error after the set-up |
| Startup.FleetInFlight | src/subscriber.rs:367-387 | A subscriber alone on its pool keeps its unfinished tasks, wherever their channels are, within concurrency times prefetch |
| Middleware.Thread.Before | src/middleware.rs:57-70 | Replaces the start time |
| Middleware.Thread.After | src/middleware.rs:72-90 | Takes the start time if there is one and shows the time since, 0 if the clock went back; otherwise the last one stays |
| Middleware.Thread.RunAfter | src/subscriber.rs:613-615 | All n `after` functions see one elapsed time, measured by the first |
| Middleware.Thread.RunTask | src/subscriber.rs:512-617 | Without interleaving every `after` sees the time from the last `before` to the first `after` and the start time is consumed; when settling failed none runs and the start time stays |
| Middleware.Thread.RunSequentially | src/subscriber.rs:498-625 | Without a spawner, each message with its own clocks and outcome: every handler and every `after` reads its own message's headers and elapsed time, and the first message not settled ends the loop after its handler |
| Visibility.HandlerReadsOwn | src/middleware.rs:43-50 | On one thread: one worker, prefetch 1, spawned or not: in every run of the protocol a handler reads its own message's headers |
| Visibility.StartsBehindSettling | src/subscriber.rs:620-624 | On one thread: there a task starts only once every earlier one has sent its settling frame |
| Visibility.TasksGoOn | src/subscriber.rs:620-624 | In every run a task that is over can return, a spawned one can start at once and an awaited one once its predecessors returned, its handler finding its own headers |
| Visibility.AfterReadsOwnIff | src/subscriber.rs:605-615 | On one thread: there, once settled, an `after` reads its own headers if and only if the newest delivery whose task has started carries the same |
| Visibility.AfterReadsOwnUnlessOvertaken | src/subscriber.rs:605-615 | On one thread: in particular as long as no delivery of other headers has started since |
| Visibility.AwaitedReadsOwn | src/subscriber.rs:622-624 | On one thread: no spawner, one worker, any prefetch: in every run handlers and `after` functions read their own message's headers |
| Overtaken.AfterReadsNextMessage | src/subscriber.rs:605-624 | A concrete run on one thread with prefetch 1 and spawned tasks, every event possible in turn, in which an `after` reads the next message's headers |

## Left out

- Publisher confirms and trace IDs: an initial publish is a step with arbitrary headers that the broker has accepted.
- Connections and their recycling, sockets and executors: a channel is made or refused, and either end may close it at any time.
- `Data<T>`, handler boxing, builder setters, logging, Actix and JSON: a handler is an arbitrary verdict per run.
- `auto_declare = false` and workers of the headers kind: the worker builder never reaches them. RabbitMQ's own headers exchanges only appear as names no worker can declare.
- Recognising "406" in error text: the model has a typed mismatch.
- Dead-letter bookkeeping headers the broker adds: retries publish a fresh table, and only the counter is ever read.
- The topology does not change during a protocol run, also while a worker's set-up is composed with one, and all its channels are those of one pool; other processes appear only as external publishes.
- A consumer stays at the broker until its channel closes, also after its loop ended with an error: the library drops the consumer object, which cancels it; later deliveries to it are a superset of what can happen.
- `SubscriberRegistry::run` and the parallel workers' spawn and join: interleavings of steps, each parallel worker a Service.Service.RunLoop; the joined result is not modelled.
- Workers that start no loop, for want of a spawner or with concurrency 0, are part of a deployment; only the fanout theorems ask all workers on the exchange to run.
- Header visibility on an executor that resumes tasks on other threads, or with several workers or a larger prefetch on spawned tasks: other threads' slots are not modelled, and with several workers any later task's headers can be found.
- The message loop is watched over any finite list of events: errors of its stream, verdicts, and whether a new channel is to be had are inputs, not computed.
- Fairness: that the broker and the executor do take the steps open to them is not modelled.
