# A verified model of bunmq

bunmq is a Go library over RabbitMQ. This project models three linked parts of it in Dafny and
proves what they promise:

* **The life of a message** around one consumed queue: the broker's main, retry and dead-letter
  queues, a channel with delivery tags, and the dispatcher's treatment of each delivery.
* **Reconnection**: the monitor goroutine of the connection manager, interleaved lock region by
  lock region with user calls and dying connections, and its backoff.
* **Topology and registry**: the declaration of exchanges, queues and bindings, and the ordered
  registry in which a delivery finds its handler.

## How the model is laid out

| file | content |
|---|---|
| `Common.dfy` | optional values, sums over sequences |
| `Queues.dfy` | queue definitions, their builders, derived names |
| `Broker.dfy` | declare and bind calls on a broker, runs of calls that stop at the first error |
| `Topology.dfy`, `TopologyProperties.dfy` | the declaration loops as a class; what their calls add up to |
| `Deliveries.dfy` | headers, the `x-death` list, metadata |
| `Dispatcher.dfy`, `RegistryProperties.dfy`, `DispatcherProperties.dfy` | registration, resolution and processing as a class; what registrations keep; who gets a message and how it is answered |
| `Lifecycle.dfy` | the life cycle as a state machine |
| `LifecycleInvariant.dfy`, `LifecycleSteps.dfy` | its invariant, and that every step keeps it |
| `LifecycleAccounts.dfy`, `LifecycleBounds.dfy` | weights on messages: conservation, handler calls and work as three accounts |
| `LifecycleTheorems.dfy`, `LifecycleTermination.dfy` | the results for all runs, and what fails without their conditions |
| `LifecycleOutcomes.dfy`, `LifecycleRetries.dfy` | where one delivery ends; messages that are retried to the limit |
| `LifecycleLimits.dfy`, `LifecycleRunLengths.dfy` | for which configurations handler calls stay in bounds, messages stay single, and runs end |
| `ConsumeLoop.dfy` | the consuming goroutines and shutdown |
| `Backoff.dfy` | the delays between attempts |
| `Connection.dfy`, `ConnectionProperties.dfy` | the connection manager as a class and as a state machine; its invariants |
| `Recovery.dfy` | the connection manager and the broker together |

Code that updates objects in place is modelled by classes (`QueueDefinition`, `Table`, `Channel`,
`Topology`, `Dispatcher`, `ConnectionManager`) whose methods are proved against functions on
values; the results are then lemmas about those functions. Protocols are state machines: a run is
a sequence of labelled steps, and a result holds for every sequence the machine allows.

The network, the broker's own refusals, handlers and callbacks are free inputs: a `Faults` function
says which calls of a channel fail, `HandlerResult` what a handler returns, `Turn` and `Op` what
happens around a reconnect, `decodesAs` into which types a body unmarshals. A connection can be lost
between any two actions of the consumer; since a lost connection makes the next answer ineffective,
this also covers answers that are sent but never arrive.

## What holds only under a condition

The code does not meet some natural expectations. Each is stated with an input or a run that shows
the failure, and with the exact condition under which the code does meet it. "Without a loss" means
without a lost connection; a queue is "served" if its first registered consumer has a known kind.

| expectation | shown to fail by | holds exactly when |
|---|---|---|
| The length limit of a DLQ stays with the DLQ | `DlqLimitLeaksWithoutADlq` | the queue has a DLQ, a limit of its own, or no DLQ limit: `SharedTableIsTwoTablesExactlyWhen` |
| `WithRetry` moves failed messages to a retry queue (its doc comment) | `RetryAloneHasNoTarget` | a DLQ is enabled too: `RetryCycleNeedsBothFeatures`; otherwise rejected messages are dropped, `RejectGoesWhereTheArgumentsSay` |
| `WithTTL` makes messages expire (its doc comment) | `TtlOfADayIsDropped` | no TTL is asked for: `TtlIsHonouredExactlyWhenNotAsked`; asking changes no call, `TtlIsNeverDeclared` |
| A delivery is answered once | `FailureWithoutDlqIsAnsweredTwice` | the queue has a DLQ, or the handler is not reached or succeeds, or the failure is retried: `SettledOnceExactlyWhen`. A second answer closes the channel, `DoubleAckLosesTheChannel` |
| Without a loss, a message's handler runs at most max(retries, 0) times (once without retry) | `CallsExceedAnyNumber`: without a DLQ, n messages make the last one run n times | the queue has a DLQ, or no retries to make, or is not served: `CallsStayWithinExactlyWhen` |
| A message is in one place only, also with lost connections | `StaleFailureLeavesTwoCopies`: it is in the main queue and in the DLQ | the queue has no DLQ or is not served: `OneCopyExactlyWhen`; and without a loss always, `OneCopyWithoutLoss` |
| Runs without a loss end | `UndecodableCyclesForEver`: the retry limit is checked after decoding | the queue lacks a retry queue or a DLQ, or is not served: `RunsAreBoundedExactlyWhen`; on every queue if bodies are decodable, `EveryCalmRunEnds` |
| Reading a delivery does not panic | `EmptyDeathListPanics` | there is no `x-death` header or it is a non-empty list: `PanicsExactlyWhenDeathsAreMalformed`; the broker's own headers never panic, `MetadataIsRight` |
| `Close` closes the manager | `CloseDuringReconnectIsForgotten` | it finds the manager open: `CloseIsEffectiveExactlyWhenOpen`. So it fails while reconnecting, and for ever after giving up, `GivingUpCannotBeClosed`, which can happen exactly when attempts are limited, `GivesUpExactlyWhenLimited` |
| The wait between attempts grows by `BackoffFactor` | `FactorOfTwoIsIgnored` | the factor is 1.5, or the initial delay is one that never grows: `FactorIsObeyedExactlyWhen`, `RunsObeyTheFactorExactlyWhen`; no run depends on it, `FactorIsNeverRead` |
| Delays grow from the initial delay up to the maximum | `FirstDelayMayExceedTheCap` | the initial delay does not exceed the maximum: `DelaysAreCappedGrowthExactlyWhen` |
| No consumer starts after shutdown | `OneLateConsumerIsPossible` | shutdown finds no goroutine between its check and the start of its consumer: `LateConsumerExactlyWhen` |

## Model

| member | source | states |
|---|---|---|
| `Queues.EveryChainIsWellBuilt` | queue.go:47-122 | After any chain of builder calls the queue keeps its name, and the name used for publishing dead letters is the derived DLQ name if a DLQ was asked for and empty otherwise |
| `Queues.NamesMeetExactlyWhenShadowed` | queue.go:144-154 | Two differently named definitions want a common queue name exactly when one is named like the other's retry queue or DLQ and that feature is on |
| `Queues.LastSettingCounts` | queue.go:53-122 | In every chain of builder calls the last call of each kind counts, with its own numbers |
| `Queues.UnsetFieldsKeepTheirDefaults` | queue.go:47-49 | What no call of a chain asks for is as in a new queue: durable, classic, not deleted, not exclusive, without limits, TTL, DLQ or retry |
| `Queues.QueueDefinition.constructor` | queue.go:47-49 | A new definition is the start of every builder chain |
| `Queues.QueueDefinition.Durable` | queue.go:53-56 | Sets the one field, returns the receiver |
| `Queues.QueueDefinition.Delete` | queue.go:60-63 | Sets the one field, returns the receiver |
| `Queues.QueueDefinition.Exclusive` | queue.go:68-71 | Sets the one field, returns the receiver |
| `Queues.QueueDefinition.WithMaxLength` | queue.go:74-78 | Sets flag and length, returns the receiver |
| `Queues.QueueDefinition.WithTTL` | queue.go:82-86 | Sets flag and TTL, returns the receiver |
| `Queues.QueueDefinition.WithDLQ` | queue.go:91-95 | Sets the flag and the DLQ name, returns the receiver |
| `Queues.QueueDefinition.WithDLQMaxLength` | queue.go:98-102 | Sets flag and length, returns the receiver |
| `Queues.QueueDefinition.WithRetry` | queue.go:107-112 | Sets flag, TTL and retries, returns the receiver |
| `Queues.QueueDefinition.Quorum` | queue.go:119-122 | Sets the flag, returns the receiver |
| `Topologies.Topology.Queue` | topology.go:75-78 | The definition is stored under its own name |
| `Topologies.Topology.Queues` | topology.go:82-88 | Every listed definition is stored under its name, the last of equal names wins, others stay |
| `Topologies.Topology.DeclareExchanges` | topology.go:197-210 | Issues the exchange declarations in list order up to the first error |
| `Topologies.Topology.DeadLetterTable` | topology.go:237-252 | The table handed to the DLQ's declaration carries the dead-letter target and the DLQ's own limit |
| `Topologies.Topology.DeclareQueueAndDlq` | topology.go:237-274 | One table, edited between two declarations, has the effect of two separate tables written down independently |
| `Topologies.Topology.DeclareQueue` | topology.go:218-275 | Retry queue, DLQ and queue are declared in this order with their own argument tables, up to the first error |
| `Topologies.Topology.DeclareQueues` | topology.go:215-279 | The outcome is that of the per-queue calls in some iteration order of the map |
| `Topologies.Topology.BindQueues` | topology.go:283-296 | Issues the queue bindings in list order up to the first error |
| `Topologies.Topology.BindExchanges` | topology.go:300-313 | Issues the exchange bindings in list order up to the first error |
| `Topologies.Topology.DeclareAndBindings` | topology.go:172-194 | No channel: an error and no call. Otherwise the outcome is that of the full plan run up to its first error |
| `Broker.RunStopsAtFirstError` | topology.go:177-191 | The calls made are a prefix of the plan, all of it or ending at the failing call, whose error is returned |
| `TopologyProperties.NoBindBeforeEveryDeclare` | topology.go:177-191 | Whatever call fails, a bind in the log means that every declaration had been accepted before it |
| `TopologyProperties.CallsComeInStages` | topology.go:177-191 | Whatever call fails, the calls made are exchanges, queues, queue bindings, exchange bindings, in this order, and the exchanges in that of their list |
| `TopologyProperties.DefinitionsDeclareInThisOrder` | topology.go:218-275 | A definition declares `<name>-retry` and `<name>-dlq`, as far as asked for, before `<name>` |
| `Broker.RunSucceedsExactlyWhenSpared` | topology.go:177-191 | Calls succeed on any channel exactly when the broker refuses none of them for reasons of its own and they would succeed without such refusals; the outcome is then the same |
| `Broker.DeclarationsSucceedExactlyWhenTheyAgree` | topology.go:200-205 | On any channel a list of declarations succeeds exactly when none is refused for the broker's own reasons and the list agrees with itself and with the broker; it adds exactly what it declares |
| `TopologyProperties.CoherentExactlyWhenNamesAreFree` | topology.go:218-275 | Two definitions wanting the same name always want different arguments, so declaring all queues is consistent exactly when no name is shadowed |
| `TopologyProperties.QueueLoopReachesThePlan` | topology.go:215-279 | For every iteration order and every channel the queue loop succeeds exactly when none of its calls is refused for the broker's own reasons, names are free and the broker agrees; it reaches the broker's state plus a plan that knows no order |
| `TopologyProperties.DeclaringSucceedsExactlyWhenThePlanFits` | topology.go:172-313 | The same for exchanges, queues and bindings together, with bindings joining existing or declared names |
| `TopologyProperties.EveryBindingIsMade` | topology.go:286-310 | After success on any channel the broker holds every binding as defined: from the exchange named as source, to the queue or exchange named as destination, with its key and arguments |
| `TopologyProperties.NewBindingsAreDefined` | topology.go:286-310 | Whatever call fails, a binding that is new on the broker is that of one of the definitions |
| `TopologyProperties.EveryExchangeIsDeclared` | topology.go:200-205 | After success on any channel every exchange is on the broker with its kind, flags and parameters |
| `TopologyProperties.EveryQueueIsDeclared` | topology.go:237-274 | After success on any channel every queue is on the broker with its flags, type, dead-letter target and, unless a limit leaks, length limit |
| `TopologyProperties.EveryRetryQueueIsDeclared` | topology.go:221-230 | Likewise every retry queue, with the retry delay in milliseconds, the number of retries, and the way back to its queue |
| `TopologyProperties.EveryDlqIsDeclared` | topology.go:254-261 | Likewise every DLQ, with its own length limit |
| `TopologyProperties.MillisecondsRoundTowardZero` | topology.go:227 | The retry delay is declared in whole milliseconds, rounded toward zero |
| `TopologyProperties.AbortedRunKeepsTheTarget` | topology.go:172-313 | A run that fails anywhere leaves a state that the same topology still fits, with the same target |
| `TopologyProperties.RepeatedRunsConverge` | connection_manager.go:338-342 | After any number of aborted or complete runs in any iteration orders, the next run succeeds unless one of its calls is refused for the broker's own reasons, and reaches the target of the first; one complete run before gives idempotence |
| `TopologyProperties.LostEntitiesAreRestored` | connection_manager.go:338-342 | If the broker lost any entities and bindings, declaring again restores every planned one, provided that no binding needs a lost name outside the plan |
| `TopologyProperties.DeadLettersHaveAQueueToGoTo` | topology.go:218-275 | Every dead-letter routing key of a planned queue names a planned queue through the default exchange |
| `TopologyProperties.DeclaredDeadLettersArrive` | topology.go:218-275 | Whenever the queue loop has succeeded, on any channel, every dead-letter key it declared names a queue the broker has |
| `TopologyProperties.DispatcherPublishesToADeclaredQueue` | dispatcher.go:592 | For a DLQ-enabled definition built by any chain of builder calls, the name the dispatcher publishes to is a declared queue |
| `TopologyProperties.SharedTableIsTwoTablesExactlyWhen` | topology.go:237-274 | The DLQ's limit is its own; the queue's limit is its own exactly when it has a DLQ, a limit, or no DLQ limit to leak; otherwise both tables are equal |
| `TopologyProperties.DlqLimitLeaksWithoutADlq` | topology.go:250-274 | A definition whose queue is declared with a limit it did not ask for |
| `TopologyProperties.RetryCycleNeedsBothFeatures` | topology.go:240-248 | The queue has a dead-letter key exactly with a DLQ, and it is the retry queue exactly with both features |
| `TopologyProperties.RetryAloneHasNoTarget` | topology.go:240-248 | A definition with retry alone, declared without a dead-letter target |
| `TopologyProperties.TtlIsNeverDeclared` | queue.go:80-86 | Asking for a TTL anywhere in a chain of builder calls leaves all declarations as they are |
| `TopologyProperties.TtlIsHonouredExactlyWhenNotAsked` | topology.go:218-275 | The queue's table carries the TTL asked for exactly when none is; the only table with a TTL is the retry queue's, with the retry delay |
| `TopologyProperties.TtlOfADayIsDropped` | queue.go:82-86 | A definition that asks for a TTL and is declared without one |
| `Deliveries.BuryKeepsOneEntryPerCause` | dispatcher.go:500-541 | The broker's list keeps one entry per queue and reason, the latest death first, and loses no other entry |
| `Deliveries.ExtractReadsTheDeaths` | dispatcher.go:494-541 | Reading what the broker wrote never indexes out of bounds and yields the latest death's count and the oldest death's address |
| `Deliveries.PanicsExactlyWhenDeathsAreMalformed` | dispatcher.go:500-503 | Reading panics exactly when there is an `x-death` header that is not a non-empty list |
| `Deliveries.EmptyDeathListPanics` | dispatcher.go:503 | A delivery whose list of deaths is empty |
| `Deliveries.MissingFieldsHaveDefaults` | dispatcher.go:503-530 | A missing count is read as zero and a missing exchange as empty, while missing keys leave the delivery's own routing key |
| `Dispatchers.Dispatcher.ExtractMetadata` | dispatcher.go:494-541 | The two branches for one and for several deaths both yield the count of the first entry and the address of the last |
| `Dispatchers.Dispatcher.constructor` | dispatcher.go:113-130 | The known queues are the names of the given definitions, each with its last definition; nothing is registered |
| `Dispatchers.Dispatcher.RegisterByType` | dispatcher.go:135-171 | Errors in the source's order; on success one entry is appended |
| `Dispatchers.Dispatcher.RegisterByExchange` | dispatcher.go:174-211 | Errors in the source's order; on success one entry is appended |
| `Dispatchers.Dispatcher.RegisterByRoutingKey` | dispatcher.go:214-251 | Errors in the source's order; on success one entry is appended |
| `Dispatchers.Dispatcher.RegisterByExchangeRoutingKey` | dispatcher.go:254-286 | Errors in the source's order, message types may repeat; on success one entry is appended |
| `Dispatchers.Dispatcher.EvaluateDefByReceivedMsg` | dispatcher.go:543-577 | The search returns the resolution of the queue's entries |
| `Dispatchers.Dispatcher.ProcessReceivedMessage` | dispatcher.go:381-489 | What is sent about a delivery is the action sequence of its verdict; it panics exactly on malformed `x-death` headers |
| `DispatcherProperties.AnswerByOutcome` | dispatcher.go:388-486 | What is sent, action by action, for no consumer, a body that does not unmarshal, the retry limit, and each result of a handler that is reached; a retryable failure is rejected to the broker whether or not there is a DLQ |
| `Dispatchers.SettledOnceExactlyWhen` | dispatcher.go:381-489 | A delivery is answered once, except when its handler runs and fails without a DLQ and without a retry: then twice |
| `Dispatchers.FailureWithoutDlqIsAnsweredTwice` | dispatcher.go:474-486 | A queue, a consumer and a delivery for which that happens |
| `RegistryProperties.EveryRegistryIsWellFormed` | dispatcher.go:135-286 | Over every sequence of registrations keys are known queues, every entry's kind carries exactly the non-empty fields it needs, and of entries with one message type all but the first are by exchange and routing key |
| `RegistryProperties.ResolveIsFirstMatch` | dispatcher.go:553-576 | The handler chosen is the first matching entry, and none is chosen exactly when none matches |
| `DispatcherProperties.ChosenEntryMeetsItsKind` | dispatcher.go:553-576 | The entry chosen agrees with the message in what its kind compares: type, exchange, routing key, or exchange and routing key; no earlier entry agrees in its own; nothing is chosen only if none does |
| `DispatcherProperties.FirstRegistrationGetsTheMessage` | dispatcher.go:135-286 | For every sequence of registrations a message goes to the handler and type of the first accepted registration for its queue that asks for it, and has no consumer exactly if there is none |
| `DispatcherProperties.PointerAndValueCollide` | dispatcher.go:141-153 | A type and a pointer to it count as one message type |
| `RegistryProperties.UnknownKindIsUnreachable` | dispatcher.go:571-573 | No sequence of registrations leads to the branch for unknown kinds |
| `RegistryProperties.ResolutionIsStable` | dispatcher.go:543-577 | Once a message has a handler, no later registrations change it |
| `RegistryProperties.ByTypeSucceedsExactlyWhenApart` | dispatcher.go:135-171 | Registrations by type all succeed exactly when each is acceptable and no two share queue and message type |
| `RegistryProperties.ByTypeOrderDoesNotMatter` | dispatcher.go:148-168 | If they succeed in one order they succeed in every order, with the same handler for every message |
| `LifecycleInvariant.ScriptIsTheDispatchers` | dispatcher.go:381-489 | The actions the life cycle performs one by one are those of the dispatcher |
| `LifecycleInvariant.FreshMetadata` | dispatcher.go:494-541 | A message with the entries of `trips` cycles is read as that count and its first address |
| `LifecycleInvariant.RejectGoesWhereTheArgumentsSay` | topology.go:237-274 | With the declared arguments a rejected message goes to the retry queue, to the DLQ, or nowhere |
| `LifecycleInvariant.RejectionRests` | dispatcher.go:452 | A rejected message enters the retry queue with its rejection counted up and in front |
| `LifecycleInvariant.ExpiryIsFresh` | topology.go:221-230 | A message that expires there is back in the main queue with both entries at its new number of trips |
| `LifecycleInvariant.AnswerSettlesOne` | dispatcher.go:412-486 | When a delivery is answered the open tags up to its own are that one alone |
| `LifecycleSteps.ReachableInv` | dispatcher.go:363-489 | Every run keeps the shape of `x-death`, consecutive open tags and in-order settlement |
| `LifecycleTheorems.MetadataIsRight` | dispatcher.go:494-541 | In every run a delivered message is read without panic, with its completed trips as count and the address of its first publish as origin |
| `LifecycleTheorems.SameConsumerOnEveryTrip` | dispatcher.go:543-577 | On every trip a message is resolved to the consumer chosen for its first delivery |
| `LifecycleTheorems.SettledOnceInOrder` | dispatcher.go:363-365 | On the channel in use tags are settled one by one in order, none twice; the rest is the delivery at hand and the buffer |
| `LifecycleTheorems.MultipleMeansOne` | dispatcher.go:412-486 | Answering with `multiple` settles and leaves the same as without |
| `LifecycleTheorems.DoubleAckLosesTheChannel` | dispatcher.go:474-486 | The second acknowledgement of a failure without DLQ closes the channel and returns all other deliveries to the queue |
| `LifecycleTheorems.EveryMessageIsInOnePlace` | dispatcher.go:381-489 | In every run each published message is in exactly one of main, unacked, held, retry, DLQ, done, lost, plus the copies stale deliveries put into the DLQ; copies need a redelivery |
| `LifecycleLimits.OneCopyWithoutLoss` | dispatcher.go:417-471 | Without a DLQ, without a consumer, or without a lost connection each published message is in exactly one place |
| `LifecycleLimits.OneCopyExactlyWhen` | dispatcher.go:417-471 | Over all runs, lost connections included, that holds exactly without a DLQ or without a consumer |
| `LifecycleTheorems.LossesHaveTwoCauses` | dispatcher.go:388-395 | With retry and DLQ a message is lost only for want of a consumer or by a failed publish to the DLQ |
| `LifecycleTheorems.HandlerCallsAreBounded` | dispatcher.go:417-455 | In every run a message's handler runs at most max(retries, 0) times (once without retry), plus once for each redelivery, and never for what was not published |
| `LifecycleLimits.NoLossKeepsTheAllowance` | dispatcher.go:417-455 | Without a lost connection the handler runs at most max(retries, 0) times if there is a DLQ, and not at all if there are no retries to make or no consumer |
| `LifecycleLimits.CallsExceedAnyNumber` | dispatcher.go:479-486 | Without a DLQ, n messages in a row make the handler of the last run n times without a lost connection, whatever the retries |
| `LifecycleLimits.CallsStayWithinExactlyWhen` | dispatcher.go:417-486 | The bound holds in all runs without a lost connection exactly with a DLQ, or without retries to make, or without a consumer |
| `LifecycleOutcomes.DeliveryEndsByOutcome` | dispatcher.go:381-489 | While its connection holds, a delivery ends where its consumer, body, trips and handler result say, and its handler is called at most once, exactly if it is reached |
| `LifecycleRetries.NothingIsInvented` | dispatcher.go:592-600 | In every run each message in any place is one that was published, unchanged but for its address, deaths and trips |
| `LifecycleRetries.RetriedToTheLimit` | dispatcher.go:417-455 | With retry and DLQ, in every run without a lost connection whose handlers all ask for a retry, a message with a consumer that can decode it has, once all is quiet, been tried exactly max(retries, 0) times and is in the DLQ, unless publishing it there failed |
| `LifecycleRetries.SomeRunRetriesToTheLimit` | dispatcher.go:417-455 | For every such queue, message and number of retries there is such a run |
| `LifecycleTheorems.ProgressIsBounded` | dispatcher.go:417-455 | For every run the steps taken are bounded linearly in the retries per publish, plus 5 for each redelivery and each rejection past the limit |
| `LifecycleTermination.NoLossMeansNoCopies` | dispatcher.go:381-489 | With a DLQ and without a lost connection nothing is redelivered or doubled |
| `LifecycleTermination.RunsEnd` | dispatcher.go:417-455 | With a DLQ and without a lost connection, runs have at most 5 max(retries, 0) + 5 steps for each publish besides the publish; over decodable messages if there is a retry queue, over all messages if not |
| `LifecycleRunLengths.EveryCalmRunEnds` | dispatcher.go:381-489 | On every queue a run without a lost connection has a length bounded by its publishes; over decodable messages if the queue has both retry and DLQ |
| `LifecycleRunLengths.RunsAreBoundedExactlyWhen` | dispatcher.go:405-436 | Without lost connections the length of all runs is bounded by their publishes exactly when the queue lacks retry or DLQ or has no consumer |
| `LifecycleTermination.LossesCostRedeliveries` | dispatcher.go:417-455 | With lost connections, and on every queue, the bound on steps grows by the redeliveries alone |
| `LifecycleTermination.StuckOnlyWhenQuiet` | dispatcher.go:363-489 | On every queue, a run that cannot go on is connected and has nothing waiting, out or delayed |
| `LifecycleTermination.UndecodableCyclesForEver` | dispatcher.go:405-415 | A body that does not unmarshal comes back any number of times without a handler call |
| `LifecycleTermination.StaleFailureLeavesTwoCopies` | dispatcher.go:417-471 | On every queue with a DLQ, for every decodable message with a consumer, a run that leaves it both in the main queue and in the DLQ |
| `ConsumeLoop.ListedExactlyWhileLooping` | dispatcher.go:356-372 | In every interleaving a queue is in `consumeChannels` exactly from its loop's start to the removal after its end |
| `ConsumeLoop.ConsumingGoesOn` | dispatcher.go:331-377 | In every reachable state while the dispatcher consumes, also after a closed delivery channel or a failed call, each goroutine can get to its delivery loop and none can return |
| `ConsumeLoop.ReturnsOnlyThroughItsCheck` | dispatcher.go:332-337 | A goroutine returns only through its check, which finds the dispatcher shut down |
| `ConsumeLoop.ShutdownLetsEveryoneReturn` | dispatcher.go:324-337 | After a shutdown each goroutine can return, wherever it was |
| `ConsumeLoop.OthersStayWhereTheyAre` | dispatcher.go:330-378 | A goroutine's step moves no other goroutine and lists or unlists no other queue |
| `ConsumeLoop.AtMostOneLateConsumer` | dispatcher.go:324-354 | After shutdown each goroutine starts at most one further consumer |
| `ConsumeLoop.LateConsumerExactlyWhen` | dispatcher.go:332-349 | A goroutine can start a consumer after shutdown exactly when shutdown finds it between its check and the start |
| `ConsumeLoop.OneLateConsumerIsPossible` | dispatcher.go:332-349 | A run with a late consumer |
| `Backoff.DelaysAreCappedGrowthExactlyWhen` | connection_manager.go:281-324 | After k failures the delay is the k-th uncapped delay or the cap, for all k, exactly when the initial delay is within the cap |
| `Backoff.FirstDelayMayExceedTheCap` | connection_manager.go:283 | An initial delay that is not capped |
| `Backoff.DelaysNeverDecreaseExactlyWhen` | connection_manager.go:321 | The delay never decreases exactly when the initial delay is from -1 to the cap |
| `Backoff.GrowthEnvelope` | connection_manager.go:321 | Uncapped delays lie between two geometric sequences of ratio 3/2 |
| `Backoff.CapIsReachedInLogTime` | connection_manager.go:281-324 | From a delay of two or more the cap is reached after logarithmically many failures |
| `Backoff.CapIsNotReachedBefore` | connection_manager.go:281-324 | Below the upper envelope the cap is not reached |
| `Backoff.FactorIsObeyedExactlyWhen` | connection_manager.go:321 | For every initial delay, the delays under all caps are those of a factor f exactly when f is 1.5 or the initial delay is one that never grows |
| `Backoff.FactorOfTwoIsIgnored` | connection_manager.go:111 | A configuration with factor 2 whose second delay is not doubled |
| `Connections.ConnectionManager.constructor` | connection_manager.go:124-152 | After the first connect the manager is open on a new connection and channel |
| `Connections.ConnectionManager.Close` | connection_manager.go:430-458 | An open manager is closed, cancelled and disconnected, and the last error met is returned; a closed one is left as it is, without an error |
| `Connections.ConnectionManager.Connect` | connection_manager.go:155-182 | On success a new connection and channel are installed, on failure nothing changes |
| `Connections.ConnectionManager.RecreateChannel` | connection_manager.go:231-268 | A closed manager is left alone; otherwise a new channel, or the report that a reconnect is needed |
| `Connections.ConnectionManager.HandleChannelFailure` | connection_manager.go:231-269 | What it does, with the reconnect it may fall back to, is a run of the monitor |
| `Connections.ConnectionManager.HandleConnectionFailure` | connection_manager.go:281-356 | With any interference between its regions the loop performs a run of the monitor, and it returns within N turns if N attempts are allowed |
| `Connections.ConnectionManager.GetConnection` | connection_manager.go:370-383 | The connection, or the error for a closed manager or a dead connection |
| `Connections.ConnectionManager.GetChannel` | connection_manager.go:386-399 | The channel, or the error for a closed manager or a dead channel |
| `Connections.ConnectionManager.IsHealthy` | connection_manager.go:402-412 | Open, with a live connection and channel |
| `Connections.ConnectionManager.Qos` | connection_manager.go:460-473 | Fails on a closed manager or a dead channel, and passes on the channel's own error |
| `ConnectionProperties.StepKeepsInv` | connection_manager.go:203-356 | Every step of the monitor, of users and of the network keeps: closed and not cancelled from the passed check to the reset, cancelled only when closed, and the bookkeeping of rounds |
| `ConnectionProperties.EffectiveCloseIsFinal` | connection_manager.go:430-458 | After a `Close` that finds the manager open, in every continuation it stays closed and nothing is opened or installed |
| `ConnectionProperties.CloseIsEffectiveExactlyWhenOpen` | connection_manager.go:434-439 | `Close` takes effect exactly when the manager is open; it is closed but not stopped exactly while reconnecting or after giving up |
| `ConnectionProperties.CloseDuringReconnectIsForgotten` | connection_manager.go:434-436 | A run with a `Close` after which the manager is open again |
| `ConnectionProperties.WaitIsNeverCancelled` | connection_manager.go:310-312 | The cancellation branch of the wait is unreachable |
| `ConnectionProperties.GivingUpCannotBeClosed` | connection_manager.go:299-302 | After giving up `Close` has no effect and the monitor cannot stop |
| `ConnectionProperties.GivesUpExactlyWhenLimited` | connection_manager.go:298-302 | Some run gives up exactly when the attempts are limited |
| `ConnectionProperties.GivesUpAfterTheLastConnect` | connection_manager.go:289-302 | A round gives up exactly after all the connects its limit allows, and goes on exactly while there are some left |
| `ConnectionProperties.GettersFailWhileReconnecting` | connection_manager.go:370-412 | While waiting or connecting every getter fails |
| `ConnectionProperties.GettersHandOutWhatIsOpen` | connection_manager.go:370-473 | A getter hands out the installed connection or channel if manager and link are open, and otherwise says which is not; healthy means that both getters work |
| `ConnectionProperties.ChannelIsReplaced` | connection_manager.go:231-268 | On an open manager with a live connection a new channel is installed and handed out and the connection stays; if the connection is dead or opening fails, nothing changes and a reconnect follows; on a closed manager nothing happens |
| `ConnectionProperties.InstalledLinksAreNew` | connection_manager.go:171-172 | In every run a step that changes connection or channel installs new, open ones |
| `ConnectionProperties.DeadChannelIsRepaired` | connection_manager.go:216-268 | From every reachable open state the repair of a channel leads to a healthy manager on the same connection |
| `ConnectionProperties.DeadConnectionIsRepaired` | connection_manager.go:210-341 | From every reachable open state the repair of a connection leads to a healthy manager on a new connection and channel, with its topology declared |
| `ConnectionProperties.FailedTopologyTriesAgain` | connection_manager.go:338-354 | A topology that fails closes connection and manager and goes on with attempts and delay as they are; if the close fails, the round ends with the manager open |
| `ConnectionProperties.PlannedClosesAreIgnored` | connection_manager.go:210-220 | A close notice without an error changes nothing |
| `ConnectionProperties.ClosedMonitorCanStop` | connection_manager.go:205-208 | After an effective `Close` the monitor can come to its end by its own steps from wherever it was |
| `ConnectionProperties.StopsOnlyWhenClosed` | connection_manager.go:205-208 | It comes to its end in no other way |
| `ConnectionProperties.RoundsAreBounded` | connection_manager.go:281-302 | With N attempts one call of the handler makes at most N connects and 7 N + 2 steps |
| `ConnectionProperties.RoundsGoOn` | connection_manager.go:289-355 | Until it returns the handler always has a next step |
| `ConnectionProperties.DelayFollowsFailedConnects` | connection_manager.go:317-324 | The delay in use is that of the failed connects; topology failures do not change it |
| `ConnectionProperties.FactorIsNeverRead` | connection_manager.go:132-140 | No run depends on the configured factor |
| `ConnectionProperties.RunsObeyTheFactorExactlyWhen` | connection_manager.go:281-324 | The delays in all runs are those of the configured factor exactly when it is 1.5 or the initial delay never grows |
| `ConnectionProperties.BackOpenOnlyWhen` | connection_manager.go:326-350 | Between rounds the manager is closed exactly if it was closed for good or gave up; it returns open only with the topology declared on the connection in use, with none set, or with a failed close |
| `Recovery.ReconnectRestoresTheTopology` | connection_manager.go:333-347 | In every run of manager and broker together, with aborted declarations and lost entities anywhere, a declaration after a reconnect succeeds unless the broker refuses a call for its own reasons; then, and only then, the manager returns with the topology declared, and the broker holds everything planned |
| `Recovery.ManagerRuns` | connection_manager.go:281-356 | Seen from the manager alone, each such run is a run of its state machine, so all its properties hold |

## Left out

* Dialling, TLS, the AMQP client, wire encoding, timers, logging and tracing: calls succeed or fail nondeterministically and time is a step.
* `publisher.go`, `options.go`, `tracing.go`, `errors.go`, `channel.go`, `connection.go`, `mocks.go`: wrappers, data holders and fixtures.
* `exchange.go` and `binding.go`: their definitions are plain values here.
* `Topology.Apply`, `GetQueueDefinition` and `GetQueuesDefinition`: composition and map lookups.
* Queue properties the broker checks for itself (reserved or empty names, sizes, quorum restrictions): such refusals are `Faults`. RabbitMQ compares only the arguments it knows on a repeated declaration; the model compares all, as section 1.7.2.1 of the AMQP 0-9-1 XML reference asks.
* Max-length overflow, message TTLs other than the retry queue's, quorum delivery limits and broker restarts in the life cycle; prefetch limits (every delivery order they allow is allowed).
* Several queues on one channel: tags are those of one consumed queue, as the claims about `multiple` need.
* Messages published with an `x-death` header of their own, or straight into the retry queue.
* JSON and reflection: a body is the set of type names it unmarshals into; handler and callback code.
* Integer widths: counts, lengths and delays are unbounded; delays are exact as the source's floating-point product below 2^51 ns.
* `Dispatchers.Dispatcher.ProcessReceivedMessage`: `publishToDlq` is one attempt in the action sequence; whether it gets a channel and succeeds is decided in the life cycle.
* `Connections.ConnectionManager.Close`: a channel or connection counts as closed afterwards even if closing it returned an error.
* `Connections.ConnectionManager.HandleConnectionFailure`: without a limit on attempts the loop need not end, so the method follows it for as long as a given script lasts; the state machine has no such bound.
* `monitor`, `consume` and `ConsumeBlocking` run for ever and are state machines rather than methods.
* The reconnect callback, which is assumed not to call the manager.
