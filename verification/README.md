# golangMQ: a verified model of the broker and of its benchmark harness

golangMQ is a message broker with exchanges, queues, channels and consumers, together with a benchmark harness that
plans a load, drives it through the broker and keeps statistics. This project models the logic of both in Dafny and
proves what they guarantee, over every run and every configuration, or exactly when they do.

## How the model is laid out

The broker:

- `Messages.dfy`: messages, 16-bit delivery tags, and the bookkeeping record of a consumer (`Mark`, `Settle`, `Drain`).
- `QueueProtocol.dfy`: one queue as a labelled transition system. Each section under a lock is one step; the dispatcher
  goroutine has a program counter; connection goroutines appear through what they have in flight (allocated tags,
  messages taken by a nack, signals still owed). A write succeeds or fails arbitrarily.
- `QueueInvariant.dfy`, `DeliveryGuarantees.dfy`, `Settlements.dfy`, `DeliveryOrder.dfy`, `TagWindow.dfy`, `WakeUp.dfy`,
  `Progress.dfy`: the invariants of every step and the theorems over whole runs: conservation, at-least-once, an exact
  history, first-in first-out order, consumer bookkeeping, tag identity, wake-ups, nobody blocked for good. Where the program breaks the strongest form of a property, there is a lemma with
  a concrete reachable run and an if-and-only-if that names the step responsible.
- `LockOrder.dfy`: the locking structure of every broker function and deadlock freedom of any number of goroutines.
- `Routing.dfy`, `BrokerObjects.dfy`, `ChannelObjects.dfy`: the heap objects (`Consumer`, `Queue`, `Exchange`, `Broker`,
  `Channel`, `Connection`) whose methods update fields in place, proved against the same `Mark`, `Settle` and `Drain`
  and against a plain set of bindings. Go's map iteration order is an arbitrary choice. A ghost argument `p` is
  the plain state the broker stands in before the call; `ShowsOne` says that there always is exactly one.
- `Naming.dfy`, `Acks.dfy`, `Sessions.dfy`: consumer tags, which message an ack settles, and what a whole session on one
  connection leaves behind.

The harness:

- `Placement.dfy`, `Topology.dfy`, `Planner.dfy`, `PlanProperties.dfy`: placing channels and workers, the acceptance
  condition in closed form, and what every accepted plan guarantees.
- `Ledger.dfy`, `LedgerTheorems.dfy`: the statistics as a concurrent ledger in which every single counter bump is a step
  of its own, with the warmup cutoff, the never-reset counters and the windows emptied by the sampler.
- `Harness.dfy`, `HarnessInvariant.dfy`, `HarnessTheorems.dfy`, `Drains.dfy`, `Credits.dfy`, `Staffing.dfy`: publishers,
  consumers and the drain check running over that ledger, what the check means, whose work the figures count, and the
  plan that started the workers.
- `Books.dfy`, `Samples.dfy`, `StatsObjects.dfy`, `Latency.dfy`, `Header.dfy`: the statistics object, which latencies it
  holds after any history, the latency accumulator and the message header.

`Sorting.dfy` and `Outcomes.dfy` hold a sort by key and the `Result` and `Option` types that several modules use.

Sources of nondeterminism (scheduling, write failures, map order, timeouts, the order in which messages arrive) are left
open, so a theorem over runs covers all of them. Clocks, latencies and payloads are parameters.

## What turned out to be conditional

- A failed write puts its message back even if unregistering the consumer has already done so. Conservation is exact if
  and only if no write fails that way, given that no tag collides (`ExactConservation`); `StrayDuplicates` is a run that
  ends with two copies of one message. At-least-once does not need the condition.
- A dispatch whose tag is still pending at the chosen consumer drops the older entry. Without stray failures a copy is
  lost if and only if that happens (`LostIffCollided`); `WrapLosesACopy` is such a run, after 65536 publishes. With stray
  failures allowed as well, a copy is lost if and only if it was dropped more often than it was put back in excess
  (`LostIffOverwrittenMore`).
- A nack without requeue frees a consumer without the queue lock, so it can fall between the dispatcher's look at that
  consumer and its going to sleep. The dispatcher gets stuck, asleep with work and no signal owed, if and only if it goes
  to sleep at the end of a scan that such a nack slipped into, after that nack's signal and all others have been spent
  and with no requeueing nack in flight (`StuckIffFatalSleep`, and over whole runs `NeverStuckIff`). `WakeUpLost` is such
  a run; `SlipLosesItsSignal` shows that the same nack is harmless if its signal comes after the dispatcher has slept.
- Tags are numbered per queue, but an ack names only a tag. A channel with consumers on two queues can have two messages
  pending under one tag. An ack settles nobody but `x`, whatever order the channel's consumer map is walked in, if and
  only if no other consumer of the queues in question holds the tag (`AckExactIff`). `AckDependsOnOrder` builds two
  queues whose first deliveries both carry tag 1, and the ack settles whichever the map yields first.
- Opening a channel id that is already open forgets the old channel's consumers. Any session of opens, subscriptions and
  closes, followed by the end of the connection, leaves none of the consumers it made registered if and only if no open
  hit an id whose channel still had consumers (`Session`). `ReopenLeaks` is a session that leaves one registered.
- A complete drain does not last by itself: a duplicate may still arrive. Once no useful work is in flight, a move changes
  that if and only if it counts another delivery (`NoWorkKept`), and until one does, the drain check reports completion
  after at most six reads (`QuietRunDrains`).
- The comment on lock order in `broker/metrics.go` lists the server's mutex as the outermost of a nest; the code releases
  it before taking the broker's. The model follows the code.

## Model

| member | source | states |
|---|---|---|
| Messages.SameTagSameId | broker/queue.go:17-36 | two copies minted less than one tag cycle apart share a tag only if they are the same copy |
| Messages.TagWraps | broker/broker.go:74-75 | the window is tight: one cycle later the same tag is handed out again |
| ConsumerSpec.MarkPend | broker/queue.go:103-107 | marking adds the message to what the consumer holds, or replaces the entry that had its tag |
| ConsumerSpec.SettlePend | broker/broker.go:118-123 | settling a tag removes exactly the message filed under it and keeps the two maps in agreement |
| ConsumerSpec.DrainPend | broker/queue.go:61-68 | unregistering empties both maps and lowers the counter by the number of messages held |
| QueueInvariant.DispatchStep | broker/queue.go:95-109 | dispatching keeps the whole invariant of the queue, tag collisions included |
| QueueInvariant.WriteFailStep | broker/queue.go:123-133 | a failed write keeps it, whether or not the message is still pending |
| QueueInvariant.UnregisterStep | broker/queue.go:53-73 | unregistering a consumer keeps it, for every order in which the pending map is walked |
| QueueInvariant.AckStep | broker/broker.go:116-128 | an ack keeps it |
| QueueInvariant.TakeRequeueStep | broker/channel.go:118-139 | the first half of a requeueing nack keeps it |
| QueueInvariant.PutStep | broker/channel.go:136-139 | so does the second half |
| QueueInvariant.TakeDiscardStep | broker/channel.go:118-149 | a nack without requeue keeps it |
| QueueInvariant.EnqueueStep | broker/queue.go:140-147 | appending an allocated copy keeps it and each copy is enqueued at most once |
| QueueInvariant.AllocateStep | broker/broker.go:73-76 | allocating a tag mints a copy with a new id and keeps it |
| QueueInvariant.RegisterStep | broker/queue.go:46-51 | registering a consumer keeps it |
| QueueInvariant.StepKeepsInv | broker/queue.go:46-147 | every step of every actor keeps consumer bookkeeping, dispatcher, identity and balance invariants |
| QueueInvariant.RunKeepsInv | broker/queue.go:46-147 | hence they hold in every state of every run |
| DeliveryGuarantees.Conservation | broker/queue.go:53-147 | in every reachable state: enqueued plus duplicated equals queued, pending, held, acked, discarded plus overwritten; exact iff duplicated equals overwritten |
| DeliveryGuarantees.ExactConservation | broker/queue.go:101-135 | with one of the two races excluded, enqueued = queued + pending + held + acked + discarded iff the other is excluded too |
| DeliveryGuarantees.HistoryAtRest | broker/channel.go:119-149 | at rest and without the races the copies enqueued are as many as those queued, in flight, acked and discarded |
| Settlements.HistoryIsExact | broker/broker.go:116-128 | over every run the acked messages are exactly those that the acks found pending, the discarded ones those that nacks without requeue took, and likewise for the enqueued, overwritten and duplicated |
| Settlements.CounterIsSize | broker/broker.go:124-126 | every enqueue, ack and nack without requeue settles one message, so the counters of these steps are the sizes of the history |
| Settlements.CountersAtRest | broker/channel.go:119-149 | at rest and without the races the number of enqueues is depth plus total inflight plus the number of acks plus the number of dead letters and drops |
| Settlements.MintedAsAsked | broker/broker.go:73-83 | every copy known to a queue has the body, exchange and key of some publish step, and the id and tag that were next then |
| Settlements.DeliveredAsPublished | broker/queue.go:101-120 | so has whatever is queued, pending, held or being written, in every state of every run |
| DeliveryGuarantees.ConsumerBooks | broker/consumer.go:18-36 | in every reachable state tag set and pending keys agree, entries lie under their own tags, the inflight counter never exceeds the prefetch of 10, and it differs from the number pending by exactly the two races; the number pending exceeds 10 by at most the stray failures suffered |
| DeliveryGuarantees.AtLeastOnce | broker/queue.go:53-147 | over every run, failed writes racing an unregister included: every enqueued copy is acked, discarded, queued, held by a nack, or pending at a registered consumer, provided no dispatch hits its tag pending for another message |
| DeliveryGuarantees.LostIffCollided | broker/queue.go:101-107 | without stray failures nothing is lost if and only if no dispatch met its tag pending |
| DeliveryGuarantees.LostIffOverwrittenMore | broker/queue.go:101-133 | in every state of every run, races included, an enqueued copy is acked, discarded or in some place if and only if it was overwritten no more often than stray failures put it back |
| DeliveryGuarantees.SettledForGood | broker/broker.go:116-128 | without stray failures a settled copy never reappears and is settled once only |
| DeliveryGuarantees.UnregisteredForGood | broker/queue.go:53-107 | a consumer once unregistered never holds a message again and is never registered again |
| DeliveryGuarantees.StrayIsRecorded | broker/queue.go:123-133 | a run has no stray failure if and only if its history shows no duplicate |
| DeliveryGuarantees.CollisionIsRecorded | broker/queue.go:103-107 | a run has no collision if and only if its history shows no overwritten entry |
| DeliveryOrder.RunLined | broker/queue.go:53-147 | in every reachable state the queue is some returned copies followed by the arrivals from some point on, in order, and everything before that point has been dispatched |
| DeliveryOrder.NoOvertaking | broker/queue.go:101-147 | over every run, failed writes, nacks and unregistrations included, a copy is dispatched only after every copy enqueued before it has been dispatched at least once |
| DeliveryOrder.ArrivalsDistinct | broker/broker.go:72-84 | no copy is enqueued twice |
| TagWindow.TagsDistinct | broker/broker.go:73-83 | copies that are queued, pending, held, being written or allocated, minted within one cycle of each other, have different tags across any number of wraps |
| TagWindow.WindowedRuns | broker/broker.go:73-83 | a run whose live copies stay within one cycle loses nothing, and without stray failures its books are exact |
| TagWindow.OneHolder | broker/channel.go:92-99 | within the window no two consumers hold the same tag |
| TagWindow.AckIsExact | broker/broker.go:116-133 | within the window an ack removes exactly the message with that tag and changes no other consumer |
| TagWindow.WrapLosesACopy | broker/queue.go:101-107 | a reachable run without stray failures that loses a copy when the tag counter comes round |
| TagWindow.StrayDuplicates | broker/queue.go:123-133 | a reachable run without collisions that ends with two queued copies of one message |
| WakeUp.WatchedIffNoSlip | broker/channel.go:119-151 | a step keeps the wake-up invariant if and only if it is not a nack without requeue at a consumer the scan has passed |
| WakeUp.NoLostWakeUp | broker/queue.go:46-147 | in every run without such a step a sleeping dispatcher with a message and a free registered consumer is still owed a signal |
| WakeUp.StuckIffFatalSleep | broker/queue.go:88-100 | a step of any run leaves the dispatcher asleep on work with no signal owed if and only if it goes to sleep at the end of a scan that such a nack slipped into, with every signal spent and no requeueing nack in flight |
| WakeUp.NeverStuckIff | broker/queue.go:46-147 | hence a run never gets stuck if and only if it has no such sleep |
| WakeUp.SlipLosesItsSignal | broker/channel.go:140-151 | such a nack at the end of a scan is fatal if its signal comes before the dispatcher sleeps, and harmless if it comes after |
| WakeUp.WakeUpLost | broker/queue.go:91-100 | a reachable run that ends in a fatal sleep and is stuck |
| Progress.DispatcherCanStep | broker/queue.go:88-135 | in every reachable state the dispatcher is asleep or has a step, and under the queue lock that step brings it closer to giving the lock up |
| Progress.ActorsCanStep | broker/broker.go:107-134 | with the lock free every publish can finish, every nack can put back and every pending message can be acked; nacks can take theirs at any time |
| LockOrder.BrokerClimbs | broker/metrics.go:138-161 | every goroutine of the server takes its mutexes in one strict rank order, and sleeps only directly inside a queue's mutex |
| LockOrder.RunKeepsAll | broker/connection.go:99-105 | along every run of any number of goroutines held locks ascend and no mutex has two holders |
| LockOrder.NoCircularWait | broker/queue.go:53-133 | no reachable state contains a circular wait |
| LockOrder.SomebodyCanMove | broker/channel.go:119-139 | in every reachable state in which some goroutine has work left, whichever objects those about to lock have settled on, some goroutine can move otherwise than by settling on an object |
| LockOrder.ReversedOrderSticks | broker/queue.go:53-71 | taken the other way round, a queue's and a consumer's mutex leave both goroutines unable to move for good |
| Routing.DeclaredIff | broker/broker.go:23-37 | a queue or exchange exists if and only if the history declared it |
| Routing.BoundIff | broker/broker.go:39-54 | a binding is in force if and only if some bind asked for exactly it after both ends were declared |
| Routing.FirstDeclarationWins | broker/broker.go:23-29 | after any history a queue has the dead-letter settings of its first declaration |
| Routing.ContentsAfter | broker/broker.go:56-86 | after any history a queue holds exactly the copies sent to it, in order of arrival at the back with the body, exchange and key they were published or dead-lettered with, and the messages handed back, at the front |
| BrokerObjects.Consumer.constructor | broker/consumer.go:24-37 | a new consumer holds nothing and has prefetch 10 |
| BrokerObjects.Consumer.MarkPending | broker/queue.go:103-107 | the fields change as `Mark` says |
| BrokerObjects.Consumer.SettleTag | broker/broker.go:118-123 | the fields change as `Settle` says |
| BrokerObjects.Queue.constructor | broker/queue.go:32-44 | a new queue is empty and its first tag is 1 |
| BrokerObjects.Queue.RegisterConsumer | broker/queue.go:46-51 | the consumer joins the queue's set and nothing else changes |
| BrokerObjects.Queue.ReturnPending | broker/queue.go:61-68 | the loop puts some permutation of exactly the pending messages ahead of the old contents, which stay as they were |
| BrokerObjects.Queue.UnregisterConsumer | broker/queue.go:53-73 | the same for a registered consumer; an unknown one changes nothing |
| BrokerObjects.Queue.SelectConsumer | broker/queue.go:75-85 | returns some free consumer, or none exactly when none is free |
| BrokerObjects.Queue.Dispatch | broker/queue.go:88-109 | nothing happens iff the queue is empty or nobody is free; otherwise exactly the head moves to one free consumer and no other consumer changes |
| BrokerObjects.Queue.Requeue | broker/queue.go:126-133 | after a failed write the message is at the front and its tag settled |
| BrokerObjects.Queue.AllocateTag | broker/broker.go:73-76 | the tag handed out is the one of the next id, with wrap-around at 16 bits |
| BrokerObjects.Queue.Enqueue | broker/queue.go:140-147 | the message goes to the end |
| BrokerObjects.Queue.AckTag | broker/broker.go:116-131 | settles the tag at one consumer that holds it, or changes nothing when none does |
| BrokerObjects.Exchange.constructor | broker/exchange.go:11-16 | a new exchange routes nothing |
| BrokerObjects.Exchange.Bind | broker/exchange.go:18-27 | adds exactly one route and keeps all others |
| BrokerObjects.Exchange.GetQueues | broker/exchange.go:29-42 | returns exactly the queues bound under that key, each once |
| BrokerObjects.Broker.constructor | broker/broker.go:15-21 | a new broker is the empty set of bindings |
| BrokerObjects.Broker.ShowsOne | broker/broker.go:8-13 | every broker stands in exactly one plain state |
| BrokerObjects.Broker.DeclareQueue | broker/broker.go:23-29 | refines the plain declaration: a new queue is empty and has the settings asked for, an existing one keeps its object and its settings |
| BrokerObjects.Broker.DeclareExchange | broker/broker.go:31-37 | refines the plain declaration |
| BrokerObjects.Broker.BindQueue | broker/broker.go:39-54 | refines the plain bind, and fails exactly when an end is missing |
| BrokerObjects.Broker.Publish | broker/broker.go:56-86 | each queue bound under exactly that key gets one copy at its end, with that body, exchange and key and the queue's own next tag, and every other queue keeps its contents; fails exactly when the exchange is missing |
| BrokerObjects.Broker.FanOut | broker/broker.go:72-84 | the loop gives each listed queue exactly one copy and leaves the others alone |
| BrokerObjects.Broker.PublishTo | broker/broker.go:72-84 | one round of the fan-out appends one copy with the body, exchange and key given and the queue's next tag |
| BrokerObjects.Broker.SettleNack | broker/channel.go:136-149 | requeued, the message is at the front of its queue and no other queue changes; otherwise its body goes to exactly the queues bound on the dead-letter exchange under the dead-letter key, or under its own key when that is empty; without a dead-letter exchange no queue changes |
| BrokerObjects.Broker.Ack | broker/broker.go:107-134 | settles the tag at one consumer of the named queue, errors exactly when the queue is unknown or nobody holds it, and changes no other consumer |
| BrokerObjects.Replay | broker/broker.go:23-86 | after any history of declarations with dead-letter settings, binds, publishes and nacks the broker's objects show exactly the plain set of bindings and queue contents |
| ChannelObjects.Channel.constructor | broker/connection.go:249-254 | a new channel has no consumers |
| ChannelObjects.Channel.RegisterConsumer | broker/broker.go:88-105 | succeeds exactly when the queue exists and the consumer tag, given or generated, is unused on the channel; otherwise nothing changes |
| ChannelObjects.Channel.HandleAck | broker/channel.go:92-100 | for every order of the consumer map: the first consumer of the channel that holds the tag names the queue, the tag is settled at one consumer of that queue that holds it, and nobody else changes; nothing happens exactly when there is no such consumer |
| ChannelObjects.Channel.TakePending | broker/channel.go:118-129 | takes the message from one consumer of the channel that has the tag pending, or changes nothing when none has |
| ChannelObjects.Channel.FinishNack | broker/channel.go:136-149 | the same, and no consumer of the channel changes |
| ChannelObjects.Channel.HandleNack | broker/channel.go:113-153 | both halves together: one consumer of the channel that has the tag pending settles it, and its message goes back to the front, to the queues bound for dead letters, or nowhere; a missing requeue field means requeue |
| ChannelObjects.Channel.Cleanup | broker/channel.go:17-21 | every consumer of the channel is closed, each returning exactly what it held |
| ChannelObjects.Connection.constructor | broker/connection.go:51-66 | a new connection has no channels |
| ChannelObjects.Connection.ChannelOpen | broker/connection.go:248-255 | a fresh channel takes the id, a channel already open under it leaves the table, and no queue, registration or consumer changes |
| ChannelObjects.Connection.Consume | broker/channel.go:59-80 | a fresh consumer joins the named queue and the channel, exactly when the channel is open, the queue exists and the tag is unused; otherwise nothing changes |
| Naming.DecimalRoundTrip | broker/consumer.go:25-27 | a number is recovered from its decimal digits |
| Naming.GeneratedTagsDiffer | broker/consumer.go:25-27 | two generated consumer tags are equal if and only if channel id and number of consumers are |
| Sessions.UnnamedNeverRefused | broker/broker.go:88-105 | on a channel on which no client names its consumers a subscription to an existing queue always succeeds |
| ChannelObjects.Connection.ChannelClose | broker/connection.go:261-269 | keeps the connection valid; of all the consumers ever made on it, exactly those of that channel are closed, one after another, each returning what it held |
| ChannelObjects.Connection.Cleanup | broker/connection.go:99-105 | the same for exactly the consumers that the channel table reaches |
| ChannelObjects.ClosedConsumer | broker/queue.go:53-68 | after closing, none of the closed consumers is registered, and those that were hold nothing |
| ChannelObjects.ClosedQueue | broker/queue.go:61-67 | after closing, each queue is some permutation of exactly the messages its closed consumers held, followed by its old contents unchanged |
| ChannelObjects.OthersUntouched | broker/queue.go:53-73 | closing leaves every other consumer as it was |
| ChannelObjects.ListedAfter | broker/queue.go:53-60 | after closing, registered are exactly those that were and are not among the closed |
| Sessions.SweepTracked | broker/connection.go:99-105 | cleaning up leaves registered exactly the consumers that the channel table had lost |
| Sessions.Session | broker/connection.go:99-269 | any sequence of opens, subscriptions and closes, followed by the end of the connection, leaves none of the consumers it made registered if and only if no open hit an id whose channel still had consumers |
| Sessions.ReopenLeaks | broker/connection.go:249-254 | a session of open, subscribe, open again, after whose end a consumer is still registered |
| Acks.SettledUnderSomeOrder | broker/channel.go:92-99 | a consumer may be settled by an ack under some order of the consumer map if and only if it holds the tag and shares a queue with a consumer of the channel that holds it |
| Acks.AckExactIff | broker/channel.go:92-99 | under every order an ack settles nobody but x, if and only if no other consumer is such a candidate |
| Acks.AckOnly | broker/channel.go:82-100 | then the handler changes no other consumer, and it settles x if x is such a candidate and the channel's consumers are all registered |
| Acks.AckDependsOnOrder | broker/channel.go:92-99 | two queues, one channel, two deliveries with tag 1: the ack settles the message of whichever consumer the map yields first |
| Placement.Place | internal/bench/topology.go:118-141 | each bin holds, in order, exactly the items whose bin it is |
| Placement.EvenLoad | internal/bench/topology.go:121-124 | closed form of a round-robin load |
| Placement.CappedLoad | internal/bench/topology.go:132-139 | closed form of a capped load |
| Placement.CountClosedForm | internal/bench/topology.go:118-141 | how many channels land on the first connections, in closed form |
| Placement.FlatIsRange | internal/bench/topology.go:118-141 | bin after bin, the items are exactly 0 to count - 1, each once |
| Topology.EvenMixedSlots | internal/bench/topology.go:191-196 | under even placement the mixed slots are (conns - d) * (channels / conns) plus what the last round leaves beyond d |
| Topology.Counts | internal/bench/topology.go:191-232 | the lengths of the mixed, publish-capable and consume-capable lists in closed form |
| Planner.OpenSlots | internal/bench/topology.go:161-182 | slots are made connection by connection, each at its position, none missing |
| Planner.OpenConnection | internal/bench/topology.go:163-180 | the slots of one connection, in open order, with the role its connection gives |
| Planner.PlaceChannels | internal/bench/topology.go:118-186 | fails exactly when the channels do not fit; otherwise slot i is channel i where placement puts it |
| Planner.SortKeepsAll | internal/bench/topology.go:184-186 | sorting by global index orders the slots and keeps them all |
| Planner.MixedSlotsOf | internal/bench/topology.go:191-196 | exactly the slots on mixed connections, in global order |
| Planner.CarveRoles | internal/bench/topology.go:191-213 | fails exactly when carving exceeds the mixed slots; otherwise every role is the one its position in global order gives |
| Planner.Capabilities | internal/bench/topology.go:219-232 | the capability lists and back indices are those of the roles |
| Planner.PlaceWorkers | internal/bench/topology.go:264-295 | fails exactly when there is nowhere to put them or the cap is exceeded; otherwise each slot gets its bin |
| Planner.AttachConsumers | internal/bench/topology.go:238-246 | each consume-capable slot receives its consumers and no other slot changes |
| Planner.AttachPublishers | internal/bench/topology.go:248-256 | each publish-capable slot receives its publishers and no other slot changes |
| Planner.WorkerSlotIsBin | internal/bench/topology.go:288-290 | under the fit check the final modulo is the identity |
| Planner.BuildTopology | internal/bench/topology.go:115-259 | on configurations with sound flags it succeeds exactly when the closed form holds, with the plan that the configuration describes |
| Planner.Validate | internal/bench/config.go:87-162 | accepts a configuration if and only if the closed-form condition holds |
| Planner.Build | internal/bench/topology.go:105-110 | builds exactly the accepted configurations |
| PlanProperties.ChannelsPlacedOnce | internal/bench/topology.go:118-182 | every channel is open on exactly one connection at exactly one position, and its slot says which |
| PlanProperties.ChannelLoads | internal/bench/topology.go:118-141 | even loads differ by at most one; capped loads never exceed the cap and fill in order |
| PlanProperties.RolesInGlobalOrder | internal/bench/topology.go:188-213 | mixed slots in global order are exactly the publish, then the consume, then the both channels |
| PlanProperties.DedicatedRoles | internal/bench/topology.go:145-180 | the first pub-conns connections and all channels on them publish only, the next cons-conns consume only, the others are mixed |
| PlanProperties.FlagBounds | internal/bench/config.go:87-162 | the bound of every single flag is exact: at the bound it passes, one past it it is refused |
| PlanProperties.CapabilityLists | internal/bench/topology.go:215-232 | the lists are strictly increasing, hold exactly the capable slots, and publishCapIdx is the inverse of the publish list |
| PlanProperties.ListsInOrder | internal/bench/topology.go:118-141 | the channels of every connection and the workers of every slot are listed in increasing order |
| PlanProperties.PublishersPlacedOnce | internal/bench/topology.go:248-256 | every publisher sits on exactly one slot and its role permits it |
| PlanProperties.ConsumersPlacedOnce | internal/bench/topology.go:238-246 | every consumer sits on exactly one slot and its role permits it |
| PlanProperties.PublisherLoads | internal/bench/topology.go:264-295 | publisher loads: even within one, capped within the cap and in order |
| PlanProperties.ConsumerLoads | internal/bench/topology.go:264-295 | consumer loads likewise |
| Ledger.StepKeepsInv | internal/bench/metrics.go:195-294 | every single bump, sample, allocation and boundary keeps each counter equal to what the calls above the cutoff have put there |
| LedgerTheorems.RunKeepsInv | internal/bench/metrics.go:195-294 | hence along every interleaving |
| LedgerTheorems.ProgramOwes | internal/bench/metrics.go:195-269 | the bumps of a record call, in the order of the code, add up to what that call owes each counter |
| LedgerTheorems.NothingLeaks | internal/bench/metrics.go:288-294 | with no call in progress, every counter holds exactly what the calls above the cutoff owe it |
| LedgerTheorems.MeasuredCounts | internal/bench/metrics.go:136-142 | over every interleaving, at rest the measured published, consumed and duplicate totals count exactly the calls made for numbers above the cutoff |
| LedgerTheorems.DeliveredCounts | internal/bench/metrics.go:220-257 | and measured deliveries count exactly the first deliveries and duplicates above it |
| LedgerTheorems.PartsAddUp | internal/bench/metrics.go:206-217 | at rest the per-connection and per-publish-channel figures add up to their totals |
| LedgerTheorems.DeliveriesAddUp | internal/bench/metrics.go:231-256 | at rest delivered is consumed plus duplicates, is the number of latency samples, and is the sum of the two role families |
| LedgerTheorems.WindowsAddUp | internal/bench/metrics.go:320-340 | at rest the rows emitted plus the open window equal the total since the cutoff |
| HarnessInvariant.MoveKeepsHInv | internal/bench/worker.go:48-116 | every move of publishers, consumers, sampler, boundary and drain check keeps the harness invariant |
| HarnessTheorems.RunKeepsHInv | internal/bench/worker.go:48-116 | hence it holds in every state of every run |
| HarnessInvariant.TakesWithinBudget | internal/bench/worker.go:56-59 | a publisher that may still fire always gets a number with a place in the send-time table |
| HarnessInvariant.CaughtUp | internal/bench/metrics.go:276-282 | if consumptions have caught up with publications and acks with deliveries, every first delivery has been fully recorded |
| HarnessTheorems.NumbersDistinct | internal/bench/worker.go:48-73 | over every run any two numbers taken differ and lie within 1 to publishers * msgs |
| HarnessTheorems.BudgetHolds | internal/bench/worker.go:57-59 | the budget error is unreachable |
| HarnessTheorems.HeldByOne | internal/bench/worker.go:56-71 | at no moment do two publishers hold the same number |
| HarnessTheorems.FirstSeenOnce | internal/bench/worker.go:102-107 | of all deliveries of one message, to whichever consumers, only the earliest is recorded as a first sighting |
| HarnessTheorems.GuardsHold | internal/bench/worker.go:89-107 | whatever was sent can always be delivered and recorded |
| HarnessTheorems.SentIsDeliverable | internal/bench/worker.go:60-73 | once the broker has accepted a message, every consumer can be delivered it for the rest of the run |
| Credits.SharesAtRest | internal/bench/metrics.go:206-257 | over every run, at rest, the figures of a connection or a publish channel count exactly the moves of the workers seated there, for numbers above the cutoff |
| HarnessTheorems.ClosedTotals | internal/bench/engine.go:398-402 | once the publishers have finished, measured published is exactly the numbers above the cutoff and measured consumed never exceeds it |
| HarnessTheorems.Drops | internal/bench/engine.go:398-402 | drops are what consumed lacks to reach published, or nothing |
| HarnessTheorems.DrainIsExact | internal/bench/engine.go:365-397 | after a drain reported complete on an acking run, with the four counters read one at a time, measured consumed equals measured published for good |
| HarnessTheorems.NoDropsAfterDrain | internal/bench/engine.go:398-402 | then drops are 0 and consumed + drops = published |
| HarnessTheorems.PlainDrainIsExact | internal/bench/metrics.go:276-282 | a drain reported complete on a run without acks is exact too |
| Drains.DrainedMeans | internal/bench/metrics.go:271-282 | once the publishers are done, the drain check succeeds if and only if no useful work is in flight: with acks, every message has been delivered, everything delivered has been acked and every ack counted; without, every measured message has been delivered and counted; and then measured consumed equals measured published |
| Drains.FourReads | internal/bench/metrics.go:276-282 | read one counter at a time and undisturbed, the check of an acking run reports completion if and only if no useful work is in flight |
| Drains.NoWorkKept | internal/bench/metrics.go:220-230 | once no useful work is in flight, a move changes that if and only if it counts another delivery |
| Drains.QuietRunDrains | internal/bench/engine.go:379-391 | until then the check reports completion after at most six reads, four if it starts over, whatever other moves fall between its reads |
| Staffing.Launch | internal/bench/engine.go:197-258 | one worker is started for every goroutine index on a capable slot |
| Staffing.EveryWorkerStarts | internal/bench/engine.go:197-258 | an accepted plan starts exactly the publishers and consumers asked for |
| Staffing.SeatsPerSlot | internal/bench/engine.go:203-237 | every slot gets exactly as many publishers and consumers as it has goroutine indices for them |
| Staffing.PlannedBudget | internal/bench/engine.go:158-159 | the send-time table of publishers * msgs places is exactly the budget of the publishers started |
| Staffing.LedgerAgrees | internal/bench/metrics.go:195-340 | over every run of a planned job, whenever no record call is in progress, all decompositions of the ledger agree with their totals |
| Books.PublishOwes | internal/bench/metrics.go:195-218 | recording a publish adds to every counter exactly what the ledger says it owes |
| Books.DeliverOwes | internal/bench/metrics.go:220-257 | the same for a delivery |
| Books.AcknowledgeOwes | internal/bench/metrics.go:259-269 | the same for an ack |
| Books.BegunReads | internal/bench/metrics.go:345-375 | the boundary zeroes every counter but the all-time ones |
| Books.SweptReads | internal/bench/metrics.go:320-340 | a sample zeroes the windows and nothing else |
| Books.BookingMatchesLedger | internal/bench/metrics.go:195-269 | a record call booked in one go reaches the figures the ledger shows once that call's bumps, however scheduled, are all in |
| Books.BoundaryMatchesLedger | internal/bench/metrics.go:288-294 | so does the boundary |
| Samples.SamplesAfter | internal/bench/metrics.go:195-375 | after any history of record calls, boundaries and samples every latency set holds exactly the latencies recorded for its family above the cutoff, since the last boundary or, in the windows, since the last sample |
| Samples.SumsAfter | internal/bench/metrics.go:248-256 | the latency sum and count of a connection are those of the measured deliveries on it |
| StatsObjects.Stats.constructor | internal/bench/metrics.go:176-193 | all counters start at zero |
| StatsObjects.Stats.RecordPublish | internal/bench/metrics.go:195-218 | the fields and arrays change as `Publish` says |
| StatsObjects.Stats.RecordDeliver | internal/bench/metrics.go:220-257 | the fields and arrays change as `Deliver` says, whose counts `DeliverOwes` and whose latencies `SamplesAfter` pin down |
| StatsObjects.Stats.RecordAck | internal/bench/metrics.go:259-269 | the fields change as `Acknowledge` says |
| StatsObjects.Stats.Drained | internal/bench/metrics.go:276-282 | for every run with its publishers done whose ledger these statistics show, the answer is yes if and only if that run has no useful work in flight |
| StatsObjects.Stats.BeginMeasured | internal/bench/metrics.go:288-294 | the cutoff is the numbers handed out and everything measured is zero |
| StatsObjects.Stats.ResetArrays | internal/bench/metrics.go:361-374 | the two loops zero every per-connection and per-publish-channel figure |
| StatsObjects.Stats.StoreDrops | internal/bench/engine.go:398-402 | when consumed falls short, consumed plus drops is published |
| StatsObjects.Stats.SampleWindow | internal/bench/metrics.go:320-340 | the row tells what the windows held, its drops are published less consumed, and the windows are empty afterwards |
| StatsObjects.Replay | internal/bench/metrics.go:195-375 | any history on fresh statistics leaves the latencies and sums that the history says |
| StatsObjects.NextRow | internal/bench/metrics.go:320-340 | the next row of the report summarises exactly the latencies recorded since the last one |
| Latency.LatencySet.constructor | internal/bench/metrics.go:40-42 | no samples |
| Latency.LatencySet.Add | internal/bench/metrics.go:44-57 | the sample is kept and the running figures stay those of the samples |
| Latency.LatencySet.Summarise | internal/bench/metrics.go:65-82 | count, least, greatest and mean of the samples, and their nearest-rank percentiles |
| Latency.LatencySet.SnapshotReset | internal/bench/metrics.go:99-105 | the summary of what was held, and nothing is held afterwards |
| Latency.LatencySet.Reset | internal/bench/metrics.go:107-117 | nothing is held |
| Latency.RunningIsRight | internal/bench/metrics.go:44-57 | the figures kept while samples arrive are their size, total, least and greatest |
| Latency.PercentileIsNearestRank | internal/bench/metrics.go:84-96 | the element picked from a sorted copy is the least sample with at least p percent of the samples at or below it |
| Latency.Replay | internal/bench/metrics.go:44-117 | after any history of adds, resets and snapshots the summary is that of the samples added since the last reset |
| Latency.SummaryDetermined | internal/bench/metrics.go:65-82 | the summary depends only on the multiset of samples |
| Latency.SummaryOrdered | internal/bench/metrics.go:65-82 | min <= p50 <= p95 <= p99 <= max, and the mean lies between min and max |
| Header.PutUint64 | internal/bench/worker.go:17-20 | the eight base-256 digits are written in place, most significant first, and nothing else changes |
| Header.EncodeHeader | internal/bench/worker.go:17-20 | the first 16 bytes become the header and the payload stays |
| Header.HeaderLayout | internal/bench/worker.go:13-20 | big-endian, byte by byte: the number in the first eight bytes, the send time modulo two to the 64 in the next eight |
| Header.HeaderRoundTrip | internal/bench/worker.go:17-29 | decoding an encoded header returns the sequence number and the signed send time, whatever payload follows |
| Header.HeaderDetermined | internal/bench/worker.go:22-29 | every body of at least 16 bytes starts with the encoding of what it decodes to |

## Left out

- TCP sockets, buffered readers and writers, JSON framing and the handshake: a delivery write is an arbitrary success or failure.
- Liveness of the write pump: no claim that a delivery or a reply ever completes.
- Fairness of consumer selection: any free consumer may be chosen.
- Prometheus registration, HTTP serving and log output; the counters that a conservation law mentions are part of a queue's history.
- The client SDK, clocks, timers, run ids and CSV formatting; a timeout or an interrupt is the absence of further moves.
- consumed + drops = published after a drain that timed out: consumers may still record between the two reads, so it is claimed for completed drains only.
- Floating-point rounding: latencies are reals and percentile ranks are exact.
- Overflow of Go's int in conns * cap or publishers * msgs, and wrap-around of the 64-bit sequence counter.
- The dispatcher's endless loop: `BrokerObjects.Queue.Dispatch` and `Requeue` are its locked sections as methods, and `QueueProtocol` interleaves them with all other actors.
- The two `run` loops of the workers and the phases of the engine: `Harness` has one move per statement that touches shared state, instead of methods.
- Planner.OpenSlots: slots are values referred to by global index, not shared objects, so the aliasing between the connection plans and the capability lists is not captured.
- Planner.PlaceWorkers: returns the workers of each slot instead of calling back for each one.
- Planner.SortKeepsAll: the library sort is an insertion sort on values.
- Sessions.Session: deliveries, acks and nacks between the operations of a session are not interleaved with it; they change neither registrations nor the channel table.
- StatsObjects.Stats.SampleWindow: the statistics object holds the sample list of each latency set; `Latency.LatencySet` is the accumulator object itself.
- LockOrder.SomebodyCanMove: a goroutine asleep on a condition variable counts as able to wake at any time; lost wake-ups are the subject of `WakeUp`.
- Deliveries whose body is not a harness message: queue names are unique to a run, so only stamped messages arrive.
- Warnings, flag parsing and sweeps over several configurations: none of them touches the plan or the counters.
