# The SQS and SNS transport of ruststream, modelled and proved

This project models the logic of `ruststream-sqs-sns`: the in-process SQS and SNS account, the
settlement and visibility arithmetic of a delivery, the wire mapping of a message, and three smaller
pieces with state of their own (the access policy merge, the routing record of the test harness, and
the per-thread client sets). `dafny verify dfyconfig.toml` checks all of it.

## How it is built

- `Bus.dfy` keeps the account as the code does: an object whose methods change its maps in place,
  and the receipt object a delivery settles through. Each method is proved to do to the state what
  the function of the same name in `Account.dfy` says.
- `World.dfy` makes the whole in-process system a state machine: the account, the subscriptions with
  their place in the receive loop (register interest, look, wait, receive), the deliveries being
  handled, and the clock. Every call that takes the account's lock is one step, so any interleaving
  of senders, subscriptions, settlements, drops and timers is a run. A settlement reads the clock
  before the queue does; how far it moves in between is part of the step, without a bound: only what
  says the queue never refuses the crate's own changes asks for at most ten seconds. Results stated
  "after every run" hold for all sequences of enabled steps from the empty account.
- The invariants of runs are one file each: `Conservation.dfy` (over `Ledger.dfy`), `Futures.dfy`,
  `Returns.dfy`, `Groups.dfy`, `Fifo.dfy`, `Wakeups.dfy`, `Redrives.dfy`, `Duplicates.dfy`.
- `Handovers.dfy`, `Settlements.dfy` and `Provenance.dfy` say what receives, settlements and deliveries
  do in terms of the run alone: the calls made, the receives that handed a message over, and the
  messages sent. `Message.dfy` is the delivery object; its methods are proved to take those steps.
- `Visibility.dfy` holds the extension loop, the closed form and the queue's check, in nanoseconds.
- `Wire.dfy` with `Base64.dfy` and `Utf8.dfy` is the mapping to and from SQS messages.
- `Policy.dfy`, `Routing.dfy` and `Clients.dfy` are the smaller pieces.

## Where the code and its own words part

- `remaining_visibility` is documented to stop where the live extension stops. It does for even
  timeouts up to 43190 seconds. An odd timeout can keep the message invisible half a second longer
  than the loop does, because the loop asks for whole seconds; a timeout past 43190 seconds starts
  out longer in the loop than the closed form allows. `Visibility.ClosedFormRefinesLoop` gives the
  exact set of timeouts for which the two never part.
- The ten-second margin is what protects the crate's own changes. A clock that moves further between
  the read and the queue's answer can make the queue refuse one (`Visibility.DriftPastMarginRefused`).
  A refused settlement leaves the delivery unsettled, but a handle dropped unsettled is gone: its
  message then has neither handle nor timer and stays in flight (`Returns.ForsakenExactly`).
- A FIFO group chosen by a header goes through a lossy conversion. Headers come back exactly as sent
  whenever the service accepts that group (`Wire.AcceptedGroupIsTheHeader`); otherwise the partition
  key comes back as converted.
- The policy merge is documented to leave out a grant the queue's policy already holds. It does not read
  which resource a statement names, so a statement for the topic that names another queue keeps the
  grant from being written (`Policy.OtherQueueTakenForGranted`). `Policy.MayDeliverExactly` says when
  the topic may deliver afterwards.
- A header named `sqs-receive-count` is overwritten by the receive count on delivery; `Wire.RoundTrip`
  says so rather than excluding it.

## Model

| member | source | states |
|---|---|---|
| InProcess.Bus.Open | crates/ruststream-sqs-sns/src/in_process/bus.rs:393-400 | opening counts one more subscription and changes nothing else |
| InProcess.Bus.Close | crates/ruststream-sqs-sns/src/in_process/bus.rs:403-421 | closing the last subscription takes the visible messages and counts each one out; what is in flight stays |
| InProcess.Bus.SetRedrive | crates/ruststream-sqs-sns/src/in_process/bus.rs:425-455 | the policy is refused by target name, then cap over 1000, then kind; otherwise the target exists and the policy is in force |
| InProcess.Bus.Send | crates/ruststream-sqs-sns/src/in_process/bus.rs:458-478 | the refusals of a send in their order, and a delivery exactly when there is none |
| InProcess.Bus.Publish | crates/ruststream-sqs-sns/src/in_process/bus.rs:483-533 | a FIFO publish is deduplicated on its topic, then delivered to every endpoint in order, to standard queues without its group |
| InProcess.Bus.SubscribeTopic | crates/ruststream-sqs-sns/src/in_process/bus.rs:537-558 | a FIFO queue on a standard topic is refused; an endpoint is added once |
| InProcess.Bus.Deliver | crates/ruststream-sqs-sns/src/in_process/bus.rs:562-576 | a repeat within the window is dropped, anything else gets the next number |
| InProcess.Bus.Enqueue | crates/ruststream-sqs-sns/src/in_process/bus.rs:579-588 | a queue nobody reads drops the message uncounted; otherwise it is inserted, counted in and the waiters are woken |
| InProcess.Bus.NextReceivable | crates/ruststream-sqs-sns/src/in_process/bus.rs:172-177 | the first visible message of no blocked group, or nothing exactly when every message is blocked |
| InProcess.Bus.Receivable | crates/ruststream-sqs-sns/src/in_process/bus.rs:591-603 | the number of messages of no blocked group, up to `max` |
| InProcess.Bus.TakeFrom | crates/ruststream-sqs-sns/src/in_process/bus.rs:611-645 | the find-first-and-remove loop terminates and takes exactly what one pass over the queue takes, under consecutive receipts |
| InProcess.Bus.Receive | crates/ruststream-sqs-sns/src/in_process/bus.rs:611-662 | the whole receive: what is handed over and in flight, what stays, and the spent messages moved one after the other with their counts |
| InProcess.Bus.Delete | crates/ruststream-sqs-sns/src/in_process/bus.rs:666-674 | a receipt in flight is gone and the waiters are woken; any other changes nothing |
| InProcess.Bus.ChangeVisibility | crates/ruststream-sqs-sns/src/in_process/bus.rs:678-715 | the three refusals in order; zero returns the message, anything else arms a timer of a new generation |
| InProcess.Bus.Lapse | crates/ruststream-sqs-sns/src/in_process/bus.rs:733-745 | a timer returns its message only while its generation is the current one |
| InProcess.Receipt.Delete | crates/ruststream-sqs-sns/src/in_process/deliveries.rs:177-180 | deleting settles the receipt |
| InProcess.Receipt.ChangeVisibility | crates/ruststream-sqs-sns/src/in_process/deliveries.rs:182-191 | a negative number of seconds is refused before the queue is asked; otherwise the receipt is settled exactly when the queue grants the change |
| InProcess.Receipt.Drop | crates/ruststream-sqs-sns/src/in_process/deliveries.rs:194-206 | an unsettled receipt asks for the visibility it has left; either way the delivery is counted out once |
| InProcess.ScanPastBlocked | crates/ruststream-sqs-sns/src/in_process/bus.rs:160-177 | skipping the blocked messages in front and taking the next is what one pass does: the step the receive loop refines |
| Fifo.ScanReadsAPrefix | crates/ruststream-sqs-sns/src/in_process/bus.rs:611-645 | a receive reads a front part of the queue: it hands over what is free and not spent there, moves what is free and spent, skips the blocked, and leaves the rest untouched |
| Fifo.ReachesTheMaximum | crates/ruststream-sqs-sns/src/in_process/bus.rs:611-645 | it hands over all it can up to `max`, and stops reading only once it has `max` |
| Fifo.ReceivesWhatIsReceivable | crates/ruststream-sqs-sns/src/in_process/bus.rs:591-662 | with nothing spent, a receive hands over as many messages as `receivable` counts |
| Fifo.GroupsInFlightTogether | crates/ruststream-sqs-sns/src/in_process/bus.rs:160-177 | in every reachable state, the messages of one group in flight on one queue come from a single receive |
| Fifo.ReceiveTakesGroupsFromTheFront | crates/ruststream-sqs-sns/src/in_process/bus.rs:611-662 | after any run, a receive hands over and moves in ascending order, leaves nothing older of a group it takes from, and takes from no group with a message in flight |
| Fifo.RoundIsOneReceive | crates/ruststream-sqs-sns/src/in_process/bus.rs:611-645 | the rounds that tell receives apart do: a receive's is noted for all it hands over and for nothing received before |
| Wakeups.NoLostWakeup | crates/ruststream-sqs-sns/src/in_process/deliveries.rs:94-116 | in every reachable state, a subscription that waits and was not woken since it registered has nothing receivable: all its queue shows is of groups with a message in flight |
| Wakeups.LookDecides | crates/ruststream-sqs-sns/src/in_process/deliveries.rs:94-116 | after any run, a subscription that looks waits exactly when a receive at that moment would take nothing off its queue |
| Wakeups.TicketIsRegistration | crates/ruststream-sqs-sns/src/in_process/deliveries.rs:94-116 | after any run, a waiting subscription waits for a wake of its queue after the moment it registered, so no wake from before then ends its wait |
| Wakeups.ReadyHasLooked | crates/ruststream-sqs-sns/src/in_process/deliveries.rs:94-116 | after any run, a subscription about to receive has looked when a receive would have taken something off its queue |
| Wakeups.StepKeepsAttended | crates/ruststream-sqs-sns/src/in_process/bus.rs:393-745 | every step that could make a message receivable wakes the waiters registered before it; subscriptions are counted and an unread queue shows nothing |
| Conservation.HarnessCountersBalance | crates/ruststream-sqs-sns/src/in_process/bus.rs:403-662 | in every reachable state, messages counted in less those counted out are the visible messages over all queues plus the deliveries being handled |
| Conservation.StepConserves | crates/ruststream-sqs-sns/src/in_process/bus.rs:403-745 | each step's ledger: what is held after, with what left, is what was held before with what arrived |
| Conservation.SinglePlacement | crates/ruststream-sqs-sns/src/in_process/bus.rs:562-588 | in every reachable state, a message number is in one visible entry or one flight, never both, and below the next number |
| Conservation.StepLetsGo | crates/ruststream-sqs-sns/src/in_process/bus.rs:403-745 | a message leaves exactly by a deleted receipt, the last close, or re-entering a queue nobody reads; arrivals carry fresh numbers |
| Conservation.GoneForGood | crates/ruststream-sqs-sns/src/in_process/bus.rs:562-674 | a message that left never comes back, whatever follows |
| Futures.ExactlyOneFuture | crates/ruststream-sqs-sns/src/in_process/bus.rs:678-745 | in every reachable state, a message in flight has an unsettled handle and no timer, or no handle and exactly one timer that counts, or is forsaken and has neither |
| Futures.StepSpares | crates/ruststream-sqs-sns/src/in_process/bus.rs:611-745 | a step that is neither about a message's unsettled handle nor the firing of its counting timer leaves its flight, handle and timers alone |
| Returns.ForsakenExactly | crates/ruststream-sqs-sns/src/in_process/deliveries.rs:194-206 | in every reachable state, the forsaken messages are exactly those whose unsettled handle a drop let go with a visibility ending past the twelve hours |
| Returns.PunctualForsakesNone | crates/ruststream-sqs-sns/src/in_process/deliveries.rs:194-206 | while each drop reads its clock within ten seconds of the queue, no message is ever forsaken; settlements may be as late as they like |
| Returns.WaitsForItsTimer | crates/ruststream-sqs-sns/src/in_process/bus.rs:678-745 | over every run without the firing of its counting timer, a message stays in flight exactly as it was and the timer stays armed and current |
| Returns.BackAtItsTimer | crates/ruststream-sqs-sns/src/in_process/bus.rs:718-745 | the firing that ends the wait comes at or after the timer is due; the message is then out of flight, and visible where somebody reads, dropped where nobody does |
| Returns.NeverEarly | crates/ruststream-sqs-sns/src/in_process/bus.rs:678-745 | until the clock reaches what its timer is due at, whatever steps follow, the message is in flight and visible on no queue |
| Returns.SettlementArms | crates/ruststream-sqs-sns/src/message.rs:308-349 | after any run, a settlement granted a time arms the one counting timer, due when that time is up, and the message is out of sight until then, whatever follows |
| Returns.DropArms | crates/ruststream-sqs-sns/src/in_process/deliveries.rs:194-206 | after any run, a granted drop of an unsettled handle does so with the visibility it has left |
| Returns.DeferredRetryHolds | crates/ruststream-sqs-sns/src/message.rs:328-349 | after any run, a deferred retry keeps its message out of sight for its whole delay, over every continuation, if and only if the delay in whole seconds fits what is left of the window |
| Futures.SettlementGranted | crates/ruststream-sqs-sns/src/message.rs:308-349 | in every reachable state, what a settlement asks for is refused exactly when it ends past twelve hours from the receive, and never while the clock moves at most ten seconds in between |
| Futures.DropGranted | crates/ruststream-sqs-sns/src/in_process/deliveries.rs:194-206 | in every reachable state, what an unsettled drop asks for is refused exactly when it ends past twelve hours from the receive, and never within the same ten seconds |
| Redrives.RunTallies | crates/ruststream-sqs-sns/src/in_process/bus.rs:640-645 | in every reachable state, the receive count a message carries is how often it was handed over, as a saturating 32-bit count, dead-letter moves included |
| Redrives.HandoverWithinCap | crates/ruststream-sqs-sns/src/in_process/bus.rs:624-645 | the n-th time a message is handed over it reports n, and a queue under a cap hands it over only while n is within the cap |
| Redrives.AtMostCap | crates/ruststream-sqs-sns/src/in_process/bus.rs:624-630 | in every run, a queue under a cap at each of its receives hands each message over at most that often |
| Redrives.DiscardReturnsUsedUp | crates/ruststream-sqs-sns/src/message.rs:237-322 | a discard deletes its message, except on a delivery that used up the policy's receives: that one comes back unchanged |
| Redrives.SpentIsNeverHanded | crates/ruststream-sqs-sns/src/in_process/bus.rs:624-662 | a message the policy ran out for is never handed over: a receive reaching it shows it on the dead-letter queue, one that does not reach it had `max` before it |
| Redrives.UsedUpDiscardIsMoved | crates/ruststream-sqs-sns/src/message.rs:237-322 | after any run, a discard of a used-up delivery shows its message again, and while the queue's cap is at most the delivery's, every later receive that reaches it moves it and none hands it over |
| Handovers.PolicyInForce | crates/ruststream-sqs-sns/src/in_process/bus.rs:425-455 | after any run, each queue is under the policy the last accepted call wrote onto it, read off the calls alone: that call's cap and the key of the dead-letter queue it named |
| Handovers.HandsOverExactly | crates/ruststream-sqs-sns/src/in_process/bus.rs:611-645 | after any run, a receive hands over exactly the first `max` messages whose group has nothing in flight and which were handed over fewer times than that policy's cap, each carrying its new number |
| Handovers.ReceiveDecides | crates/ruststream-sqs-sns/src/in_process/bus.rs:611-662 | after any run, each visible message's fate in a receive: in its turn handed over and in flight, or, handed over as often as the cap, moved and shown on the dead-letter queue; otherwise left visible |
| Handovers.RedriveGoverns | crates/ruststream-sqs-sns/src/in_process/bus.rs:425-455 | an accepted redrive call governs every later receive of its queue until the next accepted one: handovers stay within that cap, and what is moved was handed over that often and is shown on the queue that call named |
| Handovers.HandoversAreReceives | crates/ruststream-sqs-sns/src/in_process/bus.rs:624-645 | the number of handovers the history records of a message is the number of receives of the run that handed it over |
| Messages.Delivery.Acknowledge | crates/ruststream-sqs-sns/src/message.rs:296-299 | the object deletes through its receipt as the acknowledging step says |
| Messages.Delivery.Reject | crates/ruststream-sqs-sns/src/message.rs:308-322 | a rejected delivery returns or deletes its message as the rejecting step says, used-up ones included |
| Messages.Delivery.RejectAfter | crates/ruststream-sqs-sns/src/message.rs:328-349 | a deferred retry asks for its delay in whole seconds, cut to the window left, as the step says |
| Messages.Delivery.Release | crates/ruststream-sqs-sns/src/in_process/deliveries.rs:194-206 | letting the handle go does to the account what the dropping step says |
| Settlements.AckDeletes | crates/ruststream-sqs-sns/src/message.rs:296-299 | after any run, an acknowledgement settles its delivery and takes its message, and no other, out of the account; whatever follows, the message never comes back |
| Settlements.RequeueReturns | crates/ruststream-sqs-sns/src/message.rs:308-322 | after any run, a requeue takes its message out of flight unchanged, shows it again where somebody reads the queue, and touches no other queue |
| Settlements.DeliveryStays | crates/ruststream-sqs-sns/src/in_process/bus.rs:611-645 | over any run, a delivery still to be settled is the one its receive handed over: same message in flight, same handle, with the visibility and cap its subscription was opened with |
| Settlements.DiscardDecided | crates/ruststream-sqs-sns/src/message.rs:237-322 | whenever a delivery is discarded, its message comes back if by its receive it had been handed over at least as often as its registration's cap; otherwise it is gone |
| Settlements.DroppedAsExtended | crates/ruststream-sqs-sns/src/in_process/deliveries.rs:194-223 | whenever a delivery is dropped unsettled, its message is out of sight over every continuation for exactly what the closed form leaves of its subscription's visibility, which for the timeouts where the two agree is what the extension loop would have left |
| Provenance.EveryMessageWasSent | crates/ruststream-sqs-sns/src/in_process/bus.rs:458-745 | after any run, each message visible or in flight is one that a send or publish of the run carried, unchanged, and its number was drawn by that step |
| Provenance.DeliveredAsFramed | crates/ruststream-sqs-sns/src/in_process/bus.rs:327-349 | whatever happened in between, a delivery reports how often its message was handed over by then, and a handler reads the payload and headers the message was framed from by an earlier step |
| Groups.RunKeepsKinds | crates/ruststream-sqs-sns/src/in_process/bus.rs:425-588 | in every reachable state, messages carry a group exactly on FIFO queues, visible or in flight, and policies point at queues of the same kind |
| Groups.FramedAcceptedExactly | crates/ruststream-sqs-sns/src/in_process/mod.rs:112-160 | a framed message is accepted exactly when its payload is not empty, each carried header has a name and value the service takes, it fits the size and its FIFO ids are well formed; its text, kind and base64 marker are never what is refused |
| Groups.LinkRefusedExactly | crates/ruststream-sqs-sns/src/in_process/bus.rs:537-558 | a subscription to a topic is refused exactly when some message the topic accepts would arrive at the queue as one of the wrong kind |
| Names.AddressedAlike | crates/ruststream-sqs-sns/src/in_process/bus.rs:206-238 | the key a name is filed under and the queue's URL address the same queue again, and the key is FIFO exactly when the name ends in the lower-case suffix |
| Visibility.ExtendVisibility | crates/ruststream-sqs-sns/src/message.rs:376-442 | the extension task ends for every latency of its calls, and makes the calls the tick-by-tick recursion lists |
| Visibility.ClosedFormRefinesLoop | crates/ruststream-sqs-sns/src/in_process/deliveries.rs:213-223 | among whole-second timeouts, the closed form equals the loop at every hold time if and only if the timeout s is at most 43190 and either s or the rounded-up quotient 86379 / s is even |
| Visibility.LoopCutsClosedForm | crates/ruststream-sqs-sns/src/in_process/deliveries.rs:213-223 | for every timeout up to 43190 s the loop's deadline is the closed form's, cut where the loop's last call ends |
| Visibility.OddTimeoutParts | crates/ruststream-sqs-sns/src/in_process/deliveries.rs:213-223 | an odd timeout whose last call is on a half second parts from the loop at half a second before the reach |
| Visibility.EvenSecondsAgree | crates/ruststream-sqs-sns/src/in_process/deliveries.rs:213-223 | an even timeout up to the window less its margin: closed form and loop agree at every hold time |
| Visibility.WithinHalfASecond | crates/ruststream-sqs-sns/src/in_process/deliveries.rs:213-223 | any timeout up to that: the closed form is never early and at most half a second late |
| Visibility.RearmsInTime | crates/ruststream-sqs-sns/src/message.rs:362-418 | the first call comes before the receive's timeout lapses; a later one is in time exactly when the call before it took under half the timeout |
| Visibility.RearmsAccepted | crates/ruststream-sqs-sns/src/message.rs:376-442 | the queue accepts every extension, up to ten seconds late and whatever the calls take |
| Visibility.DriftPastMarginRefused | crates/ruststream-sqs-sns/src/message.rs:49-57 | the margin is exact: for any longer drift some drop and some retry are refused |
| Wire.RoundTrip | crates/ruststream-sqs-sns/src/message.rs:445-634 | reading back a framed message gives the same payload bytes and headers for every payload and header map; on a FIFO destination the partition key is the group of the call, else the header, else the mount site, else the default, and the id is the call's or the crate's |
| Wire.FramedExactly | crates/ruststream-sqs-sns/src/in_process/mod.rs:112-128 | a message is framed exactly when no header takes the marker's name, its attributes with the marker are at most ten, and a standard destination is given no FIFO setting |
| Wire.FramedAsText | crates/ruststream-sqs-sns/src/message.rs:489-601 | payload and header values that are text the service carries travel as they are; anything else as base64 with the marker, or as a binary attribute |
| Wire.StandardCopyRoundTrip | crates/ruststream-sqs-sns/src/in_process/bus.rs:483-533 | the standard-queue copy of a FIFO topic's message keeps payload and headers but the partition key |
| Wire.AcceptedGroupIsTheHeader | crates/ruststream-sqs-sns/src/message.rs:542-601 | a header-chosen group that the service takes is the header's own bytes, so all headers come back as sent |
| Wire.EncodedBodyIsServiceText | crates/ruststream-sqs-sns/src/message.rs:489-513 | every encoded body is text the service carries, and empty only for an empty payload |
| Wire.ReceiveCountRoundTrip | crates/ruststream-sqs-sns/src/message.rs:151-156 | the receive count read back is the one the queue wrote |
| Wire.EncodeAttributes | crates/ruststream-sqs-sns/src/message.rs:542-601 | the walk over the headers, in any order, gives one attribute per carried header, the partition key aside on FIFO, and refuses the reserved name and an eleventh attribute |
| Wire.DecodeMessage | crates/ruststream-sqs-sns/src/message.rs:445-481 | the walk over the attributes, in any order, gives the headers and drops only the crate's own marker |
| Wire.Framer.FreshId | crates/ruststream-sqs-sns/src/publisher.rs:282-290 | the id of the next number, different from those of all earlier numbers |
| Wire.Framer.Frame | crates/ruststream-sqs-sns/src/in_process/mod.rs:112-128 | one framing, and a number drawn only when a FIFO send leaves its id to the crate |
| Wire.CrateIdInjective | crates/ruststream-sqs-sns/src/publisher.rs:282-290 | ids of different numbers of one process differ |
| Wire.CheckMessage | crates/ruststream-sqs-sns/src/in_process/bus.rs:243-266 | the loop's verdict is the whole rule: text the service carries, named and non-empty attributes, total size |
| Base64.DecodeEncode | crates/ruststream-sqs-sns/src/message.rs:445-513 | decoding the base64 lane gives the payload back (section 4 of RFC 4648) |
| Base64.EncodeDecode | crates/ruststream-sqs-sns/src/message.rs:445-481 | the reader is strict: it accepts nothing the writer would not write |
| Utf8.LossyAscii | crates/ruststream-sqs-sns/src/message.rs:542-601 | text that is ASCII after lossy conversion was that text before it |
| Deduplication.RepeatIffFreshUse | crates/ruststream-sqs-sns/src/in_process/bus.rs:186-194 | with a monotone clock the pruned map answers duplicate exactly when some accepted use of the id is under five minutes old |
| Deduplication.AcceptedUsesApart | crates/ruststream-sqs-sns/src/in_process/bus.rs:186-194 | accepted uses of one id are at least five minutes apart; repeats do not extend the window |
| Deduplication.CrateIdsNeverCollapse | crates/ruststream-sqs-sns/src/publisher.rs:282-290 | sends that leave the id to the crate are never duplicates of each other |
| Duplicates.RunRemembers | crates/ruststream-sqs-sns/src/in_process/bus.rs:483-576 | in every reachable state, each queue's and topic's map is that of its full history of uses, which is in the order of time |
| Duplicates.SendCollapsesExactly | crates/ruststream-sqs-sns/src/in_process/bus.rs:458-588 | after any run, an accepted FIFO send brings nothing in exactly when nobody reads the queue or the history holds a fresh accepted use of its id |
| Duplicates.SendReachesExactly | crates/ruststream-sqs-sns/src/in_process/bus.rs:458-588 | after any run, an accepted send shows its message on its own queue, if somebody reads that and its id has no fresh accepted use there; every other queue shows what it did |
| Duplicates.PublishReachesExactly | crates/ruststream-sqs-sns/src/in_process/bus.rs:483-588 | after any run, an accepted publish shows its copy on exactly the topic's endpoints that somebody reads, unless its id has a fresh accepted use on the topic or, on a FIFO endpoint, on that queue; on every other queue nothing changes |
| Duplicates.CrateSendArrives | crates/ruststream-sqs-sns/src/publisher.rs:282-290 | after any run, a FIFO send that leaves its id to the crate is a duplicate of nothing before it: it arrives exactly when its queue is read, and uses its number up |
| Policy.WithTopicGrant | crates/ruststream-sqs-sns/src/queue_policy.rs:79-110 | refused exactly when the document has no statements to merge into; nothing to write when granted; otherwise the document with the grant appended |
| Policy.GrantIsForOneTopic | crates/ruststream-sqs-sns/src/queue_policy.rs:113-163 | the added statement grants its own topic and no other, by the crate's own reading of statements |
| Policy.GrantsAreAppended | crates/ruststream-sqs-sns/src/queue_policy.rs:79-110 | after any list of topics the operator's statements stay first and in order, one statement follows per newly granted topic, other fields are untouched, and a list already granted changes nothing |
| Policy.UngrantedOnce | crates/ruststream-sqs-sns/src/queue_policy.rs:79-110 | the topics added for are exactly those of the list not granted before, each once |
| Policy.GrantedAfterAll | crates/ruststream-sqs-sns/src/queue_policy.rs:79-141 | after the list exactly the topics granted before and those of the list are granted |
| Policy.RepeatWritesNothing | crates/ruststream-sqs-sns/src/queue_policy.rs:79-110 | granting the same topics again, in any order and number, writes nothing |
| Policy.GrantPermits | crates/ruststream-sqs-sns/src/queue_policy.rs:113-122 | read element by element, the added statement lets through exactly the SNS service's send to this queue on the topic's behalf |
| Policy.GrantsIsPermission | crates/ruststream-sqs-sns/src/queue_policy.rs:128-163 | what the merge takes for a grant is a statement that lets the topic deliver into the resources it names, whichever those are |
| Policy.PermittedAfterAll | crates/ruststream-sqs-sns/src/queue_policy.rs:79-121 | after a list of topics was granted in turn, the document lets through exactly what it did before and the delivery into this queue of each listed topic it held no grant for |
| Policy.MayDeliverExactly | crates/ruststream-sqs-sns/src/queue_policy.rs:79-163 | after the list a topic may deliver into the queue if and only if it was not granted before or something already let it |
| Policy.OtherQueueTakenForGranted | crates/ruststream-sqs-sns/src/queue_policy.rs:128-141 | the case where it may not: a statement for the topic that names another queue is taken for the grant, and nothing is written |
| Policy.NewDocument | crates/ruststream-sqs-sns/src/queue_policy.rs:84-110 | a queue without a policy gets a versioned document of the grants and nothing else |
| Routing.Notes.Subscribe | crates/ruststream-sqs-sns/src/in_process/routing.rs:62-72 | a queue is recorded once per topic, in order |
| Routing.Notes.FannedOut | crates/ruststream-sqs-sns/src/in_process/routing.rs:75-82 | the recorded queues, or nothing when there are none |
| Routing.Notes.Publish | crates/ruststream-sqs-sns/src/in_process/routing.rs:85-100 | one publish counted on its surface |
| Routing.Notes.NextSurface | crates/ruststream-sqs-sns/src/in_process/routing.rs:104-123 | the answer of the current turn, and the question counted by a wrapping 64-bit counter |
| Routing.TalliesCount | crates/ruststream-sqs-sns/src/in_process/routing.rs:85-123 | after any publishes and questions, a destination's tally is the number of its publishes by surface |
| Routing.PassIsFair | crates/ruststream-sqs-sns/src/in_process/routing.rs:104-123 | from any position, as many questions in a row as there were publishes are answered with each surface exactly as often as it was published through |
| Routing.Core.SubscribeQueueToTopic | crates/ruststream-sqs-sns/src/broker.rs:749-758 | a subscription the account accepts is recorded; a refused one changes neither record |
| Routing.Core.DeclareFanOut | crates/ruststream-sqs-sns/src/in_process/mod.rs:205-221 | a declaration links its queues up to the first one refused, on the account and in the record |
| Routing.Core.ReachedQueues | crates/ruststream-sqs-sns/src/in_process/mod.rs:235-258 | the topic's queues or the queue of the name, by the current turn, with the fallbacks of a name never published to |
| Routing.Core.Routes | crates/ruststream-sqs-sns/src/in_process/mod.rs:332-345 | the positions listed are those of the reached queues, sorted and without repeats |
| Routing.RecordAgrees | crates/ruststream-sqs-sns/src/in_process/mod.rs:205-221 | after any subscriptions and declarations, refused ones included, the recorded queues of a topic are the endpoints the account delivers to, in order and once each |
| Routing.RoutesAre | crates/ruststream-sqs-sns/src/in_process/mod.rs:332-345 | the routes are strictly increasing and are exactly the first subscription of each reached queue that has one |
| Routing.EndpointsExactly | crates/ruststream-sqs-sns/src/in_process/bus.rs:537-558 | after any subscriptions and declarations, a topic's endpoints are exactly the queues that some call subscribed, those a declaration names behind a refused one excepted |
| Routing.EndpointsGrow | crates/ruststream-sqs-sns/src/in_process/bus.rs:537-558 | later calls only add endpoints behind those there are |
| Routing.TurnByHistory | crates/ruststream-sqs-sns/src/in_process/routing.rs:104-123 | a question is about the queue exactly when the number of questions before it, counted round the publishes, falls among those through the queue |
| Routing.PassReaches | crates/ruststream-sqs-sns/src/in_process/mod.rs:235-258 | over one pass of questions about a name, the answers are the account's endpoints of its topic as often as it was published to through the topic, and its own queue as often as through the queue |
| Routing.NeverPublished | crates/ruststream-sqs-sns/src/in_process/mod.rs:235-258 | a name never published to is answered by its topic's endpoints, where there are any, and else by its own queue, however often it is asked about |
| Routing.PassOwes | crates/ruststream-sqs-sns/src/in_process/mod.rs:332-345 | over one pass a subscription is owed each topic publish if it is the first on an endpoint, and each queue publish if it is the first on the name's own queue |
| Clients.Thread.WithPlaced | crates/ruststream-sqs-sns/src/clients.rs:152-196 | the set used and the entries left by one request: the recorded choice, the broker's own set outside any runtime, or a new choice behind the retained entries |
| Clients.AtMostOneEntry | crates/ruststream-sqs-sns/src/clients.rs:152-188 | in every reachable state a thread holds at most one entry per broker, live or gone |
| Clients.PruningIsInvisible | crates/ruststream-sqs-sns/src/clients.rs:152-188 | in every reachable state a request is answered as by a memo never pruned that tells brokers apart by more than their address, and builds a set exactly where that would |
| Clients.FirstChoiceStays | crates/ruststream-sqs-sns/src/clients.rs:152-188 | while a broker lives, the choice a thread recorded for it answers every later request |
| Clients.RecordingPrunes | crates/ruststream-sqs-sns/src/clients.rs:172-188 | a request that records a choice leaves no entry of a broker that is gone |
| Clients.HomeExactly | crates/ruststream-sqs-sns/src/clients.rs:152-196 | after any run, a request goes through its broker's own set if and only if the first request of that broker its thread made from within a runtime ran on the runtime the broker connected on, or there was none; never through another broker's set |
| Clients.SetsAreOwn | crates/ruststream-sqs-sns/src/clients.rs:172-188 | two requests answered with sets built since share one if and only if they are of one thread and one broker |

## Left out

- The AWS transport: SDK calls, credentials, queue and topic lookups, the network receive loop, and the HTTP clients are I/O whose results the code does not decide.
- The harness log of sent messages and the error texts of refusals; a refusal is modelled by its reason.
- The coordinator is two counters and a set of armed timers, installed before the first message; timers may fire at any moment from when they are due.
- Locking: each method that takes the account's lock is one atomic step. The counting-out loop that `close` runs after it unlocks is part of the close step.
- The wait loop of a subscription is the phases of `World.Reader`, not a method; the batch window sleep is any time between looking and receiving.
- `notify_waiters` is a count of wakes, and a registered interest is the count at which it was registered.
- The ordered map of visible messages is a sequence in key order, and the maps of queues, attributes and headers are finite maps walked in any order.
- `next_id`, the visibility generation, the publish tallies and the number behind the crate's own deduplication ids are unbounded; the receive count saturates at 32 bits and the question counter of a tally wraps at 64 bits as in the code.
- Routing.PassIsFair: assumes the question counter does not wrap within the questions counted, since a wrap in the middle of a pass restarts the turns.
- Redrives.AtMostCap: assumes nothing about other queues, so a message moved on may be handed over by its dead-letter queue as often as that queue's own policy allows, its count going on from where it was.
- Wire.ReceiveCountRoundTrip: does not model the whitespace and the leading plus sign the integer parser also takes, because the queue writes plain digits.
- InProcess.Receipt.Drop: excludes a visibility of one nanosecond, whose half is zero; a descriptor's visibility is whole seconds.
- Names of queues, topics and headers are Dafny strings, and texts (bodies, groups, ids, header values) are their UTF-8 bytes.
- JSON parsing and printing, and the 64-bit hash behind a statement id: a policy is a JSON value, and the id is any function of the topic.
- Clients.Thread.WithPlaced: leaves out the thread being torn down, where the broker's own set is used, and what a client set holds.
- The descriptor builders, retry declarations and redrive policy records of the broker, AsyncAPI bindings, and the topic and queue administration: they hold no property that spans operations.
