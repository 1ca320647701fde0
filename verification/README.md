# A model of the MQ Light blocking client

These Dafny files model the parts of the Ruby client whose correctness cannot be read off one function, and prove
properties of them for all inputs, all runs and all interleavings.

## What is modelled

**The request engine.** Caller threads hand requests through a mutex, a condition variable and a queue to a command
thread, which sends, subscribes, unsubscribes and receives, and retries when the connection is lost. The proton thread
reconnects meanwhile, fails over between services and subscribes again to every destination.

* `client.dfy` holds what the command thread shares with everything else, as one value (`Client`), and what the other
  threads and the server can do to it (`Event`). The others act only where the command thread sleeps, waits or does not
  hold the container mutex. Each such point is one `Tick`: a list of events, then what the proton library and the clock
  answer. A theorem about every sequence of ticks is a theorem about every interleaving.
* `receive.dfy`, `send.dfy`, `subscription.dfy` and `request.dfy` specify the command thread as functions of a sequence
  of ticks. `command.dfy` is the same code in the form it is written in, classes whose methods change their fields
  step by step and loop; every method is proved to compute its specification.
* `credit_protocol.dfy` and `receive_theorems.dfy` carry the credit and drain invariant, `attempt_shape.dfy` and
  `reply_ledger.dfy` the count of replies and settled messages, `at_least_once.dfy` and `own_report.dfy` the retried
  sends, `blocking_client.dfy` the caller's side and `confirm.dfy` the confirm procedure of a delivery.
* `trace.dfy`, `send_verdict.dfy`, `receive_verdict.dfy`, `subscription_verdict.dfy`, `rescue.dfy` and `call_outcome.dfy`
  say what a request is answered, in terms of its ticks alone: which replies, which state and which retries follow when
  the timeout fires, a status is read, a message comes in or a call fails. `timeout_run.dfy` is one such run.
* `scenarios.dfy` puts concrete runs together one tick at a time, for `misrouting.dfy` and `overtaken.dfy`, where things go
  wrong.
* `handshake.dfy` is the monitor between callers, command threads and the proton thread, with one step for each access to
  a shared variable; `cycle.dfy` has the turns of its threads, `restart.dfy` is one run of it.
* `connection.dfy` is the connect loop over services with its end points, callbacks and pace, `connect_outcome.dfy` what
  state it ends in for each error; `thread_vars.dfy` the shared variables; `pump.dfy` the thread that moves bytes from the socket to the proton engine; `destination.dfy`
  and `delivery.dfy` the addresses and the topics read back from them.

**The value codec.** Ruby values are written to and read from a tree of AMQP values through a cursor.

* `values.dfy` has the Ruby values with what Ruby calls equal when it looks up a hash key, `cursor.dfy` the tree as a
  zipper and the `Data` object that moves through it, `binding.dfy` how the generated binding takes integers, `codec.dfy`
  what each mapping makes of a value and of a node.
* `mapping.dfy` has the writers and readers that drive the cursor, proved against `codec.dfy`; `round_trip.dfy` and
  `normal_form.dfy` what comes back, `class_trip.dfy` the same class by class; `utf8.dfy` says which strings are valid;
  `message.dfy` has the four data sections of a message.
* `encoders.dfy` has the loops that double a buffer, `hex.dfy` uuid and decimal128.

## What the code does not do

Some things one would expect of the code, or that its comments say, do not hold. The code is modelled as it is, and each
has a lemma with an input that shows it, or the exact condition.

* A receive can be given the message of another destination. `OpenIsSafeIff` says exactly when opening a receive is safe,
  and `ReceivesAreRouted` covers all runs in which every receive was. Two runs of two subscribes and two receives show what
  happens otherwise. A receive that a reconnect overtakes between the check of the sockets and the opening of the link
  issues its credit on the new messenger, sees that the client is not started and answers nil, and the credit stays
  (`OvertakenReceiveMisroutes`). A receive whose open reports a state error is tried again, and when its message has come
  in meanwhile it issues a second credit, which stays (`RetriedReceiveMisroutes`).
* A send whose messenger is replaced before its status is read is answered nil, because a messenger without a put
  reports the code 0 and 0 counts as success (`LostSendIsAnsweredNil`). A nil answer is a report on the send exactly if
  no messenger was freed or made between the last put and the deciding read (`NilIsOwnReportIff`).
* A receive whose acknowledgement fails after its message was replied is answered again. At QoS 0 it is tried again, and
  one receive is answered with two messages (`RefusedAcceptAnswersTwice`). If its messenger was freed meanwhile, it is
  answered with a failure, at QoS 1 as well, provided that calls on a messenger that is nil raise
  (`FreedReceiveAnswersTwice`). No other request has more than one reply (`ManyRepliesOnlyIfAcknowledged`).
* A reply that a failed unsubscribe or a failed acknowledgement leaves behind is popped by the next subscribe or receive
  (`PopsItsOwnIffQueueEmpty`).
* A subscribe that is answered with an error is recorded, and so subscribed again on every reconnect; one that times out
  is not, even if its link comes up (`RequestLoop.Process`). One that a reconnect overtakes is answered as a success and
  recorded, but has no link on the new messenger (`RecordedHasLinkIff`, `OvertakenSubscribeHasNoLink`).
* A destination that is removed while the links are reinstated can make the loop leave another one out
  (`RemovalLeavesOneOut`). What it subscribes again is exactly what is recorded at its end if no destination is removed at
  or before the one that is awaited; and only then, if no address is recorded twice (`ReinstatesAllIff`).
* When the connect of a service raises, its end point has no threads yet, and closing it raises too. No later connect of
  the client gets past the first service (`BareEndPointIsForever`).
* The shutdown flag of the command object is never reset, so that a client can refuse every request after a new start
  (`ShutdownIsForever`, `RestartIsRefused`). It does exactly if some command thread has found it stopped right after a
  request (`PushesIffNeverShutDown`).
* Over TLS the topic of a delivery is its whole address (`SecureServiceKeepsAddress`, `TopicsRecoveredIffPlain`).
* When the list of services cannot be made, the client is stopped with its old end point still live
  (`StoppedLeavesEndPointIff`).
* The error text of confirm speaks of a reconnect, but an automatic reconnect is not noticed (`ReconnectIsNotRefused`).
* nil and false, or a symbol and its name, become one key of a hash (`KeysCollide`); a list cannot be nested in a list or a map
  (`NestedListIsRefused`); a BinaryString whose encoding is UTF-8 is sent as text (`StaysBinaryIff`).
* Integers beyond 32 bits in an AMQP array of the type uint, int or char are cut to 32 bits, where other types refuse
  what they cannot hold (`WholesComeBackIffInRange`). Nil as a symbol or as binary data, and so as a key of the message
  annotations, becomes an empty string, and a number among booleans true or false (`NumbersAndNilAreChanged`).
* The header of a described array comes back equal only if its descriptor is ASCII or has the encoding ASCII-8BIT
  (`HeaderComesBackIff`).
* `valid_uuid?` searches for its pattern anywhere, but the fields are cut from the start of the string
  (`UuidRoundTripIff`).
* proton_push answers 0 while there is no messenger, and the loop over a chunk does not look at the state, so that it
  goes on for as long as the answers are 0 (`UnfinishedIff`, `StaysWithoutMessenger`).

## What is assumed of the libraries

* Proton: a link starts without credit and gets it only from `pn_link_flow`; `pn_messenger_recv(-2)` adds none. A
  message takes one credit of the link it comes over. `pn_link_draining` holds while a draining link has credit, and
  `pn_link_flow` ends drain mode. `pn_messenger_get` takes the head of the incoming queue. A messenger without a put
  answers the status 0. What is done to a link of an abandoned messenger has no effect on the current one, and what is
  asked of it may answer anything. `connect` raises only Qpid errors and InternalError.
* A call on a messenger that is nil raises an exception. The binding itself checks for NULL only in some functions,
  `pn_messenger_get` and `pn_messenger_put` among them, and hands it to the C library in others, such as
  `pn_messenger_accept` and `pn_messenger_settle`; what that library does with it is not part of this model. Of the runs in
  `misrouting.dfy`, `overtaken.dfy` and `at_least_once.dfy` only the one of `FreedReceiveAnswersTwice` needs this.
* The cursor calls do what the comment of the class `Data` says. What the binding makes of the values it is given is
  modelled as `ext/cproton/cproton.c` has it: narrow integers are checked, and 32-bit ones cut from 64 bits; `bool=` takes
  C integers, `double=` integers, and nil is empty binary data or an empty symbol. Of a value that is neither a string
  nor nil given to `binary=` or `symbol=`, which the binding reads as a string all the same, nothing is claimed: the model
  has the failure `Undefined` there. `value < 0` on a hash raises TypeError, as Ruby has it since Hash can be compared.
  A described array node has its descriptor. Binary and symbol data come back as strings of the encoding ASCII-8BIT, and a
  16-byte datum holds sixteen bytes.
* Ruby: `Timeout` fires only while a thread sleeps or waits, and takes 0 as no timeout, although the documentation of send
  calls `timeout: 0` an immediate one: a request is `timed` only if its timeout can fire. One call of `change_state` is one
  step; strings used as keys are eql if their bytes are and, unless they are ASCII, their encodings; hashes compare
  without order.

## Model

| member | source | states |
|---|---|---|
| ReceiveTheorems.ReceivesAreRouted | lib/mqlight/command.rb:183-234 | In every run of requests of every kind in which each receive was opened openable and none ended in an unexpected exception, every message returned came over the link of the destination asked for; at the end of a started client no link has credit, nothing is buffered and all that arrived was handed over in order |
| ReceiveTheorems.OpenIsSafeIff | lib/mqlight/proton_container.rb:460-492 | Opening a receive leaves every completion at a clean request boundary if and only if no connect is in progress and, while started, nothing is buffered |
| ReceiveTheorems.NewClientIsRouted | lib/mqlight/command.rb:183-234 | The same for every run of a new client |
| Misrouting.OvertakenReceiveMisroutes | lib/mqlight/command.rb:190-191 | A run of two subscribes and two receives from a new client, without any exception, in which a reconnect overtakes the first receive and the second is given the message of the first one's destination |
| Misrouting.RetriedReceiveMisroutes | lib/mqlight/command.rb:308-313 | The same without a reconnect, where the first receive is tried again after a state error |
| ReceiveTheorems.NilStrandsNothing | lib/mqlight/command.rb:196-214 | A receive that answers nil on a started client has finished its drain: no credit anywhere, an empty queue, and every message that raced with the timeout handed over |
| ReceiveVerdicts.TimedOutAnswersNothing | lib/mqlight/command.rb:196-214 | A timed receive whose timeout fires before any message, on a client still started, and whose drain then ends without one, is answered once, with nil, whatever else goes on in its ticks; and so is one whose client stops being started while it drains |
| ReceiveVerdicts.TimedOutAnswersMessage | lib/mqlight/proton_container.rb:511-530 | If a message has come in by the end of the drain, it is answered with the head of the queue instead |
| TimeoutRuns.CreditGivenBack | lib/mqlight/command.rb:196-214 | On any started client with nothing out: the timeout fires, the server gives the credit back, and the one reply is nil |
| TimeoutRuns.MessageTakesCredit | lib/mqlight/command.rb:196-228 | The same run with a message that takes the credit: the one reply is that message |
| ReceiveVerdicts.MessageIsDelivered | lib/mqlight/command.rb:196-228 | A receive that sees a message while it waits is answered once, with the head of the queue |
| ReceiveVerdicts.LostWaitAnswersNothing | lib/mqlight/command.rb:198-214 | One whose client is not started at the end of the wait is answered nil |
| ReceiveVerdicts.LateTimeoutAnswersNothing | lib/mqlight/command.rb:202-214 | One that times out when the client is not started any more is answered nil without a drain |
| ReceiveVerdicts.FailedOpen | lib/mqlight/proton_container.rb:460-492 | At the opening of its link a receive fails for a nil messenger, for a missing link with an InternalError, and for an error of the messenger with that |
| ReceiveVerdicts.StateErrorIsChecked | lib/mqlight/command.rb:308-313 | A state error at the opening has it tried again with its credit issued, in the state that the check of the messenger leaves: stopped after a takeover, retrying after another error or closed sockets |
| ReceiveVerdicts.WaitLosesMessenger | lib/mqlight/proton_container.rb:496-503 | A messenger found gone during the wait is a failure |
| ReceiveVerdicts.DrainLosesMessenger | lib/mqlight/proton_container.rb:511-530 | And so it is during the drain |
| ReceiveVerdicts.FailedTake | lib/mqlight/proton_container.rb:535-553 | What a receive fails for at the get, before any reply: no messenger, a timeout, another error, an empty queue, a message that cannot be decoded |
| ReceiveVerdicts.StateErrorAtTake | lib/mqlight/command.rb:308-313 | A state error there has it tried again |
| ReceiveVerdicts.AcknowledgementRaises | lib/mqlight/command.rb:217-228 | An acknowledgement that finds no messenger fails after the reply |
| ReceiveVerdicts.RefusedAcceptGoesBack | lib/mqlight/proton_container.rb:600-607 | An accept that reports an error sets retrying and has the receive tried again, its reply pushed |
| ReceiveVerdicts.RefusedSettleIsFinished | lib/mqlight/proton_container.rb:578-582 | A settle that reports an error leaves the answer as it is; the error text may stop the client or make it retry |
| ReceiveTheorems.ConnectingLeavesCredit | lib/mqlight/proton_container.rb:460-492 | Opened while a connect is in progress, a receive can finish with its credit left on the link |
| ReceiveTheorems.BufferedLeavesCredit | lib/mqlight/proton_container.rb:496-503 | Opened with a message buffered, a receive can take that one and finish with its own credit left |
| ReceiveTheorems.ProcessIsSound | lib/mqlight/command.rb:273-321 | One request with all its retries, from a clean boundary, ends at a clean boundary with all replies routed |
| CreditProtocol.DrainLoopIsSound | lib/mqlight/proton_container.rb:511-530 | From one credit or one message in flight on the receive's own link, the drain ends with neither, on whatever messenger is then current |
| ReplyLedger.RequestIsBalanced | lib/mqlight/command.rb:273-339 | Over all retries a send, subscribe or receive that ends has pushed exactly one reply, its own, plus one for each acknowledgement that failed after its message was replied, and none when it returns at the stopped check; only a receive at an acknowledged destination has such failures, and only one at QoS 0 more than one; a successful unsubscribe pushes none; a receive that finishes settles its own message once unless its messenger was replaced |
| ReplyLedger.ManyRepliesOnlyIfAcknowledged | lib/mqlight/command.rb:210-228 | More than one reply is pushed only to a receive at a destination of QoS 0 or of QoS 1 with auto-confirm, and more than two only at QoS 0 |
| OvertakenRequests.FreedReceiveAnswersTwice | lib/mqlight/command.rb:220-228 | For every such destination a run from a new client in which the receive is answered with its message and then with a failure, because the client was stopped and its messenger freed before the acknowledgement, which raises on a nil messenger |
| OvertakenRequests.RefusedAcceptAnswersTwice | lib/mqlight/command.rb:220-307 | For every destination of QoS 0 a run from a new client in which accept reports an error, the client reconnects, and the one receive is answered with a second message |
| RequestLoop.Process | lib/mqlight/command.rb:151-158 | Over all retries a subscribe records its destination once if it is answered, even with an error, and not at all if it times out, is rescued or finds the client stopped; no other request records one |
| Rescues.FailsOnlyFor | lib/mqlight/command.rb:300-339 | Over all retries a send or subscribe fails only for its own timeout or an exception that is not told apart, an unsubscribe also for a missing link, a receive never for a timeout of the request; none fails for a lost connection, a state error or a retry |
| Traces.Begins | lib/mqlight/command.rb:282-285 | A request waits through any ticks at which the client is retrying or starting, and is attempted when it is neither and not stopped |
| Traces.StoppedEnds | lib/mqlight/command.rb:285-285 | A request that finds the client stopped ends without a reply |
| Traces.WaitTimesOut | lib/mqlight/command.rb:322-331 | One that times out during that wait is answered with a TimeoutError, unless it is a receive, which does not |
| AttemptShapes.AcknowledgeShape | lib/mqlight/command.rb:217-228 | What is settled after a reply is the message just replied, since no other get comes between |
| AtLeastOnce.RetriesUntilAnswered | lib/mqlight/command.rb:71-117 | Every attempt at a send but the last was put and ended in an abort or the loss of started; a nil answer comes from a put and from a status that is no refusal, read on the put's messenger or, as unknown, on a newer one |
| AtLeastOnce.NilIsOwnReport | lib/mqlight/proton_container.rb:294-303 | Over any number of retries and reconnects, nil comes from an attempt that was put and read a status that is not rejected, released, modified or aborted; if the messenger of the put is still current at the end, the status is its own report |
| SendVerdicts.AnsweredByStatus | lib/mqlight/command.rb:71-117 | A send is answered by the status its own messenger reports at the deciding read: nil for accepted, settled, pending and none, a RangeError for rejected, an InternalError for released, modified and strange ones; whatever else goes on in its ticks |
| SendVerdicts.PutAgainUntilAnswered | lib/mqlight/command.rb:273-321 | However many attempts in a row are judged while the client is not started, or are aborted, the message is put again after each once the client is up and not stopped, and the request is answered once, by the status of the last |
| SendVerdicts.FailedPutIsAnswered | lib/mqlight/command.rb:118-128 | A put that fails is answered with a TimeoutError or an InternalError, and not tried again |
| SendVerdicts.BufferedBreaks | lib/mqlight/command.rb:73-74 | A send whose timeout fires, or whose messenger goes, while its message is buffered fails for that, with nothing logged |
| SendVerdicts.PendingBreaks | lib/mqlight/command.rb:78-82 | And so does one that waits for its status |
| SendVerdicts.NoMessengerFails | lib/mqlight/proton_container.rb:277-289 | Without a messenger to put on it fails |
| OwnReports.NilIsOwnReportIff | lib/mqlight/command.rb:71-83 | Over any number of retries, a nil answer rests on the report of the last put's own messenger if and only if no messenger was freed or made between that put and the read that decided |
| AtLeastOnce.ReplacedSendIsAnsweredNil | lib/mqlight/command.rb:83-112 | A send whose messenger has been replaced is answered nil as soon as the client is started again |
| AtLeastOnce.LostSendIsAnsweredNil | lib/mqlight/command.rb:71-117 | A run from a new client in which a send is answered nil though no messenger ever reported on it |
| BlockingClients.EachCallPopsItsOwnReply | lib/mqlight/blocking_client.rb:411-422 | With one calling thread and no failed unsubscribe or acknowledgement, the reply queue is empty between calls and each call that returns a reply returns the one to its own request; refused calls pop none |
| BlockingClients.PlainCallsAreTidy | lib/mqlight/blocking_client.rb:581-597 | A thread that never unsubscribes and has no acknowledged destination leaves no reply behind, whatever happens to its requests |
| BlockingClients.PopsItsOwnIffQueueEmpty | lib/mqlight/blocking_client.rb:489-494 | A call that returns a reply returns its own if and only if it is a send or found the reply queue empty |
| BlockingClients.FailedUnsubscribeLeavesReply | lib/mqlight/command.rb:332-336 | A failed unsubscribe leaves exactly its own failure at the end of the queue, a successful one nothing |
| BlockingClients.BlockingClient.Request | lib/mqlight/blocking_client.rb:376-597 | The state guard, the settle modes of a send or subscribe with their refusals, the look-up of the destination, push_request with its refusal after shutdown, and the pop come, step by step, to the specified call |
| BlockingClients.FirstMatch | lib/mqlight/blocking_client.rb:568-570 | Finds a recorded destination with the pattern and the share, and none only if there is none |
| CallOutcomes.NotStartedIff | lib/mqlight/blocking_client.rb:362-362 | A send, subscribe or receive is refused for not being started if and only if the client is stopped at the guard, an unsubscribe if and only if it is not started |
| CallOutcomes.RefusedIff | lib/mqlight/blocking_client.rb:528-597 | A call that passes the guard is refused for its QoS, a missing messenger, a destination that is not recorded, or the shutdown flag, each if and only if that is so and nothing before it was |
| CallOutcomes.PushedIsAnswered | lib/mqlight/blocking_client.rb:411-422 | Every other call is pushed, a send after clearing the reply queue and a receive for the first recorded destination that matches, and returns the head of the queue that the command thread leaves |
| CallOutcomes.UnsubscribeForgets | lib/mqlight/blocking_client.rb:653-665 | After an unsubscribe, failed or not, exactly the first destination that matches is no longer recorded |
| CallOutcomes.SendReturns | lib/mqlight/blocking_client.rb:355-430 | From the call to the network and back: a send returns or raises what its status asks for, and leaves the reply queue empty |
| CallOutcomes.TimedOutReceiveReturnsNil | lib/mqlight/blocking_client.rb:528-604 | A receive that times out and drains without a message returns nil |
| CallOutcomes.ReceiveReturnsMessage | lib/mqlight/blocking_client.rb:528-604 | One that sees a message returns it |
| SubscriptionPath.RecordedHasLinkIff | lib/mqlight/command.rb:142-158 | A destination that a subscribe has just recorded has a link on the current messenger if and only if that is still the one it was subscribed on |
| SubscriptionVerdicts.SubscribeIsAnswered | lib/mqlight/command.rb:135-158 | A subscribe is answered nil when its link comes up, with a SubscribedError when the messenger reports an error first, and with the exception of a nil messenger when that is gone, and is recorded each time; one that times out fails and is not |
| SubscriptionVerdicts.SubscribeNeedsMessenger | lib/mqlight/proton_container.rb:354-372 | Without a messenger it fails and is not recorded |
| SubscriptionVerdicts.UnsubscribeIsDone | lib/mqlight/proton_container.rb:401-452 | An unsubscribe ends without a reply when the remote end has closed the link, which is then gone from its messenger; it fails for its timeout or a nil messenger |
| SubscriptionVerdicts.UnsubscribeNeedsLink | lib/mqlight/proton_container.rb:410-418 | And for a missing link with an InternalError |
| OvertakenRequests.OvertakenSubscribeHasNoLink | lib/mqlight/command.rb:142-158 | A run from a new client in which the link of a subscribe has come up, the connection is lost and replaced before the subscribe looks, and it succeeds and is recorded; the client is started, and the receive fails for want of a link |
| Confirms.ConfirmSettlesIffSameMessenger | lib/mqlight/delivery.rb:84-93 | A confirm passes if and only if the client is started, was not started anew and has a messenger, and settles the message if and only if its messenger was not replaced |
| Confirms.ReconnectIsNotRefused | lib/mqlight/delivery.rb:87-89 | After an automatic reconnect a confirm passes and settles nothing |
| Handshake.ProcessedInPushOrder | lib/mqlight/command.rb:350-379 | In every reachable state, with any callers, command threads, kills and restarts, what was pushed is what is done, then the one in flight, then the queue, and at most one command thread has a request |
| Handshake.ReturnedAreDone | lib/mqlight/command.rb:390-409 | When push_request returns, its request has been popped and its processing is over |
| Handshake.GuardNeverStuck | lib/mqlight/connection.rb:204-212 | Whenever a command thread waits for the connection processing_command is set, so the reconnect guard holds while the state is retrying or starting |
| Handshake.NoPassOverAWait | lib/mqlight/connection.rb:204-217 | A pass of proton_loop that reads its guard piece by piece during one steady wait does not skip the connect |
| Cycles.PerformsOnlyWhenUp | lib/mqlight/command.rb:280-307 | In every step, a thread begins to perform a request only when it has just found the client not stopped, after finding it neither retrying nor starting; one that is not performed is finished only for its time or a stop |
| Cycles.TurnsOfTheThread | lib/mqlight/command.rb:280-321 | A wait whose time is up finishes the request, a retry keeps it in hand and sets retrying if the connection was lost, a thread that wakes on a stopped client ends |
| Cycles.RequestIsServed | lib/mqlight/command.rb:273-339 | A command thread that looks at a queue on a started client pops the head, performs it once and is back after eight steps, with the request done and the mutex free; on a stopped client it does not perform it, sets the shutdown flag and ends |
| Cycles.CallerReturnsIffEmpty | lib/mqlight/command.rb:403-407 | A caller that wakes returns if the queue is empty and goes back to wait if it is not |
| Cycles.PassConnectsIff | lib/mqlight/connection.rb:204-212 | A pass of proton_loop over a client no one else touches, which reads its guard piece by piece, connects if and only if the client is starting, or retrying with subscriptions or a request in processing |
| Handshake.ShutdownIsForever | lib/mqlight/command.rb:397-400 | Once the shutdown flag is set no request is ever pushed again, whatever is started anew |
| Restarts.RestartIsRefused | lib/mqlight/command.rb:373-376 | A run in which a client is stopped during a request and started anew; the next push is refused, and so is every later one |
| Handshake.ShutDownIff | lib/mqlight/command.rb:354-377 | The shutdown flag is set if and only if some command thread has found the client stopped right after a request; a stop while none is processed does not set it |
| Handshake.PushesIffNeverShutDown | lib/mqlight/command.rb:397-410 | A caller that comes to push, at any moment of any run, pushes if and only if that has never happened |
| Connections.AtMostOneEndPoint | lib/mqlight/connection.rb:85-154 | At every moment of every connect at most one end point is live, whatever other threads do to the state and the destinations |
| Connections.FailoverIsFirstMatch | lib/mqlight/connection.rb:85-152 | State, reason and service are those of the first service whose outcome is no network error, no later one is tried, and without one the client is retrying for the last network error; an end point runs when started and none is left when stopped; after a connect that raised, the first service fails at once |
| ConnectOutcomes.FailedLookUp | lib/mqlight/connection.rb:65-83 | A look-up that fails with a network error leaves the client retrying, any other failure leaves it stopped, with that for a reason, one callback and nothing else changed; an empty list changes nothing |
| ConnectOutcomes.ErrorDecides | lib/mqlight/connection.rb:116-143 | After network errors of the services before, a network error of the last one leaves the client retrying, a security error, a takeover or a failed subscription stops it and closes the end point, and any other error leaves the loop |
| ConnectOutcomes.LinkErrorStops | lib/mqlight/proton_container.rb:210-229 | A link that reports an error while it is reinstated stops the client |
| ConnectOutcomes.StopEndsSearch | lib/mqlight/connection.rb:144-152 | A stop by another thread before the ensure clause closes the end point and ends the search; no later service is tried |
| ConnectOutcomes.LateStopEndsSearch | lib/mqlight/connection.rb:150-152 | One that comes only before the test at the end of the loop ends the search too, but leaves the end point |
| ConnectOutcomes.StopRaisesOverBareEndPoint | lib/mqlight/connection.rb:144-148 | A stop during an attempt whose connect has raised makes the ensure clause raise, and the end point stays |
| Connections.StoppedLeavesEndPointIff | lib/mqlight/connection.rb:65-80 | After a stop no end point is live if and only if there was a service list or no end point before |
| Connections.BareEndPointIsForever | lib/mqlight/connection.rb:85-148 | Once a connect has raised before the threads of its end point were started, no later sequence of connects opens an end point, makes a messenger or sets started |
| Connections.StartedOnlyReinstated | lib/mqlight/proton_container.rb:200-231 | Whatever the services answer and the other threads do, started is set only right after an end point was opened, a messenger made for that service and destinations, in order, subscribed again and seen active; these are exactly those recorded at that moment, the ones recorded meanwhile included, if no removal was at or before the awaited one, and only then if no address is recorded twice |
| Connections.ReinstatesAllIff | lib/mqlight/proton_container.rb:205-229 | A reinstatement that succeeds has subscribed again exactly what is recorded at its end, in order, if no destination was removed at or before the one awaited; otherwise, if no address is recorded twice, one that it has subscribed is recorded no more |
| Connections.RemovalLeavesOneOut | lib/mqlight/proton_container.rb:205-229 | With two destinations, the first removed while its link is awaited, a connect ends started with the second recorded and never subscribed on the new messenger |
| Connections.CallbacksTellEveryChange | lib/mqlight/thread_vars.rb:147-165 | Across a connect, the callback queue tells each change of state once and in order, those by other threads included, if a callback is registered, and otherwise stays empty |
| Connections.Connection.ConnectToServer | lib/mqlight/connection.rb:62-154 | The loop over services comes to the specified final state, reason, callbacks, end point and log |
| Connections.Connection.ReinstateLinks | lib/mqlight/proton_container.rb:200-231 | The nested polling loops subscribe and await the destination at each index of the list as it then stands, and stop at the first error |
| Connections.DeferTableDoubles | lib/mqlight/connection.rb:192-192 | The pause the table holds for k attempts is the smaller of 60 and 2 to the power k |
| Connections.ProtonLoop | lib/mqlight/connection.rb:199-226 | The pause after k consecutive attempts is min(60, 2^k) seconds, 1 second after an iteration without one |
| ThreadVariables.ChangeKeepsAccount | lib/mqlight/thread_vars.rb:147-165 | A change of state keeps the callback queue a faithful account: of all changes with a registered callback, empty without |
| ThreadVariables.ThreadVars.ChangeState | lib/mqlight/thread_vars.rb:147-165 | The state and reason are set, and one callback is queued if and only if one is registered and the state is new |
| Commands.ProtonContainer.DrainMessage | lib/mqlight/proton_container.rb:511-530 | Drains until the link has no credit or the client is not started, then tells whether a message is there |
| Commands.Command.CheckForMessages | lib/mqlight/command.rb:183-234 | With its waits and its rescue of the timeout, step by step, it comes to the specified receive, of which the theorems on credit and replies speak |
| Commands.Command.HandOverMessage | lib/mqlight/command.rb:217-228 | Collects, replies, then accepts for QoS 0 or settles for auto-confirmed QoS 1 |
| Commands.Command.ProcessQueuedSend | lib/mqlight/command.rb:64-132 | Puts, waits for the buffer, polls the status, then answers or raises, as the send of the theorems does |
| Commands.Command.ProcessQueuedSubscription | lib/mqlight/command.rb:135-163 | Subscribes, waits for the link, replies, and records the destination whatever the reply |
| Commands.Command.ProcessQueuedUnsubscribe | lib/mqlight/command.rb:166-180 | Closes the link, waits for the remote end, and replies nothing |
| Commands.Command.ProcessRequestQueue | lib/mqlight/command.rb:273-339 | The retry loop with its rescue clauses is the specified one |
| Pumps.BytesAreConserved | lib/mqlight/connection.rb:358-390 | Whatever is read and however much of it is taken at a time, the engine has consumed the chunks in order, each whole except for the rest of one refused with -2 or whose push raised |
| Pumps.ChunkEndsTell | lib/mqlight/connection.rb:376-390 | A chunk is delivered if and only if all its bytes were taken, and its loop ends after at most as many positive answers as it has bytes |
| Pumps.UnfinishedIff | lib/mqlight/connection.rb:376-390 | The loop over a chunk does not end if and only if no answer was -2 or an exception and the positive ones count fewer bytes than the chunk has |
| Pumps.StaysWithoutMessenger | lib/mqlight/proton_container.rb:708-726 | While there is no messenger it takes nothing and does not end |
| Pumps.UnrefusedIsComplete | lib/mqlight/connection.rb:376-390 | If nothing is refused the engine has consumed exactly the concatenation of what was read |
| Pumps.RetriesIffReset | lib/mqlight/connection.rb:358-418 | The thread ends at the first turn that is stopped, reset or reads nothing, with the sockets closed, and asks for a retry if and only if that turn was a reset outside of a stop |
| Pumps.Incoming.PushAll | lib/mqlight/connection.rb:376-390 | The loop over a chunk consumes the specified prefix of it, in order |
| Pumps.Incoming.IncomingThread | lib/mqlight/connection.rb:355-419 | The thread consumes what the specified run does, and closes and retries when it does |
| Destinations.AddressesAgreeWithMatch | lib/mqlight/destination.rb:87-112 | Two destinations on a service have equal addresses if and only if pattern and share match |
| Destinations.New | lib/mqlight/destination.rb:42-106 | Succeeds if and only if ttl is not negative, QoS is 0 or 1 and the share has no colon; the result matches its own pattern and share |
| Destinations.NewDestination | lib/mqlight/destination.rb:36-106 | The address, the defaults, a time to live cut to 32 bits and kept in whole seconds, and which of the wrong arguments is told |
| Delivery.TopicsRecoveredIffPlain | lib/mqlight/delivery.rb:75-78 | Every topic sent is recovered from its address if and only if the service address is amqp:// and an authority without a slash |
| Delivery.TopicOfPlainService | lib/mqlight/blocking_client.rb:397-397 | For such a service the topic recovered is the topic sent |
| Delivery.SecureServiceKeepsAddress | lib/mqlight/delivery.rb:76-78 | For amqps the whole address is taken for the topic |
| RoundTrips.ValueRoundTrip | lib/codec/mapping.rb:71-171 | A scalar, or a map nested to any depth, put and got again comes back if and only if it fits its mapping, and then as its normal form: integers as what the binding holds of them, nil as an empty symbol or binary string, an integer as a boolean under BOOL |
| ClassTrips.ComesBackByClass | lib/codec/mapping.rb:87-171 | What a value of each class comes back as, or is refused with, when it is put with the mapping of its class |
| ClassTrips.RefusesIntegers | lib/codec/data.rb:494-652 | With which exception a type refuses an integer that it cannot hold |
| ClassTrips.DescribedIsRead | lib/codec/data.rb:402-413 | A described value is its first child and its second, or the first twice; the first failure of the two is raised |
| RoundTrips.WholeComesBackIffInRange | lib/codec/data.rb:494-652 | An integer that can be put as a type comes back equal if and only if it is in the range of the type; otherwise the type is uint, int or char and it is off by a multiple of 2^32 |
| Bindings.TakenAs | ext/cproton/cproton.c:20409-20445 | The binding takes exactly the integers given for each type, and holds each as the one in the range of the type that it equals modulo the size of the type |
| RoundTrips.MapRoundTrip | lib/types/hash.rb:40-83 | The same for a map with either form of keys, where a nil key put as a symbol becomes an empty string; keys and values are normalised and colliding keys merged |
| ClassTrips.KeysComeBack | lib/codec/mapping.rb:153-170 | A string key comes back as a plain string of the encoding ASCII-8BIT under the option for symbol keys, and as it was without |
| ClassTrips.StringKeys | lib/types/hash.rb:77-77 | Two string keys are one if and only if they have the same bytes and, unless they are ASCII, the same encoding |
| RoundTrips.ArrayRoundTrip | lib/types/array.rb:81-167 | A list or a plain or described array of any length comes back if and only if its descriptor is nil or a string and each element fits and is of the element type, normalised as by its mapping; the descriptor is not counted |
| RoundTrips.HeaderComesBackIff | lib/types/array.rb:48-50 | Its header comes back equal if and only if it is not described, or the descriptor is ASCII or of the encoding ASCII-8BIT |
| NormalForms.MapComesBackMerged | lib/types/hash.rb:66-83 | In the hash got back each key finds the value of the last pair with an eql key, the keys are the first of each kind in order, and a pair is lost if and only if two normalised keys are eql |
| NormalForms.UnchangedIffCanonical | lib/codec/mapping.rb:89-171 | A value comes back as it was if and only if it holds no nil, symbol, time or array, each string has the class and encoding it is read as, and no two keys are eql |
| NormalForms.SecondTripChangesNothing | lib/codec/mapping.rb:71-77 | What has made one round trip makes every further one unchanged |
| NormalForms.ArraySecondTripChangesNothing | lib/types/array.rb:81-167 | The same for lists and arrays, whose header is kept from the first trip on |
| NormalForms.WholesComeBackIffInRange | lib/types/array.rb:95-104 | An AMQP array of an integer type comes back with equal elements if and only if each is in the range of the type |
| NormalForms.NumbersAndNilAreChanged | lib/codec/data.rb:562-566 | An array of uints that holds 2^32 + 5 comes back with 5, nil as a symbol comes back as an empty string, and 1 as a boolean as true |
| NormalForms.KeysCollide | lib/codec/mapping.rb:89-120 | A symbol and its name, and nil and false, are two keys that come back as one |
| NormalForms.StaysBinaryIff | lib/codec/mapping.rb:118-142 | A BinaryString comes back as one if and only if its encoding is not UTF-8 or its bytes are not |
| Utf8.ValidIffText | lib/codec/mapping.rb:130-136 | A string is valid UTF-8 if and only if it is the encoding of some characters by RFC 3629: no overlong form, no surrogate, nothing beyond U+10FFFF |
| NormalForms.NestedListIsRefused | lib/codec/mapping.rb:60-148 | A list or array at any place of a list, or as any key or value of a map, cannot be put |
| NormalForms.OnlyNullTakesArrays | lib/codec/mapping.rb:71-148 | No element type of an AMQP array but null takes an array, and null makes false of it; of BINARY and SYMBOL, which read it as a string, nothing more is claimed |
| Values.LastPairWins | lib/types/hash.rb:77-77 | Storing pairs one by one gives a hash without eql keys in which each key finds the last value stored under an eql one |
| Values.KeysComeInOrder | lib/types/hash.rb:77-77 | And its keys are the first of each kind in the order they came |
| Values.EqlTransitive | lib/types/hash.rb:77-77 | The equality by which keys collide is transitive, through nested hashes compared without order |
| Cursors.ExitUndoesEnter | lib/codec/data.rb:35-48 | Leaving a node just entered comes back to it with the tree unchanged |
| Cursors.FilledInside | lib/codec/data.rb:42-48 | Putting an empty node, entering, filling and leaving it is putting the filled node |
| Mappings.Put | lib/codec/mapping.rb:71-73 | Adds one node at the cursor, leaves everything before it as it was and the cursor on the node under the same parent; after a failure what was before is still untouched |
| Mappings.PutMap | lib/codec/mapping.rb:153-170 | The same for a map written pair by pair |
| Mappings.ProtonDataPut | lib/types/hash.rb:40-54 | Writes the node that MAP.put writes without the option, with the same guarantees |
| Mappings.ProtonPut | lib/types/array.rb:69-107 | The same for a list or an array with its descriptor, which has to be a string |
| Mappings.Get | lib/codec/mapping.rb:75-77 | Reads the value of the current node; the tree never changes, and the cursor is where it was unless the read fails |
| Mappings.ProtonDataGet | lib/types/hash.rb:58-83 | The same for a map; without a current node that is a map, a type error and nothing moved |
| Mappings.ProtonGet | lib/types/array.rb:113-125 | The same for a list or an array |
| Mappings.GetList | lib/types/array.rb:129-141 | The same for a list |
| Mappings.GetArray | lib/types/array.rb:143-167 | The same for an array, whose elements must be of its type |
| Mappings.GetDescribed | lib/codec/data.rb:402-413 | The same for a described value; a missing value is read from the descriptor again |
| Messages.MessageRoundTrip | lib/core/message.rb:67-129 | The four fields of a message come back normalised if and only if each fits; annotation keys have to be strings or nil, which becomes an empty one, empty properties come back as an empty hash and an absent field as nil |
| ClassTrips.MessagesComeBack | lib/core/message.rb:67-129 | A message with properties that come back as they are, instructions and a body is received as it was sent |
| ClassTrips.MessagesWithoutFields | lib/core/message.rb:106-129 | A message without fields has four empty sections; properties without empty? and annotations that are no hash are refused, the properties first |
| Messages.Message.PreEncode | lib/core/message.rb:106-129 | The sections hold what the fields encode to, or the first failure is raised |
| Messages.Message.PostDecode | lib/core/message.rb:67-89 | The fields are what the sections decode to, or the first failure is raised |
| Encoders.EncodeMessage | lib/core/message.rb:92-104 | Terminates with the whole encoding or the error; the last size is 16 or less than twice what is needed |
| Encoders.EncodeData | lib/codec/data.rb:198-210 | The same with a first size of 1024 and the buffer cut to what was written |
| Hex.Decimal128RoundTripIff | lib/codec/data.rb:736-753 | An integer put as a decimal128 comes back if and only if it is not negative and below 2^128 |
| Hex.PutDecimal128 | lib/codec/data.rb:736-742 | The values are those scanned from the number's digits in 32 places, sign included |
| Hex.GetDecimal128 | lib/codec/data.rb:749-753 | The number is that of the digits the bytes print as |
| Hex.UuidRoundTripIff | lib/codec/data.rb:774-805 | An accepted uuid string comes back in lower case if and only if it has 36 characters; if the pattern is at its start, that part of it comes back |
| Hex.IntegerUuidRoundTripIff | lib/codec/data.rb:780-805 | Every integer comes back as canonical lower-case text, whose digits are its own if and only if it is not negative and below 2^128 |
| Hex.PutUuid | lib/codec/data.rb:774-794 | A number or a valid string gives the values scanned from its digits or fields, any other string is refused |
| Hex.PrintedScanned | lib/codec/data.rb:792-803 | Printing the bytes scanned from digits gives the digits back in lower case |

## Left out

- Sockets, TLS contexts, key stores, the look-up of services and URI parsing: library calls; a connect attempt is an outcome.
- The C library behind `Cproton`: not part of this model beyond the assumptions above; nor the bytes it puts on the wire.
- `lib/handler`, `lib/event`, `lib/reactor`, `lib/messenger`, `lib/util` and the accessors of `lib/core`: thin wrappers and single cases over that library.
- Logging, the checks of option types, samples and packaging.
- Liveness: `change_state` signals without the mutex, so a wait may miss it; what is proved is safety.
- That stopped is final: an I/O thread or a connect in progress may still change the state after stop.
- Which message a manual confirm settles when others were collected since: `settle` ignores its argument.
- stop, which also forgets the destinations, the checks of argument types, and the callback loop.
- A proton thread that outlives a stop beside the one of a new start.
- A `Timeout` that fires while the command thread waits for the container mutex after a reply has been pushed.
- The outgoing thread, which moves bytes from the engine to the socket.
- ReplyLedger.RequestIsBalanced: does not say which requests end, since a wait for the connection need not.
- RoundTrips.ArrayRoundTrip: does not model arrays of the element types float, decimal and uuid, nor dates, NaN, negative zero and the rounding of doubles; floats are real numbers.
- Strings of encodings other than UTF-8 and ASCII-8BIT, and symbols that are not UTF-8 text by their encoding.
- `Data#object`, which calls a name that is not defined there, and `Described#put`; a described value can be read but not put by its mapping.
- The settle modes that `settle_mode=` sets; that it refuses other values and raises without a messenger is modelled.
- Confirms.ConfirmSettlesIffSameMessenger: does not model a settle for which the messenger reports an error.
- RoundTrips.ValueRoundTrip: claims nothing of values that are neither strings nor nil given to BINARY or SYMBOL, since the binding reads them as strings; there the model has the failure `Undefined`.
- Hex.PutUuid: does not model numbers that are not integers; what `%032x` makes of a negative one is a parameter.
