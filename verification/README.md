# Verification of psrpc

psrpc builds unary RPCs and bidirectional streams on publish/subscribe brokers that may lose
and reorder messages. This project models its protocols and the bookkeeping under them, and
proves what they keep. `dafny verify dfyconfig.toml` checks everything.

How the modules divide the system:

- `Negotiation` is the claim protocol as a step system of one client, any number of servers and
  any number of request IDs. A step is one critical section or one channel operation; loss,
  timers and contexts may strike at any step. `Selection` is the client's selection loop against
  a declarative specification, and `Calls` is the unary call around it with its route maps.
- `Answers` and `Origins` say what a negotiation achieves: who wins, that answers can arrive, from which
  earlier step of the run a bid, a grant or a result comes.
- `Drain` is the graceful or forced close of a handler: run loop, forwarding goroutine, handler
  goroutines, closer, counter and two latches.
- `Streams` is one endpoint with its concurrent Sends, reader and closers, and then two endpoints
  joined by an at-most-once bus. `Sends` says which outcome a Send has and why, and that Sends can
  succeed and closes arrive.
- `Reconcile`, `WakeQueues` and `WriteWorker` are the Redis bus: subscription reconciliation, the
  two kinds of wake-up queue, and subscriptions from end to end. `LocalBus` and `RoundRobin` are the
  in-process bus, as objects on the heap, and the fairness of its queues.
- `Channels` and `Ids` are channel names, reply subjects and generated IDs.
- `Retry`, `Interceptors`, `Registration` and `Aliases` are the retry middleware, the two interceptor
  chains, group registration and the generator's import aliases.

Where a source method updates fields, a class method here has a contract that equates the new state
with a function of the old one, and lemmas say what that function keeps. Goroutines that interleave
are step systems: `IsRun` describes their runs. The main lemmas speak of every state of every run, and the lemmas about
single steps say what each step keeps. That something can happen is stated as a path, a sequence of
steps that leads from one state to another (`Leads`).

What the proofs show about the code besides its guarantees:

- A handler error with an empty message reaches the caller as a success or as whatever an empty
  payload parses to (`Calls.ErrorArrives`), since the client tells an error by its message.
- The comment at pkg/server/rpc.go:290-291 says the server's claim timer fires only when the client
  can no longer grant. The model does not assume it, and nothing here needs it: the timer may fire at
  any time.
- Send promises to block until the message has been received. It also ends with nil when the caller's
  own context is cancelled while the stream is open (`Streams.NilWithoutAckExactly`).
- Empty topic parts are dropped from channel names, so topics can collide (`Channels.EmptyTopicPartCollides`);
  a node's stream channel can coincide with a method's (`Channels.StreamChannelsMeet`).
- Retries without a limit never stop against a base handler that keeps failing (`Retry.BoundedExactly`),
  and a MaxAttempts of zero or less is no limit.
- The shared cursor of the server chain is right for interceptors that call their handler at most once; one
  that retries in front of two others is not run as written (`Interceptors.SameAsNestedExactly`).

## Model

| member | source | states |
|---|---|---|
| `Negotiation.AtMostOneHandler` | pkg/server/rpc.go:187-219 | In every reachable state of one client and any number of servers, over a bus that loses and reorders, at most one handler has run for a request ID, and it has run once; for queue methods too |
| `Negotiation.RunFollowsTheOnlyGrant` | pkg/server/rpc.go:221-295 | Every handler run of a claimed request comes after a grant that names its server, and that grant is the only one of the whole run for this request |
| `Negotiation.RunLoopNeverBlocks` | pkg/server/rpc.go:168-182 | A run loop that looked a bid up can always put the grant into the bid's channel of capacity one |
| `Negotiation.SuccessIsGenuine` | pkg/client/rpc.go:123-229 | A success that a call returned is the reading of what one server published for this very request ID after its handler ran; without a queue that server had been granted |
| `Negotiation.NoEarlySuccess` | pkg/client/rpc.go:297-318 | While a claimed call still selects, no reply waiting for it reads as a success: early malformed-request errors stay errors and the stand-in is no success |
| `Negotiation.NoRouteSurvives` | pkg/client/rpc.go:123-141 | Once a call has returned, neither its claim route nor its response route exists |
| `Negotiation.GranteeHadBid` | pkg/client/rpc.go:155-214 | Without a selection function the server that is granted had bid for that very request |
| `Negotiation.ServerStepKeepsInv` | pkg/server/rpc.go:131-295 | Every server step (take, reject, decline, bid, look a grant up, buffer it, decide, time out, run, respond, fail to publish) keeps the invariant over sites, messages and calls |
| `Negotiation.ClientStepKeepsInv` | pkg/client/client.go:173-198 | Every client and bus step (publish, route, select, grant, answer, abort, clean up, lose, report unanswered) keeps the invariant |
| `Negotiation.PublishGrantKeepsInv` | pkg/client/rpc.go:169-199 | Publishing a grant to every subscribed server keeps the invariant, by which a request has one grant, its copies name one server and at most one copy is underway to a bid |
| `Answers.DecideFollowsGrant` | pkg/server/rpc.go:279-287 | In every run a bid that receives a grant is decided as won exactly when an earlier grant of the client for its request names its server |
| `Answers.WinnerRuns` | pkg/server/rpc.go:205-215 | When a decided bid is taken off the server's list, a winner's handler starts, once more in the record of runs, and a loser is done with the request without running or answering |
| `Answers.LateBidLoses` | pkg/server/rpc.go:255-295 | A bid that times out or cannot be published has lost, and nothing runs |
| `Answers.GrantedBidAnswers` | pkg/server/rpc.go:187-219 | From every state in which a waiting bid has its own grant in its channel, two steps start its handler, and two more publish the response made of whatever the handler returned |
| `Answers.ClaimedCallAnswers` | pkg/client/rpc.go:123-229 | From every state a fresh claimed request can be published, bid for, granted, run and answered: for any server in reach with a free run loop, any affinity and any handler result, the call returns the reading of the response made of that result |
| `Answers.QueueCallAnswers` | pkg/server/rpc.go:187-219 | The same on a queue, where no bid is made |
| `Answers.MalformedReturns` | pkg/server/rpc.go:187-219 | A queue call whose request cannot be decoded can return exactly that error |
| `Answers.UnansweredReturns` | pkg/client/client.go:191-198 | When the broker reports a request unanswered, its call can return so, while it selects or while it waits |
| `Origins.BidsArePublished` | pkg/client/client.go:173-180 | In every run whatever a call hears as a bid was published as one, by that server, for that very request and with that affinity |
| `Origins.GrantFollowsBid` | pkg/client/rpc.go:155-214 | Without a selection function every grant names a server that published a bid for that request before |
| `Origins.SuccessCameFromHandler` | pkg/client/rpc.go:219-229 | A success that a call returned is the reading of the response made of what a handler returned for that very request earlier in the run; without a queue the server was granted before |
| `Origins.ResultIsFinal` | pkg/client/rpc.go:123-229 | A call has one result: what it is about to return is what it returns |
| `Origins.ResultIsOfStep` | pkg/client/rpc.go:189-229 | The result is fixed by the step that ends the call: the reading of the reply at hand, or the reason it was aborted for |
| `Origins.EarlyReply` | pkg/client/rpc.go:311-317 | During selection an error is set aside and selection goes on; a reply without error ends it with its reading |
| `Origins.DoneIsFinal` | pkg/server/rpc.go:187-219 | A server is done with a request once, in every run: afterwards it neither bids nor runs nor responds for it |
| `Origins.DeclinedIsSilent` | pkg/server/rpc.go:221-254 | A server that declines a request says nothing and is done with it for good |
| `Selection.SelectServerUntil` | pkg/client/rpc.go:248-320 | The loop meets the declarative specification for every event sequence: it stops at the first event that ends selection, with the short-circuiting bid, the error-free response, or at cancellation the choice described for AtCancellation; the short-circuit timer is armed exactly when an eligible bid left selection open |
| `Selection.CancelledSelection` | pkg/client/rpc.go:270-289 | At cancellation: the selection function on the eligible claims in arrival order, else the earliest claim of maximal positive affinity, else the last held-back error, else unavailable with the count of all claims, else no response |
| `Selection.SelectionIsDetermined` | pkg/client/rpc.go:248-320 | The specification leaves no choice: events consumed and outcome are functions of the event sequence |
| `Selection.ChosenHadBid` | pkg/client/rpc.go:296-320 | Without a selection function the chosen server's eligible bid is among the events consumed |
| `Calls.RPCClient.Call` | pkg/client/rpc.go:76-230 | Which publications a call makes and with which result, for every environment, a grant that cannot be published included; both route maps are as before minus the request's own entries on every path after registration |
| `Calls.CallIsDetermined` | pkg/client/rpc.go:155-229 | The description of a call leaves no choice: its result and its grants are functions of the environment |
| `Calls.Wait` | pkg/client/rpc.go:189-229 | The waiting loop: the first response, cancellation, deadline or client close decides; on a claimed queue call the first bid, and only that, is granted, and if that grant cannot be published the call fails with nothing granted |
| `Calls.SelectAndWait` | pkg/client/rpc.go:155-229 | Selection, then at most one grant, then the wait over the remaining events; a failed grant ends the call |
| `Calls.GrantsAtMostOnce` | pkg/client/rpc.go:155-214 | A call publishes at most one grant, and none unless its method requires a claim |
| `Calls.AnswerIsAReply` | pkg/client/rpc.go:219-229 | Every answer is the reading of one reply the call received, and a reply with an error or the stand-in's code is never a success |
| `Calls.RemoteErrorNeedsGrant` | pkg/client/rpc.go:155-229 | A claimed call reports a server's error as the call's answer only if it granted; errors during selection can only become a failed selection |
| `Calls.ValueArrives` | pkg/server/rpc.go:297-336 | A value the codec carries is what the caller gets |
| `Calls.ErrorArrives` | pkg/server/rpc.go:307-324 | A handler error with a code reaches the caller with that code and message exactly when its message is not empty and its code is not the stand-in's; one without a code arrives as unknown; with an empty message the caller sees what a nil response gives |
| `Calls.OddValuesArrive` | pkg/server/rpc.go:324-336 | A value that cannot be serialized arrives as that error, and a nil response as the empty payload |
| `Calls.WaitTells` | pkg/client/rpc.go:189-217 | The event that ends the wait tells how: cancellation, deadline and client close each give their own result, exactly, and a reply its reading |
| `Calls.EmptyErrorLooksLikeSuccess` | pkg/client/rpc.go:219-229 | A handler error with an empty message is returned as a success when the empty payload parses |
| `Drain.GracefulCloseWaits` | pkg/server/rpc.go:348-361 | In every run a graceful close completes only when the handlers of exactly the requests taken unexpired have returned; by then everything read has been taken but for at most one last message that the closing subscription dropped |
| `Drain.UnexpiredRequestsRun` | pkg/server/rpc.go:144-168 | In every run the handlers running and returned are those of exactly the requests taken unexpired, the count is the number running, and requests are taken in the order they were read |
| `Drain.CountOnlyFalls` | pkg/server/rpc.go:131-185 | From the moment a graceful closer may wait on the count, no step raises it and no request is counted any more |
| `Drain.LatchesCloseOnce` | pkg/server/rpc.go:348-361 | Neither `drained` nor `complete` is closed twice in any run |
| `Drain.WaitingBidsCanBeGranted` | pkg/server/rpc.go:348-361 | While a graceful close still lets a request run, the claim subscription is open and the loop serves it |
| `Drain.CloseNeverDeadlocks` | pkg/bus/subscription.go:59-109 | In every reachable state with a close under way some goroutine can move without new input from the broker |
| `Drain.CloseCompletes` | pkg/server/rpc.go:131-185 | Once a close is under way only a bounded number of steps lies between two messages from the broker, by a measure every other step lowers; and in a state with no step left the close has completed |
| `Drain.ForcedCloseDoesNotWait` | pkg/server/rpc.go:348-361 | From every reachable state of a forced close that has begun, at most five steps of the closer and the forwarder complete it; no handler finishes and no request is taken on the way |
| `Drain.ConservesStep` | pkg/server/rpc.go:131-185 | Every step conserves requests: forwarded is received plus buffered, counted is running plus finished, and the count is the number running |
| `Streams.NoPanic` | internal/stream/stream.go:101-152 | In every state of every run of two endpoints, no step that can be taken closes the receive channel, the adapter or an ack channel a second time, places a message on a closed channel, or takes the pending count below zero |
| `Streams.EndStep` | internal/stream/stream.go:101-326 | Every step of any interleaving of Sends, the reader, local closes and a remote close keeps the endpoint invariant (close progress, pending count, ack ownership) |
| `Streams.ClosingIsFinal` | internal/stream/stream.go:307-326 | In every run an endpoint has an error exactly when it is closed; from then on it stays closed, the error never changes and the pending count never rises |
| `Streams.CloseNeverStuck` | internal/stream/stream.go:269-305 | In every run a close under way has an enabled step that is no loss, no cancellation and no new Send |
| `Streams.CloseCompletes` | internal/stream/stream.go:269-305 | In every run, once closed an endpoint takes a bounded number of steps, and two more for each message its peer sends, by a measure over its Sends, mail, reader and closer; and when it has no step left but a caller's cancellation the close is finished |
| `Streams.StreamBase.AddPending` | internal/stream/stream.go:307-314 | Counts exactly when not closed, and otherwise fails with the error the stream was closed with |
| `Streams.StreamBase.SetClosed` | internal/stream/stream.go:316-326 | Only the first closer succeeds; its cause stays, and a later one is told it |
| `Streams.StreamBase.TakeAck` | internal/stream/stream.go:101-112 | Of two handlers of the same acknowledgement only one gets the channel |
| `Streams.NeverPlacedTwice` | pkg/server/stream.go:140-164 | Over an at-most-once bus no message is placed twice in the peer's queue, and only published messages are placed |
| `Streams.NilMeansPlaced` | internal/stream/stream.go:191-251 | A Send that ended with nil has its message placed exactly once at the peer, provided only closes cancelled its stream's context |
| `Streams.NilWithoutAckExactly` | internal/stream/stream.go:238-248 | A Send without acknowledgement ends with nil exactly when the caller's own context was cancelled and the stream is not closed |
| `Streams.NilWithoutDelivery` | internal/stream/stream.go:238-248 | A run in which a Send ends with nil though its message never reaches the peer's queue |
| `Streams.SenderKeepsDelivery` | internal/stream/stream.go:191-251 | Each message stays in at most one place between publication and the peer's queue, and every form of acknowledgement proves it was placed, through each step of the sending endpoint |
| `Streams.ReceiverKeepsDelivery` | internal/stream/stream.go:101-138 | The same through each step of the receiving endpoint |
| `Sends.AckedSendSucceeds` | internal/stream/stream.go:238-240 | A Send that saw its acknowledgement has outcome nil in every later state of the run |
| `Sends.NilExactly` | internal/stream/stream.go:191-251 | In every run a Send that has ended has outcome nil exactly when it saw its acknowledgement, or saw its context done after its caller cancelled and with the stream still open |
| `Sends.DoneReports` | internal/stream/stream.go:238-248 | A Send that saw its context done reports a timeout while the stream's context is not cancelled, and the stream's final error once the close has cancelled it |
| `Sends.PlacedAtMostOnce` | internal/stream/stream.go:114-138 | Counting the reader's own placements: a message is placed at most once in any run, and only if the other endpoint published it |
| `Sends.NilMeansPlacedOnce` | internal/stream/stream.go:191-251 | A Send that ended with nil was placed by the peer's reader exactly once, provided its caller has not cancelled its context |
| `Sends.WaitingSendCanSucceed` | internal/stream/stream.go:101-138 | From every reachable state with a Send waiting, its message in the peer's mail, both endpoints open and both readers idle, a path of both endpoints' steps ends the Send with nil and its message placed |
| `Sends.SendCanSucceed` | internal/stream/stream.go:191-251 | From every state with both endpoints open and both readers idle, a fresh Send can go from its start to a nil end with its message placed |
| `Sends.NoAckIsLeft` | internal/stream/stream.go:211-224 | In every run no ack channel stays registered for a Send that has left |
| `Sends.RemoteCloseHasCause` | internal/stream/stream.go:139-150 | In every run an endpoint closed by its peer has the peer's error, and the peer is closed |
| `Sends.CloseCanArrive` | internal/stream/stream.go:269-305 | From every reachable state a local close can reach an open peer with an idle reader, and both then have the cause given to the close |
| `Reconcile.StepKeepsInv` | pkg/bus/redisbus/redisbus.go:243-289 | In any interleaving, a channel neither dirty nor in flight is subscribed exactly if desired, and one in flight and not dirty is wanted exactly as its batch asks |
| `Reconcile.SettledWhenClean` | pkg/bus/redisbus/redisbus.go:248-289 | When the reconcile loop can exit, the broker's subscriptions are the desired ones, for every channel |
| `Reconcile.OneGoodRoundSettles` | pkg/bus/redisbus/redisbus.go:243-289 | One undisturbed round that the broker serves settles every channel |
| `Reconcile.BatchesAreWanted` | pkg/bus/redisbus/redisbus.go:243-289 | In every run a batch asks for the difference between desired and current over all channels, not only the dirty ones; and until it is answered the broker is subscribed to nothing it subscribes and to all it unsubscribes, so no request to the broker is ever redundant |
| `Reconcile.LeaveUndoesJoin` | pkg/bus/redisbus/redisbus.go:99-150 | Unsubscribing undoes subscribing: the others keep their order and an emptied list leaves the map |
| `Reconcile.LeaverIsTheOne` | pkg/bus/redisbus/redisbus.go:139-144 | Unsubscribing takes out the subscriber itself, wherever in its list it is, and leaves all others, other channels and the other kind alone |
| `Reconcile.ListsAreTheStayers` | pkg/bus/redisbus/redisbus.go:99-150 | In every run each list holds exactly the subscribers that joined it and have not left, in the order in which they joined |
| `Reconcile.Transport.Subscribe` | pkg/bus/redisbus/redisbus.go:99-122 | The new table is the old one with the subscriber appended; only a channel's first subscriber of a kind makes it dirty |
| `Reconcile.Transport.Unsubscribe` | pkg/bus/redisbus/redisbus.go:124-150 | The new table is the old one without the subscriber; one that is not listed changes nothing |
| `Reconcile.Transport.FillBatch` | pkg/bus/redisbus/redisbus.go:251-262 | The loop over the dirty channels computes the two sets of a batch |
| `Reconcile.Transport.RecordAnswers` | pkg/bus/redisbus/redisbus.go:278-287 | What failed is dirty again and what succeeded is current, each direction by itself |
| `Reconcile.Transport.Run` | pkg/bus/redisbus/redisbus.go:246-289 | The loop with the lock released around the broker calls, and anybody else's steps there: on exit current equals desired |
| `WriteWorker.RestMeansSubscribed` | pkg/bus/redisbus/redisbus.go:99-289 | Table, write queue, wake-up channel and worker together: when only subscribers can move, the broker is subscribed to exactly the channels that have subscribers |
| `WriteWorker.StepIsCaredFor` | pkg/bus/redisbus/redisbus.go:180-229 | Dirty channels always have an operation queued or the worker on them, and queued operations a token, an active worker or a pusher about to signal |
| `WriteWorker.RestComesCloser` | pkg/bus/redisbus/redisbus.go:197-229 | With a broker that answers, every step but a subscriber's lowers a measure, so rest is reached |
| `WakeQueues.PendingOpsGetRun` | pkg/bus/redisbus/redisbus.go:185-229 | No wake-up of the write queue is lost: while work is pending the worker or a pusher that has yet to signal can move |
| `WakeQueues.RestMeansDone` | pkg/bus/redisbus/redisbus.go:185-229 | At rest the worker has finished exactly what was pushed, in the order of the pushes |
| `WakeQueues.OpsRunInOrder` | pkg/bus/redisbus/redisbus.go:206-229 | In every run what the worker finished, has in hand and has queued is, in this order, what was pushed |
| `WakeQueues.WriteOpQueue.Drain` | pkg/bus/redisbus/redisbus.go:218-229 | drain leaves the queue empty and has run the old contents and what was pushed meanwhile, in order |
| `WakeQueues.PublishQueue.WorkerTurn` | pkg/bus/redisbus/redisbus.go:402-417 | A turn hands over everything queued, late arrivals included, and leaves a token exactly if something came after it took its own |
| `WakeQueues.ChannelOrderIsKept` | pkg/bus/redisbus/redisbus.go:85-89 | For every hash function, channel and run, what the channel's worker took from its queue followed by what is still queued is what was published on the channel, in publication order |
| `WakeQueues.SameBucket` | pkg/bus/redisbus/redisbus.go:85-89 | A channel keeps its queue throughout a run |
| `WakeQueues.PendingMessagesGetSent` | pkg/bus/redisbus/redisbus.go:390-417 | A bucket with messages always has a worker that can move |
| `RoundRobin.FairShares` | pkg/bus/localbus/localbus.go:134-148 | Over any k consecutive choices, for every pattern of empty slots and any cursor, each of n filled slots is chosen k/n times rounded down or up |
| `RoundRobin.NextRank` | pkg/bus/localbus/localbus.go:139-148 | The choice moves from each filled slot to the next one, and from the last to the first |
| `RoundRobin.FullListPicksCursor` | pkg/bus/redisbus/redisbus.go:298-304 | In a list without empty slots the choice is the wrapped cursor itself |
| `LocalBus.SubList.Create` | pkg/bus/localbus/localbus.go:99-132 | The first free slot, or a new one, gets the new subscription; no live one is evicted, and the counter stays the number of filled slots |
| `LocalBus.SubList.Vacate` | pkg/bus/localbus/localbus.go:74-80 | Leaving empties the captured slot and no other |
| `LocalBus.SubList.DispatchToOne` | pkg/bus/localbus/localbus.go:135-149 | With a live subscription exactly one gets the payload: the first filled slot from the wrapped cursor on, and the cursor ends behind it; no write goes to a closed channel |
| `LocalBus.SubList.DispatchToAll` | pkg/bus/localbus/localbus.go:150-160 | Every live subscription gets the payload once |
| `LocalBus.DispatchIsFair` | pkg/bus/localbus/localbus.go:134-149 | Of the k payloads a queue has dispatched since its members last changed, each of its n live subscriptions has been offered k/n, rounded down or up |
| `LocalBus.Transport.SubscriberGetsFairShare` | pkg/bus/localbus/localbus.go:134-149 | The same seen from any live queue subscription of a valid bus, whatever other lists do meanwhile |
| `LocalBus.Transport.Subscribe` | pkg/bus/localbus/localbus.go:63-88 | The set of live subscriptions grows by a fresh one on the given channel; tables, slots and counters stay consistent |
| `LocalBus.Transport.Unsubscribe` | pkg/bus/localbus/localbus.go:69-81 | The set of live subscriptions shrinks by that one, and its list leaves its table exactly when it was the last |
| `LocalBus.Transport.CloseChannel` | pkg/bus/localbus/localbus.go:186-191 | Closing the channel of a subscription that has left keeps the bus valid, so no later dispatch writes to it |
| `LocalBus.Transport.OnIsTable` | pkg/bus/localbus/localbus.go:40-53 | What a publisher finds in a table is exactly the set of live subscriptions of that kind and channel |
| `LocalBus.Transport.DispatchTo` | pkg/bus/localbus/localbus.go:134-162 | A dispatch on a list looked up at any earlier time keeps the bus valid, reaches live subscriptions only, and on a queue adds one to what was dispatched since its members last changed |
| `LocalBus.Transport.Publish` | pkg/bus/localbus/localbus.go:40-53 | Every plain subscription of the channel and one of its queue subscriptions get the payload, and nobody else |
| `Channels.UnescapeEscape` | pkg/info/channels.go:171-188 | A decoder inverts the escaping of every sequence of Unicode scalar values |
| `Channels.EscapeInjective` | pkg/info/channels.go:171-188 | Different names have different escapes |
| `Channels.EscapeHasNoDelimiter` | pkg/info/channels.go:171-188 | Escaping emits neither delimiter |
| `Channels.EscapeFixedPoint` | pkg/info/channels.go:171-188 | Escaping leaves a name alone exactly when it consists of channel characters |
| `Channels.AppendSanitizedChannelPart` | pkg/info/channels.go:171-188 | The loop over the buffer appends the escaped name |
| `Channels.AppendChannelParts` | pkg/info/channels.go:153-169 | The loop with the prefix flag, recursion into lists included, appends the delimited parts |
| `Channels.WeaveIsJoin` | pkg/info/channels.go:153-169 | The prefix flag makes a plain join of the parts that survive, which are described independently |
| `Channels.CanonFixedPoint` | pkg/info/channels.go:153-169 | A topic list survives as it is exactly when no part of it is empty, except possibly the last of several |
| `Channels.RequestChannelIsJoin` | pkg/info/channels.go:74-92 | The nested loop writes the plain join of service, method, surviving topic and suffix |
| `Channels.RequestChannelDetermines` | pkg/info/channels.go:74-100 | Two flat request names are equal exactly when service, method, suffix and surviving topic are |
| `Channels.RequestChannelInjective` | pkg/info/channels.go:74-100 | With non-empty topic parts the flat name determines service, method, topic list and suffix |
| `Channels.EmptyTopicPartCollides` | pkg/info/channels.go:153-169 | Two different topics with the same channel |
| `Channels.OneCanonicalTopic` | pkg/info/channels.go:74-100 | Behind every flat name there is exactly one canonical topic: what survives of the topic it was made from |
| `Channels.StreamChannelsMeet` | pkg/info/channels.go:60-100 | The channel of a node's streams is the one a streaming method is served on exactly in the case stated: same service, node named like the method, blank topic |
| `Channels.HandlerKeyDetermines` | pkg/info/channels.go:82-84 | Two handlers share a key exactly when method and surviving topic agree |
| `Channels.PerRequestIDRoundTrip` | pkg/info/channels.go:40-51 | For all services and client IDs, dots included, the request ID is parsed back from its reply subject exactly when it has no dot |
| `Ids.ReadIDChars` | pkg/rand/id.go:57-72 | The rejection loops fill the buffer with the first characters the random draws give, or report that the draws ran out |
| `Ids.FormatID` | pkg/rand/id.go:50-55 | A generated ID is its prefix and twelve drawn characters; with a prefix of channel characters it has no dot and is a fixed point of escaping |
| `Ids.RequestIDRoundTrip` | pkg/rand/id.go:50-72 | Every generated request ID comes back from the reply subject |
| `Ids.EveryTextCanBeDrawn` | pkg/rand/id.go:57-72 | Every text over the alphabet is what some draw yields, group by group |
| `Ids.AlphabetIsAlphanumeric` | pkg/rand/id.go:57-72 | The alphabet is the letters and digits, each once |
| `Retry.BoundedExactly` | pkg/middleware/retry.go:89-153 | For any nesting there is a bound on the base calls exactly when every level has MaxAttempts of at least one or recovers from nothing |
| `Retry.CallsAreBounded` | pkg/middleware/retry.go:103-153 | The base handler is called at most as often as the product of the limits, whatever it answers |
| `Retry.LimitIsReached` | pkg/middleware/retry.go:103-153 | Against a handler that always fails recoverably, with nobody cancelling, exactly the product of the limits is tried and the error comes back |
| `Retry.LastReplyComesBack` | pkg/middleware/retry.go:115-153 | The caller gets the base handler's last reply, or a cancellation found at the last check after a last reply that was an error; nothing is called after a success; the call succeeds exactly if the last reply did |
| `Retry.ErrorMeansGivenUp` | pkg/middleware/retry.go:89-153 | An error that is no cancellation comes back only when every level has given up: it is not recoverable there, or the level made its last attempt |
| `Retry.TimeoutAtBase` | pkg/middleware/retry.go:44-78 | A base call's timeout is the caller's if set, else that of the innermost level whose current attempt timeout is positive; attempt a has Timeout plus a-1 times Backoff, and attempt numbers stay within the limits |
| `Retry.AttemptsInOrder` | pkg/middleware/retry.go:103-153 | Attempts start at one on every level, and from one base call to the next exactly one level makes one more attempt while the levels inside it start again |
| `Retry.RetryLoop` | pkg/middleware/retry.go:103-153 | The loop with its policy closure does what the recursive description says |
| `Retry.Intercept` | pkg/middleware/retry.go:44-70 | The outermost interceptor takes the caller's timeout from the options, an inner one from the context |
| `Retry.BackoffPolicy.Next` | pkg/middleware/retry.go:89-101 | The closure retries exactly recoverable errors before the limit, and then raises the captured timeout by the backoff |
| `Retry.ApplyOptions` | pkg/middleware/retry.go:72-78 | Options apply in order, so the last timeout wins |
| `Interceptors.SameAsNestedExactly` | internal/interceptors/interceptor.go:37-62 | For every list length, handler and interceptors, the chain with the shared cursor has the trace, world and result of the nested composition exactly when no interceptor before the last two calls its handler a second time |
| `Interceptors.CallingOnceIsEnough` | internal/interceptors/interceptor.go:37-62 | Interceptors that call their handler at most once can be chained in any number, the last two being free |
| `Interceptors.RetryingFirstOfThree` | internal/interceptors/interceptor.go:37-62 | Three interceptors of which the first calls its handler twice: the chain differs from the composition |
| `Interceptors.Cursor.Next` | internal/interceptors/interceptor.go:52-58 | The closure over the mutable cursor, and where it leaves the cursor |
| `Interceptors.ChainClientInterceptors` | internal/interceptors/interceptor.go:26-35 | The client's loop composes with the first interceptor outermost |
| `Interceptors.FirstIsOutermost` | internal/interceptors/interceptor.go:26-35 | Called through the client's chain, the handler learns that the first interceptor was entered first, the second next, and so on inwards |
| `Interceptors.TransparentChain` | internal/interceptors/interceptor.go:37-62 | A server chain of interceptors that pass everything on returns the handler's answer and enters each interceptor once, in their order |
| `Registration.AllOrNothing` | pkg/server/registration.go:38-55 | If a member fails the server is exactly as before; otherwise every member is entered under a new key and the rest is kept; success exactly when the server is open and each member can be created under a key of its own |
| `Registration.FirstFailureIsReported` | pkg/server/registration.go:38-48 | A group that cannot be registered reports why its first failing member failed: server closed, key taken, or creation failed with its reason |
| `Registration.TopicsAreApart` | pkg/server/server.go:72-80 | On an open server a member can be registered exactly under a topic whose surviving part its method is not registered under yet |
| `Registration.RollbackUndoes` | pkg/server/registration.go:38-55 | Deregistering the members entered so far restores the server |
| `Registration.DeregisterUndoesRegister` | pkg/server/registration.go:50-55 | Deregistering a registered group restores the server |
| `Registration.DistinctRpcsRegister` | pkg/server/registration.go:38-48 | On a fresh server members with different non-empty method names register whatever their common topic is |
| `Registration.GroupKeepsCount` | pkg/server/server.go:83-102 | The active count is the number of handlers through every group registration, failed ones included |
| `Registration.RPCServer.RegisterGroup` | pkg/server/registration.go:38-48 | The loop with its rollback, on the server's fields |
| `Registration.RPCServer.RegisterHandler` | pkg/server/server.go:61-102 | Each failure leaves the server alone; success enters the handler and counts it |
| `Registration.RPCServer.DeregisterHandler` | pkg/server/server.go:147-156 | A registered handler goes with its count; an unknown one changes nothing |
| `Aliases.Generator.RegisterPackageName` | protoc-gen-psrpc/generator.go:169-179 | The search ends for every set of names in use, returns the first free candidate, and no two packages ever share an alias |
| `Aliases.AliasesAreDistinct` | protoc-gen-psrpc/generator.go:169-179 | Over any sequence of registrations, repeated names included, all aliases differ |
| `Aliases.AliasesExist` | protoc-gen-psrpc/generator.go:169-179 | Every sequence of registrations, from any names in use, has aliases |
| `Aliases.FirstFreeExists` | protoc-gen-psrpc/generator.go:170-175 | For every name and all names in use there is exactly one first free candidate |
| `Aliases.Pigeonhole` | protoc-gen-psrpc/generator.go:172-175 | No more candidates can be in use than there are names in use |
| `Aliases.CandidatesAreDistinct` | protoc-gen-psrpc/generator.go:173 | The name and its numbered forms are pairwise different |

## Left out

- Selection.SelectServerUntil: affinities are real numbers, so float32 rounding and NaN are not modelled; the timers are events, so how long the short-circuit timeout runs is not.
- Calls.RPCClient.Call: one call runs from start to end with the environment's events; several calls at once are the subject of Negotiation.
- Negotiation.AtMostOneHandler: bids on queue methods, which only servers of older releases make, are not part of the step system (Calls.Wait has the client's side of them).
- Negotiation.NoRouteSurvives: looking a route up and sending on its channel are one step; in the source a message may still be put into the channel of a call that has just returned, which nobody reads.
- Streams.NilMeansPlaced: a caller that cancels its own context is excluded, by a condition; Streams.NilWithoutAckExactly says what happens then.
- Retry.BoundedExactly: for the default policy; a GetRetryParameters of the user's own decides itself how long to retry.
- Retry.TimeoutAtBase: durations are integers without overflow, and options are the timeouts they set.
- Interceptors.SameAsNestedExactly: an interceptor is deterministic in its request, its handler's answers and a world that all share, and every run is finite; contexts and RPC information are not passed along, and interceptors do not run concurrently.
- Registration.AllOrNothing: sequential; the check for an existing key and the entry of the handler are separate critical sections in the source, so concurrent registrations of one key are not excluded there, and registration can race with shutdown.
- LocalBus.Transport.Publish: looking up and dispatching with nothing in between; LocalBus.Transport.DispatchTo covers a dispatch on a list looked up earlier. Whether a payload offered to a subscription that is being cancelled is dropped is not modelled, nor is the time a dispatch blocks on a full channel.
- Drain.GracefulCloseWaits: the handler's goroutines are steps, not a class; what a handler does between start and finish is Negotiation's subject.
- WakeQueues.ChannelOrderIsKept: up to the pipeline; what the broker does with it is not modelled.
- Reconcile.Transport.Run: the broker's answers are two flags per round; a call that fails for some channels only is not distinguished, and go-redis is not modelled.
- Channels.UnescapeEscape: over code points; Go strings that are not valid UTF-8 are not modelled.
- Ids.RequestIDRoundTrip: random draws are given; their distribution and the collision of IDs are not modelled.
- Opening a stream: it negotiates like a unary call; the server's stream table, its draining flag and the client's stream routes are not modelled.
- Hierarchical subjects (`SRV.…`, with the queue's topic `Q`): names can collide there; injectivity is stated on the flat names.
- Multi-RPC, pkg/bus/natsbus, interceptors on streams, hooks, metrics, tracing, logging, metadata, compression, error code tables, the rest of the code generator: thin layers or repeats of what is modelled.
- Blocking of the client's routing loop on full channels: the code gives no guarantee to state.
- Time: deadlines, timers and waits are events that may happen at any step.
