# Verified model of the SDK's RPC layer, transaction codec and batch lookups

A Dafny model of go-conflux-sdk's JSON-RPC client and server machinery, of its transaction codec and of its
batch lookups, with proofs of what that code is for. `dafny verify dfyconfig.toml` checks everything.

## What is modelled

**Client dispatch** (`Dispatch`, `DispatchInvariant`, `DispatchTheorems`, `DispatchResults`, `DispatchCauses`,
`DispatchEffects`, `DispatchCleanup`, `DispatchLock`, `DispatchFaults`, `RpcClient`). Any number of callers hand
requests to one dispatch goroutine over the `reqInit` / `reqSent` handshake while reader goroutines feed responses in,
connections die and are replaced in mid-send, requests time out and `Close` aborts everything. `Dispatch` is a step
machine: a `State` with dispatch's variables, the reader goroutines, the one-slot `reqSent` buffer and, for each
request, its channel and the program counter of its sender; an `Event` is one atomic step of one goroutine or of the
environment; `Enabled` says when Go's select and channel rules allow it, `Apply` what it does. Misuse that would panic
or block (closing a closed channel, sending on one, sending without room, a nil `lastOp`) is a `Fault` of the state.
`DispatchInvariant` proves an inductive invariant over every run; `DispatchTheorems`, `DispatchResults`,
`DispatchCauses`, `DispatchEffects` and `DispatchCleanup` say what it means for callers, on the events of the run.
`DispatchLock` does without the assumptions below, and `DispatchFaults` with fresh request ids alone.
`RpcClient.Client` is the same protocol as an object whose methods update fields and maps in place; every method is
proved to be one step of the machine, `ServeAll` a whole run.

Three assumptions on the surroundings are written out in `Dispatch.Honest`: request ids are not reused, a write on a
closed codec fails, and a request whose write is reported failed was never answered.

**Subscriptions** (`Subscription`, `SubscriptionEnding`, `ClientSubscriptions`, `Pipeline`, `ServerSubs`). The client
subscription is a step machine of its own: the forwarder with its bounded queue, `deliver`, and any number of
goroutines in `Unsubscribe`, cancellation or forwarder exit, serialised by two `sync.Once` values. `Pipeline` composes
it with the server's `Notifier` and a FIFO connection. `ServerSubs` is the server's table of subscriptions under
calls, unsubscribe requests and close. Assumed: writes fail for good once one has failed, and subscription ids are
distinct.

**Batches** (`JsonRpc`, `Batch`, `BatchDispatch`, `RiskLookup`). Message classification and the server's answers to a
batch (sections 4.1, 5 and 6 of the JSON-RPC 2.0 specification), delivery through `respWait`, assembly of the results
in any order of arrival, and the two-phase, de-duplicating confirmation-risk lookup compared with the single one.

**Transactions** (`Rlp`, `Hex`, `Transactions`, `AddressValues`). RLP as in Appendix B of the Ethereum Yellow Paper
with a strict decoder, the repository's field layout and normalisation on top.

**Identifiers and arguments** (`Ids`, `Arguments`).

## What came out

Where a property holds only under a condition, the exact condition is proved, and a concrete run or input shows that
it can fail.

- *A waiting caller can be lost.* When dispatch consumes a read error while a successful write is still in flight
  (`lastOp` set, its report not yet taken), the handler skips that op on purpose, and dispatch later drops `lastOp`.
  Nobody closes its channel. `NoWaiterLost` proves that a caller still waiting after the exit hangs if and only if
  this happened to it; `OvertakenCallerHangs` is the run; `HangsForever` proves that only its own timeout ends the
  wait. The comment in `rpc/client.go:592-594` that the read loop will signal all other operations does not cover
  this op.
- *A failed write that was answered after all can block dispatch, or make it close a channel twice.* The op in flight is
  registered again on the new connection, whatever its channel has seen. With fresh request ids and nothing else
  assumed, responses can do harm if and only if an op is registered again whose channel is used already
  (`CleanIffSteadfast`). A blocked dispatch gets on again when the caller reads; it is blocked for good if and only if
  the caller will not (`BlockedForGood`), as when both writes are reported failed and both are answered
  (`FailedTwiceBlocksForGood`). If failed writes are never answered none of this happens (`HonestIsClean`,
  `NextAnswerNeverBlocks`).
- *Order after quit.* Go's select may pick any ready case, so after `quit` is closed `deliver` may give up one value
  and still hand over the next (`LateTakeSkipsAValue`). The exact condition is `DeliveredInOrderIff`, from end to end
  `EndToEndOrder`. That run uses the letter of select only: a hand-over on an unbuffered channel needs one side parked,
  and neither side parks once `quit` is closed. Under a runtime that behaves so every run is prompt, and the user gets a
  prefix of what was notified, always (`PromptEndToEnd`).
- *Signed decoding indexes the first byte of V*, so it panics exactly when V is zero (`SignedRoundTrip`), and input with
  a V of 256 or more is accepted but does not encode back (`SignedBytesRoundTrip`).
- *A transaction without To encodes but does not decode* (`UnsignedRoundTrip`).
- *The batch risk lookup takes a failed request for a missing risk.* It agrees with the single lookups if and only if no
  failure is swallowed or some number is malformed anyway (`BatchAgreesWithSingle`).
- `rpc/subscription.go:101-104` says that notifications are dropped until the subscription is active; the code buffers
  them, and `NothingLost` proves that they arrive.

## Model

| member | source | states |
|---|---|---|
| DispatchInvariant.StepKeepsInv | rpc/client.go:528-605 | Every step of every goroutine keeps the protocol invariant: ids registered only for live, open ops, at most one op in flight, at most one live reader, no channel misuse. |
| DispatchInvariant.RunKeepsInv | rpc/client.go:528-605 | The invariant holds after any finite run from a state that has it, with any number of callers, reconnects and timeouts. |
| DispatchInvariant.AnswerHasRoom | rpc/handler.go:263-274 | An op found in respWait is open and its channel has room for one more answer. |
| DispatchLock.WriteLock | rpc/client.go:468-523 | In every run whatsoever, with no assumption: senders between reqInit and reqSent plus buffered reports are 1 exactly while lastOp is set, else 0; so the report never blocks, after dispatch has exited as well, and a reconnecting sender always has lastOp set. |
| DispatchTheorems.SingleReader | rpc/client.go:535-583 | Each new connection adds a reader goroutine; still the number of readers whose error is unconsumed is 1 exactly while reading and not yet exited, because the old one is drained first; it belongs to the current connection; at exit none is left. |
| DispatchTheorems.ChannelDiscipline | rpc/handler.go:160-194 | Over every run an op's channel is closed at most once, never sent on after that, carries only its own ids, each once, within capacity; subscription ops get no message; a closed call has its error set. |
| DispatchTheorems.NextAnswerNeverBlocks | rpc/handler.go:263-287 | Whatever response comes next, it is appended within capacity, or settles the subscription and closes its channel, or is ignored as unsolicited; never a block or a panic. |
| DispatchTheorems.NoWaiterLost | rpc/client.go:528-605 | After exit a caller whose send succeeded and who still waits has all answers or a closed channel with an error, unless a read error overtook its write; with nothing left to read it hangs if and only if that happened. |
| DispatchTheorems.StrandedIffOvertaken | rpc/client.go:560-563 | An op is stranded by a run exactly if at some read error it was lastOp, registered, and its write successful. |
| DispatchTheorems.QuietRunLosesNobody | rpc/client.go:528-605 | A run in which no read error overtakes a successful write leaves no waiter without answers or error. |
| DispatchTheorems.HangsForever | rpc/client.go:135-149 | No continuation of the run, short of the caller's own timeout, wakes a stranded caller. |
| DispatchResults.NilMeansAnswered | rpc/client.go:135-149 | Over every run a caller that got a nil error has read exactly one response to each of its ids, and a subscriber that got one was accepted. |
| DispatchResults.WaiterReturns | rpc/client.go:528-605 | After exit a waiting caller with nothing left to read can return, complete or by its closed channel, if and only if no read error overtook its successful write. |
| DispatchResults.AtMostTwoWrites | rpc/client.go:483-498 | In every run whatsoever a request is written at most twice, and never again once a write succeeds. |
| DispatchResults.FailedSendLeavesNothing | rpc/client.go:591-599 | Once dispatch has taken the report of a failed send, no id of the op is registered. |
| DispatchCauses.EveryErrorHasItsCause | rpc/client.go:466-523 | In every run whatsoever, each error a caller gets is the one that fits an event of its own: a read error, a reconnect or Close that found it registered, its dial, its second failed write, its context, or the server's refusal. |
| DispatchEffects.ErrorIffItsCause | rpc/handler.go:174-189 | An op has failed with an error, or its goroutine returns it, if and only if what causes that error has happened to it. |
| DispatchCauses.SubscriberIsToldTheAnswer | rpc/handler.go:275-286 | A subscriber returns nil only if an accepting response to its registered id arrived, and the server's error only if a refusing one did. |
| DispatchEffects.AcceptedIffAnswered | rpc/handler.go:275-286 | A subscription is closed without error if and only if an accepting response arrived while it was registered. |
| DispatchCauses.ReadWasSent | rpc/handler.go:263-274 | In every run whatsoever, a response that a caller reads arrived unchanged while its call was registered for the id. |
| DispatchEffects.HeldIffArrived | rpc/handler.go:263-274 | A call has a response, read or buffered, if and only if it arrived while the call was registered for its id. |
| DispatchEffects.WaitReturnsForGood | rpc/client.go:135-149 | A wait that completes has returned nil, one that found the channel closed has returned its error, one that timed out stays timed out, whatever follows. |
| DispatchEffects.FailureBeatsResponse | rpc/client.go:146-147 | A caller that takes a response after its op has failed returns the failure. |
| DispatchCleanup.TimedOutLeavesNothing | rpc/client.go:601-602 | While dispatch runs, no id of a call whose timeout it has taken is registered, nor registered again by a reconnect. |
| DispatchCleanup.RetryUsesNewConnection | rpc/client.go:483-498 | In every run whatsoever a retry is written to a connection that was dialled after the first failure. |
| DispatchCleanup.EveryCodecIsClosed | rpc/client.go:500-542 | In every run whatsoever, once dispatch has exited every codec ever dialled is closed, or is held by an op whose next step closes it. |
| DispatchTheorems.OvertakenCallerHangs | rpc/client.go:560-599 | The concrete run: write succeeds, read error is consumed first, Close; the caller hangs. |
| DispatchFaults.CleanIffSteadfast | rpc/handler.go:263-287 | With fresh request ids and nothing else assumed: responses can make dispatch panic or block at no point of a run if and only if no new connection registers an op whose channel holds a response or is closed. |
| DispatchFaults.HonestIsClean | rpc/client.go:566-582 | If failed writes are never answered, no used op is registered again. |
| DispatchFaults.BlockedForGood | rpc/client.go:468-523 | When dispatch stands before a full channel, the other goroutines can make room if and only if the caller is in wait, or on a way there that does not need dispatch; else dispatch is blocked for good. |
| DispatchFaults.FailedTwiceBlocksForGood | rpc/client.go:490-497 | The concrete run: a write reported failed is answered, the retry on a new connection is reported failed and answered as well; the second answer finds the channel full and nobody will ever read it. |
| RpcClient.Client.constructor | rpc/client.go:528-535 | A new client stands in the machine's initial state. |
| RpcClient.Client.AddRequestOp | rpc/handler.go:160-164 | The loop maps every id of the op to it and leaves other ids alone. |
| RpcClient.Client.RemoveRequestOp | rpc/handler.go:167-171 | The loop removes exactly the op's ids. |
| DispatchInvariant.AddIdsAt | rpc/handler.go:160-164 | After registration the table's keys are the old ones and the op's ids, and only those ids point to the op anew. |
| DispatchInvariant.RemoveIdsAt | rpc/handler.go:167-171 | After removal the table is the old one without the op's ids. |
| RpcClient.Client.CancelAllRequests | rpc/handler.go:174-189 | In whatever order the map yields its entries, the table ends empty and every registered op but the one in flight is closed once with the error, however many ids it has. |
| RpcClient.Client.HandleResponse | rpc/handler.go:263-287 | The response takes its id out of the table and is forwarded, or settles the subscription; unsolicited ones change nothing. |
| RpcClient.Client.OnReqInit | rpc/client.go:585-589 | Taking a request locks out further ones, records lastOp and registers it. |
| RpcClient.Client.OnReqSent | rpc/client.go:591-599 | A failed write is deregistered; the lock is released in either case. |
| RpcClient.Client.OnTimeout | rpc/client.go:601-602 | A timed-out op is deregistered. |
| RpcClient.Client.OnReadErr | rpc/client.go:560-563 | A read error cancels all registered ops but lastOp and ends reading. |
| RpcClient.Client.OnReconnected | rpc/client.go:566-582 | A new connection drains the old reader if there is one, else is installed at once. |
| RpcClient.Client.StartDraining | rpc/client.go:568-575 | The old handler's ops but lastOp are cancelled with the reconnect error before the drain. |
| RpcClient.Client.InstallConn | rpc/client.go:577-582 | A fresh handler and reader, with the op in flight registered again. |
| RpcClient.Client.OnDrained | rpc/client.go:608-616 | The old reader's error is consumed; then the new connection is installed, or dispatch exits. |
| RpcClient.Client.OnClose | rpc/client.go:535-542 | Close cancels everything, lastOp included, and drains the reader, unless none is alive. |
| RpcClient.Client.ServeAll | rpc/client.go:547-604 | Under any schedule the object follows the machine's run, keeps the invariant and never misuses a channel. |
| Subscription.OnceStep | rpc/subscription.go:243-264 | Every step of every ending goroutine keeps the close-once invariant. |
| Subscription.CloseOnce | rpc/subscription.go:243-264 | For any number of concurrent enders quit is closed at most once, err gets at most one value without blocking, and is closed at most once, only after the first body of quitOnce is complete. |
| Subscription.ErrIsFinal | rpc/subscription.go:241-246 | Once err is closed nothing is sent on it and it stays closed, whatever follows. |
| SubscriptionEnding.HowItEnds | rpc/subscription.go:243-277 | Whatever the interleaving, one event ends a subscription: an Unsubscribe asks the server once and sends nothing on err; a cancellation asks nobody and sends its error, nil for a closed client; a forwarder that overflows or cannot decode asks the server once and sends that error. |
| SubscriptionEnding.NilMeansClosed | rpc/subscription.go:229-264 | Over every run the client-quit error itself never reaches err, and nil reaches it only if the client was closed. |
| SubscriptionEnding.UnsubscribeAsks | rpc/subscription.go:248-256 | An Unsubscribe that is first through quitOnce has had the server asked exactly once, by itself. |
| SubscriptionEnding.UnsubscribeClosesErr | rpc/subscription.go:241-246 | When any Unsubscribe has returned, err and quit are closed, whoever ended the subscription. |
| SubscriptionEnding.OnlyUnsubscribeClosesErr | rpc/subscription.go:241-246 | Without an Unsubscribe err is never closed. |
| SubscriptionEnding.ErrHoldsTheRest | rpc/subscription.go:257-262 | What can be received from err is what was sent on it less what has been received. |
| SubscriptionEnding.UnsubscribeCanReturn | rpc/subscription.go:243-264 | Whenever nobody is inside either Once, Unsubscribe gets to its end by its own steps. |
| SubscriptionEnding.CancelCanFinish | rpc/subscription.go:248-264 | A cancellation that comes first gets through by its own steps, with its error in err. |
| Subscription.UnsubscribeCannotWedge | rpc/subscription.go:248-273 | While any goroutine's unsubscribe request is outstanding, deliver of any value is enabled. |
| Subscription.BlockedDeliverIsBrief | rpc/subscription.go:266-277 | If deliver is blocked after the forwarder ended, some goroutine is at most two always-enabled local steps from closing quit. |
| Subscription.QueueConservation | rpc/subscription.go:279-316 | The queue never exceeds 20000; received is delivered followed by buffered while the forwarder lives; delivered is a prefix of received on every exit; before quit everything that arrived was received. |
| Subscription.OverflowExactly | rpc/subscription.go:302-310 | Overflow is reported exactly when a decodable value meets 20000 queued ones; the forwarder ends exactly on that or an undecodable value. |
| Subscription.DeliveredInOrderIff | rpc/subscription.go:266-316 | The delivered values are the first arrivals, none left out, if and only if the pushes are no more than the values handed over before deliver first gave one up; for arrivals that differ this decides whether they are a prefix. |
| Subscription.TakenInOrderIff | rpc/subscription.go:266-301 | What the forwarder received is gapless if and only if no value was handed over after one was given up. |
| Subscription.LateTakeSkipsAValue | rpc/subscription.go:266-301 | A concrete run in which select after quit delivers the second of two values and not the first. |
| ClientSubscriptions.ClientSubscription.constructor | rpc/subscription.go:216-227 | A new subscription stands in the machine's initial state. |
| ClientSubscriptions.ClientSubscription.ServeAll | rpc/subscription.go:243-316 | Under any schedule of Unsubscribe, cancellation, deliver, forwarder and user the object follows the machine's run, misuses no channel, holds at most one value in err and at most 20000 in the queue. |
| ClientSubscriptions.ClientSubscription.Forward | rpc/subscription.go:279-316 | The select loop follows the machine through all choices up to the one that ends it and conserves the queue. |
| ClientSubscriptions.ClientSubscription.Receive | rpc/subscription.go:302-310 | A received value is queued, or ends the forwarder when it does not decode or the queue is full. |
| Pipeline.RunKeepsInv | rpc/subscription.go:120-180 | Over every run the wire carries a prefix of what was notified, after the answer, and the client's arrivals are what it read since registration. |
| Pipeline.EndToEndOrder | rpc/subscription.go:120-180 | What arrives at the client is a prefix of what was passed to Notify in lock order; what the user gets is one too if, and for distinct values only if, no value handed over after a dropped one has been pushed. |
| Pipeline.PromptEndToEnd | rpc/subscription.go:266-316 | In every run that hands no value over once quit is closed, what the user gets is a prefix of what was passed to Notify. |
| Pipeline.RegisteredIff | rpc/handler.go:275-286 | The subscription is registered at the client if and only if the positive answer was written and has been read, the caller was still waiting and the connection is still in use. |
| Pipeline.NothingLost | rpc/subscription.go:156-170 | Once the positive answer is through, the notifier is activated and nobody has left, delivered, queued and unread values together are exactly what was notified, values from before activation and registration included. |
| Pipeline.StateFollowsRun | rpc/subscription.go:105-154 | The subscription exists if and only if it was created, the call has returned if and only if it was taken, and what was notified are the values passed to Notify in order. |
| Pipeline.AnswerComesFirst | rpc/handler.go:134-148 | Every notification on the wire comes after the answer to the subscribe call, if the call has an id. |
| Pipeline.Notifier.CreateSubscription | rpc/subscription.go:105-116 | A subscription is created once and before the call returns; a second one, and one after the return, panic with nothing changed. |
| Pipeline.Notifier.TakeSubscription | rpc/subscription.go:149-154 | Yields the subscription if there is one and rules out creating one later. |
| Pipeline.Notifier.Notify | rpc/subscription.go:120-139 | Buffers before activation, writes after it, and fails exactly when that write fails. |
| Pipeline.Notifier.Activate | rpc/subscription.go:159-170 | Writes the buffer in order up to the first failure; only full success activates. |
| ServerSubs.StepKeepsInv | rpc/handler.go:196-228 | Every step keeps each open registered subscription in the table, with an empty open channel, created by one notifier; nothing is active after the final cancellation. |
| ServerSubs.EndsAtMostOnce | rpc/handler.go:196-217 | Each err channel is closed at most once with at most one value, and only by the final cancellation if with a value; the table is exactly the registered subscriptions that are open. |
| ServerSubs.EndsForItsReason | rpc/handler.go:208-217 | An err channel is closed without a value if and only if an unsubscribe request found the subscription, and with an error if and only if the final cancellation with that error did. |
| ServerSubs.PhasesFollowClose | rpc/handler.go:152-157 | The handler is open if and only if close has not begun, and cancelled if and only if the final cancellation has run. |
| ServerSubs.CloseEndsEverySubscription | rpc/handler.go:152-157 | When close has returned the table is empty and every subscription ever created has its channel closed. |
| ServerSubs.NothingAfterClose | rpc/handler.go:152-157 | After that no call, subscription, unsubscribe or cancellation step is possible. |
| ServerSubs.Table.AddSubscriptions | rpc/handler.go:196-205 | The loop adds the subscriptions of the call's notifiers and closes them to creation. |
| ServerSubs.Table.TakeSubscription | rpc/subscription.go:149-154 | Marks the notifier as returned and yields its subscription. |
| ServerSubs.Table.Unsubscribe | rpc/handler.go:391-402 | Closes and removes a known subscription; an unknown id changes nothing and is reported. |
| ServerSubs.Table.CancelServerSubscriptions | rpc/handler.go:208-217 | In any order of the map every subscription gets the error and is closed, without blocking or panic, and the table ends empty. |
| JsonRpc.OneKind | rpc/json.go:60-74 | Every message is exactly one of notification, call, response or invalid. |
| JsonRpc.BatchAnswersMatch | rpc/handler.go:96-131 | One answer, in order, with its id or null, for every message that is neither notification nor response, holding the service's result or error, or code -32600; an empty batch gets one error, a batch without such messages nothing. |
| JsonRpc.HandleBatch | rpc/handler.go:96-131 | The two loops handle responses and subscription notifications at once, run code for calls and other notifications in order, and write at most once. |
| JsonRpc.FiltersMean | rpc/handler.go:230-248 | In terms of the fields: handled at once are exactly the responses and the messages without id whose name ends in _subscription, run as code exactly the calls and the other notifications, each in the batch's order. |
| JsonRpc.CallsOnly | rpc/handler.go:105-123 | Handling non-calls first changes neither the answers nor the code that is run. |
| Batch.DeliveredOnce | rpc/handler.go:263-274 | Whatever arrives, an op's channel gets only responses to its registered ids, each id once. |
| Batch.DeliveredAll | rpc/handler.go:263-274 | Responses to distinct ids registered for the op all reach it, in order. |
| BatchDispatch.ChannelGetsDelivered | rpc/handler.go:263-274 | In any honest run of the dispatch machine, whatever else is pending, a batch of messages puts on an op's channel exactly the responses so delivered. |
| BatchDispatch.BatchIsWaitedFor | rpc/client.go:331-351 | In an honest state respWait holds exactly the ids of a written, unanswered batch for its op. |
| BatchDispatch.BatchReachesCaller | rpc/client.go:353-369 | From such a state the server's answers can arrive and be read, each wait returns the answer to one element, and the wait loop is complete. |
| Batch.Find | rpc/client.go:363-369 | The first element whose message has the response's id. |
| Batch.SettledHow | rpc/client.go:370-378 | An element's error is none, the server's, no-result or undecodable if and only if the response says so; its result changes only when the response's result decodes. |
| Batch.Assemble | rpc/client.go:353-380 | For every order of arrival each element is settled by the response with its own id and no other; an error exactly when responses are missing. |
| Batch.EveryElementSettled | rpc/client.go:353-380 | Without error every element has been settled by exactly one response. |
| Batch.OrderIrrelevant | rpc/client.go:353-380 | Two orders of arrival of the same responses give the same element. |
| Batch.RequestsAnswered | rpc/handler.go:116-122 | The server answers a batch of n requests with n answers, each what the request alone would get. |
| Batch.BatchCall | rpc/client.go:331-381 | From the request list through server, wire, respWait and wait loop: no error, and every element ends up with the service's result for its own method and arguments, or with an error that says why not. |
| Batch.BatchCallContext | rpc/client.go:331-381 | The same with the ids the client counts off, whatever else is registered. |
| RiskLookup.MakeCache | client.go:898-909 | One element with a variable of its own per distinct hash. |
| RiskLookup.Ask | client.go:911-919 | Each distinct hash is sent once, and its reply stored in its own variable only. |
| RiskLookup.BatchSummaries | client.go:892-932 | One summary per hash, a zero summary for a hash the node does not know, each distinct hash sent once. |
| RiskLookup.BatchRisks | client.go:935-1004 | Two phases; an error exactly when some number is malformed, else one risk per hash, which without a number from the node is 0 for a block with an epoch and the maximum otherwise; the second phase asks exactly the hashes without a risk, once each. |
| RiskLookup.OneByOneOutcome | client.go:351-376 | The loop of single lookups fails exactly if one of them fails, and else maps each hash to its own risk. |
| RiskLookup.BatchAgreesWithSingle | client.go:935-1004 | On any list with duplicates the batch yields the same map as the loop of single lookups, or fails as it does, if and only if no failure is swallowed or some number is malformed. |
| Rlp.DecodesWhatWasEncoded | types/transaction_unsigned.go:87 | Decoding the encoding of an item, followed by anything, gives back the item and the rest. |
| Rlp.EncodesWhatWasDecoded | types/transaction_unsigned.go:108 | Every input the strict decoder accepts is the encoding of what it decoded followed by the rest. |
| Rlp.DecodeIffEncoded | types/transaction_unsigned.go:108 | A byte string decodes to an item if and only if it is the item's encoding. |
| Rlp.EncodeInjective | types/transaction_unsigned.go:87 | Different items have different encodings. |
| Transactions.AddressRoundTrip | types/transaction_unsigned.go:139 | Twenty bytes printed as an address are read back. |
| Transactions.AddressLowers | types/transaction_unsigned.go:119-140 | A well-formed address comes back in lower case. |
| AddressValues.AddressKeepsValue | types/transaction_unsigned.go:119-123 | Any hex text, with or without 0x and of any length, is read as twenty bytes with its value modulo 2^160. |
| Transactions.UnsignedRoundTrip | types/transaction_unsigned.go:85-162 | A transaction encodes if and only if no integer is negative; decoding gives the normal form: From dropped, nil integers zero, To in lower case; without To it is an error. |
| Transactions.UnsignedBytesRoundTrip | types/transaction_unsigned.go:85-162 | Every accepted byte string encodes back to itself, and what it decodes to is in normal form. |
| Transactions.SignedRoundTrip | types/transaction_signed.go:33-75 | Normal form, V kept, R and S without leading zeros; fails exactly when V is zero. |
| Transactions.SignedBytesRoundTrip | types/transaction_signed.go:33-75 | An accepted signed transaction encodes back to its bytes if and only if its V is below 256. |
| Transactions.SignedContainsEncodedTx | client.go:463-500 | What is sent is a list of the caller's bytes verbatim, then V, R and S; the hashed payload is exactly those bytes. |
| Transactions.GoldenEncoding | types/transaction_unsigned_test.go:31 | The test vector's bytes, for every address. |
| Transactions.GoldenSignedEncoding | types/transaction_unsigned_test.go:64 | The signed test vector's bytes, for every address. |
| Transactions.UnsignedVariable.Decode | types/transaction_unsigned.go:106-116 | Overwrites the whole transaction on success, leaves it alone on failure; on success it encodes back to the input. |
| Hex.DecodeEncoded | types/transaction_unsigned.go:121 | Bytes printed in hex are read back. |
| Hex.EncodeDecoded | types/transaction_unsigned.go:119-140 | Hex text of even length, read and printed, comes back in lower case. |
| Ids.EncodeIdMinimal | rpc/subscription.go:71-78 | The shortest lower-case hex quantity with the bytes' value; no leading zero but in 0x0. |
| Ids.EncodeIdInjective | rpc/subscription.go:71-78 | Ids are equal exactly when the bytes have the same value; for equal lengths, when they are the same bytes. |
| Ids.IdsRepeatAtWrap | rpc/client.go:236-239 | Two ids of one counter are equal exactly when they are a multiple of 2^32 calls apart. |
| Ids.IdCounter.NextId | rpc/client.go:236-239 | The counter moves on modulo 2^32, and the id is its decimal numeral: digits only, without leading zero, with that value. |
| Ids.IdCounter.NextIds | rpc/client.go:337-344 | The ids of a batch are the numerals of consecutive counts, pairwise distinct for up to 2^32 elements. |
| Arguments.ParsePositional | rpc/json.go:267-293 | Success if and only if at most one decodable item per type is given and every missing one is of pointer type; then the values in order padded with nil; each error names its cause. |
| Arguments.ParseArray | rpc/json.go:295-313 | The items in order, or the first that is too many or does not decode. |
| Arguments.SubscribeArguments | rpc/handler.go:365-371 | Dropping the first argument is always in range and leaves one value per parameter of the callback. |

## Left out

- The HTTP transport, which bypasses dispatch and checks neither ids nor counts: client claims are for stream transports.
- Deadlock freedom and fairness: `handler.close` waits for call goroutines that may themselves wait for dispatch. The claims are about safety, and about steps that are enabled.
- Calls in the reverse direction and client subscriptions inside the dispatch machine: they are modelled by themselves in `ServerSubs`, `Pipeline` and `Subscription`. A subscription request is in the dispatch machine up to its answer.
- Heap identity of a request op: ops are values in a map keyed by an op number, which stands for the pointer. A channel is its buffer, its closed flag and the history of what was received from it.
- A second subscription overwriting one with the same id in `clientSubs`: subscription ids are assumed distinct.
- Pipeline.EndToEndOrder: assumes that no write succeeds after a failed one on the same connection, which the codec does not enforce by itself.
- JSON text, reflection and service discovery: payloads are raw texts, decoding is an arbitrary predicate, and a service is an arbitrary function of method name and params.
- The read side's reply to a syntax error, and the version field of messages.
- Batch.BatchCall: takes respWait as a parameter, which `BatchDispatch.BatchIsWaitedFor` derives from the dispatch machine; it covers the run in which all answers arrive; timeouts and lost connections are the dispatch machine's, and `Batch.Assemble` covers a wait loop that fails part of the way.
- RiskLookup.BatchRisks: errors of a single request stay in the batch elements as the source leaves them; failure of the whole batch request is not modelled.
- `BatchGetTxByHashes`: the same shape as the block summaries. As in the source, a pointer to a zero value stands for a hash that was not found, because the comparison with a zero struct never holds.
- The kinds of RLP decoding errors: all are one error.
- Keccak, ECDSA, the keystore, ABI packing and big.Float risk rates. The RLP library and the hex helpers for addresses are not part of this repository; they are written from the standard and from their documented behaviour.
- Dialling, IPC, websocket and stdio connections, origin checks, metrics, logging, mocks and plain RPC getters.
