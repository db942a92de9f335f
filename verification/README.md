# Echo streaming handlers, modelled in Dafny

This project models the echo stream service of a small gRPC course repository.
It covers the four streaming handlers of the Go server (`cmd/stream/main.go`) and
of the Python servicer (`python/stream_server.py`), and two sequential drivers of
the Go stream client (`cmd/stream/client/client.go`). The four handler shapes are:

- **collect-then-respond**: read every request, then send one summary;
- **fan-out**: send five tagged replies to one request;
- **lock-step**: one reply per request, sent before the next receive;
- **decoupled pipeline**: a receiving stage and a replying stage joined by a
  bounded queue of capacity 10. Python adds a processing stage and a second queue.

A handler never sees sockets or time. It sees three things, and each is a plain
value here (module `Streams`):

- **the inbound stream** (`Inbound`): a finite run of messages, then end-of-stream
  or a transport error;
- **the send outcomes** (`SendPlan`): every send succeeds, or the send with a
  given number is the first to fail;
- **the liveness of the call** (`Liveness`): Go's `ctx.Done()` and Python's
  `context.is_active()`. The first `n` checks see the call live and every later
  check sees it cancelled.

Each sequential handler is a pure function of these values. Its recursion follows
the handler's loop, and the loop invariant is the recursive function's `requires`.

Each decoupled pipeline is a state machine (`GoAsync`, `PyAsync`). It has one
state, atomic steps for each stage, and an execution is any schedule of steps.
A blocked step leaves the state unchanged. Safety holds for every schedule of
either pipeline. Completion is shown only for the Go pipeline, and only for one
fair schedule (`GoAsync.FairRun`, `GoAsync.AsyncDeliversAll`). For the Python
pipeline no completion is shown. As written it can end with work still queued
(`PyAsync.AsWrittenDropsQueued`). With the correction, `PyAsync.CorrectedDeliversAll`
says what has been yielded if the generator returns, not that it returns.

The queues (module `BoundedQueue`) are first-in first-out with a capacity.
`Put` on a full queue blocks rather than drops. `Take` on an empty queue blocks
while the queue is open and reports drained once it is closed.

Message texts are strings built as the code builds them: `"Sync Echo: "`,
`"Async Echo (processed): "`, `"Echo #<i>: "` and `"Hello from client-<id> message-<k>"`.
Each has a parser and a proved round trip. The client message parses back to its
number `k`.

Three behaviours of the code are worth stating on their own:

- **Closing the request channel.** Go's `close` of a closed channel panics. The
  model's `Close` is total, and `GoAsync.ClosedExactlyOnce` shows the handler
  closes the channel exactly once, on an open channel.
- **Sends after cancellation.** In the Go pipeline the replying goroutine's
  `select` can still take a buffered request after the context is done, and then
  sends its reply. `GoAsync.Next` allows that step.
- **Draining the Python pipeline.** The Python servicer can drop buffered
  requests at the end of the input stream (see "## Findings").

The Go pipeline can also stall. Suppose the replying goroutine has returned on a
failed send and the channel is full. The receiving goroutine then stays blocked
in its `select` until the call's context is cancelled. `GoAsync.IngressBlocksRatherThanDrops`
states the blocking. `GoAsync.AsyncSafety` gives the exit reasons.

## Model

| member | source | states |
|---|---|---|
| Messages.SyncEchoRoundTrip | cmd/stream/main.go:90-92 | parsing a string gives request `m` exactly when the string is `"Sync Echo: "` followed by `m` |
| Messages.AsyncEchoRoundTrip | cmd/stream/main.go:152-154 | parsing a string gives request `m` exactly when the string is `"Async Echo (processed): "` followed by `m` |
| Messages.FanOutEchoRoundTrip | cmd/stream/main.go:55-57 | the fan-out reply `"Echo #<i>: <msg>"` parses back to its tag `i` and its request |
| Messages.FanOutEchoInjective | python/stream_server.py:94 | two fan-out replies are equal only if both their tags and their requests are equal |
| Messages.ParseNatToString | cmd/stream/main.go:56 | the decimal rendering of a tag reads back as the same number |
| Messages.NatToStringInjective | cmd/stream/main.go:56 | distinct numbers render as distinct decimal strings |
| Messages.ClientMessageRoundTrip | cmd/stream/client/client.go:53-57 | the client message `"Hello from client-<id> message-<k>"` parses back to its number `k` |
| Messages.ClientMessagesDistinct | cmd/stream/client/client.go:53-57 | two messages of one client with different numbers differ, so the three messages the driver sends are pairwise distinct |
| Messages.AsyncEchoesPrefix | cmd/stream/main.go:152-156 | the replies to a prefix of the requests are a prefix of the replies to all of them |
| BoundedQueue.Put | cmd/stream/main.go:130-131 | a put blocks exactly when the queue is full; otherwise the item goes at the tail and nothing else changes |
| BoundedQueue.Take | cmd/stream/main.go:144-148 | a take returns the head when the queue is non-empty; it reports closed only when the queue is closed and empty, and blocks otherwise |
| BoundedQueue.TakeAllIsFifo | cmd/stream/main.go:144-148 | taking until the queue is drained yields the buffered items in order |
| BoundedQueue.PutAllThenTakeAll | cmd/stream/main.go:109 | items put by one producer come out in the order they were put |
| BoundedQueue.PutAllBlocksWhenFull | cmd/stream/main.go:109 | putting more items than the queue has room for blocks at one of the puts; nothing is dropped to make room |
| BoundedQueue.CloseKeepsBuffered | cmd/stream/main.go:144-148 | after a close, the buffered items can still be taken in order, and then the queue reports closed. Closing again changes nothing, but only for the model's total `Close`: a second Go `close` panics, and `GoAsync.ClosedExactlyOnce` shows the handler never does it |
| GoServer.CollectLoop | cmd/stream/main.go:28-40 | given the messages received so far: a transport error is returned with no reply; end-of-stream leads to `SendAndClose` of every message |
| GoServer.EchoClientStream | cmd/stream/main.go:23-48 | on end-of-stream, one summary whose count is the number of messages and whose list is the messages in receipt order, then `nil` or the send's error; on a receive error, that error and no reply |
| GoServer.FanOutLoop | cmd/stream/main.go:54-67 | from reply `i` on: the five replies, or those before the first failed send and then its error |
| GoServer.EchoServerStream | cmd/stream/main.go:51-71 | with no failed send, exactly the replies tagged 1..5 in order, then `nil`; otherwise the replies before the first failed send, then that error |
| GoServer.FanOutTagsIncrease | cmd/stream/main.go:54-57 | at most five replies, and the `j`-th parses to tag `j + 1` and the request |
| GoServer.LockStepLoop | cmd/stream/main.go:77-100 | from the `k`-th receive on: one reply per message in order; the handler stops at end-of-stream, at a receive error or at the first failed send |
| GoServer.EchoBidirectionalStreamSync | cmd/stream/main.go:74-101 | with no failed send, the replies match the messages one to one and in order, and the handler returns `nil` or the receive error; otherwise it returns the send error after the replies to the earlier messages |
| GoServer.LockStepPairing | cmd/stream/main.go:77-100 | never more replies than messages, and the `k`-th reply parses to the `k`-th message |
| PyServer.CollectLoop | python/stream_server.py:53-66 | given the messages received so far: the first poll that sees the call cancelled ends collection with that message included; a receive error aborts |
| PyServer.EchoClientStream | python/stream_server.py:36-71 | the reply summarises every message in order, or only those up to the message whose poll saw the call cancelled; a receive error aborts with `INTERNAL` and sends no reply |
| PyServer.CollectSummaryConsistent | python/stream_server.py:68 | the count in any reply equals the length of its list, and the list is a prefix of the received messages |
| PyServer.FanOutLoop | python/stream_server.py:88-100 | from reply `i` on: each reply follows a live poll, and the generator completes normally |
| PyServer.EchoServerStream | python/stream_server.py:73-102 | the replies tagged 1 up to min(5, live polls), in increasing order, and a normal end |
| PyServer.LockStepLoop | python/stream_server.py:122-143 | from the `k`-th request on: one reply per request whose poll saw the call live, in order; a receive error aborts with `INTERNAL` |
| PyServer.EchoBidirectionalStreamSync | python/stream_server.py:104-145 | the replies are the replies to the requests before the first poll that saw the call cancelled; a receive error aborts after the replies already yielded |
| PyServer.LockStepPairing | python/stream_server.py:123-139 | never more replies than requests, and the `k`-th reply parses to the `k`-th request |
| GoClient.ClientStreamLoop | cmd/stream/client/client.go:59-72 | from message `i` on: the three messages in order, or a prefix ended by a cancelled check or a failed send |
| GoClient.TestClientStream | cmd/stream/client/client.go:44-82 | with a live context and no failed send, the three messages in order, then one `CloseAndRecv` whose error is returned wrapped; a cancelled check returns `ctx.Err()` and a failed send returns the wrapped error, and either way nothing more is sent and `CloseAndRecv` is not called |
| GoClient.ClientStreamSendsPrefix | cmd/stream/client/client.go:53-78 | in every case the driver sends a prefix of its three messages, and it calls `CloseAndRecv` exactly when all three went out |
| GoClient.ServerStreamLoop | cmd/stream/client/client.go:100-118 | from the `k`-th receive on: every reply until end-of-stream, or a prefix ended by a cancelled check or a receive error |
| GoClient.TestServerStream | cmd/stream/client/client.go:85-121 | with a live context, every reply in order, then `nil` at end-of-stream or the receive error wrapped; a cancelled check returns `ctx.Err()` after the replies received so far |
| GoAsync.InitInv | cmd/stream/main.go:108-110 | the pipeline starts with an empty open channel of capacity 10, and the invariant holds |
| GoAsync.IngressRecvKeepsInv | cmd/stream/main.go:117-128 | the receiving goroutine's `Recv` keeps the invariant; on end-of-stream or a receive error it closes the channel |
| GoAsync.IngressPutKeepsInv | cmd/stream/main.go:130-131 | forwarding a request into the channel keeps the invariant |
| GoAsync.IngressCancelKeepsInv | cmd/stream/main.go:132-133 | abandoning a blocked put on cancellation closes the channel and keeps the invariant |
| GoAsync.EgressRecvKeepsInv | cmd/stream/main.go:143-148 | the replying goroutine's take keeps the invariant, and it returns on a closed and drained channel |
| GoAsync.EgressSendKeepsInv | cmd/stream/main.go:152-159 | sending the reply to the request taken keeps the invariant, and a failed send ends the goroutine |
| GoAsync.NextKeepsInv | cmd/stream/main.go:113-168 | every step of either goroutine, and cancellation, keeps the invariant |
| GoAsync.RunKeepsInv | cmd/stream/main.go:113-168 | every execution keeps the invariant |
| GoAsync.AsyncSafety | cmd/stream/main.go:105-173 | in every execution: at most 10 buffered requests; the channel is closed exactly when the receiving goroutine has returned; the replies sent are the `"Async Echo (processed)"` replies to a prefix of the requests, in order; the replying goroutine returns only on a closed and drained channel, on its first failed send or on cancellation |
| GoAsync.IngressBlocksRatherThanDrops | cmd/stream/main.go:130-134 | a held request is either put into the channel or abandoned on cancellation; the put blocks exactly when 10 requests are buffered |
| GoAsync.ClosedExactlyOnce | cmd/stream/main.go:115 | the channel is closed by exactly the steps that end the receiving goroutine, each time on an open channel |
| GoAsync.FairRun | cmd/stream/main.go:113-172 | without cancellation and without a failed send, a schedule exists after which both goroutines have returned, every request has been answered in order, and the handler returns `nil` |
| GoAsync.AsyncDeliversAll | cmd/stream/main.go:105-173 | for every input with no failed send, the fair execution from the start answers every request in order and returns `nil` |
| PyAsync.InitInv | python/stream_server.py:168-170 | the pipeline starts with two empty queues of capacity 10 and `stop` unset, and the invariant holds |
| PyAsync.ReceiverChain | python/stream_server.py:175-189 | a receiver step loses nothing: a request pulled and kept adds its reply to the pending work, and every other step moves work along |
| PyAsync.ProcessorChain | python/stream_server.py:194-208 | a processor step neither loses nor reorders work: each dequeued request becomes its reply at the tail of the response queue |
| PyAsync.EgressChain | python/stream_server.py:238-247 | a generator step yields the head of the response queue, in queue order |
| PyAsync.ChainOkStep | python/stream_server.py:172-247 | every step keeps all work, yielded or pending, equal to a prefix of the replies to the requests pulled |
| PyAsync.ControlStep | python/stream_server.py:186-255 | every step keeps the queues at capacity 10 and keeps the end-marker facts: a finished receiver has queued `None`, a finished processor has queued `None`, and a returned generator has set `stop` |
| PyAsync.NextKeepsInv | python/stream_server.py:172-255 | every step of the three stages, and disconnection, keeps the invariant |
| PyAsync.RunKeepsInv | python/stream_server.py:172-255 | every execution keeps the invariant |
| PyAsync.AsyncSafety | python/stream_server.py:167-255 | in every execution: both queues hold at most 10 items; the yielded replies are the replies to a prefix of the requests, in order; the generator returns only on the end marker or on an inactive call, and sets `stop`; each finished thread has queued its `None` |
| PyAsync.AsWrittenDropsQueued | python/stream_server.py:186-200 | as written, one request then end of stream, with the call active throughout, can end normally with nothing yielded and the request still queued |
| PyAsync.MarkerStep | python/stream_server.py:186-222 | without the receiver's `set()`, the one end marker always travels behind all queued work |
| PyAsync.EndMarkerMeansDelivered | python/stream_server.py:239-242 | without the receiver's `set()`, the generator meets the end marker only after yielding every reply |
| PyAsync.NextKeepsDelivering | python/stream_server.py:172-255 | without the receiver's `set()`, every step keeps the delivery invariant |
| PyAsync.RunKeepsDelivering | python/stream_server.py:172-255 | without the receiver's `set()`, every execution keeps the delivery invariant |
| PyAsync.CorrectedDeliversAll | python/stream_server.py:172-255 | without the receiver's `set()`, if the generator returns while the call is active, it has yielded the reply to every request, in order |
| Sessions.GoClientStreamSession | cmd/stream/client/client.go:44-82 | with the Go server: if the client's context stays live, the summary counts the client's three messages in order and both sides succeed; if it is cancelled first, the client returns `ctx.Err()` and the server sends no reply |
| Sessions.PyClientStreamSession | python/stream_server.py:36-71 | with the Python servicer and a live call, the reply summarises the client's three messages in order |
| Sessions.GoServerStreamSession | cmd/stream/client/client.go:85-121 | with the Go server: the driver reads exactly the replies sent, tagged 1.. with its own request. It reads all five and returns `nil` exactly when no server send failed; otherwise it reads fewer |
| Sessions.PyServerStreamSession | python/stream_server.py:73-102 | with the Python servicer: if the call stays live for the five polls, the driver reads all five replies to its request, tagged 1..5, and returns `nil`. If the servicer sees the call inactive, the driver reads fewer, in the same order, and returns the wrapped receive error of the cancelled call |

## Left out

- The transport between client and server is taken to deliver messages unchanged and in order. A cancellation is taken to reach both sides as a receive error with the cancelled context. `Sessions.ClientSide` is the definition of this assumption for the client-stream driver: the server's inbound stream is what the driver sent, ending cleanly exactly when the driver called `CloseAndRecv`. The `Sessions` lemmas rest on this, and gRPC itself is not modelled.
- Transport and process set-up: `main`, listeners, the gRPC server and the client connection. These are glue with no logic of their own.
- Interceptors, the benchmark script, the Python stream client, and the bidirectional client tests in `cmd/stream/client/client.go`. They are outside the handlers and the two sequential drivers.
- `time.Sleep` pauses and Python's 0.1-second queue timeouts. A timed-out `get` returns its stage to the loop head, which is a step that changes nothing visible.
- Thread joins with a timeout and `WaitGroup.Wait`. `GoAsync.HandlerResult` says the Go handler returns `nil` once both goroutines have returned. The Python generator's joins have no effect on what it yields.
- The exact text of the summary. Go's `%v` and Python's list `repr` render the list differently. The summary is modelled as a count and a list of messages.
- Infinite inbound streams. Every inbound stream here is finite.
- Generic exception handlers in the Python threads, other than a receive error. A failing `put` or `yield` is not modelled.
- Python's client-side cancellation mid-call, which closes the generator. The generator's `finally` sets `stop`, and `PyAsync` models that as the `Disconnect` step followed by the inactive check.
- GoAsync.FairRun: completion is shown for one fair schedule, not for every fair schedule.
- PyAsync.CorrectedDeliversAll: completion (that the generator does return) is not shown, only what it has yielded if it does.

## Findings

| source | as written | input that shows it | evidently intended | confidence | as-written member | corrected member |
|---|---|---|---|---|---|---|
| python/stream_server.py:189 | the receiver's `finally` sets `stop_event` right after queuing `None` at end of input. The processor's `while not stop_event.is_set()` then exits without taking the requests still queued. It queues its own `None`, so the generator ends normally with replies missing | one request `"a"`, then end of stream, with the call active throughout. Receiver runs to the end, then the processor twice, then the generator twice | every request received before the end of the stream gets its reply before the generator returns. The end marker alone should stop the processor | medium, not executed | PyAsync.AsWrittenDropsQueued | PyAsync.CorrectedDeliversAll |
