/**
 The three sequential handlers of the Python echo stream servicer. Unlike the
 Go handlers they poll `context.is_active()`; the `k`-th poll of a handler
 sees the call live exactly when `Live(liveness, k)`. A `yield` cannot fail
 inside the generator, so there is no send plan here. A receive error
 (`grpc.RpcError` from the request iterator) makes the handler call
 `context.abort(INTERNAL, ...)`, which ends the call with that status.
 */
module PyServer {
  import opened Streams
  import opened Messages

  /** How a Python handler ends: normally, or aborted with `INTERNAL` and the
      receive error's text. */
  datatype PyStatus = Completed | AbortedInternal(detail: Error)

  /** The reply of the collecting handler, or the abort. */
  datatype PyReply = Reply(summary: Summary) | Aborted(detail: Error)

  /** Yielded payloads, in order, and how the generator ended. */
  datatype PyOutcome = PyOutcome(yielded: seq<string>, status: PyStatus)

  // ---------------------------------------------------------------------------
  // Collect-then-respond

  function CollectLoop(inbound: Inbound, liveness: Liveness, k: nat, messages: seq<string>): (r: PyReply)
    requires k <= |inbound.msgs| && messages == inbound.msgs[..k]
    requires LiveThrough(liveness, k)
    ensures !LiveThrough(liveness, |inbound.msgs|) ==>
              var n := liveness.checks + 1;
              n <= |inbound.msgs| && r == Reply(Summary(n, inbound.msgs[..n]))
    ensures LiveThrough(liveness, |inbound.msgs|) ==>
              r == (if inbound.end.Broken? then Aborted(inbound.end.err)
                    else Reply(Summary(|inbound.msgs|, inbound.msgs)))
    decreases |inbound.msgs| - k
  {
    match Recv(inbound, k)
    case Msg(m) =>
      assert inbound.msgs[..k + 1] == messages + [m];
      if !Live(liveness, k) then Reply(Summary(|messages + [m]|, messages + [m]))
      else CollectLoop(inbound, liveness, k + 1, messages + [m])
    case Eof =>
      assert messages == inbound.msgs;
      Reply(Summary(|messages|, messages))
    case RecvErr(e) => Aborted(e)
  }

  /** `EchoStreamService.EchoClientStream`: every message is appended in
      receipt order and the call's liveness is polled after each append. If a
      poll sees the call cancelled, the reply summarises the messages up to and
      including that one; otherwise it summarises all of them at end of
      stream; a receive error aborts with `INTERNAL` and no reply. */
  function EchoClientStream(inbound: Inbound, liveness: Liveness): (r: PyReply)
    ensures !LiveThrough(liveness, |inbound.msgs|) ==>
              r == Reply(Summary(liveness.checks + 1, inbound.msgs[..liveness.checks + 1]))
    ensures LiveThrough(liveness, |inbound.msgs|) && inbound.end == EndOfStream ==>
              r == Reply(Summary(|inbound.msgs|, inbound.msgs))
    ensures LiveThrough(liveness, |inbound.msgs|) && inbound.end.Broken? ==>
              r == Aborted(inbound.end.err)
  {
    CollectLoop(inbound, liveness, 0, [])
  }

  /** Whatever reply the collecting handler gives, its count is the length of
      its list and the list is a prefix of the received messages. */
  lemma CollectSummaryConsistent(inbound: Inbound, liveness: Liveness)
    ensures var r := EchoClientStream(inbound, liveness);
      r.Reply? ==> r.summary.count == |r.summary.messages| && r.summary.messages <= inbound.msgs
  {
  }

  // ---------------------------------------------------------------------------
  // Fan-out

  const FanOutCount: nat := 5

  function Min(a: nat, b: nat): nat {
    if a <= b then a else b
  }

  function FanOutLoop(request: string, liveness: Liveness, i: nat, yielded: seq<string>): (r: PyOutcome)
    requires 1 <= i <= FanOutCount + 1 && yielded == FanOutEchoes(request, i - 1)
    requires LiveThrough(liveness, i - 1)
    ensures r.status == Completed
    ensures LiveThrough(liveness, FanOutCount) ==> r.yielded == FanOutEchoes(request, FanOutCount)
    ensures !LiveThrough(liveness, FanOutCount) ==> r.yielded == FanOutEchoes(request, liveness.checks)
    decreases FanOutCount + 1 - i
  {
    if i > FanOutCount then PyOutcome(yielded, Completed)
    else if !Live(liveness, i - 1) then PyOutcome(yielded, Completed)
    else
      assert FanOutEchoes(request, i) == yielded + [FanOutEcho(i, request)];
      FanOutLoop(request, liveness, i + 1, yielded + [FanOutEcho(i, request)])
  }

  /** `EchoStreamService.EchoServerStream`: liveness is polled before each of
      the five replies; the replies yielded are the first
      min(5, live polls) of "Echo #1..5", in increasing order. */
  function EchoServerStream(request: string, liveness: Liveness): (r: PyOutcome)
    ensures r.status == Completed
    ensures liveness.Forever? ==> r.yielded == FanOutEchoes(request, FanOutCount)
    ensures liveness.Until? ==> r.yielded == FanOutEchoes(request, Min(FanOutCount, liveness.checks))
  {
    FanOutLoop(request, liveness, 1, [])
  }

  // ---------------------------------------------------------------------------
  // Lock-step

  function LockStepLoop(inbound: Inbound, liveness: Liveness, k: nat, yielded: seq<string>): (r: PyOutcome)
    requires k <= |inbound.msgs| && yielded == SyncEchoes(inbound.msgs[..k])
    requires LiveThrough(liveness, k)
    ensures !LiveThrough(liveness, |inbound.msgs|) ==>
              r == PyOutcome(SyncEchoes(inbound.msgs[..liveness.checks]), Completed)
    ensures LiveThrough(liveness, |inbound.msgs|) ==>
              r == PyOutcome(SyncEchoes(inbound.msgs),
                             if inbound.end.Broken? then AbortedInternal(inbound.end.err) else Completed)
    decreases |inbound.msgs| - k
  {
    match Recv(inbound, k)
    case Msg(m) =>
      if !Live(liveness, k) then PyOutcome(yielded, Completed)
      else
        assert inbound.msgs[..k + 1] == inbound.msgs[..k] + [m];
        SyncEchoesAppend(inbound.msgs[..k], [m]);
        LockStepLoop(inbound, liveness, k + 1, yielded + [SyncEcho(m)])
    case Eof =>
      assert inbound.msgs[..k] == inbound.msgs;
      PyOutcome(yielded, Completed)
    case RecvErr(e) =>
      assert inbound.msgs[..k] == inbound.msgs;
      PyOutcome(yielded, AbortedInternal(e))
  }

  /** `EchoStreamService.EchoBidirectionalStreamSync`: one "Sync Echo" reply
      per request, in order, each preceded by a liveness poll; the first poll
      that sees the call cancelled ends the generator normally, so the replies
      are those to the requests before it. A receive error aborts with
      `INTERNAL` after the replies already yielded. */
  function EchoBidirectionalStreamSync(inbound: Inbound, liveness: Liveness): (r: PyOutcome)
    ensures !LiveThrough(liveness, |inbound.msgs|) ==>
              r.yielded == SyncEchoes(inbound.msgs[..liveness.checks]) && r.status == Completed
    ensures LiveThrough(liveness, |inbound.msgs|) ==>
              r.yielded == SyncEchoes(inbound.msgs) &&
              r.status == (if inbound.end.Broken? then AbortedInternal(inbound.end.err) else Completed)
  {
    LockStepLoop(inbound, liveness, 0, [])
  }

  /** Never more replies than requests, and each reply parses back to its
      request. */
  lemma LockStepPairing(inbound: Inbound, liveness: Liveness)
    ensures var r := EchoBidirectionalStreamSync(inbound, liveness);
      |r.yielded| <= |inbound.msgs| &&
      forall k :: 0 <= k < |r.yielded| ==> ParseSyncEcho(r.yielded[k]) == Some(inbound.msgs[k])
  {
    var r := EchoBidirectionalStreamSync(inbound, liveness);
    forall k | 0 <= k < |r.yielded|
      ensures ParseSyncEcho(r.yielded[k]) == Some(inbound.msgs[k])
    {
      SyncEchoRoundTrip(r.yielded[k], inbound.msgs[k]);
    }
  }
}
