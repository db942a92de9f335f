/**
 The three sequential handlers of the Go echo stream server. Each is a
 recursive function shaped like the handler's `for` loop: the recursion index
 `k` is the number of `Recv` (or `Send`) calls made so far.
 */
module GoServer {
  import opened Streams
  import opened Messages

  // ---------------------------------------------------------------------------
  // Collect-then-respond (client streaming)

  /** The summary reply (if `SendAndClose` succeeded) and the returned status. */
  datatype CollectOutcome = CollectOutcome(reply: Option<Summary>, status: Status)

  /** `SendAndClose` of the summary: the handler's only send, number 0. */
  function SendAndClose(summary: Summary, plan: SendPlan): CollectOutcome {
    if SendSucceeds(plan, 0) then CollectOutcome(Some(summary), Ok)
    else CollectOutcome(None, Failed(plan.err))
  }

  function CollectLoop(inbound: Inbound, plan: SendPlan, k: nat, messages: seq<string>): (r: CollectOutcome)
    requires k <= |inbound.msgs| && messages == inbound.msgs[..k]
    ensures inbound.end.Broken? ==> r == CollectOutcome(None, Failed(inbound.end.err))
    ensures inbound.end == EndOfStream ==>
              r == SendAndClose(Summary(|inbound.msgs|, inbound.msgs), plan)
    decreases |inbound.msgs| - k
  {
    match Recv(inbound, k)
    case Eof =>
      assert messages == inbound.msgs;
      SendAndClose(Summary(|messages|, messages), plan)
    case RecvErr(e) => CollectOutcome(None, Failed(e))
    case Msg(m) =>
      assert inbound.msgs[..k + 1] == messages + [m];
      CollectLoop(inbound, plan, k + 1, messages + [m])
  }

  /** `API.EchoClientStream`: on end-of-stream, exactly one reply whose count
      is the number of messages received and whose list is those messages in
      receipt order; a receive error is returned at once and nothing is sent;
      a failed `SendAndClose` is returned. */
  function EchoClientStream(inbound: Inbound, plan: SendPlan): (r: CollectOutcome)
    ensures inbound.end == EndOfStream && SendSucceeds(plan, 0) ==>
              r.reply == Some(Summary(|inbound.msgs|, inbound.msgs)) && r.status == Ok
    ensures inbound.end == EndOfStream && !SendSucceeds(plan, 0) ==>
              r.reply == None && r.status == Failed(plan.err)
    ensures inbound.end.Broken? ==> r.reply == None && r.status == Failed(inbound.end.err)
  {
    CollectLoop(inbound, plan, 0, [])
  }

  // ---------------------------------------------------------------------------
  // Fan-out (server streaming)

  const FanOutCount: nat := 5

  function FanOutLoop(request: string, plan: SendPlan, i: nat, sent: seq<string>): (r: Outcome)
    requires 1 <= i <= FanOutCount + 1 && sent == FanOutEchoes(request, i - 1)
    requires NoFailureBefore(plan, i - 1)
    ensures NoFailureBefore(plan, FanOutCount) ==> r == Outcome(FanOutEchoes(request, FanOutCount), Ok)
    ensures !NoFailureBefore(plan, FanOutCount) ==>
              r == Outcome(FanOutEchoes(request, plan.index), Failed(plan.err))
    decreases FanOutCount + 1 - i
  {
    if i > FanOutCount then Outcome(sent, Ok)
    else if SendSucceeds(plan, i - 1) then
      assert FanOutEchoes(request, i) == sent + [FanOutEcho(i, request)];
      FanOutLoop(request, plan, i + 1, sent + [FanOutEcho(i, request)])
    else Outcome(sent, Failed(plan.err))
  }

  /** `API.EchoServerStream`: with no failed send, exactly five replies tagged
      1..5 in increasing order and `nil`; otherwise the replies before the
      first failed send, then that send's error, with no later send. */
  function EchoServerStream(request: string, plan: SendPlan): (r: Outcome)
    ensures NoFailureBefore(plan, FanOutCount) ==>
              r.sent == FanOutEchoes(request, FanOutCount) && r.status == Ok
    ensures !NoFailureBefore(plan, FanOutCount) ==>
              r.sent == FanOutEchoes(request, plan.index) && r.status == Failed(plan.err)
  {
    FanOutLoop(request, plan, 1, [])
  }

  /** Every fan-out reply names its position and the request, so the replies are
      pairwise distinct and their tags increase from 1. */
  lemma FanOutTagsIncrease(request: string, plan: SendPlan)
    ensures var r := EchoServerStream(request, plan);
      |r.sent| <= FanOutCount &&
      forall j :: 0 <= j < |r.sent| ==> ParseFanOutEcho(r.sent[j]) == Some((j + 1, request))
  {
    var r := EchoServerStream(request, plan);
    forall j | 0 <= j < |r.sent|
      ensures ParseFanOutEcho(r.sent[j]) == Some((j + 1, request))
    {
      FanOutEchoRoundTrip(j + 1, request);
    }
  }

  // ---------------------------------------------------------------------------
  // Lock-step (bidirectional, synchronous)

  function LockStepLoop(inbound: Inbound, plan: SendPlan, k: nat, sent: seq<string>): (r: Outcome)
    requires k <= |inbound.msgs| && sent == SyncEchoes(inbound.msgs[..k])
    requires NoFailureBefore(plan, k)
    ensures NoFailureBefore(plan, |inbound.msgs|) ==>
              r.sent == SyncEchoes(inbound.msgs) &&
              r.status == (if inbound.end.Broken? then Failed(inbound.end.err) else Ok)
    ensures !NoFailureBefore(plan, |inbound.msgs|) ==>
              r == Outcome(SyncEchoes(inbound.msgs[..plan.index]), Failed(plan.err))
    decreases |inbound.msgs| - k
  {
    match Recv(inbound, k)
    case Eof =>
      assert inbound.msgs[..k] == inbound.msgs;
      Outcome(sent, Ok)
    case RecvErr(e) =>
      assert inbound.msgs[..k] == inbound.msgs;
      Outcome(sent, Failed(e))
    case Msg(m) =>
      if SendSucceeds(plan, k) then
        assert inbound.msgs[..k + 1] == inbound.msgs[..k] + [m];
        SyncEchoesAppend(inbound.msgs[..k], [m]);
        LockStepLoop(inbound, plan, k + 1, sent + [SyncEcho(m)])
      else Outcome(sent, Failed(plan.err))
  }

  /** `API.EchoBidirectionalStreamSync`: the `k`-th send is the reply to the
      `k`-th message and happens before the next `Recv`. With no failed send,
      sends equal receives in number and order, and the handler returns `nil`
      on end-of-stream or the receive error. A failed send is returned at once,
      after exactly the replies to the earlier messages. */
  function EchoBidirectionalStreamSync(inbound: Inbound, plan: SendPlan): (r: Outcome)
    ensures NoFailureBefore(plan, |inbound.msgs|) ==>
              r.sent == SyncEchoes(inbound.msgs) &&
              r.status == (if inbound.end.Broken? then Failed(inbound.end.err) else Ok)
    ensures !NoFailureBefore(plan, |inbound.msgs|) ==>
              r.sent == SyncEchoes(inbound.msgs[..plan.index]) && r.status == Failed(plan.err)
  {
    LockStepLoop(inbound, plan, 0, [])
  }

  /** The lock-step replies can be read back: the `k`-th sent payload parses
      to the `k`-th received message, and never more replies than messages. */
  lemma LockStepPairing(inbound: Inbound, plan: SendPlan)
    ensures var r := EchoBidirectionalStreamSync(inbound, plan);
      |r.sent| <= |inbound.msgs| &&
      forall k :: 0 <= k < |r.sent| ==> ParseSyncEcho(r.sent[k]) == Some(inbound.msgs[k])
  {
    var r := EchoBidirectionalStreamSync(inbound, plan);
    forall k | 0 <= k < |r.sent|
      ensures ParseSyncEcho(r.sent[k]) == Some(inbound.msgs[k])
    {
      SyncEchoRoundTrip(r.sent[k], inbound.msgs[k]);
    }
  }
}
