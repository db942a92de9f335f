/**
 The two sequential drivers of the Go stream client: `testClientStream` sends
 three messages and then closes, `testServerStream` reads replies until
 end-of-stream. Both check `ctx.Done()` before each transport call; the `k`-th
 check sees the context live exactly when `Live(liveness, k)`.
 */
module GoClient {
  import opened Streams
  import opened Messages

  /** The errors the drivers return. Apart from `ContextErr` (the bare
      `ctx.Err()`), each wraps the transport error with `%w`. */
  datatype ClientError =
    | ContextErr
    | CreateStreamFailed(cause: Error)
    | SendMessageFailed(index: nat, cause: Error)
    | CloseAndRecvFailed(cause: Error)
    | ReceiveFailed(cause: Error)

  // ---------------------------------------------------------------------------
  // testClientStream

  const ClientStreamCount: nat := 3

  /** What the client-stream driver sent, whether it called `CloseAndRecv`,
      and what it returned (`None` for `nil`). */
  datatype ClientStreamRun = ClientStreamRun(sent: seq<string>, closeCalled: bool, err: Option<ClientError>)

  /** `CloseAndRecv`, whose failure (if any) is a parameter. */
  function CloseAndRecv(sent: seq<string>, closeErr: Option<Error>): ClientStreamRun {
    match closeErr
    case None => ClientStreamRun(sent, true, None)
    case Some(e) => ClientStreamRun(sent, true, Some(CloseAndRecvFailed(e)))
  }

  function ClientStreamLoop(id: int, liveness: Liveness, plan: SendPlan, closeErr: Option<Error>,
                            i: nat, sent: seq<string>): (r: ClientStreamRun)
    requires i <= ClientStreamCount && sent == ClientMessages(id, i)
    requires LiveThrough(liveness, i) && NoFailureBefore(plan, i)
    ensures LiveThrough(liveness, ClientStreamCount) && NoFailureBefore(plan, ClientStreamCount) ==>
              r == CloseAndRecv(ClientMessages(id, ClientStreamCount), closeErr)
    ensures liveness.Until? && liveness.checks < ClientStreamCount && NoFailureBefore(plan, liveness.checks) ==>
              r == ClientStreamRun(ClientMessages(id, liveness.checks), false, Some(ContextErr))
    ensures plan.FailAt? && plan.index < ClientStreamCount && LiveThrough(liveness, plan.index + 1) ==>
              r == ClientStreamRun(ClientMessages(id, plan.index), false,
                                   Some(SendMessageFailed(plan.index, plan.err)))
    decreases ClientStreamCount - i
  {
    if i == ClientStreamCount then CloseAndRecv(sent, closeErr)
    else if !Live(liveness, i) then ClientStreamRun(sent, false, Some(ContextErr))
    else if !SendSucceeds(plan, i) then ClientStreamRun(sent, false, Some(SendMessageFailed(i, plan.err)))
    else
      assert ClientMessages(id, i + 1) == sent + [ClientMessage(id, i + 1)];
      ClientStreamLoop(id, liveness, plan, closeErr, i + 1, sent + [ClientMessage(id, i + 1)])
  }

  /** `Client.testClientStream`. With a live context and no failed send it
      sends "Hello from client-<id> message-1..3" in order, then calls
      `CloseAndRecv` exactly once and returns its error wrapped. The first
      cancelled context check returns `ctx.Err()` and the first failed send
      returns that error wrapped with its index; either way nothing further is
      sent and `CloseAndRecv` is not called. */
  function TestClientStream(id: int, createErr: Option<Error>, liveness: Liveness, plan: SendPlan,
                            closeErr: Option<Error>): (r: ClientStreamRun)
    ensures createErr.Some? ==> r == ClientStreamRun([], false, Some(CreateStreamFailed(createErr.value)))
    ensures createErr.None? && LiveThrough(liveness, ClientStreamCount) && NoFailureBefore(plan, ClientStreamCount) ==>
              r.sent == ClientMessages(id, ClientStreamCount) && r.closeCalled &&
              r.err == (if closeErr.Some? then Some(CloseAndRecvFailed(closeErr.value)) else None)
    ensures createErr.None? && liveness.Until? && liveness.checks < ClientStreamCount &&
            NoFailureBefore(plan, liveness.checks) ==>
              r.sent == ClientMessages(id, liveness.checks) && !r.closeCalled && r.err == Some(ContextErr)
    ensures createErr.None? && plan.FailAt? && plan.index < ClientStreamCount &&
            LiveThrough(liveness, plan.index + 1) ==>
              r.sent == ClientMessages(id, plan.index) && !r.closeCalled &&
              r.err == Some(SendMessageFailed(plan.index, plan.err))
  {
    match createErr
    case Some(e) => ClientStreamRun([], false, Some(CreateStreamFailed(e)))
    case None => ClientStreamLoop(id, liveness, plan, closeErr, 0, [])
  }

  /** The three cases of `TestClientStream` leave nothing out: whatever the
      context and the send outcomes, the driver sent a prefix of its three
      messages, and called `CloseAndRecv` exactly when all three went out. */
  lemma ClientStreamSendsPrefix(id: int, liveness: Liveness, plan: SendPlan, closeErr: Option<Error>)
    ensures var r := TestClientStream(id, None, liveness, plan, closeErr);
      r.sent <= ClientMessages(id, ClientStreamCount) &&
      (r.closeCalled <==> r.sent == ClientMessages(id, ClientStreamCount))
  {
    var all := ClientMessages(id, ClientStreamCount);
    if LiveThrough(liveness, ClientStreamCount) && NoFailureBefore(plan, ClientStreamCount) {
    } else if liveness.Until? && liveness.checks < ClientStreamCount && NoFailureBefore(plan, liveness.checks) {
      assert ClientMessages(id, liveness.checks) == all[..liveness.checks];
    } else {
      assert plan.FailAt? && plan.index < ClientStreamCount && LiveThrough(liveness, plan.index + 1);
      assert ClientMessages(id, plan.index) == all[..plan.index];
    }
  }

  // ---------------------------------------------------------------------------
  // testServerStream

  /** The replies the server-stream driver received, in order, and what it
      returned (`None` for `nil`). */
  datatype ServerStreamRun = ServerStreamRun(received: seq<string>, err: Option<ClientError>)

  function ServerStreamLoop(inbound: Inbound, liveness: Liveness, k: nat, received: seq<string>): (r: ServerStreamRun)
    requires k <= |inbound.msgs| && received == inbound.msgs[..k]
    requires LiveThrough(liveness, k)
    ensures LiveThrough(liveness, |inbound.msgs| + 1) ==>
              r.received == inbound.msgs &&
              r.err == (if inbound.end.Broken? then Some(ReceiveFailed(inbound.end.err)) else None)
    ensures !LiveThrough(liveness, |inbound.msgs| + 1) ==>
              r == ServerStreamRun(inbound.msgs[..liveness.checks], Some(ContextErr))
    decreases |inbound.msgs| - k
  {
    if !Live(liveness, k) then ServerStreamRun(received, Some(ContextErr))
    else match Recv(inbound, k)
      case Msg(m) =>
        assert inbound.msgs[..k + 1] == received + [m];
        ServerStreamLoop(inbound, liveness, k + 1, received + [m])
      case Eof =>
        assert received == inbound.msgs;
        ServerStreamRun(received, None)
      case RecvErr(e) =>
        assert received == inbound.msgs;
        ServerStreamRun(received, Some(ReceiveFailed(e)))
  }

  /** `Client.testServerStream`: checks the context before every `Recv`;
      receives every reply until end-of-stream and returns `nil`, or returns the
      receive error wrapped; the first cancelled check returns `ctx.Err()` after
      the replies received so far. */
  function TestServerStream(createErr: Option<Error>, inbound: Inbound, liveness: Liveness): (r: ServerStreamRun)
    ensures createErr.Some? ==> r == ServerStreamRun([], Some(CreateStreamFailed(createErr.value)))
    ensures createErr.None? && LiveThrough(liveness, |inbound.msgs| + 1) ==>
              r.received == inbound.msgs &&
              r.err == (if inbound.end.Broken? then Some(ReceiveFailed(inbound.end.err)) else None)
    ensures createErr.None? && !LiveThrough(liveness, |inbound.msgs| + 1) ==>
              r.received == inbound.msgs[..liveness.checks] && r.err == Some(ContextErr)
  {
    match createErr
    case Some(e) => ServerStreamRun([], Some(CreateStreamFailed(e)))
    case None => ServerStreamLoop(inbound, liveness, 0, [])
  }
}
