/**
 The client drivers against the servers: what one driver sends is what the
 handler receives, and what the handler sends is what the driver reads. The
 transport is assumed to deliver messages unchanged and in order. A
 cancellation is seen on both sides: a client that stops before closing its
 side leaves the server's `Recv` failing with the cancelled context, and a call
 the servicer sees inactive leaves the client's `Recv` failing the same way.
 */
module Sessions {
  import opened Streams
  import opened Messages
  import GoServer
  import PyServer
  import GoClient

  /** The inbound stream the server sees from a client-stream driver's run. */
  function ClientSide(run: GoClient.ClientStreamRun): (inbound: Inbound)
    ensures inbound.msgs == run.sent
    ensures inbound.end == EndOfStream <==> run.closeCalled
  {
    Inbound(run.sent, if run.closeCalled then EndOfStream else Broken(ContextDone))
  }

  /** `testClientStream` against the Go `EchoClientStream`, with every send
      succeeding: if the driver's context stays live for its three checks, the
      server replies with a summary counting exactly the driver's three messages
      in order and both sides succeed; if the context is cancelled first, the
      driver returns `ctx.Err()` having sent a prefix, and the server returns
      the receive error without replying. */
  lemma GoClientStreamSession(id: int, liveness: Liveness)
    ensures var run := GoClient.TestClientStream(id, None, liveness, AllOk, None);
      var srv := GoServer.EchoClientStream(ClientSide(run), AllOk);
      && run.sent <= ClientMessages(id, GoClient.ClientStreamCount)
      && (LiveThrough(liveness, GoClient.ClientStreamCount) ==>
            run.err == None && srv.status == Ok &&
            srv.reply == Some(Summary(3, ClientMessages(id, 3))))
      && (!LiveThrough(liveness, GoClient.ClientStreamCount) ==>
            run.err == Some(GoClient.ContextErr) && srv.reply == None &&
            srv.status == Failed(ContextDone))
  {
    GoClient.ClientStreamSendsPrefix(id, liveness, AllOk, None);
    var run := GoClient.TestClientStream(id, None, liveness, AllOk, None);
    if !LiveThrough(liveness, GoClient.ClientStreamCount) {
      assert !run.closeCalled;
    }
  }

  /** The same driver against the Python `EchoClientStream`, whose call stays
      live: a summary of the three messages in order. */
  lemma PyClientStreamSession(id: int)
    ensures var run := GoClient.TestClientStream(id, None, Forever, AllOk, None);
      && run.err == None
      && PyServer.EchoClientStream(ClientSide(run), Forever)
         == PyServer.Reply(Summary(3, ClientMessages(id, 3)))
  {
  }

  /** `testServerStream` against the Go `EchoServerStream`, with the driver's
      context live: the driver reads exactly the replies the server sent, all
      five when no send failed and fewer otherwise, the `j`-th of them tagged `j + 1` and carrying the driver's
      request; the driver returns `nil` exactly when no send of the server
      failed. */
  lemma GoServerStreamSession(id: int, plan: SendPlan)
    ensures var srv := GoServer.EchoServerStream(ServerStreamRequest(id), plan);
      var end := if srv.status.Ok? then EndOfStream else Broken(srv.status.err);
      var run := GoClient.TestServerStream(None, Inbound(srv.sent, end), Forever);
      && run.received == srv.sent
      && |run.received| <= GoServer.FanOutCount
      && (NoFailureBefore(plan, GoServer.FanOutCount) ==>
            run.received == FanOutEchoes(ServerStreamRequest(id), GoServer.FanOutCount))
      && (!NoFailureBefore(plan, GoServer.FanOutCount) ==> |run.received| < GoServer.FanOutCount)
      && (forall j :: 0 <= j < |run.received| ==>
            ParseFanOutEcho(run.received[j]) == Some((j + 1, ServerStreamRequest(id))))
      && (run.err == None <==> NoFailureBefore(plan, GoServer.FanOutCount))
  {
    GoServer.FanOutTagsIncrease(ServerStreamRequest(id), plan);
  }

  /** The same driver against the Python `EchoServerStream`. A call the
      servicer sees inactive is one the transport has cancelled, so the driver's
      `Recv` fails with the cancelled context after the replies already yielded
      rather than meeting a clean end-of-stream. With the call live for the five
      polls, the driver reads all five replies to its request, tagged 1..5, and
      returns `nil`; otherwise it reads fewer than five, in the same order, and
      returns the receive error wrapped. */
  lemma PyServerStreamSession(id: int, liveness: Liveness)
    ensures var srv := PyServer.EchoServerStream(ServerStreamRequest(id), liveness);
      var live := LiveThrough(liveness, PyServer.FanOutCount);
      var end := if live then EndOfStream else Broken(ContextDone);
      var run := GoClient.TestServerStream(None, Inbound(srv.yielded, end), Forever);
      && run.received == srv.yielded
      && (live ==>
            run.received == FanOutEchoes(ServerStreamRequest(id), PyServer.FanOutCount) &&
            run.err == None)
      && (!live ==>
            |run.received| < PyServer.FanOutCount &&
            run.err == Some(GoClient.ReceiveFailed(ContextDone)))
      && (forall j :: 0 <= j < |run.received| ==>
            ParseFanOutEcho(run.received[j]) == Some((j + 1, ServerStreamRequest(id))))
  {
    var srv := PyServer.EchoServerStream(ServerStreamRequest(id), liveness);
    forall j | 0 <= j < |srv.yielded|
      ensures ParseFanOutEcho(srv.yielded[j]) == Some((j + 1, ServerStreamRequest(id)))
    {
      FanOutEchoRoundTrip(j + 1, ServerStreamRequest(id));
    }
  }
}
