/**
 `API.EchoBidirectionalStreamAsync` of the Go server: an ingress goroutine and
 an egress goroutine joined by `requestCh`, a buffered channel of capacity 10.

 The two goroutines are modelled as one state and a set of atomic steps; an
 execution is any sequence of steps (a schedule), and a step that is not
 enabled (a blocked channel operation) leaves the state unchanged. The sleeps
 are stutter steps and are not modelled. `ctxDone` is the stream context's
 `Done()` channel; the environment may close it at any time.

 Go's `select` picks at random among ready cases, so where both a channel
 operation and `ctx.Done()` are ready, both steps are enabled here.
 */
module GoAsync {
  import opened Streams
  import opened Messages
  import opened BoundedQueue

  const RequestBuffer: nat := 10

  datatype IngressExit = InputEnded | InputFailed(err: Error) | IngressCancelled

  /** The ingress goroutine: about to `Recv`, blocked forwarding a request into
      the channel, or returned (having closed the channel). */
  datatype Ingress = Receiving | Forwarding(req: string) | IngressDone(why: IngressExit)

  datatype EgressExit = ChannelClosed | SendFailed(err: Error) | EgressCancelled

  /** The egress goroutine: waiting in its `select`, holding a request it took
      from the channel and is about to answer, or returned. */
  datatype Egress = Waiting | Processing(req: string) | EgressDone(why: EgressExit)

  /** The call's fixed environment: the inbound stream and the send outcomes. */
  datatype Env = Env(inbound: Inbound, plan: SendPlan)

  /** `next` counts the `Recv` calls made so far. */
  datatype State = State(next: nat, ingress: Ingress, requests: Queue<string>, egress: Egress,
                         sent: seq<string>, ctxDone: bool)

  datatype Step = IngressRecv | IngressPut | IngressCancel | EgressRecv | EgressSend | EgressCancel | CancelContext

  function Init(): State {
    State(0, Receiving, Empty(RequestBuffer), Waiting, [], false)
  }

  /** The state after step `a`, or `None` if `a` is not enabled. */
  function Next(env: Env, s: State, a: Step): Option<State> {
    match a
    case IngressRecv =>
      if !s.ingress.Receiving? then None
      else (match Recv(env.inbound, s.next)
        case Msg(m) => Some(s.(next := s.next + 1, ingress := Forwarding(m)))
        case Eof => Some(s.(ingress := IngressDone(InputEnded), requests := Close(s.requests)))
        case RecvErr(e) => Some(s.(ingress := IngressDone(InputFailed(e)), requests := Close(s.requests))))
    case IngressPut =>
      if !s.ingress.Forwarding? then None
      else (match Put(s.requests, s.ingress.req)
        case None => None
        case Some(q) => Some(s.(ingress := Receiving, requests := q)))
    case IngressCancel =>
      if s.ingress.Forwarding? && s.ctxDone then
        Some(s.(ingress := IngressDone(IngressCancelled), requests := Close(s.requests)))
      else None
    case EgressRecv =>
      if !s.egress.Waiting? then None
      else (match Take(s.requests)
        case Took(m, q) => Some(s.(egress := Processing(m), requests := q))
        case Drained => Some(s.(egress := EgressDone(ChannelClosed)))
        case Blocked => None)
    case EgressSend =>
      if !s.egress.Processing? then None
      else if SendSucceeds(env.plan, |s.sent|) then
        Some(s.(egress := Waiting, sent := s.sent + [AsyncEcho(s.egress.req)]))
      else Some(s.(egress := EgressDone(SendFailed(env.plan.err))))
    case EgressCancel =>
      if s.egress.Waiting? && s.ctxDone then Some(s.(egress := EgressDone(EgressCancelled))) else None
    case CancelContext =>
      if s.ctxDone then None else Some(s.(ctxDone := true))
  }

  /** Runs a schedule; disabled steps are skipped. */
  function Run(env: Env, s: State, schedule: seq<Step>): State
    decreases |schedule|
  {
    if schedule == [] then s
    else match Next(env, s, schedule[0])
      case None => Run(env, s, schedule[1..])
      case Some(t) => Run(env, t, schedule[1..])
  }

  /** The handler returns once both goroutines have returned, and always `nil`. */
  function HandlerResult(s: State): Option<Status> {
    if s.ingress.IngressDone? && s.egress.EgressDone? then Some(Ok) else None
  }

  // ---------------------------------------------------------------------------
  // The invariant

  function IngressHeld(s: State): seq<string> {
    if s.ingress.Forwarding? then [s.ingress.req] else []
  }

  function EgressHeld(s: State): seq<string> {
    if s.egress.Processing? then [s.egress.req] else []
  }

  predicate EgressFailed(s: State) {
    s.egress.EgressDone? && s.egress.why.SendFailed?
  }

  /** How many requests the egress goroutine has taken from the channel. */
  function Consumed(s: State): nat {
    |s.sent| + if EgressFailed(s) then 1 else 0
  }

  /** How many received requests were not abandoned by a cancelled ingress. */
  function Accounted(s: State): int {
    s.next - if s.ingress == IngressDone(IngressCancelled) then 1 else 0
  }

  /** Every received request is, in order: answered, held by egress, buffered,
      held by ingress, or (once) lost to a failed send or a cancelled forward. */
  predicate Inv(env: Env, s: State) {
    var msgs := env.inbound.msgs;
    && s.requests.capacity == RequestBuffer
    && s.requests.Valid()
    && s.next <= |msgs|
    && (s.requests.closed <==> s.ingress.IngressDone?)
    && (s.ingress == IngressDone(InputEnded) ==> s.next == |msgs| && env.inbound.end == EndOfStream)
    && (s.ingress.IngressDone? && s.ingress.why.InputFailed? ==>
          s.next == |msgs| && env.inbound.end == Broken(s.ingress.why.err))
    && (s.ingress == IngressDone(IngressCancelled) ==> s.ctxDone && 0 < s.next)
    && (s.egress == EgressDone(ChannelClosed) ==> s.requests.items == [] && s.requests.closed)
    && (s.egress == EgressDone(EgressCancelled) ==> s.ctxDone)
    && (EgressFailed(s) ==> env.plan == FailAt(|s.sent|, s.egress.why.err))
    && 0 <= Consumed(s) <= Accounted(s) <= s.next
    && s.sent == AsyncEchoes(msgs[..|s.sent|])
    && EgressHeld(s) + s.requests.items + IngressHeld(s) == msgs[Consumed(s)..Accounted(s)]
  }

  lemma InitInv(env: Env)
    ensures Inv(env, Init())
  {
  }

  lemma IngressRecvKeepsInv(env: Env, s: State)
    requires Inv(env, s) && Next(env, s, IngressRecv).Some?
    ensures Inv(env, Next(env, s, IngressRecv).value)
  {
    var msgs := env.inbound.msgs;
    if Recv(env.inbound, s.next).Msg? {
      var t := Next(env, s, IngressRecv).value;
      assert msgs[Consumed(s)..s.next + 1] == msgs[Consumed(s)..s.next] + [msgs[s.next]];
      assert Consumed(t) == Consumed(s) && Accounted(t) == s.next + 1;
    }
  }

  lemma IngressPutKeepsInv(env: Env, s: State)
    requires Inv(env, s) && Next(env, s, IngressPut).Some?
    ensures Inv(env, Next(env, s, IngressPut).value)
  {
    var t := Next(env, s, IngressPut).value;
    assert EgressHeld(t) + t.requests.items + IngressHeld(t)
        == EgressHeld(s) + s.requests.items + IngressHeld(s);
    assert Consumed(t) == Consumed(s) && Accounted(t) == Accounted(s);
  }

  lemma SliceOfSlice(xs: seq<string>, i: nat, j: nat, k: nat)
    requires i <= j <= k <= |xs|
    ensures xs[i..k][..j - i] == xs[i..j]
  {
  }

  lemma IngressCancelKeepsInv(env: Env, s: State)
    requires Inv(env, s) && Next(env, s, IngressCancel).Some?
    ensures Inv(env, Next(env, s, IngressCancel).value)
  {
    var msgs := env.inbound.msgs;
    var t := Next(env, s, IngressCancel).value;
    var c := Consumed(s);
    var kept := EgressHeld(s) + s.requests.items;
    assert Accounted(s) == s.next;
    assert kept + [s.ingress.req] == msgs[c..s.next];
    assert |kept| == s.next - 1 - c;
    assert (kept + [s.ingress.req])[..|kept|] == kept;
    SliceOfSlice(msgs, c, s.next - 1, s.next);
    assert kept == msgs[c..s.next - 1];
    assert EgressHeld(t) + t.requests.items + IngressHeld(t) == kept;
    assert Consumed(t) == c && Accounted(t) == s.next - 1;
  }

  lemma EgressRecvKeepsInv(env: Env, s: State)
    requires Inv(env, s) && Next(env, s, EgressRecv).Some?
    ensures Inv(env, Next(env, s, EgressRecv).value)
  {
    var t := Next(env, s, EgressRecv).value;
    if Take(s.requests).Took? {
      assert EgressHeld(t) + t.requests.items == s.requests.items;
    }
    assert Consumed(t) == Consumed(s) && Accounted(t) == Accounted(s);
  }

  /** The request egress holds is the first one not yet answered. */
  lemma EgressHeldIsNext(env: Env, s: State)
    requires Inv(env, s) && s.egress.Processing?
    ensures |s.sent| < Accounted(s)
    ensures env.inbound.msgs[|s.sent|] == s.egress.req
    ensures s.requests.items + IngressHeld(s) == env.inbound.msgs[|s.sent| + 1..Accounted(s)]
  {
    var msgs := env.inbound.msgs;
    var c := |s.sent|;
    assert msgs[c..Accounted(s)] == [s.egress.req] + (s.requests.items + IngressHeld(s));
    assert msgs[c..Accounted(s)][0] == msgs[c];
    assert msgs[c..Accounted(s)][1..] == msgs[c + 1..Accounted(s)];
  }

  lemma EgressSendOkKeepsInv(env: Env, s: State)
    requires Inv(env, s) && s.egress.Processing? && SendSucceeds(env.plan, |s.sent|)
    ensures Next(env, s, EgressSend).Some? && Inv(env, Next(env, s, EgressSend).value)
  {
    var msgs := env.inbound.msgs;
    var t := Next(env, s, EgressSend).value;
    var c := |s.sent|;
    EgressHeldIsNext(env, s);
    assert t.sent == s.sent + [AsyncEcho(msgs[c])];
    assert msgs[..c + 1] == msgs[..c] + [msgs[c]];
    AsyncEchoesAppend(msgs[..c], [msgs[c]]);
    assert Consumed(t) == c + 1 && Accounted(t) == Accounted(s);
    assert EgressHeld(t) + t.requests.items + IngressHeld(t) == s.requests.items + IngressHeld(s);
  }

  lemma EgressSendFailKeepsInv(env: Env, s: State)
    requires Inv(env, s) && s.egress.Processing? && !SendSucceeds(env.plan, |s.sent|)
    ensures Next(env, s, EgressSend).Some? && Inv(env, Next(env, s, EgressSend).value)
  {
    var t := Next(env, s, EgressSend).value;
    EgressHeldIsNext(env, s);
    assert Consumed(t) == |s.sent| + 1 && Accounted(t) == Accounted(s);
    assert EgressHeld(t) + t.requests.items + IngressHeld(t) == s.requests.items + IngressHeld(s);
  }

  lemma EgressSendKeepsInv(env: Env, s: State)
    requires Inv(env, s) && Next(env, s, EgressSend).Some?
    ensures Inv(env, Next(env, s, EgressSend).value)
  {
    if SendSucceeds(env.plan, |s.sent|) {
      EgressSendOkKeepsInv(env, s);
    } else {
      EgressSendFailKeepsInv(env, s);
    }
  }

  /** Every enabled step keeps the invariant. */
  lemma NextKeepsInv(env: Env, s: State, a: Step)
    requires Inv(env, s)
    requires Next(env, s, a).Some?
    ensures Inv(env, Next(env, s, a).value)
  {
    match a
    case IngressRecv => IngressRecvKeepsInv(env, s);
    case IngressPut => IngressPutKeepsInv(env, s);
    case IngressCancel => IngressCancelKeepsInv(env, s);
    case EgressRecv => EgressRecvKeepsInv(env, s);
    case EgressSend => EgressSendKeepsInv(env, s);
    case EgressCancel =>
    case CancelContext =>
  }

  lemma {:induction false} RunKeepsInv(env: Env, s: State, schedule: seq<Step>)
    requires Inv(env, s)
    ensures Inv(env, Run(env, s, schedule))
    decreases |schedule|
  {
    if schedule != [] {
      match Next(env, s, schedule[0])
      case None => RunKeepsInv(env, s, schedule[1..]);
      case Some(t) =>
        NextKeepsInv(env, s, schedule[0]);
        RunKeepsInv(env, t, schedule[1..]);
    }
  }

  // ---------------------------------------------------------------------------
  // Properties of every execution

  /** In every execution: at most 10 requests are buffered; the channel is
      closed exactly when ingress has returned, whatever the exit path; the
      replies sent are the "Async Echo (processed)" replies to a prefix of the
      received requests, in FIFO order; while no send has failed, the replies
      followed by the replies owed to the held and buffered requests are the
      replies to every request received and not abandoned; egress returns only
      on closed-and-drained, on the first failed send, or on cancellation;
      ingress abandons a request only on cancellation. */
  lemma AsyncSafety(env: Env, schedule: seq<Step>)
    ensures var s := Run(env, Init(), schedule);
      var msgs := env.inbound.msgs;
      && |s.requests.items| <= RequestBuffer
      && (s.requests.closed <==> s.ingress.IngressDone?)
      && s.sent <= AsyncEchoes(msgs)
      && (!EgressFailed(s) ==>
            0 <= Accounted(s) <= |msgs| &&
            s.sent + AsyncEchoes(EgressHeld(s) + s.requests.items + IngressHeld(s))
              == AsyncEchoes(msgs[..Accounted(s)]))
      && (s.egress == EgressDone(ChannelClosed) ==> s.requests.closed && s.requests.items == [])
      && (s.egress == EgressDone(EgressCancelled) ==> s.ctxDone)
      && (EgressFailed(s) ==> env.plan == FailAt(|s.sent|, s.egress.why.err))
      && (s.ingress == IngressDone(IngressCancelled) ==> s.ctxDone)
  {
    var s := Run(env, Init(), schedule);
    var msgs := env.inbound.msgs;
    InitInv(env);
    RunKeepsInv(env, Init(), schedule);
    AsyncEchoesPrefix(msgs, |s.sent|);
    if !EgressFailed(s) {
      var held := EgressHeld(s) + s.requests.items + IngressHeld(s);
      assert msgs[..Accounted(s)] == msgs[..|s.sent|] + held;
      AsyncEchoesAppend(msgs[..|s.sent|], held);
    }
  }

  /** Backpressure: a forwarding ingress is blocked exactly while the channel is
      full, and it lets go of its request only by putting it into the channel
      (after everything already buffered) or, once the context is done, by
      abandoning it; it never drops a request otherwise. */
  lemma IngressBlocksRatherThanDrops(env: Env, s: State, a: Step)
    requires Inv(env, s) && s.ingress.Forwarding?
    ensures Next(env, s, IngressPut).None? <==> |s.requests.items| == RequestBuffer
    ensures Next(env, s, a).Some? && Next(env, s, a).value.ingress != s.ingress ==>
              var t := Next(env, s, a).value;
              (a == IngressPut && t.requests.items == s.requests.items + [s.ingress.req]) ||
              (a == IngressCancel && s.ctxDone && t.requests.closed)
  {
  }

  /** The channel is closed by exactly the steps that end the ingress goroutine,
      each time on an open channel, so Go's panic on a second close cannot
      occur. */
  lemma ClosedExactlyOnce(env: Env, s: State, a: Step)
    requires Inv(env, s) && Next(env, s, a).Some?
    ensures var t := Next(env, s, a).value;
      (!s.requests.closed && t.requests.closed) <==> (!s.ingress.IngressDone? && t.ingress.IngressDone?)
    ensures var t := Next(env, s, a).value;
      s.requests.closed ==> t.requests.closed
  {
  }

  // ---------------------------------------------------------------------------
  // Drain: a fair execution delivers everything

  /** The scheduler used to show completion: finish a reply in progress, else
      forward a held request if there is room, else let egress take one, else
      receive, else let egress drain. */
  function Policy(s: State): Step {
    if s.egress.Processing? then EgressSend
    else if s.ingress.Forwarding? && !s.requests.Full() then IngressPut
    else if s.ingress.Forwarding? then EgressRecv
    else if s.ingress.Receiving? then IngressRecv
    else EgressRecv
  }

  /** Decreases with every step of the policy: requests move from unreceived
      to held by ingress, to buffered, to held by egress, to answered. */
  function Measure(env: Env, s: State): int {
    4 * (|env.inbound.msgs| - s.next) + 3 * |IngressHeld(s)| + 2 * |s.requests.items| + |EgressHeld(s)|
    + (if s.ingress.IngressDone? then 0 else 1) + (if s.egress.EgressDone? then 0 else 1)
  }

  /** The fair schedule from `s`, and the state it reaches. Without
      cancellation and without a failed send, ingress reads the whole input
      and closes the channel, egress drains the channel in order and stops on
      closed-and-drained, and every received request has been answered. */
  function FairRun(env: Env, s: State): (r: (seq<Step>, State))
    requires Inv(env, s) && !s.ctxDone && NoFailureBefore(env.plan, |env.inbound.msgs|)
    ensures r.1 == Run(env, s, r.0)
    ensures r.1.ingress.IngressDone? && r.1.egress == EgressDone(ChannelClosed)
    ensures r.1.sent == AsyncEchoes(env.inbound.msgs)
    ensures HandlerResult(r.1) == Some(Ok)
    decreases Measure(env, s)
  {
    if s.ingress.IngressDone? && s.egress.EgressDone? then
      assert s.sent == AsyncEchoes(env.inbound.msgs[..|s.sent|]);
      assert |s.sent| == |env.inbound.msgs|;
      assert env.inbound.msgs[..|s.sent|] == env.inbound.msgs;
      ([], s)
    else
      var a := Policy(s);
      assert Next(env, s, a).Some?;
      var t := Next(env, s, a).value;
      NextKeepsInv(env, s, a);
      assert Measure(env, t) < Measure(env, s);
      var (rest, u) := FairRun(env, t);
      assert ([a] + rest)[1..] == rest;
      ([a] + rest, u)
  }

  /** From the start of the call, a fair execution with no cancellation and no
      failed send answers every request in order and returns `nil`, however long
      the input and however small the buffer. */
  lemma AsyncDeliversAll(env: Env)
    requires NoFailureBefore(env.plan, |env.inbound.msgs|)
    ensures var s := Run(env, Init(), FairRun(env, Init()).0);
      s.sent == AsyncEchoes(env.inbound.msgs) && HandlerResult(s) == Some(Ok)
  {
    InitInv(env);
  }
}
