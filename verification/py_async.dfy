/**
 `EchoStreamService.EchoBidirectionalStreamAsync` of the Python servicer: a
 receiver thread, a processor thread and the generator itself (egress), joined
 by two `Queue(maxsize=10)` and a `threading.Event` (`stop`). The end of each
 stream is a `None` item in the queue.

 As in the Go model, the three stages are one state and atomic steps, and an
 execution is any schedule of them. A `get(timeout=0.1)` that finds its queue
 empty returns the stage to its loop head; the sleeps are not modelled.
 `active` is `context.is_active()`, which the environment may turn off once.

 The servicer as written sets `stop` when the receiver reaches the end of the
 input. `StopOnlyFromEgress` is the same servicer without that `set()` in the
 receiver's `finally`; both are modelled, and the difference is stated below.
 */
module PyAsync {
  import opened Streams
  import opened Messages
  import opened BoundedQueue

  const QueueSize: nat := 10

  /** The receiver thread: pulling the next request, blocked putting one,
      blocked putting the `None` end marker, about to set `stop`, or finished. */
  datatype Receiver = Pulling | Putting(req: string) | PuttingSentinel | SettingStop | ReceiverDone

  /** The processor thread: at its `while not stop` test, in its `get`, holding
      a request whose reply it is putting, putting the `None` end marker, or
      finished. */
  datatype Processor = Checking | Polling | Working(req: string) | PuttingEnd | ProcessorDone

  datatype EgressExit = Inactive | EndOfResponses

  /** The generator: at its `is_active` test, in its `get`, or returned. */
  datatype Egress = EgressChecking | EgressPolling | EgressDone(why: EgressExit)

  /** The servicer as written, or with the receiver not setting `stop`. */
  datatype Variant = AsWritten | StopOnlyFromEgress

  datatype Env = Env(inbound: Inbound, variant: Variant)

  /** `next` counts the requests pulled from the iterator; `out` is what the
      generator has yielded. */
  datatype State = State(next: nat, receiver: Receiver, requests: Queue<Option<string>>,
                         processor: Processor, responses: Queue<Option<string>>,
                         egress: Egress, out: seq<string>, stop: bool, active: bool)

  datatype Step = ReceiverStep | ProcessorStep | EgressStep | Disconnect

  function Init(): State {
    State(0, Pulling, Empty(QueueSize), Checking, Empty(QueueSize), EgressChecking, [], false, true)
  }

  function ReceiverNext(env: Env, s: State): Option<State> {
    match s.receiver
    case Pulling =>
      (match Recv(env.inbound, s.next)
        case Msg(m) =>
          if s.stop || !s.active then Some(s.(next := s.next + 1, receiver := PuttingSentinel))
          else Some(s.(next := s.next + 1, receiver := Putting(m)))
        case _ => Some(s.(receiver := PuttingSentinel)))
    case Putting(m) =>
      (match Put(s.requests, Some(m))
        case None => None
        case Some(q) => Some(s.(receiver := Pulling, requests := q)))
    case PuttingSentinel =>
      (match Put(s.requests, None)
        case None => None
        case Some(q) =>
          Some(s.(receiver := if env.variant == AsWritten then SettingStop else ReceiverDone, requests := q)))
    case SettingStop => Some(s.(receiver := ReceiverDone, stop := true))
    case ReceiverDone => None
  }

  function ProcessorNext(s: State): Option<State> {
    match s.processor
    case Checking => Some(s.(processor := if s.stop then PuttingEnd else Polling))
    case Polling =>
      (match Take(s.requests)
        case Took(x, q) =>
          if x.Some? then Some(s.(processor := Working(x.value), requests := q))
          else Some(s.(processor := PuttingEnd, requests := q))
        case _ => Some(s.(processor := Checking)))
    case Working(r) =>
      (match Put(s.responses, Some(AsyncEcho(r)))
        case None => None
        case Some(q) => Some(s.(processor := Checking, responses := q)))
    case PuttingEnd =>
      (match Put(s.responses, None)
        case None => None
        case Some(q) => Some(s.(processor := ProcessorDone, responses := q)))
    case ProcessorDone => None
  }

  function EgressNext(s: State): Option<State> {
    match s.egress
    case EgressChecking =>
      if !s.active then Some(s.(egress := EgressDone(Inactive), stop := true))
      else Some(s.(egress := EgressPolling))
    case EgressPolling =>
      (match Take(s.responses)
        case Took(x, q) =>
          if x.Some? then Some(s.(egress := EgressChecking, responses := q, out := s.out + [x.value]))
          else Some(s.(egress := EgressDone(EndOfResponses), responses := q, stop := true))
        case _ => Some(s.(egress := EgressChecking)))
    case EgressDone(_) => None
  }

  /** The state after step `a`, or `None` if `a` is blocked or has nothing to do. */
  function Next(env: Env, s: State, a: Step): Option<State> {
    match a
    case ReceiverStep => ReceiverNext(env, s)
    case ProcessorStep => ProcessorNext(s)
    case EgressStep => EgressNext(s)
    case Disconnect => if s.active then Some(s.(active := false)) else None
  }

  function Run(env: Env, s: State, schedule: seq<Step>): State
    decreases |schedule|
  {
    if schedule == [] then s
    else match Next(env, s, schedule[0])
      case None => Run(env, s, schedule[1..])
      case Some(t) => Run(env, t, schedule[1..])
  }

  // ---------------------------------------------------------------------------
  // The invariant

  /** The payloads of a queue of items and end markers, in order. */
  function Payloads(q: seq<Option<string>>): seq<string>
    decreases |q|
  {
    if q == [] then []
    else (if q[0].Some? then [q[0].value] else []) + Payloads(q[1..])
  }

  lemma {:induction false} PayloadsAppend(a: seq<Option<string>>, b: seq<Option<string>>)
    ensures Payloads(a + b) == Payloads(a) + Payloads(b)
    decreases |a|
  {
    if a != [] {
      assert (a + b)[1..] == a[1..] + b;
      PayloadsAppend(a[1..], b);
    } else {
      assert a + b == b;
    }
  }

  function ReceiverHeld(s: State): seq<string> {
    if s.receiver.Putting? then [s.receiver.req] else []
  }

  function ProcessorHeld(s: State): seq<string> {
    if s.processor.Working? then [AsyncEcho(s.processor.req)] else []
  }

  /** Everything yielded, queued for yielding, being processed, queued for
      processing or about to be queued, as replies, in pipeline order. */
  function Chain(s: State): seq<string> {
    s.out + Payloads(s.responses.items) + ProcessorHeld(s)
    + AsyncEchoes(Payloads(s.requests.items) + ReceiverHeld(s))
  }

  predicate ProcessorEnded(s: State) {
    s.processor == PuttingEnd || s.processor == ProcessorDone
  }

  predicate QueuesOk(s: State) {
    && s.requests.capacity == QueueSize && s.requests.Valid() && !s.requests.closed
    && s.responses.capacity == QueueSize && s.responses.Valid() && !s.responses.closed
  }

  /** Nothing is reordered or invented: the chain is the replies to a prefix of
      the requests pulled so far, and to all of them while the receiver is
      still pulling or putting. */
  predicate ChainOk(env: Env, s: State) {
    var msgs := env.inbound.msgs;
    && s.next <= |msgs|
    && Chain(s) <= AsyncEchoes(msgs[..s.next])
    && (s.receiver.Pulling? || s.receiver.Putting? ==> Chain(s) == AsyncEchoes(msgs[..s.next]))
  }

  /** The end markers and `stop` are set on every exit path. */
  predicate Control(env: Env, s: State) {
    && (env.variant == StopOnlyFromEgress ==> s.receiver != SettingStop)
    && (env.variant == AsWritten && s.receiver == ReceiverDone ==> s.stop)
    && (s.receiver == SettingStop || s.receiver == ReceiverDone ==>
          None in s.requests.items || ProcessorEnded(s))
    && (s.processor == ProcessorDone ==> None in s.responses.items || s.egress.EgressDone?)
    && (s.egress.EgressDone? ==> s.stop)
    && (s.egress == EgressDone(Inactive) ==> !s.active)
  }

  predicate Inv(env: Env, s: State) {
    QueuesOk(s) && ChainOk(env, s) && Control(env, s)
  }

  lemma InitInv(env: Env)
    ensures Inv(env, Init())
  {
    assert Chain(Init()) == [];
  }

  lemma ReceiverPullChain(env: Env, s: State)
    requires s.receiver.Pulling? && ReceiverNext(env, s).Some?
    ensures var t := ReceiverNext(env, s).value;
      if Recv(env.inbound, s.next).Msg? then
        t.next == s.next + 1 &&
        (t.receiver.Putting? ==> Chain(t) == Chain(s) + [AsyncEcho(env.inbound.msgs[s.next])]) &&
        (!t.receiver.Putting? ==> Chain(t) == Chain(s))
      else t.next == s.next && Chain(t) == Chain(s)
  {
    var t := ReceiverNext(env, s).value;
    var q := Payloads(s.requests.items);
    if Recv(env.inbound, s.next).Msg? && t.receiver.Putting? {
      var m := env.inbound.msgs[s.next];
      assert ReceiverHeld(s) == [] && ReceiverHeld(t) == [m];
      AsyncEchoesAppend(q, [m]);
      assert q + [] == q;
    }
  }

  lemma ReceiverPutChain(env: Env, s: State)
    requires (s.receiver.Putting? || s.receiver.PuttingSentinel?) && ReceiverNext(env, s).Some?
    ensures ReceiverNext(env, s).value.next == s.next
    ensures Chain(ReceiverNext(env, s).value) == Chain(s)
  {
    var t := ReceiverNext(env, s).value;
    var x := if s.receiver.Putting? then Some(s.receiver.req) else None;
    assert t.requests.items == s.requests.items + [x];
    assert ReceiverHeld(t) == [];
    PayloadsAppend(s.requests.items, [x]);
    assert [x][1..] == [];
    assert Payloads(t.requests.items) + ReceiverHeld(t) == Payloads(s.requests.items) + ReceiverHeld(s);
  }

  /** Only pulling a request that is then kept changes the chain, by appending
      that request's reply; every other step moves work along the pipeline. */
  lemma ReceiverChain(env: Env, s: State)
    requires s.next <= |env.inbound.msgs| && ReceiverNext(env, s).Some?
    ensures var t := ReceiverNext(env, s).value;
      if s.receiver.Pulling? && Recv(env.inbound, s.next).Msg? then
        t.next == s.next + 1 &&
        (t.receiver.Putting? ==> Chain(t) == Chain(s) + [AsyncEcho(env.inbound.msgs[s.next])]) &&
        (!t.receiver.Putting? ==> Chain(t) == Chain(s))
      else t.next == s.next && Chain(t) == Chain(s)
  {
    match s.receiver
    case Pulling => ReceiverPullChain(env, s);
    case Putting(_) => ReceiverPutChain(env, s);
    case PuttingSentinel => ReceiverPutChain(env, s);
    case SettingStop =>
  }

  /** Taking an item from the head of the request queue moves its reply, if
      any, into the processor's hands. */
  lemma TakeRequestKeepsChain(out: seq<string>, resp: seq<string>, x: Option<string>,
                              rest: seq<Option<string>>, tail: seq<string>)
    ensures out + resp + [] + AsyncEchoes(Payloads([x] + rest) + tail)
         == out + resp + (if x.Some? then [AsyncEcho(x.value)] else []) + AsyncEchoes(Payloads(rest) + tail)
  {
    assert ([x] + rest)[1..] == rest;
    if x.Some? {
      AsyncEchoesAppend([x.value], Payloads(rest) + tail);
      assert Payloads([x] + rest) + tail == [x.value] + (Payloads(rest) + tail);
    }
  }

  /** Putting an item at the tail of the response queue moves it out of the
      processor's hands. */
  lemma PutResponseKeepsChain(out: seq<string>, resp: seq<Option<string>>, x: Option<string>, rest: seq<string>)
    ensures out + Payloads(resp + [x]) + [] + rest
         == out + Payloads(resp) + (if x.Some? then [x.value] else []) + rest
  {
    PayloadsAppend(resp, [x]);
    assert [x][1..] == [];
  }

  /** Taking an item from the head of the response queue yields it. */
  lemma TakeResponseKeepsChain(out: seq<string>, x: Option<string>, rest: seq<Option<string>>, tail: seq<string>)
    ensures out + Payloads([x] + rest) + tail
         == (out + (if x.Some? then [x.value] else [])) + Payloads(rest) + tail
  {
    assert ([x] + rest)[1..] == rest;
  }

  lemma ProcessorPollKeepsChain(s: State)
    requires s.processor.Polling? && Take(s.requests).Took?
    ensures ProcessorNext(s).Some? && Chain(ProcessorNext(s).value) == Chain(s)
  {
    var x := s.requests.items[0];
    var rest := s.requests.items[1..];
    assert s.requests.items == [x] + rest;
    var t := ProcessorNext(s).value;
    assert t.requests.items == rest;
    assert ProcessorHeld(t) == (if x.Some? then [AsyncEcho(x.value)] else []);
    TakeRequestKeepsChain(s.out, Payloads(s.responses.items), x, rest, ReceiverHeld(s));
  }

  lemma ProcessorPutKeepsChain(s: State)
    requires s.processor.Working? || s.processor.PuttingEnd?
    requires ProcessorNext(s).Some?
    ensures Chain(ProcessorNext(s).value) == Chain(s)
  {
    var x := if s.processor.Working? then Some(AsyncEcho(s.processor.req)) else None;
    var t := ProcessorNext(s).value;
    assert t.responses.items == s.responses.items + [x];
    assert ProcessorHeld(t) == [];
    PutResponseKeepsChain(s.out, s.responses.items, x,
                          AsyncEchoes(Payloads(s.requests.items) + ReceiverHeld(s)));
  }

  lemma ProcessorChain(s: State)
    requires ProcessorNext(s).Some?
    ensures ProcessorNext(s).value.next == s.next
    ensures Chain(ProcessorNext(s).value) == Chain(s)
  {
    match s.processor
    case Checking =>
    case Polling =>
      if Take(s.requests).Took? {
        ProcessorPollKeepsChain(s);
      }
    case Working(r) => ProcessorPutKeepsChain(s);
    case PuttingEnd => ProcessorPutKeepsChain(s);
  }

  lemma EgressTakeKeepsChain(s: State)
    requires s.egress.EgressPolling? && Take(s.responses).Took?
    ensures EgressNext(s).Some? && Chain(EgressNext(s).value) == Chain(s)
  {
    var x := s.responses.items[0];
    var rest := s.responses.items[1..];
    assert s.responses.items == [x] + rest;
    var t := EgressNext(s).value;
    assert t.responses.items == rest;
    assert t.out == s.out + (if x.Some? then [x.value] else []);
    assert ProcessorHeld(t) == ProcessorHeld(s) && ReceiverHeld(t) == ReceiverHeld(s);
    TakeResponseKeepsChain(s.out, x, rest, ProcessorHeld(s)
                           + AsyncEchoes(Payloads(s.requests.items) + ReceiverHeld(s)));
  }

  lemma EgressChain(s: State)
    requires EgressNext(s).Some?
    ensures EgressNext(s).value.next == s.next
    ensures Chain(EgressNext(s).value) == Chain(s)
  {
    if s.egress.EgressPolling? && Take(s.responses).Took? {
      EgressTakeKeepsChain(s);
    }
  }

  lemma ChainOkReceiver(env: Env, s: State)
    requires ChainOk(env, s) && ReceiverNext(env, s).Some?
    ensures ChainOk(env, ReceiverNext(env, s).value)
  {
    ReceiverChain(env, s);
    if s.receiver.Pulling? && Recv(env.inbound, s.next).Msg? {
      ChainGrows(env.inbound.msgs, s.next, Chain(s));
    }
  }

  lemma ChainOkStep(env: Env, s: State, a: Step)
    requires ChainOk(env, s) && Next(env, s, a).Some?
    ensures ChainOk(env, Next(env, s, a).value)
  {
    match a
    case ReceiverStep => ChainOkReceiver(env, s);
    case ProcessorStep => ProcessorChain(s);
    case EgressStep => EgressChain(s);
    case Disconnect =>
      assert Chain(Next(env, s, a).value) == Chain(s);
  }

  /** A prefix followed by one more reply is still a prefix of the replies to
      one more request. */
  lemma ChainGrows(msgs: seq<string>, n: nat, chain: seq<string>)
    requires n < |msgs| && chain <= AsyncEchoes(msgs[..n])
    ensures chain <= AsyncEchoes(msgs[..n + 1])
    ensures chain == AsyncEchoes(msgs[..n]) ==> chain + [AsyncEcho(msgs[n])] == AsyncEchoes(msgs[..n + 1])
  {
    assert msgs[..n + 1] == msgs[..n] + [msgs[n]];
    AsyncEchoesAppend(msgs[..n], [msgs[n]]);
  }

  lemma ControlReceiver(env: Env, s: State)
    requires QueuesOk(s) && Control(env, s) && ReceiverNext(env, s).Some?
    ensures QueuesOk(ReceiverNext(env, s).value) && Control(env, ReceiverNext(env, s).value)
  {
    var q := s.requests.items;
    if s.receiver.PuttingSentinel? {
      assert None in q + [None];
    } else if s.receiver.Putting? {
      assert forall x :: x in q ==> x in q + [Some(s.receiver.req)];
    }
  }

  lemma ControlProcessor(env: Env, s: State)
    requires QueuesOk(s) && Control(env, s) && ProcessorNext(s).Some?
    ensures QueuesOk(ProcessorNext(s).value) && Control(env, ProcessorNext(s).value)
  {
    var rq := s.requests.items;
    var sq := s.responses.items;
    if s.processor.Polling? && rq != [] {
      assert rq == [rq[0]] + rq[1..];
      assert None in rq ==> rq[0] == None || None in rq[1..];
    } else if s.processor.PuttingEnd? {
      assert None in sq + [None];
    } else if s.processor.Working? {
      assert forall x :: x in sq ==> x in sq + [Some(AsyncEcho(s.processor.req))];
    }
  }

  lemma ControlEgress(env: Env, s: State)
    requires QueuesOk(s) && Control(env, s) && EgressNext(s).Some?
    ensures QueuesOk(EgressNext(s).value) && Control(env, EgressNext(s).value)
  {
    var sq := s.responses.items;
    if s.egress.EgressPolling? && sq != [] {
      assert sq == [sq[0]] + sq[1..];
      assert None in sq ==> sq[0] == None || None in sq[1..];
    }
  }

  lemma ControlStep(env: Env, s: State, a: Step)
    requires QueuesOk(s) && Control(env, s) && Next(env, s, a).Some?
    ensures QueuesOk(Next(env, s, a).value) && Control(env, Next(env, s, a).value)
  {
    match a
    case ReceiverStep => ControlReceiver(env, s);
    case ProcessorStep => ControlProcessor(env, s);
    case EgressStep => ControlEgress(env, s);
    case Disconnect =>
  }

  lemma NextKeepsInv(env: Env, s: State, a: Step)
    requires Inv(env, s) && Next(env, s, a).Some?
    ensures Inv(env, Next(env, s, a).value)
  {
    ChainOkStep(env, s, a);
    ControlStep(env, s, a);
  }

  lemma {:induction false} RunKeepsInv(env: Env, s: State, schedule: seq<Step>)
    requires Inv(env, s)
    ensures Inv(env, Run(env, s, schedule))
    decreases |schedule|
  {
    if schedule != [] {
      match Next(env, s, schedule[0])
      case None => RunKeepsInv(env, s, schedule[1..]);
      case Some(t) =>
        NextKeepsInv(env, s, schedule[0]);
        RunKeepsInv(env, t, schedule[1..]);
    }
  }

  /** In every execution, of either variant: both queues hold at most 10 items;
      the yielded replies are the "Async Echo (processed)" replies to a prefix
      of the requests, in order; the generator returns only on the `None` end
      marker or on an inactive context, and sets `stop` either way; a finished
      receiver has put its `None` marker (still queued, or already taken by a
      processor that has stopped) and, as written, has set `stop`; a finished
      processor has put its `None` marker, unless the generator has already
      returned. */
  lemma AsyncSafety(env: Env, schedule: seq<Step>)
    ensures var s := Run(env, Init(), schedule);
      && |s.requests.items| <= QueueSize && |s.responses.items| <= QueueSize
      && s.out <= AsyncEchoes(env.inbound.msgs)
      && (s.egress.EgressDone? ==> s.stop)
      && (s.egress == EgressDone(Inactive) ==> !s.active)
      && (s.receiver == ReceiverDone ==> None in s.requests.items || ProcessorEnded(s))
      && (env.variant == AsWritten && s.receiver == ReceiverDone ==> s.stop)
      && (s.processor == ProcessorDone ==> None in s.responses.items || s.egress.EgressDone?)
  {
    var s := Run(env, Init(), schedule);
    InitInv(env);
    RunKeepsInv(env, Init(), schedule);
    AsyncEchoesPrefix(env.inbound.msgs, s.next);
    assert s.out <= Chain(s);
  }

  // ---------------------------------------------------------------------------
  // As written, queued requests can be left unprocessed

  lemma RunStep(env: Env, s: State, schedule: seq<Step>)
    requires schedule != [] && Next(env, s, schedule[0]).Some?
    ensures Run(env, s, schedule) == Run(env, Next(env, s, schedule[0]).value, schedule[1..])
  {
  }

  /** One request, then end of stream, and a context that stays active. */
  const DropEnv: Env := Env(Inbound(["a"], EndOfStream), AsWritten)

  const DropSchedule: seq<Step> :=
    [ReceiverStep, ReceiverStep, ReceiverStep, ReceiverStep, ReceiverStep,
     ProcessorStep, ProcessorStep, EgressStep, EgressStep]

  function Queued(items: seq<Option<string>>): Queue<Option<string>> {
    Queue(items, QueueSize, false)
  }

  /** The states of the execution `DropSchedule` from `Init()`. */
  function DropState(i: nat): State {
    if i == 0 then Init()
    else if i == 1 then State(1, Putting("a"), Queued([]), Checking, Queued([]), EgressChecking, [], false, true)
    else if i == 2 then State(1, Pulling, Queued([Some("a")]), Checking, Queued([]), EgressChecking, [], false, true)
    else if i == 3 then State(1, PuttingSentinel, Queued([Some("a")]), Checking, Queued([]), EgressChecking, [], false, true)
    else if i == 4 then State(1, SettingStop, Queued([Some("a"), None]), Checking, Queued([]), EgressChecking, [], false, true)
    else if i == 5 then State(1, ReceiverDone, Queued([Some("a"), None]), Checking, Queued([]), EgressChecking, [], true, true)
    else if i == 6 then State(1, ReceiverDone, Queued([Some("a"), None]), PuttingEnd, Queued([]), EgressChecking, [], true, true)
    else if i == 7 then State(1, ReceiverDone, Queued([Some("a"), None]), ProcessorDone, Queued([None]), EgressChecking, [], true, true)
    else if i == 8 then State(1, ReceiverDone, Queued([Some("a"), None]), ProcessorDone, Queued([None]), EgressPolling, [], true, true)
    else State(1, ReceiverDone, Queued([Some("a"), None]), ProcessorDone, Queued([]), EgressDone(EndOfResponses), [], true, true)
  }

  lemma DropReceiverSteps()
    ensures Next(DropEnv, DropState(0), ReceiverStep) == Some(DropState(1))
    ensures Next(DropEnv, DropState(1), ReceiverStep) == Some(DropState(2))
    ensures Next(DropEnv, DropState(2), ReceiverStep) == Some(DropState(3))
  {
    assert Queued([]).items + [Some("a")] == [Some("a")];
  }

  lemma DropSentinelSteps()
    ensures Next(DropEnv, DropState(3), ReceiverStep) == Some(DropState(4))
    ensures Next(DropEnv, DropState(4), ReceiverStep) == Some(DropState(5))
  {
    assert [Some("a")] + [None] == [Some("a"), None];
  }

  lemma DropProcessorSteps()
    ensures Next(DropEnv, DropState(5), ProcessorStep) == Some(DropState(6))
    ensures Next(DropEnv, DropState(6), ProcessorStep) == Some(DropState(7))
  {
    assert Queued([]).items + [None] == [None];
  }

  lemma DropEgressSteps()
    ensures Next(DropEnv, DropState(7), EgressStep) == Some(DropState(8))
    ensures Next(DropEnv, DropState(8), EgressStep) == Some(DropState(9))
  {
    assert Take(DropState(8).responses) == Took(None, Queued([]));
  }

  lemma {:induction false} DropRun(i: nat)
    requires i <= 9
    ensures Run(DropEnv, DropState(i), DropSchedule[i..]) == DropState(9)
    decreases 9 - i
  {
    if i < 9 {
      DropReceiverSteps();
      DropSentinelSteps();
      DropProcessorSteps();
      DropEgressSteps();
      assert DropSchedule[i..][0] == DropSchedule[i];
      assert DropSchedule[i..][1..] == DropSchedule[i + 1..];
      RunStep(DropEnv, DropState(i), DropSchedule[i..]);
      DropRun(i + 1);
    }
  }

  /** One request, then end of stream, a context that stays active, and no
      failure anywhere: the receiver queues the request and the end marker and
      sets `stop`; the processor sees `stop` before it ever polls, and the
      generator meets the processor's end marker and returns normally, having
      yielded nothing. The request stays in the request queue. */
  lemma AsWrittenDropsQueued()
    ensures var s := Run(DropEnv, Init(), DropSchedule);
      && s.active
      && s.egress == EgressDone(EndOfResponses)
      && s.out == []
      && s.requests.items == [Some("a"), None]
      && AsyncEchoes(DropEnv.inbound.msgs) == [AsyncEcho("a")]
  {
    DropRun(0);
    assert DropSchedule[0..] == DropSchedule;
  }

  // ---------------------------------------------------------------------------
  // Without the receiver's `set()`, a normal end delivers every reply

  /** A queue whose only `None` is its last item. */
  predicate EndsWithNone(q: seq<Option<string>>) {
    |q| > 0 && q[|q| - 1] == None && forall i :: 0 <= i < |q| - 1 ==> q[i].Some?
  }

  /** Where the single `None` end marker is once the receiver has finished:
      still in the request queue behind every request, taken by the processor,
      or forwarded behind every reply. */
  predicate MarkerInFlight(s: State) {
    || (EndsWithNone(s.requests.items) && !ProcessorEnded(s) && None !in s.responses.items)
    || (s.requests.items == [] && s.processor == PuttingEnd && None !in s.responses.items)
    || (s.requests.items == [] && s.processor == ProcessorDone && EndsWithNone(s.responses.items))
  }

  /** Before the receiver has put its marker there is no marker anywhere; after
      that, exactly one, behind all the work. */
  predicate Marker(env: Env, s: State) {
    && (s.receiver == PuttingSentinel || s.receiver == ReceiverDone ==> s.next == |env.inbound.msgs|)
    && (s.receiver != ReceiverDone ==>
          None !in s.requests.items && !ProcessorEnded(s) && None !in s.responses.items)
    && (s.receiver == ReceiverDone ==> MarkerInFlight(s))
  }

  /** The chain is exactly the replies to every request pulled. */
  predicate Exact(env: Env, s: State) {
    s.next <= |env.inbound.msgs| && Chain(s) == AsyncEchoes(env.inbound.msgs[..s.next])
  }

  /** For the variant whose receiver does not set `stop`, while the context is
      active: once the generator has met the end marker it has yielded every
      reply; before that, `stop` is unset, nothing pulled is lost, and the end
      marker travels behind all the work. */
  predicate Delivering(env: Env, s: State) {
    env.variant == StopOnlyFromEgress && s.active ==>
      && (s.egress == EgressDone(EndOfResponses) ==> s.out == AsyncEchoes(env.inbound.msgs))
      && (!s.egress.EgressDone? ==> !s.stop && Exact(env, s) && Marker(env, s))
  }

  lemma EndsWithNoneTake(q: seq<Option<string>>)
    requires EndsWithNone(q)
    ensures q[0] == None ==> q == [None]
    ensures q[0].Some? ==> EndsWithNone(q[1..])
  {
  }

  lemma NoneNotInTail(q: seq<Option<string>>)
    requires q != [] && None !in q
    ensures None !in q[1..]
  {
    assert forall i :: 0 <= i < |q| - 1 ==> q[1..][i] == q[i + 1];
  }

  lemma EndsWithNonePut(q: seq<Option<string>>)
    requires None !in q
    ensures EndsWithNone(q + [None])
  {
    forall i | 0 <= i < |q|
      ensures (q + [None])[i].Some?
    {
      assert q[i] in q;
    }
  }

  lemma NoneNotInPutSome(q: seq<Option<string>>, x: string)
    requires None !in q
    ensures None !in q + [Some(x)]
  {
  }


  /** The marker facts survive every step taken while the generator runs and the
      context stays active; the last step below ends the generator with every
      reply yielded. */
  lemma MarkerStep(env: Env, s: State, a: Step)
    requires Inv(env, s) && Delivering(env, s) && Next(env, s, a).Some?
    requires env.variant == StopOnlyFromEgress && s.active && !s.egress.EgressDone?
    requires a != Disconnect
    ensures var t := Next(env, s, a).value;
      !t.egress.EgressDone? ==> Marker(env, t)
  {
    var t := Next(env, s, a).value;
    var rq := s.requests.items;
    var sq := s.responses.items;
    match a
    case ReceiverStep =>
      if s.receiver.Putting? {
        NoneNotInPutSome(rq, s.receiver.req);
      } else if s.receiver.PuttingSentinel? {
        EndsWithNonePut(rq);
      }
    case ProcessorStep =>
      if s.processor.Polling? && Take(s.requests).Took? {
        if rq[0].Some? {
          if EndsWithNone(rq) {
            EndsWithNoneTake(rq);
          } else {
            NoneNotInTail(rq);
          }
        } else {
          assert rq[0] in rq;
          EndsWithNoneTake(rq);
        }
      } else if s.processor.Working? {
        NoneNotInPutSome(sq, AsyncEcho(s.processor.req));
      } else if s.processor.PuttingEnd? {
        EndsWithNonePut(sq);
      }
    case EgressStep =>
      if s.egress.EgressPolling? && Take(s.responses).Took? && sq[0].Some? {
        if EndsWithNone(sq) {
          EndsWithNoneTake(sq);
        } else {
          NoneNotInTail(sq);
        }
      }
  }

  /** The generator meets the end marker only once every reply is in `out`. */
  lemma EndMarkerMeansDelivered(env: Env, s: State)
    requires Inv(env, s) && Delivering(env, s)
    requires env.variant == StopOnlyFromEgress && s.active && s.egress.EgressPolling?
    requires s.responses.items != [] && s.responses.items[0] == None
    ensures s.out == AsyncEchoes(env.inbound.msgs)
  {
    var sq := s.responses.items;
    assert sq[0] in sq;
    assert s.receiver == ReceiverDone;
    EndsWithNoneTake(sq);
    assert Payloads(s.requests.items) + ReceiverHeld(s) == [];
    assert Payloads(sq) == [];
    assert Chain(s) == s.out;
    assert env.inbound.msgs[..s.next] == env.inbound.msgs;
  }

  lemma ReceiverKeepsDelivering(env: Env, s: State)
    requires Inv(env, s) && Delivering(env, s) && ReceiverNext(env, s).Some?
    requires env.variant == StopOnlyFromEgress && s.active && !s.egress.EgressDone?
    ensures Delivering(env, ReceiverNext(env, s).value)
  {
    ChainOkStep(env, s, ReceiverStep);
    ReceiverChain(env, s);
    if s.receiver.Pulling? && Recv(env.inbound, s.next).Msg? {
      ChainGrows(env.inbound.msgs, s.next, Chain(s));
    }
    MarkerStep(env, s, ReceiverStep);
  }

  lemma ProcessorKeepsDelivering(env: Env, s: State)
    requires Inv(env, s) && Delivering(env, s) && ProcessorNext(s).Some?
    requires env.variant == StopOnlyFromEgress && s.active && !s.egress.EgressDone?
    ensures Delivering(env, ProcessorNext(s).value)
  {
    ProcessorChain(s);
    MarkerStep(env, s, ProcessorStep);
  }

  lemma EgressKeepsDelivering(env: Env, s: State)
    requires Inv(env, s) && Delivering(env, s) && EgressNext(s).Some?
    requires env.variant == StopOnlyFromEgress && s.active && !s.egress.EgressDone?
    ensures Delivering(env, EgressNext(s).value)
  {
    EgressChain(s);
    if s.egress.EgressPolling? && Take(s.responses).Took? && s.responses.items[0] == None {
      EndMarkerMeansDelivered(env, s);
    } else {
      MarkerStep(env, s, EgressStep);
    }
  }

  lemma NextKeepsDelivering(env: Env, s: State, a: Step)
    requires Inv(env, s) && Delivering(env, s) && Next(env, s, a).Some?
    ensures Delivering(env, Next(env, s, a).value)
  {
    if env.variant == StopOnlyFromEgress && s.active && !s.egress.EgressDone? {
      match a
      case ReceiverStep => ReceiverKeepsDelivering(env, s);
      case ProcessorStep => ProcessorKeepsDelivering(env, s);
      case EgressStep => EgressKeepsDelivering(env, s);
      case Disconnect =>
    }
  }

  lemma {:induction false} RunKeepsDelivering(env: Env, s: State, schedule: seq<Step>)
    requires Inv(env, s) && Delivering(env, s)
    ensures Delivering(env, Run(env, s, schedule))
    decreases |schedule|
  {
    if schedule != [] {
      match Next(env, s, schedule[0])
      case None => RunKeepsDelivering(env, s, schedule[1..]);
      case Some(t) =>
        NextKeepsInv(env, s, schedule[0]);
        NextKeepsDelivering(env, s, schedule[0]);
        RunKeepsDelivering(env, t, schedule[1..]);
    }
  }

  /** Without the receiver's `set()`, every execution in which the generator
      returns while the context is still active has yielded the reply to every
      request received, in order, whether the input ended normally or with a
      receive error. */
  lemma CorrectedDeliversAll(env: Env, schedule: seq<Step>)
    requires env.variant == StopOnlyFromEgress
    ensures var s := Run(env, Init(), schedule);
      s.active && s.egress.EgressDone? ==> s.out == AsyncEchoes(env.inbound.msgs)
  {
    InitInv(env);
    assert env.inbound.msgs[..0] == [];
    assert Delivering(env, Init());
    RunKeepsDelivering(env, Init(), schedule);
    RunKeepsInv(env, Init(), schedule);
    var s := Run(env, Init(), schedule);
    assert Control(env, s) && Delivering(env, s);
    if s.active && s.egress.EgressDone? {
      assert s.egress.why == EndOfResponses;
    }
  }
}
