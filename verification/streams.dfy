/**
 The environment of one streaming call, as the echo handlers see it.

 A handler never observes time or sockets; it observes three things:
 - the inbound stream, read one `Recv` at a time: a finite run of messages
   followed by either end-of-stream or a transport error;
 - the outcome of each `Send`, numbered in the order the handler calls it;
 - the liveness of the call (Go's `ctx.Done()`, Python's `context.is_active()`),
   numbered in the order the handler checks it.
 Each of these is a plain value here, so every handler is a function of them.
 */
module Streams {

  datatype Option<+T> = None | Some(value: T)

  /** An error surfaced by the transport, opaque to the handlers. `ContextDone`
      is what Go's `ctx.Err()` reports once the call's context is finished. */
  datatype Error = Transport(detail: string) | ContextDone

  /** What one call of `Recv` (or one step of a Python request iterator) yields. */
  datatype Event = Msg(payload: string) | Eof | RecvErr(err: Error)

  /** How an inbound stream ends once its messages are used up. */
  datatype End = EndOfStream | Broken(err: Error)

  /** The whole inbound side of a call: the messages, in order, then the end. */
  datatype Inbound = Inbound(msgs: seq<string>, end: End)

  /** The event returned by the `k`-th call of `Recv` (counting from 0). */
  function Recv(inbound: Inbound, k: nat): (e: Event)
    ensures e.Msg? <==> k < |inbound.msgs|
    ensures e.Msg? ==> e.payload == inbound.msgs[k]
    ensures e.Eof? <==> k >= |inbound.msgs| && inbound.end == EndOfStream
    ensures e.RecvErr? <==> k >= |inbound.msgs| && inbound.end.Broken?
    ensures e.RecvErr? ==> e.err == inbound.end.err
  {
    if k < |inbound.msgs| then Msg(inbound.msgs[k])
    else match inbound.end
      case EndOfStream => Eof
      case Broken(err) => RecvErr(err)
  }

  /** The outcomes of the handler's sends: all succeed, or the send with the
      given number is the first to fail. Later outcomes are never observed,
      because every handler stops at its first failed send. */
  datatype SendPlan = AllOk | FailAt(index: nat, err: Error)

  predicate SendSucceeds(plan: SendPlan, k: nat) {
    !(plan.FailAt? && plan.index == k)
  }

  /** No send numbered below `n` fails. */
  predicate NoFailureBefore(plan: SendPlan, n: nat) {
    plan.AllOk? || plan.index >= n
  }

  /** The call stays live for ever, or the first `checks` liveness checks see it
      live and every later one sees it cancelled (cancellation is permanent). */
  datatype Liveness = Forever | Until(checks: nat)

  /** Whether the `k`-th liveness check (counting from 0) sees the call live. */
  predicate Live(c: Liveness, k: nat) {
    c.Forever? || k < c.checks
  }

  /** Live for at least the first `n` checks. */
  predicate LiveThrough(c: Liveness, n: nat) {
    c.Forever? || n <= c.checks
  }

  /** What a Go handler returns: `nil` or an error. */
  datatype Status = Ok | Failed(err: Error)

  /** The payloads a handler sent successfully, in order, and what it returned. */
  datatype Outcome = Outcome(sent: seq<string>, status: Status)

  /** The summary of a client stream: how many messages arrived and which,
      in receipt order. */
  datatype Summary = Summary(count: nat, messages: seq<string>)
}
