/** The receive / dispatch / send loop that both versions of `proxy` run
    inside their `try`, as a function of the inbound events, and the
    session whose release the `with` block guarantees. */
module Connection {
  import opened Outcomes
  import opened Protocol
  import opened Selenium

  /** One inbound step of `receive_proto`: a decoded message, a client
      disconnect, or any other failure to read or parse a frame. */
  datatype Inbound<M> = Msg(msg: M) | Disconnect | Fault

  /** What `receive_proto` raises for a step that is not a message. */
  function Interrupt<M>(ev: Inbound<M>): Exc
    requires !ev.Msg?
  {
    if ev.Disconnect? then WebSocketDisconnect else DecodeError
  }

  /** How a connection handler finishes.
      Waiting: the inbound events ran out while the loop was blocked in receive.
      ClientLeft: WebSocketDisconnect was caught; nothing is logged.
      Logged(e): any other exception was caught and logged.
      Escaped(e): an exception raised outside the `try` left the handler.
      NoSession: the bootstrap gave no session and the handler returned. */
  datatype Ending = Waiting | ClientLeft | Logged(exc: Exc) | Escaped(exc: Exc) | NoSession

  /** The two `except` clauses around the loop. */
  function Handle(e: Exc): (end: Ending)
    ensures end == ClientLeft <==> e == WebSocketDisconnect
    ensures end != ClientLeft ==> end == Logged(e)
  {
    if e == WebSocketDisconnect then ClientLeft else Logged(e)
  }

  /** The responses sent, in order, and how the loop ended. */
  datatype Run = Run(sent: seq<Response>, ending: Ending)

  /** An event the loop answers: a message whose dispatch returns. */
  predicate Answered(ev: Inbound<Request>, step: Request -> Outcome<Response>)
  {
    ev.Msg? && step(ev.msg).Returned?
  }

  /** How the loop ends at an event it does not answer. */
  function StopAt(ev: Inbound<Request>, step: Request -> Outcome<Response>): Ending
    requires !Answered(ev, step)
  {
    if ev.Msg? then Handle(step(ev.msg).exc) else Handle(Interrupt(ev))
  }

  /** The loop `while True: receive, dispatch, send` over the given events,
      with `step` as the dispatch function. */
  function Serve(events: seq<Inbound<Request>>, step: Request -> Outcome<Response>): (r: Run)
    ensures |r.sent| <= |events|
    ensures r.ending.Waiting? || r.ending.ClientLeft? || r.ending.Logged?
    decreases |events|
  {
    if events == [] then Run([], Waiting)
    else if Answered(events[0], step) then
      var rest := Serve(events[1..], step);
      Run([step(events[0].msg).value] + rest.sent, rest.ending)
    else Run([], StopAt(events[0], step))
  }

  /** One response per request, in arrival order; the loop stops at the first
      event it does not answer and runs to the end of the events otherwise. */
  lemma {:induction false} ServeCharacterized(events: seq<Inbound<Request>>, step: Request -> Outcome<Response>)
    ensures var r := Serve(events, step);
      && (forall i :: 0 <= i < |r.sent| ==> Answered(events[i], step) && step(events[i].msg) == Returned(r.sent[i]))
      && (|r.sent| < |events| ==> !Answered(events[|r.sent|], step) && r.ending == StopAt(events[|r.sent|], step))
      && (|r.sent| == |events| ==> r.ending == Waiting)
    decreases |events|
  {
    if events != [] && Answered(events[0], step) {
      ServeCharacterized(events[1..], step);
      var r := Serve(events, step);
      var rest := Serve(events[1..], step);
      assert r.sent == [step(events[0].msg).value] + rest.sent;
      forall i | 0 < i < |r.sent|
        ensures Answered(events[i], step) && step(events[i].msg) == Returned(r.sent[i])
      {
        assert events[1..][i - 1] == events[i];
      }
      if |r.sent| < |events| {
        assert events[1..][|rest.sent|] == events[|r.sent|];
      }
    }
  }

  /** A loop that has ended never reads another event; a loop still waiting
      goes on with the events that arrive next. */
  lemma {:induction false} ServeAppend(events: seq<Inbound<Request>>, more: seq<Inbound<Request>>, step: Request -> Outcome<Response>)
    ensures var r := Serve(events, step);
      var s := Serve(more, step);
      Serve(events + more, step) == if r.ending.Waiting? then Run(r.sent + s.sent, s.ending) else r
    decreases |events|
  {
    if events == [] {
      assert events + more == more;
    } else {
      assert (events + more)[0] == events[0];
      assert (events + more)[1..] == events[1..] + more;
      if Answered(events[0], step) {
        ServeAppend(events[1..], more, step);
      }
    }
  }

  /** How the bootstrap went: a session was opened, or the handler finished
      before the loop. */
  datatype Boot = Opened(driver: Driver) | NotOpened(ending: Ending)

  /** An open Selenium session, managed by a `with` block: leaving the block
      calls `quit`, counted here. */
  class Session {
    const driver: Driver
    var closes: nat

    constructor (driver: Driver)
      ensures this.driver == driver && closes == 0
    {
      this.driver := driver;
      closes := 0;
    }

    /** `__exit__`, which quits the remote session. */
    method Quit()
      modifies this
      ensures closes == old(closes) + 1
    {
      closes := closes + 1;
    }
  }
}
