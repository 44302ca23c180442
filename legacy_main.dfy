/** `dispatch` and the `proxy` connection handler of
    selenium-proxy/__main__.py, the older version. `dispatch` keeps its
    handler table as an attribute of the function object, built on the
    first call, and hands each handler a fresh Response to fill in. */
module LegacyMain {
  import opened Outcomes
  import opened Protocol
  import opened Selenium
  import opened Handlers
  import opened Connection
  import LegacyActions
  import Main


  /** The table `dispatch` builds: every action function, `start` included. */
  function LegacyActionDict(): (table: map<string, Handler>)
    ensures table.Keys == {"find", "open_page", "start"}
    ensures forall name :: name in table ==> FunctionName(table[name]) == name
  {
    var table := map h | h in ModuleFunctions() :: FunctionName(h) := h;
    assert FunctionName(FindAction) in table && FunctionName(OpenPageAction) in table;
    assert FunctionName(StartAction) in table;
    table
  }

  /** What calling a handler with a payload, the driver and a response does. */
  function CallEffect(h: Handler, v: Variant, driver: Driver): LegacyActions.Effect
  {
    match (h, v)
    case (OpenPageAction, OpenPageField(args)) => LegacyActions.OpenPageEffect(args, driver)
    case (FindAction, FindField(args)) => LegacyActions.FindEffect(args, driver)
    case (StartAction, _) => LegacyActions.Raise(TypeError)  // start takes one argument, not three
    case _ => LegacyActions.Raise(AttributeError)            // the payload lacks the fields the handler reads
  }

  /** What one `dispatch` call gives its caller: an empty request makes
      `getattr(request, None)` raise TypeError; otherwise the Response the
      handler filled in, or the exception it raised. */
  function DispatchOutcome(request: Request, driver: Driver): (r: Outcome<Response>)
    ensures match request.request
      case None => r == Raised(TypeError)
      case Some(OpenPageField(args)) => r == LegacyActions.OnFresh(LegacyActions.OpenPageEffect(args, driver))
      case Some(FindField(args)) => r == LegacyActions.OnFresh(LegacyActions.FindEffect(args, driver))
  {
    match request.request
    case None => Raised(TypeError)
    case Some(v) =>
      match Lookup(LegacyActionDict(), VariantName(v))
      case Raised(e) => Raised(e)
      case Returned(h) => LegacyActions.OnFresh(CallEffect(h, v, driver))
  }

  /** A dispatch outcome with the returned object read as a message. */
  function Observed(r: Outcome<MutableResponse>): Outcome<Response>
    reads if r.Returned? then {r.value} else {}
  {
    match r
    case Returned(response) => Returned(response.Value())
    case Raised(e) => Raised(e)
  }

  /** The `dispatch` function object with its `action_dict` attribute. */
  class Dispatcher {
    var actionDict: Option<map<string, Handler>>

    /** Once built, the attribute holds the full table. */
    ghost predicate Valid()
      reads this
    {
      actionDict.Some? ==> actionDict.value == LegacyActionDict()
    }

    /** The function object before its first call: no attribute yet. */
    constructor ()
      ensures Valid() && actionDict.None?
    {
      actionDict := None;
    }

    /** `dispatch`: builds the table if it is missing (before looking at the
        request), then creates a fresh Response, lets the handler fill it in
        and returns that same object. */
    method Dispatch(request: Request, driver: Driver) returns (r: Outcome<MutableResponse>)
      requires Valid()
      modifies this
      ensures Valid() && actionDict == Some(LegacyActionDict())
      ensures r.Returned? ==> fresh(r.value)
      ensures Observed(r) == DispatchOutcome(request, driver)
    {
      if actionDict.None? {
        actionDict := Some(LegacyActionDict());
      }
      var table := actionDict.value;
      if request.request.None? {
        return Raised(TypeError);
      }
      var v := request.request.value;
      var response := new MutableResponse();
      var name := VariantName(v);
      if name !in table {
        return Raised(KeyError);
      }
      match (table[name], v) {
        case (OpenPageAction, OpenPageField(args)) =>
          LegacyActions.OpenPage(args, driver, response);
          r := Returned(response);
        case (FindAction, FindField(args)) =>
          var raised := LegacyActions.Find(args, driver, response);
          r := if raised.Some? then Raised(raised.value) else Returned(response);
        case (StartAction, _) =>
          r := Raised(TypeError);
        case _ =>
          r := Raised(AttributeError);
      }
    }
  }

  /** The specification of dispatch against one driver, as the loop uses it. */
  function LegacyStep(driver: Driver): Request -> Outcome<Response>
  {
    request => DispatchOutcome(request, driver)
  }

  /** Reading the bootstrap message and entering `with actions.start(...)`:
      every exception, from the read or from `start`, escapes the handler. */
  function LegacyBootstrap(boot: Inbound<StartSession>, grid: Grid): (b: Boot)
    ensures b.Opened? <==> boot.Msg? && LegacyActions.Start(boot.msg, grid).Returned?
    ensures b.Opened? ==> b.driver == LegacyActions.Start(boot.msg, grid).value
    ensures b.NotOpened? ==> b.ending.Escaped?
    ensures b.NotOpened? && boot.Msg? ==> b.ending == Escaped(LegacyActions.Start(boot.msg, grid).exc)
    ensures !boot.Msg? ==> b == NotOpened(Escaped(Interrupt(boot)))
  {
    match boot
    case Msg(args) =>
      (match LegacyActions.Start(args, grid)
       case Raised(e) => NotOpened(Escaped(e))
       case Returned(driver) => Opened(driver))
    case _ => NotOpened(Escaped(Interrupt(boot)))
  }

  /** The `try` around `while True: receive, dispatch, send`, with the
      shared dispatcher. */
  method LegacyLoop(events: seq<Inbound<Request>>, driver: Driver, dispatcher: Dispatcher)
    returns (sent: seq<Response>, ending: Ending)
    requires dispatcher.Valid()
    modifies dispatcher
    ensures dispatcher.Valid()
    ensures old(dispatcher.actionDict).Some? ==> dispatcher.actionDict == old(dispatcher.actionDict)
    ensures Run(sent, ending) == Serve(events, LegacyStep(driver))
  {
    ghost var step := LegacyStep(driver);
    sent, ending := [], Waiting;
    var i := 0;
    while i < |events|
      invariant 0 <= i <= |events|
      invariant dispatcher.Valid()
      invariant old(dispatcher.actionDict).Some? ==> dispatcher.actionDict == old(dispatcher.actionDict)
      invariant Serve(events, step) == Run(sent + Serve(events[i..], step).sent, Serve(events[i..], step).ending)
    {
      assert events[i..][0] == events[i] && events[i..][1..] == events[i + 1..];
      match events[i] {
        case Msg(request) =>
          var response := dispatcher.Dispatch(request, driver);
          if response.Raised? {
            ending := Handle(response.exc);
            return;
          }
          sent := sent + [response.value.Value()];
        case _ =>
          ending := Handle(Interrupt(events[i]));
          return;
      }
      i := i + 1;
    }
    assert events[i..] == [];
  }

  /** `proxy`: the bootstrap message is read once, `start` opens at most one
      session, the loop sends one response per answered request, and the
      `with` block quits the session exactly once when the loop ends. */
  method LegacyProxy(boot: Inbound<StartSession>, events: seq<Inbound<Request>>, grid: Grid, dispatcher: Dispatcher)
    returns (sent: seq<Response>, ending: Ending, sessions: nat, closes: nat)
    requires dispatcher.Valid()
    modifies dispatcher
    ensures dispatcher.Valid()
    ensures old(dispatcher.actionDict).Some? ==> dispatcher.actionDict == old(dispatcher.actionDict)
    ensures LegacyBootstrap(boot, grid).NotOpened? ==>
      sessions == 0 && closes == 0 && sent == [] && ending == LegacyBootstrap(boot, grid).ending
    ensures LegacyBootstrap(boot, grid).Opened? ==>
      sessions == 1 && Run(sent, ending) == Serve(events, LegacyStep(LegacyBootstrap(boot, grid).driver)) &&
      closes == (if ending.Waiting? then 0 else 1)
  {
    sent, sessions, closes := [], 0, 0;
    if !boot.Msg? {
      ending := Escaped(Interrupt(boot));
      return;
    }
    var started := LegacyActions.Start(boot.msg, grid);
    if started.Raised? {
      ending := Escaped(started.exc);
      return;
    }
    var session := new Session(started.value);
    sessions := 1;
    sent, ending := LegacyLoop(events, session.driver, dispatcher);
    if !ending.Waiting? {
      session.Quit();
    }
    closes := session.closes;
  }

  /** An empty request ends the older version's connection with a logged
      TypeError; the newer version answers it with "no request data" and
      goes on with the next event. */
  lemma EmptyRequestContrast(rest: seq<Inbound<Request>>, driver: Driver)
    ensures Serve([Msg(Request(None))] + rest, LegacyStep(driver)) == Run([], Logged(TypeError))
    ensures var r := Serve(rest, Main.Step(driver));
      Serve([Msg(Request(None))] + rest, Main.Step(driver)) == Run([ErrorResponse("no request data")] + r.sent, r.ending)
  {
    assert ([Msg(Request(None))] + rest)[1..] == rest;
  }
}
