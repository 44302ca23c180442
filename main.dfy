/** The handler table, `dispatch` and the `proxy` connection handler of
    src/selenium_proxy/__main__.py. */
module Main {
  import opened Outcomes
  import opened Protocol
  import opened Selenium
  import opened Handlers
  import opened Connection
  import Actions

  /** `action_dict`: every action function except `start`, by name. The
      `@cache` decorator makes it one value for the life of the process. */
  function ActionDict(): (table: map<string, Handler>)
    ensures table.Keys == {"find", "open_page"}
    ensures forall name :: name in table ==> FunctionName(table[name]) == name
  {
    var table := map h | h in ModuleFunctions() && FunctionName(h) != "start" :: FunctionName(h) := h;
    assert FunctionName(FindAction) in table && FunctionName(OpenPageAction) in table;
    table
  }

  /** Calling a handler from the table with a payload and the driver. */
  function Call(h: Handler, v: Variant, driver: Driver): Outcome<Response>
  {
    match (h, v)
    case (OpenPageAction, OpenPageField(args)) => Returned(Actions.OpenPage(args, driver))
    case (FindAction, FindField(args)) => Actions.Find(args, driver)
    case (StartAction, _) => Raised(TypeError)  // start takes one argument, not two
    case _ => Raised(AttributeError)            // the payload lacks the fields the handler reads
  }

  /** `dispatch`: "no request data" for an empty request; otherwise the
      response of the handler named like the populated variant, called with
      that variant's payload and the same driver. */
  function Dispatch(request: Request, driver: Driver): (r: Outcome<Response>)
    ensures match request.request
      case None => r == Returned(ErrorResponse("no request data"))
      case Some(OpenPageField(args)) => r == Returned(Actions.OpenPage(args, driver))
      case Some(FindField(args)) => r == Actions.Find(args, driver)
  {
    match request.request
    case None => Returned(ErrorResponse("no request data"))
    case Some(v) =>
      match Lookup(ActionDict(), VariantName(v))
      case Raised(e) => Raised(e)
      case Returned(h) => Call(h, v, driver)
  }

  /** Every variant of the protocol has its handler in the table, and the
      bootstrap action is never a dispatch target. */
  lemma TableCoversVariants(v: Variant)
    ensures VariantName(v) in ActionDict() && FunctionName(ActionDict()[VariantName(v)]) == VariantName(v)
    ensures "start" !in ActionDict()
  {
  }

  /** Every dispatched request is answered or raises KeyError for an
      unlisted By; it never raises anything else. */
  lemma DispatchRaisesOnlyKeyError(request: Request, driver: Driver)
    ensures Dispatch(request, driver).Raised? <==>
      request.request.Some? && request.request.value.FindField? &&
      Actions.ByTable(request.request.value.find.locateBy).None?
    ensures Dispatch(request, driver).Raised? ==> Dispatch(request, driver).exc == KeyError
    ensures Dispatch(request, driver).Returned? ==> Dispatch(request, driver).value.OneOf()
  {
  }

  /** A request that is not a Find with an unlisted By. */
  predicate ListedLocator(request: Request)
  {
    match request.request
    case Some(FindField(args)) => Actions.ByTable(args.locateBy).Some?
    case _ => true
  }

  /** Dispatch against one driver, as the loop uses it. */
  function Step(driver: Driver): Request -> Outcome<Response>
  {
    request => Dispatch(request, driver)
  }

  /** Reading the bootstrap message and unpacking the pair `start` returns:
      a session when `start` gave a driver. A failed read, and the KeyError
      of an unlisted browser, escape the handler. */
  function Bootstrap(boot: Inbound<StartSession>, grid: Grid): (b: Boot)
    ensures b.Opened? <==>
      boot.Msg? && Actions.BrowserOptions(boot.msg.browser).Some? && boot.msg.url in grid.endpoints
    ensures b.Opened? ==>
      b.driver == Driver(boot.msg.url, Actions.BrowserOptions(boot.msg.browser).value, grid.site)
    ensures b.NotOpened? ==> (b.ending == NoSession <==> boot.Msg? && Actions.Start(boot.msg, grid).Returned?)
    ensures boot.Msg? && Actions.Start(boot.msg, grid).Raised? ==>
      b == NotOpened(Escaped(Actions.Start(boot.msg, grid).exc))
    ensures !boot.Msg? ==> b == NotOpened(Escaped(Interrupt(boot)))
  {
    match boot
    case Msg(args) =>
      (match Actions.Start(args, grid)
       case Raised(e) => NotOpened(Escaped(e))
       case Returned(started) => if started.0.Some? then Opened(started.0.value) else NotOpened(NoSession))
    case _ => NotOpened(Escaped(Interrupt(boot)))
  }

  /** What the `with` statement of `proxy` does as written: it gets the
      pair from `start` and tries to use it as a context manager. */
  datatype Entry = Entry(ending: Ending, opens: nat, closes: nat, sent: seq<Response>)

  /** `proxy` as written: a tuple has no `__enter__`, so the `with` raises
      TypeError (AttributeError before Python 3.11) after `start` has opened
      the remote session. The loop is never reached and the session is never
      quit. */
  function ProxyAsWritten(boot: Inbound<StartSession>, grid: Grid): (r: Entry)
    ensures r.ending.Escaped? && r.sent == [] && r.closes == 0
    ensures r.opens == if Bootstrap(boot, grid).Opened? then 1 else 0
    ensures boot.Msg? && Actions.Start(boot.msg, grid).Returned? ==> r.ending == Escaped(TypeError)
    ensures boot.Msg? && Actions.Start(boot.msg, grid).Raised? ==>
      r.ending == Escaped(Actions.Start(boot.msg, grid).exc)
    ensures !boot.Msg? ==> r.ending == Escaped(Interrupt(boot))
  {
    match boot
    case Msg(args) =>
      (match Actions.Start(args, grid)
       case Raised(e) => Entry(Escaped(e), 0, 0, [])
       case Returned(started) => Entry(Escaped(TypeError), if started.0.Some? then 1 else 0, 0, []))
    case _ => Entry(Escaped(Interrupt(boot)), 0, 0, [])
  }

  /** A reachable endpoint: the session is opened and never quit. */
  lemma AsWrittenLeaksSession()
    ensures var grid := Grid({"http://selenium:4444"}, Site(map[], map[]));
      var r := ProxyAsWritten(Msg(StartSession("http://selenium:4444", BrowserFirefox)), grid);
      r.opens == 1 && r.closes == 0 && r.ending == Escaped(TypeError)
  {
  }

  /** The `try` around `while True: receive, dispatch, send` on one driver. */
  method Loop(events: seq<Inbound<Request>>, driver: Driver) returns (sent: seq<Response>, ending: Ending)
    ensures Run(sent, ending) == Serve(events, Step(driver))
  {
    ghost var step := Step(driver);
    sent, ending := [], Waiting;
    var i := 0;
    while i < |events|
      invariant 0 <= i <= |events|
      invariant ending.Waiting?
      invariant Serve(events, step) == Run(sent + Serve(events[i..], step).sent, Serve(events[i..], step).ending)
    {
      assert events[i..][0] == events[i] && events[i..][1..] == events[i + 1..];
      match events[i] {
        case Msg(request) =>
          var response := Dispatch(request, driver);
          if response.Raised? {
            ending := Handle(response.exc);
            return;
          }
          sent := sent + [response.value];
        case _ =>
          ending := Handle(Interrupt(events[i]));
          return;
      }
      i := i + 1;
    }
    assert events[i..] == [];
  }

  /** `proxy` with the pair from `start` unpacked and the driver managed
      by the `with` block: the bootstrap message is read once, at most one
      session is opened, one response is sent per answered request, and the
      session is quit exactly once when the loop ends. The bootstrap
      response is never sent. */
  method Proxy(boot: Inbound<StartSession>, events: seq<Inbound<Request>>, grid: Grid)
    returns (sent: seq<Response>, ending: Ending, sessions: nat, closes: nat)
    ensures Bootstrap(boot, grid).NotOpened? ==>
      sessions == 0 && closes == 0 && sent == [] && ending == Bootstrap(boot, grid).ending
    ensures Bootstrap(boot, grid).Opened? ==>
      sessions == 1 && Run(sent, ending) == Serve(events, Step(Bootstrap(boot, grid).driver)) &&
      closes == (if ending.Waiting? then 0 else 1)
  {
    sent, sessions, closes := [], 0, 0;
    if !boot.Msg? {
      ending := Escaped(Interrupt(boot));
      return;
    }
    var started := Actions.Start(boot.msg, grid);
    if started.Raised? {
      ending := Escaped(started.exc);
      return;
    }
    var driver := started.value.0;
    if driver.None? {
      ending := NoSession;
      return;
    }
    var session := new Session(driver.value);
    sessions := 1;
    sent, ending := Loop(events, session.driver);
    if !ending.Waiting? {
      session.Quit();
    }
    closes := session.closes;
  }

  /** Only dispatch responses are sent, one per request, in arrival order. */
  lemma {:induction false} ProxySendsDispatchResponses(events: seq<Inbound<Request>>, driver: Driver)
    ensures var r := Serve(events, Step(driver));
      forall i :: 0 <= i < |r.sent| ==> events[i].Msg? && Dispatch(events[i].msg, driver) == Returned(r.sent[i])
  {
    ServeCharacterized(events, Step(driver));
  }

  /** An error response does not end the connection: every request is
      answered until a disconnect or a fault. */
  lemma {:induction false} ProxyAnswersUntilInterrupted(events: seq<Inbound<Request>>, driver: Driver)
    requires forall i :: 0 <= i < |events| && events[i].Msg? ==> ListedLocator(events[i].msg)
    ensures var r := Serve(events, Step(driver));
      && (forall i :: 0 <= i < |r.sent| ==> events[i].Msg?)
      && (|r.sent| < |events| ==> !events[|r.sent|].Msg? && r.ending == Handle(Interrupt(events[|r.sent|])))
  {
    ServeCharacterized(events, Step(driver));
    var r := Serve(events, Step(driver));
    if |r.sent| < |events| {
      var ev := events[|r.sent|];
      if ev.Msg? {
        DispatchRaisesOnlyKeyError(ev.msg, driver);
      }
    }
  }
}
