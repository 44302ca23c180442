/** The action functions of selenium_proxy/actions.py, the older version.
    `open_page` and `find` return nothing and assign one field of a Response
    object their caller owns; `start` returns the driver itself. */
module LegacyActions {
  import opened Outcomes
  import opened Protocol
  import opened Selenium
  import Actions

  /** What one handler call does to its Response: assign `result`, assign
      `error`, or raise before assigning anything. */
  datatype Effect = SetResult(value: string) | SetError(message: string) | Raise(exc: Exc)

  /** The Response after an effect: the one assigned field changes, nothing else. */
  function Apply(e: Effect, r: Response): (updated: Response)
    ensures e.SetResult? ==> updated.result == Some(e.value) && updated.error == r.error
    ensures e.SetError? ==> updated.error == Some(e.message) && updated.result == r.result
    ensures e.Raise? ==> updated == r
  {
    match e
    case SetResult(v) => r.(result := Some(v))
    case SetError(m) => r.(error := Some(m))
    case Raise(_) => r
  }

  /** Python truthiness of an optional string: None and "" are false. */
  predicate Truthy(s: Option<string>)
  {
    s.Some? && s.value != ""
  }

  /** `start`: the driver, or an exception that propagates to the caller:
      KeyError for an unlisted browser, MaxRetryError when the endpoint
      does not answer. The `browser_options` table is the one of the newer
      version. */
  function Start(args: StartSession, grid: Grid): (r: Outcome<Driver>)
    ensures r == Raised(KeyError) <==> Actions.BrowserOptions(args.browser).None?
    ensures r == Raised(MaxRetryError) <==>
      Actions.BrowserOptions(args.browser).Some? && args.url !in grid.endpoints
    ensures r.Returned? <==> Actions.BrowserOptions(args.browser).Some? && args.url in grid.endpoints
    ensures r.Returned? ==> r.value == Driver(args.url, Actions.BrowserOptions(args.browser).value, grid.site)
  {
    match Actions.BrowserOptions(args.browser)
    case None => Raised(KeyError)
    case Some(options) => Remote(args.url, options, grid)
  }

  /** What `open_page` assigns: the current url, or "could not reach url". */
  function OpenPageEffect(args: OpenPageArgs, driver: Driver): (e: Effect)
    ensures !e.Raise?
    ensures e == SetError("could not reach url") <==> Get(driver, args.url).None?
    ensures e.SetResult? ==> Get(driver, args.url) == Some(e.value)
    ensures Get(driver, args.url).Some? ==> e == SetResult(Get(driver, args.url).value)
  {
    match Get(driver, args.url)
    case None => SetError("could not reach url")
    case Some(currentUrl) => SetResult(currentUrl)
  }

  method OpenPage(args: OpenPageArgs, driver: Driver, response: MutableResponse)
    modifies response
    ensures response.Value() == Apply(OpenPageEffect(args, driver), old(response.Value()))
  {
    var currentUrl := Get(driver, args.url);
    if currentUrl.None? {
      response.error := Some("could not reach url");
      return;
    }
    response.result := currentUrl;
  }

  /** What `find` does: raise KeyError for an unlisted By, assign "no such
      element", assign a truthy attribute value to `result`, or assign
      "no such attribute for given element" when the value is None or "". */
  function FindEffect(args: FindArgs, driver: Driver): (e: Effect)
    ensures e.Raise? <==> Actions.ByTable(args.locateBy).None?
    ensures e.Raise? ==> e.exc == KeyError
    ensures !e.Raise? ==>
      (e == SetError("no such element") <==>
       FindElement(driver, Actions.ByTable(args.locateBy).value, args.value).None?)
    ensures !e.Raise? && FindElement(driver, Actions.ByTable(args.locateBy).value, args.value).Some? ==>
      var value := GetAttribute(FindElement(driver, Actions.ByTable(args.locateBy).value, args.value).value,
                                Actions.QueriedAttribute(args));
      && (e == SetError("no such attribute for given element") <==> !Truthy(value))
      && (Truthy(value) ==> e == SetResult(value.value))
    ensures e.SetResult? ==> e.value != ""
  {
    match Actions.ByTable(args.locateBy)
    case None => Raise(KeyError)
    case Some(strategy) =>
      match FindElement(driver, strategy, args.value)
      case None => SetError("no such element")
      case Some(element) =>
        var attribute := GetAttribute(element, Actions.QueriedAttribute(args));
        if Truthy(attribute) then SetResult(attribute.value)
        else SetError("no such attribute for given element")
  }

  /** `find`; `raised` is the exception it lets escape. */
  method Find(args: FindArgs, driver: Driver, response: MutableResponse) returns (raised: Option<Exc>)
    modifies response
    ensures response.Value() == Apply(FindEffect(args, driver), old(response.Value()))
    ensures raised == if FindEffect(args, driver).Raise? then Some(FindEffect(args, driver).exc) else None
  {
    raised := None;
    var strategy := Actions.ByTable(args.locateBy);
    if strategy.None? {
      raised := Some(KeyError);
      return;
    }
    var element := FindElement(driver, strategy.value, args.value);
    if element.None? {
      response.error := Some("no such element");
      return;
    }
    var attribute := GetAttribute(element.value, Actions.QueriedAttribute(args));
    if Truthy(attribute) {
      response.result := attribute;
    } else {
      response.error := Some("no such attribute for given element");
    }
  }

  /** The outcome a handler's effect gives on a fresh Response. */
  function OnFresh(e: Effect): (r: Outcome<Response>)
    ensures r.Raised? <==> e.Raise?
    ensures r.Returned? ==> r.value.OneOf()
    ensures e.Raise? ==> r == Raised(e.exc)
    ensures e.SetResult? ==> r == Returned(ResultResponse(e.value))
    ensures e.SetError? ==> r == Returned(ErrorResponse(e.message))
  {
    if e.Raise? then Raised(e.exc) else Returned(Apply(e, EmptyResponse))
  }

  /** Both `open_page` versions answer alike. */
  lemma OpenPageVersionsAgree(args: OpenPageArgs, driver: Driver)
    ensures OnFresh(OpenPageEffect(args, driver)) == Returned(Actions.OpenPage(args, driver))
  {
  }

  /** Both `find` versions answer alike, except for an attribute whose value
      is "": the newer version returns it as the result, this one reports
      the attribute as missing. */
  lemma FindVersionsDiffer(args: FindArgs, driver: Driver)
    ensures var empty := Actions.ByTable(args.locateBy).Some? &&
      FindElement(driver, Actions.ByTable(args.locateBy).value, args.value).Some? &&
      GetAttribute(FindElement(driver, Actions.ByTable(args.locateBy).value, args.value).value,
                   Actions.QueriedAttribute(args)) == Some("");
      && (!empty ==> OnFresh(FindEffect(args, driver)) == Actions.Find(args, driver))
      && (empty ==>
            && Actions.Find(args, driver) == Returned(ResultResponse(""))
            && OnFresh(FindEffect(args, driver)) == Returned(ErrorResponse("no such attribute for given element")))
  {
  }
}
