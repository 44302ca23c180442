/** The action functions of src/selenium_proxy/actions.py. Each builds and
    returns a fresh Response; the browser is a Driver value. */
module Actions {
  import opened Outcomes
  import opened Protocol
  import opened Selenium

  /** The `browser_options` table of `start`. */
  function BrowserOptions(browser: Browser): (r: Option<Options>)
    ensures r == Some(FirefoxOptions) <==> browser == BrowserFirefox
    ensures r == Some(ChromeOptions) <==> browser == BrowserChrome
    ensures r.None? <==> browser.UnlistedBrowser?
  {
    match browser
    case BrowserFirefox => Some(FirefoxOptions)
    case BrowserChrome => Some(ChromeOptions)
    case UnlistedBrowser(_) => None
  }

  /** The `by_table` of `find`: the protocol's By values onto Selenium's
      locator strategies. */
  function ByTable(locateBy: By): (r: Option<string>)
    ensures r.None? <==> locateBy.UnlistedBy?
    ensures r.Some? ==> r.value in {TagName, Id, ClassName, CssSelector, Name}
    ensures r == Some(TagName) <==> locateBy == ByTag
    ensures r == Some(Id) <==> locateBy == ById
    ensures r == Some(ClassName) <==> locateBy == ByClass
    ensures r == Some(CssSelector) <==> locateBy == ByCss
    ensures r == Some(Name) <==> locateBy == ByName
  {
    match locateBy
    case ByTag => Some(TagName)
    case ById => Some(Id)
    case ByClass => Some(ClassName)
    case ByCss => Some(CssSelector)
    case ByName => Some(Name)
    case UnlistedBy(_) => None
  }

  /** The five listed By values go to five different strategies. */
  lemma ByTableInjective(a: By, b: By)
    requires ByTable(a).Some? && ByTable(a) == ByTable(b)
    ensures a == b
  {
  }

  /** `start`: the driver and "connected", or no driver and an error when
      the endpoint does not answer. An unlisted browser raises KeyError from
      `browser_options`, which the `except MaxRetryError` does not catch. */
  function Start(args: StartSession, grid: Grid): (r: Outcome<(Option<Driver>, Response)>)
    ensures r.Raised? <==> BrowserOptions(args.browser).None?
    ensures r.Raised? ==> r.exc == KeyError
    ensures r.Returned? ==> r.value.1.OneOf() && (r.value.0.None? <==> r.value.1.error.Some?)
    ensures r.Returned? ==> (r.value.0.Some? <==> args.url in grid.endpoints)
    ensures r.Returned? && r.value.0.Some? ==>
      r.value.1 == ResultResponse("connected")
      && r.value.0.value == Driver(args.url, BrowserOptions(args.browser).value, grid.site)
    ensures r.Returned? && r.value.0.None? ==>
      r.value.1 == ErrorResponse("could not connect to selenium instance")
  {
    match BrowserOptions(args.browser)
    case None => Raised(KeyError)
    case Some(options) =>
      match Remote(args.url, options, grid)
      case Returned(driver) => Returned((Some(driver), ResultResponse("connected")))
      case Raised(e) =>
        if e == MaxRetryError then Returned((None, ErrorResponse("could not connect to selenium instance")))
        else Raised(e)
  }

  /** `open_page`: the current url after navigating, or "could not reach url". */
  function OpenPage(args: OpenPageArgs, driver: Driver): (r: Response)
    ensures r.OneOf()
    ensures r.error.Some? <==> Get(driver, args.url).None?
    ensures r.error.Some? ==> r == ErrorResponse("could not reach url")
    ensures r.result.Some? ==> Get(driver, args.url) == r.result
  {
    match Get(driver, args.url)
    case None => ErrorResponse("could not reach url")
    case Some(currentUrl) => ResultResponse(currentUrl)
  }

  /** The attribute `find` reads: `args.attribute or "outerHTML"`. */
  function QueriedAttribute(args: FindArgs): (name: string)
    ensures name != ""
    ensures args.attribute != "" ==> name == args.attribute
    ensures args.attribute == "" ==> name == "outerHTML"
  {
    if args.attribute != "" then args.attribute else "outerHTML"
  }

  /** `find`: the attribute's value, "no such element" or "no such attribute
      for given element". Only None counts as a missing attribute; an empty
      value is a result. An unlisted By raises KeyError from `by_table`,
      which the `except NoSuchElementException` does not catch. */
  function Find(args: FindArgs, driver: Driver): (r: Outcome<Response>)
    ensures r.Raised? <==> ByTable(args.locateBy).None?
    ensures r.Raised? ==> r.exc == KeyError
    ensures r.Returned? ==> r.value.OneOf()
    ensures r.Returned? ==>
      (r.value == ErrorResponse("no such element") <==>
       FindElement(driver, ByTable(args.locateBy).value, args.value).None?)
    ensures r.Returned? && FindElement(driver, ByTable(args.locateBy).value, args.value).Some? ==>
      var value := GetAttribute(FindElement(driver, ByTable(args.locateBy).value, args.value).value, QueriedAttribute(args));
      && (r.value == ErrorResponse("no such attribute for given element") <==> value.None?)
      && (value.Some? ==> r.value == ResultResponse(value.value))
  {
    match ByTable(args.locateBy)
    case None => Raised(KeyError)
    case Some(strategy) =>
      match FindElement(driver, strategy, args.value)
      case None => Returned(ErrorResponse("no such element"))
      case Some(element) =>
        match GetAttribute(element, QueriedAttribute(args))
        case None => Returned(ErrorResponse("no such attribute for given element"))
        case Some(attribute) => Returned(ResultResponse(attribute))
  }
}
