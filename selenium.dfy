/** The Selenium backend, reduced to the outcomes the proxy observes.
    A Grid is the world the proxy connects to: which endpoints accept a
    session and what its browser then sees. A Driver is one open session. */
module Selenium {
  import opened Outcomes

  /** The options classes `FirefoxOptions` and `ChromeOptions`. */
  datatype Options = FirefoxOptions | ChromeOptions

  /** Selenium's locator strategies (the `By` constants). */
  const TagName: string := "tag name"
  const Id: string := "id"
  const ClassName: string := "class name"
  const CssSelector: string := "css selector"
  const Name: string := "name"

  /** An element, by what `get_attribute` answers: a name that is not a key
      of `attributes` yields None. */
  datatype Element = Element(attributes: map<string, string>)

  /** What the browser sees: `pages[url]` is `current_url` after a successful
      `get(url)`, and a url that is not a key makes `get` raise
      WebDriverException; `elements[(strategy, value)]` is what
      `find_element` finds, and a missing key makes it raise
      NoSuchElementException. */
  datatype Site = Site(pages: map<string, string>, elements: map<(string, string), Element>)

  datatype Driver = Driver(endpoint: string, options: Options, site: Site)

  datatype Grid = Grid(endpoints: set<string>, site: Site)

  /** `Remote(command_executor, options)`: MaxRetryError when the endpoint
      does not answer. */
  function Remote(commandExecutor: string, options: Options, grid: Grid): Outcome<Driver>
  {
    if commandExecutor in grid.endpoints then Returned(Driver(commandExecutor, options, grid.site))
    else Raised(MaxRetryError)
  }

  /** `driver.get(url)` followed by `driver.current_url`; None when `get` raises. */
  function Get(driver: Driver, url: string): Option<string>
  {
    if url in driver.site.pages then Some(driver.site.pages[url]) else None
  }

  /** `driver.find_element(strategy, value)`; None when it raises NoSuchElementException. */
  function FindElement(driver: Driver, strategy: string, value: string): Option<Element>
  {
    if (strategy, value) in driver.site.elements then Some(driver.site.elements[(strategy, value)]) else None
  }

  /** `element.get_attribute(name)`. */
  function GetAttribute(element: Element, name: string): Option<string>
  {
    if name in element.attributes then Some(element.attributes[name]) else None
  }
}
