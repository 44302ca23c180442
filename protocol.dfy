/** The protocol messages (the generated `messages_pb2` module) as values.
    Enumerations keep a case for every number the enum field can carry
    that the proxy's tables do not list, since Python protobuf accepts such
    numbers and the tables then fail with KeyError. */
module Protocol {
  import opened Outcomes

  datatype Browser = BrowserFirefox | BrowserChrome | UnlistedBrowser(code: int)

  datatype By = ByTag | ById | ByClass | ByCss | ByName | UnlistedBy(code: int)

  /** The bootstrap message: Selenium endpoint and browser kind. */
  datatype StartSession = StartSession(url: string, browser: Browser)

  /** The OpenPage message. */
  datatype OpenPageArgs = OpenPageArgs(url: string)

  /** The Find message (its `by` field is `locateBy` here, `by` being a Dafny keyword); an unset `attribute` reads as "". */
  datatype FindArgs = FindArgs(locateBy: By, value: string, attribute: string)

  /** The fields of the `request` oneof. */
  datatype Variant = OpenPageField(openPage: OpenPageArgs) | FindField(find: FindArgs)

  /** A Request: its oneof holds at most one variant. */
  datatype Request = Request(request: Option<Variant>)

  /** What `WhichOneof("request")` answers for a populated oneof: the field name. */
  function VariantName(v: Variant): string
  {
    match v
    case OpenPageField(_) => "open_page"
    case FindField(_) => "find"
  }

  /** A Response with its two string fields, each set or unset. */
  datatype Response = Response(result: Option<string>, error: Option<string>)
  {
    /** Exactly one of `result` and `error` is set. */
    predicate OneOf()
    {
      result.Some? != error.Some?
    }
  }

  const EmptyResponse: Response := Response(None, None)

  function ResultResponse(s: string): Response
  {
    Response(Some(s), None)
  }

  function ErrorResponse(s: string): Response
  {
    Response(None, Some(s))
  }

  /** A Response object whose fields a caller assigns in place. */
  class MutableResponse {
    var result: Option<string>
    var error: Option<string>

    /** `messages_pb2.Response()`: both fields unset. */
    constructor ()
      ensures result == None && error == None
    {
      result := None;
      error := None;
    }

    /** The message this object currently holds. */
    function Value(): Response
      reads this
    {
      Response(result, error)
    }
  }
}
