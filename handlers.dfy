/** The action functions of an actions module, as `getmembers(actions,
    isfunction)` finds them. Both versions of the module define the same
    three; everything else they hold is an imported class or module. */
module Handlers {
  import opened Outcomes

  datatype Handler = StartAction | OpenPageAction | FindAction

  /** The Python name of each action function. */
  function FunctionName(h: Handler): string
  {
    match h
    case StartAction => "start"
    case OpenPageAction => "open_page"
    case FindAction => "find"
  }

  function ModuleFunctions(): set<Handler>
  {
    {StartAction, OpenPageAction, FindAction}
  }

  /** Subscripting a handler table: KeyError when the name has no entry. */
  function Lookup(table: map<string, Handler>, name: string): (r: Outcome<Handler>)
    ensures r.Returned? <==> name in table
    ensures r.Returned? ==> r.value == table[name]
    ensures r.Raised? ==> r.exc == KeyError
  {
    if name in table then Returned(table[name]) else Raised(KeyError)
  }
}
