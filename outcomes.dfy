/** Optional values, the Python exceptions the proxy raises or catches, and
    the outcome of a Python call: it returns a value or raises. */
module Outcomes {

  datatype Option<+T> = None | Some(value: T)

  /** The exception classes that matter to the proxy's control flow. */
  datatype Exc =
    | KeyError             // a dictionary lookup on a missing key
    | TypeError            // a call or statement applied to a value of the wrong kind
    | AttributeError       // a message read through a field it does not have
    | MaxRetryError        // urllib3: the Selenium endpoint could not be reached
    | WebSocketDisconnect  // the client closed the WebSocket
    | DecodeError          // an inbound frame that could not be read or parsed

  datatype Outcome<+T> = Returned(value: T) | Raised(exc: Exc)
}
