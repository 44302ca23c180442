# selenium-proxy in Dafny

selenium-proxy is a WebSocket server that drives a remote Selenium browser
for its client. On each connection the client sends a `StartSession`
message (Selenium endpoint and browser kind). By design, the proxy opens
one Selenium session with it and then loops: receive a `Request`, dispatch
it to the action named by its populated `request` variant (`open_page` or
`find`), and send back a `Response` with either a `result` or an `error`.
The loop ends when the client disconnects or when anything else goes
wrong, and a `with` block releases the session on every exit from the loop.

The older version below behaves this way. The current version does not:
its `with` statement (`src/selenium_proxy/__main__.py:59`) is applied to
the pair that `start` returns, fails before the loop, and never releases
a session that `start` opened (see "## Findings"). The model states both
the code as written and the intended design.

The repository holds two versions of this logic, and the model keeps both:

- the current one, `src/selenium_proxy/actions.py` and
  `src/selenium_proxy/__main__.py`, modelled in modules `Actions` and
  `Main`. Its actions are pure: each builds and returns a fresh `Response`,
  and `start` returns a (driver or nothing, response) pair;
- the older one, `selenium_proxy/actions.py` and
  `selenium-proxy/__main__.py`, modelled in modules `LegacyActions` and
  `LegacyMain`. Its handlers assign one field of a `Response` object that
  the caller created. Its `dispatch` keeps the handler table as an
  attribute of the function object, built on the first call. These are a
  class `MutableResponse`, a class `Dispatcher` and methods with
  `modifies` clauses.

Shared modules:

- `Outcomes`: `Option`, the Python exceptions that steer control flow
  (`Exc`), and `Outcome` (a call returns a value or raises).
- `Protocol`: the protobuf messages as values. `Browser` and `By` carry an
  extra case for any enum number the proxy's tables do not list.
- `Selenium`: the browser backend as values. A `Grid` says which endpoints
  accept a session. A `Site` says what `get` resolves each url to (or that
  it raises) and what `find_element` finds. An `Element` says what
  `get_attribute` answers.
- `Handlers`: the three action functions (`start`, `open_page`, `find`)
  that both versions' reflection over the actions module finds.
- `Connection`: the receive/dispatch/send loop that both versions share.
  It is the recursive function `Serve`, parameterised by the dispatch
  function. Inbound events are `Msg(request)`, `Disconnect` and `Fault`.
  The `Session` class counts how often its `with` block quit it. Each
  proxy method opens its session itself and reports how many sessions it
  opened and how often the session was quit.

A connection is a finite sequence of inbound events. If the events run out
while the loop is still waiting in `receive`, the run ends as `Waiting`.
The session is then still open, because the `with` block has not been left.

## Model

| member | source | states |
|---|---|---|
| Actions.BrowserOptions | src/selenium_proxy/actions.py:15-18 | FIREFOX gives Firefox options and CHROME gives Chrome options; any other browser value has no entry. |
| Actions.ByTable | src/selenium_proxy/actions.py:42-48 | BY_TAG gives `"tag name"`, BY_ID `"id"`, BY_CLASS `"class name"`, BY_CSS `"css selector"` and BY_NAME `"name"`, each in both directions; any other By value has no entry. selenium_proxy/actions.py:39-45 holds the same table. |
| Actions.ByTableInjective | src/selenium_proxy/actions.py:42-48 | The five listed By values map to five pairwise-distinct strategies. |
| Actions.Start | src/selenium_proxy/actions.py:12-27 | An unlisted browser raises KeyError. Otherwise `start` returns a driver exactly when the endpoint is reachable. With a driver the response is `result="connected"`; without one it is `error="could not connect to selenium instance"`. The driver is absent exactly when the response is an error, and exactly one field is set. |
| Actions.OpenPage | src/selenium_proxy/actions.py:30-37 | Failed navigation gives `error="could not reach url"` and no result. Otherwise `result` is the current url after `get`, which need not be the requested url. Exactly one field is set. |
| Actions.QueriedAttribute | src/selenium_proxy/actions.py:61 | The attribute read is `args.attribute` when it is non-empty, else `"outerHTML"`. |
| Actions.Find | src/selenium_proxy/actions.py:40-73 | An unlisted By raises KeyError. No matching element gives `error="no such element"` whatever the element attributes are. Otherwise the error is `"no such attribute for given element"` exactly when `get_attribute` yields None, and any other value, `""` included, is the result. Every returned response sets exactly one field. |
| Handlers.Lookup | src/selenium_proxy/__main__.py:48 | Subscripting the handler table gives the entry for a known name and raises KeyError for any other name. |
| Main.ActionDict | src/selenium_proxy/__main__.py:30-34 | The table's keys are exactly `find` and `open_page`, every action function except `start`, and each entry is the function of that name. |
| Main.Dispatch | src/selenium_proxy/__main__.py:37-48 | An empty request gives `error="no request data"` and no handler runs. An `open_page` request returns `open_page`'s response for that payload and the same driver, and a `find` request returns `find`'s outcome, unchanged. |
| Main.TableCoversVariants | src/selenium_proxy/__main__.py:30-48 | Every request variant name has an entry, and that entry is the handler of the same name. `start` is never a dispatch target. |
| Main.DispatchRaisesOnlyKeyError | src/selenium_proxy/__main__.py:37-48 | Dispatch raises exactly for a `find` with an unlisted By, and then raises KeyError. Every other request is answered with exactly one field set. |
| Main.Bootstrap | src/selenium_proxy/__main__.py:56-59 | A session is opened exactly when the bootstrap message is read, its browser is listed and its endpoint is reachable, and the session is the driver for that endpoint and browser. An exception from `start` (KeyError for an unlisted browser) escapes the handler as that exception, and so does a failed read. |
| Main.ProxyAsWritten | src/selenium_proxy/__main__.py:59 | As written, the handler always leaves by an exception before the loop and sends nothing. When `start` returns, the exception is TypeError from the `with`; otherwise it is `start`'s exception or the failed read. A session that `start` opened is never quit. |
| Main.AsWrittenLeaksSession | src/selenium_proxy/__main__.py:59 | With a reachable endpoint, the as-written handler opens one session, closes none and ends with TypeError. |
| Main.Loop | src/selenium_proxy/__main__.py:62-70 | The receive/dispatch/send loop sends and ends exactly as `Serve` with the current dispatch. |
| Main.Proxy | src/selenium_proxy/__main__.py:52-70 | With the pair from `start` unpacked: when bootstrap opens no session, nothing is sent and no session is opened or quit. Otherwise exactly one session is opened on the bootstrap driver, the sent responses and the ending are those of `Serve`, and the session is quit exactly once when the loop ends, not before. |
| Main.ProxySendsDispatchResponses | src/selenium_proxy/__main__.py:63-66 | Each sent response is the dispatch response to the request at the same position, in arrival order. Nothing else, the bootstrap outcome included, is ever sent. |
| Main.ProxyAnswersUntilInterrupted | src/selenium_proxy/__main__.py:62-70 | Error responses do not end the loop. If no request is a `find` with an unlisted By, every request is answered until the first disconnect or fault, and the loop ends there as that event's `except` clause says. |
| Connection.Handle | src/selenium_proxy/__main__.py:67-70 | WebSocketDisconnect ends the loop silently. Any other exception ends it logged. |
| Connection.Serve | src/selenium_proxy/__main__.py:62-70 | The loop sends at most one response per event. It ends waiting, by a silent disconnect, or by a logged exception: nothing raised inside the loop escapes the handler. |
| Connection.ServeCharacterized | src/selenium_proxy/__main__.py:63-66 | The i-th sent response is the dispatch result of the i-th event, which is an answered request. The loop stops at the first event it cannot answer: a disconnect, a fault, or a raising dispatch. It ends with that event's exception handler, or keeps waiting when every event was answered. |
| Connection.ServeAppend | selenium-proxy/__main__.py:60-67 | Once the loop has ended, later events are never read. A loop still waiting carries on with the events that arrive next. |
| Connection.Session.constructor | src/selenium_proxy/__main__.py:59 | A session entered by the `with` block starts with zero closes on the given driver. |
| Connection.Session.Quit | src/selenium_proxy/__main__.py:59 | Leaving the `with` block quits the session once more. |
| LegacyActions.Apply | selenium_proxy/actions.py:30-32 | A handler's assignment changes the one field it names and leaves the other field alone. A raise leaves the response untouched. |
| LegacyActions.Start | selenium_proxy/actions.py:11-19 | An unlisted browser raises KeyError. An unreachable endpoint raises MaxRetryError to the caller, because nothing catches it. A driver is returned exactly when the browser is listed and the endpoint is reachable, and it is the driver for that endpoint and options. |
| LegacyActions.OpenPageEffect | selenium_proxy/actions.py:22-32 | Failed navigation assigns `error="could not reach url"`. Successful navigation assigns the current url after `get` to `result`. It never raises. |
| LegacyActions.OpenPage | selenium_proxy/actions.py:22-32 | Changes the caller's response object exactly as `OpenPageEffect` says and nothing else. |
| LegacyActions.FindEffect | selenium_proxy/actions.py:35-65 | An unlisted By raises KeyError. No element assigns `error="no such element"`. A truthy attribute value goes to `result`. None or `""` assigns `error="no such attribute for given element"`. A result is never empty. |
| LegacyActions.Find | selenium_proxy/actions.py:35-65 | Changes the caller's response object exactly as `FindEffect` says, nothing else, and reports the exception it lets escape. |
| LegacyActions.OnFresh | selenium-proxy/__main__.py:40-45 | On a fresh, empty response, an assignment to `result` or `error` is returned as the response holding just that field, and a raise is passed on as the same exception. |
| LegacyActions.OpenPageVersionsAgree | selenium_proxy/actions.py:22-32 | On a fresh response the older `open_page` gives the same response as the newer one. |
| LegacyActions.FindVersionsDiffer | selenium_proxy/actions.py:54-65 | On a fresh response the two `find` versions agree except when the attribute value is `""`. There the newer one returns `result=""` and the older one reports the attribute as missing. |
| LegacyMain.LegacyActionDict | selenium-proxy/__main__.py:33-36 | The table's keys are exactly `find`, `open_page` and `start`, every action function, and each entry is the function of that name. |
| LegacyMain.DispatchOutcome | selenium-proxy/__main__.py:29-45 | An empty request raises TypeError because there is no guard. A populated request gives what its handler does to a fresh, empty response: the filled-in response, or the handler's exception. |
| LegacyMain.Dispatcher.constructor | selenium-proxy/__main__.py:33 | Before the first call the function object has no table. |
| LegacyMain.Dispatcher.Dispatch | selenium-proxy/__main__.py:29-45 | The table is built on the first call, before the request is looked at, and later calls reuse it unchanged. Each call returns a freshly created response object whose contents are `DispatchOutcome`. |
| LegacyMain.LegacyBootstrap | selenium-proxy/__main__.py:53-56 | A session is opened exactly when the bootstrap message is read and `start` returns a driver. Every failure before the `with` block escapes the handler: the exception `start` raised, or the failed read itself. |
| LegacyMain.LegacyLoop | selenium-proxy/__main__.py:59-67 | The loop sends and ends exactly as `Serve` with the older dispatch. It keeps the shared table valid and never rebuilds it. |
| LegacyMain.LegacyProxy | selenium-proxy/__main__.py:48-67 | When bootstrap fails, nothing is sent and no session is opened or quit. Otherwise exactly one session is opened on the driver `start` returned, the sent responses and the ending are those of `Serve`, and the session is quit exactly once when the loop ends, not before. The shared table is never rebuilt. |
| LegacyMain.EmptyRequestContrast | selenium-proxy/__main__.py:38-39 | An empty request ends the older connection with a logged TypeError and nothing sent. The newer version answers it with `"no request data"` and goes on with the next event. |

## Findings

| source | as written | input that shows it | evidently intended | confidence | as-written member | corrected member |
|---|---|---|---|---|---|---|
| src/selenium_proxy/__main__.py:59 | `with actions.start(start_session) as driver:` uses the (driver, response) pair returned by `start` as a context manager. A tuple has no `__enter__`, so the statement raises TypeError (AttributeError before Python 3.11) after `Remote(...)` has opened the session. The session is never quit and no request is served. | bootstrap `StartSession("http://selenium:4444", BROWSER_FIREFOX)` with that endpoint reachable | unpack the pair and manage the driver with `with`; one session opened and quit once on every exit from the loop | high, not executed | Main.ProxyAsWritten, Main.AsWrittenLeaksSession | Main.Proxy |

`Main.Proxy` covers the case where `start` returns no driver. There the
corrected handler returns without entering the loop and sends nothing. The
code as written raises TypeError there too. Neither version sends the
bootstrap response.

## Left out

- The WebSocket transport, the FastAPI application and route, uvicorn and the environment configuration in `main` are I/O plumbing. Accepting the socket is not modelled.
- Protobuf encoding and decoding in `receive_proto` and `send_proto`, including the text-to-UTF-8 re-encoding, belong to a foreign library. Each inbound frame is an event: a decoded message, a disconnect, or a fault. Sending is assumed to succeed.
- The reused `Request` object is not modelled. Its refill by `ParseFromString` clears it first, so each `Msg` event carries one complete request.
- The protocol definition (`messages.proto`) is not part of this model. Enum numbers and any oneof grouping of the `Response` fields are unknown. The fields are modelled as independently set or unset. The claims that `Actions.Find` answers `""` as a result and that `LegacyActions.FindVersionsDiffer` distinguishes `result=""` from an error both rely on the `result` field having presence (a oneof member or an `optional` field). If `result` is a plain proto3 string, `result=""` serializes as an empty message and the client cannot tell it from an unset result.
- Selenium internals (`Remote`, `get`, `current_url`, `find_element`, `get_attribute`, `quit`) are foreign calls. They appear only as outcome values. What the browser sees is fixed for the whole session, so a navigation does not change later `find` results.
- Selenium failures other than the caught ones are not modelled. These include a WebDriverException from `find_element`, a failing `current_url` in a log call, a failing `quit`, and `Remote` failing otherwise than with MaxRetryError.
- Reflection with `getmembers`/`isfunction` is replaced by the explicit set of the three action functions that each actions module defines.
- Logging has no effect on behaviour. Only the distinction between a silent and a logged loop exit is kept.
- async/await and concurrent connections are not modelled. Each connection is an independent sequential run. The older shared table is passed to each run as one object.
- The intended protocol answers the bootstrap with "connected" or an error, and turns every unexpected backend fault into an error response. The code does neither. It never sends the bootstrap outcome, and a KeyError from an unlisted By ends the connection. The model follows the code.
