# PlayGodot client core in Dafny

A verified model of the client side of PlayGodot, a Python library that drives a running
Godot game over a WebSocket for automated testing. Three pieces are modelled:

- **The JSON-RPC client** (`python/playgodot/client.py`), in `client.dfy`. A `Client` class keeps
  the request counter, the state of every response future it has created, and the set of ids in
  the pending-request table, and the state of the receive task. `send` is split after it writes
  the request, before it waits for the reply. `BeginSend` checks for a socket, issues the next id,
  builds the JSON-RPC 2.0 request, registers a pending future and writes the request. `EndSend`
  runs when the wait is over: it reads the future, cancels it on a timeout and removes the id from
  the table. Inbound replies arrive as decoded JSON. The pure function `Route` routes each reply
  by id, following Python's lookup rules. `HandleResponse` applies it while the receive task runs;
  an exception from the handler ends the receive task. `Disconnect` re-raises that exception if there was
  one. Otherwise it cancels every unfinished future still in the table, then empties the table.
- **Screenshot comparison** (`python/playgodot/screenshot.py`), in `screenshot.dfy`. Images arrive
  decoded to RGB grids. `Compare` runs the source's nested row and column loops. It is proved
  equal to `Score`, which is built on a recursive count of the differing pixels. The count is
  also proved equal to the size of the set of differing positions. `AssertMatches` turns two
  facts into pass, fail or missing-reference outcomes: whether the reference exists, and the
  score it gets.
- **The automation façade** (`python/playgodot/godot.py`), in `godot.dfy`. It covers the
  `_wait_for` polling loop and its node and visibility specialisations, `press_key` parsing, the
  launch command line and debug-port choice, the endpoint `connect` picks, click routing and the
  `get_node` not-found rule.

Support modules: `json.dfy` (decoded JSON values with Python truthiness and `==`),
`text.dfy` (`str.split`, `sep.join`, `str(int)` and their inverses), `wrappers.dfy`
(`Option`, `Result`).

Several things are supplied as parameters instead:

- Real time is a trace. A wait gets its start reading, plus one `Poll` per evaluation of the
  condition: what the condition returned or that it raised, and the clock reading taken
  after it. When the trace runs out before the wait ends, the result is `TraceEnded`.
- The outcome of `websockets.connect` is a parameter of `Client.Connect`.
- The result of the executable search is a parameter of `Executable`.
- The decoded images are parameters of `Compare`.
- Whether the reference file exists is a parameter of `AssertMatches`.

Four facts about the code shape the model:

- The similarity score is `1 - d/n`, where `d` counts the pixels with some channel differing by
  more than 5 and `n` is the number of pixels.
- Replies are matched to requests by their JSON-RPC `id`.
- When the peer closes the connection, the receive loop ends quietly (`Client.ConnectionLost`)
  and no future is touched, so each waiting `send` then ends by its own timeout unless
  `disconnect` cancels its future first. Apart from a timed-out wait, which cancels its own
  future (`Client.Client.EndSend`), pending futures are cancelled only by `Client.Disconnect`,
  and only when the receive task did not end with an exception.
- Images of different sizes are not an error. They score 0.

## Model

| member | source | states |
|---|---|---|
| `Client.Client.constructor` | python/playgodot/client.py:20-26 | a fresh client stores its host and port, has no socket, a zero counter, no futures and an empty table, so it is not connected |
| `Client.Client.Table` | python/playgodot/client.py:25 | the pending table holds exactly the registered ids that have futures |
| `Client.UrlRoundTrip` | python/playgodot/client.py:28-31 | host and port can be read back out of the URL `ws://host:port` for every host (IPv6 literals included, by splitting at the last colon) and every port |
| `Client.Client.Url` | python/playgodot/client.py:28-31 | the `url` property names exactly the client's host and port |
| `Client.Client.IsConnected` | python/playgodot/client.py:159-162 | a client is connected exactly when its socket is open: never without a connection object, and never once the peer has closed it |
| `Client.RequestObject` | python/playgodot/client.py:100-106 | the request dictionary has exactly the members `jsonrpc` ("2.0"), `id`, `method` and, only for truthy params, `params` holding them |
| `Client.DefaultUrl` | python/tests/test_client.py:10-18 | `Client("localhost", 9999)` has URL `ws://localhost:9999` and `Client("192.168.1.1", 8888)` has `ws://192.168.1.1:8888` |
| `Client.Client.Connect` | python/playgodot/client.py:33-51 | an accepted connection opens the socket and starts a running receive task; a refused or expired one raises ConnectionError and changes nothing; the counter and table are untouched |
| `Client.Client.ConnectionLost` | python/playgodot/client.py:126-134 | a peer close leaves the socket closed and ends a running receive task quietly; it does not touch any future or the table |
| `Client.Client.Disconnect` | python/playgodot/client.py:53-71 | if the receive task ended with a handler exception, that exception is raised again and nothing changes; otherwise the receive task and the socket are dropped, every unfinished future in the table is cancelled, finished ones and futures outside the table are unchanged, the table is empty and the counter is kept |
| `Client.FaultThenDisconnect` | python/playgodot/client.py:53-60 | after a message that is not an object, `disconnect` raises the handler's AttributeError, the socket stays open and the request sent before stays pending |
| `Client.Client.BeginSend` | python/playgodot/client.py:94-113 | without a socket it raises ConnectionError and changes nothing; otherwise the counter grows by exactly one, the new id exceeds every earlier one, and a pending future is created for it; on an open socket the id is registered and the request for that id is returned; on a closed socket the write raises and the id is unregistered |
| `Client.RequestIsJsonRpc` | python/playgodot/client.py:100-106 | every request is a JSON-RPC 2.0 request object: `jsonrpc` is "2.0", `id` and `method` are as given, there are no other members, and `params` is present exactly when the params are present and non-empty |
| `Client.EmptyParamsOmitted` | python/playgodot/client.py:105-106 | empty params and absent params build the same request, which has no `params` member |
| `Client.AwaitOutcome` | python/playgodot/client.py:114-117 | the wait returns only the result of a resolved future; a failed future raises CommandError with method "unknown" and its message and code; a still-pending future means TimeoutError; a future `disconnect` cancelled raises CancelledError, which the TimeoutError handler does not catch |
| `Client.Client.EndSend` | python/playgodot/client.py:112-119 | however the wait ends, its id leaves the table and no other entry changes; a future whose wait timed out is cancelled |
| `Client.KeyOf` | python/playgodot/client.py:138-143 | a reply id finds an integer key only when its Python numeric value (bools included) is that integer; any integral numeric value finds its key |
| `Client.Route` | python/playgodot/client.py:136-157 | a reply settles only a future that is in the table and still pending, and it settles that future to resolved or failed, never to cancelled |
| `Client.Client.HandleResponse` | python/playgodot/client.py:127-157 | only a running receive task handles messages; the future named by the routing is settled; every other future, the table, the socket and the counter are unchanged; a malformed message makes the handler raise, ends the receive task with that exception and touches no future |
| `Client.NotificationIgnored` | python/playgodot/client.py:138-141 | a reply with no `id`, or with id null, is ignored |
| `Client.LateReplyDropped` | python/playgodot/client.py:143-145 | a reply whose id is a natural number that is not in the table, or whose future is already done, is ignored, so a reply arriving after a timeout is dropped |
| `Client.UnmatchedReplyIgnored` | python/playgodot/client.py:143-145 | any reply whose hashable id equals, under Python's `==`, the id of no pending future is ignored, whether the id is a string, a negative, a fraction or a bool |
| `Client.FirstReplyWins` | python/playgodot/client.py:143-145 | once a reply has settled a future, no later reply settles it again |
| `Client.EchoedReplySettles` | python/playgodot/client.py:147-157 | a reply echoing a pending request's id fails it with the error's `message` (else "Unknown error") and `code` (else null) when it has `error`, and otherwise resolves it with `result` (else null) |
| `Client.MalformedErrorFaults` | python/playgodot/client.py:147-155 | an `error` member that is not an object makes the handler raise before the future is touched |
| `Screenshot.RowDiff` | python/playgodot/screenshot.py:89-93 | the count of differing pixels in a row prefix never exceeds the prefix length |
| `Screenshot.GridDiff` | python/playgodot/screenshot.py:82-93 | the count of differing pixels in the first `m` rows never exceeds `m * width` |
| `Screenshot.Compare` | python/playgodot/screenshot.py:74-96 | the nested loops compute `Score`: 0 for different sizes, a division by zero for an image with no pixels, else `1 - diff/total` |
| `Screenshot.DiffCountIsPositions` | python/playgodot/screenshot.py:82-93 | the accumulated count is exactly the number of positions where some channel differs by more than 5, all of them inside the grid |
| `Screenshot.SizeMismatchScoresZero` | python/playgodot/screenshot.py:74-75 | images of different sizes score exactly 0 |
| `Screenshot.ScoreInUnitInterval` | python/playgodot/screenshot.py:95 | a computed score lies in [0, 1] |
| `Screenshot.ScoreFailsOnlyWhenEmpty` | python/playgodot/screenshot.py:83-95 | scoring fails exactly for equal-sized images with no pixels, by a division by zero |
| `Screenshot.IdenticalScoresOne` | python/playgodot/screenshot.py:88-95 | an image scores exactly 1 against itself |
| `Screenshot.WithinToleranceScoresOne` | python/playgodot/screenshot.py:92 | images whose channels everywhere differ by at most 5 score exactly 1 |
| `Screenshot.AllDifferentScoresZero` | python/playgodot/screenshot.py:88-95 | images that differ at every pixel, such as black and white, score exactly 0 |
| `Screenshot.ScoreSymmetric` | python/playgodot/screenshot.py:92 | the score of `a` against `b` equals that of `b` against `a` |
| `Screenshot.SimilarityStrictlyDecreasing` | python/playgodot/screenshot.py:95 | more differing pixels out of the same total give a strictly lower score |
| `Screenshot.MoreDifferencesScoreLower` | python/playgodot/screenshot.py:88-95 | a candidate differing from the reference at strictly more positions scores strictly lower |
| `Screenshot.MoreDifferingPositionsScoreLower` | python/playgodot/screenshot.py:88-95 | a candidate differing from the reference wherever another does, and somewhere else too, scores strictly lower |
| `Screenshot.Verdict` | python/playgodot/screenshot.py:127-132 | a score passes exactly when it is at least the threshold (equality passes), and otherwise fails with that score and threshold; a scoring error propagates |
| `Screenshot.AssertMatches` | python/playgodot/screenshot.py:115-132 | a missing reference is captured when `update` is set and raises FileNotFoundError otherwise, without comparing; an existing one gets the verdict on its score |
| `Screenshot.IdenticalMatches` | python/playgodot/screenshot.py:127-132 | an unchanged screen matches its reference at every threshold up to 1 |
| `Screenshot.ResizedFails` | python/playgodot/screenshot.py:127-132 | a resized screen fails every positive threshold, with similarity 0 |
| `Screenshot.CaptureParams` | python/playgodot/screenshot.py:29-31 | the parameters hold a `node` member exactly when a non-empty node path is given, and nothing else |
| `Screenshot.CaptureRequest` | python/playgodot/screenshot.py:29-33 | the screenshot request carries `params` exactly when a non-empty node path is given |
| `Godot.WaitFor` | python/playgodot/godot.py:546-577 | the polling loop computes `WaitFrom` over the trace |
| `Godot.WaitOutcome` | python/playgodot/godot.py:557-575 | a value is returned only from an accepting evaluation, and it is that evaluation's result; TimeoutError, with the caller's message or the default, is raised only after a failed evaluation whose elapsed time reached the timeout; a CancelledError propagates only from an evaluation that raised it; every earlier evaluation failed (raising an `Exception` counts as failing) before the deadline |
| `Godot.WaitStopsAtFirstStop` | python/playgodot/godot.py:557-575 | conversely, the wait ends at the first evaluation that raises CancelledError, is accepted or is past the deadline |
| `Godot.TimeoutMessage` | python/playgodot/godot.py:573-575 | the TimeoutError carries the caller's message when it is non-empty, and otherwise the default text for the timeout |
| `Godot.FirstCheckBeforeDeadline` | python/playgodot/godot.py:555-572 | the condition is evaluated before any deadline test: an accepting first evaluation wins at any timeout, and, with a clock that does not run backwards, a timeout of 0 or less ends the wait after exactly one evaluation |
| `Godot.WaitForCondition` | python/playgodot/godot.py:508-528 | the public `wait_for` returns the first truthy result itself, raises the default timeout message, or passes on a CancelledError the condition raised |
| `Godot.GetNode` | python/playgodot/godot.py:249-252 | a null reply raises NodeNotFoundError for the path; any other reply yields a node for that path; send errors propagate |
| `Godot.GetProperty` | python/playgodot/godot.py:264-268 | the property value is the reply's `value` member (null if absent); a reply that is not an object raises |
| `Godot.NodeCheck` | python/playgodot/godot.py:457-458 | one evaluation returns the node exactly when the reply is not null, raises CancelledError exactly when the send was cancelled, and otherwise raises an `Exception` |
| `Godot.WaitForNode` | python/playgodot/godot.py:444-461 | the wait returns the node for the first non-null `get_node` reply, or ends with CancelledError at the first cancelled send; every earlier reply was null or another error; it times out with "Node '<path>' not found" |
| `Godot.CancelledSendEndsNodeWait` | python/playgodot/godot.py:557-569 | a cancelled first send ends `wait_for_node` after one evaluation, whatever later replies would say |
| `Godot.VisibleCheck` | python/playgodot/godot.py:471-476 | one evaluation returns exactly when the property read gives a dict, and then returns whether its `value` is truthy; a cancelled send raises CancelledError, which `except NodeNotFoundError` does not catch; every other error raises an `Exception` |
| `Godot.WaitForVisible` | python/playgodot/godot.py:463-483 | the wait ends on the first reply reporting a truthy `visible`, or with CancelledError at the first cancelled send, and no earlier reply did either; it times out with "Node '<path>' not visible" |
| `Json.EqualsTrue` | python/playgodot/godot.py:563-565 | with `expected=True`, only `True` and the number 1 compare equal |
| `Json.PyEqReflexive` | python/playgodot/godot.py:564 | Python `==` on decoded values is reflexive |
| `Json.PyEqSymmetric` | python/playgodot/godot.py:564 | Python `==` on decoded values is symmetric |
| `Godot.PressKey` | python/playgodot/godot.py:394-406 | with "+", the last part is the key and the earlier parts, in order, are the modifiers; neither contains "+"; joining them with "+" gives back the spec; without "+", the key is sent alone with no modifiers |
| `Godot.SplitHasTwoParts` | python/playgodot/godot.py:400-402 | a spec containing "+" always yields at least one modifier |
| `Text.Split` | python/playgodot/godot.py:401 | `str.split` never returns an empty list, and no part contains the separator |
| `Text.JoinSplit` | python/playgodot/godot.py:401 | joining the parts of a split with the separator gives back the original string |
| `Text.NatRoundTrip` | python/playgodot/client.py:31 | reading back the decimal text of a natural number gives that number |
| `Text.IntRoundTrip` | python/playgodot/client.py:31 | reading back `str(i)` gives `i` for every integer |
| `Godot.DebugPort` | python/playgodot/godot.py:104 | a native-protocol port of 9999 becomes 6007; any other port is kept; the result is never 9999 |
| `Godot.Executable` | python/playgodot/godot.py:90 | a non-empty `godot_path` is used; otherwise the search result, or FileNotFoundError when nothing is found |
| `Godot.ResolutionRoundTrip` | python/playgodot/godot.py:96-97 | the `--resolution` argument names exactly the requested width and height |
| `Godot.RemoteDebugRoundTrip` | python/playgodot/godot.py:103-105 | the `--remote-debug` argument names exactly the chosen port |
| `Godot.ParseFlagArgs` | python/playgodot/godot.py:93-105 | every combination of launch flags is read back from the argument list that sets it |
| `Godot.LaunchCommand` | python/playgodot/godot.py:89-108 | the command is `[exe, "--path", project]` followed, in order, by "--headless", "--resolution WxH", "--verbose" and "--remote-debug tcp://127.0.0.1:<debug port>", each present exactly when asked for; the returned port is the debug port for native and `port` otherwise |
| `Godot.ConnectEndpoint` | python/playgodot/godot.py:203-208 | `connect` keeps the host and uses the native debugger exactly when `native` is set, on the debug port; otherwise it uses the addon client on `port` |
| `Godot.LaunchEndpoint` | python/playgodot/godot.py:116-135 | `launch` starts a debug server on 127.0.0.1 and the debug port exactly when `native` is set, and otherwise uses the addon client on localhost and `port` |
| `Godot.LaunchAndConnectAgree` | python/playgodot/godot.py:203-206 | `launch` and `connect` choose the same port, and under the native protocol the engine is told to connect to the port the debug server listens on |
| `Godot.Click` | python/playgodot/godot.py:345-379 | a node path routes to a node click of the same kind, ignoring `y`; a coordinate without `y` raises ValueError with that method's message and sends nothing; a coordinate with `y` clicks at `(x, y)` |

## Left out

- The WebSocket transport is left out: `websockets.connect`, `ws.send`, `ws.close`, and JSON text encoding and decoding (`json.dumps`, `json.loads`, and skipping undecodable text). Inbound messages are decoded JSON values. The socket is `NoSocket`, `Open` or `Closed`, and the receive task is its state (`Receiver`).
- A second `connect` on a connected client replaces `_receive_task` without stopping the old task. The model keeps one receive task, so messages the orphaned task would still read from the old socket are not modelled.
- `Godot.disconnect`'s own steps are left out, including process termination, which a re-raised handler exception at `Client.disconnect` skips.
- asyncio futures, tasks, `wait_for`, `sleep` and all interleaving of concurrent coroutines are left out. A future is its state (`Slot`), and a `send` is two atomic halves with arbitrary other operations allowed in between.
- External cancellation of a waiting coroutine is left out. The CancelledError of a future that `disconnect` cancelled is modelled: it is `RequestCancelled`, and it ends the waits of `godot.py`.
- Exception message texts that interpolate floats (`{timeout}s`) are kept as their data (method and timeout), not rendered text.
- Process launching and connection retry are left out: `subprocess.Popen`, polling, terminate and kill, and the timed retry loop of `launch`. They are operating-system interaction. The `print` diagnostics are output only.
- `_find_godot`'s search of the PATH is left out. Its result is a parameter of `Executable`.
- `Path(project_path).resolve()` is left out. The project path is an opaque string.
- Base64 decoding, Pillow image opening and RGB conversion, and the file writes of `capture` and `assert_matches` (including `mkdir`) are left out. They are foreign libraries and file I/O. Images arrive decoded, and `compare`'s own capture, when no actual path is given, is the supplied current image.
- Screenshot.Compare: the score is exact real arithmetic, not IEEE double rounding.
- `compare`'s `threshold` parameter is left out. The source never reads it.
- `python/playgodot/input.py` is left out. Its methods forward their arguments to `send`. The model stops at the `InputCall` or `KeyPress` handed to it.
- Forwarding one-liners of `godot.py` that only call `send` and unwrap a member are left out: `set_property`, `call`, `node_exists`, `query_nodes`, `count_nodes`, scene and game-state commands, `wait_frames`, `wait_seconds`, and `drag` and the touch gestures.
- `wait_for_signal` is left out. It is a single `send` with float timeout scaling.
- `Godot.__init__`'s choice of input simulator and screenshot manager by client kind is left out, and so is the NotImplementedError of the screenshot methods under the native protocol.
- The native debugger client, its value codec, `Node` and the exception classes are not part of this model. Their source is not among the files modelled. A `Node` is taken to be always truthy and equal to no JSON value.
- Godot.WaitFor: a trace that runs out before the wait ends yields `TraceEnded`. The source would keep polling.
- Screenshot.AssertMatches: both of its screen captures always succeed in the model. The first is the capture that stores a missing reference. The second is the one `compare` takes when it is given no actual path; in the model it is the supplied `current` image. In the source, each `capture` can raise a send error from `send("screenshot")`, or a KeyError when the reply has no `data`.
