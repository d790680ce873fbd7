# BROP bridge relay — a verified Dafny model

The BROP bridge sits between three kinds of peers: CDP clients (automation
drivers speaking a Chrome-DevTools-Protocol-shaped JSON format), BROP clients
(the bridge's own command/response format), and one Chrome extension agent,
the only peer that can act on the browser. The bridge never interprets a
command. It keeps a registry of connections, remembers which client is
waiting for which request id, reshapes envelopes between the formats, and
fans agent events out to the clients.

This project models the relay core of `bridge_server.py`, class
`BROPBridgeServer`, as a sequential state machine. asyncio runs each handler
without interruption between `await` points. So every inbound event (a
connection opening or closing, a client frame, an agent frame) is one pure
step. A step takes the routing state and returns the new state plus the list
of (recipient, message) sends it issues.

Modules, leaves first:

- `wrappers.dfy` — `Option`.
- `json.dfy` (`Json`) — decoded JSON values. Objects are ordered member
  sequences, as Python dicts are. `Lookup` is `dict.get` and `Store` is
  `d[k] = v`. `Truthy` is Python truthiness.
- `pytext.dfy` (`PyText`) — the text Python renders: decimal numbers for
  `f"bridge_{n}"`, and `str()`/`repr()` of a decoded value for the CDP error
  message.
- `translate.dfy` (`Translate`) — the envelopes: the CDP and BROP forwards,
  `convert_to_cdp_response`, the `Runtime.<kind>` notification, the two
  not-connected replies, the welcome and the discovery documents.
- `relay.dfy` (`Relay`) — the routing state (`RelayState`: agent slot, two
  client sets, two pending maps, message counter), `Init` (the state
  `__init__` builds), one step function per event, and `Apply`/`Run` for
  event sequences.
- `properties.dfy` (`Properties`) — properties that span several steps:
  request/reply correlation, the counter over a whole run, the agent slot,
  a bridge without an agent, and three worked request, reply and event
  examples.

Behaviour of the code that is easy to misread:

- A request id that is already pending is overwritten, not rejected
  (`Tracked` is `m[k] = conn`).
- A BROP request is forwarded as the client's whole object with `id` and
  `type` set. It is not re-wrapped as `{type, id, command}`.
- The generated BROP id is computed eagerly, so the counter advances even
  when the client supplied an id.
- Any agent handler that exits empties the slot, even when a newer agent has
  replaced it.
- A reply id pending on both sides is answered on the CDP side.
- Request ids are Python dict keys. `True` and `1` are the same key. A list
  or object id cannot be hashed, so the handler raises and its `except`
  swallows the error. With an agent present, such a request is neither
  tracked nor forwarded. An agent reply with such an id is dropped.
- A BROP frame whose `command` member is present but is not an object raises
  before the id is chosen. It is dropped and the counter does not move.
- A frame that does not decode, or decodes to something other than an
  object, is dropped on every endpoint.

## Model

| member | source | states |
|---|---|---|
| Json.LookupFindsFirst | bridge_server.py:176 | `dict.get(key)` finds a value exactly when some member has that key, and the value is the first such member's |
| Json.Store | bridge_server.py:263-264 | after `d[k] = v` a lookup of `k` gives `v`; an existing key leaves the length unchanged, a new key is appended at the end |
| Json.StoreFrame | bridge_server.py:263-264 | after `d[k] = v` every other key reads as before |
| Json.StoreKeepsPositions | bridge_server.py:263-264 | `d[k] = v` leaves every key in its position and every member under another key unchanged, so an existing key keeps its position |
| Json.StoreKeepsDistinctKeys | bridge_server.py:263-264 | assigning into a dict never creates a duplicate key |
| PyText.DecimalIsDigits | bridge_server.py:62 | the decimal rendering of the counter is a non-empty string of digits, with no leading zero unless the value is zero |
| PyText.DecimalRoundTrip | bridge_server.py:62 | reading the decimal rendering of `n` back as digits gives `n` |
| PyText.DecimalInjective | bridge_server.py:62 | two counter values render alike exactly when they are equal |
| PyText.IntTextRoundTrip | bridge_server.py:293 | `str()` of a numeric `error`, read back as a signed decimal, gives the number |
| PyText.StrOfNumberInjective | bridge_server.py:293 | two numeric `error` values give the same message exactly when they are equal |
| PyText.QuoteString | bridge_server.py:293 | the repr of a string inside a non-string `error` opens and closes with the same quote, a double quote exactly when the text holds a single quote and no double quote |
| PyText.QuoteStringRoundTrip | bridge_server.py:293 | the body of a string's repr, unescaped with the quote it opens with, gives back the string |
| PyText.QuoteStringInjective | bridge_server.py:293 | two strings have the same repr exactly when they are equal |
| Translate.CdpErrorReply | bridge_server.py:216-222 | the CDP error envelope has exactly the members `id` and `error`; the error carries code -32000 and the given message |
| Translate.BropErrorReply | bridge_server.py:254-258 | the BROP not-connected reply has exactly `id`, `success: false` and the not-connected text |
| Translate.CdpCommand | bridge_server.py:208-232 | the agent command has exactly `type: "cdp_command"`, the request's `id` and `method` (null when absent), and `params` (default `{}`) |
| Translate.BropCommand | bridge_server.py:262-264 | the forwarded BROP object has the chosen `id` and `type: "brop_command"`, and every other member of the client's object is unchanged; it is still a dict |
| Translate.ConvertToCdpResponse | bridge_server.py:275-295 | the reply keeps the agent's `id`; it holds `result` (default `{}`) exactly when `success` is truthy, otherwise exactly the -32000 error whose message is `str(error)` (default "Unknown error"); never both |
| Translate.RuntimeNotification | bridge_server.py:299-306 | an event becomes `{method: "Runtime.<kind>", params}` (default `{}`) exactly when its `event_type` is console, page_load or navigation |
| Translate.Welcome | bridge_server.py:114-118 | the greeting has exactly `type: "welcome"`, the fixed connected text and the supplied timestamp |
| Translate.DiscoveryDocument | bridge_server.py:137-143 | `/json/version` yields the browser-info document; `/json` and `/json/list` yield a one-target list whose target has id "1" and type "page"; every other path yields nothing |
| Relay.HashKey | bridge_server.py:235 | an id can key a pending map exactly when it is not a list or an object |
| Relay.HashKeyIsPythonEquality | bridge_server.py:183-189 | two hashable ids find the same pending entry exactly when Python's `==` holds them equal (so `true` matches `1`) |
| Relay.GeneratedIdInjective | bridge_server.py:59-62 | `bridge_<n>` ids of different counter values differ, and equal values give equal ids |
| Relay.Enumerate | bridge_server.py:317 | iterating a client set visits every member once and nothing else |
| Relay.Broadcast | bridge_server.py:312-328 | a broadcast sends the message once to each client of the set and to no one else; an empty set sends nothing |
| Relay.AgentConnected | bridge_server.py:107-118 | a connecting agent takes the slot, replacing any earlier one, and only it is greeted; client sets and pending maps are untouched |
| Relay.AgentDisconnected | bridge_server.py:127-128 | any agent handler exit empties the slot; client sets and pending maps are untouched and nothing is sent |
| Relay.CdpConnected | bridge_server.py:130-143 | a CDP connection joins the CDP set; a discovery path gets exactly its one document and serves no session, any other path gets nothing; pending maps are untouched |
| Relay.CdpDisconnected | bridge_server.py:153-154 | only the closing connection leaves the CDP set; pending maps are untouched |
| Relay.BropConnected | bridge_server.py:159-160 | a BROP connection joins the BROP set; nothing else changes |
| Relay.BropDisconnected | bridge_server.py:169-170 | only the closing connection leaves the BROP set; pending maps are untouched |
| Relay.CdpRequest | bridge_server.py:204-241 | with no agent, exactly one not-connected error goes to the sender under its id and the state is unchanged; with an agent, exactly one `cdp_command` goes to the agent and the id now routes to the sender, overwriting an earlier entry; the BROP map, the counter and the registry never change |
| Relay.BropRequestId | bridge_server.py:248 | a client-supplied `id` is used unchanged, whatever its value; otherwise the id is `bridge_<counter + 1>` |
| Relay.BropRequest | bridge_server.py:243-273 | a frame that reaches id selection advances the counter by exactly one; with no agent the sender gets the not-connected reply and nothing is tracked; with an agent the client's object goes to the agent with `id` and `type` set, and the id now routes to the sender |
| Relay.RouteResponse | bridge_server.py:178-191 | a reply id pending on the CDP side loses that entry alone and its client alone gets the CDP form; otherwise a BROP-pending id loses that entry and its client gets the agent's object unchanged; otherwise nothing changes and nothing is sent |
| Relay.NotifyCdp | bridge_server.py:301-307 | each CDP client gets the `Runtime.<kind>` notification once for an allowed kind; no CDP client gets anything otherwise |
| Relay.EventFanOut | bridge_server.py:297-310 | every BROP client always gets the original event; CDP clients get the notification only for an allowed kind; nothing else is sent |
| Relay.AgentMessage | bridge_server.py:172-202 | a `response` is routed, an `event` is fanned out without changing the state, and a `log`, any other type, or an undecodable or non-object frame sends nothing and changes nothing |
| Properties.CounterCountsIdSelections | bridge_server.py:247-248 | over any run the counter grows by exactly the number of BROP frames that reached id selection |
| Properties.GeneratedIdsDistinct | bridge_server.py:59-62 | within a run, two BROP frames are never offered the same generated id |
| Properties.CdpRoundTrip | bridge_server.py:183-186 | a forwarded CDP request answered by the very next event, under the same id, sends the reply to the requester alone and clears the id from the CDP map |
| Properties.CdpAnsweredAfterAnyEvents | bridge_server.py:178-241 | a forwarded CDP request, followed by any events that neither forward another CDP request under the same id key nor deliver a reply under it, is answered to the requester alone whenever the agent's reply for that id arrives, and the id leaves the CDP map |
| Properties.CdpRoundTripReply | bridge_server.py:275-295 | that reply is `{id, result}` for a successful agent reply and `{id, error}` with code -32000 otherwise |
| Properties.BropRoundTrip | bridge_server.py:188-191 | a forwarded BROP request answered by the very next event, under its id, sends the agent's object, unmodified, to the requester and clears the id |
| Properties.BropAnsweredAfterAnyEvents | bridge_server.py:183-270 | a forwarded BROP request whose id is not pending on the CDP side, followed by any events that forward no CDP or BROP request under that id key and deliver no reply under it, is answered with the agent's object, unmodified, whenever the reply arrives, and the id leaves the BROP map |
| Properties.SameIdPendsOnBothSides | bridge_server.py:235-267 | a CDP and a BROP request with the same id key leave one entry in each map |
| Properties.CdpTakesPrecedence | bridge_server.py:183-191 | a reply whose id is pending on both sides goes to the CDP requester and leaves the BROP entry in place |
| Properties.CdpOpenCloseRestores | bridge_server.py:134-154 | a CDP connection that opens and closes leaves the state as it was |
| Properties.BropOpenCloseRestores | bridge_server.py:160-170 | a BROP connection that opens and closes leaves the state as it was |
| Properties.StaleAgentExitClearsSlot | bridge_server.py:107-128 | after agents A then B connect and A exits, the slot is empty and a CDP request is answered with the not-connected error |
| Properties.WithoutAgentNothingIsTracked | bridge_server.py:214-224 | while no agent connects, no request ever enters either pending map and no entry is re-pointed: each map only loses entries |
| Properties.FreshBridgeTracksNothing | bridge_server.py:32-40 | a bridge as `__init__` builds it, which no agent joins, keeps both pending maps empty and the slot free |
| Properties.ExampleNoAgent | bridge_server.py:214-224 | `Browser.getVersion` with id 1 and no agent is answered with `{"id":1,"error":{"code":-32000,"message":"Chrome extension not connected"}}` |
| Properties.ExampleNavigate | bridge_server.py:178-186 | `Page.navigate` with id 5, answered successfully with `{"frameId":"f1"}`, reaches the client as `{"id":5,"result":{"frameId":"f1"}}` |
| Properties.ExampleConsoleEvent | bridge_server.py:297-310 | a console event with CDP clients 1 and 2 and BROP client 3 sends `Runtime.console` to 1 and 2 and the event itself to 3, and nothing else |

## Left out

- WebSocket serving, the accept loops and `start_servers` are left out. They are transport. A handler's life is modelled as an open event, its frames, and a close event.
- Send and receive failures are left out. A step returns the sends it issues, and those are computed without regard to delivery. So one recipient's failure cannot change what the others are sent, which is what `return_exceptions=True` guarantees.
- JSON text is left out. `json.loads` and `json.dumps` are not modelled. An undecodable frame is the distinct input `Unparseable`, and it has no effect.
- Floating-point JSON numbers are left out. Numbers are integers.
- The welcome's `time.time()` reading is a parameter of the agent-connect event, taken as an integer.
- Logging, shutdown, signal handling and `main` are left out, because they do not touch the routing state.
- Relay.EventFanOut: the source reads the BROP client set only after the CDP sends have completed, so a BROP client joining or leaving during that `await` changes who receives the event. The model reads both sets in the same step.
- Relay.CdpConnected: a discovery connection sits in the CDP set until its handler's `finally` runs, and the model leaves its removal to the separate close event. The rule that such a connection sends no frames is a property of the traces the transport produces, stated by `ServesSession`, and is not enforced by the step functions.
- Relay.Enumerate: Python iterates a set in an unspecified order, and the model uses ascending handle order. Every contract about broadcasts is order-independent.
- Json.Lookup: an object is a member sequence, which can repeat a key, and a lookup finds the first member with the key, while `json.loads` keeps the last. Frames with repeated keys are outside the model; every object the bridge itself builds has distinct keys.
- JSON strings holding a lone surrogate escape, such as `"\ud800"` in an `id` or a `method`, cannot be represented: `json.loads` accepts them, but a string here is a sequence of Unicode scalar values. The relay only compares and copies such strings, so no routing behaviour depends on them.
- PyText.Repr: for a non-string `error`, `str()` falls back to `repr()`. The model escapes the backslash, the quote in use, and newline, carriage return and tab. Python's `\x..`/`\u..` escapes for other non-printable characters are not modelled.
- A WebSocket object counts as truthy in `if not self.extension_client`, so an occupied slot always counts as an agent.
- The test scripts under `tests/` and the `tools/cdp_dump.py` proxy hook are left out. They are clients over the network, or file I/O around a one-line host rewrite.
