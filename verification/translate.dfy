/** Envelope translation between the two client wire formats and the
    extension agent's command/response format, and the fixed documents the
    CDP endpoint serves for discovery. */
module Translate {
  import opened Wrappers
  import opened Json
  import opened PyText

  /** The error text a client gets while no extension agent is connected. */
  const NotConnectedText := "Chrome extension not connected"
  /** The one JSON-RPC error code the bridge ever puts in a CDP error reply. */
  const CdpServerError := -32000
  /** The message text of a failed agent reply that carries no `error`. */
  const UnknownErrorText := "Unknown error"
  /** The event kinds that are also shown to CDP clients, as `Runtime.<kind>`. */
  const RuntimeEventKinds: seq<string> := ["console", "page_load", "navigation"]
  const WelcomeText := "BROP Bridge Server - Extension connected successfully"

  const EmptyObject := JObj([])

  /** The names of an object's members, in order. */
  function Keys(ms: seq<Member>): seq<string> {
    seq(|ms|, i requires 0 <= i < |ms| => ms[i].key)
  }

  /** `request.get("id")` of a client request or an agent reply. */
  function RequestId(ms: seq<Member>): Json {
    GetOr(ms, "id", JNull)
  }

  /** The CDP error envelope, `{id, error: {code: -32000, message}}`. */
  function CdpErrorReply(id: Json, message: string): (r: Json)
    ensures r.JObj? && Keys(r.members) == ["id", "error"]
    ensures Lookup(r.members, "id") == Some(id)
    ensures Lookup(r.members, "error") == Some(ErrorBody(message))
  {
    JObj([Member("id", id), Member("error", ErrorBody(message))])
  }

  function ErrorBody(message: string): Json {
    JObj([Member("code", JNum(CdpServerError)), Member("message", JStr(message))])
  }

  /** The BROP error envelope sent when no agent is connected. */
  function BropErrorReply(id: Json): (r: Json)
    ensures r.JObj? && Keys(r.members) == ["id", "success", "error"]
    ensures Lookup(r.members, "id") == Some(id)
    ensures Lookup(r.members, "success") == Some(JBool(false))
    ensures Lookup(r.members, "error") == Some(JStr(NotConnectedText))
  {
    var ms := [Member("id", id), Member("success", JBool(false)), Member("error", JStr(NotConnectedText))];
    LookupAt(ms, 2);
    JObj(ms)
  }

  /** A CDP request `{id, method, params}` as the agent's `cdp_command`;
      absent fields read as `null`, absent `params` as `{}`. */
  function CdpCommand(request: seq<Member>): (r: Json)
    ensures r.JObj? && Keys(r.members) == ["type", "id", "method", "params"]
    ensures Lookup(r.members, "type") == Some(JStr("cdp_command"))
    ensures Lookup(r.members, "id") == Some(RequestId(request))
    ensures Lookup(r.members, "method") == Some(GetOr(request, "method", JNull))
    ensures Lookup(r.members, "params") == Some(GetOr(request, "params", EmptyObject))
  {
    var id, name, params := RequestId(request), GetOr(request, "method", JNull), GetOr(request, "params", EmptyObject);
    CommandFields(id, name, params);
    JObj(CommandMembers(id, name, params))
  }

  function CommandMembers(id: Json, name: Json, params: Json): seq<Member> {
    [Member("type", JStr("cdp_command")), Member("id", id), Member("method", name), Member("params", params)]
  }

  lemma CommandFields(id: Json, name: Json, params: Json)
    ensures Keys(CommandMembers(id, name, params)) == ["type", "id", "method", "params"]
    ensures Lookup(CommandMembers(id, name, params), "type") == Some(JStr("cdp_command"))
    ensures Lookup(CommandMembers(id, name, params), "id") == Some(id)
    ensures Lookup(CommandMembers(id, name, params), "method") == Some(name)
    ensures Lookup(CommandMembers(id, name, params), "params") == Some(params)
  {
    LookupAt(CommandMembers(id, name, params), 2);
    LookupAt(CommandMembers(id, name, params), 3);
  }

  /** A BROP request as forwarded to the agent: the client's whole object
      with `id` and `type` overwritten or added, every other member kept. */
  function BropCommand(request: seq<Member>, id: Json): (r: Json)
    ensures r.JObj?
    ensures Lookup(r.members, "id") == Some(id)
    ensures Lookup(r.members, "type") == Some(JStr("brop_command"))
    ensures forall k :: k != "id" && k != "type" ==> Lookup(r.members, k) == Lookup(request, k)
    ensures |request| <= |r.members| <= |request| + 2
    ensures DistinctKeys(request) ==> DistinctKeys(r.members)
  {
    var withId := Store(request, "id", id);
    var ms := Store(withId, "type", JStr("brop_command"));
    StoreKeepsDistinctKeys(request, "id", id);
    StoreKeepsDistinctKeys(withId, "type", JStr("brop_command"));
    StoreGrowsByAtMostOne(request, "id", id);
    StoreGrowsByAtMostOne(withId, "type", JStr("brop_command"));
    StoreFrame(withId, "type", JStr("brop_command"), "id");
    StoresKeepOthers(request, id);
    JObj(ms)
  }

  /** Setting `id` and then `type` leaves every other key reading as before. */
  lemma StoresKeepOthers(request: seq<Member>, id: Json)
    ensures forall k :: k != "id" && k != "type" ==>
      Lookup(Store(Store(request, "id", id), "type", JStr("brop_command")), k) == Lookup(request, k)
  {
    forall k | k != "id" && k != "type"
      ensures Lookup(Store(Store(request, "id", id), "type", JStr("brop_command")), k) == Lookup(request, k)
    {
      StoreFrame(request, "id", id, k);
      StoreFrame(Store(request, "id", id), "type", JStr("brop_command"), k);
    }
  }

  /** Whether an agent reply reports success: `reply.get("success", False)`
      is truthy. */
  predicate AgentSucceeded(reply: seq<Member>) {
    Truthy(GetOr(reply, "success", JBool(false)))
  }

  /** An agent reply as the CDP reply for the same id: the result on
      success (default `{}`), otherwise the sentinel-code error whose message
      is `str(error)` (default "Unknown error"). */
  function ConvertToCdpResponse(reply: seq<Member>): (r: Json)
    ensures r.JObj? && |r.members| == 2 && DistinctKeys(r.members)
    ensures Lookup(r.members, "id") == Some(RequestId(reply))
    ensures Lookup(r.members, "result").Some? <==> AgentSucceeded(reply)
    ensures Lookup(r.members, "error").Some? <==> !AgentSucceeded(reply)
    ensures AgentSucceeded(reply) ==>
      Lookup(r.members, "result") == Some(GetOr(reply, "result", EmptyObject))
    ensures !AgentSucceeded(reply) ==>
      r == CdpErrorReply(RequestId(reply), Str(GetOr(reply, "error", JStr(UnknownErrorText))))
  {
    var id := RequestId(reply);
    if AgentSucceeded(reply) then
      var ms := [Member("id", id), Member("result", GetOr(reply, "result", EmptyObject))];
      LookupFindsFirst(ms, "error");
      JObj(ms)
    else
      var r := CdpErrorReply(id, Str(GetOr(reply, "error", JStr(UnknownErrorText))));
      LookupFindsFirst(r.members, "result");
      r
  }

  /** The CDP notification an agent event becomes, when its kind is one CDP
      clients are shown. */
  function RuntimeNotification(event: seq<Member>): (r: Option<Json>)
    ensures r.Some? <==> GetOr(event, "event_type", JNull) in [JStr("console"), JStr("page_load"), JStr("navigation")]
    ensures r.Some? ==>
      r.value.JObj? && Keys(r.value.members) == ["method", "params"] &&
      Lookup(r.value.members, "method") == Some(JStr("Runtime." + GetOr(event, "event_type", JNull).s)) &&
      Lookup(r.value.members, "params") == Some(GetOr(event, "params", EmptyObject))
  {
    var kind := GetOr(event, "event_type", JNull);
    if kind.JStr? && kind.s in RuntimeEventKinds then
      Some(JObj([Member("method", JStr("Runtime." + kind.s)), Member("params", GetOr(event, "params", EmptyObject))]))
    else
      None
  }

  /** The one-shot greeting to a newly connected agent; the clock reading is
      supplied by the caller. */
  function Welcome(timestamp: int): (r: Json)
    ensures r.JObj? && Keys(r.members) == ["type", "message", "timestamp"]
    ensures Lookup(r.members, "type") == Some(JStr("welcome"))
    ensures Lookup(r.members, "message") == Some(JStr(WelcomeText))
    ensures Lookup(r.members, "timestamp") == Some(JNum(timestamp))
  {
    var ms := [Member("type", JStr("welcome")), Member("message", JStr(WelcomeText)), Member("timestamp", JNum(timestamp))];
    LookupAt(ms, 2);
    JObj(ms)
  }

  /** The version document served on `/json/version`. */
  const BrowserInfo: Json := JObj([
    Member("Browser", JStr("Chrome/BROP-Extension")),
    Member("Protocol-Version", JStr("1.3")),
    Member("User-Agent", JStr("Mozilla/5.0 Chrome BROP Extension")),
    Member("V8-Version", JStr("12.0.0")),
    Member("WebKit-Version", JStr("537.36")),
    Member("webSocketDebuggerUrl", JStr("ws://localhost:9222/"))
  ])

  /** The target list served on `/json` and `/json/list`: one static page. */
  const BrowserTabs: Json := JArr([JObj(TabPage)])

  const TabPage := [
    Member("description", JStr("")),
    Member("devtoolsFrontendUrl", JStr("/devtools/inspector.html?ws=localhost:9222/page/1")),
    Member("id", JStr("1")),
    Member("title", JStr("BROP Extension Tab")),
    Member("type", JStr("page")),
    Member("url", JStr("about:blank")),
    Member("webSocketDebuggerUrl", JStr("ws://localhost:9222/page/1"))
  ]

  /** The document a CDP connection on `path` receives instead of a session,
      if `path` is a discovery path. */
  function DiscoveryDocument(path: string): (r: Option<Json>)
    ensures r.Some? <==> path in ["/json/version", "/json", "/json/list"]
    ensures path == "/json/version" ==> r == Some(BrowserInfo)
    ensures r.Some? && path != "/json/version" ==>
      r.value.JArr? && |r.value.items| == 1 && r.value.items[0].JObj? &&
      Lookup(r.value.items[0].members, "id") == Some(JStr("1")) &&
      Lookup(r.value.items[0].members, "type") == Some(JStr("page"))
  {
    if path == "/json/version" then Some(BrowserInfo)
    else if path == "/json" || path == "/json/list" then
      TabPageFields();
      Some(BrowserTabs)
    else None
  }

  lemma TabPageFields()
    ensures Lookup(TabPage, "id") == Some(JStr("1"))
    ensures Lookup(TabPage, "type") == Some(JStr("page"))
  {
    LookupAt(TabPage, 2);
    LookupAt(TabPage, 4);
  }
}
