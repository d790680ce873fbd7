/** The routing state of the bridge and one pure step per inbound event.
    Each asyncio handler runs without interruption between `await` points, so
    every event is one atomic step: new state plus the messages it sends. */
module Relay {
  import opened Wrappers
  import opened Json
  import opened PyText
  import opened Translate

  /** An opaque handle of one WebSocket connection. */
  type Conn = nat

  /** A hashable request id as a Python dict key. Python's `True == 1` and
      `False == 0` make a boolean the same key as that integer. */
  datatype Key = KNull | KInt(i: int) | KStr(s: string)

  /** The routing state of `BROPBridgeServer`. */
  datatype RelayState = RelayState(
    agent: Option<Conn>,            // extension_client
    cdpClients: set<Conn>,
    bropClients: set<Conn>,
    pendingCdp: map<Key, Conn>,     // pending_cdp_requests
    pendingBrop: map<Key, Conn>,    // pending_brop_requests
    messageCounter: nat)

  /** One outbound message and its recipient. */
  datatype Send = Send(to: Conn, msg: Json)

  /** The outcome of handling one event. */
  datatype Step = Step(state: RelayState, sends: seq<Send>)

  /** One text frame as received: decoded, or rejected by `json.loads`. */
  datatype Inbound = Parsed(data: Json) | Unparseable

  /** The state right after construction. */
  function Init(): RelayState {
    RelayState(None, {}, {}, map[], map[], 0)
  }

  /** The dict key a decoded id becomes, or None when Python refuses to hash
      it (a list or a dict), which makes the handler raise and stop. */
  function HashKey(j: Json): (r: Option<Key>)
    ensures r.None? <==> j.JArr? || j.JObj?
  {
    match j
    case JNull => Some(KNull)
    case JBool(b) => Some(KInt(if b then 1 else 0))
    case JNum(n) => Some(KInt(n))
    case JStr(s) => Some(KStr(s))
    case _ => None
  }

  /** Python `==` between two hashable decoded values, written independently
      of `HashKey`: booleans compare as the integers 0 and 1. */
  predicate PyEquals(a: Json, b: Json) {
    match (a, b)
    case (JNull, JNull) => true
    case (JStr(x), JStr(y)) => x == y
    case _ => AsInt(a).Some? && AsInt(a) == AsInt(b)
  }

  function AsInt(j: Json): Option<int> {
    match j
    case JBool(b) => Some(if b then 1 else 0)
    case JNum(n) => Some(n)
    case _ => None
  }

  /** Two hashable ids find the same pending entry exactly when Python holds
      them equal. */
  lemma HashKeyIsPythonEquality(a: Json, b: Json)
    requires HashKey(a).Some? && HashKey(b).Some?
    ensures HashKey(a) == HashKey(b) <==> PyEquals(a, b)
  {
  }

  /** The id `get_next_message_id` returns once the counter has reached `n`. */
  function GeneratedId(n: nat): string {
    "bridge_" + Decimal(n)
  }

  /** Generated ids differ whenever their counter values differ. */
  lemma GeneratedIdInjective(a: nat, b: nat)
    ensures GeneratedId(a) == GeneratedId(b) <==> a == b
  {
    if GeneratedId(a) == GeneratedId(b) {
      assert GeneratedId(a)[7..] == Decimal(a);
      assert GeneratedId(b)[7..] == Decimal(b);
      DecimalInjective(a, b);
    }
  }

  // ---------------------------------------------------------------- broadcast

  predicate IsMin(m: nat, s: set<nat>) {
    m in s && forall x :: x in s ==> m <= x
  }

  lemma MinExists(s: set<nat>)
    requires s != {}
    ensures exists m :: IsMin(m, s)
    decreases |s|
  {
    var y :| y in s;
    var rest := s - {y};
    if rest == {} {
      forall x | x in s
        ensures y <= x
      {
        assert x !in rest;
      }
      assert IsMin(y, s);
    } else {
      MinExists(rest);
      var m :| IsMin(m, rest);
      var least := if y < m then y else m;
      forall x | x in s
        ensures least <= x
      {
        if x != y {
          assert x in rest;
        }
      }
      assert IsMin(least, s);
    }
  }

  function MinOf(s: set<nat>): (m: nat)
    requires s != {}
    ensures IsMin(m, s)
  {
    MinExists(s);
    var m :| IsMin(m, s);
    m
  }

  /** The members of a set of handles, each once, in ascending order. Python
      iterates a set in an unspecified order; every property below is
      independent of the order chosen here. */
  function Enumerate(s: set<nat>): (r: seq<nat>)
    ensures |r| == |s|
    ensures forall x :: x in s <==> x in r
    ensures forall i, j :: 0 <= i < j < |r| ==> r[i] < r[j]
    decreases |s|
  {
    if s == {} then []
    else
      var m := MinOf(s);
      var rest := Enumerate(s - {m});
      PrependMin(m, s, rest);
      [m] + rest
  }

  /** Putting the least member in front of the ascending enumeration of the
      others enumerates the whole set in ascending order. */
  lemma PrependMin(m: nat, s: set<nat>, rest: seq<nat>)
    requires IsMin(m, s)
    requires forall x :: x in s - {m} <==> x in rest
    requires forall i, j :: 0 <= i < j < |rest| ==> rest[i] < rest[j]
    ensures forall x :: x in s <==> x in [m] + rest
    ensures forall i, j :: 0 <= i < j < |[m] + rest| ==> ([m] + rest)[i] < ([m] + rest)[j]
  {
    var r := [m] + rest;
    forall i | 0 <= i < |rest|
      ensures m < rest[i]
    {
      assert rest[i] in s - {m};
    }
    forall i, j | 0 <= i < j < |r|
      ensures r[i] < r[j]
    {
      if i == 0 {
        assert r[j] == rest[j - 1];
      } else {
        assert r[i] == rest[i - 1] && r[j] == rest[j - 1];
      }
    }
    forall x
      ensures x in s <==> x in r
    {
      if x in s && x != m {
        assert x in rest;
      }
    }
  }

  /** One send of `m` to each member of `clients`, as the `asyncio.gather`
      over the client set issues them. */
  function Broadcast(clients: set<Conn>, m: Json): (r: seq<Send>)
    ensures |r| == |clients|
    ensures forall i :: 0 <= i < |r| ==> r[i].to in clients && r[i].msg == m
    ensures forall c :: c in clients ==> Send(c, m) in r
    ensures forall i, j :: 0 <= i < j < |r| ==> r[i].to != r[j].to
  {
    var order := Enumerate(clients);
    var r := Addressed(order, m);
    AddressedCovers(order, clients, m);
    AddressedDistinct(order, m);
    r
  }

  /** One send of `m` to each handle of `order`, in that order. */
  function Addressed(order: seq<Conn>, m: Json): seq<Send> {
    seq(|order|, i requires 0 <= i < |order| => Send(order[i], m))
  }

  lemma AddressedCovers(order: seq<Conn>, clients: set<Conn>, m: Json)
    requires forall x :: x in clients <==> x in order
    ensures forall i :: 0 <= i < |order| ==> Addressed(order, m)[i].to in clients && Addressed(order, m)[i].msg == m
    ensures forall c :: c in clients ==> Send(c, m) in Addressed(order, m)
  {
    var r := Addressed(order, m);
    forall c | c in clients
      ensures Send(c, m) in r
    {
      var i :| 0 <= i < |order| && order[i] == c;
      assert r[i] == Send(c, m);
    }
  }

  lemma AddressedDistinct(order: seq<Conn>, m: Json)
    requires forall i, j :: 0 <= i < j < |order| ==> order[i] < order[j]
    ensures forall i, j :: 0 <= i < j < |order| ==> Addressed(order, m)[i].to != Addressed(order, m)[j].to
  {
  }

  // ------------------------------------------------------- registry events

  /** Neither pending map nor the counter differs. */
  predicate RoutesUnchanged(a: RelayState, b: RelayState) {
    a.pendingCdp == b.pendingCdp && a.pendingBrop == b.pendingBrop && a.messageCounter == b.messageCounter
  }

  /** An agent connects: it takes the slot, replacing any earlier agent, and
      is greeted. */
  function AgentConnected(s: RelayState, conn: Conn, timestamp: int): (r: Step)
    ensures r.state.agent == Some(conn)
    ensures r.state.cdpClients == s.cdpClients && r.state.bropClients == s.bropClients
    ensures RoutesUnchanged(s, r.state)
    ensures r.sends == [Send(conn, Welcome(timestamp))]
  {
    Step(s.(agent := Some(conn)), [Send(conn, Welcome(timestamp))])
  }

  /** An agent handler exits: the slot is emptied whichever connection holds
      it, even a newer agent than the one leaving. */
  function AgentDisconnected(s: RelayState, conn: Conn): (r: Step)
    ensures r.state.agent.None?
    ensures r.state.cdpClients == s.cdpClients && r.state.bropClients == s.bropClients
    ensures RoutesUnchanged(s, r.state)
    ensures r.sends == []
  {
    Step(s.(agent := None), [])
  }

  /** A CDP connection opens on `path`. It joins the CDP client set before the
      path is examined; a discovery path is answered with its document, and
      the handler then returns without reading a message. */
  function CdpConnected(s: RelayState, conn: Conn, path: string): (r: Step)
    ensures r.state.cdpClients == s.cdpClients + {conn}
    ensures r.state.agent == s.agent && r.state.bropClients == s.bropClients
    ensures RoutesUnchanged(s, r.state)
    ensures path == "/json/version" ==> r.sends == [Send(conn, BrowserInfo)]
    ensures path == "/json" || path == "/json/list" ==> r.sends == [Send(conn, BrowserTabs)]
    ensures !ServesSession(path) <==> |r.sends| == 1
    ensures ServesSession(path) <==> r.sends == []
  {
    var sends := match DiscoveryDocument(path)
      case Some(doc) => [Send(conn, doc)]
      case None => [];
    Step(s.(cdpClients := s.cdpClients + {conn}), sends)
  }

  /** Whether a CDP connection on `path` goes on to read request messages. */
  predicate ServesSession(path: string) {
    DiscoveryDocument(path).None?
  }

  /** A CDP handler exits: only that connection leaves the CDP client set. */
  function CdpDisconnected(s: RelayState, conn: Conn): (r: Step)
    ensures r.state.cdpClients == s.cdpClients - {conn}
    ensures r.state.agent == s.agent && r.state.bropClients == s.bropClients
    ensures RoutesUnchanged(s, r.state)
    ensures r.sends == []
  {
    Step(s.(cdpClients := s.cdpClients - {conn}), [])
  }

  /** A BROP connection opens and joins the BROP client set. */
  function BropConnected(s: RelayState, conn: Conn): (r: Step)
    ensures r.state.bropClients == s.bropClients + {conn}
    ensures r.state.agent == s.agent && r.state.cdpClients == s.cdpClients
    ensures RoutesUnchanged(s, r.state)
    ensures r.sends == []
  {
    Step(s.(bropClients := s.bropClients + {conn}), [])
  }

  /** A BROP handler exits: only that connection leaves the BROP client set. */
  function BropDisconnected(s: RelayState, conn: Conn): (r: Step)
    ensures r.state.bropClients == s.bropClients - {conn}
    ensures r.state.agent == s.agent && r.state.cdpClients == s.cdpClients
    ensures RoutesUnchanged(s, r.state)
    ensures r.sends == []
  {
    Step(s.(bropClients := s.bropClients - {conn}), [])
  }

  // ------------------------------------------------------- client requests

  /** The pending map `m` after `m[k] = conn`: `k` now routes to `conn`, an
      earlier entry for `k` is overwritten, every other entry is kept. */
  predicate Tracked(before: map<Key, Conn>, after: map<Key, Conn>, k: Key, conn: Conn) {
    && after.Keys == before.Keys + {k}
    && after[k] == conn
    && forall k' :: k' in before && k' != k ==> after[k'] == before[k']
  }

  lemma UpdateIsTracked(before: map<Key, Conn>, k: Key, conn: Conn)
    ensures Tracked(before, before[k := conn], k, conn)
  {
  }

  /** A CDP request frame from `conn`. Without an agent the sender alone gets
      the not-connected error; with one, the translated command goes to the
      agent and the id is tracked for the reply. */
  function CdpRequest(s: RelayState, conn: Conn, input: Inbound): (r: Step)
    ensures r.state == s.(pendingCdp := r.state.pendingCdp)
    ensures |r.sends| <= 1
    ensures !(input.Parsed? && input.data.JObj?) ==> r == Step(s, [])
    ensures input.Parsed? && input.data.JObj? && s.agent.None? ==>
      r.state == s &&
      r.sends == [Send(conn, CdpErrorReply(RequestId(input.data.members), NotConnectedText))]
    ensures input.Parsed? && input.data.JObj? && s.agent.Some? ==>
      match HashKey(RequestId(input.data.members))
      case None => r == Step(s, [])
      case Some(k) =>
        && Tracked(s.pendingCdp, r.state.pendingCdp, k, conn)
        && r.sends == [Send(s.agent.value, CdpCommand(input.data.members))]
  {
    if !(input.Parsed? && input.data.JObj?) then Step(s, [])
    else
      var request := input.data.members;
      var id := RequestId(request);
      match s.agent
      case None => Step(s, [Send(conn, CdpErrorReply(id, NotConnectedText))])
      case Some(agent) =>
        match HashKey(id)
        case None => Step(s, [])
        case Some(k) =>
          UpdateIsTracked(s.pendingCdp, k, conn);
          Step(s.(pendingCdp := s.pendingCdp[k := conn]), [Send(agent, CdpCommand(request))])
  }

  /** Whether a BROP frame gets as far as choosing its id: it decodes to an
      object whose `command`, if present, is itself an object. Otherwise the
      handler raises before the id is chosen. */
  predicate ReachesIdSelection(input: Inbound) {
    input.Parsed? && input.data.JObj? && GetOr(input.data.members, "command", EmptyObject).JObj?
  }

  /** The id a BROP request travels under: the client's own `id` member if it
      has one, whatever its value, else the generated id for counter `n`. */
  function BropRequestId(request: seq<Member>, n: nat): (id: Json)
    ensures Lookup(request, "id").Some? ==> id == Lookup(request, "id").value
    ensures Lookup(request, "id").None? ==> id == JStr(GeneratedId(n))
  {
    GetOr(request, "id", JStr(GeneratedId(n)))
  }

  /** A BROP request frame from `conn`. The counter advances as soon as the
      id is chosen, whether or not the client supplied one. Without an agent
      the sender gets the not-connected error; with one, the client's object
      goes to the agent and the id is tracked for the reply. */
  function BropRequest(s: RelayState, conn: Conn, input: Inbound): (r: Step)
    ensures r.state == s.(pendingBrop := r.state.pendingBrop, messageCounter := r.state.messageCounter)
    ensures |r.sends| <= 1
    ensures !ReachesIdSelection(input) ==> r == Step(s, [])
    ensures ReachesIdSelection(input) ==> r.state.messageCounter == s.messageCounter + 1
    ensures ReachesIdSelection(input) && s.agent.None? ==>
      r.state.pendingBrop == s.pendingBrop &&
      r.sends == [Send(conn, BropErrorReply(BropRequestId(input.data.members, s.messageCounter + 1)))]
    ensures ReachesIdSelection(input) && s.agent.Some? ==>
      var id := BropRequestId(input.data.members, s.messageCounter + 1);
      match HashKey(id)
      case None => r.state.pendingBrop == s.pendingBrop && r.sends == []
      case Some(k) =>
        && Tracked(s.pendingBrop, r.state.pendingBrop, k, conn)
        && r.sends == [Send(s.agent.value, BropCommand(input.data.members, id))]
  {
    if !ReachesIdSelection(input) then Step(s, [])
    else
      var request := input.data.members;
      var counted := s.(messageCounter := s.messageCounter + 1);
      var id := BropRequestId(request, counted.messageCounter);
      match s.agent
      case None => Step(counted, [Send(conn, BropErrorReply(id))])
      case Some(agent) =>
        match HashKey(id)
        case None => Step(counted, [])
        case Some(k) =>
          UpdateIsTracked(s.pendingBrop, k, conn);
          Step(counted.(pendingBrop := s.pendingBrop[k := conn]), [Send(agent, BropCommand(request, id))])
  }

  // ------------------------------------------------------- agent messages

  /** An agent reply: a CDP-tracked id is answered first, in CDP form, and its
      entry alone removed; otherwise a BROP-tracked id gets the agent's object
      unchanged; an untracked or unhashable id changes nothing. */
  function RouteResponse(s: RelayState, reply: seq<Member>): (r: Step)
    ensures r.state == s.(pendingCdp := r.state.pendingCdp, pendingBrop := r.state.pendingBrop)
    ensures HashKey(RequestId(reply)).None? ==> r == Step(s, [])
    ensures HashKey(RequestId(reply)).Some? ==>
      var k := HashKey(RequestId(reply)).value;
      && (k in s.pendingCdp ==>
            && r.state.pendingCdp == s.pendingCdp - {k}
            && r.state.pendingBrop == s.pendingBrop
            && r.sends == [Send(s.pendingCdp[k], ConvertToCdpResponse(reply))])
      && (k !in s.pendingCdp && k in s.pendingBrop ==>
            && r.state.pendingCdp == s.pendingCdp
            && r.state.pendingBrop == s.pendingBrop - {k}
            && r.sends == [Send(s.pendingBrop[k], JObj(reply))])
      && (k !in s.pendingCdp && k !in s.pendingBrop ==> r == Step(s, []))
  {
    match HashKey(RequestId(reply))
    case None => Step(s, [])
    case Some(k) =>
      if k in s.pendingCdp then
        Step(s.(pendingCdp := s.pendingCdp - {k}), [Send(s.pendingCdp[k], ConvertToCdpResponse(reply))])
      else if k in s.pendingBrop then
        Step(s.(pendingBrop := s.pendingBrop - {k}), [Send(s.pendingBrop[k], JObj(reply))])
      else
        Step(s, [])
  }

  /** The fan-out of an agent event: the `Runtime.<kind>` notification to each
      CDP client when the kind is one CDP clients are shown, then the event
      object itself to each BROP client. */
  function EventFanOut(s: RelayState, event: seq<Member>): (r: seq<Send>)
    ensures forall i :: 0 <= i < |r| ==>
      || (r[i].to in s.bropClients && r[i].msg == JObj(event))
      || (r[i].to in s.cdpClients && RuntimeNotification(event) == Some(r[i].msg))
    ensures forall c :: c in s.bropClients ==> Send(c, JObj(event)) in r
    ensures RuntimeNotification(event).Some? ==>
      && |r| == |s.cdpClients| + |s.bropClients|
      && forall c :: c in s.cdpClients ==> Send(c, RuntimeNotification(event).value) in r
    ensures RuntimeNotification(event).None? ==> |r| == |s.bropClients|
  {
    var toCdp := NotifyCdp(s.cdpClients, event);
    var toBrop := Broadcast(s.bropClients, JObj(event));
    var r := toCdp + toBrop;
    forall i | 0 <= i < |r|
      ensures || (r[i].to in s.bropClients && r[i].msg == JObj(event))
              || (r[i].to in s.cdpClients && RuntimeNotification(event) == Some(r[i].msg))
    {
      if i < |toCdp| {
        assert r[i] == toCdp[i];
      } else {
        assert r[i] == toBrop[i - |toCdp|];
      }
    }
    forall c | c in s.bropClients
      ensures Send(c, JObj(event)) in r
    {
      assert Send(c, JObj(event)) in toBrop;
    }
    forall c | c in s.cdpClients && RuntimeNotification(event).Some?
      ensures Send(c, RuntimeNotification(event).value) in r
    {
      assert Send(c, RuntimeNotification(event).value) in toCdp;
    }
    r
  }

  /** The CDP half of an event's fan-out. */
  function NotifyCdp(clients: set<Conn>, event: seq<Member>): (r: seq<Send>)
    ensures forall i :: 0 <= i < |r| ==> r[i].to in clients && RuntimeNotification(event) == Some(r[i].msg)
    ensures RuntimeNotification(event).None? ==> r == []
    ensures RuntimeNotification(event).Some? ==>
      |r| == |clients| && forall c :: c in clients ==> Send(c, RuntimeNotification(event).value) in r
  {
    match RuntimeNotification(event)
    case Some(n) => Broadcast(clients, n)
    case None => []
  }

  /** One frame from an extension agent, classified by its `type` member:
      `response` is routed, `event` is fanned out, anything else (a `log`, an
      unknown type, an undecodable or non-object frame) sends nothing. */
  function AgentMessage(s: RelayState, input: Inbound): (r: Step)
    ensures !(input.Parsed? && input.data.JObj?) ==> r == Step(s, [])
    ensures input.Parsed? && input.data.JObj? ==>
      var kind := GetOr(input.data.members, "type", JNull);
      && (kind == JStr("response") ==> r == RouteResponse(s, input.data.members))
      && (kind == JStr("event") ==> r == Step(s, EventFanOut(s, input.data.members)))
      && (kind != JStr("response") && kind != JStr("event") ==> r == Step(s, []))
  {
    if !(input.Parsed? && input.data.JObj?) then Step(s, [])
    else
      var data := input.data.members;
      var kind := GetOr(data, "type", JNull);
      if kind == JStr("response") then RouteResponse(s, data)
      else if kind == JStr("event") then Step(s, EventFanOut(s, data))
      else Step(s, [])
  }

  // ------------------------------------------------------- the event loop

  /** Everything that can happen to the bridge between two `await` points. */
  datatype Event =
    | AgentOpen(conn: Conn, timestamp: int)
    | AgentClose(conn: Conn)
    | CdpOpen(conn: Conn, path: string)
    | CdpClose(conn: Conn)
    | BropOpen(conn: Conn)
    | BropClose(conn: Conn)
    | CdpFrame(conn: Conn, input: Inbound)
    | BropFrame(conn: Conn, input: Inbound)
    | AgentFrame(input: Inbound)

  function Apply(s: RelayState, e: Event): Step {
    match e
    case AgentOpen(c, t) => AgentConnected(s, c, t)
    case AgentClose(c) => AgentDisconnected(s, c)
    case CdpOpen(c, path) => CdpConnected(s, c, path)
    case CdpClose(c) => CdpDisconnected(s, c)
    case BropOpen(c) => BropConnected(s, c)
    case BropClose(c) => BropDisconnected(s, c)
    case CdpFrame(c, input) => CdpRequest(s, c, input)
    case BropFrame(c, input) => BropRequest(s, c, input)
    case AgentFrame(input) => AgentMessage(s, input)
  }

  /** The events handled one after another: the final state and every message
      sent, in order. */
  function Run(s: RelayState, es: seq<Event>): Step
    decreases |es|
  {
    if |es| == 0 then Step(s, [])
    else
      var first := Apply(s, es[0]);
      var rest := Run(first.state, es[1..]);
      Step(rest.state, first.sends + rest.sends)
  }
}
