/** Properties of the relay that relate several events: request/reply
    correlation, the id counter over a whole run, the agent slot, and what a
    bridge without an agent can and cannot do. */
module Properties {
  import opened Wrappers
  import opened Json
  import opened PyText
  import opened Translate
  import opened Relay

  // ------------------------------------------------------- id generation

  /** The frame reaches id selection in the BROP handler. */
  predicate SelectsId(e: Event) {
    e.BropFrame? && ReachesIdSelection(e.input)
  }

  /** How many events of `es` choose a BROP id. */
  function IdSelections(es: seq<Event>): nat {
    if |es| == 0 then 0 else (if SelectsId(es[0]) then 1 else 0) + IdSelections(es[1..])
  }

  lemma {:induction false} IdSelectionsAppend(a: seq<Event>, b: seq<Event>)
    ensures IdSelections(a + b) == IdSelections(a) + IdSelections(b)
  {
    if |a| == 0 {
      assert a + b == b;
    } else {
      assert (a + b)[1..] == a[1..] + b;
      IdSelectionsAppend(a[1..], b);
    }
  }

  /** The counter ends up advanced by exactly one for every BROP frame that
      chose an id, and by nothing else. */
  lemma {:induction false} CounterCountsIdSelections(s: RelayState, es: seq<Event>)
    ensures Run(s, es).state.messageCounter == s.messageCounter + IdSelections(es)
    decreases |es|
  {
    if |es| > 0 {
      var first := Apply(s, es[0]);
      assert first.state.messageCounter == s.messageCounter + (if SelectsId(es[0]) then 1 else 0);
      CounterCountsIdSelections(first.state, es[1..]);
    }
  }

  /** The state in which the `i`-th event of a run is handled. */
  function StateBefore(s: RelayState, es: seq<Event>, i: nat): RelayState
    requires i <= |es|
  {
    Run(s, es[..i]).state
  }

  /** The id the BROP handler generates for the `i`-th event of a run. */
  function OfferedId(s: RelayState, es: seq<Event>, i: nat): string
    requires i <= |es|
  {
    GeneratedId(StateBefore(s, es, i).messageCounter + 1)
  }

  /** Within one run, no two BROP frames are offered the same generated id. */
  lemma GeneratedIdsDistinct(s: RelayState, es: seq<Event>, i: nat, j: nat)
    requires i < j < |es|
    requires SelectsId(es[i])
    ensures OfferedId(s, es, i) != OfferedId(s, es, j)
  {
    assert es[..j] == es[..i] + [es[i]] + es[i + 1..j];
    IdSelectionsAppend(es[..i] + [es[i]], es[i + 1..j]);
    IdSelectionsAppend(es[..i], [es[i]]);
    assert IdSelections([es[i]]) == 1 by {
      assert [es[i]][1..] == [];
    }
    CounterCountsIdSelections(s, es[..i]);
    CounterCountsIdSelections(s, es[..j]);
    GeneratedIdInjective(StateBefore(s, es, i).messageCounter + 1, StateBefore(s, es, j).messageCounter + 1);
  }

  // ------------------------------------------------------- correlation

  /** A CDP request forwarded while an agent is connected, then answered by
      the agent under the same id: the requester alone receives the reply in
      CDP form, and the id is no longer pending on the CDP side. */
  lemma CdpRoundTrip(s: RelayState, conn: Conn, request: seq<Member>, reply: seq<Member>)
    requires s.agent.Some?
    requires HashKey(RequestId(request)).Some?
    requires GetOr(reply, "type", JNull) == JStr("response")
    requires HashKey(RequestId(reply)) == HashKey(RequestId(request))
    ensures
      var k := HashKey(RequestId(request)).value;
      var sent := CdpRequest(s, conn, Parsed(JObj(request)));
      var answered := AgentMessage(sent.state, Parsed(JObj(reply)));
      && sent.sends == [Send(s.agent.value, CdpCommand(request))]
      && answered.sends == [Send(conn, ConvertToCdpResponse(reply))]
      && answered.state.pendingCdp == s.pendingCdp - {k}
      && answered.state.pendingBrop == s.pendingBrop
      && answered.state.agent == s.agent
  {
    var k := HashKey(RequestId(request)).value;
    CdpTracks(s, conn, request);
    var t := s.(pendingCdp := s.pendingCdp[k := conn]);
    assert CdpRequest(s, conn, Parsed(JObj(request))).state == t;
    ReplyToCdp(t, reply);
    assert t.pendingCdp - {k} == s.pendingCdp - {k};
  }

  /** The same round trip seen by the CDP client: a successful agent reply
      arrives as `{id, result}`, a failed one as the sentinel-code error
      carrying `str(error)`. */
  lemma CdpRoundTripReply(s: RelayState, conn: Conn, request: seq<Member>, reply: seq<Member>)
    requires s.agent.Some?
    requires HashKey(RequestId(request)).Some?
    requires GetOr(reply, "type", JNull) == JStr("response")
    requires RequestId(reply) == RequestId(request)
    ensures
      var sent := CdpRequest(s, conn, Parsed(JObj(request)));
      var answered := AgentMessage(sent.state, Parsed(JObj(reply)));
      && (AgentSucceeded(reply) ==>
            answered.sends == [Send(conn, JObj([Member("id", RequestId(request)),
                                                Member("result", GetOr(reply, "result", EmptyObject))]))])
      && (!AgentSucceeded(reply) ==>
            answered.sends == [Send(conn, CdpErrorReply(RequestId(request),
                                                        Str(GetOr(reply, "error", JStr(UnknownErrorText)))))])
  {
    CdpRoundTrip(s, conn, request, reply);
  }

  /** A BROP request forwarded while an agent is connected, then answered
      under its id while no CDP request holds that id: the requester receives
      the agent's object exactly as the agent produced it. */
  lemma BropRoundTrip(s: RelayState, conn: Conn, request: seq<Member>, reply: seq<Member>)
    requires s.agent.Some?
    requires ReachesIdSelection(Parsed(JObj(request)))
    requires HashKey(BropRequestId(request, s.messageCounter + 1)).Some?
    requires HashKey(BropRequestId(request, s.messageCounter + 1)).value !in s.pendingCdp
    requires GetOr(reply, "type", JNull) == JStr("response")
    requires HashKey(RequestId(reply)) == HashKey(BropRequestId(request, s.messageCounter + 1))
    ensures
      var k := HashKey(RequestId(reply)).value;
      var sent := BropRequest(s, conn, Parsed(JObj(request)));
      var answered := AgentMessage(sent.state, Parsed(JObj(reply)));
      && sent.sends == [Send(s.agent.value, BropCommand(request, BropRequestId(request, s.messageCounter + 1)))]
      && answered.sends == [Send(conn, JObj(reply))]
      && answered.state.pendingBrop == s.pendingBrop - {k}
      && answered.state.pendingCdp == s.pendingCdp
      && answered.state.messageCounter == s.messageCounter + 1
  {
    var id := BropRequestId(request, s.messageCounter + 1);
    var k := HashKey(id).value;
    var sent := BropRequest(s, conn, Parsed(JObj(request)));
    BropForwarded(s, conn, request);
    TrackedIsUpdate(s.pendingBrop, sent.state.pendingBrop, k, conn);
    ReplyToBrop(sent.state, reply);
    assert sent.state.pendingBrop - {k} == s.pendingBrop - {k};
  }

  lemma BropForwarded(s: RelayState, conn: Conn, request: seq<Member>)
    requires s.agent.Some?
    requires ReachesIdSelection(Parsed(JObj(request)))
    requires HashKey(BropRequestId(request, s.messageCounter + 1)).Some?
    ensures
      var id := BropRequestId(request, s.messageCounter + 1);
      var sent := BropRequest(s, conn, Parsed(JObj(request)));
      && Tracked(s.pendingBrop, sent.state.pendingBrop, HashKey(id).value, conn)
      && sent.state == s.(pendingBrop := sent.state.pendingBrop, messageCounter := s.messageCounter + 1)
      && sent.sends == [Send(s.agent.value, BropCommand(request, id))]
  {
  }

  lemma ReplyToBrop(s: RelayState, reply: seq<Member>)
    requires GetOr(reply, "type", JNull) == JStr("response")
    requires HashKey(RequestId(reply)).Some?
    requires HashKey(RequestId(reply)).value !in s.pendingCdp
    requires HashKey(RequestId(reply)).value in s.pendingBrop
    ensures
      var k := HashKey(RequestId(reply)).value;
      AgentMessage(s, Parsed(JObj(reply))) ==
        Step(s.(pendingBrop := s.pendingBrop - {k}), [Send(s.pendingBrop[k], JObj(reply))])
  {
    assert AgentMessage(s, Parsed(JObj(reply))) == RouteResponse(s, reply);
  }

  // ------------------------------------------------------- correlation across a run

  /** The dict key a CDP request frame's id becomes, if it is an object frame
      with a hashable id. */
  function CdpFrameKey(input: Inbound): Option<Key> {
    if input.Parsed? && input.data.JObj? then HashKey(RequestId(input.data.members)) else None
  }

  /** The dict key a BROP frame is tracked under when handled at counter `n`,
      if it gets as far as id selection with a hashable id. */
  function BropFrameKey(input: Inbound, n: nat): Option<Key> {
    if ReachesIdSelection(input) then HashKey(BropRequestId(input.data.members, n + 1)) else None
  }

  /** An agent frame that is a `response` under an id hashing to `k`. */
  predicate AnswersKey(input: Inbound, k: Key) {
    && input.Parsed? && input.data.JObj?
    && GetOr(input.data.members, "type", JNull) == JStr("response")
    && HashKey(RequestId(input.data.members)) == Some(k)
  }

  /** Handled in state `s`, event `e` forwards a CDP request under `k`. */
  predicate TracksCdpKey(s: RelayState, e: Event, k: Key) {
    e.CdpFrame? && s.agent.Some? && CdpFrameKey(e.input) == Some(k)
  }

  /** Handled in state `s`, event `e` forwards a BROP request under `k`. */
  predicate TracksBropKey(s: RelayState, e: Event, k: Key) {
    e.BropFrame? && s.agent.Some? && BropFrameKey(e.input, s.messageCounter) == Some(k)
  }

  /** No event of the run, in the state it is handled in, forwards another
      CDP request under `k` or delivers an agent reply under `k`. */
  predicate CdpKeyUndisturbed(s: RelayState, es: seq<Event>, k: Key)
    decreases |es|
  {
    |es| == 0 ||
      (&& !TracksCdpKey(s, es[0], k)
       && !(es[0].AgentFrame? && AnswersKey(es[0].input, k))
       && CdpKeyUndisturbed(Apply(s, es[0]).state, es[1..], k))
  }

  /** No event of the run forwards a CDP or another BROP request under `k`, or
      delivers an agent reply under `k`. */
  predicate BropKeyUndisturbed(s: RelayState, es: seq<Event>, k: Key)
    decreases |es|
  {
    |es| == 0 ||
      (&& !TracksCdpKey(s, es[0], k)
       && !TracksBropKey(s, es[0], k)
       && !(es[0].AgentFrame? && AnswersKey(es[0].input, k))
       && BropKeyUndisturbed(Apply(s, es[0]).state, es[1..], k))
  }

  /** Opening or closing a connection touches neither pending map. */
  lemma RegistryKeepsRoutes(s: RelayState, e: Event)
    requires !e.CdpFrame? && !e.BropFrame? && !e.AgentFrame?
    ensures Apply(s, e).state.pendingCdp == s.pendingCdp
    ensures Apply(s, e).state.pendingBrop == s.pendingBrop
  {
  }

  /** An event that neither forwards a CDP request under `k` nor answers `k`
      keeps the CDP entry for `k`. */
  lemma StepKeepsCdpEntry(s: RelayState, e: Event, k: Key)
    requires k in s.pendingCdp
    requires !TracksCdpKey(s, e, k) && !(e.AgentFrame? && AnswersKey(e.input, k))
    ensures k in Apply(s, e).state.pendingCdp && Apply(s, e).state.pendingCdp[k] == s.pendingCdp[k]
  {
    if e.CdpFrame? {
      CdpFrameKeepsCdpEntry(s, e, k);
    } else if e.BropFrame? {
      BropFrameKeepsCdpMap(s, e);
    } else if e.AgentFrame? {
      AgentFrameKeepsCdpEntry(s, e, k);
    } else {
      RegistryKeepsRoutes(s, e);
    }
  }

  lemma CdpFrameKeepsCdpEntry(s: RelayState, e: Event, k: Key)
    requires e.CdpFrame? && k in s.pendingCdp && !TracksCdpKey(s, e, k)
    ensures k in Apply(s, e).state.pendingCdp && Apply(s, e).state.pendingCdp[k] == s.pendingCdp[k]
  {
  }

  lemma BropFrameKeepsCdpMap(s: RelayState, e: Event)
    requires e.BropFrame?
    ensures Apply(s, e).state.pendingCdp == s.pendingCdp
  {
  }

  lemma AgentFrameKeepsCdpEntry(s: RelayState, e: Event, k: Key)
    requires e.AgentFrame? && k in s.pendingCdp && !AnswersKey(e.input, k)
    ensures k in Apply(s, e).state.pendingCdp && Apply(s, e).state.pendingCdp[k] == s.pendingCdp[k]
  {
  }

  /** An event that forwards nothing under `k` and does not answer `k` keeps
      the BROP entry for `k` and keeps `k` off the CDP side. */
  lemma StepKeepsBropEntry(s: RelayState, e: Event, k: Key)
    requires k in s.pendingBrop && k !in s.pendingCdp
    requires !TracksCdpKey(s, e, k) && !TracksBropKey(s, e, k) && !(e.AgentFrame? && AnswersKey(e.input, k))
    ensures k in Apply(s, e).state.pendingBrop && Apply(s, e).state.pendingBrop[k] == s.pendingBrop[k]
    ensures k !in Apply(s, e).state.pendingCdp
  {
    if e.CdpFrame? {
      CdpFrameKeepsBropEntry(s, e, k);
    } else if e.BropFrame? {
      BropFrameKeepsBropEntry(s, e, k);
    } else if e.AgentFrame? {
      AgentFrameKeepsBropEntry(s, e, k);
    } else {
      RegistryKeepsRoutes(s, e);
    }
  }

  lemma CdpFrameKeepsBropEntry(s: RelayState, e: Event, k: Key)
    requires e.CdpFrame? && k !in s.pendingCdp && !TracksCdpKey(s, e, k)
    ensures Apply(s, e).state.pendingBrop == s.pendingBrop
    ensures k !in Apply(s, e).state.pendingCdp
  {
  }

  lemma BropFrameKeepsBropEntry(s: RelayState, e: Event, k: Key)
    requires e.BropFrame? && k in s.pendingBrop && !TracksBropKey(s, e, k)
    ensures k in Apply(s, e).state.pendingBrop && Apply(s, e).state.pendingBrop[k] == s.pendingBrop[k]
    ensures Apply(s, e).state.pendingCdp == s.pendingCdp
  {
    if s.agent.Some? && BropFrameKey(e.input, s.messageCounter).Some? {
      var request := e.input.data.members;
      assert e.input == Parsed(JObj(request));
      BropFrameTrackedElsewhere(s, e.conn, request, k);
    } else {
      BropFrameUntracked(s, e);
    }
  }

  /** A BROP request tracked under another key leaves the entry for `k`. */
  lemma BropFrameTrackedElsewhere(s: RelayState, conn: Conn, request: seq<Member>, k: Key)
    requires s.agent.Some? && ReachesIdSelection(Parsed(JObj(request)))
    requires HashKey(BropRequestId(request, s.messageCounter + 1)).Some?
    requires HashKey(BropRequestId(request, s.messageCounter + 1)).value != k
    requires k in s.pendingBrop
    ensures var r := BropRequest(s, conn, Parsed(JObj(request)));
      && k in r.state.pendingBrop && r.state.pendingBrop[k] == s.pendingBrop[k]
      && r.state.pendingCdp == s.pendingCdp
  {
    BropTracks(s, conn, request, s.messageCounter + 1);
  }

  lemma BropFrameUntracked(s: RelayState, e: Event)
    requires e.BropFrame? && !(s.agent.Some? && BropFrameKey(e.input, s.messageCounter).Some?)
    ensures Apply(s, e).state.pendingBrop == s.pendingBrop
    ensures Apply(s, e).state.pendingCdp == s.pendingCdp
  {
  }

  lemma AgentFrameKeepsBropEntry(s: RelayState, e: Event, k: Key)
    requires e.AgentFrame? && k in s.pendingBrop && k !in s.pendingCdp && !AnswersKey(e.input, k)
    ensures k in Apply(s, e).state.pendingBrop && Apply(s, e).state.pendingBrop[k] == s.pendingBrop[k]
    ensures k !in Apply(s, e).state.pendingCdp
  {
  }

  lemma {:induction false} CdpEntrySurvives(s: RelayState, es: seq<Event>, k: Key)
    requires k in s.pendingCdp && CdpKeyUndisturbed(s, es, k)
    ensures k in Run(s, es).state.pendingCdp && Run(s, es).state.pendingCdp[k] == s.pendingCdp[k]
    decreases |es|
  {
    if |es| > 0 {
      StepKeepsCdpEntry(s, es[0], k);
      CdpEntrySurvives(Apply(s, es[0]).state, es[1..], k);
    }
  }

  lemma {:induction false} BropEntrySurvives(s: RelayState, es: seq<Event>, k: Key)
    requires k in s.pendingBrop && k !in s.pendingCdp && BropKeyUndisturbed(s, es, k)
    ensures k in Run(s, es).state.pendingBrop && Run(s, es).state.pendingBrop[k] == s.pendingBrop[k]
    ensures k !in Run(s, es).state.pendingCdp
    decreases |es|
  {
    if |es| > 0 {
      StepKeepsBropEntry(s, es[0], k);
      BropEntrySurvives(Apply(s, es[0]).state, es[1..], k);
    }
  }

  /** A CDP request forwarded while an agent is connected, followed by any
      run of events that neither forwards another CDP request under the same
      id key nor delivers a reply under it: the agent's reply under that id,
      whenever it comes, reaches the requester alone in CDP form and clears
      the id from the CDP map. */
  lemma CdpAnsweredAfterAnyEvents(s: RelayState, conn: Conn, request: seq<Member>, es: seq<Event>, reply: seq<Member>)
    requires s.agent.Some?
    requires HashKey(RequestId(request)).Some?
    requires CdpKeyUndisturbed(CdpRequest(s, conn, Parsed(JObj(request))).state, es, HashKey(RequestId(request)).value)
    requires GetOr(reply, "type", JNull) == JStr("response")
    requires HashKey(RequestId(reply)) == HashKey(RequestId(request))
    ensures
      var k := HashKey(RequestId(request)).value;
      var later := Run(CdpRequest(s, conn, Parsed(JObj(request))).state, es).state;
      var answered := AgentMessage(later, Parsed(JObj(reply)));
      && answered.sends == [Send(conn, ConvertToCdpResponse(reply))]
      && answered.state.pendingCdp == later.pendingCdp - {k}
      && k !in answered.state.pendingCdp
  {
    var k := HashKey(RequestId(request)).value;
    CdpTracks(s, conn, request);
    var t := s.(pendingCdp := s.pendingCdp[k := conn]);
    CdpEntrySurvives(t, es, k);
    ReplyToCdp(Run(t, es).state, reply);
  }

  /** A BROP request forwarded while an agent is connected, under an id not
      pending on the CDP side, followed by any run of events that forwards
      nothing under that id key and delivers no reply under it: the agent's
      reply under that id, whenever it comes, reaches the requester unchanged
      and clears the id from the BROP map. */
  lemma BropAnsweredAfterAnyEvents(s: RelayState, conn: Conn, request: seq<Member>, es: seq<Event>, reply: seq<Member>)
    requires s.agent.Some?
    requires ReachesIdSelection(Parsed(JObj(request)))
    requires HashKey(BropRequestId(request, s.messageCounter + 1)).Some?
    requires HashKey(BropRequestId(request, s.messageCounter + 1)).value !in s.pendingCdp
    requires BropKeyUndisturbed(BropRequest(s, conn, Parsed(JObj(request))).state, es,
                                HashKey(BropRequestId(request, s.messageCounter + 1)).value)
    requires GetOr(reply, "type", JNull) == JStr("response")
    requires HashKey(RequestId(reply)) == HashKey(BropRequestId(request, s.messageCounter + 1))
    ensures
      var k := HashKey(RequestId(reply)).value;
      var later := Run(BropRequest(s, conn, Parsed(JObj(request))).state, es).state;
      var answered := AgentMessage(later, Parsed(JObj(reply)));
      && answered.sends == [Send(conn, JObj(reply))]
      && answered.state.pendingBrop == later.pendingBrop - {k}
      && answered.state.pendingCdp == later.pendingCdp
  {
    var n := s.messageCounter + 1;
    var k := HashKey(BropRequestId(request, n)).value;
    BropTracks(s, conn, request, n);
    var t := s.(pendingBrop := s.pendingBrop[k := conn], messageCounter := n);
    BropEntrySurvives(t, es, k);
    ReplyToBrop(Run(t, es).state, reply);
  }

  /** A CDP request and a BROP request forwarded under ids that are the same
      dict key: both maps now hold that key, one entry per side. */
  lemma SameIdPendsOnBothSides(s: RelayState, cdpConn: Conn, bropConn: Conn, request: seq<Member>, bropRequest: seq<Member>)
    requires s.agent.Some?
    requires HashKey(RequestId(request)).Some?
    requires ReachesIdSelection(Parsed(JObj(bropRequest)))
    requires HashKey(BropRequestId(bropRequest, s.messageCounter + 1)) == HashKey(RequestId(request))
    ensures
      var k := HashKey(RequestId(request)).value;
      var cdpSent := CdpRequest(s, cdpConn, Parsed(JObj(request)));
      BropRequest(cdpSent.state, bropConn, Parsed(JObj(bropRequest))).state ==
        s.(pendingCdp := s.pendingCdp[k := cdpConn], pendingBrop := s.pendingBrop[k := bropConn],
           messageCounter := s.messageCounter + 1)
  {
    var k := HashKey(RequestId(request)).value;
    CdpTracks(s, cdpConn, request);
    var t := s.(pendingCdp := s.pendingCdp[k := cdpConn]);
    assert CdpRequest(s, cdpConn, Parsed(JObj(request))).state == t;
    BropTracks(t, bropConn, bropRequest, s.messageCounter + 1);
  }

  /** With the same id pending on both sides, the agent's one reply goes to
      the CDP requester and the BROP requester stays pending. */
  lemma CdpTakesPrecedence(s: RelayState, reply: seq<Member>)
    requires GetOr(reply, "type", JNull) == JStr("response")
    requires HashKey(RequestId(reply)).Some?
    requires HashKey(RequestId(reply)).value in s.pendingCdp
    requires HashKey(RequestId(reply)).value in s.pendingBrop
    ensures
      var k := HashKey(RequestId(reply)).value;
      var answered := AgentMessage(s, Parsed(JObj(reply)));
      && answered.sends == [Send(s.pendingCdp[k], ConvertToCdpResponse(reply))]
      && k !in answered.state.pendingCdp
      && answered.state.pendingBrop == s.pendingBrop
  {
    ReplyToCdp(s, reply);
  }

  /** The state after a forwarded CDP request. */
  lemma CdpTracks(s: RelayState, conn: Conn, request: seq<Member>)
    requires s.agent.Some?
    requires HashKey(RequestId(request)).Some?
    ensures CdpRequest(s, conn, Parsed(JObj(request))).state ==
      s.(pendingCdp := s.pendingCdp[HashKey(RequestId(request)).value := conn])
  {
  }

  /** The state after a forwarded BROP request; `n` is the counter value
      the request's id selection produces. */
  lemma BropTracks(s: RelayState, conn: Conn, request: seq<Member>, n: nat)
    requires s.agent.Some?
    requires n == s.messageCounter + 1
    requires ReachesIdSelection(Parsed(JObj(request)))
    requires HashKey(BropRequestId(request, n)).Some?
    ensures BropRequest(s, conn, Parsed(JObj(request))).state ==
      s.(pendingBrop := s.pendingBrop[HashKey(BropRequestId(request, n)).value := conn], messageCounter := n)
  {
  }

  /** `Tracked` is exactly the dict assignment `m[k] = conn`. */
  lemma TrackedIsUpdate(before: map<Key, Conn>, after: map<Key, Conn>, k: Key, conn: Conn)
    requires Tracked(before, after, k, conn)
    ensures after == before[k := conn]
  {
    forall key | key in after
      ensures key in before[k := conn] && after[key] == before[k := conn][key]
    {
    }
  }

  lemma ReplyToCdp(s: RelayState, reply: seq<Member>)
    requires GetOr(reply, "type", JNull) == JStr("response")
    requires HashKey(RequestId(reply)).Some?
    requires HashKey(RequestId(reply)).value in s.pendingCdp
    ensures
      var k := HashKey(RequestId(reply)).value;
      AgentMessage(s, Parsed(JObj(reply))) ==
        Step(s.(pendingCdp := s.pendingCdp - {k}), [Send(s.pendingCdp[k], ConvertToCdpResponse(reply))])
  {
    assert AgentMessage(s, Parsed(JObj(reply))) == RouteResponse(s, reply);
  }

  // ------------------------------------------------------- registry

  /** A client that connects and then disconnects leaves the registry as it
      was, whatever discovery document it may have received. */
  lemma CdpOpenCloseRestores(s: RelayState, conn: Conn, path: string)
    requires conn !in s.cdpClients
    ensures CdpDisconnected(CdpConnected(s, conn, path).state, conn).state == s
  {
  }

  lemma BropOpenCloseRestores(s: RelayState, conn: Conn)
    requires conn !in s.bropClients
    ensures BropDisconnected(BropConnected(s, conn).state, conn).state == s
  {
  }

  /** An agent that was replaced and then leaves still empties the slot: the
      newer agent, though connected, no longer receives requests, and a CDP
      request gets the not-connected error. */
  lemma StaleAgentExitClearsSlot(s: RelayState, stale: Conn, newer: Conn, t1: int, t2: int, client: Conn, request: seq<Member>)
    requires stale != newer
    ensures
      var r := Run(s, [AgentOpen(stale, t1), AgentOpen(newer, t2), AgentClose(stale), CdpFrame(client, Parsed(JObj(request)))]);
      && r.state.agent.None?
      && r.state.pendingCdp == s.pendingCdp
      && r.sends == [Send(stale, Welcome(t1)), Send(newer, Welcome(t2)),
                     Send(client, CdpErrorReply(RequestId(request), NotConnectedText))]
  {
    var es := [AgentOpen(stale, t1), AgentOpen(newer, t2), AgentClose(stale), CdpFrame(client, Parsed(JObj(request)))];
    var s1 := Apply(s, es[0]);
    var s2 := Apply(s1.state, es[1]);
    var s3 := Apply(s2.state, es[2]);
    var s4 := Apply(s3.state, es[3]);
    assert s3.state.agent.None? && s3.state.pendingCdp == s.pendingCdp;
    assert s4 == Step(s3.state, [Send(client, CdpErrorReply(RequestId(request), NotConnectedText))]);
    assert es[1..] == es[1..4] && es[1..][1..] == es[2..4] && es[2..4][1..] == es[3..4] && es[3..4][1..] == [];
    assert Run(s3.state, es[3..4]) == Step(s4.state, s4.sends + []);
    assert Run(s2.state, es[2..4]) == Step(s4.state, s3.sends + (s4.sends + []));
    assert Run(s1.state, es[1..4]) == Step(s4.state, s2.sends + (s3.sends + (s4.sends + [])));
  }

  // ------------------------------------------------------- no agent

  predicate NoAgentArrives(es: seq<Event>) {
    forall i :: 0 <= i < |es| ==> !es[i].AgentOpen?
  }

  /** Every entry of `small` is also an entry of `big`, routing to the same
      connection: `small` lost entries and gained or re-pointed none. */
  predicate SubMap(small: map<Key, Conn>, big: map<Key, Conn>) {
    forall k :: k in small ==> k in big && small[k] == big[k]
  }

  /** One event other than an agent connecting, handled with no agent. */
  lemma StepWithoutAgent(s: RelayState, e: Event)
    requires s.agent.None? && !e.AgentOpen?
    ensures Apply(s, e).state.agent.None?
    ensures SubMap(Apply(s, e).state.pendingCdp, s.pendingCdp)
    ensures SubMap(Apply(s, e).state.pendingBrop, s.pendingBrop)
  {
    match e
    case AgentClose(c) =>
    case CdpOpen(c, path) =>
    case CdpClose(c) =>
    case BropOpen(c) =>
    case BropClose(c) =>
    case CdpFrame(c, input) =>
    case BropFrame(c, input) =>
    case AgentFrame(input) =>
  }

  /** While no agent connects, no request enters either pending map and no
      entry is re-pointed: the only way an entry can change is a reply still
      arriving from an agent handler that has lost the slot, which can only
      remove entries. */
  lemma {:induction false} WithoutAgentNothingIsTracked(s: RelayState, es: seq<Event>)
    requires s.agent.None?
    requires NoAgentArrives(es)
    ensures Run(s, es).state.agent.None?
    ensures SubMap(Run(s, es).state.pendingCdp, s.pendingCdp)
    ensures SubMap(Run(s, es).state.pendingBrop, s.pendingBrop)
    decreases |es|
  {
    if |es| > 0 {
      var first := Apply(s, es[0]);
      StepWithoutAgent(s, es[0]);
      assert NoAgentArrives(es[1..]) by {
        forall i | 0 <= i < |es[1..]|
          ensures !es[1..][i].AgentOpen?
        {
          assert es[1..][i] == es[i + 1];
        }
      }
      WithoutAgentNothingIsTracked(first.state, es[1..]);
    }
  }

  /** A freshly started bridge that no agent has joined routes nothing: both
      pending maps stay empty and the slot stays free, whatever clients do. */
  lemma FreshBridgeTracksNothing(es: seq<Event>)
    requires NoAgentArrives(es)
    ensures Run(Init(), es).state.agent.None?
    ensures Run(Init(), es).state.pendingCdp == map[]
    ensures Run(Init(), es).state.pendingBrop == map[]
  {
    WithoutAgentNothingIsTracked(Init(), es);
  }

  // ------------------------------------------------------- worked examples

  /** No agent: `{"id":1,"method":"Browser.getVersion","params":{}}` is
      answered with the not-connected error under id 1. */
  lemma ExampleNoAgent(s: RelayState, client: Conn)
    requires s.agent.None?
    ensures
      var request := [Member("id", JNum(1)), Member("method", JStr("Browser.getVersion")), Member("params", EmptyObject)];
      CdpRequest(s, client, Parsed(JObj(request))) ==
        Step(s, [Send(client, JObj([
          Member("id", JNum(1)),
          Member("error", JObj([Member("code", JNum(-32000)), Member("message", JStr("Chrome extension not connected"))]))]))])
  {
  }

  const NavigateRequest := [Member("id", JNum(5)), Member("method", JStr("Page.navigate")),
                            Member("params", JObj([Member("url", JStr("https://x"))]))]
  const NavigateReply := [Member("type", JStr("response")), Member("id", JNum(5)), Member("success", JBool(true)),
                          Member("result", JObj([Member("frameId", JStr("f1"))]))]

  /** Agent connected: `Page.navigate` with id 5, answered with success and
      `{"frameId":"f1"}`, reaches the client as `{"id":5,"result":{"frameId":"f1"}}`. */
  lemma ExampleNavigate(s: RelayState, client: Conn)
    requires s.agent.Some?
    ensures
      var sent := CdpRequest(s, client, Parsed(JObj(NavigateRequest)));
      AgentMessage(sent.state, Parsed(JObj(NavigateReply))).sends ==
        [Send(client, JObj([Member("id", JNum(5)), Member("result", JObj([Member("frameId", JStr("f1"))]))]))]
  {
    NavigateFields();
    NavigateReplyId();
    CdpRoundTrip(s, client, NavigateRequest, NavigateReply);
    NavigateConverts();
  }

  lemma NavigateFields()
    ensures RequestId(NavigateRequest) == JNum(5)
    ensures GetOr(NavigateReply, "type", JNull) == JStr("response")
  {
    LookupAt(NavigateRequest, 0);
    LookupAt(NavigateReply, 0);
  }

  lemma NavigateConverts()
    ensures ConvertToCdpResponse(NavigateReply) ==
      JObj([Member("id", JNum(5)), Member("result", JObj([Member("frameId", JStr("f1"))]))])
  {
    NavigateReplyId();
    NavigateReplySucceeds();
    NavigateReplyResult();
    ConvertedSuccess(NavigateReply);
  }

  lemma NavigateReplyId()
    ensures RequestId(NavigateReply) == JNum(5)
  {
    LookupAt(NavigateReply, 1);
  }

  lemma NavigateReplySucceeds()
    ensures AgentSucceeded(NavigateReply)
  {
    LookupAt(NavigateReply, 2);
  }

  lemma NavigateReplyResult()
    ensures GetOr(NavigateReply, "result", EmptyObject) == JObj([Member("frameId", JStr("f1"))])
  {
    LookupAt(NavigateReply, 3);
  }

  lemma ConvertedSuccess(reply: seq<Member>)
    requires AgentSucceeded(reply)
    ensures ConvertToCdpResponse(reply) == JObj([Member("id", RequestId(reply)), Member("result", GetOr(reply, "result", EmptyObject))])
  {
  }

  const ConsoleEvent := [Member("type", JStr("event")), Member("event_type", JStr("console")),
                         Member("params", JObj([Member("text", JStr("hi"))]))]
  const ConsoleNotice := JObj([Member("method", JStr("Runtime.console")), Member("params", JObj([Member("text", JStr("hi"))]))])

  /** A console event with CDP clients 1 and 2 and BROP client 3: each CDP
      client gets `Runtime.console`, the BROP client the event itself. */
  lemma ExampleConsoleEvent(s: RelayState)
    requires s.cdpClients == {1, 2} && s.bropClients == {3}
    ensures
      var r := AgentMessage(s, Parsed(JObj(ConsoleEvent)));
      && r.state == s
      && |r.sends| == 3
      && Send(1, ConsoleNotice) in r.sends && Send(2, ConsoleNotice) in r.sends
      && Send(3, JObj(ConsoleEvent)) in r.sends
  {
    ConsoleEventType();
    ConsoleIsShownToCdp();
    var fan := EventFanOut(s, ConsoleEvent);
    assert AgentMessage(s, Parsed(JObj(ConsoleEvent))) == Step(s, fan);
    assert |fan| == 3 by {
      assert |s.cdpClients| == 2 && |s.bropClients| == 1;
    }
    assert 1 in s.cdpClients && 2 in s.cdpClients && 3 in s.bropClients;
  }

  lemma ConsoleIsShownToCdp()
    ensures RuntimeNotification(ConsoleEvent) == Some(ConsoleNotice)
  {
    ConsoleEventKind();
    ConsoleEventParams();
    assert "console" in RuntimeEventKinds;
    assert "Runtime." + "console" == "Runtime.console";
  }

  lemma ConsoleEventType()
    ensures GetOr(ConsoleEvent, "type", JNull) == JStr("event")
  {
    LookupAt(ConsoleEvent, 0);
  }

  lemma ConsoleEventKind()
    ensures GetOr(ConsoleEvent, "event_type", JNull) == JStr("console")
  {
    LookupAt(ConsoleEvent, 1);
  }

  lemma ConsoleEventParams()
    ensures GetOr(ConsoleEvent, "params", EmptyObject) == JObj([Member("text", JStr("hi"))])
  {
    LookupAt(ConsoleEvent, 2);
  }
}
