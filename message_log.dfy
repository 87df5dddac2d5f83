/**
 * The message side of server.js: the `message` handler of each tenant's
 * client, which logs an inbound message once under `(tenantId, msgId)` and
 * appends one outbound part recording whether the reply went out, and the
 * `sendText` route with its two-attempt send loop.
 *
 * The message collection of the document store is the `Store` class; whether
 * a store call fails is a parameter (`StoreFault`, `recordOk`), and so are
 * the outcomes of the send attempts.
 */
module MessageLog {
  import opened Optional
  import opened JsStrings
  import Gateway
  import Lovable

  /** `tenants/{tenantId}/messages/{msgId}` */
  type MsgKey = (string, string)

  /** The inbound document (`direction: 'in'`); the raw metadata and timestamp are not modelled. */
  datatype InboundRecord = InboundRecord(from: string, text: string)

  /** A document of the `parts` sub-collection (`direction: 'out'`). */
  datatype Part = Part(delivered: bool)

  datatype LogState = LogState(inbound: map<MsgKey, InboundRecord>, parts: map<MsgKey, seq<Part>>)

  /** Which store call of the handler throws, if any (each is caught by the handler). */
  datatype StoreFault = NoFault | ReadFails | WriteFails | PartFails

  /** `msg?.id?._serialized || msg?.id?.id || null`: here the serialized id is preferred. */
  function HandlerMessageId(m: Lovable.IncomingMessage): (id: Option<string>)
    ensures id.Some? ==> id.value != []
    ensures id.None? <==> m.id.None? || (m.id.value.serialized == [] && m.id.value.short == [])
    ensures m.id.Some? && m.id.value.serialized != [] ==> id == Some(m.id.value.serialized)
    ensures id.Some? ==> id.value == m.id.value.serialized || id.value == m.id.value.short
  {
    if m.id.None? then None
    else if m.id.value.serialized != [] then Some(m.id.value.serialized)
    else if m.id.value.short != [] then Some(m.id.value.short)
    else None
  }

  /** `cap(msg?.body?.trim?.(), 4000)` */
  function HandlerBody(m: Lovable.IncomingMessage): string {
    Gateway.Cap(if m.body.Some? then Some(Trim(m.body.value)) else None, Gateway.MaxText)
  }

  /** What the handler reads from a message: its document key, if it has one, and the inbound document. */
  datatype Inbound = Inbound(key: Option<MsgKey>, record: InboundRecord)

  /**
   * A message carrying an id, a sender and a non-blank body has the key
   * `(tenantId, id)`; any other has none and is dropped.
   */
  function Extract(tenantId: string, m: Lovable.IncomingMessage): (r: Inbound)
    ensures r.key.Some? <==> HandlerMessageId(m).Some? && m.from.GetOr("") != [] && HandlerBody(m) != []
    ensures r.key.Some? ==> r.key.value == (tenantId, HandlerMessageId(m).value)
    ensures r.record == InboundRecord(m.from.GetOr(""), HandlerBody(m))
  {
    var id := HandlerMessageId(m);
    var from := m.from.GetOr("");
    var body := HandlerBody(m);
    Inbound(if id.None? || from == [] || body == [] then None else Some((tenantId, id.value)), InboundRecord(from, body))
  }

  function PartsOf(st: LogState, key: MsgKey): seq<Part> {
    if key in st.parts then st.parts[key] else []
  }

  /** The handler's effect on the store, and whether it invoked `processIncomingMessage`. */
  datatype Handled = Handled(state: LogState, invoked: bool)

  /**
   * One run of the `message` handler: a message without key, a failed read,
   * a key already logged, or a failed write leaves the store as it was and
   * processes nothing; otherwise the inbound document is written, the
   * message is processed, and one part carrying `delivered` is appended
   * (unless that last write fails).
   */
  function HandleStep(st: LogState, msg: Inbound, delivered: bool, fault: StoreFault): (r: Handled)
    ensures r.invoked <==> msg.key.Some? && msg.key.value !in st.inbound && (fault == NoFault || fault == PartFails)
    ensures !r.invoked ==> r.state == st
    ensures r.invoked ==>
      && r.state.inbound == st.inbound[msg.key.value := msg.record]
      && r.state.parts ==
        if fault == NoFault then st.parts[msg.key.value := PartsOf(st, msg.key.value) + [Part(delivered)]] else st.parts
  {
    if msg.key.None? || msg.key.value in st.inbound then Handled(st, false)
    else
      var key := msg.key.value;
      match fault
      case ReadFails => Handled(st, false)
      case WriteFails => Handled(st, false)
      case PartFails => Handled(LogState(st.inbound[key := msg.record], st.parts), true)
      case NoFault =>
        Handled(LogState(st.inbound[key := msg.record], st.parts[key := PartsOf(st, key) + [Part(delivered)]]), true)
  }

  /** Every part belongs to a logged inbound message, and no message has more than one part. */
  ghost predicate WellFormed(st: LogState) {
    forall k :: k in st.parts ==> k in st.inbound && |st.parts[k]| == 1
  }

  /**
   * The handler keeps the store well formed; a message processed with every
   * write succeeding ends up with exactly one part, carrying `delivered`.
   */
  lemma HandleStepKeepsWellFormed(st: LogState, msg: Inbound, delivered: bool, fault: StoreFault)
    requires WellFormed(st)
    ensures WellFormed(HandleStep(st, msg, delivered, fault).state)
    ensures HandleStep(st, msg, delivered, fault).invoked && fault == NoFault ==>
      HandleStep(st, msg, delivered, fault).state.parts[msg.key.value] == [Part(delivered)]
  {
  }

  /**
   * The same message delivered twice: once the first delivery has written its
   * inbound document, the second changes nothing and processes nothing.
   */
  lemma SameMessageTwice(st: LogState, msg: Inbound, delivered1: bool, fault1: StoreFault, delivered2: bool, fault2: StoreFault)
    requires fault1 == NoFault || fault1 == PartFails
    ensures var first := HandleStep(st, msg, delivered1, fault1);
      HandleStep(first.state, msg, delivered2, fault2) == Handled(first.state, false)
  {
  }

  /** One arrival of a message at the handler, with the outcomes of its calls. */
  datatype Arrival = Arrival(msg: Inbound, delivered: bool, fault: StoreFault)

  /** The store after a sequence of arrivals, and the keys of the messages processed, in order. */
  function Run(st: LogState, arrivals: seq<Arrival>): (LogState, seq<MsgKey>)
    decreases |arrivals|
  {
    if arrivals == [] then (st, [])
    else
      var a := arrivals[0];
      var h := HandleStep(st, a.msg, a.delivered, a.fault);
      var rest := Run(h.state, arrivals[1..]);
      (rest.0, (if h.invoked then [a.msg.key.value] else []) + rest.1)
  }

  /**
   * Over any sequence of arrivals, redeliveries and failures included, each
   * message key is processed at most once, only if it was not logged before,
   * and every processed key ends up logged; logged documents are never
   * dropped or rewritten.
   */
  lemma {:induction false} RunProcessesEachKeyOnce(st: LogState, arrivals: seq<Arrival>)
    ensures var (final, keys) := Run(st, arrivals);
      && (forall i, j :: 0 <= i < j < |keys| ==> keys[i] != keys[j])
      && (forall i :: 0 <= i < |keys| ==> keys[i] !in st.inbound && keys[i] in final.inbound)
      && (forall k :: k in st.inbound ==> k in final.inbound && final.inbound[k] == st.inbound[k])
    decreases |arrivals|
  {
    if arrivals != [] {
      var a := arrivals[0];
      var h := HandleStep(st, a.msg, a.delivered, a.fault);
      RunProcessesEachKeyOnce(h.state, arrivals[1..]);
      var rest := Run(h.state, arrivals[1..]);
      var head: seq<MsgKey> := if h.invoked then [a.msg.key.value] else [];
      var keys := head + rest.1;
      assert Run(st, arrivals) == (rest.0, keys);
      assert forall k :: k in head ==> k !in st.inbound && k in h.state.inbound;
      PrependFreshKey(head, rest.1, st.inbound.Keys, h.state.inbound.Keys, rest.0.inbound.Keys);
    }
  }

  /**
   * Putting at most one key that was not logged before in front of distinct
   * keys logged later keeps them distinct and unlogged before.
   */
  lemma {:induction false} PrependFreshKey(head: seq<MsgKey>, rest: seq<MsgKey>, before: set<MsgKey>, mid: set<MsgKey>, after: set<MsgKey>)
    requires |head| <= 1 && before <= mid <= after
    requires forall k :: k in head ==> k !in before && k in mid
    requires forall i, j :: 0 <= i < j < |rest| ==> rest[i] != rest[j]
    requires forall i :: 0 <= i < |rest| ==> rest[i] !in mid && rest[i] in after
    ensures forall i, j :: 0 <= i < j < |head + rest| ==> (head + rest)[i] != (head + rest)[j]
    ensures forall i :: 0 <= i < |head + rest| ==> (head + rest)[i] !in before && (head + rest)[i] in after
  {
    var keys := head + rest;
    forall i, j | 0 <= i < j < |keys| ensures keys[i] != keys[j] {
      if i >= |head| {
        assert keys[i] == rest[i - |head|] && keys[j] == rest[j - |head|];
      } else {
        assert keys[i] in head;
        assert keys[j] == rest[j - 1];
      }
    }
    forall i | 0 <= i < |keys| ensures keys[i] !in before && keys[i] in after {
      if i >= |head| {
        assert keys[i] == rest[i - |head|];
      } else {
        assert keys[i] in head;
      }
    }
  }

  /** Over any sequence of arrivals the store stays well formed: at most one reply part per message. */
  lemma {:induction false} RunKeepsWellFormed(st: LogState, arrivals: seq<Arrival>)
    requires WellFormed(st)
    ensures WellFormed(Run(st, arrivals).0)
    decreases |arrivals|
  {
    if arrivals != [] {
      var a := arrivals[0];
      HandleStepKeepsWellFormed(st, a.msg, a.delivered, a.fault);
      RunKeepsWellFormed(HandleStep(st, a.msg, a.delivered, a.fault).state, arrivals[1..]);
    }
  }

  // ----- sendText -----

  const MaxAttempts: nat := 2

  /**
   * The send loop of `sendText`: at most two attempts, stopping at the first
   * that succeeds; the text counts as delivered exactly when some attempt
   * succeeded. `sendOk[i]` is the outcome attempt `i + 1` would have.
   */
  method DeliverWithRetry(to: string, payload: string, sendOk: seq<bool>) returns (delivered: bool, calls: seq<Lovable.Effect>)
    requires |sendOk| == MaxAttempts
    ensures 1 <= |calls| <= MaxAttempts
    ensures forall c :: c in calls ==> c == Lovable.SendMessage(to, payload)
    ensures delivered <==> exists i :: 0 <= i < |calls| && sendOk[i]
    ensures delivered <==> sendOk[0] || sendOk[1]
    ensures delivered ==> sendOk[|calls| - 1]
    ensures !delivered ==> |calls| == MaxAttempts
    ensures forall i :: 0 <= i < |calls| - 1 ==> !sendOk[i]
  {
    delivered := false;
    calls := [];
    var attempt := 1;
    while attempt <= MaxAttempts
      invariant 1 <= attempt <= MaxAttempts + 1
      invariant |calls| == attempt - 1
      invariant forall c :: c in calls ==> c == Lovable.SendMessage(to, payload)
      invariant forall i :: 0 <= i < |calls| ==> !sendOk[i]
      invariant !delivered
    {
      calls := calls + [Lovable.SendMessage(to, payload)];
      if sendOk[attempt - 1] {
        delivered := true;
        break;
      }
      attempt := attempt + 1;
    }
  }

  /**
   * What `ensureClient` gave the `sendText` route: it threw, it resolved to
   * nothing (the lock-wait path after the entry was removed), or it resolved
   * to a registered client.
   */
  datatype ClientLookup = LookupFailed | NothingFound | ClientFound

  /** The response of the `sendText` route. */
  datatype SendReply = BadRequest | ServerError | Sent(delivered: bool) {
    function StatusCode(): int {
      match this
      case BadRequest => 400
      case ServerError => 500
      case Sent(_) => 200
    }
  }

  /** A document of the messages collection added by `sendText` (`direction: 'out'`). */
  datatype SentRecord = SentRecord(tenantId: string, to: string, text: string, delivered: bool)

  /** `!x` for a request body field. */
  predicate Missing(v: Option<string>) {
    v.None? || v.value == []
  }

  /** The message documents of every tenant. */
  class Store {
    var inbound: map<MsgKey, InboundRecord>
    var parts: map<MsgKey, seq<Part>>
    var sent: seq<SentRecord>

    function State(): LogState
      reads this
    {
      LogState(inbound, parts)
    }

    constructor ()
      ensures State() == LogState(map[], map[]) && sent == []
    {
      inbound := map[];
      parts := map[];
      sent := [];
    }

    /**
     * The `message` handler of `tenantId`'s client: the store moves as
     * `HandleStep` says, with `delivered` the result of
     * `processIncomingMessage`; that procedure runs, and the chat gets at
     * most one reply, only when the handler processes the message. A message
     * the filter of `processIncomingMessage` ignores (a group or own message,
     * say) may still be logged, but it makes no call and gets no reply.
     */
    method HandleMessage(tenantId: string, m: Lovable.IncomingMessage, c: Lovable.Collaborators, fault: StoreFault)
      returns (effects: seq<Lovable.Effect>)
      modifies this
      ensures
        var h := HandleStep(old(State()), Extract(tenantId, m), Lovable.Admit(m).Admitted? && c.sendOk, fault);
        && State() == h.state
        && (!h.invoked ==> effects == [])
        && (h.invoked && Lovable.Admit(m).Admitted? ==>
              Lovable.SendMessage(Lovable.Admit(m).from, Lovable.GetAiResponse(c.ai)) in effects)
      ensures Lovable.CountSends(effects) <= 1
      ensures !Lovable.Admit(m).Admitted? ==> effects == []
      ensures sent == old(sent)
    {
      effects := [];
      var msg := Extract(tenantId, m);
      if msg.key.None? {
        return;
      }
      var key := msg.key.value;
      if fault.ReadFails? || key in inbound || fault.WriteFails? {
        return;
      }
      ghost var before := State();
      var newParts := PartsOf(State(), key);
      inbound := inbound[key := msg.record];
      var delivered;
      delivered, effects := Lovable.ProcessIncomingMessage(tenantId, m, c);
      ghost var h := HandleStep(before, msg, delivered, fault);
      if fault.NoFault? {
        parts := parts[key := newParts + [Part(delivered)]];
      }
      assert h.state.inbound == inbound && h.state.parts == parts;
    }

    /**
     * `POST /sessions/:tenantId/sendText`: 400 when `to` or `text` is
     * missing; 500 when `ensureClient` fails; otherwise the capped text is
     * sent with at most two attempts, one outbound document records whether
     * it was delivered, and the response carries that flag (500 when writing
     * the document fails). When `ensureClient` resolves to nothing, both
     * attempts fail before reaching a client, so nothing is sent and the
     * document records an undelivered message.
     */
    method SendText(tenantId: string, to: Option<string>, text: Option<string>, client: ClientLookup,
                    sendOk: seq<bool>, recordOk: bool)
      returns (reply: SendReply, calls: seq<Lovable.Effect>)
      requires |sendOk| == MaxAttempts
      modifies this
      ensures inbound == old(inbound) && parts == old(parts)
      ensures Missing(to) || Missing(text) ==> reply == BadRequest && calls == [] && sent == old(sent)
      ensures !Missing(to) && !Missing(text) && client == LookupFailed ==> reply == ServerError && calls == [] && sent == old(sent)
      ensures !Missing(to) && !Missing(text) && client == NothingFound ==>
        && calls == []
        && (recordOk ==> reply == Sent(false) && sent == old(sent) + [SentRecord(tenantId, to.value, Gateway.Cap(text, Gateway.MaxText), false)])
        && (!recordOk ==> reply == ServerError && sent == old(sent))
      ensures !Missing(to) && !Missing(text) && client == ClientFound ==>
        var delivered := sendOk[0] || sendOk[1];
        var payload := Gateway.Cap(text, Gateway.MaxText);
        && 1 <= |calls| <= MaxAttempts
        && (forall c :: c in calls ==> c == Lovable.SendMessage(to.value, payload))
        && (forall i :: 0 <= i < |calls| - 1 ==> !sendOk[i])
        && (sendOk[0] ==> |calls| == 1)
        && (!sendOk[0] ==> |calls| == MaxAttempts)
        && (recordOk ==> reply == Sent(delivered) && sent == old(sent) + [SentRecord(tenantId, to.value, payload, delivered)])
        && (!recordOk ==> reply == ServerError && sent == old(sent))
    {
      if Missing(to) || Missing(text) {
        return BadRequest, [];
      }
      if client == LookupFailed {
        return ServerError, [];
      }
      var payload := Gateway.Cap(text, Gateway.MaxText);
      var delivered := false;
      calls := [];
      if client == ClientFound {
        delivered, calls := DeliverWithRetry(to.value, payload, sendOk);
      }
      if !recordOk {
        return ServerError, calls;
      }
      sent := sent + [SentRecord(tenantId, to.value, payload, delivered)];
      reply := Sent(delivered);
    }
  }
}
