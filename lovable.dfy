/**
 * The reply pipeline of lovableClient.js: phone normalisation, the inbound
 * filter, the mapping from the assistant's HTTP outcome to a reply text, and
 * the two effectful procedures (saveMessage, processIncomingMessage) as
 * methods that return the trace of external calls they make.
 *
 * The Supabase REST and Edge endpoints and the messaging client are not
 * called: the outcome of each call is a parameter (`SaveOutcome`,
 * `AiOutcome`, `sendOk`) and each call made is recorded as an `Effect`.
 */
module Lovable {
  import opened Optional
  import opened JsStrings

  // ----- normPhoneToBR55 -----

  /** `\d` of a JavaScript regular expression: ASCII digits only. */
  predicate IsDigit(c: char) {
    '0' <= c <= '9'
  }

  predicate AllDigits(s: string) {
    forall i :: 0 <= i < |s| ==> IsDigit(s[i])
  }

  predicate HasDigit(s: string) {
    exists i :: 0 <= i < |s| && IsDigit(s[i])
  }

  /** `replace(/\D+/g, '')`: the digits of `s`, in order. */
  function KeepDigits(s: string): (r: string)
    ensures AllDigits(r)
    ensures r == [] <==> !HasDigit(s)
    ensures AllDigits(s) ==> r == s
  {
    if s == [] then []
    else
      var rest := KeepDigits(s[1..]);
      assert HasDigit(s) <==> IsDigit(s[0]) || HasDigit(s[1..]) by {
        if HasDigit(s[1..]) {
          var i :| 0 <= i < |s[1..]| && IsDigit(s[1..][i]);
          assert IsDigit(s[i + 1]);
        }
        if HasDigit(s) && !IsDigit(s[0]) {
          var i :| 0 <= i < |s| && IsDigit(s[i]);
          assert IsDigit(s[1..][i - 1]);
        }
      }
      (if IsDigit(s[0]) then [s[0]] else []) + rest
  }

  /** A single character is kept exactly when it is a digit. */
  lemma KeepDigitsOne(c: char)
    ensures KeepDigits([c]) == if IsDigit(c) then [c] else []
  {
    assert [c][1..] == [];
  }

  /** Keeping the digits of a concatenation keeps those of each part, in order. */
  lemma {:induction false} KeepDigitsAppend(a: string, b: string)
    ensures KeepDigits(a + b) == KeepDigits(a) + KeepDigits(b)
    decreases |a|
  {
    if a != [] {
      assert (a + b)[1..] == a[1..] + b;
      KeepDigitsAppend(a[1..], b);
    } else {
      assert a + b == b;
    }
  }

  /** `replace(/^0+/, '')`: drops the leading zeros. */
  function StripLeadingZeros(s: string): (r: string)
    ensures |r| <= |s| && r == s[|s| - |r|..]
    ensures r == [] || r[0] != '0'
    ensures forall i :: 0 <= i < |s| - |r| ==> s[i] == '0'
    ensures AllDigits(s) ==> AllDigits(r)
  {
    if s != [] && s[0] == '0' then StripLeadingZeros(s[1..]) else s
  }

  /** Brazil's country calling code. */
  const CountryCode := "55"

  /**
   * `normPhoneToBR55`: the digits of `raw`; kept as they are when they already
   * start with the country code, otherwise without leading zeros and with the
   * country code in front. Empty exactly when `raw` has no digit.
   */
  function NormPhoneToBR55(raw: string): (r: string)
    ensures AllDigits(r)
    ensures r == [] <==> !HasDigit(raw)
    ensures r != [] ==> StartsWith(r, CountryCode)
    ensures StartsWith(KeepDigits(raw), CountryCode) ==> r == KeepDigits(raw)
  {
    var digits := KeepDigits(raw);
    if digits == [] then ""
    else if StartsWith(digits, CountryCode) then digits
    else
      var local := StripLeadingZeros(digits);
      CountryCode + local
  }

  /**
   * Digits that do not start with the country code lose their leading zeros,
   * and only those, and get the country code in front.
   */
  lemma NormPhoneStripsLeadingZeros(raw: string)
    requires HasDigit(raw) && !StartsWith(KeepDigits(raw), CountryCode)
    ensures exists k ::
              && 0 <= k <= |KeepDigits(raw)|
              && NormPhoneToBR55(raw) == CountryCode + KeepDigits(raw)[k..]
              && (forall j :: 0 <= j < k ==> KeepDigits(raw)[j] == '0')
              && (k == |KeepDigits(raw)| || KeepDigits(raw)[k] != '0')
  {
    var digits := KeepDigits(raw);
    var local := StripLeadingZeros(digits);
    var k := |digits| - |local|;
    assert NormPhoneToBR55(raw) == CountryCode + digits[k..];
    assert k == |digits| || digits[k] != '0';
  }

  /** Normalising a normalised number changes nothing. */
  lemma NormPhoneIdempotent(raw: string)
    ensures NormPhoneToBR55(NormPhoneToBR55(raw)) == NormPhoneToBR55(raw)
  {
    var r := NormPhoneToBR55(raw);
    if r != [] {
      assert KeepDigits(r) == r;
    }
  }

  // ----- the inbound message and its filter -----

  /** whatsapp-web.js's `msg.id`: `_serialized` and the short `id`; an empty string is absent. */
  datatype MessageId = MessageId(serialized: string, short: string)

  /** The fields of an inbound whatsapp-web.js message that the gateway reads. */
  datatype IncomingMessage = IncomingMessage(
    from: Option<string>,
    fromMe: bool,
    kind: Option<string>,
    body: Option<string>,
    id: Option<MessageId>)

  const GroupSuffix := "@g.us"
  const ContactSuffix := "@c.us"
  const ChatKind := "chat"

  /** `message?.id?.id || message?.id?._serialized || null`: the short id is preferred. */
  function MessageIdOf(m: IncomingMessage): (id: Option<string>)
    ensures id.Some? ==> id.value != []
    ensures id.None? <==> m.id.None? || (m.id.value.short == [] && m.id.value.serialized == [])
    ensures m.id.Some? && m.id.value.short != [] ==> id == Some(m.id.value.short)
    ensures id.Some? ==> id.value == m.id.value.short || id.value == m.id.value.serialized
  {
    if m.id.None? then None
    else if m.id.value.short != [] then Some(m.id.value.short)
    else if m.id.value.serialized != [] then Some(m.id.value.serialized)
    else None
  }

  /** `String(message?.type || 'chat')`: a missing or empty type reads as a chat. */
  function KindOf(m: IncomingMessage): string {
    if m.kind.None? || m.kind.value == [] then ChatKind else m.kind.value
  }

  datatype Admission =
    | Ignored
    | Admitted(from: string, fromNumber: string, text: string, messageId: Option<string>)

  /**
   * The filter at the head of `processIncomingMessage`: own messages, group
   * messages and non-chat messages are ignored, and so are those whose sender
   * number (the sender without its first `@c.us`) or trimmed body is empty.
   */
  function Admit(m: IncomingMessage): (a: Admission)
    ensures a.Admitted? <==>
      && !m.fromMe
      && !EndsWith(m.from.GetOr(""), GroupSuffix)
      && (m.kind.None? || m.kind.value in {"", ChatKind})
      && RemoveFirst(m.from.GetOr(""), ContactSuffix) != []
      && Trim(m.body.GetOr("")) != []
    ensures a.Admitted? ==>
      && a.from == m.from.GetOr("")
      && a.fromNumber == RemoveFirst(a.from, ContactSuffix)
      && a.text == Trim(m.body.GetOr(""))
      && a.messageId == MessageIdOf(m)
  {
    var from := m.from.GetOr("");
    if m.fromMe || EndsWith(from, GroupSuffix) || KindOf(m) != ChatKind then Ignored
    else
      var fromNumber := RemoveFirst(from, ContactSuffix);
      var text := Trim(m.body.GetOr(""));
      if fromNumber == [] || text == [] then Ignored
      else Admitted(from, fromNumber, text, MessageIdOf(m))
  }

  /**
   * An ordinary one-to-one chat message from `number@c.us` (a number with no
   * `@`) with some non-blank body is admitted, and its sender number is
   * `number`.
   */
  lemma {:induction false} AdmitContactMessage(m: IncomingMessage, number: string)
    requires m.from == Some(number + ContactSuffix) && number != [] && '@' !in number
    requires !m.fromMe && (m.kind.None? || m.kind == Some(ChatKind))
    requires m.body.Some? && Trim(m.body.value) != []
    ensures Admit(m) == Admitted(number + ContactSuffix, number, Trim(m.body.value), MessageIdOf(m))
  {
    var from := number + ContactSuffix;
    assert RemoveFirst(from, ContactSuffix) == number by {
      RemoveFirstAfter(number, ContactSuffix, "");
      assert number + ContactSuffix + "" == from;
      assert number + "" == number;
    }
    assert !EndsWith(from, GroupSuffix) by {
      assert from[|from| - |GroupSuffix|..] == ContactSuffix;
      assert ContactSuffix[1] != GroupSuffix[1];
    }
    assert KindOf(m) == ChatKind;
  }

  // ----- getAIResponse -----

  /** What the assistant call came to: not attempted, threw, or an HTTP answer with the JSON `reply`. */
  datatype AiOutcome =
    | NotConfigured
    | Threw
    | Responded(status: int, reply: Option<string>)

  /** `response.ok`. */
  predicate IsOk(status: int) {
    200 <= status <= 299
  }

  const NotConfiguredReply := "Desculpe, configuração incorreta. Entre em contato com o suporte."
  const RateLimitedReply := "Desculpe, estamos com muitas requisições no momento. Tente novamente em alguns minutos."
  const PaymentRequiredReply := "Desculpe, sistema temporariamente indisponível. Entre em contato com a clínica."
  const ApiErrorReply := "Desculpe, tive um problema ao processar sua mensagem. Tente novamente."
  const NoReplyReply := "Desculpe, não consegui gerar uma resposta."
  const ExceptionReply := "Desculpe, estou com dificuldades técnicas. Tente novamente mais tarde."

  const Fallbacks: set<string> :=
    {NotConfiguredReply, RateLimitedReply, PaymentRequiredReply, ApiErrorReply, NoReplyReply, ExceptionReply}

  /**
   * `getAIResponse`: the assistant's reply when the call succeeded with a
   * non-empty one, and a fixed fallback text in every other case; never empty.
   */
  function GetAiResponse(o: AiOutcome): (reply: string)
    ensures reply != []
    ensures reply in Fallbacks || (o.Responded? && IsOk(o.status) && o.reply == Some(reply))
    ensures o.Responded? && IsOk(o.status) && o.reply.Some? && o.reply.value != [] ==> reply == o.reply.value
  {
    match o
    case NotConfigured => NotConfiguredReply
    case Threw => ExceptionReply
    case Responded(status, reply) =>
      if !IsOk(status) then
        if status == 429 then RateLimitedReply
        else if status == 402 then PaymentRequiredReply
        else ApiErrorReply
      else if reply.None? || reply.value == [] then NoReplyReply
      else reply.value
  }

  // ----- saveMessage and processIncomingMessage -----

  /** What `upsertConversationGetId` came to: an id, no id, or a thrown error. */
  datatype Conversation = ConversationId(id: string) | NoConversation | ConversationFailed

  /** The outcomes of the Supabase calls made by one `saveMessage`. */
  datatype SaveOutcome = SaveOutcome(conversation: Conversation, insertOk: bool)

  /** The outcomes of every external call `processIncomingMessage` may make. */
  datatype Collaborators = Collaborators(received: SaveOutcome, ai: AiOutcome, sendOk: bool, sent: SaveOutcome)

  /** An external call, in the order it is made. */
  datatype Effect =
    | UpsertConversation(clinicId: string, phone: string)
    | InsertMessage(clinicId: string, conversationId: string, kind: string, content: string, whatsappId: Option<string>)
    | AskAssistant(clinicId: string, phone: string, text: string)
    | SendMessage(to: string, text: string)

  const ReceivedKind := "received"
  const SentKind := "sent"

  predicate ConversationObtained(c: Conversation) {
    c.ConversationId? && c.id != []
  }

  /** The calls one `saveMessage` makes. */
  function SaveEffects(clinicId: string, phoneRaw: string, content: string, kind: string, whatsappId: Option<string>, outcome: SaveOutcome): (r: seq<Effect>)
    ensures forall e :: e in r ==> e.UpsertConversation? || e.InsertMessage?
  {
    var phone := NormPhoneToBR55(phoneRaw);
    if phone == [] then []
    else
      [UpsertConversation(clinicId, phone)]
      + if ConversationObtained(outcome.conversation)
        then [InsertMessage(clinicId, outcome.conversation.id, kind, content, whatsappId)]
        else []
  }

  /** The call `getAIResponse` makes: none when the endpoint is not configured. */
  function AskEffects(clinicId: string, phoneRaw: string, text: string, ai: AiOutcome): seq<Effect> {
    if ai.NotConfigured? then [] else [AskAssistant(clinicId, NormPhoneToBR55(phoneRaw), text)]
  }

  /** The number of messages sent to the chat in a trace. */
  function CountSends(effects: seq<Effect>): nat {
    if effects == [] then 0
    else (if effects[0].SendMessage? then 1 else 0) + CountSends(effects[1..])
  }

  lemma {:induction false} CountSendsAppend(xs: seq<Effect>, ys: seq<Effect>)
    ensures CountSends(xs + ys) == CountSends(xs) + CountSends(ys)
  {
    if xs == [] {
      assert xs + ys == ys;
    } else {
      assert (xs + ys)[1..] == xs[1..] + ys;
      CountSendsAppend(xs[1..], ys);
    }
  }

  /** A trace without a send counts none. */
  lemma {:induction false} NoSends(effects: seq<Effect>)
    requires forall e :: e in effects ==> !e.SendMessage?
    ensures CountSends(effects) == 0
  {
    if effects != [] {
      assert effects[0] in effects;
      assert forall e :: e in effects[1..] ==> e in effects;
      NoSends(effects[1..]);
    }
  }

  /** A trace with one send between calls that send nothing counts one send. */
  lemma OneSendBetween(logged: seq<Effect>, asked: seq<Effect>, to: string, text: string, saved: seq<Effect>)
    requires forall e :: e in logged ==> !e.SendMessage?
    requires forall e :: e in asked ==> !e.SendMessage?
    requires forall e :: e in saved ==> !e.SendMessage?
    ensures CountSends(logged + asked + [SendMessage(to, text)] + saved) == 1
  {
    var sendCall := [SendMessage(to, text)];
    NoSends(logged);
    NoSends(asked);
    NoSends(saved);
    assert CountSends(sendCall) == 1 by { assert sendCall[1..] == []; }
    CountSendsAppend(logged, asked);
    CountSendsAppend(logged + asked, sendCall);
    CountSendsAppend(logged + asked + sendCall, saved);
  }

  /**
   * `saveMessage`: never throws; reports success exactly when the phone
   * normalises to something, a conversation id is obtained and the insert
   * succeeds.
   */
  method SaveMessage(clinicId: string, phoneRaw: string, content: string, kind: string, whatsappId: Option<string>, outcome: SaveOutcome)
    returns (saved: bool, effects: seq<Effect>)
    ensures saved <==> NormPhoneToBR55(phoneRaw) != [] && ConversationObtained(outcome.conversation) && outcome.insertOk
    ensures saved ==> InsertMessage(clinicId, outcome.conversation.id, kind, content, whatsappId) in effects
    ensures effects == SaveEffects(clinicId, phoneRaw, content, kind, whatsappId, outcome)
  {
    var phone := NormPhoneToBR55(phoneRaw);
    if phone == [] {
      // 'Telefone inválido' is thrown and caught by the same function
      return false, [];
    }
    effects := [UpsertConversation(clinicId, phone)];
    if !ConversationObtained(outcome.conversation) {
      return false, effects;
    }
    effects := effects + [InsertMessage(clinicId, outcome.conversation.id, kind, content, whatsappId)];
    saved := outcome.insertOk;
  }

  /**
   * `processIncomingMessage`: ignores what the filter rejects without any call;
   * otherwise logs the message, asks the assistant, sends its (never empty)
   * reply once, and logs the reply only if the send went through. It reports
   * true exactly when the reply was sent; no failure escapes it.
   */
  method ProcessIncomingMessage(clinicId: string, m: IncomingMessage, c: Collaborators)
    returns (delivered: bool, effects: seq<Effect>)
    ensures delivered <==> Admit(m).Admitted? && c.sendOk
    ensures Admit(m).Ignored? ==> effects == []
    ensures CountSends(effects) == if Admit(m).Admitted? then 1 else 0
    ensures Admit(m).Admitted? ==> SendMessage(Admit(m).from, GetAiResponse(c.ai)) in effects
    ensures Admit(m).Admitted? ==> effects == AdmittedTrace(clinicId, Admit(m), c)
  {
    var a := Admit(m);
    if a.Ignored? {
      return false, [];
    }
    delivered, effects := AnswerAdmitted(clinicId, a, c);
    AdmittedTraceSendsOnce(clinicId, a, c);
  }

  /**
   * The calls made for an admitted message: log it, ask the assistant, send
   * the reply to the sender, and log the reply only if the send succeeded.
   */
  function AdmittedTrace(clinicId: string, a: Admission, c: Collaborators): seq<Effect>
    requires a.Admitted?
  {
    var reply := GetAiResponse(c.ai);
    SaveEffects(clinicId, a.fromNumber, a.text, ReceivedKind, a.messageId, c.received)
    + AskEffects(clinicId, a.fromNumber, a.text, c.ai)
    + [SendMessage(a.from, reply)]
    + (if c.sendOk then SaveEffects(clinicId, a.fromNumber, reply, SentKind, None, c.sent) else [])
  }

  /** The admitted path sends the assistant's reply to the sender, and sends nothing else. */
  lemma AdmittedTraceSendsOnce(clinicId: string, a: Admission, c: Collaborators)
    requires a.Admitted?
    ensures CountSends(AdmittedTrace(clinicId, a, c)) == 1
    ensures SendMessage(a.from, GetAiResponse(c.ai)) in AdmittedTrace(clinicId, a, c)
  {
    var reply := GetAiResponse(c.ai);
    var logged := SaveEffects(clinicId, a.fromNumber, a.text, ReceivedKind, a.messageId, c.received);
    var asked := AskEffects(clinicId, a.fromNumber, a.text, c.ai);
    var saved := if c.sendOk then SaveEffects(clinicId, a.fromNumber, reply, SentKind, None, c.sent) else [];
    var trace := logged + asked + [SendMessage(a.from, reply)] + saved;
    assert AdmittedTrace(clinicId, a, c) == trace;
    OneSendBetween(logged, asked, a.from, reply, saved);
    assert trace[|logged| + |asked|] == SendMessage(a.from, reply);
  }

  /**
   * The body of `processIncomingMessage` after the filter: it reports the
   * outcome of the send, and makes the calls of `AdmittedTrace`.
   */
  method AnswerAdmitted(clinicId: string, a: Admission, c: Collaborators)
    returns (delivered: bool, effects: seq<Effect>)
    requires a.Admitted?
    ensures delivered == c.sendOk
    ensures effects == AdmittedTrace(clinicId, a, c)
  {
    var _, logged := SaveMessage(clinicId, a.fromNumber, a.text, ReceivedKind, a.messageId, c.received);
    var asked := AskEffects(clinicId, a.fromNumber, a.text, c.ai);
    var reply := GetAiResponse(c.ai);
    // the empty-reply guard of the source never fires
    assert reply != [];
    var saved: seq<Effect> := [];
    if c.sendOk {
      var _, s := SaveMessage(clinicId, a.fromNumber, reply, SentKind, None, c.sent);
      saved := s;
    }
    effects := logged + asked + [SendMessage(a.from, reply)] + saved;
    delivered := c.sendOk;
  }
}
