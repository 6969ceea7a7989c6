/** The HTTP side of src/server.js: the decision made by the `/webhook/send`
    handler and the body of `/health`. Express itself, the listening port,
    and the timestamps are not modelled; a reply is its status code and the
    fields of its JSON body. */
module Server {
  import opened Wrappers
  import opened Client

  const MissingFieldsError: string := "phoneNumber and message are required"
  const NotReadyHttpError: string := "WhatsApp client is not ready. Please wait for authentication."

  /** The fields read from the request body; `None` is an absent field. */
  datatype Request = Request(
    phoneNumber: Option<string>,
    message: Option<string>,
    imageBase64: Option<string>,
    caption: Option<string>)

  /** JavaScript truthiness of a string field: present and non-empty. */
  predicate Truthy(v: Option<string>)
  {
    v.Some? && v.value != ""
  }

  /** `v || fallback` for a string field. */
  function OrElse(v: Option<string>, fallback: string): (r: string)
    ensures Truthy(v) ==> r == v.value
    ensures !Truthy(v) ==> r == fallback
    ensures fallback != "" ==> r != ""
  {
    if Truthy(v) then v.value else fallback
  }

  /** The JSON body of a reply; `None` is a field the body does not carry. */
  datatype Body = Body(
    success: bool,
    messageId: Option<string>,
    chatId: Option<string>,
    error: Option<string>,
    ready: Option<bool>)

  datatype Reply = Reply(status: nat, body: Body)

  /** Which send operation of the client the handler invokes. */
  datatype SendCall =
    | SendTextCall(chatId: string, message: string)
    | SendMediaBase64Call(chatId: string, base64Data: string, caption: string)

  /** The reply, and the send the handler made on its way to it, if any. */
  datatype Handled = Handled(reply: Reply, send: Option<SendCall>)

  /** The payload the client hands to the external sendMessage for `call`;
      the media call leaves mimetype and filename at their defaults. */
  function PayloadOf(call: SendCall): Payload
  {
    match call
    case SendTextCall(_, message) => Text(message)
    case SendMediaBase64Call(_, data, caption) => MediaMessage(Base64Media(data, caption, DefaultMimetype, None))
  }

  /** The `/webhook/send` handler. `ready` is `isClientReady()` when the
      request arrives; `delivered` is how the send resolves when one is made. */
  function HandleSend(req: Request, ready: bool, delivered: SendReply): (h: Handled)
    // validation comes first, whatever the readiness
    ensures !(Truthy(req.phoneNumber) && Truthy(req.message)) ==>
      h == Handled(Reply(400, Body(false, None, None, Some(MissingFieldsError), None)), None)
    // then readiness
    ensures Truthy(req.phoneNumber) && Truthy(req.message) && !ready ==>
      h == Handled(Reply(503, Body(false, None, None, Some(NotReadyHttpError), Some(false))), None)
    // exactly one send exactly when both checks pass
    ensures h.send.Some? <==> Truthy(req.phoneNumber) && Truthy(req.message) && ready
    ensures h.send.Some? && Truthy(req.imageBase64) ==>
      h.send.value == SendMediaBase64Call(GetChatId(req.phoneNumber.value), req.imageBase64.value,
                                          OrElse(req.caption, req.message.value))
    ensures h.send.Some? && !Truthy(req.imageBase64) ==>
      h.send.value == SendTextCall(GetChatId(req.phoneNumber.value), req.message.value)
    // how the send resolved decides the reply
    ensures h.send.Some? && delivered.Success? ==>
      h.reply == Reply(200, Body(true, Some(delivered.value.id), Some(GetChatId(req.phoneNumber.value)), None, None))
    ensures h.send.Some? && delivered.Failure? ==>
      h.reply == Reply(500, Body(false, None, None, Some(delivered.error), None))
    ensures h.reply.body.success <==> h.reply.status == 200
  {
    if !Truthy(req.phoneNumber) || !Truthy(req.message) then
      Handled(Reply(400, Body(false, None, None, Some(MissingFieldsError), None)), None)
    else if !ready then
      Handled(Reply(503, Body(false, None, None, Some(NotReadyHttpError), Some(false))), None)
    else
      var chatId := GetChatId(req.phoneNumber.value);
      var call :=
        if Truthy(req.imageBase64) then
          SendMediaBase64Call(chatId, req.imageBase64.value, OrElse(req.caption, req.message.value))
        else
          SendTextCall(chatId, req.message.value);
      match delivered
      case Success(msg) => Handled(Reply(200, Body(true, Some(msg.id), Some(chatId), None, None)), Some(call))
      case Failure(e) => Handled(Reply(500, Body(false, None, None, Some(e), None)), Some(call))
  }

  /** A rejected request does not depend on readiness or on any send. */
  lemma RejectionIgnoresSend(req: Request, ready1: bool, ready2: bool, d1: SendReply, d2: SendReply)
    requires !(Truthy(req.phoneNumber) && Truthy(req.message))
    ensures HandleSend(req, ready1, d1) == HandleSend(req, ready2, d2)
  {
  }

  /** Every media payload the handler causes carries a caption: the message
      itself when no caption is given, since the message cannot be empty. */
  lemma WebhookMediaIsCaptioned(req: Request, ready: bool, delivered: SendReply)
    requires HandleSend(req, ready, delivered).send.Some?
    requires Truthy(req.imageBase64)
    ensures PayloadOf(HandleSend(req, ready, delivered).send.value).MediaMessage?
    ensures PayloadOf(HandleSend(req, ready, delivered).send.value).media.caption
            == Some(OrElse(req.caption, req.message.value))
    ensures PayloadOf(HandleSend(req, ready, delivered).send.value).media.mimetype == DefaultMimetype
  {
  }

  /** A successful reply names the chat identifier the send went to. */
  lemma WebhookRepliesWithSentChat(req: Request, ready: bool, delivered: SendReply)
    requires HandleSend(req, ready, delivered).reply.status == 200
    ensures HandleSend(req, ready, delivered).send.Some?
    ensures HandleSend(req, ready, delivered).reply.body.chatId == Some(HandleSend(req, ready, delivered).send.value.chatId)
  {
  }

  // ---- /health -----------------------------------------------------------

  /** The `/health` body with the readiness value the model uses. */
  datatype Health = Health(status: string, whatsappReady: bool)

  function HealthReply(s: SessionState): (h: Health)
    ensures h.status == "ok"
    ensures h.whatsappReady <==> s.isReady && s.client.Some?
  {
    Health("ok", ClientReady(s))
  }

  /** The `/health` body as written: `whatsappReady` is whatever
      `isClientReady()` evaluates to. */
  datatype HealthAsWritten = HealthAsWritten(status: string, whatsappReady: JsValue)

  function HealthReplyAsWritten(s: SessionState): (h: HealthAsWritten)
    ensures JsTruthy(h.whatsappReady) == HealthReply(s).whatsappReady
  {
    HealthAsWritten("ok", IsClientReadyValue(s))
  }

  /** When the client is ready, the body as written reports the client
      object itself, not `true`; `HealthReply` reports `true`. */
  lemma HealthAsWrittenNotBoolean(h: Handle, authenticated: bool)
    ensures HealthReplyAsWritten(SessionState(Some(h), true, authenticated)).whatsappReady == JsClient(h)
    ensures !HealthReplyAsWritten(SessionState(Some(h), true, authenticated)).whatsappReady.JsBool?
    ensures HealthReply(SessionState(Some(h), true, authenticated)).whatsappReady
  {
  }

  /** `whatsappReady` as written is a boolean exactly when the flag is clear. */
  lemma HealthAsWrittenBooleanIff(s: SessionState)
    ensures HealthReplyAsWritten(s).whatsappReady.JsBool? <==> !s.isReady
  {
  }
}
