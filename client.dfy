/** The session wrapper of src/client.js: the three fields of WhatsAppClient,
    the four lifecycle signals that change them, teardown, the readiness guard
    in front of every send, the media payloads it builds and the chat
    identifier it derives from a phone number.

    The whatsapp-web.js Client object is an opaque Handle. What the wrapper
    asks of it (start, sendMessage, destroy) is recorded in a ghost log, and
    what it answers is handed to the methods as a parameter. */
module Client {
  import opened Wrappers

  const ChatSuffix: string := "@c.us"
  const DefaultMimetype: string := "image/jpeg"
  const DefaultTimeoutMs: nat := 60000
  const NotInitializedError: string := "Client not initialized. Call initialize() first."
  const NotReadyError: string := "Client is not ready. Wait for authentication."

  /** An opaque reference to one whatsapp-web.js Client object. */
  datatype Handle = Handle(id: nat)

  /** The fields `client`, `isReady` and `isAuthenticated`, as a value. */
  datatype SessionState = SessionState(client: Option<Handle>, isReady: bool, isAuthenticated: bool)

  /** What the constructor and a completed teardown leave behind. */
  const Initial: SessionState := SessionState(None, false, false)

  /** The lifecycle signals the external client emits. */
  datatype Event =
    | Qr(code: string)
    | Ready
    | AuthFailure(message: string)
    | Disconnected(reason: string)

  /** `isClientReady()`, read as a condition: the ready flag is set and a
      handle is present. */
  predicate ClientReady(s: SessionState)
  {
    s.isReady && s.client.Some?
  }

  /** The callback registered for `e`, applied to the fields. */
  function Step(s: SessionState, e: Event): (t: SessionState)
    ensures t.client == s.client
  {
    match e
    case Qr(_) => s
    case Ready => s.(isReady := true, isAuthenticated := true)
    case AuthFailure(_) => s.(isAuthenticated := false)
    case Disconnected(_) => s.(isReady := false)
  }

  /** The fields after the callbacks for `es` have run, in order. */
  function Run(s: SessionState, es: seq<Event>): SessionState
    decreases |es|
  {
    if es == [] then s else Run(Step(s, es[0]), es[1..])
  }

  /** The most recent readiness signal in `es` (Ready sets, Disconnected
      clears), or `init` when there is none. */
  function LastReadySignal(es: seq<Event>, init: bool): bool
    decreases |es|
  {
    if es == [] then init
    else
      var e := es[|es| - 1];
      if e.Ready? then true
      else if e.Disconnected? then false
      else LastReadySignal(es[..|es| - 1], init)
  }

  /** The most recent authentication signal in `es` (Ready sets,
      AuthFailure clears), or `init` when there is none. */
  function LastAuthSignal(es: seq<Event>, init: bool): bool
    decreases |es|
  {
    if es == [] then init
    else
      var e := es[|es| - 1];
      if e.Ready? then true
      else if e.AuthFailure? then false
      else LastAuthSignal(es[..|es| - 1], init)
  }

  lemma {:induction false} RunSnoc(s: SessionState, es: seq<Event>, e: Event)
    ensures Run(s, es + [e]) == Step(Run(s, es), e)
    decreases |es|
  {
    if es == [] {
      assert es + [e] == [e];
    } else {
      assert (es + [e])[0] == es[0];
      assert (es + [e])[1..] == es[1..] + [e];
      RunSnoc(Step(s, es[0]), es[1..], e);
    }
  }

  /** No lifecycle signal replaces or clears the handle. */
  lemma {:induction false} RunKeepsHandle(s: SessionState, es: seq<Event>)
    ensures Run(s, es).client == s.client
    decreases |es|
  {
    if es != [] {
      RunKeepsHandle(Step(s, es[0]), es[1..]);
    }
  }

  /** Each flag holds the value its most recent signal gave it. */
  lemma {:induction false} RunFlags(s: SessionState, es: seq<Event>)
    ensures Run(s, es).isReady == LastReadySignal(es, s.isReady)
    ensures Run(s, es).isAuthenticated == LastAuthSignal(es, s.isAuthenticated)
    decreases |es|
  {
    if es != [] {
      var init, e := es[..|es| - 1], es[|es| - 1];
      assert init + [e] == es;
      RunSnoc(s, init, e);
      RunFlags(s, init);
    }
  }

  /** After a run of signals the client is ready exactly when it has a handle
      and the most recent of Ready and Disconnected was Ready. */
  lemma ReadyAfterSignals(s: SessionState, es: seq<Event>)
    ensures ClientReady(Run(s, es)) <==> s.client.Some? && LastReadySignal(es, s.isReady)
  {
    RunKeepsHandle(s, es);
    RunFlags(s, es);
  }

  /** Starting from the constructor's state, nothing can make the client
      ready: without a handle the guard stays closed whatever is signalled. */
  lemma NeverReadyWithoutHandle(es: seq<Event>)
    ensures !ClientReady(Run(Initial, es))
  {
    RunKeepsHandle(Initial, es);
  }

  /** `destroy()` once the external teardown has completed: with a handle
      everything is reset; without one nothing happens at all. */
  function Destroyed(s: SessionState): (t: SessionState)
    ensures t.client.None? && !ClientReady(t)
    ensures s.client.None? ==> t == s
  {
    if s.client.Some? then Initial else s
  }

  /** A second `destroy()` changes nothing and asks nothing of the external
      client. */
  lemma DestroyTwice(s: SessionState)
    ensures Destroyed(Destroyed(s)) == Destroyed(s)
    ensures DestroyCalls(Destroyed(s)) == []
  {
  }

  // ---- the external client's side ----------------------------------------

  /** A media payload (MessageMedia): mimetype, base64 data, optional filename
      and optional caption. */
  datatype Media = Media(mimetype: string, data: string, filename: Option<string>, caption: Option<string>)

  /** What sendMessage is given: the text itself, or a media payload. */
  datatype Payload = Text(body: string) | MediaMessage(media: Media)

  /** One request made of the external client. */
  datatype ExternalCall =
    | StartCall(client: Handle)
    | SendMessageCall(client: Handle, chatId: string, payload: Payload)
    | DestroyCall(client: Handle)

  /** The message sendMessage resolves with; `id` stands for `id._serialized`. */
  datatype Message = Message(id: string)

  /** What the external sendMessage does: resolve with a message or reject. */
  type SendReply = Result<Message, string>

  /** The external calls `destroy()` makes in state `s`. */
  function DestroyCalls(s: SessionState): (calls: seq<ExternalCall>)
    ensures |calls| <= 1
    ensures calls != [] <==> s.client.Some?
  {
    if s.client.Some? then [DestroyCall(s.client.value)] else []
  }

  /** The caption assignment guarded by `if (caption)`: an empty caption
      leaves the payload as it was. */
  function WithCaption(m: Media, caption: string): (r: Media)
    ensures r.mimetype == m.mimetype && r.data == m.data && r.filename == m.filename
    ensures caption != "" ==> r.caption == Some(caption)
    ensures caption == "" ==> r == m
  {
    if caption != "" then m.(caption := Some(caption)) else m
  }

  /** The payload `sendMediaBase64` builds: `new MessageMedia(mimetype,
      base64Data, filename)`, then the caption when it is non-empty. */
  function Base64Media(base64Data: string, caption: string, mimetype: string, filename: Option<string>): (m: Media)
    ensures m.mimetype == mimetype && m.data == base64Data && m.filename == filename
    ensures m.caption.Some? <==> caption != ""
    ensures m.caption.Some? ==> m.caption.value == caption
  {
    WithCaption(Media(mimetype, base64Data, filename, None), caption)
  }

  // ---- getChatId ---------------------------------------------------------

  /** A character the pattern `\d` matches (JavaScript, no `u` flag). */
  predicate IsDigit(c: char)
  {
    '0' <= c <= '9'
  }

  predicate AllDigits(s: string)
  {
    forall i :: 0 <= i < |s| ==> IsDigit(s[i])
  }

  /** `s.replace(/\D/g, '')`: the digits of `s`, in order. */
  function Digits(s: string): (d: string)
    ensures |d| <= |s|
    ensures AllDigits(d)
    decreases |s|
  {
    if s == [] then []
    else (if IsDigit(s[0]) then [s[0]] else []) + Digits(s[1..])
  }

  /** The number of digit characters in `s`, counted from the end. */
  function DigitCount(s: string): nat
    decreases |s|
  {
    if s == [] then 0
    else DigitCount(s[..|s| - 1]) + (if IsDigit(s[|s| - 1]) then 1 else 0)
  }

  lemma {:induction false} DigitsAppend(a: string, b: string)
    ensures Digits(a + b) == Digits(a) + Digits(b)
    decreases |a|
  {
    if a == [] {
      assert a + b == b;
    } else {
      assert (a + b)[0] == a[0];
      assert (a + b)[1..] == a[1..] + b;
      DigitsAppend(a[1..], b);
    }
  }

  /** Only the digits are kept, every one of them. */
  lemma {:induction false} DigitsLength(s: string)
    ensures |Digits(s)| == DigitCount(s)
    decreases |s|
  {
    if s != [] {
      var init, last := s[..|s| - 1], s[|s| - 1];
      assert s == init + [last];
      DigitsAppend(init, [last]);
      DigitsLength(init);
    }
  }

  /** A character survives exactly when it occurs in `s` and is a digit. */
  lemma {:induction false} DigitsMembership(s: string, c: char)
    ensures c in Digits(s) <==> c in s && IsDigit(c)
    decreases |s|
  {
    if s != [] {
      DigitsMembership(s[1..], c);
      assert s == [s[0]] + s[1..];
    }
  }

  /** A string of digits only is left as it is. */
  lemma {:induction false} DigitsOfDigits(s: string)
    requires AllDigits(s)
    ensures Digits(s) == s
    decreases |s|
  {
    if s != [] {
      DigitsOfDigits(s[1..]);
      assert s == [s[0]] + s[1..];
    }
  }

  /** `getChatId(phoneNumber)`: the digits of the phone number, then "@c.us". */
  function GetChatId(phoneNumber: string): (r: string)
    ensures |r| == DigitCount(phoneNumber) + |ChatSuffix|
    ensures r[..|r| - |ChatSuffix|] == Digits(phoneNumber)
    ensures AllDigits(r[..|r| - |ChatSuffix|])
    ensures r[|r| - |ChatSuffix|..] == ChatSuffix
  {
    DigitsLength(phoneNumber);
    var r := Digits(phoneNumber) + ChatSuffix;
    assert r[..|r| - |ChatSuffix|] == Digits(phoneNumber);
    r
  }

  /** A chat identifier is its own chat identifier: the suffix has no digits. */
  lemma GetChatIdIdempotent(phoneNumber: string)
    ensures GetChatId(GetChatId(phoneNumber)) == GetChatId(phoneNumber)
  {
    var d := Digits(phoneNumber);
    assert Digits(ChatSuffix) == [];
    DigitsAppend(d, ChatSuffix);
    DigitsOfDigits(d);
  }

  // ---- isClientReady as JavaScript evaluates it ---------------------------

  /** The values `this.isReady && this.client` can evaluate to. */
  datatype JsValue = JsBool(b: bool) | JsNull | JsClient(client: Handle)

  predicate JsTruthy(v: JsValue)
  {
    match v
    case JsBool(b) => b
    case JsNull => false
    case JsClient(_) => true
  }

  /** `isClientReady()` as written: `false` when the flag is clear, otherwise
      the handle itself, which is `null` when there is none. */
  function IsClientReadyValue(s: SessionState): (v: JsValue)
    ensures JsTruthy(v) <==> ClientReady(s)
    ensures v.JsBool? ==> !s.isReady
  {
    if !s.isReady then JsBool(false)
    else match s.client
      case None => JsNull
      case Some(h) => JsClient(h)
  }

  // ---- the WhatsAppClient object -----------------------------------------

  /** How `waitForReady` begins: at once when ready, otherwise by polling
      until the timeout. */
  datatype Wait = ResolvedNow | Polling(timeoutMs: int)

  class WhatsAppClient {
    var client: Option<Handle>
    var isReady: bool
    var isAuthenticated: bool
    /** Every request made of the external client, oldest first. */
    ghost var calls: seq<ExternalCall>

    function State(): SessionState
      reads this
    {
      SessionState(client, isReady, isAuthenticated)
    }

    constructor ()
      ensures State() == Initial && calls == []
    {
      client := None;
      isReady := false;
      isAuthenticated := false;
      calls := [];
    }

    /** `initialize()`: the handle is stored before the external start is
        awaited, so it stays stored when the start rejects. `started` is the
        outcome of `client.initialize()`. */
    method Initialize(h: Handle, started: Outcome<string>) returns (r: Result<Handle, string>)
      modifies this`client, this`calls
      ensures client == Some(h)
      ensures isReady == old(isReady) && isAuthenticated == old(isAuthenticated)
      ensures calls == old(calls) + [StartCall(h)]
      ensures r == if started.Pass? then Success(h) else Failure(started.error)
    {
      client := Some(h);
      calls := calls + [StartCall(h)];
      if started.Fail? {
        return Failure(started.error);
      }
      r := Success(h);
    }

    /** The callback registered for `e` in `initialize()`. */
    method OnEvent(e: Event)
      modifies this`isReady, this`isAuthenticated
      ensures State() == Step(old(State()), e)
      ensures client == old(client) && calls == old(calls)
      ensures e.Qr? ==> State() == old(State())
      ensures e.Ready? ==> isReady && isAuthenticated
      ensures e.AuthFailure? ==> !isAuthenticated && isReady == old(isReady)
      ensures e.Disconnected? ==> !isReady && isAuthenticated == old(isAuthenticated)
    {
      match e
      case Qr(_) =>
      case Ready =>
        isReady := true;
        isAuthenticated := true;
      case AuthFailure(_) =>
        isAuthenticated := false;
      case Disconnected(_) =>
        isReady := false;
    }

    /** `getClient()`: the handle, or the not-initialized error. */
    function GetClient(): (r: Result<Handle, string>)
      reads this
      ensures r.Failure? <==> client.None?
      ensures r.Failure? ==> r.error == NotInitializedError
      ensures r.Success? ==> client == Some(r.value)
    {
      match client
      case None => Failure(NotInitializedError)
      case Some(h) => Success(h)
    }

    /** `isClientReady()`, taken as the condition the send guards test. */
    function IsClientReady(): (ready: bool)
      reads this
      ensures ready <==> isReady && client.Some?
      ensures ready <==> JsTruthy(IsClientReadyValue(State()))
    {
      ClientReady(State())
    }

    /** `sendTextMessage(chatId, message)`; `delivered` is what the external
        sendMessage answers. */
    method SendTextMessage(chatId: string, message: string, delivered: SendReply) returns (r: SendReply)
      modifies this`calls
      ensures !IsClientReady() ==> r == Failure(NotReadyError) && calls == old(calls)
      ensures IsClientReady() ==> r == delivered
      ensures IsClientReady() ==> calls == old(calls) + [SendMessageCall(client.value, chatId, Text(message))]
    {
      if !IsClientReady() {
        return Failure(NotReadyError);
      }
      calls := calls + [SendMessageCall(client.value, chatId, Text(message))];
      r := delivered;
    }

    /** `sendMedia(chatId, filePath, caption)`; `loaded` is what
        `MessageMedia.fromFilePath(filePath)` gives or throws, `delivered`
        what the external sendMessage answers. */
    method SendMedia(chatId: string, filePath: string, caption: string := "",
                     loaded: Result<Media, string>, delivered: SendReply) returns (r: SendReply)
      modifies this`calls
      ensures !IsClientReady() ==> r == Failure(NotReadyError) && calls == old(calls)
      ensures IsClientReady() && loaded.Failure? ==> r == Failure(loaded.error) && calls == old(calls)
      ensures IsClientReady() && loaded.Success? ==> r == delivered
      ensures IsClientReady() && loaded.Success? ==>
        calls == old(calls) + [SendMessageCall(client.value, chatId, MediaMessage(WithCaption(loaded.value, caption)))]
    {
      if !IsClientReady() {
        return Failure(NotReadyError);
      }
      if loaded.Failure? {
        return Failure(loaded.error);
      }
      var media := WithCaption(loaded.value, caption);
      calls := calls + [SendMessageCall(client.value, chatId, MediaMessage(media))];
      r := delivered;
    }

    /** `sendMediaBase64(chatId, base64Data, caption, mimetype, filename)`;
        `delivered` is what the external sendMessage answers. */
    method SendMediaBase64(chatId: string, base64Data: string, caption: string := "",
                           mimetype: string := DefaultMimetype, filename: Option<string> := None,
                           delivered: SendReply) returns (r: SendReply)
      modifies this`calls
      ensures !IsClientReady() ==> r == Failure(NotReadyError) && calls == old(calls)
      ensures IsClientReady() ==> r == delivered
      ensures IsClientReady() ==>
        calls == old(calls) + [SendMessageCall(client.value, chatId, MediaMessage(Base64Media(base64Data, caption, mimetype, filename)))]
    {
      if !IsClientReady() {
        return Failure(NotReadyError);
      }
      var media := Base64Media(base64Data, caption, mimetype, filename);
      calls := calls + [SendMessageCall(client.value, chatId, MediaMessage(media))];
      r := delivered;
    }

    /** The start of `waitForReady(timeoutMs)`. */
    method WaitForReady(timeoutMs: int := DefaultTimeoutMs) returns (w: Wait)
      ensures w.ResolvedNow? <==> IsClientReady()
      ensures w.Polling? ==> w.timeoutMs == timeoutMs
    {
      if IsClientReady() {
        return ResolvedNow;
      }
      w := Polling(timeoutMs);
    }

    /** `destroy()`; `closed` is the outcome of the external `destroy()`,
        which is awaited before any field is reset. */
    method Destroy(closed: Outcome<string>) returns (r: Outcome<string>)
      modifies this
      ensures calls == old(calls) + DestroyCalls(old(State()))
      ensures State() == if closed.Pass? then Destroyed(old(State())) else old(State())
      ensures r == if old(client).Some? then closed else Pass
    {
      if client.Some? {
        calls := calls + [DestroyCall(client.value)];
        if closed.Fail? {
          return closed;
        }
        client := None;
        isReady := false;
        isAuthenticated := false;
      }
      r := Pass;
    }
  }

  /** A caller's view: signals, a guarded send, and two teardowns. */
  method SessionScenario(h: Handle, reply: SendReply)
  {
    var c := new WhatsAppClient();
    var started := c.Initialize(h, Pass);
    assert started == Success(h);
    var early := c.SendTextMessage("1@c.us", "hi", delivered := reply);
    assert early == Failure(NotReadyError) && c.calls == [StartCall(h)];
    c.OnEvent(Ready);
    var wait := c.WaitForReady();
    assert wait == ResolvedNow;
    var sent := c.SendTextMessage("1@c.us", "hi", delivered := reply);
    assert sent == reply;
    c.OnEvent(Disconnected("LOGOUT"));
    assert c.client == Some(h) && !c.IsClientReady();
    var first := c.Destroy(Pass);
    var second := c.Destroy(Pass);
    assert second == Pass && c.State() == Initial;
    assert c.calls == [StartCall(h), SendMessageCall(h, "1@c.us", Text("hi")), DestroyCall(h)];
  }
}
