/**
 * The Telegram endpoints (app/routes/api/telegram_routes.py): the guard
 * sequence of the webhook, its customer identifier, and the guard of the
 * manual send endpoint. Request bodies are `Json` values; the active
 * business, the agent's result and the delivery are parameters. A Python
 * exception that escapes a handler becomes Flask's 500 response.
 */
module TelegramRoutes {
  import opened Wrappers
  import opened Text
  import opened JsonValues
  import TelegramService
  import TelegramBot

  /** `request.get_json(...) or {}`: a missing or falsy body is an empty dict. */
  function BodyOrEmpty(body: Option<Json>): (r: Json)
    ensures body.Some? && Truthy(body.value) ==> r == body.value
    ensures body.None? || !Truthy(body.value) ==> r == JObj([])
  {
    if body.Some? && Truthy(body.value) then body.value else JObj([])
  }

  /**
   * `_build_customer_identifier` of the webhook: the sender's phone, else
   * `tg:` and the chat id, else `tg:` and the username, else `tg:unknown`.
   * None when a `from` or `chat` value that is not a dict makes `.get` raise.
   */
  /** The `from` value of a message, `{}` when absent. */
  function Sender(message: Json): Json
    requires message.JObj?
  {
    GetOr(message.fields, "from", JObj([]))
  }

  /** The sender's `phone_number`, None (JNull) when absent or when the sender is not a dict. */
  function SenderPhone(message: Json): Json
    requires message.JObj?
  {
    var user := Sender(message);
    if user.JObj? then GetOr(user.fields, "phone_number", JNull) else JNull
  }

  /** The sender's `username`, JNull when absent or when the sender is not a dict. */
  function SenderName(message: Json): Json
    requires message.JObj?
  {
    var user := Sender(message);
    if user.JObj? then GetOr(user.fields, "username", JNull) else JNull
  }

  /** The `chat` value of a message, `{}` when absent. */
  function Chat(message: Json): Json
    requires message.JObj?
  {
    GetOr(message.fields, "chat", JObj([]))
  }

  /** The chat's `id`, JNull when absent or when the chat is not a dict. */
  function ChatId(message: Json): Json
    requires message.JObj?
  {
    var chat := Chat(message);
    if chat.JObj? then GetOr(chat.fields, "id", JNull) else JNull
  }

  function CustomerIdentifier(message: Json, reprOf: Json -> string): (r: Option<Json>)
    requires message.JObj?
    ensures r.None? <==> !Sender(message).JObj? || (!Truthy(SenderPhone(message)) && !Chat(message).JObj?)
    ensures r.Some? ==> Truthy(r.value)
    ensures r.Some? && Truthy(SenderPhone(message)) ==> r.value == SenderPhone(message)
    ensures r.Some? && !Truthy(SenderPhone(message)) ==> r.value.JStr? && StartsWith(r.value.s, "tg:")
    ensures r.Some? && !Truthy(SenderPhone(message)) && Truthy(ChatId(message)) ==>
      r.value == JStr("tg:" + StrOf(ChatId(message), reprOf))
    ensures r.Some? && !Truthy(SenderPhone(message)) && !Truthy(ChatId(message)) && Truthy(SenderName(message)) ==>
      r.value == JStr("tg:" + StrOf(SenderName(message), reprOf))
    ensures r.Some? && !Truthy(SenderPhone(message)) && !Truthy(ChatId(message)) && !Truthy(SenderName(message)) ==>
      r.value == JStr("tg:unknown")
  {
    var user := Sender(message);
    if !user.JObj? then None
    else
      var phone := GetOr(user.fields, "phone_number", JNull);
      if Truthy(phone) then Some(phone)
      else
        var chat := Chat(message);
        if !chat.JObj? then None
        else
          var chatId := GetOr(chat.fields, "id", JNull);
          var username := GetOr(user.fields, "username", JNull);
          if Truthy(chatId) then Some(JStr("tg:" + StrOf(chatId, reprOf)))
          else if Truthy(username) then Some(JStr("tg:" + StrOf(username, reprOf)))
          else Some(JStr("tg:unknown"))
  }

  /** A message from a user with a username, in a chat with an id, without a phone. */
  function UserMessage(chatId: int, username: string): Json {
    JObj([("chat", JObj([("id", JInt(chatId))])), ("from", JObj([("username", JStr(username))]))])
  }

  /**
   * The webhook and the polling bot name the same sender differently: the
   * webhook prefers the chat id, the bot the username.
   */
  lemma IdentifiersDiverge(chatId: int, username: string, reprOf: Json -> string)
    requires chatId != 0 && username != "" && username != IntToString(chatId)
    ensures CustomerIdentifier(UserMessage(chatId, username), reprOf) == Some(JStr("tg:" + IntToString(chatId)))
    ensures TelegramBot.CustomerIdentifier(TelegramBot.BotMessage(chatId, Some(TelegramBot.BotUser(None, Some(username)))))
         == "tg:" + username
    ensures "tg:" + IntToString(chatId) != "tg:" + username
  {
    var m := UserMessage(chatId, username);
    GetAt(m.fields, 1, "from");
    GetAt(m.fields, 0, "chat");
    assert ("tg:" + username)[3..] == username;
    assert ("tg:" + IntToString(chatId))[3..] == IntToString(chatId);
  }

  /** The identifier stored for a chat gives back, through the client's lookup, that chat's id. */
  lemma ChatIdRecovered(message: Json, reprOf: Json -> string)
    requires message.JObj? && Sender(message).JObj?
    requires !Truthy(SenderPhone(message)) && Truthy(ChatId(message))
    ensures CustomerIdentifier(message, reprOf).Some?
    ensures TelegramService.CustomerIdentifier(Some(CustomerIdentifier(message, reprOf).value.s))
         == Some(StrOf(ChatId(message), reprOf))
  {
    var id := CustomerIdentifier(message, reprOf).value.s;
    assert id[3..] == StrOf(ChatId(message), reprOf);
  }

  /** What a webhook call did: its status code, and what it passed on. */
  datatype WebhookResult = WebhookResult(
    code: int,
    logged: bool,                    // `process_incoming_message` was called
    aiRequest: Option<(Json, Json)>, // the customer identifier and the text given to the agent
    reply: Option<(Json, Json)>)     // the chat id and the text sent back

  function Status(code: int): WebhookResult {
    WebhookResult(code, false, None, None)
  }

  /** What the webhook promises once the secret and the token have passed. */
  predicate Handled(r: WebhookResult, businessId: Option<int>) {
    && r.code != 403 && r.code != 503
    && (r.aiRequest.Some? ==> (r.logged && businessId.Some? && businessId.value != 0
                               && Truthy(r.aiRequest.value.0)
                               && r.aiRequest.value.1.JStr? && Strip(r.aiRequest.value.1.s) != ""))
    && (r.reply.Some? ==> r.code == 200 && r.aiRequest.Some? && Truthy(r.reply.value.0) && Truthy(r.reply.value.1))
  }

  /**
   * The webhook after the message has a chat id and a non-blank text: it is
   * logged, and with an active business the unstripped text goes to the
   * agent; a truthy `response` of the agent is sent back to the chat.
   */
  function HandleText(message: Json, chatId: Json, text: string, businessId: Option<int>, aiResult: Option<Json>,
                      reprOf: Json -> string): (r: WebhookResult)
    requires message.JObj? && Truthy(chatId) && Strip(text) != ""
    ensures Handled(r, businessId) && r.logged
    ensures businessId.None? || businessId.value == 0 ==> r == WebhookResult(200, true, None, None)
    ensures r.aiRequest.Some? ==> r.aiRequest.value.1 == JStr(text)
    ensures r.reply.Some? ==> r.reply.value.0 == chatId
    ensures businessId.Some? && businessId.value != 0 ==>
      (r.aiRequest.Some? <==> CustomerIdentifier(message, reprOf).Some?)
    ensures r.aiRequest.Some? ==>
      CustomerIdentifier(message, reprOf).Some? && r.aiRequest.value == (CustomerIdentifier(message, reprOf).value, JStr(text))
    ensures r.reply.Some? <==> (r.aiRequest.Some? && aiResult.Some? && aiResult.value.JObj?
                                && Truthy(GetOr(aiResult.value.fields, "response", JNull)))
    ensures r.reply.Some? ==>
      aiResult.Some? && aiResult.value.JObj? && r.reply.value == (chatId, GetOr(aiResult.value.fields, "response", JNull))
    ensures r.code == 200 || r.code == 500
    ensures r.code == 500 <==> (businessId.Some? && businessId.value != 0
                                && (r.aiRequest.None? || aiResult.None? || !aiResult.value.JObj?))
  {
    if businessId.None? || businessId.value == 0 then WebhookResult(200, true, None, None)
    else match CustomerIdentifier(message, reprOf)
      case None => WebhookResult(500, true, None, None)
      case Some(customer) =>
        var request := Some((customer, JStr(text)));
        match aiResult
        case None => WebhookResult(500, true, request, None)
        case Some(result) =>
          if !result.JObj? then WebhookResult(500, true, request, None)
          else
            var response := GetOr(result.fields, "response", JNull);
            WebhookResult(200, true, request, if Truthy(response) then Some((chatId, response)) else None)
  }

  /** `message.get('text') or ''`. */
  function MessageText(message: Json): Json
    requires message.JObj?
  {
    Or(GetOr(message.fields, "text", JNull), JStr(""))
  }

  /** An update the webhook acts on: a dict message in a dict chat with a truthy id, and a non-blank string text. */
  predicate Actionable(update: Json)
    requires update.JObj?
  {
    var message := GetOr(update.fields, "message", JNull);
    && message.JObj? && Chat(message).JObj? && Truthy(ChatId(message))
    && MessageText(message).JStr? && Strip(MessageText(message).s) != ""
  }

  /**
   * The webhook for a dict update: 200 without doing anything for an update
   * without a message, chat id or non-blank text; 500 where a `.get` or
   * `.strip()` on a value of the wrong type raises.
   */
  function HandleUpdate(update: Json, businessId: Option<int>, aiResult: Option<Json>, reprOf: Json -> string): (r: WebhookResult)
    requires update.JObj?
    ensures Handled(r, businessId)
    ensures r.logged <==> Actionable(update)
    ensures !Truthy(GetOr(update.fields, "message", JNull)) ==> r == Status(200)
    ensures var message := GetOr(update.fields, "message", JNull);
      Truthy(message) && !message.JObj? ==> r == Status(500)
    ensures var message := GetOr(update.fields, "message", JNull);
      message.JObj? && Chat(message).JObj? && !Truthy(ChatId(message)) ==> r == Status(200)
    ensures var message := GetOr(update.fields, "message", JNull);
      (message.JObj? && Chat(message).JObj? && Truthy(ChatId(message))
       && MessageText(message).JStr? && Strip(MessageText(message).s) == "") ==> r == Status(200)
    ensures var message := GetOr(update.fields, "message", JNull);
      r.reply.Some? ==> message.JObj? && r.reply.value.0 == ChatId(message)
    ensures var message := GetOr(update.fields, "message", JNull);
      Actionable(update) ==>
        r == HandleText(message, ChatId(message), MessageText(message).s, businessId, aiResult, reprOf)
  {
    var message := GetOr(update.fields, "message", JNull);
    if !Truthy(message) then Status(200)
    else if !message.JObj? then Status(500)
    else if !Chat(message).JObj? then Status(500)
    else if !Truthy(ChatId(message)) then Status(200)
    else if !MessageText(message).JStr? then Status(500)
    else if Strip(MessageText(message).s) == "" then Status(200)
    else HandleText(message, ChatId(message), MessageText(message).s, businessId, aiResult, reprOf)
  }

  /**
   * `telegram_webhook`: 403 for a wrong secret when one is configured, 503
   * without a bot token, 500 for an update that is not a dict, and
   * otherwise `HandleUpdate`. `aiResult` is None when the agent call raises.
   */
  function Webhook(secret: string, expectedSecret: Option<string>, body: Option<Json>, client: TelegramService.Client,
                   businessId: Option<int>, aiResult: Option<Json>, reprOf: Json -> string): (r: WebhookResult)
    ensures r.code == 403 <==> expectedSecret.Some? && expectedSecret.value != "" && secret != expectedSecret.value
    ensures r.code == 503 <==> !(expectedSecret.Some? && expectedSecret.value != "" && secret != expectedSecret.value)
                                && !TelegramService.Configured(client)
    ensures r.logged ==> TelegramService.Configured(client)
    ensures r.aiRequest.Some? ==> (r.logged && businessId.Some? && businessId.value != 0
                                   && Truthy(r.aiRequest.value.0)
                                   && r.aiRequest.value.1.JStr? && Strip(r.aiRequest.value.1.s) != "")
    ensures r.reply.Some? ==> r.code == 200 && r.aiRequest.Some? && Truthy(r.reply.value.0) && Truthy(r.reply.value.1)
    ensures var update := BodyOrEmpty(body);
      r.code != 403 && r.code != 503 && update.JObj? ==> r == HandleUpdate(update, businessId, aiResult, reprOf)
    ensures r.code != 403 && r.code != 503 && !BodyOrEmpty(body).JObj? ==> r == Status(500)
    ensures var update := BodyOrEmpty(body);
      r.code != 403 && r.code != 503 && update.JObj? && !Truthy(GetOr(update.fields, "message", JNull)) ==> r == Status(200)
    ensures var update := BodyOrEmpty(body);
      r.code != 403 && r.code != 503 && update.JObj? ==> (r.logged <==> Actionable(update))
  {
    if expectedSecret.Some? && expectedSecret.value != "" && secret != expectedSecret.value then Status(403)
    else
      var update := BodyOrEmpty(body);
      if !TelegramService.Configured(client) then Status(503)
      else if !update.JObj? then Status(500)
      else HandleUpdate(update, businessId, aiResult, reprOf)
  }

  /** A message whose text is blank gets 200 and reaches neither the log nor the agent. */
  lemma BlankTextIgnored(secret: string, expectedSecret: Option<string>, update: Json, client: TelegramService.Client,
                         businessId: Option<int>, aiResult: Option<Json>, reprOf: Json -> string)
    requires TelegramService.Configured(client)
    requires !(expectedSecret.Some? && expectedSecret.value != "" && secret != expectedSecret.value)
    requires update.JObj? && update.fields != []
    requires var message := GetOr(update.fields, "message", JNull);
      message.JObj? && message.fields != [] && Chat(message).JObj? && Truthy(ChatId(message))
      && GetOr(message.fields, "text", JNull).JStr? && Strip(GetOr(message.fields, "text", JNull).s) == ""
    ensures Webhook(secret, expectedSecret, Some(update), client, businessId, aiResult, reprOf) == WebhookResult(200, false, None, None)
  {
    var message := GetOr(update.fields, "message", JNull);
    var text := GetOr(message.fields, "text", JNull);
    assert Or(text, JStr("")) == JStr(text.s);
    assert HandleUpdate(update, businessId, aiResult, reprOf) == Status(200);
  }

  /** `data.get('chat_id') or data.get('customer_identifier')`. */
  function SendTarget(data: Json): Json
    requires data.JObj?
  {
    Or(GetOr(data.fields, "chat_id", JNull), GetOr(data.fields, "customer_identifier", JNull))
  }

  /** `data.get('message')`. */
  function SendText(data: Json): Json
    requires data.JObj?
  {
    GetOr(data.fields, "message", JNull)
  }

  /** What the send endpoint did: its status code and what it asked the client to send. */
  datatype SendResult = SendResult(code: int, request: Option<(Json, Json)>)

  /**
   * `send_telegram_message`: 400 unless both a chat id (or customer
   * identifier) and a message are truthy; then 200 when the client is
   * configured and the Bot API accepts the message (`delivered`), else 500.
   * `body` is None when the request is not JSON, which Flask answers with 400.
   */
  function SendMessage(body: Option<Json>, client: TelegramService.Client, delivered: bool): (r: SendResult)
    ensures r.code == 200 <==> r.request.Some? && TelegramService.Configured(client) && delivered
    ensures r.request.Some? ==> Truthy(r.request.value.0) && Truthy(r.request.value.1)
    ensures body.None? ==> r == SendResult(400, None)
    ensures r.code == 400 <==> r.request.None? && (body.None? || BodyOrEmpty(body).JObj?)
    ensures r.code in {200, 400, 500}
    ensures r.request.Some? <==> body.Some? && BodyOrEmpty(body).JObj?
                                 && Truthy(SendTarget(BodyOrEmpty(body))) && Truthy(SendText(BodyOrEmpty(body)))
    ensures r.request.Some? ==> r.request.value == (SendTarget(BodyOrEmpty(body)), SendText(BodyOrEmpty(body)))
  {
    if body.None? then SendResult(400, None)
    else
      var data := BodyOrEmpty(body);
      if !data.JObj? then SendResult(500, None)
      else
        var chatId := SendTarget(data);
        var text := SendText(data);
        if !Truthy(chatId) || !Truthy(text) then SendResult(400, None)
        else if TelegramService.Configured(client) && delivered then SendResult(200, Some((chatId, text)))
        else SendResult(500, Some((chatId, text)))
  }

  /** The customer identifier stands in for a missing chat id. */
  lemma SendFallsBackToIdentifier(identifier: string, text: string, client: TelegramService.Client, delivered: bool)
    requires identifier != "" && text != ""
    ensures SendMessage(Some(JObj([("customer_identifier", JStr(identifier)), ("message", JStr(text))])), client, delivered).request
         == Some((JStr(identifier), JStr(text)))
  {
    var fields := [("customer_identifier", JStr(identifier)), ("message", JStr(text))];
    GetAt(fields, 0, "customer_identifier");
    GetAt(fields, 1, "message");
  }
}
