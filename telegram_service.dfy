/**
 * The identifier helpers of the Telegram client (app/services/telegram_service.py):
 * whether a bot token is configured, the chat id recovered from a stored
 * `tg:` customer phone, the `tg:` sender identifier of an incoming message
 * and the 20-character truncation applied before a message is stored.
 * The HTTP calls to the Bot API are not part of this model.
 */
module TelegramService {
  import opened Wrappers
  import opened Text
  import opened JsonValues

  const API_BASE := "https://api.telegram.org/bot"

  /** The two attributes `TelegramService.__init__` sets from the configured token. */
  datatype Client = Client(botToken: Option<string>, baseUrl: Option<string>)

  /** `TelegramService()`: the base URL exists exactly when the token is a non-empty string. */
  function NewClient(token: Option<string>): (c: Client)
    ensures c.botToken == token
    ensures c.baseUrl.Some? <==> token.Some? && token.value != ""
    ensures c.baseUrl.Some? ==> StartsWith(c.baseUrl.value, API_BASE)
  {
    var url := if token.Some? && token.value != "" then Some(API_BASE + token.value) else None;
    assert url.Some? ==> url.value[..|API_BASE|] == API_BASE;
    Client(token, url)
  }

  /** The `configured` property: token and base URL both truthy. */
  predicate Configured(c: Client) {
    c.botToken.Some? && c.botToken.value != "" && c.baseUrl.Some? && c.baseUrl.value != ""
  }

  /** A freshly built client is configured exactly when its token is non-empty. */
  lemma ConfiguredIffToken(token: Option<string>)
    ensures Configured(NewClient(token)) <==> token.Some? && token.value != ""
  {
  }

  /** `s.split(sep, 1)[1]`: what follows the first `sep`, when there is one. */
  function AfterFirst(s: string, sep: char): (r: Option<string>)
    ensures r.Some? <==> sep in s
    ensures r.Some? ==> exists i :: 0 <= i < |s| && s[i] == sep && sep !in s[..i] && r.value == s[i + 1..]
  {
    match FirstIndex(s, sep)
    case None => None
    case Some(i) => Some(s[i + 1..])
  }

  /**
   * `_get_customer_identifier`: of a truthy stored phone (None stands for a
   * missing order, customer or phone), what follows the first `:` when it
   * starts with `tg:`, the phone itself otherwise.
   */
  function CustomerIdentifier(storedPhone: Option<string>): (r: Option<string>)
    ensures r.Some? <==> storedPhone.Some? && storedPhone.value != ""
    ensures r.Some? && StartsWith(storedPhone.value, "tg:") ==> r.value == storedPhone.value[3..]
    ensures r.Some? && !StartsWith(storedPhone.value, "tg:") ==> r.value == storedPhone.value
  {
    match storedPhone
    case None => None
    case Some(stored) =>
      if stored == "" then None
      else if StartsWith(stored, "tg:") then
        assert FirstIndex(stored, ':') == Some(2) by {
          assert stored[0] == 't' && stored[1] == 'g' && stored[2] == ':';
        }
        Some(AfterFirst(stored, ':').value)
      else Some(stored)
  }

  /** `_build_sender_identifier`: `tg:` and the username when it is truthy, else the chat id. */
  function SenderIdentifier(chatId: Json, username: Json, reprOf: Json -> string): (r: string)
    ensures StartsWith(r, "tg:")
    ensures Truthy(username) ==> r == "tg:" + StrOf(username, reprOf)
    ensures !Truthy(username) ==> r == "tg:" + StrOf(chatId, reprOf)
  {
    "tg:" + StrOf(if Truthy(username) then username else chatId, reprOf)
  }

  /** A `tg:` identifier stored as a phone gives back what followed the prefix. */
  lemma SenderIdentifierRoundTrip(chatId: Json, username: Json, reprOf: Json -> string)
    ensures CustomerIdentifier(Some(SenderIdentifier(chatId, username, reprOf)))
         == Some(StrOf(if Truthy(username) then username else chatId, reprOf))
  {
    var r := SenderIdentifier(chatId, username, reprOf);
    assert r[3..] == StrOf(if Truthy(username) then username else chatId, reprOf);
  }

  const ID_WIDTH := 20

  /** `_sanitize_identifier`: None stays None, anything else is `str(value)[:20]`. */
  function SanitizeIdentifier(value: Json, reprOf: Json -> string): (r: Option<string>)
    ensures r.None? <==> value.JNull?
    ensures r.Some? ==> |r.value| <= ID_WIDTH && StartsWith(StrOf(value, reprOf), r.value)
    ensures r.Some? && |StrOf(value, reprOf)| <= ID_WIDTH ==> r.value == StrOf(value, reprOf)
    ensures r.Some? && |StrOf(value, reprOf)| > ID_WIDTH ==> |r.value| == ID_WIDTH
  {
    if value.JNull? then None
    else
      var s := StrOf(value, reprOf);
      Some(if |s| <= ID_WIDTH then s else s[..ID_WIDTH])
  }

  /** Sanitizing twice is sanitizing once. */
  lemma SanitizeIdempotent(value: Json, reprOf: Json -> string)
    requires !value.JNull?
    ensures SanitizeIdentifier(JStr(SanitizeIdentifier(value, reprOf).value), reprOf) == SanitizeIdentifier(value, reprOf)
  {
  }
}
