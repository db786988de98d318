/**
 * The text helpers of the polling Telegram bot (app/scripts/telegram_bot.py):
 * the customer identifier of an incoming message, the removal of a ```
 * fence around a reply, the lenient JSON parse, the extraction of a
 * readable reply from whatever the agent returned, and the Markdown
 * escaping. `json.loads` and `str()` of lists and dicts are parameters.
 */
module TelegramBot {
  import opened Wrappers
  import opened Text
  import opened JsonValues

  // ---------------------------------------------------------------- customer identifier

  /** The sender of a message, as far as the identifier reads it. */
  datatype BotUser = BotUser(phoneNumber: Option<string>, username: Option<string>)

  /** An incoming message: its chat and, for messages sent by a user, that user. */
  datatype BotMessage = BotMessage(chatId: int, fromUser: Option<BotUser>)

  predicate Present(s: Option<string>) {
    s.Some? && s.value != ""
  }

  /**
   * `_build_customer_identifier` as written: without a sender it falls back
   * to `{}`, whose `.username` raises AttributeError (None here), outside
   * the handler's try block.
   */
  function CustomerIdentifierAsWritten(m: BotMessage): (r: Option<string>)
    ensures r.None? <==> m.fromUser.None?
  {
    match m.fromUser
    case None => None
    case Some(user) =>
      if Present(user.phoneNumber) then Some(user.phoneNumber.value)
      else if Present(user.username) then Some("tg:" + user.username.value)
      else Some("tg:" + IntToString(m.chatId))
  }

  /** A message whose `from_user` is None makes the handler raise. */
  lemma NoSenderRaises()
    ensures CustomerIdentifierAsWritten(BotMessage(42, None)).None?
    ensures CustomerIdentifier(BotMessage(42, None)) == "tg:42"
  {
    assert IntToString(42) == "42" by {
      assert NatToString(42) == NatToString(4) + [DigitChar(2)];
    }
  }

  /**
   * The identifier with the intended fallback for a missing sender: the
   * phone when there is one, else `tg:` and the username, else `tg:` and
   * the chat id.
   */
  function CustomerIdentifier(m: BotMessage): (r: string)
    ensures m.fromUser.Some? && Present(m.fromUser.value.phoneNumber) ==> r == m.fromUser.value.phoneNumber.value
    ensures !(m.fromUser.Some? && Present(m.fromUser.value.phoneNumber)) ==> StartsWith(r, "tg:")
    ensures m.fromUser.Some? && !Present(m.fromUser.value.phoneNumber) && Present(m.fromUser.value.username) ==>
      r == "tg:" + m.fromUser.value.username.value
    ensures (m.fromUser.None? || (!Present(m.fromUser.value.phoneNumber) && !Present(m.fromUser.value.username))) ==>
      r == "tg:" + IntToString(m.chatId)
  {
    var user := m.fromUser.GetOr(BotUser(None, None));
    if Present(user.phoneNumber) then user.phoneNumber.value
    else if Present(user.username) then "tg:" + user.username.value
    else "tg:" + IntToString(m.chatId)
  }

  /** Wherever the code as written does not raise, it agrees with the corrected identifier. */
  lemma CorrectedAgrees(m: BotMessage)
    ensures CustomerIdentifierAsWritten(m).Some? ==> CustomerIdentifierAsWritten(m).value == CustomerIdentifier(m)
  {
  }

  // ---------------------------------------------------------------- code fences

  const FENCE := "```"

  /** `[a-zA-Z0-9_-]`. */
  predicate IsTagChar(c: char) {
    ('a' <= c <= 'z') || ('A' <= c <= 'Z') || ('0' <= c <= '9') || c == '_' || c == '-'
  }

  /** The length of the run of tag characters `s` starts with. */
  function TagRun(s: string): (k: nat)
    ensures k <= |s|
    ensures forall i :: 0 <= i < k ==> IsTagChar(s[i])
    ensures k == |s| || !IsTagChar(s[k])
  {
    if s != [] && IsTagChar(s[0]) then 1 + TagRun(s[1..]) else 0
  }

  /** `^```…```$` can match: at least six characters, opening and closing with a fence. */
  predicate Fenced(s: string) {
    |s| >= 6 && StartsWith(s, FENCE) && EndsWith(s, FENCE)
  }

  /**
   * `_strip_code_fences` on a string: the stripped text, or, when it is
   * fenced, what lies between the fences once the greedy optional tag is
   * skipped, stripped again.
   */
  function StripCodeFences(text: string): (r: string)
    ensures r == [] || (!IsSpace(r[0]) && !IsSpace(r[|r| - 1]))
    ensures |r| <= |text|
    ensures !Fenced(Strip(text)) ==> r == Strip(text)
  {
    var s := Strip(text);
    if Fenced(s) then
      var body := s[3..|s| - 3];
      var rest := body[TagRun(body)..];
      var r := Strip(rest);
      assert |r| <= |rest| <= |body| <= |s| <= |text|;
      r
    else s
  }

  /** `_strip_code_fences` on any value: only strings change. */
  function StripCodeFencesValue(v: Json): (r: Json)
    ensures !v.JStr? ==> r == v
    ensures v.JStr? ==> r == JStr(StripCodeFences(v.s))
  {
    if v.JStr? then JStr(StripCodeFences(v.s)) else v
  }

  /** Text between two fences is already stripped. */
  lemma FencesStripped(mid: string)
    ensures Strip(FENCE + mid + FENCE) == FENCE + mid + FENCE
  {
    var s := FENCE + mid + FENCE;
    assert s[0] == '`' && s[|s| - 1] == '`';
    StripPadded([], s, []);
    assert [] + s + [] == s;
  }

  /** Text between two fences is fenced, and its body is what lies between. */
  lemma Fences(mid: string)
    ensures Fenced(FENCE + mid + FENCE)
    ensures (FENCE + mid + FENCE)[3..|FENCE + mid + FENCE| - 3] == mid
  {
    var s := FENCE + mid + FENCE;
    assert s[..3] == FENCE;
    assert s[|s| - 3..] == FENCE;
  }

  /** A fenced text loses its fences, the greedy tag and the surrounding whitespace. */
  lemma Unfence(mid: string)
    ensures StripCodeFences(FENCE + mid + FENCE) == Strip(mid[TagRun(mid)..])
  {
    FencesStripped(mid);
    Fences(mid);
  }

  /** A run of tag characters followed by a non-tag character is exactly the tag run. */
  lemma {:induction false} TagRunOfTag(tag: string, rest: string)
    requires forall i :: 0 <= i < |tag| ==> IsTagChar(tag[i])
    requires rest != [] && !IsTagChar(rest[0])
    ensures TagRun(tag + rest) == |tag|
    decreases |tag|
  {
    if tag != [] {
      assert (tag + rest)[1..] == tag[1..] + rest;
      TagRunOfTag(tag[1..], rest);
    }
  }

  /** Skipping the tag run of a tag and a text that starts with a non-tag character leaves that text. */
  lemma TagSkip(tag: string, rest: string)
    requires forall i :: 0 <= i < |tag| ==> IsTagChar(tag[i])
    requires rest != [] && !IsTagChar(rest[0])
    ensures (tag + rest)[TagRun(tag + rest)..] == rest
  {
    TagRunOfTag(tag, rest);
  }

  /**
   * A fenced block gives back its content: the tag, then whitespace (such
   * as the newline that ends the opening line), then the content, then any
   * whitespace before the closing fence.
   */
  lemma FenceRoundTrip(tag: string, pre: string, content: string, post: string)
    requires forall i :: 0 <= i < |tag| ==> IsTagChar(tag[i])
    requires pre != [] && AllSpace(pre) && AllSpace(post)
    requires content == [] || (!IsSpace(content[0]) && !IsSpace(content[|content| - 1]))
    ensures StripCodeFences(FENCE + (tag + (pre + content + post)) + FENCE) == content
  {
    Unfence(tag + (pre + content + post));
    TagThenPadded(tag, pre, content, post);
  }

  /** After the tag come the whitespace, the content and whitespace again, which `strip` reduces to the content. */
  lemma TagThenPadded(tag: string, pre: string, content: string, post: string)
    requires forall i :: 0 <= i < |tag| ==> IsTagChar(tag[i])
    requires pre != [] && AllSpace(pre) && AllSpace(post)
    requires content == [] || (!IsSpace(content[0]) && !IsSpace(content[|content| - 1]))
    ensures Strip((tag + (pre + content + post))[TagRun(tag + (pre + content + post))..]) == content
  {
    var padded := pre + content + post;
    assert padded[0] == pre[0];
    SkipTagBeforeSpace(tag, padded);
    StripPadded(pre, content, post);
  }

  /** The tag run stops at the first whitespace character. */
  lemma SkipTagBeforeSpace(tag: string, rest: string)
    requires forall i :: 0 <= i < |tag| ==> IsTagChar(tag[i])
    requires rest != [] && IsSpace(rest[0])
    ensures (tag + rest)[TagRun(tag + rest)..] == rest
  {
    TagSkip(tag, rest);
  }

  /** A text of tag characters only is one tag run. */
  lemma {:induction false} TagRunAll(tag: string)
    requires forall i :: 0 <= i < |tag| ==> IsTagChar(tag[i])
    ensures TagRun(tag) == |tag|
    decreases |tag|
  {
    if tag != [] {
      TagRunAll(tag[1..]);
    }
  }

  /** A fenced single word on one line is taken for the tag, leaving nothing. */
  lemma FencedWordIsEmpty(word: string)
    requires forall i :: 0 <= i < |word| ==> IsTagChar(word[i])
    ensures StripCodeFences(FENCE + word + FENCE) == ""
  {
    Unfence(word);
    TagRunAll(word);
  }

  // ---------------------------------------------------------------- lenient JSON

  /**
   * What `_try_parse_jsonish` hands to `json.loads`: the unfenced text cut
   * after its last `}`, narrowed to its brace block when it has one.
   */
  function JsonishCandidate(text: string): (c: string)
    ensures '}' in StripCodeFences(text) ==> c != [] && c[|c| - 1] == '}'
  {
    var cleaned := StripCodeFences(text);
    var cut := match LastIndex(cleaned, '}') case Some(j) => cleaned[..j + 1] case None => cleaned;
    match BraceBlock(cut)
    case Some(block) => block
    case None => cut
  }

  /** `_try_parse_jsonish`: None for an empty text or a decode error. */
  function TryParseJsonish(text: string, decode: string -> Option<Json>): (r: Option<Json>)
    ensures text == "" ==> r.None?
    ensures text != "" ==> r == decode(JsonishCandidate(text))
  {
    if text == "" then None else decode(JsonishCandidate(text))
  }

  /** A bare object text is handed to the decoder as it is. */
  lemma ObjectTextIsItsOwnCandidate(s: string)
    requires |s| >= 1 && s[0] == '{' && s[|s| - 1] == '}'
    ensures JsonishCandidate(s) == s
  {
    StripPadded([], s, []);
    assert [] + s + [] == s;
    assert !StartsWith(s, FENCE) by {
      if |s| >= 3 {
        assert s[..3][0] == s[0];
      }
    }
    assert StripCodeFences(s) == s;
    assert s[..|s|] == s;
    assert FirstIndex(s, '{') == Some(0);
    assert s[0..|s|] == s;
  }

  // ---------------------------------------------------------------- reply text

  /** `a.get('response') or a.get('message') or a.get('text')`. */
  function Nested(fields: seq<(string, Json)>): (r: Json)
    ensures Truthy(r) ==> r in [GetOr(fields, "response", JNull), GetOr(fields, "message", JNull), GetOr(fields, "text", JNull)]
  {
    Or(Or(GetOr(fields, "response", JNull), GetOr(fields, "message", JNull)), GetOr(fields, "text", JNull))
  }

  /** `f"{k}: {v}"`. */
  function Piece(field: (string, Json), reprOf: Json -> string): string {
    field.0 + ": " + StrOf(field.1, reprOf)
  }

  /** The pieces of the items whose value passes `scalarOnly`'s filter, in item order. */
  function Pieces(fields: seq<(string, Json)>, scalarOnly: bool, reprOf: Json -> string): (r: seq<string>)
    ensures |r| <= |fields|
    ensures !scalarOnly ==> |r| == |fields|
    decreases |fields|
  {
    if fields == [] then []
    else
      var init := fields[..|fields| - 1];
      var last := fields[|fields| - 1];
      Pieces(init, scalarOnly, reprOf) + (if !scalarOnly || IsScalar(last.1) then [Piece(last, reprOf)] else [])
  }

  /** Unfiltered, the pieces are those of the items, one for one and in item order. */
  lemma {:induction false} PiecesOfAll(fields: seq<(string, Json)>, reprOf: Json -> string)
    ensures Pieces(fields, false, reprOf) == seq(|fields|, i requires 0 <= i < |fields| => Piece(fields[i], reprOf))
    decreases |fields|
  {
    if fields != [] {
      var init := fields[..|fields| - 1];
      PiecesOfAll(init, reprOf);
    }
  }

  /** A piece is kept exactly when some item passing the filter gives it. */
  lemma {:induction false} PiecesMembers(fields: seq<(string, Json)>, scalarOnly: bool, reprOf: Json -> string)
    ensures forall p :: p in Pieces(fields, scalarOnly, reprOf) <==>
      exists i :: 0 <= i < |fields| && (!scalarOnly || IsScalar(fields[i].1)) && p == Piece(fields[i], reprOf)
    decreases |fields|
  {
    if fields != [] {
      var init := fields[..|fields| - 1];
      PiecesMembers(init, scalarOnly, reprOf);
      assert forall i :: 0 <= i < |init| ==> init[i] == fields[i];
    }
  }

  /** The pieces of a concatenation are the pieces of each part, one after the other: item order is kept. */
  lemma {:induction false} PiecesConcat(a: seq<(string, Json)>, b: seq<(string, Json)>, scalarOnly: bool, reprOf: Json -> string)
    ensures Pieces(a + b, scalarOnly, reprOf) == Pieces(a, scalarOnly, reprOf) + Pieces(b, scalarOnly, reprOf)
    decreases |b|
  {
    if b == [] {
      assert a + b == a;
    } else {
      var init := b[..|b| - 1];
      var last := b[|b| - 1];
      var tail := if !scalarOnly || IsScalar(last.1) then [Piece(last, reprOf)] else [];
      PiecesConcat(a, init, scalarOnly, reprOf);
      assert (a + b)[..|a + b| - 1] == a + init;
      assert (a + b)[|a + b| - 1] == last;
      assert Pieces(a + b, scalarOnly, reprOf) == Pieces(a + init, scalarOnly, reprOf) + tail;
      assert Pieces(b, scalarOnly, reprOf) == Pieces(init, scalarOnly, reprOf) + tail;
    }
  }

  /** `[str(item) for item in items if item]`. */
  function TruthyStrs(items: seq<Json>, reprOf: Json -> string): (r: seq<string>)
    ensures |r| <= |items|
    ensures (forall i :: 0 <= i < |items| ==> Truthy(items[i])) ==>
      r == seq(|items|, i requires 0 <= i < |items| => StrOf(items[i], reprOf))
    decreases |items|
  {
    if items == [] then []
    else
      var init := items[..|items| - 1];
      var last := items[|items| - 1];
      TruthyStrs(init, reprOf) + (if Truthy(last) then [StrOf(last, reprOf)] else [])
  }

  /** A string is kept exactly when some truthy item gives it. */
  lemma {:induction false} TruthyStrsMembers(items: seq<Json>, reprOf: Json -> string)
    ensures forall t :: t in TruthyStrs(items, reprOf) <==>
      exists i :: 0 <= i < |items| && Truthy(items[i]) && t == StrOf(items[i], reprOf)
    decreases |items|
  {
    if items != [] {
      var init := items[..|items| - 1];
      TruthyStrsMembers(init, reprOf);
      assert forall i :: 0 <= i < |init| ==> init[i] == items[i];
    }
  }

  /** The strings of a concatenation are those of each part, one after the other: item order is kept. */
  lemma {:induction false} TruthyStrsConcat(a: seq<Json>, b: seq<Json>, reprOf: Json -> string)
    ensures TruthyStrs(a + b, reprOf) == TruthyStrs(a, reprOf) + TruthyStrs(b, reprOf)
    decreases |b|
  {
    if b == [] {
      assert a + b == a;
    } else {
      var init := b[..|b| - 1];
      var last := b[|b| - 1];
      var tail := if Truthy(last) then [StrOf(last, reprOf)] else [];
      TruthyStrsConcat(a, init, reprOf);
      assert (a + b)[..|a + b| - 1] == a + init;
      assert (a + b)[|a + b| - 1] == last;
      assert TruthyStrs(a + b, reprOf) == TruthyStrs(a + init, reprOf) + tail;
      assert TruthyStrs(b, reprOf) == TruthyStrs(init, reprOf) + tail;
    }
  }

  /** One level of `_clean_ai_response_text`: the text it returns, or the value it recurses on. */
  datatype Step = Done(text: string) | Recurse(next: Json)

  /**
   * The body of `_clean_ai_response_text` up to its recursive calls:
   * None is `''`; a dict recurses on its first truthy `response`, `message`
   * or `text`, else joins its scalar items; a list joins its truthy items;
   * anything else is unfenced and, when it looks like JSON, re-parsed.
   */
  function CleanStep(raw: Json, decode: string -> Option<Json>, reprOf: Json -> string): (r: Step)
    ensures raw.JNull? ==> r == Done("")
    ensures raw.JArr? ==> r == Done(Join("\n", TruthyStrs(raw.items, reprOf)))
    ensures raw.JObj? && Truthy(Nested(raw.fields)) ==> r == Recurse(Nested(raw.fields))
    ensures raw.JObj? && !Truthy(Nested(raw.fields)) ==> r == Done(Join("\n", Pieces(raw.fields, true, reprOf)))
    ensures r.Recurse? ==> Truthy(r.next)
  {
    match raw
    case JNull => Done("")
    case JObj(fields) =>
      if Truthy(Nested(fields)) then Recurse(Nested(fields)) else Done(Join("\n", Pieces(fields, true, reprOf)))
    case JArr(items) => Done(Join("\n", TruthyStrs(items, reprOf)))
    case _ => ScalarStep(raw, decode, reprOf)
  }

  /** The last branch of `_clean_ai_response_text`: unfenced text, re-parsed when it looks like JSON. */
  function ScalarStep(raw: Json, decode: string -> Option<Json>, reprOf: Json -> string): (r: Step)
    ensures r.Recurse? ==> Truthy(r.next)
  {
    var text := StripCodeFences(StrOf(raw, reprOf));
    if StartsWith(text, "{") || Contains(text, "\"response\"") then
      match TryParseJsonish(text, decode)
      case None => Done(text)
      case Some(parsed) =>
        if parsed.JNull? then Done(text)
        else if parsed.JObj? then
          if Truthy(Nested(parsed.fields)) then Recurse(Nested(parsed.fields))
          else Done(Join("\n", Pieces(parsed.fields, false, reprOf)))
        else Done(StrOf(parsed, reprOf))
    else Done(text)
  }

  /**
   * `_clean_ai_response_text`. Its recursion can go through a re-parsed
   * string, so it is bounded by `fuel`; None means the bound was reached.
   */
  function CleanText(raw: Json, fuel: nat, decode: string -> Option<Json>, reprOf: Json -> string): (r: Option<string>)
    ensures r.None? ==> fuel == 0 || CleanStep(raw, decode, reprOf).Recurse?
    decreases fuel
  {
    if fuel == 0 then None
    else match CleanStep(raw, decode, reprOf)
      case Done(text) => Some(text)
      case Recurse(next) => CleanText(next, fuel - 1, decode, reprOf)
  }

  /** None gives the empty text, and a list the lines of its truthy items. */
  lemma CleanNoneAndList(items: seq<Json>, fuel: nat, decode: string -> Option<Json>, reprOf: Json -> string)
    requires fuel > 0
    ensures CleanText(JNull, fuel, decode, reprOf) == Some("")
    ensures CleanText(JArr(items), fuel, decode, reprOf) == Some(Join("\n", TruthyStrs(items, reprOf)))
  {
  }

  /** A dict is read through its first truthy `response`, `message` or `text`. */
  lemma CleanDictRecurses(fields: seq<(string, Json)>, fuel: nat, decode: string -> Option<Json>, reprOf: Json -> string)
    requires fuel > 0
    ensures Truthy(GetOr(fields, "response", JNull)) ==>
      CleanText(JObj(fields), fuel, decode, reprOf) == CleanText(GetOr(fields, "response", JNull), fuel - 1, decode, reprOf)
    ensures !Truthy(Nested(fields)) ==>
      CleanText(JObj(fields), fuel, decode, reprOf) == Some(Join("\n", Pieces(fields, true, reprOf)))
  {
  }

  /** Plain text that is neither fenced nor JSON-looking comes back stripped and otherwise as it is. */
  lemma CleanPlainText(s: string, fuel: nat, decode: string -> Option<Json>, reprOf: Json -> string)
    requires fuel > 0
    requires !Fenced(Strip(s))
    requires !StartsWith(Strip(s), "{") && !Contains(Strip(s), "\"response\"")
    ensures CleanText(JStr(s), fuel, decode, reprOf) == Some(Strip(s))
  {
  }

  // ---------------------------------------------------------------- Markdown

  const MARKDOWN_SPECIALS := "_*[]()~`>#+-=|{}.!"

  predicate IsSpecial(c: char) {
    c in MARKDOWN_SPECIALS
  }

  function CountSpecials(s: string): (n: nat)
    ensures n <= |s|
  {
    if s == [] then 0 else (if IsSpecial(s[0]) then 1 else 0) + CountSpecials(s[1..])
  }

  /**
   * `_escape_markdown`: a backslash in front of every special character,
   * every character kept in order; the empty text comes back as it is.
   */
  function EscapeMarkdown(s: string): (r: string)
    ensures |r| == |s| + CountSpecials(s)
    ensures r != [] ==> !IsSpecial(r[0])
    ensures forall i :: 0 <= i < |r| && IsSpecial(r[i]) ==> i > 0 && r[i - 1] == '\\'
    ensures CountSpecials(s) == 0 ==> r == s
  {
    if s == [] then []
    else
      var rest := EscapeMarkdown(s[1..]);
      if IsSpecial(s[0]) then
        var r := ['\\', s[0]] + rest;
        assert !IsSpecial('\\');
        assert forall i :: 2 <= i < |r| ==> r[i] == rest[i - 2];
        assert forall i :: 0 <= i < |r| && IsSpecial(r[i]) ==> i > 0 && r[i - 1] == '\\';
        r
      else
        var r := [s[0]] + rest;
        assert forall i :: 1 <= i < |r| ==> r[i] == rest[i - 1];
        assert forall i :: 0 <= i < |r| && IsSpecial(r[i]) ==> i > 0 && r[i - 1] == '\\';
        r
  }

  /** Drops the backslash in front of each special character. */
  function Unescape(t: string): string
    decreases |t|
  {
    if t == [] then []
    else if |t| >= 2 && t[0] == '\\' && IsSpecial(t[1]) then [t[1]] + Unescape(t[2..])
    else [t[0]] + Unescape(t[1..])
  }

  /** Escaping loses nothing: removing the added backslashes gives the text back. */
  lemma {:induction false} UnescapeEscape(s: string)
    ensures Unescape(EscapeMarkdown(s)) == s
    decreases |s|
  {
    if s != [] {
      UnescapeEscape(s[1..]);
      var rest := EscapeMarkdown(s[1..]);
      if IsSpecial(s[0]) {
        var t := ['\\', s[0]] + rest;
        assert EscapeMarkdown(s) == t;
        assert t[2..] == rest;
        assert Unescape(t) == [s[0]] + Unescape(rest);
      } else {
        var t := [s[0]] + rest;
        assert EscapeMarkdown(s) == t;
        assert t[1..] == rest;
        assert s[0] != '\\' || rest == [] || !IsSpecial(rest[0]);
        assert Unescape(t) == [s[0]] + Unescape(rest);
      }
      assert s == [s[0]] + s[1..];
    }
  }
}
