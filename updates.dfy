/**
 * The update accessor shared by both copies of the Bot class: the update
 * type (the second key of the update), the two-level field lookup
 * `getValue`, and the data shortcuts built on it.
 */
module Updates {
  import opened Json

  /** `@array_keys($data)[1]`: the second key of the update, or null. */
  function UpdateType(data: seq<Entry>): Option<string>
  {
    if |data| >= 2 then Some(data[1].key) else None
  }

  /** PHP uses the empty string when null is used as an array key. */
  function TypeKey(kind: Option<string>): string
  {
    match kind
    case None => ""
    case Some(k) => k
  }

  /** The update type as PHP returns it: a string or null. */
  function TypeValue(kind: Option<string>): Value
  {
    match kind
    case None => Null
    case Some(k) => Str(k)
  }

  /** `$data[$type]`: the body of the update. */
  function Body(data: seq<Entry>, kind: Option<string>): Value
  {
    Find(data, TypeKey(kind))
  }

  /** `$data[$type][$search] ?? $data[$type]['message'][$search] ?? null` */
  function GetValue(data: seq<Entry>, kind: Option<string>, search: string): Value
  {
    var body := Body(data, kind);
    Coalesce(Get(body, search), Get(Get(body, "message"), search))
  }

  /** A well-formed update: distinct keys, the body an object with distinct keys. */
  ghost predicate UpdateWith(data: seq<Entry>, body: seq<Entry>)
  {
    && DistinctKeys(data) && |data| >= 2
    && data[1].val == Obj(body) && DistinctKeys(body)
  }

  /** A field present under the update type is returned without consulting `message`. */
  lemma GetValueFromBody(data: seq<Entry>, body: seq<Entry>, j: nat)
    requires UpdateWith(data, body)
    requires j < |body| && body[j].val != Null
    ensures GetValue(data, UpdateType(data), body[j].key) == body[j].val
  {
    FindAt(data, 1);
    FindAt(body, j);
  }

  /** A field missing (or null) under the update type is read from its `message`. */
  lemma GetValueFromMessage(data: seq<Entry>, body: seq<Entry>, m: nat, message: seq<Entry>, j: nat)
    requires UpdateWith(data, body)
    requires m < |body| && body[m] == Entry("message", Obj(message)) && DistinctKeys(message)
    requires j < |message|
    requires forall i :: 0 <= i < |body| && body[i].key == message[j].key ==> body[i].val == Null
    ensures GetValue(data, UpdateType(data), message[j].key) == message[j].val
  {
    FindAt(data, 1);
    FindAt(body, m);
    FindAt(message, j);
    if Find(body, message[j].key) != Null {
      FindFrom(body, message[j].key);
    }
  }

  /** Missing at both levels, the lookup yields null and never fails. */
  lemma GetValueAbsent(data: seq<Entry>, kind: Option<string>, search: string)
    requires forall e :: e in EntriesOf(Body(data, kind)) ==> e.key != search || e.val == Null
    requires forall e :: e in EntriesOf(Get(Body(data, kind), "message")) ==> e.key != search || e.val == Null
    ensures GetValue(data, kind, search) == Null
  {
    var body := Body(data, kind);
    GetEntries(body, search);
    if Get(body, search) != Null {
      FindFrom(EntriesOf(body), search);
    }
    var message := Get(body, "message");
    GetEntries(message, search);
    if Get(message, search) != Null {
      FindFrom(EntriesOf(message), search);
    }
  }

  // Data shortcuts, each a `getValue` call or a top-level read.

  function Text(data: seq<Entry>, kind: Option<string>): Value { GetValue(data, kind, "text") }
  function ChatID(data: seq<Entry>, kind: Option<string>): Value { Get(GetValue(data, kind, "chat"), "id") }
  function ChatType(data: seq<Entry>, kind: Option<string>): Value { Get(GetValue(data, kind, "chat"), "type") }
  function MessageID(data: seq<Entry>, kind: Option<string>): Value { GetValue(data, kind, "message_id") }
  function Date(data: seq<Entry>, kind: Option<string>): Value { GetValue(data, kind, "date") }
  function UserID(data: seq<Entry>, kind: Option<string>): Value { Get(GetValue(data, kind, "from"), "id") }
  function FirstName(data: seq<Entry>, kind: Option<string>): Value { Get(GetValue(data, kind, "from"), "first_name") }
  function LastName(data: seq<Entry>, kind: Option<string>): Value { Get(GetValue(data, kind, "from"), "last_name") }
  function Username(data: seq<Entry>, kind: Option<string>): Value { Get(GetValue(data, kind, "from"), "username") }
  function Language(data: seq<Entry>, kind: Option<string>): Value { Get(GetValue(data, kind, "from"), "language_code") }
  function ReplyToMessage(data: seq<Entry>, kind: Option<string>): Value { GetValue(data, kind, "reply_to_message") }
  function Caption(data: seq<Entry>, kind: Option<string>): Value { GetValue(data, kind, "caption") }
  function Location(data: seq<Entry>, kind: Option<string>): Value { GetValue(data, kind, "location") }
  function Photo(data: seq<Entry>, kind: Option<string>): Value { GetValue(data, kind, "photo") }
  function Video(data: seq<Entry>, kind: Option<string>): Value { GetValue(data, kind, "video") }
  function Document(data: seq<Entry>, kind: Option<string>): Value { GetValue(data, kind, "document") }
  function ForwardFrom(data: seq<Entry>, kind: Option<string>): Value { GetValue(data, kind, "forward_from") }
  function ForwardFromChat(data: seq<Entry>, kind: Option<string>): Value { GetValue(data, kind, "forward_from_chat") }

  function Entities(data: seq<Entry>, kind: Option<string>): Value
  {
    Coalesce(GetValue(data, kind, "entities"), GetValue(data, kind, "caption_entities"))
  }

  function InlineQuery(data: seq<Entry>): Value { Find(data, "inline_query") }
  function ChosenInlineResult(data: seq<Entry>): Value { Find(data, "chosen_inline_result") }
  function ShippingQuery(data: seq<Entry>): Value { Find(data, "shipping_query") }
  function PreCheckoutQuery(data: seq<Entry>): Value { Find(data, "pre_checkout_query") }
  function CallbackQuery(data: seq<Entry>): Value { Find(data, "callback_query") }
  function UpdateID(data: seq<Entry>): Value { Find(data, "update_id") }

  /**
   * `is_group()`: the chat of the update is truthy and its type is, loosely,
   * "supergroup" or "group". With a string type that is exactly those two;
   * without a chat it is false.
   */
  function IsGroup(data: seq<Entry>, kind: Option<string>): (r: bool)
    ensures ChatType(data, kind).Str? ==> (r <==> ChatType(data, kind).s == "group" || ChatType(data, kind).s == "supergroup")
    ensures !Truthy(GetValue(data, kind, "chat")) ==> !r
  {
    var chat := GetValue(data, kind, "chat");
    ChatHasType(chat);
    Truthy(chat) && (LooselyEquals(Get(chat, "type"), "supergroup") || LooselyEquals(Get(chat, "type"), "group"))
  }

  /**
   * `is_private()`: the chat of the update is truthy and its type is,
   * loosely, "private". With a string type that is exactly "private", and
   * then the chat is never also a group.
   */
  function IsPrivate(data: seq<Entry>, kind: Option<string>): (r: bool)
    ensures ChatType(data, kind).Str? ==> (r <==> ChatType(data, kind).s == "private")
    ensures ChatType(data, kind).Str? ==> !(r && IsGroup(data, kind))
    ensures !Truthy(GetValue(data, kind, "chat")) ==> !r
  {
    var chat := GetValue(data, kind, "chat");
    ChatHasType(chat);
    Truthy(chat) && LooselyEquals(Get(chat, "type"), "private")
  }

  /** A chat with a type is an object with at least one field, so it is truthy. */
  lemma ChatHasType(chat: Value)
    ensures Get(chat, "type") != Null ==> Truthy(chat)
  {
  }

  /**
   * `Name()`: the first name, followed by a space and the last name when
   * there is one; null without a first name.
   */
  function Name(data: seq<Entry>, kind: Option<string>): (r: Value)
    ensures !Truthy(FirstName(data, kind)) <==> r == Null
    ensures r != Null ==> r.Str? && |r.s| > 0 && Interp(FirstName(data, kind)) <= r.s
    ensures Truthy(FirstName(data, kind)) && !Truthy(LastName(data, kind)) ==>
      r == Str(Interp(FirstName(data, kind)))
    ensures Truthy(FirstName(data, kind)) && Truthy(LastName(data, kind)) ==>
      r == Str(Interp(FirstName(data, kind)) + " " + Interp(LastName(data, kind)))
  {
    var first := FirstName(data, kind);
    var last := LastName(data, kind);
    if Truthy(first) then
      assert |Interp(first)| > 0 by { InterpTruthy(first); }
      Str(Interp(first) + (if Truthy(last) then " " + Interp(last) else ""))
    else
      Null
  }

  lemma InterpTruthy(v: Value)
    requires Truthy(v)
    ensures |Interp(v)| > 0
  {
    if v.Int? {
      if v.i < 0 {
      } else {
        assert |NatToString(v.i)| > 0;
      }
    }
  }

  /**
   * The six top-level shortcuts read `data[key]` directly: whatever the update
   * type, they never fall back to a `message` field.
   */
  lemma TopLevelShortcuts(data: seq<Entry>, i: nat)
    requires DistinctKeys(data) && i < |data|
    ensures data[i].key == "inline_query" ==> InlineQuery(data) == data[i].val
    ensures data[i].key == "chosen_inline_result" ==> ChosenInlineResult(data) == data[i].val
    ensures data[i].key == "shipping_query" ==> ShippingQuery(data) == data[i].val
    ensures data[i].key == "pre_checkout_query" ==> PreCheckoutQuery(data) == data[i].val
    ensures data[i].key == "callback_query" ==> CallbackQuery(data) == data[i].val
    ensures data[i].key == "update_id" ==> UpdateID(data) == data[i].val
  {
    FindAt(data, i);
  }

  /**
   * Each top-level shortcut whose key is not a top-level key is null, even
   * when the body's `message` holds that key and `getValue` would find it
   * there.
   */
  lemma TopLevelShortcutsAbsent(data: seq<Entry>, kind: Option<string>, k: string)
    requires k in {"inline_query", "chosen_inline_result", "shipping_query", "pre_checkout_query", "callback_query", "update_id"}
    requires !HasKey(data, k) && Get(Body(data, kind), k) == Null
    ensures k == "inline_query" ==> InlineQuery(data) == Null
    ensures k == "chosen_inline_result" ==> ChosenInlineResult(data) == Null
    ensures k == "shipping_query" ==> ShippingQuery(data) == Null
    ensures k == "pre_checkout_query" ==> PreCheckoutQuery(data) == Null
    ensures k == "callback_query" ==> CallbackQuery(data) == Null
    ensures k == "update_id" ==> UpdateID(data) == Null
    ensures GetValue(data, kind, k) == Get(Get(Body(data, kind), "message"), k)
  {
    FindAbsent(data, k);
  }

  /**
   * The fallback happens on the `chat` and `from` objects, not on their
   * fields: once the body has a chat, its id is used even when null.
   */
  lemma ChatAndSenderLookup(data: seq<Entry>, kind: Option<string>)
    ensures var body := Body(data, kind);
      && (Get(body, "chat") != Null ==> ChatID(data, kind) == Get(Get(body, "chat"), "id"))
      && (Get(body, "chat") == Null ==> ChatID(data, kind) == Get(Get(Get(body, "message"), "chat"), "id"))
      && (Get(body, "from") != Null ==> UserID(data, kind) == Get(Get(body, "from"), "id"))
      && (Get(body, "from") == Null ==> UserID(data, kind) == Get(Get(Get(body, "message"), "from"), "id"))
  {
  }

  /** Without `chat` or `from` at either level, the derived shortcuts are null. */
  lemma ChatAndSenderAbsent(data: seq<Entry>, kind: Option<string>)
    requires GetValue(data, kind, "chat") == Null && GetValue(data, kind, "from") == Null
    ensures ChatID(data, kind) == Null && ChatType(data, kind) == Null
    ensures UserID(data, kind) == Null && FirstName(data, kind) == Null && Name(data, kind) == Null
  {
  }
}
