/**
 * The argument maps built by the shortcut methods (`send`, `reply`, `edit`,
 * `action`) of both Bot classes: a default map whose entries the caller's
 * parameters overwrite one key at a time, in the caller's order.
 */
module Params {
  import opened Json

  /** The map left by `foreach ($params as $param => $value) $default[$param] = $value;` */
  function Overlay(defaults: seq<Entry>, params: seq<Entry>): seq<Entry>
    decreases |params|
  {
    if params == [] then defaults
    else Overlay(Put(defaults, params[0].key, params[0].val), params[1..])
  }

  /** The foreach loop itself, run on a local copy of the defaults. */
  method Merge(defaults: seq<Entry>, params: seq<Entry>) returns (args: seq<Entry>)
    ensures args == Overlay(defaults, params)
  {
    args := defaults;
    var i := 0;
    while i < |params|
      invariant 0 <= i <= |params|
      invariant Overlay(args, params[i..]) == Overlay(defaults, params)
    {
      assert params[i..][1..] == params[i + 1..];
      args := Put(args, params[i].key, params[i].val);
      i := i + 1;
    }
    assert params[i..] == [];
  }

  /** Every key reads the caller's value if the caller gave one, else the default. */
  ghost predicate Overrides(args: seq<Entry>, defaults: seq<Entry>, params: seq<Entry>)
  {
    forall k :: Find(args, k) == if HasKey(params, k) then Find(params, k) else Find(defaults, k)
  }

  /** The defaults keep their keys in their order; the caller's new keys follow. */
  ghost predicate KeepsDefaultOrder(args: seq<Entry>, defaults: seq<Entry>, params: seq<Entry>)
  {
    && KeysOf(defaults) <= KeysOf(args)
    && forall k :: HasKey(args, k) <==> HasKey(defaults, k) || HasKey(params, k)
  }

  lemma {:induction false} OverlayFind(defaults: seq<Entry>, params: seq<Entry>)
    requires DistinctKeys(params)
    ensures Overrides(Overlay(defaults, params), defaults, params)
    decreases |params|
  {
    if params != [] {
      var p, rest := params[0], params[1..];
      OverlayFind(Put(defaults, p.key, p.val), rest);
      assert KeysOf(params) == [p.key] + KeysOf(rest);
      forall k ensures Find(Overlay(defaults, params), k)
        == if HasKey(params, k) then Find(params, k) else Find(defaults, k)
      {
        PutFind(defaults, p.key, p.val, k);
      }
    }
  }

  lemma {:induction false} OverlayKeys(defaults: seq<Entry>, params: seq<Entry>)
    ensures KeepsDefaultOrder(Overlay(defaults, params), defaults, params)
    decreases |params|
  {
    if params != [] {
      var p, rest := params[0], params[1..];
      var next := Put(defaults, p.key, p.val);
      OverlayKeys(next, rest);
      PutKeys(defaults, p.key, p.val);
      assert KeysOf(params) == [p.key] + KeysOf(rest);
      assert KeysOf(defaults) <= KeysOf(next);
    }
  }

  lemma {:induction false} OverlayDistinct(defaults: seq<Entry>, params: seq<Entry>)
    requires DistinctKeys(defaults)
    ensures DistinctKeys(Overlay(defaults, params))
    decreases |params|
  {
    if params != [] {
      PutDistinct(defaults, params[0].key, params[0].val);
      OverlayDistinct(Put(defaults, params[0].key, params[0].val), params[1..]);
    }
  }

  function SendDefaults(chatId: Value, parseMode: string, text: string): seq<Entry>
  {
    [ Entry("chat_id", chatId), Entry("parse_mode", Str(parseMode)),
      Entry("disable_web_page_preview", Bool(true)), Entry("text", Str(text)) ]
  }

  function ReplyDefaults(chatId: Value, parseMode: string, messageId: Value, text: string): seq<Entry>
  {
    [ Entry("chat_id", chatId), Entry("parse_mode", Str(parseMode)),
      Entry("disable_web_page_preview", Bool(true)), Entry("reply_to_message_id", messageId),
      Entry("text", Str(text)) ]
  }

  function EditDefaults(chatId: Value, parseMode: string, text: string, messageId: Value): seq<Entry>
  {
    [ Entry("chat_id", chatId), Entry("parse_mode", Str(parseMode)),
      Entry("disable_web_page_preview", Bool(true)), Entry("text", Str(text)),
      Entry("message_id", messageId) ]
  }

  function ActionDefaults(chatId: Value, action: string): seq<Entry>
  {
    [ Entry("chat_id", chatId), Entry("action", Str(action)) ]
  }

  /** `send`: the caller's parameters overwrite the defaults, `text` included. */
  function SendArgs(chatId: Value, parseMode: string, text: string, params: seq<Entry>): seq<Entry>
  {
    var defaults := SendDefaults(chatId, parseMode, text);
    if params == [] then defaults else Overlay(defaults, params)
  }

  /** `reply`: as `send`, but `text` is reset to the argument after the merge. */
  function ReplyArgs(chatId: Value, parseMode: string, messageId: Value, text: string, params: seq<Entry>): seq<Entry>
  {
    var defaults := ReplyDefaults(chatId, parseMode, messageId, text);
    if params == [] then defaults else Put(Overlay(defaults, params), "text", Str(text))
  }

  /** `edit`: as `reply`, aimed at the message being edited. */
  function EditArgs(chatId: Value, parseMode: string, text: string, messageId: Value, params: seq<Entry>): seq<Entry>
  {
    var defaults := EditDefaults(chatId, parseMode, text, messageId);
    if params == [] then defaults else Put(Overlay(defaults, params), "text", Str(text))
  }

  /** `action`: the chat action, overwritable by the caller. */
  function ActionArgs(chatId: Value, action: string, params: seq<Entry>): seq<Entry>
  {
    var defaults := ActionDefaults(chatId, action);
    if params == [] then defaults else Overlay(defaults, params)
  }

  /** Merging then forcing one key: that key reads the forced value, the rest merge as usual. */
  lemma ForcedKey(defaults: seq<Entry>, params: seq<Entry>, key: string, v: Value)
    requires DistinctKeys(params) && HasKey(defaults, key)
    ensures var args := Put(Overlay(defaults, params), key, v);
      && Find(args, key) == v
      && (forall k :: k != key ==> Find(args, k) == if HasKey(params, k) then Find(params, k) else Find(defaults, k))
      && KeepsDefaultOrder(args, defaults, params)
  {
    var merged := Overlay(defaults, params);
    OverlayFind(defaults, params);
    OverlayKeys(defaults, params);
    PutKeys(merged, key, v);
    forall k ensures Find(Put(merged, key, v), k) == if k == key then v else Find(merged, k) {
      PutFind(merged, key, v, k);
    }
  }

  /** In `send` a caller-supplied `text` wins over the text argument. */
  lemma SendArgsSpec(chatId: Value, parseMode: string, text: string, params: seq<Entry>)
    requires DistinctKeys(params)
    ensures var args := SendArgs(chatId, parseMode, text, params);
      && Overrides(args, SendDefaults(chatId, parseMode, text), params)
      && KeepsDefaultOrder(args, SendDefaults(chatId, parseMode, text), params)
      && Find(args, "text") == (if HasKey(params, "text") then Find(params, "text") else Str(text))
      && DistinctKeys(args)
  {
    var defaults := SendDefaults(chatId, parseMode, text);
    FindAt(defaults, 3);
    OverlayFind(defaults, params);
    OverlayKeys(defaults, params);
    OverlayDistinct(defaults, params);
  }

  /** In `reply` the parameters overwrite every default, but `text` is always the argument. */
  lemma ReplyArgsSpec(chatId: Value, parseMode: string, messageId: Value, text: string, params: seq<Entry>)
    requires DistinctKeys(params)
    ensures var args := ReplyArgs(chatId, parseMode, messageId, text, params);
      var defaults := ReplyDefaults(chatId, parseMode, messageId, text);
      && Find(args, "text") == Str(text)
      && (forall k :: k != "text" ==> Find(args, k) == if HasKey(params, k) then Find(params, k) else Find(defaults, k))
      && KeepsDefaultOrder(args, defaults, params)
      && DistinctKeys(args)
  {
    var defaults := ReplyDefaults(chatId, parseMode, messageId, text);
    assert KeysOf(defaults)[4] == "text";
    FindAt(defaults, 4);
    ForcedKey(defaults, params, "text", Str(text));
    OverlayDistinct(defaults, params);
    PutDistinct(Overlay(defaults, params), "text", Str(text));
  }

  /** In `edit` the parameters overwrite every default, but `text` is always the argument. */
  lemma EditArgsSpec(chatId: Value, parseMode: string, text: string, messageId: Value, params: seq<Entry>)
    requires DistinctKeys(params)
    ensures var args := EditArgs(chatId, parseMode, text, messageId, params);
      var defaults := EditDefaults(chatId, parseMode, text, messageId);
      && Find(args, "text") == Str(text)
      && (forall k :: k != "text" ==> Find(args, k) == if HasKey(params, k) then Find(params, k) else Find(defaults, k))
      && KeepsDefaultOrder(args, defaults, params)
      && DistinctKeys(args)
  {
    var defaults := EditDefaults(chatId, parseMode, text, messageId);
    assert KeysOf(defaults)[3] == "text";
    FindAt(defaults, 3);
    ForcedKey(defaults, params, "text", Str(text));
    OverlayDistinct(defaults, params);
    PutDistinct(Overlay(defaults, params), "text", Str(text));
  }

  /** In `action` the caller may overwrite the chat and the action. */
  lemma ActionArgsSpec(chatId: Value, action: string, params: seq<Entry>)
    requires DistinctKeys(params)
    ensures var args := ActionArgs(chatId, action, params);
      && Overrides(args, ActionDefaults(chatId, action), params)
      && KeepsDefaultOrder(args, ActionDefaults(chatId, action), params)
      && Find(args, "action") == (if HasKey(params, "action") then Find(params, "action") else Str(action))
  {
    FindAt(ActionDefaults(chatId, action), 1);
    OverlayFind(ActionDefaults(chatId, action), params);
    OverlayKeys(ActionDefaults(chatId, action), params);
  }
}
