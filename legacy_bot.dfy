/**
 * The older copy, bot.class.php: a Bot with the same update accessor and
 * shortcuts (parse mode fixed to HTML, a plainer failure report), and a
 * MethodResult whose array-style writes prefer the top level and fall
 * back to object properties.
 */
module LegacyClient {
  import opened Json
  import opened Updates
  import opened Params
  import opened Results
  import opened Reports

  /** `!$reply['ok'] && $this->debug && error_reporting() > 0` */
  predicate ShouldReport(reply: seq<Entry>, debug: bool, errorReporting: int)
  {
    !Truthy(Lookup(reply, "ok")) && debug && errorReporting > 0
  }

  class Bot {
    var data: seq<Entry>
    var updateType: Option<string>
    var debug: bool
    var debugAdmin: Value

    predicate Valid()
      reads this
    {
      updateType == UpdateType(data)
    }

    /** `new Bot($token, $debug_chat)` with the decoded webhook input. */
    constructor (debugChat: Value, input: seq<Entry>)
      ensures Valid() && data == input
      ensures debug == Truthy(debugChat)
      ensures debugAdmin == if Truthy(debugChat) then debugChat else Null
    {
      data := input;
      updateType := UpdateType(input);
      if Truthy(debugChat) {
        debugAdmin := debugChat;
        debug := true;
      } else {
        debugAdmin := Null;
        debug := false;
      }
    }

    /** `setData`: replaces the update and recomputes its type. */
    method SetData(d: seq<Entry>)
      modifies this
      ensures data == d && Valid()
      ensures GetUpdateType() == SecondKey(d)
      ensures debug == old(debug) && debugAdmin == old(debugAdmin)
    {
      data := d;
      updateType := UpdateType(d);
    }

    /** `getUpdateType` */
    function GetUpdateType(): (r: Value)
      reads this
      ensures Valid() ==> r == SecondKey(data)
    {
      TypeValue(updateType)
    }

    /** `getValue`: the raw field of the body, else of its `message`, else null. */
    function GetValue(search: string): (r: Value)
      reads this
      ensures Valid() && DistinctKeys(data) && |data| >= 2 ==>
        r == Coalesce(Get(SecondValue(data), search), Get(Get(SecondValue(data), "message"), search))
    {
      if Valid() && DistinctKeys(data) && |data| >= 2 then
        FindAt(data, 1);
        Updates.GetValue(data, updateType, search)
      else
        Updates.GetValue(data, updateType, search)
    }

    /** `send`, with parse mode HTML. */
    method Send(text: string, params: seq<Entry> := []) returns (args: seq<Entry>)
      ensures args == SendArgs(ChatID(data, updateType), "HTML", text, params)
    {
      args := SendDefaults(ChatID(data, updateType), "HTML", text);
      if params != [] {
        args := Merge(args, params);
      }
    }

    /** `reply`, with parse mode HTML; the text always wins. */
    method Reply(text: string, params: seq<Entry> := []) returns (args: seq<Entry>)
      ensures args == ReplyArgs(ChatID(data, updateType), "HTML", MessageID(data, updateType), text, params)
      ensures Find(args, "text") == Str(text)
    {
      args := ReplyDefaults(ChatID(data, updateType), "HTML", MessageID(data, updateType), text);
      if params != [] {
        args := Merge(args, params);
        args := Put(args, "text", Str(text));
        PutFind(Overlay(ReplyDefaults(ChatID(data, updateType), "HTML", MessageID(data, updateType), text), params), "text", Str(text), "text");
      } else {
        FindAt(args, 4);
      }
    }

    /** `edit`, with parse mode HTML; the text always wins. */
    method Edit(text: string, params: seq<Entry> := []) returns (args: seq<Entry>)
      ensures args == EditArgs(ChatID(data, updateType), "HTML", text, MessageID(data, updateType), params)
      ensures Find(args, "text") == Str(text)
    {
      args := EditDefaults(ChatID(data, updateType), "HTML", text, MessageID(data, updateType));
      if params != [] {
        args := Merge(args, params);
        args := Put(args, "text", Str(text));
        PutFind(Overlay(EditDefaults(ChatID(data, updateType), "HTML", text, MessageID(data, updateType)), params), "text", Str(text), "text");
      } else {
        FindAt(args, 3);
      }
    }

    /** `action` */
    method Action(action: string := "typing", params: seq<Entry> := []) returns (args: seq<Entry>)
      ensures args == ActionArgs(ChatID(data, updateType), action, params)
    {
      args := ActionDefaults(ChatID(data, updateType), action);
      if params != [] {
        args := Merge(args, params);
      }
    }

    /**
     * The report `__call` makes after a failed method: the encoded response
     * sent with `send` to the debug chat, or nothing.
     */
    method ReportFailure(reply: seq<Entry>, errorReporting: int, encode: Value -> string) returns (args: Option<seq<Entry>>)
      ensures args.Some? <==> ShouldReport(reply, debug, errorReporting)
      ensures args.Some? ==> args.value == SendArgs(ChatID(data, updateType), "HTML", encode(Obj(reply)), [Entry("chat_id", debugAdmin)])
      ensures args.Some? ==> Find(args.value, "chat_id") == debugAdmin && Find(args.value, "text") == Str(encode(Obj(reply)))
    {
      if !ShouldReport(reply, debug, errorReporting) {
        return None;
      }
      var sent := Send(encode(Obj(reply)), [Entry("chat_id", debugAdmin)]);
      args := Some(sent);
      var defaults := SendDefaults(ChatID(data, updateType), "HTML", encode(Obj(reply)));
      FindAt(defaults, 3);
      var params := [Entry("chat_id", debugAdmin)];
      assert KeysOf(params) == ["chat_id"];
      OverlayFind(defaults, params);
    }
  }

  /**
   * The older MethodResult: `data` is the decoded response, `props` the
   * object properties its constructor copied from it.
   */
  class MethodResult {
    var data: seq<Entry>
    var props: seq<Entry>

    constructor (decoded: seq<Entry>)
      ensures data == decoded && props == decoded
    {
      data := decoded;
      props := decoded;
    }

    /** `$r[k]`: the top-level entry, else the one in `result`, else null. */
    function OffsetGet(k: string): (r: Value)
      reads this
      ensures r != Null <==> OffsetExists(k)
      ensures Find(data, k) != Null ==> r == Find(data, k)
      ensures Find(data, k) == Null ==> r == Nested(data, k)
    {
      Lookup(data, k)
    }

    /** `isset($r[k])` */
    predicate OffsetExists(k: string)
      reads this
    {
      Find(data, k) != Null || Nested(data, k) != Null
    }

    /**
     * `$r[k] = v`: into the top level if set there, else into `result` if
     * set there, else into an object property.
     */
    method OffsetSet(k: string, v: Value)
      modifies this
      ensures data == SetTopFirst(old(data), k, v)
      ensures props == if IsSet(old(data), k) then old(props) else Put(old(props), k, v)
    {
      if Find(data, k) != Null {
        data := Put(data, k, v);
      } else if Nested(data, k) != Null {
        data := PutNested(data, k, v);
      } else {
        props := Put(props, k, v);
      }
    }

    /** `unset($r[k])`: from the top level, else from `result`, else the object property. */
    method OffsetUnset(k: string)
      modifies this
      ensures Find(old(data), k) != Null ==> data == Delete(old(data), k) && props == old(props)
      ensures Find(old(data), k) == Null && Nested(old(data), k) != Null ==>
        data == DeleteNested(old(data), k) && props == old(props)
      ensures !IsSet(old(data), k) ==> data == old(data) && props == Delete(old(props), k)
    {
      if Find(data, k) != Null {
        data := Delete(data, k);
      } else if Nested(data, k) != Null {
        data := DeleteNested(data, k);
      } else {
        props := Delete(props, k);
      }
    }
  }

  /**
   * After `unset($r[k])` the key is no longer read at the level it was
   * removed from: an entry set at both levels uncovers the nested value.
   */
  lemma {:induction false} OffsetUnsetEffect(data: seq<Entry>, k: string)
    requires k != "result"
    ensures Find(data, k) != Null ==> Lookup(Delete(data, k), k) == Nested(data, k)
    ensures Find(data, k) == Null && Nested(data, k) != Null ==> Lookup(DeleteNested(data, k), k) == Null
  {
    DeleteFind(data, k, k);
    DeleteFind(data, k, "result");
    NestedAfterDeleteNested(data, k, k);
  }
}
