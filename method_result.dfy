/**
 * MethodResult of files/methodresult.class.php: the decoded response of one
 * API call, read and updated in place through property-style and
 * array-style access, plus shortcuts that act again on the message the
 * response describes.
 */
module MethodResults {
  import opened Json
  import opened Results
  import opened Params

  /** What `forward` hands to the API: nothing (false), one call, or a list of calls. */
  datatype Forwarded = Refused | Single(call: seq<Entry>) | Batch(calls: seq<seq<Entry>>)

  /** `$this->chat->id`: the id of the chat the response describes. */
  function ChatIdOf(data: seq<Entry>): Value
  {
    Get(Lookup(data, "chat"), "id")
  }

  /** `$this->message_id` */
  function MessageIdOf(data: seq<Entry>): Value
  {
    Lookup(data, "message_id")
  }

  /** The guard of every shortcut: both the chat id and the message id are set. */
  predicate IdentifiesMessage(data: seq<Entry>)
  {
    ChatIdOf(data) != Null && MessageIdOf(data) != Null
  }

  function EditDefaultsOf(data: seq<Entry>, text: string): seq<Entry>
  {
    [ Entry("chat_id", ChatIdOf(data)), Entry("disable_web_page_preview", Bool(true)),
      Entry("text", Str(text)), Entry("message_id", MessageIdOf(data)) ]
  }

  function ReplyDefaultsOf(data: seq<Entry>, text: string): seq<Entry>
  {
    [ Entry("chat_id", ChatIdOf(data)), Entry("disable_web_page_preview", Bool(true)),
      Entry("text", Str(text)), Entry("reply_to_message_id", MessageIdOf(data)) ]
  }

  function DeleteDefaultsOf(data: seq<Entry>): seq<Entry>
  {
    [ Entry("chat_id", ChatIdOf(data)), Entry("message_id", MessageIdOf(data)) ]
  }

  function ForwardDefaultsOf(data: seq<Entry>, chatId: Value): seq<Entry>
  {
    [ Entry("from_chat_id", ChatIdOf(data)), Entry("chat_id", chatId), Entry("message_id", MessageIdOf(data)) ]
  }

  /** The parameters overwrite the defaults, then `text` is reset (when parameters were given). */
  function MergeResetText(defaults: seq<Entry>, params: seq<Entry>, text: string): seq<Entry>
  {
    if params == [] then defaults else Put(Overlay(defaults, params), "text", Str(text))
  }

  /** `append`: the parameters overwrite the defaults, then `text` becomes old text ++ new text. */
  function AppendArgs(data: seq<Entry>, text: string, params: seq<Entry>): seq<Entry>
  {
    var defaults := EditDefaultsOf(data, text);
    var merged := if params == [] then defaults else Overlay(defaults, params);
    Put(merged, "text", Str(Interp(Lookup(data, "text")) + text))
  }

  /** `edit` and `reply` always send the given text, whatever the parameters say. */
  lemma MergeResetTextSpec(defaults: seq<Entry>, params: seq<Entry>, text: string)
    requires DistinctKeys(params) && Find(defaults, "text") == Str(text)
    ensures var args := MergeResetText(defaults, params, text);
      && Find(args, "text") == Str(text)
      && forall k :: k != "text" ==> Find(args, k) == if HasKey(params, k) then Find(params, k) else Find(defaults, k)
  {
    if params != [] {
      OverlayFind(defaults, params);
      forall k ensures Find(Put(Overlay(defaults, params), "text", Str(text)), k)
        == if k == "text" then Str(text) else Find(Overlay(defaults, params), k)
      {
        PutFind(Overlay(defaults, params), "text", Str(text), k);
      }
    }
  }

  /** `append` sends the current text followed by the new one; a `text` parameter is ignored. */
  lemma AppendArgsSpec(data: seq<Entry>, text: string, params: seq<Entry>)
    requires DistinctKeys(params)
    ensures var args := AppendArgs(data, text, params);
      && Find(args, "text") == Str(Interp(Lookup(data, "text")) + text)
      && forall k :: k != "text" ==> Find(args, k) == if HasKey(params, k) then Find(params, k) else Find(EditDefaultsOf(data, text), k)
  {
    var defaults := EditDefaultsOf(data, text);
    var merged := if params == [] then defaults else Overlay(defaults, params);
    OverlayFind(defaults, params);
    forall k ensures Find(AppendArgs(data, text, params), k)
      == if k == "text" then Str(Interp(Lookup(data, "text")) + text) else Find(merged, k)
    {
      PutFind(merged, "text", Str(Interp(Lookup(data, "text")) + text), k);
    }
    if params == [] {
      assert forall k :: !HasKey(params, k);
    }
  }

  /** As written: only an array of chat ids is iterated; any other chat id is never used. */
  function ForwardTargetsAsWritten(chatId: Value): seq<Value>
  {
    match chatId
    case List(items) => items
    case Obj(fs) => ValuesOf(fs)
    case _ => []
  }

  /** The evidently intended targets: an array of chat ids, or the single chat id given. */
  function ForwardTargets(chatId: Value): seq<Value>
  {
    if chatId.List? || chatId.Obj? then ForwardTargetsAsWritten(chatId) else [chatId]
  }

  /** As written, `forward($chat_id)` with a single chat id issues no forward at all. */
  lemma ForwardSingleIdAsWritten(id: int)
    ensures ForwardTargetsAsWritten(Int(id)) == []
    ensures ForwardTargets(Int(id)) == [Int(id)]
  {
  }

  /** Corrected targets: one forward per listed id in order, exactly one for a single id. */
  lemma ForwardTargetsSpec(chatId: Value)
    ensures chatId.List? ==> ForwardTargets(chatId) == chatId.items
    ensures chatId.Obj? ==>
      && |ForwardTargets(chatId)| == |chatId.fields|
      && forall i :: 0 <= i < |chatId.fields| ==> ForwardTargets(chatId)[i] == chatId.fields[i].val
    ensures !chatId.List? && !chatId.Obj? ==> |ForwardTargets(chatId)| == 1
  {
  }

  /**
   * The calls `forward` returns for the given targets: one per target, in
   * order, each the merged map with `chat_id` set to that target; a lone
   * call is returned unwrapped.
   */
  predicate ForwardedTo(r: Forwarded, base: seq<Entry>, targets: seq<Value>)
  {
    && (|targets| == 1 <==> r.Single?)
    && (r.Single? ==> r.call == Put(base, "chat_id", targets[0]))
    && (r.Batch? ==> |r.calls| == |targets|)
    && (r.Batch? ==> forall i :: 0 <= i < |targets| ==> r.calls[i] == Put(base, "chat_id", targets[i]))
    && !r.Refused?
  }

  /** The `foreach` of `forward` over its targets. */
  method ForwardEach(base: seq<Entry>, targets: seq<Value>) returns (r: Forwarded)
    ensures ForwardedTo(r, base, targets)
  {
    var calls: seq<seq<Entry>> := [];
    var i := 0;
    while i < |targets|
      invariant 0 <= i <= |targets|
      invariant |calls| == i
      invariant forall j :: 0 <= j < i ==> calls[j] == Put(base, "chat_id", targets[j])
    {
      calls := calls + [Put(base, "chat_id", targets[i])];
      i := i + 1;
    }
    if |calls| == 1 {
      r := Single(calls[0]);
    } else {
      r := Batch(calls);
    }
  }

  class MethodResult {
    var data: seq<Entry>

    /** The response decoded from JSON; the API call itself is not modelled. */
    constructor (decoded: seq<Entry>)
      ensures data == decoded
    {
      data := decoded;
    }

    /** `$r->k`: the top-level entry, else the one inside `result`, else null. */
    function GetProperty(k: string): (r: Value)
      reads this
      ensures r != Null <==> IssetProperty(k)
      ensures Find(data, k) != Null ==> r == Find(data, k)
      ensures Find(data, k) == Null ==> r == Nested(data, k)
    {
      Lookup(data, k)
    }

    /** `isset($r->k)` */
    predicate IssetProperty(k: string)
      reads this
    {
      IsSet(data, k)
    }

    /** `$r[k]`: reads exactly like `$r->k`. */
    function OffsetGet(k: string): (r: Value)
      reads this
      ensures r == GetProperty(k)
      ensures r != Null <==> OffsetExists(k)
    {
      Lookup(data, k)
    }

    /** `isset($r[k])`: holds exactly when `$r->k` is set. */
    predicate OffsetExists(k: string)
      reads this
      ensures OffsetExists(k) <==> IssetProperty(k)
    {
      Find(data, k) != Null || Nested(data, k) != Null
    }

    /** `$r->k = v`: into `result` when set there, else at the top level. */
    method SetProperty(k: string, v: Value)
      modifies this
      ensures data == SetNestedFirst(old(data), k, v)
    {
      if Nested(data, k) != Null {
        data := PutNested(data, k, v);
      } else {
        data := Put(data, k, v);
      }
    }

    /** `$r[k] = v`: the same policy as `$r->k = v`. */
    method OffsetSet(k: string, v: Value)
      modifies this
      ensures data == SetNestedFirst(old(data), k, v)
    {
      if Nested(data, k) != Null {
        data := PutNested(data, k, v);
      } else {
        data := Put(data, k, v);
      }
    }

    /** `unset($r->k)`: from `result` first. */
    method UnsetProperty(k: string)
      modifies this
      ensures data == UnsetNestedFirst(old(data), k)
    {
      if Nested(data, k) != Null {
        data := DeleteNested(data, k);
      } else {
        data := Delete(data, k);
      }
    }

    /** `unset($r[k])`: from the top level first. */
    method OffsetUnset(k: string)
      modifies this
      ensures data == UnsetTopFirst(old(data), k)
    {
      if Find(data, k) != Null {
        data := Delete(data, k);
      } else if Nested(data, k) != Null {
        data := DeleteNested(data, k);
      } else {
        // `unset($this->$index)` on an undeclared property runs `__unset`
        data := Delete(data, k);
      }
    }

    /**
     * `edit`: refused (false) unless the response identifies a message;
     * otherwise `editMessageText` is called and this object is rebuilt from
     * its decoded reply.
     */
    method Edit(text: string, params: seq<Entry> := [], reply: seq<Entry>) returns (args: Option<seq<Entry>>)
      modifies this
      ensures !IdentifiesMessage(old(data)) ==> args == None && data == old(data)
      ensures IdentifiesMessage(old(data)) ==>
        args == Some(MergeResetText(EditDefaultsOf(old(data), text), params, text)) && data == reply
    {
      if !IdentifiesMessage(data) {
        return None;
      }
      var defaults := EditDefaultsOf(data, text);
      if params != [] {
        defaults := Merge(defaults, params);
        defaults := Put(defaults, "text", Str(text));
      }
      args := Some(defaults);
      data := reply;
    }

    /** `append`: as `edit`, with the current text followed by the new one. */
    method Append(text: string, params: seq<Entry> := [], reply: seq<Entry>) returns (args: Option<seq<Entry>>)
      modifies this
      ensures !IdentifiesMessage(old(data)) ==> args == None && data == old(data)
      ensures IdentifiesMessage(old(data)) ==> args == Some(AppendArgs(old(data), text, params)) && data == reply
    {
      if !IdentifiesMessage(data) {
        return None;
      }
      var defaults := EditDefaultsOf(data, text);
      if params != [] {
        defaults := Merge(defaults, params);
      }
      defaults := Put(defaults, "text", Str(Interp(GetProperty("text")) + text));
      args := Some(defaults);
      data := reply;
    }

    /** `reply`: a `sendMessage` answering the message, always with the given text. */
    method Reply(text: string, params: seq<Entry> := []) returns (args: Option<seq<Entry>>)
      ensures !IdentifiesMessage(data) <==> args == None
      ensures args.Some? ==> args.value == MergeResetText(ReplyDefaultsOf(data, text), params, text)
      ensures args.Some? ==> Find(args.value, "text") == Str(text)
    {
      if !IdentifiesMessage(data) {
        return None;
      }
      var defaults := ReplyDefaultsOf(data, text);
      if params != [] {
        defaults := Merge(defaults, params);
        defaults := Put(defaults, "text", Str(text));
        PutFind(Overlay(ReplyDefaultsOf(data, text), params), "text", Str(text), "text");
      } else {
        FindAt(defaults, 2);
      }
      args := Some(defaults);
    }

    /** `delete`: a `deleteMessage` for the message, parameters overwriting the defaults. */
    method DeleteMessage(params: seq<Entry> := []) returns (args: Option<seq<Entry>>)
      ensures !IdentifiesMessage(data) <==> args == None
      ensures args.Some? ==> args.value == Overlay(DeleteDefaultsOf(data), params)
    {
      if !IdentifiesMessage(data) {
        return None;
      }
      var defaults := DeleteDefaultsOf(data);
      if params != [] {
        defaults := Merge(defaults, params);
      }
      args := Some(defaults);
    }

    /**
     * `forward` as written: one `forwardMessage` per element of an array
     * `chat_id`, in order; any other `chat_id` issues no forward and yields
     * an empty array.
     */
    method Forward(chatId: Value, params: seq<Entry> := []) returns (r: Forwarded)
      ensures !IdentifiesMessage(data) <==> r == Refused
      ensures IdentifiesMessage(data) ==>
        ForwardedTo(r, Overlay(ForwardDefaultsOf(data, chatId), params), ForwardTargetsAsWritten(chatId))
      ensures IdentifiesMessage(data) && !chatId.List? && !chatId.Obj? ==> r == Batch([])
    {
      if !IdentifiesMessage(data) {
        return Refused;
      }
      var base := ForwardDefaultsOf(data, chatId);
      if params != [] {
        base := Merge(base, params);
      }
      r := ForwardEach(base, ForwardTargetsAsWritten(chatId));
    }

    /** `forward` as evidently intended: a single chat id is forwarded to once. */
    method ForwardCorrected(chatId: Value, params: seq<Entry> := []) returns (r: Forwarded)
      ensures !IdentifiesMessage(data) <==> r == Refused
      ensures IdentifiesMessage(data) ==>
        ForwardedTo(r, Overlay(ForwardDefaultsOf(data, chatId), params), ForwardTargets(chatId))
      ensures IdentifiesMessage(data) && !chatId.List? && !chatId.Obj? ==>
        r == Single(Put(Overlay(ForwardDefaultsOf(data, chatId), params), "chat_id", chatId))
    {
      if !IdentifiesMessage(data) {
        return Refused;
      }
      var base := ForwardDefaultsOf(data, chatId);
      if params != [] {
        base := Merge(base, params);
      }
      r := ForwardEach(base, ForwardTargets(chatId));
    }
  }
}
