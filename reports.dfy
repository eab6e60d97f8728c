/**
 * The failure report composed from an update, shared by the newer Bot's
 * `__call` (files/bot.class.php) and by BotErrorHandler
 * (files/bot.errorhandler.php): the quoted text chosen by a `??` chain, the
 * sender, the chat and its mention, and the fan-out of a log message to
 * one or several admins.
 */
module Reports {
  import opened Json

  /** `@array_values($data)[1]`: the body of the update, taken by position. */
  function SecondValue(data: seq<Entry>): Value
  {
    if |data| >= 2 then data[1].val else Null
  }

  /** `@array_keys($data)[1]` as a PHP value: the update type, or null. */
  function SecondKey(data: seq<Entry>): Value
  {
    if |data| >= 2 then Str(data[1].key) else Null
  }

  /** A chain `$a ?? $b ?? … ?? $fallback`. */
  function FirstPresent(vs: seq<Value>, fallback: Value): (r: Value)
    ensures r == fallback || (r != Null && r in vs)
    decreases |vs|
  {
    if vs == [] then fallback
    else if vs[0] != Null then vs[0]
    else FirstPresent(vs[1..], fallback)
  }

  /** The chain stops at the first non-null value. */
  lemma {:induction false} FirstPresentAt(vs: seq<Value>, fallback: Value, i: nat)
    requires i < |vs| && vs[i] != Null
    requires forall j :: 0 <= j < i ==> vs[j] == Null
    ensures FirstPresent(vs, fallback) == vs[i]
    decreases i
  {
    if i > 0 {
      FirstPresentAt(vs[1..], fallback, i - 1);
    }
  }

  /** With every value null the chain yields the fallback. */
  lemma {:induction false} FirstPresentNone(vs: seq<Value>, fallback: Value)
    requires forall j :: 0 <= j < |vs| ==> vs[j] == Null
    ensures FirstPresent(vs, fallback) == fallback
    decreases |vs|
  {
    if vs != [] {
      FirstPresentNone(vs[1..], fallback);
    }
  }

  /** The candidates for the quoted text, in the order the chain tries them. */
  function TextCandidates(body: Value): seq<Value>
  {
    [Get(body, "data"), Get(body, "query"), Get(body, "text"), Get(body, "caption"), Get(body, "result_id")]
  }

  /** `$data['data'] ?? $data['query'] ?? $data['text'] ?? $data['caption'] ?? $data['result_id'] ?? $type` */
  function ReportText(body: Value, kind: Value): Value
  {
    FirstPresent(TextCandidates(body), kind)
  }

  /** `$data['from']['id'] ?? null` */
  function Sender(body: Value): Value { Get(Get(body, "from"), "id") }

  /** `$data['from']['first_name'] ?? null` */
  function SenderName(body: Value): Value { Get(Get(body, "from"), "first_name") }

  /** `$data['chat'] ?? $data['message']['chat'] ?? null` */
  function ChatOf(body: Value): Value
  {
    Coalesce(Get(body, "chat"), Get(Get(body, "message"), "chat"))
  }

  /** `$data['message_id'] ?? $data['message']['message_id'] ?? null` */
  function ReportMessageId(body: Value): Value
  {
    Coalesce(Get(body, "message_id"), Get(Get(body, "message"), "message_id"))
  }

  /** `$v == 'private'`, compared loosely as PHP 7 does. */
  predicate LooselyPrivate(v: Value)
  {
    LooselyEquals(v, "private")
  }

  /**
   * How the chat is named in an HTML report: a private chat by its
   * `@username`, else by a link to the sender; any other chat by a link to
   * the message under its `@username`, else by its title in italics.
   */
  function ChatMention(body: Value): string
  {
    var chat := ChatOf(body);
    var user := Get(chat, "username");
    if LooselyPrivate(Get(chat, "type")) then
      if user != Null then "@" + Interp(user)
      else "<a href='tg://user?id=" + Interp(Sender(body)) + "'>" + Interp(SenderName(body)) + "</a>"
    else
      if user != Null then "<a href='t.me/" + Interp(user) + "/" + Interp(ReportMessageId(body)) + "'>@" + Interp(user) + "</a>"
      else "<i>" + Interp(Get(chat, "title")) + "</i>"
  }

  /**
   * The mention names the chat the update carries, at the top of the body
   * or, when the body has none, inside its `message`: a private chat by its
   * `@username`, else by a link to the sender `from`; any other chat by a
   * link to the message under its `@username`, else by its title.
   */
  lemma ChatMentionSpec(body: Value, chat: Value)
    requires (Get(body, "chat") != Null && chat == Get(body, "chat"))
          || (Get(body, "chat") == Null && chat == Get(Get(body, "message"), "chat"))
    ensures var user := Get(chat, "username"); var m := ChatMention(body);
      && (LooselyPrivate(Get(chat, "type")) && user != Null ==> m == "@" + Interp(user))
      && (LooselyPrivate(Get(chat, "type")) && user == Null ==>
            m == "<a href='tg://user?id=" + Interp(Get(Get(body, "from"), "id")) + "'>"
                 + Interp(Get(Get(body, "from"), "first_name")) + "</a>")
      && (!LooselyPrivate(Get(chat, "type")) && user != Null && Get(body, "message_id") != Null ==>
            m == "<a href='t.me/" + Interp(user) + "/" + Interp(Get(body, "message_id")) + "'>@" + Interp(user) + "</a>")
      && (!LooselyPrivate(Get(chat, "type")) && user != Null && Get(body, "message_id") == Null ==>
            m == "<a href='t.me/" + Interp(user) + "/" + Interp(Get(Get(body, "message"), "message_id")) + "'>@" + Interp(user) + "</a>")
      && (!LooselyPrivate(Get(chat, "type")) && user == Null ==> m == "<i>" + Interp(Get(chat, "title")) + "</i>")
  {
  }

  /** A private chat found only inside `message`, with a username, is mentioned by that username. */
  lemma ChatMentionFromMessage(u: string)
    ensures var body := Obj([Entry("message_id", Int(2)),
                             Entry("message", Obj([Entry("chat", Obj([Entry("type", Str("private")), Entry("username", Str(u))]))]))]);
      ChatMention(body) == "@" + u
  {
    var cfs := [Entry("type", Str("private")), Entry("username", Str(u))];
    var mfs := [Entry("chat", Obj(cfs))];
    var bfs := [Entry("message_id", Int(2)), Entry("message", Obj(mfs))];
    assert KeysOf(bfs) == ["message_id", "message"];
    FindAbsent(bfs, "chat");
    FindAt(bfs, 1);
    FindAt(mfs, 0);
    FindAt(cfs, 0);
    FindAt(cfs, 1);
  }

  /** `"\n\n\"{$text}\", "` */
  function Quote(text: Value): string
  {
    "\n\n\"" + Interp(text) + "\", "
  }

  /** `" Update type: '{$type}'."` */
  function TypeClause(kind: Value): string
  {
    " Update type: '" + Interp(kind) + "'."
  }

  function SentByHtml(body: Value): string
  {
    if Truthy(Sender(body)) then "sent by <a href='tg://user?id=" + Interp(Sender(body)) + "'>" + Interp(SenderName(body)) + "</a>, " else ""
  }

  function InChat(body: Value, mention: string): string
  {
    if Truthy(ChatOf(body)) then "in " + Interp(Get(ChatOf(body), "id")) + " (" + mention + ")." else ""
  }

  /** The HTML report details; `escape` is `htmlspecialchars`, applied to the quote only. */
  function HtmlDetails(body: Value, kind: Value, escape: string -> string): string
  {
    escape(Quote(ReportText(body, kind))) + SentByHtml(body) + InChat(body, ChatMention(body)) + TypeClause(kind)
  }

  /** The plain report details: no escaping, no links, the chat named only by `@username`. */
  function PlainDetails(body: Value, kind: Value): string
  {
    var user := Get(ChatOf(body), "username");
    Quote(ReportText(body, kind))
    + (if Truthy(Sender(body)) then "sent by " + Interp(Sender(body)) + " (" + Interp(SenderName(body)) + "), " else "")
    + InChat(body, if user != Null then "@" + Interp(user) else "")
    + TypeClause(kind)
  }

  /**
   * The HTML details are the escaped quote, the sender clause, the chat
   * clause and the update type, in that order; the sender clause appears
   * exactly when the sender id is truthy and the chat clause exactly when the
   * chat is, each opening with the id it names.
   */
  lemma HtmlDetailsClauses(body: Value, kind: Value, escape: string -> string)
    ensures HtmlDetails(body, kind, escape)
         == escape(Quote(ReportText(body, kind))) + SentByHtml(body) + InChat(body, ChatMention(body)) + TypeClause(kind)
    ensures SentByHtml(body) != "" <==> Truthy(Sender(body))
    ensures Truthy(Sender(body)) ==> "sent by <a href='tg://user?id=" + Interp(Sender(body)) + "'>" <= SentByHtml(body)
    ensures InChat(body, ChatMention(body)) != "" <==> Truthy(ChatOf(body))
    ensures Truthy(ChatOf(body)) ==> "in " + Interp(Get(ChatOf(body), "id")) + " (" <= InChat(body, ChatMention(body))
    ensures !Truthy(Sender(body)) && !Truthy(ChatOf(body)) ==>
      HtmlDetails(body, kind, escape) == escape(Quote(ReportText(body, kind))) + TypeClause(kind)
  {
    SentByClause(body);
    InChatClause(body, ChatMention(body));
    var e, k := escape(Quote(ReportText(body, kind))), TypeClause(kind);
    assert e + "" + "" == e;
  }

  /** The sender clause is present exactly when the sender id is truthy, and opens with it. */
  lemma SentByClause(body: Value)
    ensures SentByHtml(body) != "" <==> Truthy(Sender(body))
    ensures Truthy(Sender(body)) ==> "sent by <a href='tg://user?id=" + Interp(Sender(body)) + "'>" <= SentByHtml(body)
  {
    if Truthy(Sender(body)) {
      var head := "sent by <a href='tg://user?id=" + Interp(Sender(body)) + "'>";
      assert SentByHtml(body) == head + (Interp(SenderName(body)) + "</a>, ");
    }
  }

  /** The chat clause is present exactly when the chat is truthy, and opens with its id. */
  lemma InChatClause(body: Value, mention: string)
    ensures InChat(body, mention) != "" <==> Truthy(ChatOf(body))
    ensures Truthy(ChatOf(body)) ==> "in " + Interp(Get(ChatOf(body), "id")) + " (" <= InChat(body, mention)
  {
    if Truthy(ChatOf(body)) {
      var head := "in " + Interp(Get(ChatOf(body), "id")) + " (";
      assert InChat(body, mention) == head + (mention + ").");
    }
  }

  /** The quoted text is the first non-null candidate, in chain order. */
  lemma ReportTextAt(body: Value, kind: Value, i: nat)
    requires i < 5 && TextCandidates(body)[i] != Null
    requires forall j :: 0 <= j < i ==> TextCandidates(body)[j] == Null
    ensures ReportText(body, kind) == TextCandidates(body)[i]
  {
    FirstPresentAt(TextCandidates(body), kind, i);
  }

  /** Without any candidate the update type is quoted. */
  lemma ReportTextFallback(body: Value, kind: Value)
    requires forall j :: 0 <= j < 5 ==> TextCandidates(body)[j] == Null
    ensures ReportText(body, kind) == kind
  {
    FirstPresentNone(TextCandidates(body), kind);
  }

  /** The chat comes from the body, else from its `message`; the same holds for the message id. */
  lemma ChatFallback(body: Value)
    ensures Get(body, "chat") != Null ==> ChatOf(body) == Get(body, "chat")
    ensures Get(body, "chat") == Null ==> ChatOf(body) == Get(Get(body, "message"), "chat")
    ensures Get(body, "message_id") != Null ==> ReportMessageId(body) == Get(body, "message_id")
    ensures Get(body, "message_id") == Null ==> ReportMessageId(body) == Get(Get(body, "message"), "message_id")
  {
  }

  // Truncation of the update body before a report (files/bot.class.php).

  /** `substr($s, 0, $n)` */
  function Prefix(s: string, n: nat): (r: string)
    ensures r <= s && |r| == if |s| <= n then |s| else n
  {
    if |s| <= n then s else s[..n]
  }

  /** As written: the mapping callback returns only for strings, so every other item becomes null. */
  function TruncateItemAsWritten(v: Value, n: nat): Value
  {
    if v.Str? then Str(Prefix(v.s, n)) else Null
  }

  /** Intended: strings are cut, every other item is kept. */
  function TruncateItem(v: Value, n: nat): Value
  {
    if v.Str? then Str(Prefix(v.s, n)) else v
  }

  function TruncateFieldsAsWritten(fs: seq<Entry>, n: nat): seq<Entry>
  {
    seq(|fs|, i requires 0 <= i < |fs| => Entry(fs[i].key, TruncateItemAsWritten(fs[i].val, n)))
  }

  function TruncateFields(fs: seq<Entry>, n: nat): seq<Entry>
  {
    seq(|fs|, i requires 0 <= i < |fs| => Entry(fs[i].key, TruncateItem(fs[i].val, n)))
  }

  /** `array_map(function ($item) { if (is_string($item)) return substr(…); }, $data)`, as written. */
  function TruncateBodyAsWritten(body: Value, n: nat): Value
  {
    match body
    case Obj(fs) => Obj(TruncateFieldsAsWritten(fs, n))
    case List(items) => List(seq(|items|, i requires 0 <= i < |items| => TruncateItemAsWritten(items[i], n)))
    case _ => Null
  }

  /** The evidently intended truncation: cut the strings, keep everything else. */
  function TruncateBody(body: Value, n: nat): Value
  {
    match body
    case Obj(fs) => Obj(TruncateFields(fs, n))
    case List(items) => List(seq(|items|, i requires 0 <= i < |items| => TruncateItem(items[i], n)))
    case _ => Null
  }

  lemma {:induction false} FindTruncatedAsWritten(fs: seq<Entry>, n: nat, k: string)
    ensures Find(TruncateFieldsAsWritten(fs, n), k) == TruncateItemAsWritten(Find(fs, k), n)
    decreases |fs|
  {
    if fs != [] {
      assert TruncateFieldsAsWritten(fs, n)[1..] == TruncateFieldsAsWritten(fs[1..], n);
      FindTruncatedAsWritten(fs[1..], n, k);
    }
  }

  lemma {:induction false} FindTruncated(fs: seq<Entry>, n: nat, k: string)
    ensures Find(TruncateFields(fs, n), k) == TruncateItem(Find(fs, k), n)
    decreases |fs|
  {
    if fs != [] {
      assert TruncateFields(fs, n)[1..] == TruncateFields(fs[1..], n);
      FindTruncated(fs[1..], n, k);
    }
  }

  /**
   * As written, the truncated body has no sender, and no chat unless the
   * update's chat is a bare string: for any update whose chat is an object
   * (or absent) the report never carries the "sent by" and "in <chat>"
   * clauses.
   */
  lemma TruncationDropsSenderAndChat(body: Value, n: nat, kind: Value, escape: string -> string)
    ensures var t := TruncateBodyAsWritten(body, n);
      && Sender(t) == Null && SenderName(t) == Null && Get(ChatOf(t), "id") == Null
      && (!Get(body, "chat").Str? ==> ChatOf(t) == Null)
      && (!Get(body, "chat").Str? ==> HtmlDetails(t, kind, escape) == escape(Quote(ReportText(t, kind))) + TypeClause(kind))
      && (!Get(body, "chat").Str? ==> PlainDetails(t, kind) == Quote(ReportText(t, kind)) + TypeClause(kind))
  {
    var t := TruncateBodyAsWritten(body, n);
    if body.Obj? {
      FindTruncatedAsWritten(body.fields, n, "from");
      FindTruncatedAsWritten(body.fields, n, "chat");
      FindTruncatedAsWritten(body.fields, n, "message");
    }
    if !Get(body, "chat").Str? {
      DetailsWithoutSenderOrChat(t, kind, escape);
    }
  }

  /** Without a sender and a chat, both forms of the details keep only the quote and the update type. */
  lemma DetailsWithoutSenderOrChat(t: Value, kind: Value, escape: string -> string)
    requires Sender(t) == Null && ChatOf(t) == Null
    ensures HtmlDetails(t, kind, escape) == escape(Quote(ReportText(t, kind))) + TypeClause(kind)
    ensures PlainDetails(t, kind) == Quote(ReportText(t, kind)) + TypeClause(kind)
  {
    var q, e, k := Quote(ReportText(t, kind)), escape(Quote(ReportText(t, kind))), TypeClause(kind);
    assert SentByHtml(t) == "" && InChat(t, ChatMention(t)) == "";
    assert e + "" + "" == e;
    var user := Get(ChatOf(t), "username");
    assert InChat(t, if user != Null then "@" + Interp(user) else "") == "";
    assert !Truthy(Sender(t));
    assert q + "" + "" == q;
  }

  /** Intended truncation keeps the sender, and a chat object, exactly as the update has them. */
  lemma TruncationKeepsSenderAndChat(body: Value, n: nat)
    ensures var t := TruncateBody(body, n);
      && (body.Obj? ==> Sender(t) == Sender(body) && SenderName(t) == SenderName(body))
      && (body.Obj? && ChatOf(body).Obj? ==> ChatOf(t) == ChatOf(body))
  {
    if body.Obj? {
      FindTruncated(body.fields, n, "from");
      FindTruncated(body.fields, n, "chat");
      FindTruncated(body.fields, n, "message");
    }
  }

  /** Intended truncation cuts each string field to at most n characters and keeps the rest. */
  lemma TruncationBound(body: Value, n: nat, k: string)
    requires body.Obj?
    ensures var v := Get(TruncateBody(body, n), k);
      && (Get(body, k).Str? ==> v.Str? && v.s <= Get(body, k).s && |v.s| <= n)
      && (!Get(body, k).Str? ==> v == Get(body, k))
  {
    FindTruncated(body.fields, n, k);
  }

  // The fan-out of a log message.

  /** `is_array($admin) ? (each element) : [$admin]` */
  function AdminTargets(admin: Value): seq<Value>
  {
    match admin
    case List(items) => items
    case Obj(fs) => ValuesOf(fs)
    case _ => [admin]
  }

  /** Calls one sender per target, in order: `calls[i] == message(targets[i])`. */
  method FanOut(targets: seq<Value>, message: Value -> seq<Entry>) returns (calls: seq<seq<Entry>>)
    ensures |calls| == |targets|
    ensures forall i :: 0 <= i < |targets| ==> calls[i] == message(targets[i])
  {
    calls := [];
    var i := 0;
    while i < |targets|
      invariant 0 <= i <= |targets|
      invariant |calls| == i
      invariant forall j :: 0 <= j < i ==> calls[j] == message(targets[j])
    {
      calls := calls + [message(targets[i])];
      i := i + 1;
    }
  }
}
