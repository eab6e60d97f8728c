/**
 * The reply-markup builders `ikb`, `btn`, `kb`, `kbtn`, `hide_kb` and
 * `forceReply` (identical in files/bot.class.php and bot.class.php): the
 * structures they build before `json_encode`, and a reader that recovers
 * the Bot API object each structure stands for.
 */
module Markup {
  import opened Json

  /** The Bot API reply markups these builders produce. */
  datatype ReplyMarkup =
    | Inline(rows: Value)
    | Keyboard(rows: Value, resize: bool, oneTime: bool, selective: bool)
    | Remove(selective: bool)
    | Force(selective: bool)

  /** An inline keyboard button: its label and one action field. */
  datatype InlineButton = InlineButton(text: Value, kind: string, value: string)

  /** A reply keyboard button with its two request flags. */
  datatype KeyboardButton = KeyboardButton(text: Value, requestContact: bool, requestLocation: bool)

  /** The arguments spread into `btn(...$button)`; an absent kind takes the default. */
  datatype ButtonArgs = ButtonArgs(text: Value, value: string, kind: Option<string>)

  /** Reads back the reply markup a structure encodes, if any. */
  function MarkupOf(v: Value): Option<ReplyMarkup>
  {
    if !v.Obj? then None
    else
      var fs := v.fields;
      if |fs| == 1 && fs[0].key == "inline_keyboard" then Some(Inline(fs[0].val))
      else if |fs| == 4 && fs[0].key == "keyboard" && fs[1].key == "resize_keyboard" && fs[2].key == "one_time_keyboard"
        && fs[3].key == "selective" && fs[1].val.Bool? && fs[2].val.Bool? && fs[3].val.Bool? then
        Some(Keyboard(fs[0].val, fs[1].val.b, fs[2].val.b, fs[3].val.b))
      else if |fs| == 2 && fs[0] == Entry("remove_keyboard", Bool(true)) && fs[1].key == "selective" && fs[1].val.Bool? then
        Some(Remove(fs[1].val.b))
      else if |fs| == 2 && fs[0] == Entry("force_reply", Bool(true)) && fs[1].key == "selective" && fs[1].val.Bool? then
        Some(Force(fs[1].val.b))
      else None
  }

  /** Reads back an inline button: a label followed by exactly one string action field. */
  function ButtonOf(v: Value): Option<InlineButton>
  {
    if v.Obj? && |v.fields| == 2 && v.fields[0].key == "text" && v.fields[1].key != "text" && v.fields[1].val.Str? then
      Some(InlineButton(v.fields[0].val, v.fields[1].key, v.fields[1].val.s))
    else None
  }

  /** Reads back a keyboard button. */
  function KeyboardButtonOf(v: Value): Option<KeyboardButton>
  {
    if v.Obj? && |v.fields| == 3 && v.fields[0].key == "text" && v.fields[1].key == "request_contact"
      && v.fields[2].key == "request_location" && v.fields[1].val.Bool? && v.fields[2].val.Bool? then
      Some(KeyboardButton(v.fields[0].val, v.fields[1].val.b, v.fields[2].val.b))
    else None
  }

  /**
   * `btn($text, $value, $type = 'callback_data')`, i.e. `['text' => $text,
   * $type => $value]`. With the kind "text" both entries share one key, so
   * the value replaces the label and a one-field array results.
   */
  function Btn(text: Value, value: string, kind: string := "callback_data"): (r: Value)
    ensures kind != "text" ==> ButtonOf(r) == Some(InlineButton(text, kind, value))
    ensures kind == "callback_data" ==> r == Obj([Entry("text", text), Entry("callback_data", Str(value))])
    ensures kind == "text" ==> r == Obj([Entry("text", Str(value))]) && ButtonOf(r) == None
  {
    var caption := [Entry("text", text)];
    assert caption[1..] == [] && Put([], kind, Str(value)) == [Entry(kind, Str(value))];
    assert Put(caption, kind, Str(value))
      == if kind == "text" then [Entry("text", Str(value))] else [Entry("text", text), Entry(kind, Str(value))];
    Obj(Put(caption, kind, Str(value)))
  }

  /** `btn(...$button)` */
  function ButtonValue(b: ButtonArgs): Value
  {
    match b.kind
    case None => Btn(b.text, b.value)
    case Some(kind) => Btn(b.text, b.value, kind)
  }

  /**
   * `ikb`: every button spec becomes a button at the same row and column
   * under `inline_keyboard`.
   */
  method Ikb(options: seq<seq<ButtonArgs>>) returns (markup: Value)
    ensures markup.Obj? && KeysOf(markup.fields) == ["inline_keyboard"]
    ensures MarkupOf(markup) == Some(Inline(Get(markup, "inline_keyboard")))
    ensures var rows := Get(markup, "inline_keyboard");
      && rows.List? && |rows.items| == |options|
      && (forall i :: 0 <= i < |options| ==> rows.items[i].List? && |rows.items[i].items| == |options[i]|)
      && (forall i, j :: 0 <= i < |options| && 0 <= j < |options[i]| ==> rows.items[i].items[j] == ButtonValue(options[i][j]))
  {
    var lines: seq<Value> := [];
    var i := 0;
    while i < |options|
      invariant 0 <= i <= |options| && |lines| == i
      invariant forall p :: 0 <= p < i ==> lines[p].List? && |lines[p].items| == |options[p]|
      invariant forall p, q :: 0 <= p < i && 0 <= q < |options[p]| ==> lines[p].items[q] == ButtonValue(options[p][q])
    {
      var row: seq<Value> := [];
      var j := 0;
      while j < |options[i]|
        invariant 0 <= j <= |options[i]| && |row| == j
        invariant forall q :: 0 <= q < j ==> row[q] == ButtonValue(options[i][q])
      {
        row := row + [ButtonValue(options[i][j])];
        j := j + 1;
      }
      lines := lines + [List(row)];
      i := i + 1;
    }
    markup := Obj([Entry("inline_keyboard", List(lines))]);
    assert KeysOf(markup.fields) == ["inline_keyboard"];
  }

  /** `kb($options, $resize = false, $one_time = false, $selective = true)` */
  function Kb(options: Value, resize: bool := false, oneTime: bool := false, selective: bool := true): (r: Value)
    ensures MarkupOf(r) == Some(Keyboard(options, resize, oneTime, selective))
    ensures r.Obj? && KeysOf(r.fields) == ["keyboard", "resize_keyboard", "one_time_keyboard", "selective"]
  {
    var r := Obj([ Entry("keyboard", options), Entry("resize_keyboard", Bool(resize)),
                   Entry("one_time_keyboard", Bool(oneTime)), Entry("selective", Bool(selective)) ]);
    assert KeysOf(r.fields) == ["keyboard", "resize_keyboard", "one_time_keyboard", "selective"];
    r
  }

  /** `kbtn($text, $request_contact = false, $request_location = false)` */
  function Kbtn(text: Value, requestContact: bool := false, requestLocation: bool := false): (r: Value)
    ensures KeyboardButtonOf(r) == Some(KeyboardButton(text, requestContact, requestLocation))
    ensures r.Obj? && KeysOf(r.fields) == ["text", "request_contact", "request_location"]
  {
    var r := Obj([Entry("text", text), Entry("request_contact", Bool(requestContact)), Entry("request_location", Bool(requestLocation))]);
    assert KeysOf(r.fields) == ["text", "request_contact", "request_location"];
    r
  }

  /** `hide_kb($selective = true)` */
  function HideKb(selective: bool := true): (r: Value)
    ensures MarkupOf(r) == Some(Remove(selective))
    ensures Get(r, "remove_keyboard") == Bool(true) && Get(r, "selective") == Bool(selective)
  {
    var fs := [Entry("remove_keyboard", Bool(true)), Entry("selective", Bool(selective))];
    FindAt(fs, 0);
    FindAt(fs, 1);
    Obj(fs)
  }

  /** `forceReply($selective = true)` */
  function ForceReply(selective: bool := true): (r: Value)
    ensures MarkupOf(r) == Some(Force(selective))
    ensures Get(r, "force_reply") == Bool(true) && Get(r, "selective") == Bool(selective)
  {
    var fs := [Entry("force_reply", Bool(true)), Entry("selective", Bool(selective))];
    FindAt(fs, 0);
    FindAt(fs, 1);
    Obj(fs)
  }

  /** The defaults: a resizable-off, persistent, selective keyboard; selective removal and force-reply. */
  lemma BuilderDefaults(options: Value, text: Value)
    ensures MarkupOf(Kb(options)) == Some(Keyboard(options, false, false, true))
    ensures KeyboardButtonOf(Kbtn(text)) == Some(KeyboardButton(text, false, false))
    ensures MarkupOf(HideKb()) == Some(Remove(true))
    ensures MarkupOf(ForceReply()) == Some(Force(true))
  {
  }
}
