/**
 * The Bot class of files/bot.class.php: the held update and its cached
 * type, the argument maps of the `send`/`reply`/`edit`/`action` shortcuts,
 * and the failure report `__call` composes when a method call fails.
 */
module BotClient {
  import opened Json
  import opened Updates
  import opened Params
  import opened Results
  import opened Reports

  /** `!$result['ok'] && $this->debug && ($this->report_obey_level xor error_reporting() <= 0)` */
  predicate ShouldReport(response: seq<Entry>, debug: bool, obeyLevel: bool, errorReporting: int)
  {
    !Truthy(Lookup(response, "ok")) && debug && (obeyLevel != (errorReporting <= 0))
  }

  /**
   * Obeying the level, a failure is reported only while error reporting is
   * on; not obeying it, only while error reporting is off. A successful
   * response (`ok` truthy at either level) is never reported.
   */
  lemma ShouldReportSpec(response: seq<Entry>, debug: bool, obeyLevel: bool, errorReporting: int)
    ensures obeyLevel ==>
      (ShouldReport(response, debug, obeyLevel, errorReporting) <==> !Truthy(Lookup(response, "ok")) && debug && errorReporting > 0)
    ensures !obeyLevel ==>
      (ShouldReport(response, debug, obeyLevel, errorReporting) <==> !Truthy(Lookup(response, "ok")) && debug && errorReporting <= 0)
    ensures Truthy(Find(response, "ok")) ==> !ShouldReport(response, debug, obeyLevel, errorReporting)
  {
  }

  /** As written, `!is_string($text) || !is_int($text)`: no value is both, so this always holds. */
  predicate NeedsEncodingAsWritten(text: Value)
  {
    !text.Str? || !text.Int?
  }

  /** Intended: only values that are neither strings nor integers are JSON-encoded. */
  predicate NeedsEncoding(text: Value)
  {
    !text.Str? && !text.Int?
  }

  /** As written, `log` JSON-encodes every text, so a report string arrives quoted and escaped. */
  lemma LogAlwaysEncodes(text: Value)
    ensures NeedsEncodingAsWritten(text)
    ensures text.Str? ==> !NeedsEncoding(text)
  {
  }

  /** The `text` parameter `log` sends, as written: always the JSON encoding. */
  function LogTextAsWritten(text: Value, encode: Value -> string): (r: Value)
    ensures r == Str(encode(text))
  {
    LogAlwaysEncodes(text);
    if NeedsEncodingAsWritten(text) then Str(encode(text)) else text
  }

  /**
   * The `text` parameter `log` evidently means to send: always a string or an
   * integer, as `sendMessage` takes; strings and integers go as they are.
   */
  function LogText(text: Value, encode: Value -> string): (r: Value)
    ensures r.Str? || r.Int?
    ensures text.Str? || text.Int? ==> r == text
    ensures !text.Str? && !text.Int? ==> r == Str(encode(text))
  {
    if NeedsEncoding(text) then Str(encode(text)) else text
  }

  /** The `sendMessage` parameters `log` sends to one admin. */
  function LogMessage(parseMode: string, text: Value, chat: Value): seq<Entry>
  {
    [ Entry("parse_mode", Str(parseMode)), Entry("disable_web_page_preview", Bool(true)),
      Entry("text", text), Entry("chat_id", chat) ]
  }

  /** What a failed call leads to: nothing, messages to the admins, or a PHP notice. */
  datatype Report = Quiet | Logged(text: string, calls: seq<seq<Entry>>) | Noticed(text: string)

  class Bot {
    var data: seq<Entry>
    var updateType: Option<string>
    var debug: bool
    var debugAdmin: Value
    var reportMode: string
    var reportShowView: bool
    var reportShowData: bool
    var reportObeyLevel: bool
    var defaultParseMode: string
    var reportMaxArgsLen: nat

    /** The cached type is the second key of the held update. */
    predicate Valid()
      reads this
    {
      updateType == UpdateType(data)
    }

    /**
     * `new Bot($token, $debug_chat)` with the decoded webhook input; a
     * truthy debug chat turns reporting on.
     */
    constructor (debugChat: Value, input: seq<Entry>)
      ensures Valid() && data == input
      ensures debug == Truthy(debugChat)
      ensures debugAdmin == if Truthy(debugChat) then debugChat else Null
      ensures reportMode == "message" && !reportShowView && reportShowData && reportObeyLevel
      ensures defaultParseMode == "HTML" && reportMaxArgsLen == 300
    {
      data := input;
      updateType := UpdateType(input);
      if Truthy(debugChat) {
        debugAdmin := debugChat;
        debug := true;
      } else {
        debugAdmin := Null;
        debug := false;
      }
      reportMode := "message";
      reportShowView := false;
      reportShowData := true;
      reportObeyLevel := true;
      defaultParseMode := "HTML";
      reportMaxArgsLen := 300;
    }

    /** `setData`: replaces the update and recomputes its type; nothing else changes. */
    method SetData(d: seq<Entry>)
      modifies this
      ensures data == d && Valid()
      ensures GetUpdateType() == SecondKey(d)
      ensures debug == old(debug) && debugAdmin == old(debugAdmin) && reportMode == old(reportMode)
      ensures reportShowView == old(reportShowView) && reportShowData == old(reportShowData)
      ensures reportObeyLevel == old(reportObeyLevel) && defaultParseMode == old(defaultParseMode)
      ensures reportMaxArgsLen == old(reportMaxArgsLen)
    {
      data := d;
      updateType := UpdateType(d);
    }

    /** `getUpdateType`: the second key of the held update, or null. */
    function GetUpdateType(): (r: Value)
      reads this
      ensures Valid() ==> r == SecondKey(data)
    {
      TypeValue(updateType)
    }

    /**
     * `getValue`: the field of the update body (the second entry), else the
     * field of the body's `message`, else null.
     */
    function GetValue(search: string): (r: Value)
      reads this
      ensures Valid() && DistinctKeys(data) && |data| >= 2 ==>
        r == Coalesce(Get(SecondValue(data), search), Get(Get(SecondValue(data), "message"), search))
    {
      if Valid() && DistinctKeys(data) && |data| >= 2 then
        FindAt(data, 1);
        Updates.GetValue(data, updateType, search)
      else
        Updates.GetValue(data, updateType, search)
    }

    /** `send` */
    method Send(text: string, params: seq<Entry> := []) returns (args: seq<Entry>)
      ensures args == SendArgs(ChatID(data, updateType), defaultParseMode, text, params)
    {
      args := SendDefaults(ChatID(data, updateType), defaultParseMode, text);
      if params != [] {
        args := Merge(args, params);
      }
    }

    /** `reply` */
    method Reply(text: string, params: seq<Entry> := []) returns (args: seq<Entry>)
      ensures args == ReplyArgs(ChatID(data, updateType), defaultParseMode, MessageID(data, updateType), text, params)
      ensures Find(args, "text") == Str(text)
    {
      args := ReplyDefaults(ChatID(data, updateType), defaultParseMode, MessageID(data, updateType), text);
      if params != [] {
        args := Merge(args, params);
        args := Put(args, "text", Str(text));
        PutFind(Overlay(ReplyDefaults(ChatID(data, updateType), defaultParseMode, MessageID(data, updateType), text), params), "text", Str(text), "text");
      } else {
        FindAt(args, 4);
      }
    }

    /** `edit` */
    method Edit(text: string, params: seq<Entry> := []) returns (args: seq<Entry>)
      ensures args == EditArgs(ChatID(data, updateType), defaultParseMode, text, MessageID(data, updateType), params)
      ensures Find(args, "text") == Str(text)
    {
      args := EditDefaults(ChatID(data, updateType), defaultParseMode, text, MessageID(data, updateType));
      if params != [] {
        args := Merge(args, params);
        args := Put(args, "text", Str(text));
        PutFind(Overlay(EditDefaults(ChatID(data, updateType), defaultParseMode, text, MessageID(data, updateType)), params), "text", Str(text), "text");
      } else {
        FindAt(args, 3);
      }
    }

    /** `action`: the chat action, "typing" by default, sent to the current chat. */
    method Action(action: string := "typing", params: seq<Entry> := []) returns (args: seq<Entry>)
      ensures args == ActionArgs(ChatID(data, updateType), action, params)
    {
      args := ActionDefaults(ChatID(data, updateType), action);
      if params != [] {
        args := Merge(args, params);
      }
    }

    /** The details of a truncated body, in HTML or plain form. */
    function DetailsOf(body: Value, escape: string -> string): string
      reads this
    {
      if reportMode == "message" && defaultParseMode == "HTML" then HtmlDetails(body, SecondKey(data), escape)
      else PlainDetails(body, SecondKey(data))
    }

    /**
     * The report details as written: the truncation has nulled the sender and
     * the chat, so unless the chat is a bare string only the quote and the
     * update type remain.
     */
    function ReportDetails(escape: string -> string): (r: string)
      reads this
      ensures var t := TruncateBodyAsWritten(SecondValue(data), reportMaxArgsLen); var kind := SecondKey(data);
        && (!Get(SecondValue(data), "chat").Str? && reportMode == "message" && defaultParseMode == "HTML" ==>
              r == escape(Quote(Reports.ReportText(t, kind))) + TypeClause(kind))
        && (!Get(SecondValue(data), "chat").Str? && !(reportMode == "message" && defaultParseMode == "HTML") ==>
              r == Quote(Reports.ReportText(t, kind)) + TypeClause(kind))
    {
      TruncationDropsSenderAndChat(SecondValue(data), reportMaxArgsLen, SecondKey(data), escape);
      DetailsOf(TruncateBodyAsWritten(SecondValue(data), reportMaxArgsLen), escape)
    }

    /**
     * The report details as evidently intended: the sender clause and the
     * chat clause are those of the update itself.
     */
    function ReportDetailsCorrected(escape: string -> string): (r: string)
      reads this
      ensures var body := SecondValue(data); var t := TruncateBody(body, reportMaxArgsLen); var kind := SecondKey(data);
        body.Obj? && ChatOf(body).Obj? && reportMode == "message" && defaultParseMode == "HTML" ==>
          r == escape(Quote(Reports.ReportText(t, kind))) + SentByHtml(body) + InChat(body, ChatMention(t)) + TypeClause(kind)
    {
      var body := SecondValue(data);
      var t := TruncateBody(body, reportMaxArgsLen);
      TruncationKeepsSenderAndChat(body, reportMaxArgsLen);
      assert body.Obj? && ChatOf(body).Obj? ==>
        SentByHtml(t) == SentByHtml(body) && InChat(t, ChatMention(t)) == InChat(body, ChatMention(t));
      DetailsOf(t, escape)
    }

    /** `"{$result->json}\n\n{$error_info}"`, the details and the view, each when shown. */
    function Compose(responseJson: string, errorInfo: string, details: string, view: string): (r: string)
      reads this
      ensures responseJson + "\n\n" + errorInfo <= r
      ensures reportShowView ==> |view| <= |r| && r[|r| - |view|..] == view
    {
      var head := responseJson + "\n\n" + errorInfo;
      var withData := head + (if reportShowData then details else "");
      assert withData[..|head|] == head;
      if reportShowView then
        assert (withData + "\n\n" + view)[|withData + "\n\n"|..] == view;
        withData + "\n\n" + view
      else withData
    }

    /**
     * The report text as written: the raw response and the call site, then
     * the details when `report_show_data` is on, then the rendered view when
     * `report_show_view` is.
     */
    function ReportText(responseJson: string, errorInfo: string, view: string, escape: string -> string): (r: string)
      reads this
      ensures responseJson + "\n\n" + errorInfo <= r
      ensures !reportShowData && !reportShowView ==> r == responseJson + "\n\n" + errorInfo
      ensures reportShowData && !reportShowView ==> r == responseJson + "\n\n" + errorInfo + ReportDetails(escape)
      ensures reportShowData && reportShowView ==> r == responseJson + "\n\n" + errorInfo + ReportDetails(escape) + "\n\n" + view
      ensures reportShowView ==> |view| <= |r| && r[|r| - |view|..] == view
    {
      Compose(responseJson, errorInfo, ReportDetails(escape), view)
    }

    /** The report text with the corrected details. */
    function ReportTextCorrected(responseJson: string, errorInfo: string, view: string, escape: string -> string): (r: string)
      reads this
      ensures responseJson + "\n\n" + errorInfo <= r
      ensures !reportShowData && !reportShowView ==> r == responseJson + "\n\n" + errorInfo
      ensures reportShowData && !reportShowView ==> r == responseJson + "\n\n" + errorInfo + ReportDetailsCorrected(escape)
      ensures reportShowData && reportShowView ==> r == responseJson + "\n\n" + errorInfo + ReportDetailsCorrected(escape) + "\n\n" + view
      ensures reportShowView ==> |view| <= |r| && r[|r| - |view|..] == view
    {
      Compose(responseJson, errorInfo, ReportDetailsCorrected(escape), view)
    }

    /**
     * `log` as written: one `sendMessage` per admin, in order (a single admin
     * when not an array), each carrying the JSON encoding of the text.
     */
    method Log(text: Value, encode: Value -> string) returns (calls: seq<seq<Entry>>)
      ensures |calls| == |AdminTargets(debugAdmin)|
      ensures forall i :: 0 <= i < |calls| ==>
        calls[i] == LogMessage(defaultParseMode, Str(encode(text)), AdminTargets(debugAdmin)[i])
    {
      var sent := LogTextAsWritten(text, encode);
      var mode := defaultParseMode;
      calls := FanOut(AdminTargets(debugAdmin), (chat: Value) => LogMessage(mode, sent, chat));
    }

    /** `log` as evidently intended: a string text is sent as it is. */
    method LogCorrected(text: Value, encode: Value -> string) returns (calls: seq<seq<Entry>>)
      ensures |calls| == |AdminTargets(debugAdmin)|
      ensures forall i :: 0 <= i < |calls| ==>
        calls[i] == LogMessage(defaultParseMode, LogText(text, encode), AdminTargets(debugAdmin)[i])
      ensures text.Str? ==> forall i :: 0 <= i < |calls| ==>
        calls[i] == LogMessage(defaultParseMode, text, AdminTargets(debugAdmin)[i])
    {
      var sent := LogText(text, encode);
      var mode := defaultParseMode;
      calls := FanOut(AdminTargets(debugAdmin), (chat: Value) => LogMessage(mode, sent, chat));
    }

    /**
     * The report `__call` makes after a failed API method, as written: none
     * unless ShouldReport holds; then in "message" mode every admin gets the
     * JSON encoding of the report text, in "notice" mode it becomes a notice,
     * and in any other mode it is dropped.
     */
    method ReportFailure(response: seq<Entry>, responseJson: string, errorInfo: string, errorReporting: int,
                         view: string, escape: string -> string, encode: Value -> string) returns (report: Report)
      ensures !ShouldReport(response, debug, reportObeyLevel, errorReporting) ==> report == Quiet
      ensures ShouldReport(response, debug, reportObeyLevel, errorReporting) && reportMode == "message" ==>
        && report.Logged?
        && report.text == ReportText(responseJson, errorInfo, view, escape)
        && |report.calls| == |AdminTargets(debugAdmin)|
        && forall i :: 0 <= i < |report.calls| ==>
             report.calls[i] == LogMessage(defaultParseMode, Str(encode(Str(report.text))), AdminTargets(debugAdmin)[i])
      ensures ShouldReport(response, debug, reportObeyLevel, errorReporting) && reportMode == "notice" ==>
        report == Noticed(ReportText(responseJson, errorInfo, view, escape))
      ensures reportMode != "message" && reportMode != "notice" ==> report == Quiet
    {
      if !ShouldReport(response, debug, reportObeyLevel, errorReporting) {
        return Quiet;
      }
      var text := ReportText(responseJson, errorInfo, view, escape);
      if reportMode == "message" {
        var calls := Log(Str(text), encode);
        report := Logged(text, calls);
      } else if reportMode == "notice" {
        report := Noticed(text);
      } else {
        report := Quiet;
      }
    }

    /** The failure report as evidently intended: corrected details, sent unencoded. */
    method ReportFailureCorrected(response: seq<Entry>, responseJson: string, errorInfo: string, errorReporting: int,
                                  view: string, escape: string -> string, encode: Value -> string) returns (report: Report)
      ensures !ShouldReport(response, debug, reportObeyLevel, errorReporting) ==> report == Quiet
      ensures ShouldReport(response, debug, reportObeyLevel, errorReporting) && reportMode == "message" ==>
        && report.Logged?
        && report.text == ReportTextCorrected(responseJson, errorInfo, view, escape)
        && |report.calls| == |AdminTargets(debugAdmin)|
        && forall i :: 0 <= i < |report.calls| ==>
             report.calls[i] == LogMessage(defaultParseMode, Str(report.text), AdminTargets(debugAdmin)[i])
      ensures ShouldReport(response, debug, reportObeyLevel, errorReporting) && reportMode == "notice" ==>
        report == Noticed(ReportTextCorrected(responseJson, errorInfo, view, escape))
      ensures reportMode != "message" && reportMode != "notice" ==> report == Quiet
    {
      if !ShouldReport(response, debug, reportObeyLevel, errorReporting) {
        return Quiet;
      }
      var text := ReportTextCorrected(responseJson, errorInfo, view, escape);
      if reportMode == "message" {
        var calls := LogCorrected(Str(text), encode);
        report := Logged(text, calls);
      } else if reportMode == "notice" {
        report := Noticed(text);
      } else {
        report := Quiet;
      }
    }
  }
}
