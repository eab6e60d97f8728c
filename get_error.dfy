/**
 * The standalone handlers of utils/get_error.php: `getError` and
 * `exception_handler` read the update through the older Bot
 * (bot.class.php) and send one report to a single admin.
 */
module GetError {
  import opened Json
  import opened Updates
  import opened Reports
  import opened ErrorHandlers

  /**
   * `get_error_type($code)`: `$types[$code] ?: "unknown"`. No listed name is
   * falsy, so the `?:` picks the same name as the `??` of BotErrorHandler.
   * There is no `??` here: an unlisted code first raises an undefined-index
   * notice, and the read yields null; only that null is modelled.
   */
  function ErrorTypeNameElvis(code: int): (r: string)
    ensures r == ErrorTypeName(code)
  {
    var e := TableEntry(ErrorTypes, code);
    assert Truthy(e) <==> e != Null by {
      if e != Null {
        NamesAreConstants();
        assert ErrorType(code, e.s) in ErrorTypes;
      }
    }
    if Truthy(e) then Interp(e) else "unknown"
  }

  /** The update type the older Bot caches, as `getUpdateType()` returns it. */
  function TypeOf(data: seq<Entry>): Value
  {
    TypeValue(UpdateType(data))
  }

  /** The candidates of the quoted-text chain, in the order it tries them. */
  function Candidates(data: seq<Entry>): seq<Value>
  {
    var kind := UpdateType(data);
    [ Get(CallbackQuery(data), "data"), Get(InlineQuery(data), "query"), Text(data, kind),
      Caption(data, kind), Get(ChosenInlineResult(data), "result_id") ]
  }

  /**
   * `CallbackQuery()['data'] ?? InlineQuery()['query'] ?? Text() ?? Caption()
   * ?? ChosenInlineResult()['result_id'] ?? getUpdateType()`
   */
  function QuotedText(data: seq<Entry>): Value
  {
    FirstPresent(Candidates(data), TypeOf(data))
  }

  /**
   * The first non-null candidate is quoted; a callback's data beats any
   * text, and without any candidate the update type is quoted.
   */
  lemma QuotedTextSpec(data: seq<Entry>, i: nat)
    requires i < 5 && Candidates(data)[i] != Null
    requires forall j :: 0 <= j < i ==> Candidates(data)[j] == Null
    ensures QuotedText(data) == Candidates(data)[i]
    ensures Get(CallbackQuery(data), "data") != Null ==> QuotedText(data) == Get(CallbackQuery(data), "data")
  {
    FirstPresentAt(Candidates(data), TypeOf(data), i);
  }

  lemma QuotedTextFallback(data: seq<Entry>)
    requires forall j :: 0 <= j < 5 ==> Candidates(data)[j] == Null
    ensures QuotedText(data) == TypeOf(data)
  {
    FirstPresentNone(Candidates(data), TypeOf(data));
  }

  /** The sender clause: present exactly when `UserID()` is truthy. */
  function SentBy(data: seq<Entry>): (r: string)
    ensures r != "" <==> Truthy(UserID(data, UpdateType(data)))
    ensures r != "" ==> "sent by <a href='tg://user?id=" + Interp(UserID(data, UpdateType(data))) + "'>" <= r
  {
    var kind := UpdateType(data);
    if Truthy(UserID(data, kind)) then
      var head := "sent by <a href='tg://user?id=" + Interp(UserID(data, kind)) + "'>";
      var r := head + Interp(FirstName(data, kind)) + "</a>, ";
      assert r[..|head|] == head;
      r
    else ""
  }

  /**
   * The place clause of `getError`: the chat id, else the inline message id
   * of a chosen inline result.
   */
  function ChatClause(data: seq<Entry>): string
  {
    var chat := ChatID(data, UpdateType(data));
    if Truthy(chat) then "in " + Interp(chat) + "."
    else "id: " + Interp(Get(ChosenInlineResult(data), "inline_message_id")) + "."
  }

  /**
   * The place clause of `exception_handler` as written: `{$bot->ChosenInlineResult}`
   * reads a property the Bot does not have, which is null.
   */
  function ChatClauseAsWritten(data: seq<Entry>): string
  {
    var chat := ChatID(data, UpdateType(data));
    if Truthy(chat) then "in " + Interp(chat) + "."
    else "id: " + Interp(Null) + "."
  }

  /**
   * The two clauses agree whenever there is a chat; without one the clause as
   * written never shows the inline message id.
   */
  lemma ChatClauseAsWrittenSpec(data: seq<Entry>)
    ensures Truthy(ChatID(data, UpdateType(data))) ==> ChatClauseAsWritten(data) == ChatClause(data)
    ensures !Truthy(ChatID(data, UpdateType(data))) ==>
      && ChatClauseAsWritten(data) == "id: ."
      && ChatClause(data) == "id: " + Interp(Get(ChosenInlineResult(data), "inline_message_id")) + "."
  {
  }

  /** A chosen inline result, which has no chat. */
  const ChosenResultUpdate: seq<Entry> := [
    Entry("update_id", Int(1)),
    Entry("chosen_inline_result", Obj([Entry("result_id", Str("r")), Entry("inline_message_id", Str("AB"))]))
  ]

  /** For that update the exception report says "id: ." where "id: AB." was meant. */
  lemma ChatClauseAsWrittenLosesId()
    ensures ChatClauseAsWritten(ChosenResultUpdate) == "id: ."
    ensures ChatClause(ChosenResultUpdate) == "id: AB."
  {
    var data := ChosenResultUpdate;
    var result := [Entry("result_id", Str("r")), Entry("inline_message_id", Str("AB"))];
    assert UpdateType(data) == Some("chosen_inline_result");
    FindAt(data, 1);
    assert Body(data, UpdateType(data)) == Obj(result);
    assert Find(result, "chat") == Null && Find(result, "message") == Null;
    assert ChatID(data, UpdateType(data)) == Null;
    assert ChosenInlineResult(data) == Obj(result);
    assert result[1..][0].key == "inline_message_id";
    assert Find(result, "inline_message_id") == Str("AB");
  }

  /** The report shared by both handlers, with the given place clause. */
  function Report(data: seq<Entry>, message: string, file: string, line: int, place: string,
                  escape: string -> string): string
  {
    escape(message + " in " + file + " on line " + IntToString(line) + "\n\n\"" + Interp(QuotedText(data)) + "\", ")
    + SentBy(data) + place + " Update type: '" + Interp(TypeOf(data)) + "'."
  }

  /**
   * The text `getError` sends, composed by its own copy of the code: the
   * exception report followed by the error type line.
   */
  function ErrorMessage(data: seq<Entry>, errorType: int, message: string, file: string, line: int,
                        escape: string -> string): (r: string)
    ensures r == Report(data, message, file, line, ChatClause(data), escape) + "\nError type: " + ErrorTypeName(errorType) + "."
  {
    var quoted := escape(message + " in " + file + " on line " + IntToString(line) + "\n\n\"" + Interp(QuotedText(data)) + "\", ");
    var sentBy, place, kind := SentBy(data), ChatClause(data), Interp(TypeOf(data));
    var str := quoted + sentBy + place + " Update type: '" + kind + "'.";
    assert str == Report(data, message, file, line, place, escape);
    str + "\nError type: " + ErrorTypeNameElvis(errorType) + "."
  }

  /** What `getError` does: nothing while error reporting is 0, else one message to the admin. */
  datatype Outcome = Suppressed | Sent(args: seq<Entry>)

  /**
   * `getError`: with `error_reporting() === 0` it returns true and sends
   * nothing; otherwise it sends the report, in HTML, to the admin.
   */
  function HandleError(data: seq<Entry>, admin: Value, errorType: int, message: string, file: string, line: int,
                       errorReporting: int, escape: string -> string): (r: Outcome)
    ensures r == Suppressed <==> errorReporting == 0
    ensures r.Sent? ==>
      && Find(r.args, "chat_id") == admin && Find(r.args, "parse_mode") == Str("html")
      && Find(r.args, "text") == Str(ErrorMessage(data, errorType, message, file, line, escape))
  {
    if errorReporting == 0 then Suppressed
    else
      var args := AdminMessage(admin, ErrorMessage(data, errorType, message, file, line, escape));
      FindAt(args, 0);
      FindAt(args, 1);
      FindAt(args, 2);
      Sent(args)
  }

  /** `exception_handler` as written, whose place clause loses the inline message id. */
  function HandleExceptionAsWritten(data: seq<Entry>, admin: Value, message: string, file: string, line: int,
                                    escape: string -> string): (r: seq<Entry>)
    ensures Find(r, "chat_id") == admin && Find(r, "parse_mode") == Str("html")
    ensures Find(r, "text") == Str(Report(data, message, file, line, ChatClauseAsWritten(data), escape))
  {
    var args := AdminMessage(admin, Report(data, message, file, line, ChatClauseAsWritten(data), escape));
    FindAt(args, 0);
    FindAt(args, 1);
    FindAt(args, 2);
    args
  }

  /**
   * `exception_handler` as intended: the same report as `getError` without
   * the error type line, whatever the reporting level, to the admin.
   */
  function HandleException(data: seq<Entry>, admin: Value, message: string, file: string, line: int,
                           escape: string -> string): (r: seq<Entry>)
    ensures Find(r, "chat_id") == admin && Find(r, "parse_mode") == Str("html")
    ensures forall errorType: int ::
      Interp(Find(r, "text")) + "\nError type: " + ErrorTypeName(errorType) + "." == ErrorMessage(data, errorType, message, file, line, escape)
  {
    var args := AdminMessage(admin, Report(data, message, file, line, ChatClause(data), escape));
    FindAt(args, 0);
    FindAt(args, 1);
    FindAt(args, 2);
    args
  }
}
