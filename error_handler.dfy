/**
 * BotErrorHandler of files/bot.errorhandler.php: the name of a PHP error
 * level, the report sent for an error or an uncaught exception, and the
 * fan-out of that report to the admins.
 */
module ErrorHandlers {
  import opened Json
  import opened Reports

  /** One row of the `$types` table: a PHP error level and its constant's name. */
  datatype ErrorType = ErrorType(code: int, name: string)

  /** `E_ERROR` (1) … `E_USER_DEPRECATED` (16384), in the order the table lists them. */
  const ErrorTypes: seq<ErrorType> := [
    ErrorType(1, "E_ERROR"), ErrorType(2, "E_WARNING"), ErrorType(4, "E_PARSE"),
    ErrorType(8, "E_NOTICE"), ErrorType(16, "E_CORE_ERROR"), ErrorType(32, "E_CORE_WARNING"),
    ErrorType(64, "E_COMPILE_ERROR"), ErrorType(128, "E_COMPILE_WARNING"), ErrorType(256, "E_USER_ERROR"),
    ErrorType(512, "E_USER_WARNING"), ErrorType(1024, "E_USER_NOTICE"), ErrorType(2048, "E_STRICT"),
    ErrorType(4096, "E_RECOVERABLE_ERROR"), ErrorType(8192, "E_DEPRECATED"), ErrorType(16384, "E_USER_DEPRECATED")
  ]

  /** `$types[$code] ?? null`: the name listed for the code, or null. */
  function TableEntry(types: seq<ErrorType>, code: int): (r: Value)
    ensures r == Null <==> forall t :: t in types ==> t.code != code
    ensures r != Null ==> r.Str? && ErrorType(code, r.s) in types
    decreases |types|
  {
    if types == [] then Null
    else if types[0].code == code then Str(types[0].name)
    else TableEntry(types[1..], code)
  }

  /** Every listed name is a constant name, starting with `E`. */
  lemma NamesAreConstants()
    ensures forall t :: t in ErrorTypes ==> |t.name| > 2 && t.name[0] == 'E'
  {
  }

  /** `get_error_type($code)`: `$types[$code] ?? 'unknown'`. */
  function ErrorTypeName(code: int): (r: string)
    ensures r == "unknown" <==> forall t :: t in ErrorTypes ==> t.code != code
    ensures r != "unknown" ==> ErrorType(code, r) in ErrorTypes
  {
    NamesAreConstants();
    var e := TableEntry(ErrorTypes, code);
    if e == Null then "unknown"
    else
      assert e.s[0] != "unknown"[0];
      e.s
  }

  function Pow2(k: nat): (r: nat)
    ensures r >= 1
  {
    if k == 0 then 1 else 2 * Pow2(k - 1)
  }

  lemma {:induction false} Pow2Increasing(i: nat, j: nat)
    requires i < j
    ensures Pow2(i) < Pow2(j)
    decreases j
  {
    if i < j - 1 {
      Pow2Increasing(i, j - 1);
    }
  }

  /** The table lists the fifteen bit flags 2^0 … 2^14, in increasing order. */
  lemma ErrorTypesAreBitFlags()
    ensures |ErrorTypes| == 15
    ensures forall k :: 0 <= k < 15 ==> ErrorTypes[k].code == Pow2(k)
    ensures forall i, j :: 0 <= i < j < 15 ==> ErrorTypes[i].code < ErrorTypes[j].code
  {
    assert Pow2(0) == 1 && Pow2(1) == 2 && Pow2(2) == 4 && Pow2(3) == 8 && Pow2(4) == 16;
    assert Pow2(5) == 32 && Pow2(6) == 64 && Pow2(7) == 128 && Pow2(8) == 256 && Pow2(9) == 512;
    assert Pow2(10) == 1024 && Pow2(11) == 2048 && Pow2(12) == 4096 && Pow2(13) == 8192 && Pow2(14) == 16384;
    forall i, j | 0 <= i < j < 15 ensures ErrorTypes[i].code < ErrorTypes[j].code {
      Pow2Increasing(i, j);
    }
  }

  /**
   * Each listed code is named by its own constant; every other code, in
   * particular every non-power of two, is "unknown".
   */
  lemma ErrorTypeNameSpec(i: nat, code: int)
    requires i < |ErrorTypes|
    ensures ErrorTypeName(ErrorTypes[i].code) == ErrorTypes[i].name
    ensures (forall k :: 0 <= k < 15 ==> code != Pow2(k)) ==> ErrorTypeName(code) == "unknown"
  {
    ErrorTypesAreBitFlags();
    var r := ErrorTypeName(ErrorTypes[i].code);
    assert ErrorTypes[i] in ErrorTypes;
    var j :| 0 <= j < |ErrorTypes| && ErrorTypes[j] == ErrorType(ErrorTypes[i].code, r);
    assert j == i;
    if forall k :: 0 <= k < 15 ==> code != Pow2(k) {
      forall t | t in ErrorTypes ensures t.code != code {
        var k :| 0 <= k < 15 && ErrorTypes[k] == t;
      }
    }
  }

  /** `htmlspecialchars("{$message} in {$file} on line {$line}") . "\nView:\n" . phgram_pretty_debug(2)` */
  function Header(message: string, file: string, line: int, view: string, escape: string -> string): string
  {
    escape(message + " in " + file + " on line " + IntToString(line)) + "\nView:\n" + view
  }

  /** The `sendMessage` parameters for one admin. */
  function AdminMessage(chat: Value, text: string): seq<Entry>
  {
    [Entry("chat_id", chat), Entry("text", Str(text)), Entry("parse_mode", Str("html"))]
  }

  /** Appending the details clause by clause appends the whole details. */
  lemma AppendClauses(header: string, quote: string, sentBy: string, inChat: string, typeClause: string)
    ensures header + quote + sentBy + inChat + typeClause == header + (quote + sentBy + inChat + typeClause)
  {
  }

  class BotErrorHandler {
    var admin: Value
    var data: seq<Entry>
    var showData: Value

    /** The handler with the decoded webhook input; installing the handlers is not modelled. */
    constructor (errorAdmin: Value, show: Value, input: seq<Entry>)
      ensures admin == errorAdmin && showData == show && data == input
    {
      admin := errorAdmin;
      showData := show;
      data := input;
    }

    /** The report for an uncaught exception. */
    function ExceptionReport(message: string, file: string, line: int, view: string, escape: string -> string): (r: string)
      reads this
      ensures Header(message, file, line, view, escape) <= r
      ensures !Truthy(showData) ==> r == Header(message, file, line, view, escape)
      ensures Truthy(showData) ==> r == Header(message, file, line, view, escape) + HtmlDetails(SecondValue(data), SecondKey(data), escape)
    {
      Header(message, file, line, view, escape)
      + (if Truthy(showData) then HtmlDetails(SecondValue(data), SecondKey(data), escape) else "")
    }

    /**
     * The report for an error, composed the same way by its own copy of the
     * code: it is the exception report followed by the error type line.
     */
    function ErrorReport(errorType: int, message: string, file: string, line: int, view: string, escape: string -> string): (r: string)
      reads this
      ensures r == ExceptionReport(message, file, line, view, escape) + "\nError type: " + ErrorTypeName(errorType) + "."
    {
      var header := escape(message + " in " + file + " on line " + IntToString(line)) + "\nView:\n" + view;
      var str := if Truthy(showData) then
        var body := SecondValue(data);
        var kind := SecondKey(data);
        var quote, sentBy, inChat := escape(Quote(ReportText(body, kind))), SentByHtml(body), InChat(body, ChatMention(body));
        var typeClause := TypeClause(kind);
        assert quote + sentBy + inChat + typeClause == HtmlDetails(body, kind, escape);
        AppendClauses(header, quote, sentBy, inChat, typeClause);
        header + quote + sentBy + inChat + typeClause
      else header;
      assert str == ExceptionReport(message, file, line, view, escape);
      str + "\nError type: " + ErrorTypeName(errorType) + "."
    }

    /** `log`: one message per admin, in order, or one to the single admin. */
    method Log(text: string) returns (calls: seq<seq<Entry>>)
      ensures |calls| == |AdminTargets(admin)|
      ensures forall i :: 0 <= i < |calls| ==> calls[i] == AdminMessage(AdminTargets(admin)[i], text)
    {
      calls := FanOut(AdminTargets(admin), (chat: Value) => AdminMessage(chat, text));
    }

    /**
     * `error_handler`: with error reporting at 0 nothing is sent; otherwise
     * the error report goes to every admin. PHP's own handler always runs
     * afterwards (the result is false).
     */
    method ErrorHandler(errorType: int, message: string, file: string, line: int, errorReporting: int,
                        view: string, escape: string -> string) returns (handled: bool, calls: seq<seq<Entry>>)
      ensures !handled
      ensures errorReporting == 0 ==> calls == []
      ensures errorReporting != 0 ==>
        && |calls| == |AdminTargets(admin)|
        && forall i :: 0 <= i < |calls| ==>
             calls[i] == AdminMessage(AdminTargets(admin)[i], ErrorReport(errorType, message, file, line, view, escape))
    {
      if errorReporting == 0 {
        return false, [];
      }
      calls := Log(ErrorReport(errorType, message, file, line, view, escape));
      handled := false;
    }

    /** `exception_handler`: the exception report goes to every admin, whatever the reporting level. */
    method ExceptionHandler(message: string, file: string, line: int, view: string, escape: string -> string)
      returns (handled: bool, calls: seq<seq<Entry>>)
      ensures !handled
      ensures |calls| == |AdminTargets(admin)|
      ensures forall i :: 0 <= i < |calls| ==>
        calls[i] == AdminMessage(AdminTargets(admin)[i], ExceptionReport(message, file, line, view, escape))
    {
      calls := Log(ExceptionReport(message, file, line, view, escape));
      handled := false;
    }
  }
}
