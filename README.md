# phgram core, modelled in Dafny

phgram is a small PHP client for the Telegram Bot API. Most of it forwards
HTTP requests. This project models the parts that hold logic:

- **Update accessor** (`Updates`): the update type is the *second* key of
  the decoded webhook update. `getValue` does a two-level lookup, in the
  update body and then in the body's `message`. The data shortcuts
  (`Text` … `Entities`, `Name`) and the chat checks `is_group` and
  `is_private`, the same in both copies of the Bot, are built on it.
- **Argument maps** (`Params`): the argument maps that `send`, `reply`,
  `edit` and `action` hand to the API. Caller parameters overwrite the
  defaults one key at a time. `reply` and `edit` then reset `text`.
- **The newer `Bot`** (`BotClient`, files/bot.class.php): the held update
  and its cached type, the shortcuts, when a failed call is reported, and
  how the report is composed and sent to the debug admins.
- **The older `Bot`** (`LegacyClient`, bot.class.php): the same, plus its
  `MethodResult`, whose array-style writes prefer the top level.
- **The newer `MethodResult`** (`MethodResults` and `Results`,
  files/methodresult.class.php): a decoded response. It is read and updated
  in place at the top level or inside its `result` object. Its shortcuts
  `edit`, `append`, `reply`, `delete` and `forward` build argument maps.
- **Reply-markup builders** (`Markup`): `ikb`, `btn`, `kb`, `kbtn`,
  `hide_kb` and `forceReply`. The model returns the structure each one
  builds before `json_encode`. A reader maps that structure back to the
  Bot API markup it stands for.
- **Error reports** (`Reports`, `ErrorHandlers`, `GetError`): the error
  type names, the `??` chains that pick the quoted text, the sender and the
  chat, and the chat mention. It also covers the reports that
  `BotErrorHandler` and utils/get_error.php send.

Decoded JSON is `Json.Value`. An object is an ordered sequence of entries,
because key order decides the update type. PHP 7 semantics are written out:

- `??` and `isset` treat a null entry as missing.
- An object is indexed by key. A list is indexed by the decimal key of a
  position (`$r['0']` is the first element). Indexing a scalar gives null.
- Writing or unsetting a key of a list (`Json.SetKey`, `Json.UnsetKey`)
  changes that element; a write past the end appends, and an unset leaves
  an array with integer keys and a gap.
- A null array key is the empty string.
- Truthiness and string conversion are `Json.Truthy` and `Json.Interp`.
- `== 'private'` is the loose comparison `Reports.LooselyPrivate`.

The following become parameters:

- the webhook input;
- the API reply;
- `error_reporting()`;
- `htmlspecialchars` (`escape`) and `json_encode` (`encode`);
- the rendered `phgram_pretty_debug` view;
- the `debug_backtrace` call-site text.

A remote call is modelled by the argument map it would receive.

Where the program does not do what it evidently means to (see "## Findings"),
the class member models the code as written. A sibling member whose name
ends in `Corrected` holds the intended behaviour and its proved property.

## Model

| member | source | states |
|---|---|---|
| Updates.GetValueFromBody | files/bot.class.php:440-441 | a non-null field of the update body is what `getValue` returns |
| Updates.GetValueFromMessage | files/bot.class.php:440-441 | when the body lacks the field (or holds null), the field of the body's `message` is returned |
| Updates.GetValueAbsent | files/bot.class.php:440-441 | with the field at neither level the result is null; missing keys never fail |
| Updates.Name | files/bot.class.php:549-558 | null exactly when the first name is falsy; the first name alone when the last name is falsy; otherwise `first + " " + last` |
| Updates.TopLevelShortcuts | files/bot.class.php:576-594 | `InlineQuery`, `ChosenInlineResult`, `ShippingQuery`, `PreCheckoutQuery`, `CallbackQuery`, `UpdateID` read `data[key]` directly |
| Updates.TopLevelShortcutsAbsent | files/bot.class.php:576-594 | each of the six top-level shortcuts is null when its key is not at the top level, even where `getValue` would find the key in the body's `message` |
| Updates.ChatAndSenderLookup | bot.class.php:412-434 | `ChatID`/`UserID` take the `chat`/`from` object from the body, else from its `message`, and then read `id` |
| Updates.IsGroup | files/bot.class.php:473-479 | false without a truthy chat; for a chat whose type is a string, true exactly for "group" and "supergroup" |
| Updates.IsPrivate | files/bot.class.php:487-493 | false without a truthy chat; for a chat whose type is a string, true exactly for "private", and then never also a group |
| Updates.ChatAndSenderAbsent | bot.class.php:412-438 | `ChatID`, `ChatType`, `UserID`, `FirstName` are null when `chat`/`from` is absent at both levels |
| Params.Merge | files/bot.class.php:261-263 | the `foreach` that overwrites `$default[$param]` leaves exactly the overlay of the parameters on the defaults |
| Params.OverlayFind | files/bot.class.php:261-263 | after the merge every key reads the caller's value if the caller gave one, else the default |
| Params.OverlayKeys | files/bot.class.php:261-263 | the merge keeps the defaults' keys in order; the key set is the union of both |
| Params.OverlayDistinct | files/bot.class.php:261-263 | merging keeps keys distinct |
| Params.ForcedKey | files/bot.class.php:283-286 | after merging, forcing `text` makes it read the argument while every other key merges as usual |
| Params.SendArgsSpec | files/bot.class.php:256-266 | in `send` a caller-supplied `text` wins; every other key is overridden by the caller or defaulted |
| Params.ReplyArgsSpec | files/bot.class.php:278-289 | in `reply` the parameters overwrite every default but `text` is always the argument |
| Params.EditArgsSpec | files/bot.class.php:301-312 | in `edit` the parameters overwrite every default but `text` is always the argument |
| Params.ActionArgsSpec | files/bot.class.php:355-365 | in `action` the caller may overwrite chat and action; the action defaults to the argument |
| BotClient.ShouldReportSpec | files/bot.class.php:102 | a failure is reported only when `ok` is falsy and debug is on, and then only while reporting is on (obeying the level) or off (not obeying it) |
| BotClient.LogAlwaysEncodes | files/bot.class.php:167 | as written, the encoding guard holds for every value, strings included |
| BotClient.LogTextAsWritten | files/bot.class.php:167-169 | as written, the text `log` sends is always the JSON encoding of its argument |
| BotClient.LogText | files/bot.class.php:167-169 | corrected `log` text: always a string or an integer, as `sendMessage` takes; a string or an integer argument goes unchanged |
| BotClient.Bot.constructor | files/bot.class.php:21-53 | the cached type is the second key of the input; debug is on iff the debug chat is truthy; report defaults message / no view / data / obey level / HTML / 300 |
| BotClient.Bot.SetData | files/bot.class.php:414-417 | the data is replaced, the cached type becomes the new data's second key, every other field is unchanged |
| BotClient.Bot.GetUpdateType | files/bot.class.php:427-429 | the second key of the held update, or null |
| BotClient.Bot.GetValue | files/bot.class.php:440-448 | on a well-formed update: the body's field, else the field of its `message`, else null |
| BotClient.Bot.Send | files/bot.class.php:256-266 | the map sent is the send overlay of the parameters on chat, parse mode, preview flag and text |
| BotClient.Bot.Reply | files/bot.class.php:278-289 | the map sent is the reply overlay, and its `text` is the argument |
| BotClient.Bot.Edit | files/bot.class.php:301-312 | the map sent is the edit overlay, and its `text` is the argument |
| BotClient.Bot.Action | files/bot.class.php:355-365 | the map sent is the action overlay on chat and action |
| BotClient.Bot.ReportDetails | files/bot.class.php:111-143 | as written, unless the update's chat is a bare string the details are only the quoted text and the update type: no sender clause and no chat clause, in HTML and in plain form |
| BotClient.Bot.ReportDetailsCorrected | files/bot.class.php:111-143 | corrected: for an update body and chat that are objects, the HTML details carry the update's own sender clause and chat clause between the quote and the update type |
| BotClient.Bot.ReportText | files/bot.class.php:109-147 | as written: the response and call site, then the as-written details when data is shown, then the view when the view is shown |
| BotClient.Bot.ReportTextCorrected | files/bot.class.php:109-147 | corrected: the same composition with the corrected details |
| BotClient.Bot.Log | files/bot.class.php:164-180 | as written: one `sendMessage` per admin, in order, each with parse mode, no preview, that admin's chat id and the JSON encoding of the text |
| BotClient.Bot.LogCorrected | files/bot.class.php:164-180 | corrected: one `sendMessage` per admin, in order; a string text is sent as it is |
| BotClient.Bot.ReportFailure | files/bot.class.php:102-154 | as written: quiet unless the report condition holds; in "message" mode every admin gets the JSON encoding of the as-written report text; a notice in "notice" mode; dropped in any other mode |
| BotClient.Bot.ReportFailureCorrected | files/bot.class.php:102-154 | corrected: the same conditions, with the corrected report text sent unencoded to every admin |
| LegacyClient.Bot.constructor | bot.class.php:32-40 | the cached type is the second key; debug is on iff the debug chat is truthy |
| LegacyClient.Bot.SetData | bot.class.php:309-312 | the data is replaced and the cached type becomes its second key; the debug fields are unchanged |
| LegacyClient.Bot.GetUpdateType | bot.class.php:323-325 | the second key of the held update, or null |
| LegacyClient.Bot.GetValue | bot.class.php:337-339 | the raw field of the body, else of its `message`, else null |
| LegacyClient.Bot.Send | bot.class.php:148-158 | the send overlay with parse mode HTML |
| LegacyClient.Bot.Reply | bot.class.php:171-182 | the reply overlay with parse mode HTML; `text` is the argument |
| LegacyClient.Bot.Edit | bot.class.php:195-206 | the edit overlay with parse mode HTML; `text` is the argument |
| LegacyClient.Bot.Action | bot.class.php:248-258 | the action overlay |
| LegacyClient.Bot.ReportFailure | bot.class.php:92-95 | a report exactly when `ok` is falsy, debug is on and reporting is above 0; it is the encoded reply sent to the debug chat |
| LegacyClient.MethodResult.constructor | bot.class.php:559-567 | the table and the object properties both hold the decoded response |
| LegacyClient.MethodResult.OffsetGet | bot.class.php:592-594 | the top-level entry if non-null, else the one in `result` (by key, or by position when `result` is a list), else null; non-null iff `offsetExists` |
| LegacyClient.MethodResult.OffsetSet | bot.class.php:595-603 | written at the top level if set there, else in `result` if set there, else only to an object property |
| LegacyClient.MethodResult.OffsetUnset | bot.class.php:607-615 | removed from the top level if set there, else from `result`, else only the object property |
| LegacyClient.OffsetUnsetEffect | bot.class.php:607-615 | after unsetting a top-level key the nested value shows through; after unsetting a nested one the key is unset |
| Json.PrintThenParse | files/methodresult.class.php:41 | the decimal form of n is an index key that reads back as n |
| Json.ParseThenPrint | files/methodresult.class.php:41 | an index key (digits, no leading zero) is the decimal form of the number it denotes |
| Json.IndexKeyIff | files/methodresult.class.php:41 | a string key names list position n exactly when it is n's decimal form |
| Json.FindListEntries | files/methodresult.class.php:41 | a list seen as an array with integer keys holds each element under its position's key and nothing else |
| Json.GetEntries | files/methodresult.class.php:41 | indexing any value is a lookup among its key/value entries, a list's keys being its positions |
| Json.GetSetKey | files/methodresult.class.php:46 | after `$v[$k] = $x` on an array or null, k reads x and every other key reads as before, lists included |
| Json.GetUnsetKey | files/methodresult.class.php:60 | after `unset($v[$k])`, k reads null and every other key reads as before, lists included |
| Results.ListResult | files/methodresult.class.php:40-64 | for `{"ok":true,"result":[5]}` key "0" reads 5 and is set, key "1" is not, a write to "0" replaces the element in the list, and either unset removes it |
| Results.LookupIsSet | files/methodresult.class.php:15-21 | `__get` is non-null exactly when `__isset` holds, and prefers the top level |
| Results.NestedAfterPutNested | files/methodresult.class.php:23-29 | a write into `result`, an object or a list, changes that one nested key and no top-level key besides `result` |
| Results.NestedAfterDeleteNested | files/methodresult.class.php:31-37 | removing from `result`, an object or a list, clears that one nested key and no top-level key besides `result` |
| Results.SetNestedFirstEffect | files/methodresult.class.php:23-29 | `__set` changes one location; the key reads back the new value unless both levels hold it, where the top level shadows the write |
| Results.SetTopFirstEffect | bot.class.php:595-603 | the older `offsetSet` changes one location, a set key reads back the written value, an unset key leaves the table alone |
| Results.UnsetEffects | files/methodresult.class.php:56-64 | `__unset` and `offsetUnset` differ exactly when both levels hold the key: one keeps the top value, the other uncovers the nested one |
| Results.UnsetOneLevel | files/methodresult.class.php:31-37 | each unset touches one level only; the other reads as before |
| MethodResults.MethodResult.constructor | files/methodresult.class.php:6-13 | the table holds the decoded response |
| MethodResults.MethodResult.GetProperty | files/methodresult.class.php:15-17 | the top-level entry if non-null, else the one in `result` (by key, or by position when `result` is a list), else null; non-null iff `__isset` |
| MethodResults.MethodResult.OffsetGet | files/methodresult.class.php:40-42 | reads exactly as `__get`; non-null iff `offsetExists` |
| MethodResults.MethodResult.OffsetExists | files/methodresult.class.php:52-54 | holds exactly when `__isset` does |
| MethodResults.MethodResult.SetProperty | files/methodresult.class.php:23-29 | `result` first if set there (a list element is replaced in place), else the top level |
| MethodResults.MethodResult.OffsetSet | files/methodresult.class.php:44-50 | the same policy as `__set` |
| MethodResults.MethodResult.UnsetProperty | files/methodresult.class.php:31-37 | removed from `result` first (a list element leaves a gap), else from the top level |
| MethodResults.MethodResult.OffsetUnset | files/methodresult.class.php:56-64 | removed from the top level first, else from `result`, else through `__unset` |
| MethodResults.MergeResetTextSpec | files/methodresult.class.php:71-76 | `edit`/`reply` send the given text; every other key is the caller's value or the default |
| MethodResults.AppendArgsSpec | files/methodresult.class.php:86-91 | `append` sends current text followed by the new text, overriding any `text` parameter |
| MethodResults.MethodResult.Edit | files/methodresult.class.php:67-80 | refused and unchanged without chat id and message id; otherwise the merged map with the given text, and the object is rebuilt from the reply |
| MethodResults.MethodResult.Append | files/methodresult.class.php:82-95 | refused and unchanged without chat id and message id; otherwise the append map, and the object is rebuilt from the reply |
| MethodResults.MethodResult.Reply | files/methodresult.class.php:97-109 | refused exactly without chat id and message id; otherwise the merged map whose `text` is the argument |
| MethodResults.MethodResult.DeleteMessage | files/methodresult.class.php:111-122 | refused exactly without chat id and message id; otherwise the defaults overlaid by the parameters |
| MethodResults.ForwardSingleIdAsWritten | files/methodresult.class.php:133-138 | as written, a single chat id gets no forward at all |
| MethodResults.ForwardTargetsSpec | files/methodresult.class.php:133-138 | corrected targets: each listed id in order, or the one id given |
| MethodResults.ForwardEach | files/methodresult.class.php:132-143 | one call per target, in order, each the merged map with that `chat_id`; a lone call is returned unwrapped |
| MethodResults.MethodResult.Forward | files/methodresult.class.php:124-144 | as written: refused exactly without chat id and message id; one call per element of an array chat id, in order; any other chat id gives no call and an empty array |
| MethodResults.MethodResult.ForwardCorrected | files/methodresult.class.php:124-144 | corrected: as `Forward`, but a single chat id gets exactly one call, returned unwrapped |
| Markup.Btn | files/bot.class.php:696-698 | a button reads back as its label and one action of the given kind; the default kind is `callback_data`; kind "text" collapses into one field |
| Markup.Ikb | files/bot.class.php:671-683 | `inline_keyboard` holds one row per input row and each button at its row and column |
| Markup.Kb | files/bot.class.php:711-719 | exactly the keys `keyboard`, `resize_keyboard`, `one_time_keyboard`, `selective`, reading back the arguments |
| Markup.Kbtn | files/bot.class.php:733-740 | exactly `text`, `request_contact`, `request_location`, reading back the arguments |
| Markup.HideKb | files/bot.class.php:749-755 | `remove_keyboard` true and the given `selective` |
| Markup.ForceReply | files/bot.class.php:764-770 | `force_reply` true and the given `selective` |
| Markup.BuilderDefaults | files/bot.class.php:711-770 | defaults: keyboard not resized, not one-time, selective; button flags off; removal and force-reply selective |
| Reports.FirstPresent | files/bot.errorhandler.php:74 | the result of a `??` chain is the fallback or a non-null member of the chain |
| Reports.FirstPresentAt | files/bot.errorhandler.php:74 | the chain stops at its first non-null value |
| Reports.FirstPresentNone | files/bot.errorhandler.php:74 | with every value null the chain yields the fallback |
| Reports.ReportTextAt | files/bot.errorhandler.php:74 | the quoted text is the first non-null of `data`, `query`, `text`, `caption`, `result_id` |
| Reports.ReportTextFallback | files/bot.errorhandler.php:111 | without any of them the update type is quoted |
| Reports.ChatFallback | files/bot.errorhandler.php:79-81 | chat is `body.chat`, else `body.message.chat`; the message id likewise |
| Reports.ChatMentionSpec | files/bot.errorhandler.php:79-86 | the chat of the body, else of its `message`, is named: a private one by `@username`, else by a link to the sender; any other by a `t.me/username/message_id` link with the body's message id, else its message's, or else by its italic title |
| Reports.ChatMentionFromMessage | files/bot.errorhandler.php:79-86 | a private chat found only in the body's `message`, with username u, is mentioned as `@u` |
| Reports.HtmlDetailsClauses | files/bot.errorhandler.php:88-90 | the details are the escaped quote, the sender clause, the chat clause and the update type in that order; the sender clause is non-empty iff the sender id is truthy and the chat clause iff the chat is, each opening with its id |
| Reports.SentByClause | files/bot.errorhandler.php:89 | the sender clause is non-empty iff the sender id is truthy, and then opens with the link to that id |
| Reports.InChatClause | files/bot.errorhandler.php:90 | the chat clause is non-empty iff the chat is truthy, and then opens with the chat id |
| Reports.Prefix | files/bot.class.php:118 | `substr($s, 0, $n)` is a prefix of length at most `n` |
| Reports.FindTruncatedAsWritten | files/bot.class.php:116-120 | as written, a field of the truncated body is the truncated field |
| Reports.FindTruncated | files/bot.class.php:116-120 | corrected, a field of the truncated body is the truncated field |
| Reports.TruncationDropsSenderAndChat | files/bot.class.php:116-138 | as written, the sender, sender name and chat id of a truncated body are always null; unless the chat is a bare string the chat is null and both forms of the details keep only the quote and the update type |
| Reports.TruncationKeepsSenderAndChat | files/bot.class.php:116-138 | corrected truncation keeps the sender, the sender name and a chat object unchanged |
| Reports.TruncationBound | files/bot.class.php:116-120 | corrected truncation cuts every string field to at most the limit and keeps it a prefix |
| Reports.FanOut | files/bot.errorhandler.php:136-142 | one message per target, in order: a list of admins element by element, any other admin value once |
| ErrorHandlers.ErrorTypeName | files/bot.errorhandler.php:41-60 | "unknown" exactly for codes the table does not list; otherwise the listed name of that code |
| ErrorHandlers.ErrorTypesAreBitFlags | files/bot.errorhandler.php:42-58 | the table lists 15 codes, the powers of two 1 … 16384, increasing |
| ErrorHandlers.ErrorTypeNameSpec | files/bot.errorhandler.php:41-60 | each listed code is named by its own constant; any code that is not one of the 15 powers of two is "unknown" |
| ErrorHandlers.BotErrorHandler.constructor | files/bot.errorhandler.php:8-18 | admin, show-data flag and decoded input are stored |
| ErrorHandlers.BotErrorHandler.ExceptionReport | files/bot.errorhandler.php:103-128 | the escaped location line and view, followed, when data is shown, by the HTML details of the update body, whose clauses HtmlDetailsClauses pins down |
| ErrorHandlers.BotErrorHandler.ErrorReport | files/bot.errorhandler.php:66-94 | the error report is the exception report followed by the error type line |
| ErrorHandlers.BotErrorHandler.Log | files/bot.errorhandler.php:135-143 | one `sendMessage` per admin, in order, in HTML |
| ErrorHandlers.BotErrorHandler.ErrorHandler | files/bot.errorhandler.php:63-99 | always returns false; nothing is sent while reporting is 0; otherwise the error report goes to every admin |
| ErrorHandlers.BotErrorHandler.ExceptionHandler | files/bot.errorhandler.php:102-133 | always returns false; the exception report goes to every admin |
| GetError.ErrorTypeNameElvis | utils/get_error.php:17-36 | the `?:` lookup names every code exactly as the `??` lookup does |
| GetError.QuotedTextSpec | utils/get_error.php:46 | the first non-null of callback data, inline query, text, caption, chosen result id is quoted; callback data wins |
| GetError.QuotedTextFallback | utils/get_error.php:46 | without any candidate the update type is quoted |
| GetError.SentBy | utils/get_error.php:51 | the sender clause is present exactly when `UserID()` is truthy and starts with the user link |
| GetError.ChatClauseAsWrittenSpec | utils/get_error.php:68 | with a chat both handlers name it; without one `exception_handler` always says "id: ." while `getError` names the inline message id |
| GetError.ChatClauseAsWrittenLosesId | utils/get_error.php:68 | for a chosen inline result `exception_handler` says "id: ." where "id: AB." was meant |
| GetError.ErrorMessage | utils/get_error.php:49-53 | the error message is the exception report followed by the error type line |
| GetError.HandleError | utils/get_error.php:39-55 | nothing is sent exactly when reporting is 0; otherwise one message to the admin, in HTML, with the error message |
| GetError.HandleExceptionAsWritten | utils/get_error.php:58-71 | as written, the exception message goes to the admin in HTML mode and uses the place clause that loses the inline message id |
| GetError.HandleException | utils/get_error.php:58-71 | one HTML message to the admin whose text, followed by the error type line, is the error message |

## Left out

- HTTP transport is not modelled: curl, `sendAPIRequest`, the network half of `__call`, `download_file`/`read_file` and `__toString`. A remote call is represented by the argument map it receives. For `edit`/`append`, the decoded reply is passed in.
- Webhook I/O is not modelled: `getData` reads `php://input`, and `respondWebhook` writes headers. The decoded update is a constructor parameter.
- `protect()` and `doc()` are not modelled: they read and write files or stop the process.
- `mention`, `in_chat`, `is_admin` and `Chat` are not modelled: each depends on a remote reply (`getChat`, `getChatMember`).
- Handler installation is not modelled: `set_error_handler`, `set_exception_handler`, `__destruct`, `trigger_error`.
- Three inputs are plain parameters: `debug_backtrace` (the call-site text), `phgram_pretty_debug` (the rendered view) and `error_reporting()`.
- `json_encode` and `htmlspecialchars` are opaque function parameters. Byte-exact output and the 480 flags are not modelled.
- `ArrayObj` is not part of this model. The newer `getValue` wraps non-empty arrays in it; the model returns the plain value. The newer `MethodResult`'s `data` is a plain nested table.
- The global `$lastResult` and the `lastResult` property are left out.
- Object-property access on the `result` field (`$this->chat->id`) is modelled as array access.
- LegacyClient.Bot.ReportFailure: the older `__call` reports through `send`, which calls `__call` again. A failing report would recurse; the model returns the first report's arguments only.
- LegacyClient.MethodResult.OffsetSet: writing the property names `data` or `json` would overwrite those fields in PHP. The model keeps object properties in a separate table.
- BotClient.Bot.constructor: the report flags are 0/1 integers in PHP, modelled as booleans.
- BotClient.Bot.ReportText: `report_max_args_len` is a natural number. `substr` counts bytes; the model counts characters.
- Markup.Ikb: only list-shaped options with one to three button arguments are modelled. Associative option arrays and `btn` with fewer than two arguments (a PHP error) are not.
- GetError.HandleError: utils/get_error.php assigns its token to `$errot_bot` but reads `$error_bot`. Unless the caller defines `$error_bot`, `new Bot(null)` throws. The model assumes a bot could be built, and takes the decoded update as input.
- GetError.HandleExceptionAsWritten: reading the undefined property `ChosenInlineResult` raises a notice, which `getError` would handle in turn. The model keeps only the null the read yields.
- Indexing a string with a string key (`$s['id']`) is modelled as null. PHP 7 warns and returns a character.
- Floating-point JSON numbers are not modelled.
- Json.SetKey: a write into `true`, a non-zero number or a non-empty string makes PHP warn and keep the scalar; the model writes a one-entry array. Every write in the model reaches only an array that already holds the key, so this case is never taken.
- Negative integer keys (`"-1"`) are ordinary string keys in the model. A list never holds them, so reads agree with PHP; the key order an array with them would get is not modelled.
- MethodResults.MethodResult.OffsetUnset: when the key is set at neither level, files/methodresult.class.php:62 runs `unset($this->$index)`. For a declared property (`json`, `bot`, or `ArrayObj`'s `data`) that removes the property itself. The model removes only the (null or absent) entry from the table.
- GetError.ErrorTypeNameElvis: utils/get_error.php:35 has no `??`, so an unlisted code raises an undefined-index notice before "unknown" is chosen. The notice is not modelled.

## Findings

| source | as written | input that shows it | evidently intended | confidence | as-written member | corrected member |
|---|---|---|---|---|---|---|
| files/bot.class.php:116-120 | `array_map` returns null for every non-string field, so the body's `from` and `chat` objects become null before the report reads them | any update whose body has a `from` object and a `chat` object | cut strings to the limit and keep every other field | not executed | BotClient.Bot.ReportDetails | BotClient.Bot.ReportDetailsCorrected |
| files/bot.class.php:167 | `!is_string($text) \|\| !is_int($text)` holds for every value, so `log` JSON-encodes every report, strings included | `log("x")` sends `"x"` quoted | encode only values that are neither strings nor integers | not executed | BotClient.Bot.Log | BotClient.Bot.LogCorrected |
| files/methodresult.class.php:133-138 | only an array `$chat_id` is iterated, so `forward(12345)` forwards nothing and returns an empty array | `forward(12345)` | forward once to the single chat id | not executed | MethodResults.MethodResult.Forward | MethodResults.MethodResult.ForwardCorrected |
| utils/get_error.php:68 | `{$bot->ChosenInlineResult}` reads an undefined property, not the method result, so the clause is always "id: ." | a chosen inline result with `inline_message_id` "AB" and no chat | "id: AB.", as `getError` writes at line 52 | not executed | GetError.ChatClauseAsWrittenLosesId | GetError.HandleException |
