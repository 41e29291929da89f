# screenLogger in Dafny

`xmediaLogger` (src/screenLogger.js) is an on-screen log sink for browser
pages. It replaces the console methods with functions that also render each
message into a log panel. It keeps a bounded in-memory history of log entries
and can copy every entry to session storage. It can also stream entries to a
server over a WebSocket and take commands back from that server.

This project models the logic under the DOM:

- **`Pipeline`**: the logger's state as one record. `Emit` is
  `_renderLogMessage` and includes its re-entry guard, level filter, counter, history
  bound and displayed-line bound; `Inv` is what holds between two calls. The
  module also holds the public API as specification functions (`clearLogs`,
  `setLogLimit`, `setLogLevel`, `pause`/`resume`, the feature toggles),
  `console.time`/`timeEnd`, `console.group`/`groupEnd`, and the redraw
  selection of `_refreshDisplayFromLogEntries`.
- **`Storage`**: `_storeLogEntry`'s read-append-trim-write over an abstract
  key/value slot, and `_loadStoredLogs`.
- **`Connection`**: the WebSocket reconnect state machine. Its events are
  open, the start of the closing handshake, close (clean or not), error and
  timer-fire, plus the teardown inside `disable`. A socket is absent,
  CONNECTING, OPEN, or closing (its `readyState` is CLOSING or CLOSED and its
  `onclose` has not run yet).
- **`Dispatch`**: `handleServerMessage` over an already-parsed JSON envelope
  (a parse failure is its own input), with its table of nine commands.
- **`Serializer`**: `_prettyPrintObject` over a heap of nodes. A `Marker`
  class carries the visited marker as a field it adds and removes. The module
  also holds `_convertToString`.
- **`Html`**: `_escapeHtml` and `_createHtmlTable`, whose loops build the
  table text.
- **`Levels`**, **`JsValues`**, **`Text`**, **`Timestamp`**: log levels and
  `_getLogLevelMeta`, the JSON values the server sends (with `parseInt`,
  `String(v)` and `for..in` enumeration), string helpers, and
  `_formatTimestamp`.
- **`Logger`**: the class `ScreenLogger`. Its fields are the closure variables,
  grouped as in `Pipeline.State`. Each method updates them in place and is
  proved to perform the state change its specification function describes
  and to keep `Pipeline.Inv`.

The clock, the `WebSocket` constructor's failure, the outcome of an
executed script and `JSON.stringify` are parameters of the operations that
use them.

## Model

| member | source | states |
|---|---|---|
| Pipeline.Initial | src/screenLogger.js:10-84 | The start state, built from the declared defaults and the given storage and socket switches, satisfies the invariant. |
| Pipeline.Emit | src/screenLogger.js:415-527 | A message that is refused is a no-op. A refusal is: the logger is disabled; a render is already in progress; the logger is paused; or the level is set to false. Rendering never changes the settings, the timers, the group depth or the guard. |
| Pipeline.EmitAppends | src/screenLogger.js:441-448 | An accepted message appends the entry that numbers it one past the old counter, and the counter moves by one. |
| Pipeline.AppendFacts | src/screenLogger.js:484-497 | After an append, the new entry is last in the history. The history is a suffix of the old history plus the entry: all of it while its length is at most 1.5 × `logLimit`, exactly `logLimit` entries once it is longer. The new line is last in the displayed view. |
| Pipeline.EmitForwards | src/screenLogger.js:441-517 | An accepted entry is handed to the storage sink, and to the socket exactly when the link is enabled and OPEN. A refused one reaches neither. |
| Pipeline.AppendKeepsBufferOk | src/screenLogger.js:486-497 | An append keeps the history at most 1.5 × `logLimit` long. It keeps the view at most `logLimit` lines. Counters stay strictly ascending and at most the message counter. |
| Pipeline.EmitKeepsInv | src/screenLogger.js:415-527 | Rendering keeps the invariant. After an accepted message, twice the history length is at most three times the limit. |
| Pipeline.LineText | src/screenLogger.js:471-474 | A log line starts with its counter and `)`. |
| Pipeline.VisibleIsFilter | src/screenLogger.js:1826-1852 | A counter is redrawn exactly when an entry in the given range has it and passes `_isLoggingEnabled`, in both directions. |
| Pipeline.VisibleBounded | src/screenLogger.js:1826-1852 | The redraw shows no more lines than the entries it walks, with counters already issued. |
| Pipeline.VisibleAscending | src/screenLogger.js:1826-1852 | The redraw keeps the lines in ascending counter order. |
| Pipeline.Visible | src/screenLogger.js:1826-1852 | The counters of the entries `_isLoggingEnabled` lets through, in history order. Its properties are in `VisibleIsFilter`, `VisibleBounded` and `VisibleAscending`. |
| Pipeline.Refresh | src/screenLogger.js:1812-1860 | A redraw changes only the displayed view: settings, history, counter, sink and link are untouched. |
| Pipeline.RefreshShowsFiltered | src/screenLogger.js:1816-1829 | After a redraw the view shows a counter exactly when one of the last `logLimit` history entries carries it and passes the current filter. The invariant is kept. |
| Pipeline.ClearLogsRestarts | src/screenLogger.js:1626-1641 | `clearLogs` empties the timers and the group depth and keeps the invariant. If "Log display cleared." is accepted, the history is exactly that one entry numbered 1, and the view is that one line. Otherwise the buffer is empty with counter 0. |
| Pipeline.ClearLogs | src/screenLogger.js:1626-1641 | `clearLogs` empties the history, the counter, the view, the timers and the group depth, then reports "Log display cleared."; its properties are in `Pipeline.ClearLogsRestarts`. |
| Pipeline.SetLogLimitValidates | src/screenLogger.js:1488-1508 | `setLogLimit` installs the `parseInt` result when it is a positive number. Then only `logLimit` changes among the settings; otherwise no setting changes. Timers and group depth are kept, and the invariant holds either way. |
| Pipeline.SetLogLimitTrimsView | src/screenLogger.js:1488-1504 | A valid limit `n` trims only the view. When its report is accepted, the view is the newest `n` of the old lines plus the report line, and the history is the old history plus the report entry, cut to the newest `n` once it exceeds 1.5 × `n`. The report is stored and sent like any entry. When the report is refused, only the view is trimmed. |
| Pipeline.SetLogLimitRejects | src/screenLogger.js:1505-1507 | An invalid limit only emits the "Invalid log limit specified" warning. |
| Pipeline.SetLogLimit | src/screenLogger.js:1488-1508 | `setLogLimit`: `parseInt` of the argument; a positive result becomes the limit and trims the view; anything else is the warning. Its properties are in `SetLogLimitValidates`, `SetLogLimitTrimsView`, `SetLogLimitRejects` and `SetLogLimitOfValues`. |
| Pipeline.SetLogLimitOfValues | src/screenLogger.js:1489-1491 | A positive number is installed as given. `null`, a boolean or an object leaves the settings unchanged. |
| Pipeline.Merge | src/screenLogger.js:1050-1054 | Merging a server level object never adds or removes a level. |
| Pipeline.MergeIsLastSetting | src/screenLogger.js:1050-1054 | After the merge, a level has the truthiness of the last key naming it, or its old flag when no key names it. |
| Pipeline.MergeIdempotent | src/screenLogger.js:1047-1058 | Applying the same level object twice gives the same filter as applying it once. |
| Pipeline.EnableNamedExact | src/screenLogger.js:1529-1538 | The names form of `setLogLevel` turns on exactly the levels some argument names, and every other level is off. |
| Pipeline.MergeStep | src/screenLogger.js:1523-1528 | One more enumerated key extends the object-form filter by that key's setting. It makes "some level was named" true exactly when this key names a level. |
| Pipeline.EnableNamedStep | src/screenLogger.js:1531-1537 | One more argument extends the names-form filter by that argument's level. |
| Pipeline.ChooseLevels | src/screenLogger.js:1516-1538 | The filter `setLogLevel` builds always has all five levels. |
| Pipeline.ObjectLevelsExact | src/screenLogger.js:1520-1528 | With one object argument, a level is on exactly when the last key naming it is truthy. |
| Pipeline.ArrayArgumentIsRejected | src/screenLogger.js:1520-1547 | A single array argument names no level (its keys are indices), so `setLogLevel` only warns. |
| Pipeline.SetLogLevelKeepsInv | src/screenLogger.js:1540-1548 | When some level was recognised, `setLogLevel` installs the new filter. When none was, it leaves the settings unchanged. The invariant holds either way. |
| Pipeline.SetLogLevel | src/screenLogger.js:1515-1548 | `setLogLevel`: the filter built from the arguments is installed and the view redrawn when some level was recognised; otherwise only the warning. Its properties are in `SetLogLevelKeepsInv`, `ObjectLevelsExact`, `EnableNamedExact` and `ArrayArgumentIsRejected`. |
| Pipeline.PauseIsSilent | src/screenLogger.js:1461-1481 | Pausing records nothing, because its own message is filtered by the pause. Pausing then resuming restores the settings and records exactly the "resumed" message when it is accepted. |
| Pipeline.Pause | src/screenLogger.js:1461-1467 | `pause`: when not paused, sets the flag and reports; already paused is a no-op. Its properties are in `PauseIsSilent` and `PauseResumeKeepInv`. |
| Pipeline.Resume | src/screenLogger.js:1473-1481 | `resume`: when paused, clears the flag and reports; otherwise a no-op. Its properties are in `PauseIsSilent` and `PauseResumeKeepInv`. |
| Pipeline.Enable | src/screenLogger.js:1363-1372 | `enable` leaves the logger enabled and unpaused. It is a no-op when the logger was already on, and it never touches the buffer. |
| Pipeline.SetTextSize | src/screenLogger.js:1557-1575 | A non-empty string becomes the text size. Anything else leaves the settings unchanged. |
| Pipeline.PrettyPrint | src/screenLogger.js:1615-1620 | Only the pretty-print flag changes, to the value given. |
| Pipeline.EnableColors | src/screenLogger.js:1793-1798 | Only the colour flag changes, to the value given. |
| Pipeline.EnableTimeCounter | src/screenLogger.js:1581-1591 | Afterwards the time counter is on and no other setting has changed. |
| Pipeline.DisableTimeCounter | src/screenLogger.js:1597-1608 | Afterwards the time counter is off and no other setting has changed. |
| Pipeline.PauseResumeKeepInv | src/screenLogger.js:1363-1481 | `enable`, `pause` and `resume` keep the invariant. |
| Pipeline.SetTextSizeKeepsInv | src/screenLogger.js:1557-1575 | `setTextSize` keeps the invariant. |
| Pipeline.PrettyPrintKeepsInv | src/screenLogger.js:1615-1620 | `prettyPrint` keeps the invariant. |
| Pipeline.EnableColorsKeepsInv | src/screenLogger.js:1793-1798 | `enableColors` keeps the invariant, including its redraw. |
| Pipeline.EnableTimeCounterKeepsInv | src/screenLogger.js:1581-1591 | `enableTimeCounter` keeps the invariant. |
| Pipeline.DisableTimeCounterKeepsInv | src/screenLogger.js:1597-1608 | `disableTimeCounter` keeps the invariant, including its redraw. |
| Pipeline.TimerLabel | src/screenLogger.js:730 | A timer label is never empty: a missing label becomes `default`. |
| Pipeline.TimerRoundTrip | src/screenLogger.js:729-752 | `time` then `timeEnd` on one label reports the difference of the two clock readings. It leaves the other timers as they were, and that label absent. |
| Pipeline.TimeStart | src/screenLogger.js:729-739 | `console.time`: an already running label is warned about and restarted at the current clock. Its properties are in `TimerRoundTrip` and `TimeStartKeepsInv`. |
| Pipeline.TimeEnd | src/screenLogger.js:740-752 | `console.timeEnd`: a running label reports its elapsed milliseconds and is removed; otherwise only a warning. Its properties are in `TimerRoundTrip`, `TimeEndUnknown` and `TimeEndKeepsInv`. |
| Pipeline.TimeEndUnknown | src/screenLogger.js:743-747 | `timeEnd` on a label that is absent or 0 only warns and leaves the timers unchanged. |
| Pipeline.TimeStartKeepsInv | src/screenLogger.js:729-738 | `console.time` keeps the invariant. |
| Pipeline.TimeEndKeepsInv | src/screenLogger.js:740-752 | `console.timeEnd` keeps the invariant. |
| Pipeline.Group | src/screenLogger.js:780-788 | Opening a group deepens the group level by one. |
| Pipeline.GroupEnd | src/screenLogger.js:790-794 | Closing a group lowers the level by one, but never below zero. |
| Pipeline.GroupNesting | src/screenLogger.js:780-794 | Closing a group undoes opening it. Closing at depth zero stays at zero. |
| Pipeline.GroupKeepsInv | src/screenLogger.js:780-788 | `console.group` keeps the invariant. |
| Pipeline.GroupEndKeepsInv | src/screenLogger.js:790-794 | `console.groupEnd` keeps the invariant. |
| Pipeline.LoadNeverWrites | src/screenLogger.js:1165-1180 | Loading never changes the stored slot. What it returns depends only on the store. |
| Pipeline.LoadStoredLogs | src/screenLogger.js:1165-1180 | `_loadStoredLogs`: the stored list, or `[]` with an error report on corrupt data. Its properties are in `LoadNeverWrites`, `CorruptStoreDisablesSink` and `Storage.LoadResult`. |
| Pipeline.CorruptStoreDisablesSink | src/screenLogger.js:1173-1179 | Reading corrupt data disables storage logging, because the error report's own store attempt fails. |
| Storage.ReadList | src/screenLogger.js:1143-1146 | The stored list can be read and appended to exactly when the key is absent or holds a list. |
| Storage.StoreEntry | src/screenLogger.js:1138-1141 | A disabled sink, or one whose storage is unavailable, is left unchanged. |
| Storage.StoreWritesNewest | src/screenLogger.js:1142-1153 | A successful store writes the last `min(n, 100)` entries of the old list plus the new entry, in order. The new entry is last. |
| Storage.StoreFailureDisables | src/screenLogger.js:1155-1162 | Any read, parse, push or write failure disables the sink and changes nothing else. Every later store is a no-op. |
| Storage.LoadResult | src/screenLogger.js:1165-1180 | Loading returns `[]` when storage is unavailable, the key is missing or the data is corrupt. A stored list is returned as it is. Valid JSON that is not a list is returned as that value (`OtherValue`), and that is the only case that gives `OtherValue`. |
| Storage.LoadAfterStore | src/screenLogger.js:1138-1172 | Loading after a successful store returns the newest 100 entries of the old list plus the entry. |
| Connection.Schedule | src/screenLogger.js:1030-1038 | Scheduling a reconnect never changes the settings. |
| Connection.Initialize | src/screenLogger.js:957-1028 | Connecting never changes the settings. |
| Connection.Attempt | src/screenLogger.js:976-1027 | The connection attempt never changes the settings. |
| Connection.EmitKeepsChannel | src/screenLogger.js:509-517 | Rendering changes the link only by sending the entry itself. |
| Connection.ScheduleKeepsInv | src/screenLogger.js:1030-1038 | At most one reconnect timer is ever pending. A timer is pending afterwards when the link was enabled. The invariant is kept. |
| Connection.AttemptKeepsInv | src/screenLogger.js:976-1027 | An attempt from an enabled link with no timer and no CONNECTING or OPEN socket keeps the invariant. |
| Connection.InitializeKeepsInv | src/screenLogger.js:957-1028 | `initializeWebSocket` keeps the invariant: at most one timer, a timer only while enabled and without a socket, and a CONNECTING or OPEN socket only while enabled. |
| Connection.ConstructorFailureGivesUp | src/screenLogger.js:1022-1027 | When `new WebSocket` throws, the link is disabled before the reconnect is requested, so no timer is left and no socket. |
| Connection.InitializeConnects | src/screenLogger.js:963-980 | A successful attempt cancels any pending timer and leaves a CONNECTING socket. |
| Connection.InitializeKeepsSocket | src/screenLogger.js:959-962 | With a socket CONNECTING or OPEN, `initializeWebSocket` is a no-op. |
| Connection.OnOpenKeepsInv | src/screenLogger.js:982-992 | `onopen` leaves the socket OPEN and keeps the invariant. |
| Connection.OnOpenSendsItsReport | src/screenLogger.js:982-989 | The "connection established" entry goes out on the socket that just opened. |
| Connection.OnOpen | src/screenLogger.js:982-992 | `onopen`: the socket becomes OPEN, the timer is cleared and the connection is reported. Its properties are in `OnOpenKeepsInv` and `OnOpenSendsItsReport`. |
| Connection.CloseHandlerKeepsInv | src/screenLogger.js:994-1006 | `onclose` clears the socket. It schedules exactly one reconnect when the link is enabled and the close was unclean. Otherwise it disables the link with no timer. |
| Connection.OnCloseReconnects | src/screenLogger.js:994-1006 | After the current socket closes there is no socket. An unclean close of an enabled link leaves exactly one reconnect pending; anything else disables the link with no timer. A CONNECTING or OPEN socket implies an enabled link, so its unclean close always reconnects. The invariant holds either way. |
| Connection.CloseHandler | src/screenLogger.js:994-1006 | `onclose`: reports the close, drops the socket, and schedules a reconnect when the link is enabled and the close was unclean, or disables it otherwise. Its properties are in `CloseHandlerKeepsInv`. |
| Connection.OnClose | src/screenLogger.js:994-1006 | `onclose` of the current socket. Its properties are in `OnCloseReconnects`. |
| Connection.ClosingStarts | src/screenLogger.js:510 | The closing handshake starts or the connection fails: the socket stays, but is no longer OPEN. Its properties are in `ClosingStopsSending`. |
| Connection.ClosingStopsSending | src/screenLogger.js:509-517 | Between the start of the closing handshake and `onclose`, the invariant holds, a rendered entry changes nothing in the channel (the OPEN test at line 510 fails, so nothing is sent), and the socket is still there for `onclose`. |
| Connection.ClosedAfterDisableIsHarmless | src/screenLogger.js:1422-1428 | A late `onclose` of a socket closed by `disable` schedules nothing and leaves the link disabled. |
| Connection.OnErrorKeepsInv | src/screenLogger.js:1008-1014 | `onerror` only reports, and the invariant holds. The socket, if any, is left closing and nothing else in the channel changes, so the report is never sent: `error` fires once `readyState` is `CLOSED` and the `OPEN` test at line 510 fails. The socket object stays until `onclose`. |
| Connection.OnError | src/screenLogger.js:1008-1014 | `onerror` only reports the error, rendered while the socket is closing, so not `OPEN` (line 510). Its properties are in `OnErrorKeepsInv`. |
| Connection.TimerFireKeepsInv | src/screenLogger.js:1034-1037 | The timer firing keeps the invariant. With WebSocket support and no failure, it leaves a CONNECTING socket. |
| Connection.TimerFire | src/screenLogger.js:1034-1037 | The reconnect timer firing clears the timer and calls `initializeWebSocket`. Its properties are in `TimerFireKeepsInv`. |
| Connection.DisableTearsDown | src/screenLogger.js:1402-1454 | `disable` cancels the timer and turns the logger off, and the DOM lines go. An open socket is closed with code 1000 and "Logger disabled", with the link disabled first. Without a socket nothing is closed. |
| Connection.DisabledLinkStaysDown | src/screenLogger.js:1422-1428 | After `disable` closed a socket, `initializeWebSocket` does nothing. |
| Connection.Disable | src/screenLogger.js:1402-1454 | `disable`: turns the logger off, cancels the timer, disables the link and closes the socket with code 1000. Its properties are in `DisableTearsDown` and `DisabledLinkStaysDown`. |
| Dispatch.Resolve | src/screenLogger.js:1046-1124 | A command name resolves to the handler with that name, and every handler's name resolves to it. |
| Dispatch.Run | src/screenLogger.js:1046-1125 | One handler of the command table run on the parsed message. Its properties are in `RunKeepsInv`, `PingAnswersWhenOpen`, `ServerLogLimit`, `ServerLevelsOnlyNamed` and the `…CmdKeepsInv` lemmas. |
| Dispatch.HandleServerMessage | src/screenLogger.js:1040-1134 | The corrected dispatcher. Parse failures and `null` messages are reported. A truthy `command` whose conversion to a property key throws at line 1124 is reported too: an object with its own `toString`, or an array holding one (`StringThrows`). A truthy `command` naming an own table entry runs it, and anything else is ignored. Its properties are in `HandleServerMessageKeepsInv`, `UnknownCommandIsIgnored`, `UnparseableIsReported`, `ThrowingCommandIsReported` and `OwnToStringCommand`. |
| Dispatch.UnknownCommandIsIgnored | src/screenLogger.js:1124-1128 | A missing or falsy `command` changes nothing. So does one that converts without throwing to a name that is not a table entry. |
| Dispatch.ThrowingCommandIsReported | src/screenLogger.js:1124-1131 | A `command` whose property-key conversion throws lands in the `catch`. Exactly one error entry "Failed to parse or handle message from server." is added, and settings and timers are unchanged. |
| Dispatch.OwnToStringCommand | src/screenLogger.js:1124-1131 | `{"command": {"toString": 1}}` is reported as a failure. `{"command": {"valueOf": 1}}` converts to `[object Object]`, which names no command, so it changes nothing. |
| Dispatch.UnparseableIsReported | src/screenLogger.js:1130-1133 | An unparseable frame records exactly the error entry "Failed to parse or handle message from server.". |
| Dispatch.PingAnswersWhenOpen | src/screenLogger.js:1115-1120 | `ping` sends one pong exactly when the socket is OPEN, and changes nothing else. |
| Dispatch.ServerLevelsOnlyNamed | src/screenLogger.js:1047-1058 | The server's `setLogLevel` changes only the levels its keys name, to the last such key's truthiness. |
| Dispatch.ServerLevelsIdempotent | src/screenLogger.js:1047-1058 | Sending the same level object twice gives the filter that sending it once gives. |
| Dispatch.ServerLogLimit | src/screenLogger.js:1064-1069 | `setLogLimit` acts only on a number greater than 0 and installs it. Otherwise nothing changes. |
| Dispatch.SwitchFeatureKeepsInv | src/screenLogger.js:1078-1094 | Each feature switch keeps the invariant. |
| Dispatch.ServerLevelsCmdKeepsInv | src/screenLogger.js:1047-1059 | The server's `setLogLevel` acts only on a truthy object `levels`, and then merges it into the filter. Any other payload leaves the state unchanged. The invariant is kept. |
| Dispatch.ClearLogsCmdKeepsInv | src/screenLogger.js:1060-1063 | The server's `clearLogs` keeps the invariant. |
| Dispatch.LogLimitCmdKeepsInv | src/screenLogger.js:1064-1069 | The server's `setLogLimit` keeps the invariant. |
| Dispatch.TextSizeCmdKeepsInv | src/screenLogger.js:1070-1075 | The server's `setTextSize` acts only on a string `size`: a non-empty one becomes the size, and an empty one leaves the settings unchanged. A `size` that is missing or not a string leaves the state unchanged. The invariant is kept. |
| Dispatch.FeatureCmdKeepsInv | src/screenLogger.js:1076-1097 | `enableFeature` and `disableFeature` set exactly the named feature's flag to on or off. An unrecognised feature leaves the settings unchanged. A missing or falsy `feature` leaves the state unchanged. The invariant is kept. |
| Dispatch.ThrowingFeatureIsReported | src/screenLogger.js:1076-1097 | A `feature` whose conversion throws matches no `switch` case. The report's concatenation (line 1084 or 1095) then throws into the `catch` at 1129-1131. Settings and timers are unchanged, and exactly the failure entry is added. |
| Dispatch.ScriptCmdKeepsInv | src/screenLogger.js:1098-1110 | `executeScript` never changes the settings. Without a truthy string `script` it leaves the state unchanged. The invariant is kept whether the script succeeds or throws. |
| Dispatch.RunKeepsInv | src/screenLogger.js:1046-1125 | Every command handler keeps the invariant. |
| Dispatch.HandleServerMessageKeepsInv | src/screenLogger.js:1040-1134 | Handling any frame keeps the invariant: no exception escapes. |
| Dispatch.ResolveAsWritten | src/screenLogger.js:1124-1125 | The as-written lookup agrees with `Resolve` on every name the table defines itself. |
| Dispatch.HandleServerMessageAsWritten | src/screenLogger.js:1040-1134 | The dispatcher with the lookup as written at line 1124. A `command` whose conversion throws is reported, as in the corrected one. Its properties are in `ProtoCommandIsReportedAsWritten`, `AsWrittenAgreesOnOwnNames` and `ThrowingCommandIsReported`. |
| Dispatch.ProtoCommandIsReportedAsWritten | src/screenLogger.js:1124-1133 | As written, `{"command": "__proto__"}` throws and is reported as a failed message. The corrected dispatcher ignores it like any unknown command. |
| Dispatch.AsWrittenAgreesOnOwnNames | src/screenLogger.js:1124-1128 | The as-written and corrected dispatchers agree on every frame whose command is not a throwing inherited name. That includes every command whose conversion throws, since both report it. |
| Levels.FromName | src/screenLogger.js:30-31 | A name maps to the level with that name, and a name of no level maps to none. |
| Levels.NameRoundTrip | src/screenLogger.js:30 | Every level's name maps back to it. |
| Levels.LoggingEnabledOnTotal | src/screenLogger.js:227-229 | With all five levels present, `_isLoggingEnabled` is "not paused and the level's flag is on". |
| Levels.LoggingEnabled | src/screenLogger.js:227-229 | `_isLoggingEnabled`: not paused, and the level's flag is not `false`. Its properties are in `LoggingEnabledOnTotal`. |
| Levels.DefaultFilterFacts | src/screenLogger.js:31 | The default filter has every level, with `debug` off and `error` on. |
| Levels.LevelMeta | src/screenLogger.js:402-403 | The label is `[`, the upper-cased level name, `]`. |
| Levels.LevelMetaNamesLevel | src/screenLogger.js:402-403 | Lower-casing a label's inside gives back its level. |
| JsValues.Get | src/screenLogger.js:1048 | A property read finds a pair the object actually has. |
| JsValues.EnumKeys | src/screenLogger.js:1050 | `for..in` over an object yields its properties in order, and over an array yields the indices as strings. |
| JsValues.ParseIntRoundTrip | src/screenLogger.js:1489 | `parseInt` of a printed integer gives the integer back. |
| JsValues.ParseIntOfNumber | src/screenLogger.js:1489 | `parseInt(n, 10) == n` for every number the model's JSON carries: a safe integer prints in plain decimal. |
| JsValues.ParseIntOfNonNumeric | src/screenLogger.js:1489-1490 | `parseInt` of `null`, a boolean or an object is NaN. For an object this is its `[object Object]` text; an object with its own `toString` throws instead (see "## Left out"). |
| JsValues.JsString | src/screenLogger.js:1124 | `String(v)`, as line 1124 turns `command` into a property key and line 1084 concatenates `feature`, of a value whose conversion does not throw: `null`, `true`/`false`, the decimal digits of a safe integer, the string itself, an array's elements joined by commas with `null` as empty, and `[object Object]`. `StringThrows` says when the conversion throws. Its properties are in `ParseIntRoundTrip`, `ParseIntOfNumber` and `ParseIntOfNonNumeric`. |
| JsValues.ParseInt | src/screenLogger.js:1489 | `parseInt(s, 10)` on text: leading white space is skipped, then one sign is read, then the longest run of decimal digits. No digits gives NaN (`None`). Its properties are in `ParseIntRoundTrip` and `NoLeadingNumber`. |
| JsValues.ParseIntOf | src/screenLogger.js:1489 | `parseInt(v, 10)` on a value: `ParseInt` of `String(v)`. Its properties are in `ParseIntOfNumber` and `ParseIntOfNonNumeric`. |
| JsValues.Truthy | src/screenLogger.js:1124 | `!!v`, the test at line 1124 and at lines 1048, 1077 and 1099: `null`, `false`, `0` and the empty string are falsy, and arrays and objects are truthy. Its properties enter through `Dispatch.Member` in the `*CmdKeepsInv` lemmas and `UnknownCommandIsIgnored`. |
| JsValues.ArrayKeysAreNoLevels | src/screenLogger.js:1523-1524 | No array index names a log level. |
| Text.LastIsNewestSuffix | src/screenLogger.js:1149-1151 | Keeping the newest `n` items keeps a suffix of length `min(len, n)`. |
| Text.DropOldest | src/screenLogger.js:1149-1151 | The `shift` loop leaves exactly the newest `storageLogLimit` items. |
| Timestamp.FormatTimestampRoundTrip | src/screenLogger.js:530-541 | For a real clock reading, the text has twelve characters shaped `HH:MM:SS.mmm`, and each field reads back as its clock value. |
| Timestamp.FormatTimestamp | src/screenLogger.js:530-541 | `_formatTimestamp` on the clock fields: `HH:MM:SS.mmm`, zero-padded. Its properties are in `FormatTimestampRoundTrip`. |
| Serializer.Listed | src/screenLogger.js:329-334 | The listed keys are exactly the own keys other than the marker. |
| Serializer.ConvertToString | src/screenLogger.js:362-399 | Conversion is total. It gives the first successful rendering, or else `[Circular Object]`, `String(arg)` or the fixed placeholder. |
| Serializer.Primary | src/screenLogger.js:363-385 | The `try` body of `_convertToString`: fixed texts for undefined, null, strings, functions, errors and elements, then the pretty printer or `JSON.stringify`. Its properties are in `ConvertToString` and `OneStringMessage`. |
| Serializer.OneStringMessage | src/screenLogger.js:431-435 | A single string argument is the message text itself. |
| Serializer.PrettyOutcome | src/screenLogger.js:256-359 | In the model's heap, the pretty printer can throw only two things. One is the RangeError of `toISOString` on an invalid date. The other is the TypeError of calling an own `hasOwnProperty` member that is not a function (line 330). Without such objects (`Printable`) it always succeeds. |
| Serializer.Pretty | src/screenLogger.js:256-359 | `_prettyPrintObject` on a value: the depth cut-off first, then primitives, strings, dates, functions, and marked or unmarked objects. Its properties are in `PrettyOutcome`, `MaxDepthCutoff`, `RevisitIsCircular`, `SelfReferenceIsCircular`, `ArrayTailIsNotPrinted` and `Marker.Print`. |
| Serializer.PrettyObject | src/screenLogger.js:289-356 | Wrappers, dates and errors come first. Next, an object that is marked is `"[Circular Reference]"`, whether the printer marked it or it carries a truthy `__xmediaLoggerVisited__` of its own (line 304). Any other object is printed as an array or as its listed members while it carries the marker. An object whose own `hasOwnProperty` is not a function throws. Its properties are in `PrettyObjectOutcome`, `OwnMarkIsCircular`, `BrokenHasOwnThrows` and `Marker.PrintObject`. |
| Serializer.OwnMarkIsCircular | src/screenLogger.js:304-306 | An object with a truthy marker of its own prints as `"[Circular Reference]"` on first sight. |
| Serializer.OwnMarkExamples | src/screenLogger.js:304-334 | `{__xmediaLoggerVisited__: true}` prints as `"[Circular Reference]"`. `{__xmediaLoggerVisited__: 0}` prints as `{}`, because the marker key is never listed. |
| Serializer.BrokenHasOwnThrows | src/screenLogger.js:328-331 | An unmarked plain object or element whose own `hasOwnProperty` is not a function throws the TypeError of the key loop. |
| Serializer.HasOwnNumberThrows | src/screenLogger.js:328-331 | `{hasOwnProperty: 1}` throws the TypeError. |
| Serializer.HasOwnFunctionPrints | src/screenLogger.js:328-331 | With a function as its own `hasOwnProperty`, an object prints without throwing. |
| Serializer.ArrayText | src/screenLogger.js:310-327 | The array text: at most 50 items, then the "more items" line. Its properties are in `ArrayTextOutcome`, `ArrayTailIsNotPrinted` and `Marker.PrintArray`. |
| Serializer.Items | src/screenLogger.js:315-325 | The item lines from index `k` on. Its properties are in `ItemsOutcome` and `ItemsAgree`. |
| Serializer.ObjectText | src/screenLogger.js:336-356 | The object text from its quoted keys and values, `{}` when there are none. Its properties are in `ObjectTextOutcome` and `Marker.PrintObject`. |
| Serializer.Members | src/screenLogger.js:338-351 | The member lines from index `k` on, comma-separated. Its properties are in `MembersOutcome` and `Marker.PrintMembers`. |
| Serializer.QuoteKey | src/screenLogger.js:343 | A key is printed bare when it is an identifier, and otherwise between double quotes with backslashes and quotes escaped. Its properties are in `QuoteKeyRoundTrip` and `QuotedKeyKeepsNewline`. |
| Serializer.MaxDepthCutoff | src/screenLogger.js:263-265 | The depth check runs first: any value past depth 5 renders as `"[Max Depth Reached]"`. |
| Serializer.RevisitIsCircular | src/screenLogger.js:304-306 | Re-entering a marked object renders `"[Circular Reference]"`. |
| Serializer.SelfReferenceIsCircular | src/screenLogger.js:304-327 | An array holding itself renders, and its text contains `"[Circular Reference]"`. |
| Serializer.ArrayTailIsNotPrinted | src/screenLogger.js:315-325 | Only the first 50 items are rendered, so arrays that agree there and in length print alike. |
| Serializer.ShortStringRoundTrip | src/screenLogger.js:277-283 | A string of at most 100 characters is quoted, and unescaping the inside gives it back. |
| Serializer.UnescapeEscapeEach | src/screenLogger.js:282 | Backslash, quote, newline, return and tab escaping can be undone. |
| Serializer.EscapeStringIsEscapeEach | src/screenLogger.js:282 | The chain of `replace` calls is the single-pass per-character escape. |
| Serializer.QuoteKeyRoundTrip | src/screenLogger.js:341-343 | An identifier key is printed bare. Any other key is printed between double quotes, and unescaping the inside gives the key back. |
| Serializer.QuotedKeyKeepsNewline | src/screenLogger.js:343 | Only backslashes and double quotes are escaped in a key: a newline in a quoted key is printed raw. |
| Serializer.EscapeKeyIsEach | src/screenLogger.js:343 | The two chained `replace` calls, backslash first, escape each character of the key on its own. |
| Serializer.UnescapeKeyEscapeEach | src/screenLogger.js:343 | The key escape can be undone. |
| Serializer.KeyEscapeKeeps | src/screenLogger.js:343 | The key escape keeps every character other than a backslash or a double quote. |
| Serializer.Marker.Print | src/screenLogger.js:256-359 | The printer returns the pretty text, with keys quoted as at line 343. The set of marked objects afterwards is the set before: the `finally` removes each marker. |
| Serializer.Marker.PrintObject | src/screenLogger.js:289-356 | It returns `PrettyObject`: an object with any truthy marker is circular. Otherwise the marker is added, the object is printed with keys quoted as at line 343, and the marker is removed even when printing throws. |
| Serializer.Marker.PrintArray | src/screenLogger.js:310-327 | The array loop builds the bounded array text. |
| Serializer.Marker.ListKeys | src/screenLogger.js:329-334 | The key loop collects exactly the listed keys. |
| Serializer.Marker.PrintMembers | src/screenLogger.js:336-351 | The member loop builds the object text, each key quoted as at line 343. |
| Html.EscapeHtmlSafe | src/screenLogger.js:717-725 | Escaped text has no `<`, `>`, `"` or `'`, and unescaping it gives the input back. |
| Html.EscapeHtml | src/screenLogger.js:717-725 | `_escapeHtml`: the five chained replacements, `&` first. Its properties are in `EscapeHtmlSafe`, `EscapeHtmlIsEntityEach` and `AmpEntityStable`. |
| Html.EscapeHtmlIsEntityEach | src/screenLogger.js:719-724 | The five chained replacements, `&` first, amount to replacing each character by its entity. |
| Html.AmpEntityStable | src/screenLogger.js:720-724 | The later replacements leave `&amp;` alone. That is why `&` goes first. |
| Html.Sort | src/screenLogger.js:684 | Sorting distinct column names gives them in strictly ascending order, with the same names. |
| Html.SortedUnique | src/screenLogger.js:684 | Two strictly sorted lists with the same elements are equal. |
| Html.AutoColumnsAreSortedUnion | src/screenLogger.js:665-685 | Auto-detected columns are strictly sorted. A name is a column exactly when some row has it as an own enumerable key and it is not `__proto__`: `columnSet['__proto__'] = true` at line 673 runs the inherited setter, which records nothing. The own enumerable keys are an array's indices, an object's or element's members, and a `String` wrapper's indices. |
| Html.ProtoOnlyRowHasNoColumns | src/screenLogger.js:668-685 | A row whose only own key is `__proto__` gives no columns. |
| Html.StringWrapperRowColumns | src/screenLogger.js:668-685 | `new String("ab")` as the only row gives the columns `0` and `1`. |
| Html.StringWrapperRowCells | src/screenLogger.js:703 | The cells of `new String("ab")` are its characters, and its `length` column shows `2`. |
| Html.ErrorRowMessageCell | src/screenLogger.js:668-703 | `new Error("boom")` has no enumerable own keys, but its `message` column shows `boom`. |
| Html.AutoColumns | src/screenLogger.js:665-685 | The auto-detected columns: every row's own enumerable keys except `__proto__`, collected and sorted. A `String` wrapper row contributes its indices. Its properties are in `AutoColumnsAreSortedUnion` and `DetectColumns`. |
| Html.Truncate | src/screenLogger.js:705-706 | A cell of more than 100 characters is cut to its first 100 plus `...`. Shorter cells are kept. |
| Html.TableHtml | src/screenLogger.js:658-714 | There is no table exactly when the data is not an object. |
| Html.EmptyArrayTable | src/screenLogger.js:663 | An empty array gives the "Table data is empty." note. |
| Html.NoKeysTable | src/screenLogger.js:687 | Rows with no own keys and no columns asked for give the "no properties" note. |
| Html.CellTextIsEscaped | src/screenLogger.js:703-708 | The text inside every cell is HTML-escaped. |
| Html.CollectKeys | src/screenLogger.js:668-677 | The row loop collects each own key other than `__proto__` once, in first-seen order. |
| Html.DetectColumns | src/screenLogger.js:665-685 | The collect-then-sort code computes the sorted union of the own keys, without `__proto__`. |
| Html.CellValue | src/screenLogger.js:703 | `row.hasOwnProperty(colName) ? row[colName] : ''`. An array row owns its indices and `length`, whose value is its item count. An object or element row owns its members. A `String` wrapper owns its indices, whose values are its characters, and `length`. An error owns its `message` and `stack`. A primitive row, a date, or a `Number` or `Boolean` wrapper gives `''`. The result is always a value in the heap. |
| Html.IndexKey | src/screenLogger.js:699 | The row label: the index `k` for array data, and otherwise the `k`-th key of `Object.keys(data)`. |
| Html.BuildRows | src/screenLogger.js:697-711 | The row loop builds the table body. |
| Html.CreateHtmlTable | src/screenLogger.js:658-714 | The string builder's result is the table text, or none for non-objects. |
| Logger.LogTableReports | src/screenLogger.js:630-651 | `console.table` records only "Rendering table..." when table text results. When none results and warnings pass the filter, the warning is recorded as a second entry. The invariant is kept. |
| Logger.ScreenLogger.constructor | src/screenLogger.js:10-84 | A fresh logger is in the initial state and valid. |
| Logger.ScreenLogger.RenderLogMessage | src/screenLogger.js:415-527 | The fields change exactly as `Emit` says. The storage sink's own failure reports enter this method again and are dropped by the guard. |
| Logger.ScreenLogger.Record | src/screenLogger.js:441-517 | The entry is pushed, stored, shown and sent: the buffer, sink and link become exactly their appended, stored and sent forms. |
| Logger.ScreenLogger.ShowEntry | src/screenLogger.js:484-497 | The line is added, and the view keeps its newest `logLimit` lines. The history is spliced to its last `logLimit` entries when it is longer than 1.5 × the limit. |
| Logger.ScreenLogger.TrimView | src/screenLogger.js:487-493 | The removal loop leaves exactly the newest `logLimit` lines. |
| Logger.ScreenLogger.StoreLogEntry | src/screenLogger.js:1138-1163 | The sink becomes `StoreEntry` of its old value, and nothing else changes. |
| Logger.ScreenLogger.StorageFailed | src/screenLogger.js:1155-1162 | The failure path disables the sink and changes nothing else: both reports are swallowed. |
| Logger.ScreenLogger.LogWithCopy | src/screenLogger.js:609-621 | A console call renders its arguments' message text through `Emit`, and the logger stays valid. |
| Logger.ScreenLogger.LogTableWithCopy | src/screenLogger.js:624-655 | A table call performs `LogTable` on the table text `TableHtml` gives. |
| Logger.ScreenLogger.LogTime | src/screenLogger.js:729-738 | It performs `TimeStart` and stays valid. |
| Logger.ScreenLogger.LogTimeEnd | src/screenLogger.js:740-752 | It performs `TimeEnd` and stays valid. |
| Logger.ScreenLogger.LogGroup | src/screenLogger.js:780-788 | It performs `Group` on the joined label and stays valid. |
| Logger.ScreenLogger.LogGroupEnd | src/screenLogger.js:790-794 | It performs `GroupEnd` and stays valid. |
| Logger.ScreenLogger.Enable | src/screenLogger.js:1363-1372 | It performs `Enable` and stays valid. |
| Logger.ScreenLogger.Pause | src/screenLogger.js:1461-1467 | It performs `Pause` and stays valid. |
| Logger.ScreenLogger.Resume | src/screenLogger.js:1473-1481 | It performs `Resume` and stays valid. |
| Logger.ScreenLogger.RefreshDisplay | src/screenLogger.js:1812-1860 | The redraw loop leaves the view as `Refresh` describes. |
| Logger.ScreenLogger.ClearLogs | src/screenLogger.js:1626-1641 | It performs `ClearLogs` and stays valid. |
| Logger.ScreenLogger.SetLogLimit | src/screenLogger.js:1488-1508 | It performs `SetLogLimit` and stays valid. |
| Logger.ScreenLogger.LevelsFromKeys | src/screenLogger.js:1523-1528 | The `for..in` loop builds the merged filter, and "valid" is whether some key named a level. |
| Logger.ScreenLogger.LevelsFromNames | src/screenLogger.js:1531-1537 | The argument loop builds the names filter, and "valid" is whether some argument named a level. |
| Logger.ScreenLogger.SetLogLevel | src/screenLogger.js:1515-1550 | It performs `SetLogLevel` and stays valid. |
| Logger.ScreenLogger.SetTextSize | src/screenLogger.js:1557-1575 | It performs `SetTextSize` and stays valid. |
| Logger.ScreenLogger.EnableTimeCounter | src/screenLogger.js:1581-1591 | It performs `EnableTimeCounter` and stays valid. |
| Logger.ScreenLogger.DisableTimeCounter | src/screenLogger.js:1597-1608 | It performs `DisableTimeCounter` and stays valid. |
| Logger.ScreenLogger.PrettyPrint | src/screenLogger.js:1615-1620 | It performs `PrettyPrint` and stays valid. |
| Logger.ScreenLogger.EnableColors | src/screenLogger.js:1793-1798 | It performs `EnableColors` and stays valid. |
| Logger.ScreenLogger.LoadStoredLogs | src/screenLogger.js:1165-1180 | It returns what `LoadStoredLogs` gives and leaves that new state. |
| Logger.ScreenLogger.Disable | src/screenLogger.js:1402-1454 | It performs `Connection.Disable` and stays valid. |
| Logger.ScreenLogger.CancelReconnect | src/screenLogger.js:964-967 | The pending timer, if any, is cancelled, and nothing else changes. |
| Logger.ScreenLogger.ScheduleReconnect | src/screenLogger.js:1030-1038 | It performs `Schedule`. |
| Logger.ScreenLogger.InitializeWebSocket | src/screenLogger.js:957-1028 | It performs `Initialize` and stays valid. |
| Logger.ScreenLogger.ReconnectTimerFires | src/screenLogger.js:1034-1037 | It performs `TimerFire` and stays valid. |
| Logger.ScreenLogger.OnOpen | src/screenLogger.js:982-992 | It performs `OnOpen` and stays valid. |
| Logger.ScreenLogger.CloseHandler | src/screenLogger.js:994-1006 | It performs `CloseHandler`. |
| Logger.ScreenLogger.OnClose | src/screenLogger.js:994-1006 | It performs `OnClose` and stays valid. |
| Logger.ScreenLogger.OnClosedAfterDisable | src/screenLogger.js:1422-1428 | It performs `OnClosedAfterDisable` and stays valid. |
| Logger.ScreenLogger.OnError | src/screenLogger.js:1008-1014 | It performs `OnError`, marking the socket as closing before rendering the report, and stays valid. |
| Logger.ScreenLogger.ClosingStarts | src/screenLogger.js:510 | It performs `ClosingStarts` and stays valid. |
| Logger.ScreenLogger.HandleServerMessage | src/screenLogger.js:1040-1134 | It performs `Dispatch.HandleServerMessage` and stays valid. That function looks commands up among the table's own names only (`Dispatch.Resolve`), not through the prototype chain as line 1124 does; see "## Findings". |
| Logger.ScreenLogger.RunCommand | src/screenLogger.js:1046-1125 | It performs `Run` and stays valid. |
| Logger.ScreenLogger.MergeLevels | src/screenLogger.js:1050-1054 | The in-place loop leaves the current levels equal to `Merge` of the old ones. |
| Logger.ScreenLogger.SwitchFeatureCommand | src/screenLogger.js:1076-1097 | It performs `FeatureCommand` and stays valid. |

## Left out

- The DOM: the panel, its styling, position and size, the control panel, scrolling, keyboard handling and the window error listener. The displayed view is modelled as the sequence of counters of the lines in the log container.
- Console mirroring and the console override (`_backupConsole`, `_overrideConsoleMethods`, `_restoreConsoleMethods`, `isLoggingToConsole`). These call host functions and change no logger state.
- The time-counter display, `_refreshTimestamps` and its interval. This is rounded millisecond arithmetic on DOM spans; line text is modelled with the clock text as a parameter.
- The colour and background of lines. These are styling only; the colour table is in `Levels.Color`.
- The messages of `enable()`'s DOM-ready callback, and `disable()` called from it when the UI fails. That needs the DOM.
- `console.assert` (`_logAssert`). Its stack trace comes from the host.
- `executeScript`'s `new Function` and `reload`'s page reload. These are foreign code and a navigation; the script's outcome is a parameter, and reload only logs.
- Logger.ScreenLogger.LogTableWithCopy: does not count the table's `div` among the container's children, and does not model the `catch` around `_createHtmlTable` (line 652). That `catch` fires when a row has an own `hasOwnProperty` member. If that member is not a function, the row test at line 672 or the cell test at line 703 throws. Whatever its value, `columnSet.hasOwnProperty` at line 680 is then shadowed by `true` and throws. The model's builder takes every row's `hasOwnProperty` to be the inherited one and always returns a table, so it does not produce the "Error rendering console.table:" entry.
- Connection.Initialize: with a socket that is closing, `initializeWebSocket` creates a second socket while the first one's `onclose` is still due; the model keeps only the new one. The reconnect callback, its only caller, never runs while a socket exists.
- Html.CellValue: an empty `stack` stands for an error without an own `stack`, as in engines that inherit it from `Error.prototype`; the cell is then `''`.
- A `socket.send` that throws, and a closing that throws in `disable`. Both are caught and only written to the console.
- `timers` entries named like `Object.prototype` members (`constructor`, `toString`, …), and a start time of 0 from a clock at the epoch. The model's timer map starts empty.
- JsValues.JsString: numbers are safe integers only (`SafeInt`, at most 2^53 - 1 in size), which `String` writes in plain decimal. `JSON.parse` rounds a larger integer to a double, and `String` writes one of 10^21 or more with an exponent. So a server `setLogLimit` of 1e21 installs `parseInt("1e+21")`, which is 1. Fractions are not carried either. Dispatch.ServerLogLimit and Pipeline.SetLogLimitOfValues are stated over these safe integers only.
- JsValues.ParseInt: gives the exact value of the digit run. JavaScript rounds a run beyond 2^53 to the nearest double.
- Pipeline.SetLogLimit: an argument object with its own `toString` member (or an array holding one) makes `parseInt(limit, 10)` throw to the caller before any state changes. The same holds for `String(arg)` in the names form of Pipeline.SetLogLevel and for the warning's concatenation in Pipeline.SetTextSize. The model renders those arguments through `JsString` as if the conversion succeeded, because it has no exceptions thrown to the caller of the public API. The server path never reaches these conversions with such values.
- Duplicate keys in a JSON object. The envelope keeps props in order, and lookups take the first.
- UTF-16 code units. Strings are sequences of characters; `toLowerCase`/`toUpperCase` are ASCII-only, which is exact on the five level names.
- `undefined` arguments and functions passed to `setLogLevel` or `setLogLimit`. `String(undefined)` names no level, and `parseInt` of it is NaN, just like `null`.
- `initializeWebSocket` and `_loadStoredLogs` are not called by the public API, and no public function turns on `isWebSocketEnabled` or `isStorageLoggingEnabled`. The model takes both switches as constructor parameters.
- The comment at src/screenLogger.js:1026 says a reconnect is still attempted after a constructor failure. The code disables the link first, so no reconnect is scheduled; the model follows the code (`Connection.ConstructorFailureGivesUp`).
- `enableConsoleLogging`, `enableWindowError`, `setConfig`, `setCustomStyle`. These are UI or host configuration.
- Serializer.PrettyOutcome: holds of the model's heap only. The code runs in strict mode, so the printer also throws when it writes the marker onto a frozen or non-extensible object (line 308). It also throws on an object with no `hasOwnProperty` at all, as for `Object.create(null)` (line 330). It throws when a getter reached by `obj[k]` throws (line 344). The heap has no frozen, non-extensible or prototype-less objects and no getters. An own `hasOwnProperty` that is not a function is modelled (`BrokenHasOwnThrows`).
- Serializer.PrettyObject: an own `hasOwnProperty` member that is a function is called by the key loop, with results the model cannot know. The model lists keys as the inherited method would. The heap is not changed by printing, so a falsy own marker, which the code overwrites and then deletes, stays in the heap. A marker inherited through a prototype chain is not represented.
- Logger.ScreenLogger.HandleServerMessage: dispatches through the corrected lookup `Dispatch.Resolve`, not through the prototype chain of line 1124. The as-written reading is `Dispatch.HandleServerMessageAsWritten` (see "## Findings").
- The Date getters and `toISOString`. The clock fields are inputs of `Timestamp.FormatTimestamp`; an invalid date is a value whose printing throws.

## Findings

| source | as written | input that shows it | evidently intended | confidence | as-written member | corrected member |
|---|---|---|---|---|---|---|
| src/screenLogger.js:1124-1125 | `commands[message.command]` looks the name up through the prototype chain, so inherited names of `Object.prototype` count as commands. `__proto__` resolves to an object that cannot be called, and `__defineGetter__`/`__defineSetter__` throw when called with one argument. | `{"command": "__proto__"}` | Names the table does not define are unknown commands: only a console warning, no state change. As written, the call throws, and "Failed to parse or handle message from server." is logged as an error entry. | not executed | Dispatch.ProtoCommandIsReportedAsWritten | Dispatch.Resolve |
