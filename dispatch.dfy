/** `handleServerMessage`: a frame from the server is parsed, its `command`
    member selects a handler from the command table, and the handler runs
    with the parsed message. */
module Dispatch {
  import opened Text
  import opened Levels
  import opened JsValues
  import opened Pipeline

  /** What `JSON.parse(data)` makes of a frame: an exception, or a value. */
  datatype Inbound = Unparseable | Parsed(message: Json)

  /** The nine entries of the `commands` table. */
  datatype Command =
    | SetLogLevelCmd | ClearLogsCmd | SetLogLimitCmd | SetTextSizeCmd
    | EnableFeatureCmd | DisableFeatureCmd | ExecuteScriptCmd | ReloadCmd | PingCmd

  function CommandName(c: Command): string
  {
    match c
    case SetLogLevelCmd => "setLogLevel"
    case ClearLogsCmd => "clearLogs"
    case SetLogLimitCmd => "setLogLimit"
    case SetTextSizeCmd => "setTextSize"
    case EnableFeatureCmd => "enableFeature"
    case DisableFeatureCmd => "disableFeature"
    case ExecuteScriptCmd => "executeScript"
    case ReloadCmd => "reload"
    case PingCmd => "ping"
  }

  /** The table's own entries: a command exactly when the key is one of the
      nine names. */
  function Resolve(key: string): (r: Option<Command>)
    ensures r.Some? ==> CommandName(r.value) == key
    ensures forall c: Command :: CommandName(c) == key ==> r == Some(c)
  {
    match key
    case "setLogLevel" => Some(SetLogLevelCmd)
    case "clearLogs" => Some(ClearLogsCmd)
    case "setLogLimit" => Some(SetLogLimitCmd)
    case "setTextSize" => Some(SetTextSizeCmd)
    case "enableFeature" => Some(EnableFeatureCmd)
    case "disableFeature" => Some(DisableFeatureCmd)
    case "executeScript" => Some(ExecuteScriptCmd)
    case "reload" => Some(ReloadCmd)
    case "ping" => Some(PingCmd)
    case _ => None
  }

  const HandleFailure: string := "Failed to parse or handle message from server."

  /** Which feature `enableFeature` / `disableFeature` switches; the
      `switch` compares with `===`, so only these exact strings match. */
  datatype Feature = TimeCounter | PrettyPrinting | Colors | OtherFeature

  function FeatureOf(v: Json): Feature
  {
    match v
    case JStr("timeCounter") => TimeCounter
    case JStr("prettyPrint") => PrettyPrinting
    case JStr("colors") => Colors
    case _ => OtherFeature
  }

  /** A member of the message, when it is truthy. */
  function Member(message: Json, key: string): Option<Json>
  {
    var v := Get(message, key);
    if v.Some? && Truthy(v.value) then v else None
  }

  /** The server form of level setting: merge into the current filter, then
      report the whole filter. No redraw. */
  function ServerLevels(st: State, levels: Json, time: int): State
  {
    var f := Merge(st.settings.levels, EnumKeys(levels));
    Emit(st.(settings := st.settings.(levels := f)), Info, "Log levels updated by server: " + FilterJson(f), time)
  }

  function SwitchFeature(st: State, feature: Feature, on: bool, time: int): State
  {
    match feature
    case TimeCounter => if on then EnableTimeCounter(st, time) else DisableTimeCounter(st, time)
    case PrettyPrinting => PrettyPrint(st, on, time)
    case Colors => EnableColors(st, on, time)
    case OtherFeature => st
  }

  /** `enableFeature` / `disableFeature`: a truthy `feature` is switched
      when known and reported in every case. A `feature` whose text
      conversion throws is an object or array, matches no case, and makes
      the report's concatenation throw into the `catch` of
      `handleServerMessage`, which reports the failure. */
  function FeatureCommand(st: State, message: Json, on: bool, time: int): State
  {
    var feature := Member(message, "feature");
    if feature.None? then st
    else if StringThrows(feature.value) then Emit(st, Error, HandleFailure, time)
    else
      Emit(SwitchFeature(st, FeatureOf(feature.value), on, time), Info,
           "Feature \"" + JsString(feature.value) + "\" " + EnabledText(on) + " by server.", time)
  }

  /** One handler of the table run on the parsed message. `script` is the
      outcome of the server's script: `None` when it runs through, the
      exception message when it throws. */
  function Run(st: State, cmd: Command, message: Json, time: int, script: Option<string>): State
  {
    match cmd
    case SetLogLevelCmd =>
      var levels := Member(message, "levels");
      if levels.Some? && IsObject(levels.value) then ServerLevels(st, levels.value, time) else st
    case ClearLogsCmd =>
      Emit(ClearLogs(st, time), Info, "Logs cleared by server command.", time)
    case SetLogLimitCmd =>
      var limit := Get(message, "limit");
      if limit.Some? && limit.value.JNum? && limit.value.n > 0 then
        Emit(SetLogLimit(st, limit.value, time), Info, "Log limit set to " + IntToString(limit.value.n) + " by server.", time)
      else st
    case SetTextSizeCmd =>
      var size := Get(message, "size");
      if size.Some? && size.value.JStr? then
        Emit(SetTextSize(st, size.value, time), Info, "Text size set to " + size.value.s + " by server.", time)
      else st
    case EnableFeatureCmd => FeatureCommand(st, message, true, time)
    case DisableFeatureCmd => FeatureCommand(st, message, false, time)
    case ExecuteScriptCmd =>
      var code := Member(message, "script");
      if code.Some? && code.value.JStr? then
        var st1 := Emit(st, Warn, "Executing script from server...", time);
        if script.None? then Emit(st1, Info, "Script executed successfully.", time)
        else Emit(st1, Error, "Error executing script from server: " + script.value, time)
      else st
    case ReloadCmd =>
      Emit(st, Warn, "Reloading page by server command...", time)
    case PingCmd =>
      if st.channel.socket == Open then st.(channel := st.channel.(outbox := st.channel.outbox + [Pong(time)]))
      else st
  }

  /** `handleServerMessage(data)`: an unparseable frame, a `null` message
      (reading `.command` of it throws) and a `command` that cannot be turned
      into a property key are reported; a truthy `command` that names a table
      entry runs it; anything else is ignored. */
  function HandleServerMessage(st: State, frame: Inbound, time: int, script: Option<string>): State
  {
    match frame
    case Unparseable => Emit(st, Error, HandleFailure, time)
    case Parsed(message) =>
      if message.JNull? then Emit(st, Error, HandleFailure, time)
      else
        var command := Member(message, "command");
        if command.None? then st
        else if StringThrows(command.value) then Emit(st, Error, HandleFailure, time)
        else
          var cmd := Resolve(JsString(command.value));
          if cmd.None? then st else Run(st, cmd.value, message, time, script)
  }

  // ---- the lookup as written ----

  /** What `commands[key]` finds in the object literal as written: an own
      entry, a member inherited from `Object.prototype`, or nothing. */
  datatype Found = OwnEntry(cmd: Command) | Inherited(throws: bool) | NotFound

  /** `Object.prototype` members that throw when called as
      `commands[key](message)`: `__proto__` is not a function, and the two
      definers reject a missing accessor. */
  predicate InheritedThrowing(key: string)
  {
    key == "__proto__" || key == "__defineGetter__" || key == "__defineSetter__"
  }

  /** Members that turn the message into a property key; that throws only
      when the message has its own `toString` member, which shadows the
      callable one. */
  predicate InheritedKeyed(key: string)
  {
    key == "hasOwnProperty" || key == "propertyIsEnumerable" || key == "__lookupGetter__" || key == "__lookupSetter__"
  }

  /** Members that return without effect. */
  predicate InheritedHarmless(key: string)
  {
    key == "constructor" || key == "isPrototypeOf" || key == "toString" || key == "toLocaleString" || key == "valueOf"
  }

  function ResolveAsWritten(key: string, message: Json): (r: Found)
    ensures Resolve(key).Some? ==> r == OwnEntry(Resolve(key).value)
  {
    var own := Resolve(key);
    if own.Some? then OwnEntry(own.value)
    else if InheritedThrowing(key) then Inherited(true)
    else if InheritedKeyed(key) then Inherited(Get(message, "toString").Some?)
    else if InheritedHarmless(key) then Inherited(false)
    else NotFound
  }

  /** `handleServerMessage` with the lookup as written: an inherited member
      that throws lands in the `catch` and is reported as a parse failure. */
  function HandleServerMessageAsWritten(st: State, frame: Inbound, time: int, script: Option<string>): State
  {
    match frame
    case Unparseable => Emit(st, Error, HandleFailure, time)
    case Parsed(message) =>
      if message.JNull? then Emit(st, Error, HandleFailure, time)
      else
        var command := Member(message, "command");
        if command.None? then st
        else if StringThrows(command.value) then Emit(st, Error, HandleFailure, time)
        else
          match ResolveAsWritten(JsString(command.value), message)
          case OwnEntry(cmd) => Run(st, cmd, message, time, script)
          case Inherited(throws) => if throws then Emit(st, Error, HandleFailure, time) else st
          case NotFound => st
  }

  /** The discrepancy: `{"command": "__proto__"}` is valid JSON naming no
      command, yet as written it is reported as a message that could not be
      parsed or handled, whereas an unknown command is ignored. */
  lemma ProtoCommandIsReportedAsWritten(st: State, time: int)
    requires Inv(st) && Accepts(st, Error)
    ensures var frame := Parsed(JObj([("command", JStr("__proto__"))]));
      HandleServerMessageAsWritten(st, frame, time, None).buffer.counter == st.buffer.counter + 1
      && HandleServerMessage(st, frame, time, None) == st
  {
    var message := JObj([("command", JStr("__proto__"))]);
    assert Get(message, "command") == Some(JStr("__proto__"));
    assert Resolve("__proto__") == None;
    EmitAppends(st, Error, HandleFailure, time);
  }

  /** Both readings agree on every frame whose command is not an inherited
      member name (or does not convert to a name at all), and the corrected
      one ignores every name that is not one of the nine. */
  lemma AsWrittenAgreesOnOwnNames(st: State, frame: Inbound, time: int, script: Option<string>)
    requires frame.Parsed? ==> var c := Member(frame.message, "command");
      c.None? || StringThrows(c.value) || !(InheritedThrowing(JsString(c.value)) || InheritedKeyed(JsString(c.value)))
    ensures HandleServerMessageAsWritten(st, frame, time, script) == HandleServerMessage(st, frame, time, script)
  {
  }

  // ---- properties of the corrected dispatcher ----

  /** A parsed object whose `command` is missing or falsy, or converts
      without throwing to a name of no entry, changes nothing. (A `command`
      whose conversion throws is reported: `ThrowingCommandIsReported`.) */
  lemma UnknownCommandIsIgnored(st: State, message: Json, time: int, script: Option<string>)
    requires message.JObj?
    requires var c := Member(message, "command");
      c.None? || (!StringThrows(c.value) && Resolve(JsString(c.value)).None?)
    ensures HandleServerMessage(st, Parsed(message), time, script) == st
  {
  }

  /** A frame that is not JSON is reported as an error line. */
  lemma UnparseableIsReported(st: State, time: int, script: Option<string>)
    requires Inv(st) && Accepts(st, Error)
    ensures var r := HandleServerMessage(st, Unparseable, time, script);
      r.buffer.counter == st.buffer.counter + 1
      && r.buffer.entries[|r.buffer.entries| - 1] == Entry(time, HandleFailure, Error, st.buffer.counter + 1)
  {
    EmitAppends(st, Error, HandleFailure, time);
    AppendFacts(st.buffer, Entry(time, HandleFailure, Error, st.buffer.counter + 1), st.settings.logLimit);
  }

  /** A `command` whose conversion to a property key throws lands in the
      `catch`: exactly the failure report is rendered, and nothing else
      changes. */
  lemma ThrowingCommandIsReported(st: State, message: Json, time: int, script: Option<string>)
    requires Inv(st) && Accepts(st, Error)
    requires Member(message, "command").Some? && StringThrows(Member(message, "command").value)
    ensures var r := HandleServerMessage(st, Parsed(message), time, script);
      r.settings == st.settings && r.timers == st.timers
      && r.buffer.counter == st.buffer.counter + 1
      && r.buffer.entries[|r.buffer.entries| - 1] == Entry(time, HandleFailure, Error, st.buffer.counter + 1)
  {
    assert HandleServerMessage(st, Parsed(message), time, script) == Emit(st, Error, HandleFailure, time);
    EmitAppends(st, Error, HandleFailure, time);
    AppendFacts(st.buffer, Entry(time, HandleFailure, Error, st.buffer.counter + 1), st.settings.logLimit);
  }

  /** `{"command": {"toString": 1}}` is reported as a failure, while
      `{"command": {"valueOf": 1}}` names `[object Object]`, no command, and
      is ignored. */
  lemma OwnToStringCommand(st: State, time: int, script: Option<string>)
    requires Inv(st) && Accepts(st, Error)
    ensures HandleServerMessage(st, Parsed(JObj([("command", JObj([("toString", JNum(1))]))])), time, script).buffer.counter
            == st.buffer.counter + 1
    ensures HandleServerMessage(st, Parsed(JObj([("command", JObj([("valueOf", JNum(1))]))])), time, script) == st
  {
    var bad := JObj([("command", JObj([("toString", JNum(1))]))]);
    assert Get(bad, "command") == Some(JObj([("toString", JNum(1))]));
    assert StringThrows(JObj([("toString", JNum(1))])) by {
      assert JObj([("toString", JNum(1))]).props[0].0 == "toString";
    }
    EmitAppends(st, Error, HandleFailure, time);
    var harmless := JObj([("command", JObj([("valueOf", JNum(1))]))]);
    assert Get(harmless, "command") == Some(JObj([("valueOf", JNum(1))]));
    assert Resolve("[object Object]") == None;
  }

  /** A truthy `feature` whose conversion throws switches nothing: the state
      at the `catch` is the state before the handler, plus the failure
      report. */
  lemma ThrowingFeatureIsReported(st: State, message: Json, on: bool, time: int)
    requires Inv(st) && Accepts(st, Error)
    requires Member(message, "feature").Some? && StringThrows(Member(message, "feature").value)
    ensures var r := FeatureCommand(st, message, on, time);
      r.settings == st.settings && r.timers == st.timers
      && r.buffer.counter == st.buffer.counter + 1
      && r.buffer.entries[|r.buffer.entries| - 1] == Entry(time, HandleFailure, Error, st.buffer.counter + 1)
  {
    EmitAppends(st, Error, HandleFailure, time);
    AppendFacts(st.buffer, Entry(time, HandleFailure, Error, st.buffer.counter + 1), st.settings.logLimit);
  }

  /** `ping` answers exactly when the socket is open, and logs nothing. */
  lemma PingAnswersWhenOpen(st: State, message: Json, time: int, script: Option<string>)
    ensures var r := Run(st, PingCmd, message, time, script);
      r.buffer == st.buffer && r.settings == st.settings
      && r.channel.outbox == st.channel.outbox + (if st.channel.socket == Open then [Pong(time)] else [])
  {
  }

  /** The server's level object changes only the levels it names, each to
      the truthiness of the last value given for it. */
  lemma ServerLevelsOnlyNamed(st: State, levels: Json, time: int, l: Level)
    requires Total(st.settings.levels)
    ensures var f := ServerLevels(st, levels, time).settings.levels;
      Total(f)
      && f[l] == (if Setting(EnumKeys(levels), l).Some? then Setting(EnumKeys(levels), l).value else st.settings.levels[l])
  {
    MergeIsLastSetting(st.settings.levels, EnumKeys(levels), l);
  }

  /** Sending the same `setLogLevel` message twice leaves the same filter as
      sending it once. */
  lemma ServerLevelsIdempotent(st: State, levels: Json, t0: int, t1: int)
    ensures ServerLevels(ServerLevels(st, levels, t0), levels, t1).settings.levels
            == ServerLevels(st, levels, t0).settings.levels
  {
    MergeIdempotent(st.settings.levels, EnumKeys(levels));
  }

  /** `setLogLimit` from the server takes only positive numbers, and then the
      limit becomes that number. */
  lemma ServerLogLimit(st: State, message: Json, time: int, script: Option<string>)
    ensures var limit := Get(message, "limit");
      var r := Run(st, SetLogLimitCmd, message, time, script);
      (limit.Some? && limit.value.JNum? && limit.value.n > 0 ==> r.settings.logLimit == limit.value.n)
      && (!(limit.Some? && limit.value.JNum? && limit.value.n > 0) ==> r == st)
  {
    var limit := Get(message, "limit");
    if limit.Some? && limit.value.JNum? && limit.value.n > 0 {
      SetLogLimitOfValues(st, limit.value.n, JNull, time);
    }
  }

  lemma SwitchFeatureKeepsInv(st: State, feature: Feature, on: bool, time: int)
    requires Inv(st)
    ensures Inv(SwitchFeature(st, feature, on, time))
  {
    match feature
    case TimeCounter =>
      if on {
        EnableTimeCounterKeepsInv(st, time);
      } else {
        DisableTimeCounterKeepsInv(st, time);
      }
    case PrettyPrinting =>
      PrettyPrintKeepsInv(st, on, time);
    case Colors =>
      EnableColorsKeepsInv(st, on, time);
    case OtherFeature =>
  }

  /** The server `setLogLevel` acts only on a truthy object `levels`, merging
      it into the filter; any other payload changes nothing. The invariant is
      kept. */
  lemma ServerLevelsCmdKeepsInv(st: State, message: Json, time: int, script: Option<string>)
    requires Inv(st)
    ensures Inv(Run(st, SetLogLevelCmd, message, time, script))
    ensures var levels := Member(message, "levels");
      var r := Run(st, SetLogLevelCmd, message, time, script);
      (levels.Some? && IsObject(levels.value) ==>
         r.settings == st.settings.(levels := Merge(st.settings.levels, EnumKeys(levels.value))))
      && (!(levels.Some? && IsObject(levels.value)) ==> r == st)
  {
    var levels := Member(message, "levels");
    if levels.Some? && IsObject(levels.value) {
      var f := Merge(st.settings.levels, EnumKeys(levels.value));
      EmitKeepsInv(st.(settings := st.settings.(levels := f)), Info, "Log levels updated by server: " + FilterJson(f), time);
    }
  }

  lemma ClearLogsCmdKeepsInv(st: State, message: Json, time: int, script: Option<string>)
    requires Inv(st)
    ensures Inv(Run(st, ClearLogsCmd, message, time, script))
  {
    ClearLogsRestarts(st, time);
    EmitKeepsInv(ClearLogs(st, time), Info, "Logs cleared by server command.", time);
  }

  lemma LogLimitCmdKeepsInv(st: State, message: Json, time: int, script: Option<string>)
    requires Inv(st)
    ensures Inv(Run(st, SetLogLimitCmd, message, time, script))
  {
    var limit := Get(message, "limit");
    if limit.Some? && limit.value.JNum? && limit.value.n > 0 {
      SetLogLimitValidates(st, limit.value, time);
      EmitKeepsInv(SetLogLimit(st, limit.value, time), Info, "Log limit set to " + IntToString(limit.value.n) + " by server.", time);
    }
  }

  /** The server `setTextSize` acts only on a string `size`: a non-empty one
      becomes the size, an empty one is refused by `setTextSize`; any other
      payload changes nothing. The invariant is kept. */
  lemma TextSizeCmdKeepsInv(st: State, message: Json, time: int, script: Option<string>)
    requires Inv(st)
    ensures Inv(Run(st, SetTextSizeCmd, message, time, script))
    ensures var size := Get(message, "size");
      var r := Run(st, SetTextSizeCmd, message, time, script);
      (size.Some? && size.value.JStr? ==>
         r.settings == if size.value.s != "" then st.settings.(textSize := size.value.s) else st.settings)
      && (!(size.Some? && size.value.JStr?) ==> r == st)
  {
    var size := Get(message, "size");
    if size.Some? && size.value.JStr? {
      SetTextSizeKeepsInv(st, size.value, time);
      EmitKeepsInv(SetTextSize(st, size.value, time), Info, "Text size set to " + size.value.s + " by server.", time);
    }
  }

  /** `enableFeature` / `disableFeature` switch exactly the named feature's
      flag to `on`; an unrecognised feature switches nothing, and a missing or
      falsy `feature` changes nothing at all. The invariant is kept. */
  lemma FeatureCmdKeepsInv(st: State, on: bool, message: Json, time: int)
    requires Inv(st)
    ensures Inv(FeatureCommand(st, message, on, time))
    ensures var feature := Member(message, "feature");
      var r := FeatureCommand(st, message, on, time);
      (feature.None? ==> r == st)
      && (feature.Some? ==>
            r.settings == match FeatureOf(feature.value)
                          case TimeCounter => st.settings.(timeCounter := on)
                          case PrettyPrinting => st.settings.(prettyPrint := on)
                          case Colors => st.settings.(colors := on)
                          case OtherFeature => st.settings)
  {
    var feature := Member(message, "feature");
    if feature.Some? && StringThrows(feature.value) {
      EmitKeepsInv(st, Error, HandleFailure, time);
    } else if feature.Some? {
      SwitchFeatureKeepsInv(st, FeatureOf(feature.value), on, time);
      EmitKeepsInv(SwitchFeature(st, FeatureOf(feature.value), on, time), Info,
                   "Feature \"" + JsString(feature.value) + "\" " + EnabledText(on) + " by server.", time);
    }
  }

  /** `executeScript` acts only on a truthy string `script` and never
      changes the settings; any other payload changes nothing. The invariant
      is kept whether the script runs through or throws. */
  lemma ScriptCmdKeepsInv(st: State, message: Json, time: int, script: Option<string>)
    requires Inv(st)
    ensures Inv(Run(st, ExecuteScriptCmd, message, time, script))
    ensures var code := Member(message, "script");
      var r := Run(st, ExecuteScriptCmd, message, time, script);
      r.settings == st.settings
      && (!(code.Some? && code.value.JStr?) ==> r == st)
  {
    var code := Member(message, "script");
    if code.Some? && code.value.JStr? {
      EmitKeepsInv(st, Warn, "Executing script from server...", time);
      var st1 := Emit(st, Warn, "Executing script from server...", time);
      if script.None? {
        EmitKeepsInv(st1, Info, "Script executed successfully.", time);
      } else {
        EmitKeepsInv(st1, Error, "Error executing script from server: " + script.value, time);
      }
    }
  }

  /** Every handler keeps the invariant. */
  lemma RunKeepsInv(st: State, cmd: Command, message: Json, time: int, script: Option<string>)
    requires Inv(st)
    ensures Inv(Run(st, cmd, message, time, script))
  {
    match cmd
    case SetLogLevelCmd => ServerLevelsCmdKeepsInv(st, message, time, script);
    case ClearLogsCmd => ClearLogsCmdKeepsInv(st, message, time, script);
    case SetLogLimitCmd => LogLimitCmdKeepsInv(st, message, time, script);
    case SetTextSizeCmd => TextSizeCmdKeepsInv(st, message, time, script);
    case EnableFeatureCmd => FeatureCmdKeepsInv(st, true, message, time);
    case DisableFeatureCmd => FeatureCmdKeepsInv(st, false, message, time);
    case ExecuteScriptCmd => ScriptCmdKeepsInv(st, message, time, script);
    case ReloadCmd => EmitKeepsInv(st, Warn, "Reloading page by server command...", time);
    case PingCmd =>
  }

  /** Every frame, whatever it holds, keeps the invariant. */
  lemma HandleServerMessageKeepsInv(st: State, frame: Inbound, time: int, script: Option<string>)
    requires Inv(st)
    ensures Inv(HandleServerMessage(st, frame, time, script))
  {
    EmitKeepsInv(st, Error, HandleFailure, time);
    if frame.Parsed? && !frame.message.JNull? {
      var command := Member(frame.message, "command");
      if command.Some? && !StringThrows(command.value) {
        var cmd := Resolve(JsString(command.value));
        if cmd.Some? {
          RunKeepsInv(st, cmd.value, frame.message, time, script);
        }
      }
    }
  }
}
