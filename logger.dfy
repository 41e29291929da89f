/** The logger object itself: the closure variables of `xmediaLogger` as the
    fields of one object, and its functions as methods that update them in
    place, each proved to perform the state change its specification
    function in `Pipeline`, `Connection` or `Dispatch` describes and to keep
    the invariant `Pipeline.Inv`. */
module Logger {
  import opened Text
  import opened Levels
  import opened JsValues
  import opened Storage
  import opened Serializer
  import opened Html
  import opened Pipeline
  import opened Connection
  import opened Dispatch

  const RenderingTable: string := "Rendering table..."
  const TableFailure: string := "Could not render table. Invalid data or columns."

  /** `console.table(data, columns)`: at the `log` level, a notice that a
      table follows, then the table, or a warning when `_createHtmlTable`
      gives nothing. The table's own DOM node is not part of the state. */
  function LogTable(st: State, table: Option<string>, time: int): State
  {
    if !st.settings.enabled || !LoggingEnabled(st.settings.paused, st.settings.levels, Log) then st
    else
      var st1 := Emit(st, Log, RenderingTable, time);
      if table.Some? && table.value != "" then st1 else Emit(st1, Warn, TableFailure, time)
  }

  /** A shown table is announced by one line; a missing table adds the
      warning after it, as the newest entry. */
  lemma LogTableReports(st: State, table: Option<string>, time: int)
    requires Inv(st) && Accepts(st, Log)
    ensures var r := LogTable(st, table, time);
      Inv(r)
      && (table.Some? && table.value != "" ==> r.buffer.counter == st.buffer.counter + 1)
      && (!(table.Some? && table.value != "") && LoggingEnabled(st.settings.paused, st.settings.levels, Warn) ==>
            r.buffer.counter == st.buffer.counter + 2
            && r.buffer.entries[|r.buffer.entries| - 1] == Entry(time, TableFailure, Warn, st.buffer.counter + 2))
  {
    var st1 := Emit(st, Log, RenderingTable, time);
    EmitAppends(st, Log, RenderingTable, time);
    EmitKeepsInv(st, Log, RenderingTable, time);
    EmitKeepsInv(st1, Warn, TableFailure, time);
    if !(table.Some? && table.value != "") && LoggingEnabled(st.settings.paused, st.settings.levels, Warn) {
      EmitAppends(st1, Warn, TableFailure, time);
      AppendFacts(st1.buffer, Entry(time, TableFailure, Warn, st1.buffer.counter + 1), st1.settings.logLimit);
    }
  }

  class ScreenLogger {
    var isAlreadyLogging: bool
    /** `isEnabled`, `isPaused`, `logLimit`, `currentLogLevels`, `textSize`,
        `isColorsEnabled`, `isPrettyPrintEnabled`, `isTimeCounterEnabled`. */
    var settings: Settings
    /** `messageCounter`, `logEntries` and the counters of the message lines
        in the log container. */
    var buffer: Buffer
    /** `isStorageLoggingEnabled` and `window[storageType]`. */
    var sink: Sink<Entry>
    /** `isWebSocketEnabled`, `'WebSocket' in window`, `socket`,
        `webSocketReconnectTimer`, and what was sent and closed. */
    var channel: Channel
    var timers: map<string, int>
    var groupIndentLevel: nat

    /** The fields, as the state the specification functions work on. */
    function State(): State
      reads this
    {
      Pipeline.State(isAlreadyLogging, settings, buffer, sink, channel, timers, groupIndentLevel)
    }

    predicate Valid()
      reads this
    {
      Inv(State())
    }

    constructor (store: Store<Entry>, storageOn: bool, socketsOn: bool, supported: bool)
      ensures State() == Initial(store, storageOn, socketsOn, supported) && Valid()
    {
      isAlreadyLogging := false;
      settings := Settings(false, false, DefaultLogLimit, DefaultFilter, DefaultTextSize, false, false, false);
      buffer := Buffer(0, [], []);
      sink := Sink(storageOn, store);
      channel := Channel(socketsOn, supported, NoSocket, false, 0, 0, [], []);
      timers := map[];
      groupIndentLevel := 0;
    }

    // ---- _renderLogMessage and _storeLogEntry ----

    /** `_renderLogMessage(level, [text])`. The storage sink it calls may in
        turn report a failure through this method; the re-entry guard makes
        those reports no-ops. */
    method RenderLogMessage(level: Level, text: string, time: int)
      modifies this
      decreases if isAlreadyLogging then 0 else 4
      ensures State() == Emit(old(State()), level, text, time)
    {
      if !settings.enabled || isAlreadyLogging {
        return;
      }
      isAlreadyLogging := true;
      if LoggingEnabled(settings.paused, settings.levels, level) {
        buffer := buffer.(counter := buffer.counter + 1);
        Record(Entry(time, text, level, buffer.counter));
      }
      isAlreadyLogging := false;
    }

    /** The accepted half of `_renderLogMessage`: push the entry, store it,
        show it and send it. */
    method Record(entry: Entry)
      requires isAlreadyLogging && entry.counter == buffer.counter
      modifies this
      decreases 3
      ensures var st := old(State());
        State() == st.(buffer := Append(st.buffer, entry, settings.logLimit),
                       sink := StoreEntry(st.sink, entry), channel := Send(st.channel, LogFrame(entry)))
    {
      buffer := buffer.(entries := buffer.entries + [entry]);
      if sink.enabled {
        StoreLogEntry(entry);
      }
      ShowEntry(entry);
      if channel.enabled && channel.socket == Open {
        channel := channel.(outbox := channel.outbox + [LogFrame(entry)]);
      }
    }

    /** The display half of `_renderLogMessage`: append the line, drop the
        oldest lines beyond `logLimit`, and splice the entries down to
        `logLimit` once they exceed one and a half times it. */
    method ShowEntry(entry: Entry)
      modifies this
      ensures var b := old(buffer);
        State() == old(State()).(buffer := b.(
          entries := if 2 * |b.entries| > 3 * settings.logLimit then Last(b.entries, settings.logLimit) else b.entries,
          displayed := Last(b.displayed + [entry.counter], settings.logLimit)))
    {
      buffer := buffer.(displayed := buffer.displayed + [entry.counter]);
      TrimView();
      if 2 * |buffer.entries| > 3 * settings.logLimit {
        buffer := buffer.(entries := buffer.entries[|buffer.entries| - settings.logLimit..]);
      }
    }

    /** `while (logDiv.childNodes.length > logLimit) removeChild(firstChild)`. */
    method TrimView()
      modifies this
      ensures State() == old(State()).(buffer := old(buffer).(displayed := Last(old(buffer.displayed), settings.logLimit)))
    {
      ghost var all := buffer.displayed;
      while |buffer.displayed| > settings.logLimit
        invariant |buffer.displayed| <= |all| && buffer.displayed == all[|all| - |buffer.displayed|..]
        invariant |buffer.displayed| >= settings.logLimit || buffer.displayed == all
        invariant State() == old(State()).(buffer := old(buffer).(displayed := buffer.displayed))
      {
        buffer := buffer.(displayed := buffer.displayed[1..]);
      }
    }

    /** `_storeLogEntry(entry)`, called while a message is being rendered. */
    method StoreLogEntry(entry: Entry)
      requires isAlreadyLogging
      modifies this
      decreases 2
      ensures State() == old(State()).(sink := StoreEntry(old(sink), entry))
    {
      if !sink.enabled || !sink.store.available {
        return;
      }
      var stored := ReadList(sink.store.slot);
      if stored.None? {
        StorageFailed(entry.time);
        return;
      }
      var kept := DropOldest(stored.value + [entry], StorageLogLimit);
      if sink.store.full {
        StorageFailed(entry.time);
        return;
      }
      sink := sink.(store := sink.store.(slot := Stored(kept)));
    }

    /** The `catch` of `_storeLogEntry`: two reports, swallowed by the
        re-entry guard, and the sink switched off. */
    method StorageFailed(time: int)
      requires isAlreadyLogging
      modifies this
      decreases 1
      ensures State() == old(State()).(sink := old(sink).(enabled := false))
    {
      RenderLogMessage(Error, "Failed to write log to " + StorageType + ". Storage might be full.", time);
      sink := sink.(enabled := false);
      RenderLogMessage(Warn, "Disabling " + StorageType + " logging due to error.", time);
    }

    // ---- the console methods ----

    /** `console.log/info/warn/error/debug(...args)`. */
    method LogWithCopy(level: Level, heap: Heap, args: seq<Value>, stringify: Value -> Outcome, coerce: Value -> Outcome, time: int)
      requires Valid() && Closed(heap) && AllIn(heap, args)
      modifies this
      ensures State() == Emit(old(State()), level, MessageText(heap, args, old(settings.prettyPrint), stringify, coerce), time)
      ensures Valid()
    {
      var text := MessageText(heap, args, settings.prettyPrint, stringify, coerce);
      if settings.enabled {
        RenderLogMessage(level, text, time);
      }
      EmitKeepsInv(old(State()), level, text, time);
    }

    /** `console.table(data, columns)`. */
    method LogTableWithCopy(heap: Heap, data: Value, columns: seq<string>, stringify: Value -> Outcome, coerce: Value -> Outcome, time: int)
      requires Valid() && Closed(heap) && ValueIn(heap, data)
      modifies this
      ensures State() == LogTable(old(State()), TableHtml(Env(heap, old(settings.prettyPrint), stringify, coerce), data, columns), time)
      ensures Valid()
    {
      var table := CreateHtmlTable(Env(heap, settings.prettyPrint, stringify, coerce), data, columns);
      if settings.enabled && LoggingEnabled(settings.paused, settings.levels, Log) {
        RenderLogMessage(Log, RenderingTable, time);
        if !(table.Some? && table.value != "") {
          RenderLogMessage(Warn, TableFailure, time);
        }
        LogTableReports(old(State()), table, time);
      }
    }

    /** `console.time(label)`. */
    method LogTime(name: string, now: int)
      requires Valid()
      modifies this
      ensures State() == TimeStart(old(State()), name, now) && Valid()
    {
      var l := TimerLabel(name);
      if l in timers && timers[l] != 0 {
        RenderLogMessage(Warn, "Timer '" + l + "' already exists.", now);
      }
      timers := timers[l := now];
      TimeStartKeepsInv(old(State()), name, now);
    }

    /** `console.timeEnd(label)`. */
    method LogTimeEnd(name: string, now: int)
      requires Valid()
      modifies this
      ensures State() == TimeEnd(old(State()), name, now) && Valid()
    {
      var l := TimerLabel(name);
      if !(l in timers && timers[l] != 0) {
        RenderLogMessage(Warn, "Timer '" + l + "' does not exist.", now);
      } else {
        var start := timers[l];
        RenderLogMessage(Info, l + ": " + IntToString(now - start) + "ms", now);
        ghost var st1 := State();
        assert st1 == Emit(old(State()), Info, l + ": " + IntToString(now - old(State()).timers[l]) + "ms", now);
        timers := timers - {l};
        assert State() == st1.(timers := st1.timers - {l});
      }
      TimeEndKeepsInv(old(State()), name, now);
    }

    /** `console.group(...args)` / `console.groupCollapsed(...args)`. */
    method LogGroup(heap: Heap, args: seq<Value>, stringify: Value -> Outcome, coerce: Value -> Outcome, collapsed: bool, time: int)
      requires Valid() && Closed(heap) && AllIn(heap, args)
      modifies this
      ensures State() == Group(old(State()), if |args| > 0 then Some(MessageText(heap, args, old(settings.prettyPrint), stringify, coerce)) else None, collapsed, time)
      ensures Valid()
    {
      var name := if |args| > 0 then Some(MessageText(heap, args, settings.prettyPrint, stringify, coerce)) else None;
      var text := if name.Some? then name.value else "Group";
      RenderLogMessage(Log, "\U{25B6} " + text + (if collapsed then " (collapsed)" else ""), time);
      groupIndentLevel := groupIndentLevel + 1;
      GroupKeepsInv(old(State()), name, collapsed, time);
    }

    /** `console.groupEnd()`. */
    method LogGroupEnd(time: int)
      requires Valid()
      modifies this
      ensures State() == GroupEnd(old(State()), time) && Valid()
    {
      groupIndentLevel := if groupIndentLevel > 0 then groupIndentLevel - 1 else 0;
      RenderLogMessage(Log, "\U{25C0} Group End", time);
      GroupEndKeepsInv(old(State()), time);
    }

    // ---- the public API ----

    /** `enable()`, without the messages of its DOM-ready callback. */
    method Enable()
      requires Valid()
      modifies this
      ensures State() == Pipeline.Enable(old(State())) && Valid()
    {
      if !settings.enabled {
        settings := settings.(enabled := true, paused := false);
      }
    }

    method Pause(time: int)
      requires Valid()
      modifies this
      ensures State() == Pipeline.Pause(old(State()), time) && Valid()
    {
      if !settings.paused {
        settings := settings.(paused := true);
        RenderLogMessage(Info, "Logger output paused.", time);
      }
      PauseResumeKeepInv(old(State()), time);
    }

    method Resume(time: int)
      requires Valid()
      modifies this
      ensures State() == Pipeline.Resume(old(State()), time) && Valid()
    {
      if settings.paused {
        settings := settings.(paused := false);
        RenderLogMessage(Info, "Logger output resumed.", time);
      }
      PauseResumeKeepInv(old(State()), time);
    }

    /** `_refreshDisplayFromLogEntries()`. */
    method RefreshDisplay()
      requires !isAlreadyLogging
      modifies this
      ensures State() == Refresh(old(State()))
    {
      var entries := buffer.entries;
      var start := if |entries| > settings.logLimit then |entries| - settings.logLimit else 0;
      var toDisplay := entries[start..];
      assert toDisplay == Last(entries, settings.logLimit);
      buffer := buffer.(displayed := []);
      isAlreadyLogging := true;
      for i := 0 to |toDisplay|
        invariant buffer == old(buffer).(displayed := Visible(toDisplay[..i], settings.paused, settings.levels))
        invariant State() == old(State()).(alreadyLogging := true, buffer := buffer)
      {
        var entry := toDisplay[i];
        assert toDisplay[..i + 1][..i] == toDisplay[..i];
        if LoggingEnabled(settings.paused, settings.levels, entry.level) {
          buffer := buffer.(displayed := buffer.displayed + [entry.counter]);
        }
      }
      assert toDisplay[..|toDisplay|] == toDisplay;
      isAlreadyLogging := false;
    }

    /** `clearLogs()`. */
    method ClearLogs(time: int)
      requires Valid()
      modifies this
      ensures State() == Pipeline.ClearLogs(old(State()), time) && Valid()
    {
      buffer := Buffer(0, [], []);
      timers := map[];
      groupIndentLevel := 0;
      RenderLogMessage(Info, "Log display cleared.", time);
      ClearLogsRestarts(old(State()), time);
    }

    /** `setLogLimit(limit)`. */
    method SetLogLimit(limit: Json, time: int)
      requires Valid()
      modifies this
      ensures State() == Pipeline.SetLogLimit(old(State()), limit, time) && Valid()
    {
      var newLimit := ParseIntOf(limit);
      if newLimit.Some? && newLimit.value > 0 {
        settings := settings.(logLimit := newLimit.value);
        TrimView();
        RenderLogMessage(Info, "Log limit set to " + NatToString(settings.logLimit), time);
      } else {
        RenderLogMessage(Warn, "Invalid log limit specified: " + JsString(limit) + ". Must be a positive number.", time);
      }
      SetLogLimitValidates(old(State()), limit, time);
    }

    /** The `for (var levelKey in levelMap)` loop of `setLogLevel`, over the
        keys the object enumerates. */
    static method LevelsFromKeys(keys: seq<(string, Json)>) returns (newLevels: Filter, valid: bool)
      ensures newLevels == Merge(NoLevels, keys) && valid == NamesLevel(keys)
    {
      newLevels := NoLevels;
      valid := false;
      assert keys[..0] == [];
      for i := 0 to |keys|
        invariant newLevels == Merge(NoLevels, keys[..i]) && valid == NamesLevel(keys[..i])
      {
        MergeStep(NoLevels, keys, i);
        var level := KeyLevel(newLevels, keys[i].0);
        if level.Some? {
          newLevels := newLevels[level.value := Truthy(keys[i].1)];
          valid := true;
        }
      }
      assert keys[..|keys|] == keys;
    }

    /** The `for (var i = 0; i < args.length; i++)` loop of `setLogLevel`. */
    static method LevelsFromNames(args: seq<Json>) returns (newLevels: Filter, valid: bool)
      ensures newLevels == EnableNamed(ArgLevels(args)) && valid == NamesSome(ArgLevels(args))
    {
      ghost var ls := ArgLevels(args);
      newLevels := NoLevels;
      valid := false;
      assert ls[..0] == [];
      for i := 0 to |args|
        invariant newLevels == EnableNamed(ls[..i]) && valid == NamesSome(ls[..i])
      {
        EnableNamedStep(ls, i);
        var level := ArgLevel(args[i]);
        if level.Some? {
          newLevels := newLevels[level.value := true];
          valid := true;
        }
      }
      assert ls[..|args|] == ls;
    }

    /** `setLogLevel(...args)`. */
    method SetLogLevel(args: seq<Json>, time: int)
      requires Valid()
      modifies this
      ensures State() == Pipeline.SetLogLevel(old(State()), args, time) && Valid()
    {
      var newLevels, valid;
      if |args| == 1 && IsObject(args[0]) {
        newLevels, valid := LevelsFromKeys(EnumKeys(args[0]));
      } else {
        newLevels, valid := LevelsFromNames(args);
      }
      assert (newLevels, valid) == ChooseLevels(args);
      if valid {
        settings := settings.(levels := newLevels);
        RenderLogMessage(Info, "Active log levels set: " + FilterJson(settings.levels), time);
        RefreshDisplay();
      } else {
        RenderLogMessage(Warn, NoValidLevels, time);
      }
      SetLogLevelKeepsInv(old(State()), args, time);
    }

    /** `setTextSize(size)`. */
    method SetTextSize(size: Json, time: int)
      requires Valid()
      modifies this
      ensures State() == Pipeline.SetTextSize(old(State()), size, time) && Valid()
    {
      if size.JStr? && size.s != "" {
        settings := settings.(textSize := size.s);
        RenderLogMessage(Info, "Log text size set to " + settings.textSize, time);
      } else {
        RenderLogMessage(Warn, "Invalid text size specified: " + JsString(size), time);
      }
      SetTextSizeKeepsInv(old(State()), size, time);
    }

    method EnableTimeCounter(time: int)
      requires Valid()
      modifies this
      ensures State() == Pipeline.EnableTimeCounter(old(State()), time) && Valid()
    {
      if !settings.timeCounter {
        settings := settings.(timeCounter := true);
        RenderLogMessage(Info, "Relative time counter enabled.", time);
      }
      EnableTimeCounterKeepsInv(old(State()), time);
    }

    method DisableTimeCounter(time: int)
      requires Valid()
      modifies this
      ensures State() == Pipeline.DisableTimeCounter(old(State()), time) && Valid()
    {
      if settings.timeCounter {
        settings := settings.(timeCounter := false);
        RenderLogMessage(Info, "Relative time counter disabled.", time);
        RefreshDisplay();
      }
      DisableTimeCounterKeepsInv(old(State()), time);
    }

    method PrettyPrint(enable: bool, time: int)
      requires Valid()
      modifies this
      ensures State() == Pipeline.PrettyPrint(old(State()), enable, time) && Valid()
    {
      settings := settings.(prettyPrint := enable);
      RenderLogMessage(Info, "Pretty printing " + EnabledText(enable) + ".", time);
      PrettyPrintKeepsInv(old(State()), enable, time);
    }

    method EnableColors(enable: bool, time: int)
      requires Valid()
      modifies this
      ensures State() == Pipeline.EnableColors(old(State()), enable, time) && Valid()
    {
      settings := settings.(colors := enable);
      RenderLogMessage(Info, "Log message coloring " + EnabledText(enable) + ".", time);
      RefreshDisplay();
      EnableColorsKeepsInv(old(State()), enable, time);
    }

    /** `_loadStoredLogs()`. */
    method LoadStoredLogs(time: int) returns (loaded: Loaded<Entry>)
      requires Valid()
      modifies this
      ensures (State(), loaded) == Pipeline.LoadStoredLogs(old(State()), time) && Valid()
    {
      if !sink.store.available {
        RenderLogMessage(Warn, StorageType + " is not available in this browser.", time);
        loaded := Entries([]);
        EmitKeepsInv(old(State()), Warn, StorageType + " is not available in this browser.", time);
      } else if sink.store.slot.Unreadable? {
        RenderLogMessage(Error, "Failed to read logs from " + StorageType + ". Data might be corrupt.", time);
        loaded := Entries([]);
        EmitKeepsInv(old(State()), Error, "Failed to read logs from " + StorageType + ". Data might be corrupt.", time);
      } else {
        loaded := LoadResult(sink.store);
      }
    }

    /** `disable()`, without the DOM and console teardown. */
    method Disable(time: int)
      requires Valid()
      modifies this
      ensures State() == Connection.Disable(old(State()), time) && Valid()
    {
      if settings.enabled {
        RenderLogMessage(Info, "xmediaLogger disabling...", time);
        settings := settings.(enabled := false);
        CancelReconnect();
        if channel.socket != NoSocket {
          channel := channel.(enabled := false, closeCalls := channel.closeCalls + [CloseCall(NormalClosure, DisableReason)]);
          channel := channel.(socket := NoSocket, closing := channel.closing + 1);
        }
        buffer := buffer.(displayed := []);
        DisableTearsDown(old(State()), time);
      }
    }

    // ---- the WebSocket link ----

    /** `clearTimeout(webSocketReconnectTimer); webSocketReconnectTimer = null`. */
    method CancelReconnect()
      modifies this
      ensures State() == old(State()).(channel := ClearTimer(old(channel)))
    {
      if channel.timer {
        channel := channel.(timer := false, pending := if channel.pending > 0 then channel.pending - 1 else 0);
      }
    }

    /** `_scheduleWebSocketReconnect()`. */
    method ScheduleReconnect(time: int)
      modifies this
      ensures State() == Schedule(old(State()), time)
    {
      if !channel.enabled || channel.timer {
        return;
      }
      RenderLogMessage(Info, "Attempting WebSocket reconnect in " + NatToString(ReconnectInterval / 1000) + "s...", time);
      channel := channel.(timer := true, pending := channel.pending + 1);
    }

    /** `initializeWebSocket()`; `failure` is the message of the exception
        `new WebSocket(url)` throws, if it throws. */
    method InitializeWebSocket(time: int, failure: Option<string>)
      requires Valid()
      modifies this
      ensures State() == Initialize(old(State()), time, failure) && Valid()
    {
      InitializeKeepsInv(State(), time, failure);
      if !channel.enabled || channel.socket == Connecting || channel.socket == Open {
        return;
      }
      CancelReconnect();
      if !channel.supported {
        RenderLogMessage(Warn, "WebSocket is not supported.", time);
        channel := channel.(enabled := false);
        return;
      }
      RenderLogMessage(Info, "Attempting WebSocket connection to " + ServerUrl, time);
      if failure.None? {
        channel := channel.(socket := Connecting);
        return;
      }
      RenderLogMessage(Error, "Failed to create WebSocket: " + failure.value, time);
      channel := channel.(enabled := false);
      ScheduleReconnect(time);
    }

    /** The reconnect timer fires. */
    method ReconnectTimerFires(time: int, failure: Option<string>)
      requires Valid() && channel.pending > 0
      modifies this
      ensures State() == TimerFire(old(State()), time, failure) && Valid()
    {
      channel := channel.(timer := false, pending := channel.pending - 1);
      InitializeWebSocket(time, failure);
    }

    /** `socket.onopen`. */
    method OnOpen(time: int)
      requires Valid() && channel.socket == Connecting
      modifies this
      ensures State() == Connection.OnOpen(old(State()), time) && Valid()
    {
      channel := channel.(socket := Open);
      RenderLogMessage(Info, "WebSocket connection established.", time);
      CancelReconnect();
      OnOpenKeepsInv(old(State()), time);
    }

    /** The body shared by the `onclose` handlers. */
    method CloseHandler(code: nat, reason: string, wasClean: bool, time: int)
      modifies this
      ensures State() == Connection.CloseHandler(old(State()), code, reason, wasClean, time)
    {
      RenderLogMessage(Warn, "WebSocket connection closed. Code: " + CloseText(code, reason), time);
      channel := channel.(socket := NoSocket);
      if channel.enabled && !wasClean {
        ScheduleReconnect(time);
      } else {
        channel := channel.(enabled := false);
      }
    }

    /** `onclose` of the current socket. */
    method OnClose(code: nat, reason: string, wasClean: bool, time: int)
      requires Valid() && channel.socket != NoSocket
      modifies this
      ensures State() == Connection.OnClose(old(State()), code, reason, wasClean, time) && Valid()
    {
      channel := channel.(socket := NoSocket);
      CloseHandler(code, reason, wasClean, time);
      OnCloseReconnects(old(State()), code, reason, wasClean, time);
    }

    /** `onclose` of a socket `disable` closed. */
    method OnClosedAfterDisable(code: nat, reason: string, wasClean: bool, time: int)
      requires Valid() && channel.closing > 0
      modifies this
      ensures State() == Connection.OnClosedAfterDisable(old(State()), code, reason, wasClean, time) && Valid()
    {
      channel := channel.(closing := channel.closing - 1);
      CloseHandler(code, reason, wasClean, time);
      ClosedAfterDisableIsHarmless(old(State()), code, reason, wasClean, time);
    }

    /** `socket.onerror`. */
    method OnError(time: int)
      requires Valid()
      modifies this
      ensures State() == Connection.OnError(old(State()), time) && Valid()
    {
      if channel.socket != NoSocket {
        channel := channel.(socket := Closing);
      }
      RenderLogMessage(Error, "WebSocket Error. See browser console for details.", time);
      OnErrorKeepsInv(old(State()), time);
    }

    /** The socket's closing handshake starts: it stays until `onclose`. */
    method ClosingStarts()
      requires Valid() && channel.socket != NoSocket
      modifies this
      ensures State() == Connection.ClosingStarts(old(State())) && Valid()
    {
      channel := channel.(socket := Closing);
    }

    // ---- handleServerMessage ----

    /** `socket.onmessage` → `handleServerMessage(data)`. */
    method HandleServerMessage(frame: Inbound, time: int, script: Option<string>)
      requires Valid()
      modifies this
      ensures State() == Dispatch.HandleServerMessage(old(State()), frame, time, script) && Valid()
    {
      HandleServerMessageKeepsInv(State(), frame, time, script);
      if frame.Unparseable? || frame.message.JNull? {
        RenderLogMessage(Error, HandleFailure, time);
        return;
      }
      var command := Member(frame.message, "command");
      if command.None? {
        return;
      }
      if StringThrows(command.value) {
        RenderLogMessage(Error, HandleFailure, time);
        return;
      }
      var cmd := Resolve(JsString(command.value));
      if cmd.None? {
        return;
      }
      RunCommand(cmd.value, frame.message, time, script);
    }

    /** `commands[message.command](message)`. */
    method RunCommand(cmd: Command, message: Json, time: int, script: Option<string>)
      requires Valid()
      modifies this
      ensures State() == Run(old(State()), cmd, message, time, script) && Valid()
    {
      RunKeepsInv(State(), cmd, message, time, script);
      match cmd
      case SetLogLevelCmd =>
        var levels := Member(message, "levels");
        if levels.Some? && IsObject(levels.value) {
          MergeLevels(EnumKeys(levels.value));
          RenderLogMessage(Info, "Log levels updated by server: " + FilterJson(settings.levels), time);
        }
      case ClearLogsCmd =>
        ClearLogs(time);
        RenderLogMessage(Info, "Logs cleared by server command.", time);
      case SetLogLimitCmd =>
        var limit := Get(message, "limit");
        if limit.Some? && limit.value.JNum? && limit.value.n > 0 {
          SetLogLimit(limit.value, time);
          RenderLogMessage(Info, "Log limit set to " + IntToString(limit.value.n) + " by server.", time);
        }
      case SetTextSizeCmd =>
        var size := Get(message, "size");
        if size.Some? && size.value.JStr? {
          SetTextSize(size.value, time);
          RenderLogMessage(Info, "Text size set to " + size.value.s + " by server.", time);
        }
      case EnableFeatureCmd => SwitchFeatureCommand(message, true, time);
      case DisableFeatureCmd => SwitchFeatureCommand(message, false, time);
      case ExecuteScriptCmd =>
        var code := Member(message, "script");
        if code.Some? && code.value.JStr? {
          RenderLogMessage(Warn, "Executing script from server...", time);
          if script.None? {
            RenderLogMessage(Info, "Script executed successfully.", time);
          } else {
            RenderLogMessage(Error, "Error executing script from server: " + script.value, time);
          }
        }
      case ReloadCmd =>
        RenderLogMessage(Warn, "Reloading page by server command...", time);
      case PingCmd =>
        if channel.socket == Open {
          channel := channel.(outbox := channel.outbox + [Pong(time)]);
        }
    }

    /** The server's `for (var level in msg.levels)` loop, which updates
        `currentLogLevels` in place. */
    method MergeLevels(keys: seq<(string, Json)>)
      modifies this
      ensures State() == old(State()).(settings := old(settings).(levels := Merge(old(settings.levels), keys)))
    {
      for i := 0 to |keys|
        invariant settings == old(settings).(levels := Merge(old(settings.levels), keys[..i]))
        invariant State() == old(State()).(settings := settings)
      {
        assert keys[..i + 1][..i] == keys[..i];
        var level := KeyLevel(settings.levels, keys[i].0);
        if level.Some? {
          settings := settings.(levels := settings.levels[level.value := Truthy(keys[i].1)]);
        }
      }
      assert keys[..|keys|] == keys;
    }

    /** `enableFeature` / `disableFeature`. */
    method SwitchFeatureCommand(message: Json, on: bool, time: int)
      requires Valid()
      modifies this
      ensures State() == FeatureCommand(old(State()), message, on, time) && Valid()
    {
      FeatureCmdKeepsInv(State(), on, message, time);
      var feature := Member(message, "feature");
      if feature.None? {
        return;
      }
      match FeatureOf(feature.value) {
        case TimeCounter =>
          if on {
            EnableTimeCounter(time);
          } else {
            DisableTimeCounter(time);
          }
        case PrettyPrinting => PrettyPrint(on, time);
        case Colors => EnableColors(on, time);
        case OtherFeature =>
      }
      if StringThrows(feature.value) {
        // The report's concatenation throws; the catch of handleServerMessage reports it.
        RenderLogMessage(Error, HandleFailure, time);
        return;
      }
      RenderLogMessage(Info, "Feature \"" + JsString(feature.value) + "\" " + EnabledText(on) + " by server.", time);
    }
  }
}
