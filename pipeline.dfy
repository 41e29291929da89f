/** The log pipeline: the logger's state and `_renderLogMessage` (`Emit`),
    which every other operation uses to report what it did, together with the
    public operations that touch only that state: the display refresh,
    clearing, the log limit, the level filter, pause/resume, the timers,
    groups, the display settings and loading the stored entries. Each
    operation is a function from the old state to the new one. */
module Pipeline {
  import opened Text
  import opened Levels
  import opened JsValues
  import opened Storage

  /** One `logEntries` element, `{time, message, level, counter}`. */
  datatype Entry = Entry(time: int, message: string, level: Level, counter: nat)

  const DefaultLogLimit: nat := 50
  const DefaultTextSize: string := "13px"

  /** The settings the public API changes. */
  datatype Settings = Settings(
    enabled: bool,       // isEnabled
    paused: bool,        // isPaused
    logLimit: nat,       // logLimit
    levels: Filter,      // currentLogLevels
    textSize: string,    // textSize
    colors: bool,        // isColorsEnabled
    prettyPrint: bool,   // isPrettyPrintEnabled
    timeCounter: bool)   // isTimeCounterEnabled

  /** `messageCounter`, `logEntries`, and the counters of the message lines
      the log view shows, oldest first. */
  datatype Buffer = Buffer(counter: nat, entries: seq<Entry>, displayed: seq<nat>)

  /** The current `socket`: none, or one whose `readyState` is CONNECTING,
      OPEN, or CLOSING/CLOSED with its `onclose` still due (`Closing`; the
      socket is dropped by that `onclose`). */
  datatype Conn = NoSocket | Connecting | Open | Closing

  /** A frame sent to the server: a log entry or the answer to `ping`. */
  datatype Frame = LogFrame(entry: Entry) | Pong(time: int)

  /** A `socket.close(code, reason)` call. */
  datatype CloseCall = CloseCall(code: nat, reason: string)

  /** The WebSocket side: `isWebSocketEnabled`, whether the browser has
      `WebSocket`, the socket, `webSocketReconnectTimer` (set or null), the
      number of reconnect callbacks still due, the number of sockets that
      `disable` closed whose `onclose` is still due, and what was sent. */
  datatype Channel = Channel(
    enabled: bool,
    supported: bool,
    socket: Conn,
    timer: bool,
    pending: nat,
    closing: nat,
    outbox: seq<Frame>,
    closeCalls: seq<CloseCall>)

  /** The whole logger: `isAlreadyLogging`, the settings, the buffer, the
      storage sink, the WebSocket channel, `timers` and `groupIndentLevel`. */
  datatype State = State(
    alreadyLogging: bool,
    settings: Settings,
    buffer: Buffer,
    sink: Sink<Entry>,
    channel: Channel,
    timers: map<string, int>,
    groupIndent: nat)

  /** The state the module starts in. `isStorageLoggingEnabled` and
      `isWebSocketEnabled` are never switched on by the logger itself, so
      their starting values are parameters, as are the store and whether the
      browser has `WebSocket`. */
  function Initial(store: Store<Entry>, storageOn: bool, socketsOn: bool, supported: bool): (st: State)
    ensures Inv(st)
  {
    State(false,
          Settings(false, false, DefaultLogLimit, DefaultFilter, DefaultTextSize, false, false, false),
          Buffer(0, [], []),
          Sink(storageOn, store),
          Channel(socketsOn, supported, NoSocket, false, 0, 0, [], []),
          map[], 0)
  }

  // ---- the invariant ----

  function Counters(es: seq<Entry>): (cs: seq<nat>)
    ensures |cs| == |es| && forall i :: 0 <= i < |es| ==> cs[i] == es[i].counter
  {
    seq(|es|, i requires 0 <= i < |es| => es[i].counter)
  }

  predicate Ascending(xs: seq<nat>)
  {
    forall i, j :: 0 <= i < j < |xs| ==> xs[i] < xs[j]
  }

  /** Every element is a counter already handed out: between 1 and `n`. */
  predicate Issued(xs: seq<nat>, n: nat)
  {
    forall i :: 0 <= i < |xs| ==> 1 <= xs[i] <= n
  }

  /** The view shows at most `logLimit` lines; lines and entries are in
      increasing counter order, and no counter is ahead of `messageCounter`. */
  predicate BufferOk(b: Buffer, limit: nat)
  {
    |b.displayed| <= limit
    && Ascending(b.displayed) && Issued(b.displayed, b.counter)
    && Ascending(Counters(b.entries)) && Issued(Counters(b.entries), b.counter)
  }

  /** At most one reconnect callback is due, and only while the channel is
      enabled and has no socket; a live (CONNECTING or OPEN) socket exists
      only while the channel is enabled; `disable` switches the channel off
      for good and drops the socket. */
  predicate ChannelOk(ch: Channel)
  {
    ch.pending == (if ch.timer then 1 else 0)
    && (ch.timer ==> ch.enabled && ch.socket == NoSocket)
    && ((ch.socket == Connecting || ch.socket == Open) ==> ch.enabled)
    && (ch.closing > 0 ==> !ch.enabled && ch.socket == NoSocket)
  }

  /** What holds between any two calls into the logger. */
  predicate Inv(st: State)
  {
    !st.alreadyLogging
    && st.settings.logLimit > 0
    && Total(st.settings.levels)
    && BufferOk(st.buffer, st.settings.logLimit)
    && ChannelOk(st.channel)
  }

  // ---- _renderLogMessage ----

  /** The guards of `_renderLogMessage`: enabled, not re-entered, and the
      level passes `_isLoggingEnabled`. */
  predicate Accepts(st: State, level: Level)
  {
    st.settings.enabled && !st.alreadyLogging
    && LoggingEnabled(st.settings.paused, st.settings.levels, level)
  }

  /** Push the entry, append its line to the view and drop the oldest lines
      beyond `logLimit`; once the entries exceed `1.5 * logLimit` keep only
      the newest `logLimit` of them. */
  function Append(b: Buffer, e: Entry, limit: nat): Buffer
  {
    var entries := b.entries + [e];
    Buffer(e.counter,
           if 2 * |entries| > 3 * limit then Last(entries, limit) else entries,
           Last(b.displayed + [e.counter], limit))
  }

  /** `socket.send(...)` when the channel is enabled and the socket is OPEN. */
  function Send(ch: Channel, f: Frame): Channel
  {
    if ch.enabled && ch.socket == Open then ch.(outbox := ch.outbox + [f]) else ch
  }

  /** `_renderLogMessage(level, [text])`: an accepted message becomes entry
      number `messageCounter + 1`, is stored when the storage sink is on, is
      shown, and is sent when the socket is open; anything else is dropped. */
  function Emit(st: State, level: Level, text: string, time: int): (r: State)
    ensures !Accepts(st, level) ==> r == st
    ensures r.settings == st.settings && r.timers == st.timers && r.groupIndent == st.groupIndent
    ensures r.alreadyLogging == st.alreadyLogging
  {
    if !Accepts(st, level) then st
    else
      var e := Entry(time, text, level, st.buffer.counter + 1);
      st.(buffer := Append(st.buffer, e, st.settings.logLimit),
          sink := StoreEntry(st.sink, e),
          channel := Send(st.channel, LogFrame(e)))
  }

  /** Appending numbers the entry after the newest one, makes it the newest
      entry and the newest line, and drops only the oldest entries, and only
      once they exceed one and a half times the limit. */
  lemma AppendFacts(b: Buffer, e: Entry, limit: nat)
    requires limit > 0
    ensures var r := Append(b, e, limit);
      var all := b.entries + [e];
      r.counter == e.counter
      && |r.entries| > 0 && r.entries[|r.entries| - 1] == e
      && r.entries == all[|all| - |r.entries|..]
      && (2 * |all| <= 3 * limit ==> r.entries == all)
      && (2 * |all| > 3 * limit ==> |r.entries| == limit)
      && |r.displayed| > 0 && r.displayed[|r.displayed| - 1] == e.counter
  {
    LastIsNewestSuffix(b.entries + [e], limit);
    LastIsNewestSuffix(b.displayed + [e.counter], limit);
  }

  /** An accepted message is numbered `messageCounter + 1` and goes through
      `Append`, which makes it the newest entry and the newest line of the
      view (`AppendFacts`). */
  lemma EmitAppends(st: State, level: Level, text: string, time: int)
    requires st.settings.logLimit > 0 && Accepts(st, level)
    ensures var e := Entry(time, text, level, st.buffer.counter + 1);
      var r := Emit(st, level, text, time);
      r.buffer == Append(st.buffer, e, st.settings.logLimit)
      && r.buffer.counter == st.buffer.counter + 1
  {
  }

  /** An accepted message is handed to the storage sink and is sent exactly
      when the socket is open; a message that is not accepted goes nowhere. */
  lemma EmitForwards(st: State, level: Level, text: string, time: int)
    ensures var e := Entry(time, text, level, st.buffer.counter + 1);
      var r := Emit(st, level, text, time);
      (Accepts(st, level) ==> r.sink == StoreEntry(st.sink, e))
      && (!Accepts(st, level) ==> r.sink == st.sink)
      && r.channel.outbox == st.channel.outbox
           + (if Accepts(st, level) && st.channel.enabled && st.channel.socket == Open then [LogFrame(e)] else [])
  {
  }

  // ---- the invariant is kept by Emit ----

  lemma AscendingSnoc(xs: seq<nat>, c: nat)
    requires c >= 1 && Ascending(xs) && Issued(xs, c - 1)
    ensures Ascending(xs + [c]) && Issued(xs + [c], c)
  {
  }

  lemma AscendingLast(xs: seq<nat>, n: nat, m: nat)
    requires Ascending(xs) && Issued(xs, m)
    ensures Ascending(Last(xs, n)) && Issued(Last(xs, n), m)
  {
    LastIsNewestSuffix(xs, n);
    var k := |xs| - |Last(xs, n)|;
    forall i | 0 <= i < |Last(xs, n)| ensures Last(xs, n)[i] == xs[k + i] {
    }
  }

  lemma CountersSnoc(es: seq<Entry>, e: Entry)
    ensures Counters(es + [e]) == Counters(es) + [e.counter]
  {
  }

  lemma CountersLast(es: seq<Entry>, n: nat)
    ensures Counters(Last(es, n)) == Last(Counters(es), n)
  {
    LastIsNewestSuffix(es, n);
    LastIsNewestSuffix(Counters(es), n);
  }

  /** Appending keeps the buffer invariant, and right after an append the
      entries never exceed one and a half times the limit. */
  lemma AppendKeepsBufferOk(b: Buffer, e: Entry, limit: nat)
    requires BufferOk(b, limit) && limit > 0 && e.counter == b.counter + 1
    ensures BufferOk(Append(b, e, limit), limit)
    ensures 2 * |Append(b, e, limit).entries| <= 3 * limit
  {
    var entries := b.entries + [e];
    CountersSnoc(b.entries, e);
    AscendingSnoc(Counters(b.entries), e.counter);
    AscendingSnoc(b.displayed, e.counter);
    AscendingLast(b.displayed + [e.counter], limit, e.counter);
    LastIsNewestSuffix(b.displayed + [e.counter], limit);
    if 2 * |entries| > 3 * limit {
      CountersLast(entries, limit);
      AscendingLast(Counters(entries), limit, e.counter);
      LastIsNewestSuffix(entries, limit);
    }
  }

  lemma EmitKeepsInv(st: State, level: Level, text: string, time: int)
    requires Inv(st)
    ensures Inv(Emit(st, level, text, time))
    ensures Accepts(st, level) ==> 2 * |Emit(st, level, text, time).buffer.entries| <= 3 * st.settings.logLimit
  {
    if Accepts(st, level) {
      var e := Entry(time, text, level, st.buffer.counter + 1);
      AppendKeepsBufferOk(st.buffer, e, st.settings.logLimit);
      var r := Emit(st, level, text, time);
      assert r.buffer == Append(st.buffer, e, st.settings.logLimit);
      assert r.channel == Send(st.channel, LogFrame(e));
    }
  }

  /** The text of a line: `counter + ') ' + label + ' [' + time + ']: '`
      followed by the message; `time` is the clock text or the time-counter
      text. */
  function LineText(e: Entry, time: string): (t: string)
    ensures IsPrefix(NatToString(e.counter) + ")", t)
  {
    NatToString(e.counter) + ") " + LevelMeta(e.level).tag + " [" + time + "]: " + e.message
  }

  // ---- _refreshDisplayFromLogEntries ----

  /** The counters of the entries `_isLoggingEnabled` lets through, in
      order. */
  function Visible(es: seq<Entry>, paused: bool, levels: Filter): seq<nat>
  {
    if es == [] then []
    else
      var e := es[|es| - 1];
      Visible(es[..|es| - 1], paused, levels) + (if LoggingEnabled(paused, levels, e.level) then [e.counter] else [])
  }

  /** A counter is shown after a refresh exactly when some entry with that
      counter passes the filter. */
  lemma {:induction false} VisibleIsFilter(es: seq<Entry>, paused: bool, levels: Filter, c: nat)
    ensures c in Visible(es, paused, levels)
            <==> exists i :: 0 <= i < |es| && es[i].counter == c && LoggingEnabled(paused, levels, es[i].level)
  {
    if es != [] {
      var init := es[..|es| - 1];
      VisibleIsFilter(init, paused, levels, c);
      assert forall i :: 0 <= i < |init| ==> init[i] == es[i];
      if c in Visible(es, paused, levels) && !(c in Visible(init, paused, levels)) {
        assert es[|es| - 1].counter == c;
      }
    }
  }

  /** The filtered counters stay within the bounds of the entries' counters
      and are no more numerous than the entries. */
  lemma {:induction false} VisibleBounded(es: seq<Entry>, paused: bool, levels: Filter, n: nat)
    requires Issued(Counters(es), n)
    ensures Issued(Visible(es, paused, levels), n)
    ensures |Visible(es, paused, levels)| <= |es|
  {
    if es != [] {
      var init := es[..|es| - 1];
      assert Counters(init) == Counters(es)[..|es| - 1];
      VisibleBounded(init, paused, levels, n);
    }
  }

  /** Filtering entries in counter order gives lines in counter order. */
  lemma {:induction false} VisibleAscending(es: seq<Entry>, paused: bool, levels: Filter, n: nat)
    requires Ascending(Counters(es)) && Issued(Counters(es), n)
    ensures Ascending(Visible(es, paused, levels))
  {
    if es != [] {
      var init := es[..|es| - 1];
      var c := es[|es| - 1].counter;
      assert Counters(init) == Counters(es)[..|es| - 1];
      VisibleAscending(init, paused, levels, n);
      assert c >= 1;
      assert Issued(Counters(init), c - 1) by {
        forall i | 0 <= i < |init| ensures 1 <= Counters(init)[i] <= c - 1 {
          assert Counters(es)[i] < Counters(es)[|es| - 1];
        }
      }
      VisibleBounded(init, paused, levels, c - 1);
      AscendingSnoc(Visible(init, paused, levels), c);
    }
  }

  /** `_refreshDisplayFromLogEntries`: the view is rebuilt from the newest
      `logLimit` entries, showing those the filter lets through. */
  function Refresh(st: State): (r: State)
    ensures r.settings == st.settings && r.sink == st.sink && r.channel == st.channel
    ensures r.buffer.counter == st.buffer.counter && r.buffer.entries == st.buffer.entries
  {
    var b := st.buffer;
    st.(buffer := b.(displayed := Visible(Last(b.entries, st.settings.logLimit), st.settings.paused, st.settings.levels)))
  }

  /** After a refresh a line is shown exactly when its entry is among the
      newest `logLimit` and passes the filter, and the invariant still
      holds. */
  lemma RefreshShowsFiltered(st: State, c: nat)
    requires Inv(st)
    ensures Inv(Refresh(st))
    ensures var recent := Last(st.buffer.entries, st.settings.logLimit);
      c in Refresh(st).buffer.displayed
      <==> exists i :: 0 <= i < |recent| && recent[i].counter == c
                       && LoggingEnabled(st.settings.paused, st.settings.levels, recent[i].level)
  {
    var b := st.buffer;
    var recent := Last(b.entries, st.settings.logLimit);
    LastIsNewestSuffix(b.entries, st.settings.logLimit);
    CountersLast(b.entries, st.settings.logLimit);
    AscendingLast(Counters(b.entries), st.settings.logLimit, b.counter);
    VisibleAscending(recent, st.settings.paused, st.settings.levels, b.counter);
    VisibleBounded(recent, st.settings.paused, st.settings.levels, b.counter);
    VisibleIsFilter(recent, st.settings.paused, st.settings.levels, c);
  }

  // ---- clearLogs ----

  /** `clearLogs`: the view, the entries, the counter, the timers and the
      group depth are reset, then the clearing is reported. */
  function ClearLogs(st: State, time: int): State
  {
    Emit(st.(buffer := Buffer(0, [], []), timers := map[], groupIndent := 0), Info, "Log display cleared.", time)
  }

  /** Numbering restarts: after clearing, the only entry is the report,
      numbered 1, or there is none when info messages are not shown. */
  lemma ClearLogsRestarts(st: State, time: int)
    requires Inv(st)
    ensures var r := ClearLogs(st, time);
      Inv(r) && r.timers == map[] && r.groupIndent == 0
      && (Accepts(st, Info) ==> r.buffer == Buffer(1, [Entry(time, "Log display cleared.", Info, 1)], [1]))
      && (!Accepts(st, Info) ==> r.buffer == Buffer(0, [], []))
  {
    var st0 := st.(buffer := Buffer(0, [], []), timers := map[], groupIndent := 0);
    EmitKeepsInv(st0, Info, "Log display cleared.", time);
    if Accepts(st, Info) {
      assert Last([1], st.settings.logLimit) == [1];
      assert 2 * |[Entry(time, "Log display cleared.", Info, 1)]| <= 3 * st.settings.logLimit;
    }
  }

  // ---- setLogLimit ----

  /** `setLogLimit(limit)`: `parseInt(limit, 10)`; a positive result becomes
      the limit and trims the view; anything else is reported and changes
      nothing. */
  function SetLogLimit(st: State, limit: Json, time: int): State
  {
    var n := ParseIntOf(limit);
    if n.Some? && n.value > 0 then
      var st1 := st.(settings := st.settings.(logLimit := n.value),
                     buffer := st.buffer.(displayed := Last(st.buffer.displayed, n.value)));
      Emit(st1, Info, "Log limit set to " + NatToString(n.value), time)
    else
      Emit(st, Warn, "Invalid log limit specified: " + JsString(limit) + ". Must be a positive number.", time)
  }

  /** The limit changes exactly when `parseInt` gives a positive number, the
      view then fits the new limit, nothing else in the settings changes, and
      the invariant is kept. */
  lemma SetLogLimitValidates(st: State, limit: Json, time: int)
    requires Inv(st)
    ensures var r := SetLogLimit(st, limit, time);
      var n := ParseIntOf(limit);
      Inv(r)
      && r.timers == st.timers && r.groupIndent == st.groupIndent
      && (n.Some? && n.value > 0 ==> r.settings == st.settings.(logLimit := n.value))
      && (!(n.Some? && n.value > 0) ==> r.settings == st.settings)
  {
    var n := ParseIntOf(limit);
    if n.Some? && n.value > 0 {
      var st1 := st.(settings := st.settings.(logLimit := n.value),
                     buffer := st.buffer.(displayed := Last(st.buffer.displayed, n.value)));
      LastIsNewestSuffix(st.buffer.displayed, n.value);
      AscendingLast(st.buffer.displayed, n.value, st.buffer.counter);
      EmitKeepsInv(st1, Info, "Log limit set to " + NatToString(n.value), time);
    } else {
      EmitKeepsInv(st, Warn, "Invalid log limit specified: " + JsString(limit) + ". Must be a positive number.", time);
    }
  }

  /** A valid limit trims only the view, to its newest `n` lines, and reports
      itself: the view becomes the newest `n` of the old lines plus the report
      line, and the history gains just the report entry (cut to the newest `n`
      once it exceeds one and a half times `n`). */
  lemma SetLogLimitTrimsView(st: State, limit: Json, n: nat, time: int)
    requires ParseIntOf(limit) == Some(n) && n > 0
    ensures var r := SetLogLimit(st, limit, time);
      Accepts(st, Info) ==>
        var e := Entry(time, "Log limit set to " + NatToString(n), Info, st.buffer.counter + 1);
        var all := st.buffer.entries + [e];
        r.buffer.counter == e.counter
        && r.buffer.displayed == Last(st.buffer.displayed + [e.counter], n)
        && r.buffer.entries == (if 2 * |all| > 3 * n then Last(all, n) else all)
        && r.sink == StoreEntry(st.sink, e) && r.channel == Send(st.channel, LogFrame(e))
    ensures var r := SetLogLimit(st, limit, time);
      !Accepts(st, Info) ==>
        r.buffer == st.buffer.(displayed := Last(st.buffer.displayed, n))
        && r.sink == st.sink && r.channel == st.channel
  {
    var text := "Log limit set to " + NatToString(n);
    var st1 := st.(settings := st.settings.(logLimit := n),
                   buffer := st.buffer.(displayed := Last(st.buffer.displayed, n)));
    assert SetLogLimit(st, limit, time) == Emit(st1, Info, text, time);
    assert Accepts(st1, Info) == Accepts(st, Info);
    if Accepts(st, Info) {
      var e := Entry(time, text, Info, st.buffer.counter + 1);
      EmitAppends(st1, Info, text, time);
      EmitForwards(st1, Info, text, time);
      LastSnocLast(st.buffer.displayed, e.counter, n);
    }
  }

  /** An invalid limit only emits the warning. */
  lemma SetLogLimitRejects(st: State, limit: Json, time: int)
    requires ParseIntOf(limit).None? || ParseIntOf(limit).value <= 0
    ensures SetLogLimit(st, limit, time)
      == Emit(st, Warn, "Invalid log limit specified: " + JsString(limit) + ". Must be a positive number.", time)
  {
  }

  /** A positive number sets the limit to itself; `null`, booleans and
      objects never change it. */
  lemma SetLogLimitOfValues(st: State, n: SafeInt, v: Json, time: int)
    requires v.JNull? || v.JBool? || v.JObj?
    ensures n > 0 ==> SetLogLimit(st, JNum(n), time).settings.logLimit == n
    ensures SetLogLimit(st, v, time).settings == st.settings
  {
    ParseIntOfNumber(n);
    ParseIntOfNonNumeric(v);
  }

  // ---- the level filter ----

  /** The level a `for (k in levels)` key selects, when the filter has it
      (`hasOwnProperty`). */
  function KeyLevel(f: Filter, key: string): Option<Level>
  {
    var l := FromName(key);
    if l.Some? && l.value in f then l else None
  }

  /** The `for (k in levels) if (f.hasOwnProperty(k)) f[k] = !!levels[k]`
      loop: each recognised key in turn sets its level's flag. */
  function Merge(f: Filter, keys: seq<(string, Json)>): (r: Filter)
    ensures r.Keys == f.Keys
  {
    if keys == [] then f
    else
      var g := Merge(f, keys[..|keys| - 1]);
      var l := KeyLevel(g, keys[|keys| - 1].0);
      if l.Some? then g[l.value := Truthy(keys[|keys| - 1].1)] else g
  }

  /** The flag the last key naming `l` asks for, if any key names it. */
  function Setting(keys: seq<(string, Json)>, l: Level): Option<bool>
  {
    if keys == [] then None
    else if FromName(keys[|keys| - 1].0) == Some(l) then Some(Truthy(keys[|keys| - 1].1))
    else Setting(keys[..|keys| - 1], l)
  }

  /** Merging changes no level's presence; a present level ends up with the
      flag of the last key naming it, or keeps its old flag. */
  lemma {:induction false} MergeIsLastSetting(f: Filter, keys: seq<(string, Json)>, l: Level)
    ensures l in f ==> Merge(f, keys)[l] == (if Setting(keys, l).Some? then Setting(keys, l).value else f[l])
  {
    if keys != [] {
      MergeIsLastSetting(f, keys[..|keys| - 1], l);
    }
  }

  /** Applying the same level object twice is the same as applying it once. */
  lemma MergeIdempotent(f: Filter, keys: seq<(string, Json)>)
    ensures Merge(Merge(f, keys), keys) == Merge(f, keys)
  {
    var g := Merge(f, keys);
    forall l | l in g ensures Merge(g, keys)[l] == g[l] {
      MergeIsLastSetting(f, keys, l);
      MergeIsLastSetting(g, keys, l);
    }
  }

  /** The name `String(arg).toLowerCase()` gives, when it is a level. */
  function ArgLevel(arg: Json): Option<Level>
  {
    FromName(Lower(JsString(arg)))
  }

  function ArgLevels(args: seq<Json>): (ls: seq<Option<Level>>)
    ensures |ls| == |args| && forall i :: 0 <= i < |args| ==> ls[i] == ArgLevel(args[i])
  {
    seq(|args|, i requires 0 <= i < |args| => ArgLevel(args[i]))
  }

  /** The level-names form of `setLogLevel`: every recognised name is set to
      `true` in a fresh all-false filter. */
  function EnableNamed(ls: seq<Option<Level>>): (f: Filter)
    ensures Total(f)
  {
    if ls == [] then NoLevels
    else
      var f := EnableNamed(ls[..|ls| - 1]);
      if ls[|ls| - 1].Some? then f[ls[|ls| - 1].value := true] else f
  }

  /** The names form enables exactly the named levels. */
  lemma {:induction false} EnableNamedExact(ls: seq<Option<Level>>, l: Level)
    ensures EnableNamed(ls)[l] <==> Some(l) in ls
  {
    if ls != [] {
      var init := ls[..|ls| - 1];
      EnableNamedExact(init, l);
      assert ls == init + [ls[|ls| - 1]];
    }
  }

  /** Whether a `for (k in levels)` key names a level. */
  predicate NamesLevel(keys: seq<(string, Json)>)
  {
    exists i :: 0 <= i < |keys| && FromName(keys[i].0).Some?
  }

  predicate NamesSome(ls: seq<Option<Level>>)
  {
    exists i :: 0 <= i < |ls| && ls[i].Some?
  }

  /** One more key: the merge takes one more step and the key may name a
      level. */
  lemma MergeStep(f: Filter, keys: seq<(string, Json)>, i: nat)
    requires i < |keys|
    ensures var g := Merge(f, keys[..i]); var l := KeyLevel(g, keys[i].0);
      Merge(f, keys[..i + 1]) == (if l.Some? then g[l.value := Truthy(keys[i].1)] else g)
    ensures NamesLevel(keys[..i + 1]) == (NamesLevel(keys[..i]) || FromName(keys[i].0).Some?)
  {
    var p := keys[..i + 1];
    assert p[..|p| - 1] == keys[..i];
    if FromName(keys[i].0).Some? {
      assert FromName(p[i].0).Some?;
    }
    if NamesLevel(keys[..i]) {
      var j :| 0 <= j < i && FromName(keys[..i][j].0).Some?;
      assert FromName(p[j].0).Some?;
    }
  }

  /** One more argument, for the names form. */
  lemma EnableNamedStep(ls: seq<Option<Level>>, i: nat)
    requires i < |ls|
    ensures var f := EnableNamed(ls[..i]);
      EnableNamed(ls[..i + 1]) == (if ls[i].Some? then f[ls[i].value := true] else f)
    ensures NamesSome(ls[..i + 1]) == (NamesSome(ls[..i]) || ls[i].Some?)
  {
    var p := ls[..i + 1];
    assert p[..|p| - 1] == ls[..i];
    if ls[i].Some? {
      assert p[i].Some?;
    }
    if NamesSome(ls[..i]) {
      var j :| 0 <= j < i && ls[..i][j].Some?;
      assert p[j].Some?;
    }
  }

  /** The filter `setLogLevel(...)` builds and whether any level was valid:
      a single object argument is read as `{level: flag}`, anything else as a
      list of level names. */
  function ChooseLevels(args: seq<Json>): (r: (Filter, bool))
    ensures Total(r.0)
  {
    DefaultFilterFacts();
    if |args| == 1 && IsObject(args[0]) then
      (Merge(NoLevels, EnumKeys(args[0])), NamesLevel(EnumKeys(args[0])))
    else (EnableNamed(ArgLevels(args)), NamesSome(ArgLevels(args)))
  }

  const NoValidLevels: string := "No valid log levels provided to setLogLevel. Current levels remain unchanged."

  /** `setLogLevel(...)`: install the new filter, report it and redraw the
      view; without any valid level, warn and keep the old filter. */
  function SetLogLevel(st: State, args: seq<Json>, time: int): State
  {
    var (f, valid) := ChooseLevels(args);
    if valid then
      Refresh(Emit(st.(settings := st.settings.(levels := f)), Info, "Active log levels set: " + FilterJson(f), time))
    else Emit(st, Warn, NoValidLevels, time)
  }

  /** The object form sets exactly the levels it names, with their
      truthiness, and switches every other level off. */
  lemma ObjectLevelsExact(v: Json, l: Level)
    requires IsObject(v)
    ensures ChooseLevels([v]).0[l] == (Setting(EnumKeys(v), l).Some? && Setting(EnumKeys(v), l).value)
  {
    DefaultFilterFacts();
    MergeIsLastSetting(NoLevels, EnumKeys(v), l);
  }

  /** An array passed alone is read as an object whose keys are indexes,
      so it never names a level and only produces the warning. */
  lemma ArrayArgumentIsRejected(st: State, v: Json, time: int)
    requires v.JArr?
    ensures SetLogLevel(st, [v], time) == Emit(st, Warn, NoValidLevels, time)
  {
    ArrayKeysAreNoLevels(v);
  }

  /** An accepted filter is total and becomes the filter; a rejected call
      keeps the old one; the invariant holds either way. */
  lemma SetLogLevelKeepsInv(st: State, args: seq<Json>, time: int)
    requires Inv(st)
    ensures var r := SetLogLevel(st, args, time);
      Inv(r)
      && (ChooseLevels(args).1 ==> r.settings.levels == ChooseLevels(args).0)
      && (!ChooseLevels(args).1 ==> r.settings == st.settings)
  {
    var (f, valid) := ChooseLevels(args);
    if valid {
      var st1 := st.(settings := st.settings.(levels := f));
      EmitKeepsInv(st1, Info, "Active log levels set: " + FilterJson(f), time);
      RefreshShowsFiltered(Emit(st1, Info, "Active log levels set: " + FilterJson(f), time), 0);
    } else {
      EmitKeepsInv(st, Warn, NoValidLevels, time);
    }
  }

  // ---- pause, resume, enable ----

  /** `pause()`: pausing first and reporting second. */
  function Pause(st: State, time: int): State
  {
    if st.settings.paused then st
    else Emit(st.(settings := st.settings.(paused := true)), Info, "Logger output paused.", time)
  }

  /** `resume()`: un-pausing first and reporting second. */
  function Resume(st: State, time: int): State
  {
    if !st.settings.paused then st
    else Emit(st.(settings := st.settings.(paused := false)), Info, "Logger output resumed.", time)
  }

  /** The pause report is itself filtered out by the pause, so pausing adds
      no entry; resuming reports itself whenever info messages are shown. */
  lemma PauseIsSilent(st: State, time: int)
    requires !st.settings.paused
    ensures Pause(st, time) == st.(settings := st.settings.(paused := true))
    ensures var r := Resume(Pause(st, time), time);
      r.settings == st.settings
      && (Accepts(st, Info) ==> r.buffer.counter == st.buffer.counter + 1)
  {
  }

  /** `enable()`'s state change: enabled and not paused. */
  function Enable(st: State): (r: State)
    ensures r.settings.enabled && (st.settings.enabled ==> r == st)
    ensures !st.settings.enabled ==> !r.settings.paused && r.buffer == st.buffer
  {
    if st.settings.enabled then st
    else st.(settings := st.settings.(enabled := true, paused := false))
  }

  // ---- display settings ----

  /** `setTextSize(size)`: only a non-empty string is taken. */
  function SetTextSize(st: State, size: Json, time: int): (r: State)
    ensures size.JStr? && size.s != "" ==> r.settings.textSize == size.s
    ensures !(size.JStr? && size.s != "") ==> r.settings == st.settings
  {
    if size.JStr? && size.s != "" then
      Emit(st.(settings := st.settings.(textSize := size.s)), Info, "Log text size set to " + size.s, time)
    else Emit(st, Warn, "Invalid text size specified: " + JsString(size), time)
  }

  function EnabledText(b: bool): string
  {
    if b then "enabled" else "disabled"
  }

  /** `prettyPrint(enable)`: `enable` is `!!enable`. */
  function PrettyPrint(st: State, enable: bool, time: int): (r: State)
    ensures r.settings == st.settings.(prettyPrint := enable)
  {
    Emit(st.(settings := st.settings.(prettyPrint := enable)), Info, "Pretty printing " + EnabledText(enable) + ".", time)
  }

  /** `enableColors(enable)`: `enable` is `enable !== false`; the view is
      redrawn. */
  function EnableColors(st: State, enable: bool, time: int): (r: State)
    ensures r.settings == st.settings.(colors := enable)
  {
    Refresh(Emit(st.(settings := st.settings.(colors := enable)), Info, "Log message coloring " + EnabledText(enable) + ".", time))
  }

  /** `enableTimeCounter()`. */
  function EnableTimeCounter(st: State, time: int): (r: State)
    ensures r.settings == st.settings.(timeCounter := true)
  {
    if st.settings.timeCounter then st
    else Emit(st.(settings := st.settings.(timeCounter := true)), Info, "Relative time counter enabled.", time)
  }

  /** `disableTimeCounter()`: the view is redrawn with clock times. */
  function DisableTimeCounter(st: State, time: int): (r: State)
    ensures r.settings == st.settings.(timeCounter := false)
  {
    if !st.settings.timeCounter then st
    else Refresh(Emit(st.(settings := st.settings.(timeCounter := false)), Info, "Relative time counter disabled.", time))
  }

  /** Pausing, resuming and enabling keep the invariant. */
  lemma PauseResumeKeepInv(st: State, time: int)
    requires Inv(st)
    ensures Inv(Pause(st, time)) && Inv(Resume(st, time)) && Inv(Enable(st))
  {
    EmitKeepsInv(st.(settings := st.settings.(paused := true)), Info, "Logger output paused.", time);
    EmitKeepsInv(st.(settings := st.settings.(paused := false)), Info, "Logger output resumed.", time);
  }

  /** The display settings keep the invariant. */
  lemma SetTextSizeKeepsInv(st: State, size: Json, time: int)
    requires Inv(st)
    ensures Inv(SetTextSize(st, size, time))
  {
    if size.JStr? && size.s != "" {
      EmitKeepsInv(st.(settings := st.settings.(textSize := size.s)), Info, "Log text size set to " + size.s, time);
    } else {
      EmitKeepsInv(st, Warn, "Invalid text size specified: " + JsString(size), time);
    }
  }

  lemma PrettyPrintKeepsInv(st: State, enable: bool, time: int)
    requires Inv(st)
    ensures Inv(PrettyPrint(st, enable, time))
  {
    EmitKeepsInv(st.(settings := st.settings.(prettyPrint := enable)), Info, "Pretty printing " + EnabledText(enable) + ".", time);
  }

  lemma EnableColorsKeepsInv(st: State, enable: bool, time: int)
    requires Inv(st)
    ensures Inv(EnableColors(st, enable, time))
  {
    var st1 := st.(settings := st.settings.(colors := enable));
    EmitKeepsInv(st1, Info, "Log message coloring " + EnabledText(enable) + ".", time);
    RefreshShowsFiltered(Emit(st1, Info, "Log message coloring " + EnabledText(enable) + ".", time), 0);
  }

  lemma EnableTimeCounterKeepsInv(st: State, time: int)
    requires Inv(st)
    ensures Inv(EnableTimeCounter(st, time))
  {
    EmitKeepsInv(st.(settings := st.settings.(timeCounter := true)), Info, "Relative time counter enabled.", time);
  }

  lemma DisableTimeCounterKeepsInv(st: State, time: int)
    requires Inv(st)
    ensures Inv(DisableTimeCounter(st, time))
  {
    if st.settings.timeCounter {
      var st1 := st.(settings := st.settings.(timeCounter := false));
      EmitKeepsInv(st1, Info, "Relative time counter disabled.", time);
      RefreshShowsFiltered(Emit(st1, Info, "Relative time counter disabled.", time), 0);
    }
  }

  // ---- console.time / console.timeEnd ----

  /** `label || 'default'`. */
  function TimerLabel(name: string): (l: string)
    ensures l != ""
  {
    if name == "" then "default" else name
  }

  /** `timers[label]` is truthy: present and not 0. */
  predicate Running(timers: map<string, int>, l: string)
  {
    l in timers && timers[l] != 0
  }

  /** `console.time(label)`: warn when the timer runs already, then restart
      it at `now`. */
  function TimeStart(st: State, name: string, now: int): State
  {
    var l := TimerLabel(name);
    var st1 := if Running(st.timers, l) then Emit(st, Warn, "Timer '" + l + "' already exists.", now) else st;
    st1.(timers := st1.timers[l := now])
  }

  /** `console.timeEnd(label)`: report the elapsed milliseconds and forget
      the timer, or warn that it does not run. */
  function TimeEnd(st: State, name: string, now: int): State
  {
    var l := TimerLabel(name);
    if !Running(st.timers, l) then Emit(st, Warn, "Timer '" + l + "' does not exist.", now)
    else
      var st1 := Emit(st, Info, l + ": " + IntToString(now - st.timers[l]) + "ms", now);
      st1.(timers := st1.timers - {l})
  }

  /** Starting then ending a timer reports the time between the two calls
      and leaves no timer of that name; other timers are untouched. */
  lemma TimerRoundTrip(st: State, name: string, t0: int, t1: int)
    requires t0 != 0
    ensures var l := TimerLabel(name);
      var s1 := TimeStart(st, name, t0);
      var r := TimeEnd(s1, name, t1);
      r.timers == st.timers - {l}
      && r.buffer == Emit(s1, Info, l + ": " + IntToString(t1 - t0) + "ms", t1).buffer
  {
    var l := TimerLabel(name);
    var s1 := TimeStart(st, name, t0);
    assert Running(s1.timers, l);
    assert s1.timers - {l} == st.timers - {l};
  }

  /** Ending a timer that does not run only warns. */
  lemma TimeEndUnknown(st: State, name: string, now: int)
    requires !Running(st.timers, TimerLabel(name))
    ensures TimeEnd(st, name, now).timers == st.timers
    ensures TimeEnd(st, name, now) == Emit(st, Warn, "Timer '" + TimerLabel(name) + "' does not exist.", now)
  {
  }

  // ---- console.group / console.groupEnd ----

  /** `console.group` / `console.groupCollapsed`: `label` is the joined
      arguments, `None` when there are none. */
  function Group(st: State, name: Option<string>, collapsed: bool, time: int): (r: State)
    ensures r.groupIndent == st.groupIndent + 1
  {
    var text := if name.Some? then name.value else "Group";
    var st1 := Emit(st, Log, "\U{25B6} " + text + (if collapsed then " (collapsed)" else ""), time);
    st1.(groupIndent := st1.groupIndent + 1)
  }

  /** `console.groupEnd`: the depth never goes below zero. */
  function GroupEnd(st: State, time: int): (r: State)
    ensures r.groupIndent == if st.groupIndent > 0 then st.groupIndent - 1 else 0
  {
    var st1 := st.(groupIndent := if st.groupIndent > 0 then st.groupIndent - 1 else 0);
    Emit(st1, Log, "\U{25C0} Group End", time)
  }

  /** Closing a group undoes opening it; closing at depth zero stays at
      zero. */
  lemma GroupNesting(st: State, name: Option<string>, collapsed: bool, t0: int, t1: int)
    ensures GroupEnd(Group(st, name, collapsed, t0), t1).groupIndent == st.groupIndent
    ensures st.groupIndent == 0 ==> GroupEnd(st, t1).groupIndent == 0
  {
  }

  /** Timers and groups keep the invariant. */
  lemma TimeStartKeepsInv(st: State, name: string, now: int)
    requires Inv(st)
    ensures Inv(TimeStart(st, name, now))
  {
    var l := TimerLabel(name);
    var st1 := if Running(st.timers, l) then Emit(st, Warn, "Timer '" + l + "' already exists.", now) else st;
    EmitKeepsInv(st, Warn, "Timer '" + l + "' already exists.", now);
    assert Inv(st1);
    assert TimeStart(st, name, now) == st1.(timers := st1.timers[l := now]);
  }

  lemma TimeEndKeepsInv(st: State, name: string, now: int)
    requires Inv(st)
    ensures Inv(TimeEnd(st, name, now))
  {
    var l := TimerLabel(name);
    if Running(st.timers, l) {
      var st1 := Emit(st, Info, l + ": " + IntToString(now - st.timers[l]) + "ms", now);
      EmitKeepsInv(st, Info, l + ": " + IntToString(now - st.timers[l]) + "ms", now);
      assert TimeEnd(st, name, now) == st1.(timers := st1.timers - {l});
    } else {
      EmitKeepsInv(st, Warn, "Timer '" + l + "' does not exist.", now);
    }
  }

  lemma GroupKeepsInv(st: State, name: Option<string>, collapsed: bool, time: int)
    requires Inv(st)
    ensures Inv(Group(st, name, collapsed, time))
  {
    var text := if name.Some? then name.value else "Group";
    var st1 := Emit(st, Log, "\U{25B6} " + text + (if collapsed then " (collapsed)" else ""), time);
    EmitKeepsInv(st, Log, "\U{25B6} " + text + (if collapsed then " (collapsed)" else ""), time);
    assert Group(st, name, collapsed, time) == st1.(groupIndent := st1.groupIndent + 1);
  }

  lemma GroupEndKeepsInv(st: State, time: int)
    requires Inv(st)
    ensures Inv(GroupEnd(st, time))
  {
    var st1 := st.(groupIndent := if st.groupIndent > 0 then st.groupIndent - 1 else 0);
    assert Inv(st1);
    EmitKeepsInv(st1, Log, "\U{25C0} Group End", time);
  }

  // ---- _loadStoredLogs ----

  /** `_loadStoredLogs`: the entries read back and the state after its
      diagnostics (a missing store or an unreadable item is reported). */
  function LoadStoredLogs(st: State, time: int): (State, Loaded<Entry>)
  {
    var store := st.sink.store;
    if !store.available then
      (Emit(st, Warn, StorageType + " is not available in this browser.", time), Entries([]))
    else if store.slot.Unreadable? then
      (Emit(st, Error, "Failed to read logs from " + StorageType + ". Data might be corrupt.", time), Entries([]))
    else (st, LoadResult(store))
  }

  /** Loading never writes the store; it reads back exactly what the store
      holds, and fails soft to an empty list. */
  lemma LoadNeverWrites(st: State, time: int)
    ensures LoadStoredLogs(st, time).0.sink.store == st.sink.store
    ensures LoadStoredLogs(st, time).1 == LoadResult(st.sink.store)
  {
  }

  /** Reporting an unreadable item while the sink is on makes that report's
      own write fail, which switches the sink off. */
  lemma CorruptStoreDisablesSink(st: State, time: int)
    requires Accepts(st, Error) && st.sink.enabled && st.sink.store.available && st.sink.store.slot.Unreadable?
    ensures !LoadStoredLogs(st, time).0.sink.enabled
  {
  }
}
