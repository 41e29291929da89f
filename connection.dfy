/** The WebSocket link: `initializeWebSocket`, its four socket callbacks,
    `_scheduleWebSocketReconnect` with its timer callback, and `disable`,
    which tears the link down. Socket events are inputs: each callback is an
    operation on the logger state. */
module Connection {
  import opened Text
  import opened Levels
  import opened Pipeline

  /** `'ws://' + webSocketIP + ':' + webSocketPort`. */
  const ServerUrl: string := "ws://localhost:8080"
  /** `webSocketReconnectInterval`, in milliseconds. */
  const ReconnectInterval: nat := 5000
  /** The status code `disable` closes with: normal closure, section 7.4.1 of
      RFC 6455. */
  const NormalClosure: nat := 1000
  const DisableReason: string := "Logger disabled"

  /** `_scheduleWebSocketReconnect`: at most one reconnect callback, and only
      while the link is enabled. */
  function Schedule(st: State, time: int): (r: State)
    ensures r.settings == st.settings
  {
    if !st.channel.enabled || st.channel.timer then st
    else
      var st1 := Emit(st, Info, "Attempting WebSocket reconnect in " + NatToString(ReconnectInterval / 1000) + "s...", time);
      st1.(channel := st1.channel.(timer := true, pending := st1.channel.pending + 1))
  }

  /** `clearTimeout(webSocketReconnectTimer)`: the callback the timer names
      will not run. */
  function ClearTimer(ch: Channel): Channel
  {
    if ch.timer then ch.(timer := false, pending := if ch.pending > 0 then ch.pending - 1 else 0) else ch
  }

  /** `initializeWebSocket`. `failure` is the message of the exception
      `new WebSocket(url)` throws, if it throws. */
  function Initialize(st: State, time: int, failure: Option<string>): (r: State)
    ensures r.settings == st.settings
  {
    if !st.channel.enabled || st.channel.socket == Connecting || st.channel.socket == Open then st
    else
      var st1 := st.(channel := ClearTimer(st.channel));
      if !st1.channel.supported then
        var st2 := Emit(st1, Warn, "WebSocket is not supported.", time);
        st2.(channel := st2.channel.(enabled := false))
      else Attempt(st1, time, failure)
  }

  /** The `try { new WebSocket(url) } catch` part of `initializeWebSocket`. */
  function Attempt(st: State, time: int, failure: Option<string>): (r: State)
    ensures r.settings == st.settings
  {
    var st2 := Emit(st, Info, "Attempting WebSocket connection to " + ServerUrl, time);
    if failure.None? then st2.(channel := st2.channel.(socket := Connecting))
    else
      var st3 := Emit(st2, Error, "Failed to create WebSocket: " + failure.value, time);
      Schedule(st3.(channel := st3.channel.(enabled := false)), time)
  }

  /** `socket.onopen`: the socket is OPEN while the report is rendered, so the
      report itself is sent. */
  function OnOpen(st: State, time: int): State
    requires st.channel.socket == Connecting
  {
    var st1 := Emit(st.(channel := st.channel.(socket := Open)), Info, "WebSocket connection established.", time);
    st1.(channel := ClearTimer(st1.channel))
  }

  /** The closing handshake starts (the server's Close frame arrives) or the
      connection fails: the socket's `readyState` leaves CONNECTING or OPEN
      and no handler of the logger runs until its `onclose`. */
  function ClosingStarts(st: State): State
    requires st.channel.socket != NoSocket
  {
    st.(channel := st.channel.(socket := Closing))
  }

  /** `event.code + (event.reason ? ' (' + event.reason + ')' : '')`. */
  function CloseText(code: nat, reason: string): string
  {
    NatToString(code) + (if reason != "" then " (" + reason + ")" else "")
  }

  /** The body of `socket.onclose`: report, drop the socket, and reconnect
      after an unclean close while enabled, else switch the link off. */
  function CloseHandler(st: State, code: nat, reason: string, wasClean: bool, time: int): State
  {
    var st1 := Emit(st, Warn, "WebSocket connection closed. Code: " + CloseText(code, reason), time);
    var st2 := st1.(channel := st1.channel.(socket := NoSocket));
    if st2.channel.enabled && !wasClean then Schedule(st2, time)
    else st2.(channel := st2.channel.(enabled := false))
  }

  /** `onclose` of the current socket; its `readyState` is already CLOSED, so
      nothing is sent on it. */
  function OnClose(st: State, code: nat, reason: string, wasClean: bool, time: int): State
    requires st.channel.socket != NoSocket
  {
    CloseHandler(st.(channel := st.channel.(socket := NoSocket)), code, reason, wasClean, time)
  }

  /** `onclose` of a socket `disable` closed: the same handler runs, and its
      `socket = null` hits whatever the current socket is. */
  function OnClosedAfterDisable(st: State, code: nat, reason: string, wasClean: bool, time: int): State
    requires st.channel.closing > 0
  {
    CloseHandler(st.(channel := st.channel.(closing := st.channel.closing - 1)), code, reason, wasClean, time)
  }

  /** `socket.onerror`: only a report; `onclose` does the rest. A WebSocket
      fires `error` after its `readyState` has become `CLOSED`, so the socket
      is `Closing` while the report is rendered and the report is never
      sent; the socket object itself is only dropped by the `close` event
      that follows. */
  function OnError(st: State, time: int): State
  {
    var ch := if st.channel.socket == NoSocket then st.channel else st.channel.(socket := Closing);
    Emit(st.(channel := ch), Error, "WebSocket Error. See browser console for details.", time)
  }

  /** The reconnect callback: clear the timer, then `initializeWebSocket`. */
  function TimerFire(st: State, time: int, failure: Option<string>): State
    requires st.channel.pending > 0
  {
    Initialize(st.(channel := st.channel.(timer := false, pending := st.channel.pending - 1)), time, failure)
  }

  /** `disable()`: report, switch off, cancel the reconnect, close the socket
      with a normal closure and remove the view. */
  function Disable(st: State, time: int): State
  {
    if !st.settings.enabled then st
    else
      var st1 := Emit(st, Info, "xmediaLogger disabling...", time);
      var ch := ClearTimer(st1.channel);
      var ch2 := if ch.socket != NoSocket then
                   ch.(enabled := false, closeCalls := ch.closeCalls + [CloseCall(NormalClosure, DisableReason)],
                       socket := NoSocket, closing := ch.closing + 1)
                 else ch;
      st1.(settings := st1.settings.(enabled := false), buffer := st1.buffer.(displayed := []), channel := ch2)
  }

  // ---- the channel invariant ----

  lemma EmitKeepsChannel(st: State, level: Level, text: string, time: int)
    ensures Emit(st, level, text, time).channel.outbox == st.channel.outbox
              || Emit(st, level, text, time).channel.outbox == st.channel.outbox + [LogFrame(Entry(time, text, level, st.buffer.counter + 1))]
    ensures Emit(st, level, text, time).channel == st.channel.(outbox := Emit(st, level, text, time).channel.outbox)
  {
  }

  /** Scheduling keeps the invariant and never leaves a second callback
      due. */
  lemma ScheduleKeepsInv(st: State, time: int)
    requires Inv(st) && (st.channel.enabled ==> st.channel.socket == NoSocket)
    ensures Inv(Schedule(st, time))
    ensures Schedule(st, time).channel.pending <= 1
    ensures st.channel.enabled ==> Schedule(st, time).channel.timer
  {
    EmitKeepsInv(st, Info, "Attempting WebSocket reconnect in " + NatToString(ReconnectInterval / 1000) + "s...", time);
  }

  lemma AttemptKeepsInv(st: State, time: int, failure: Option<string>)
    requires Inv(st) && st.channel.enabled && st.channel.socket != Connecting && st.channel.socket != Open && !st.channel.timer
    ensures Inv(Attempt(st, time, failure))
  {
    var st2 := Emit(st, Info, "Attempting WebSocket connection to " + ServerUrl, time);
    EmitKeepsInv(st, Info, "Attempting WebSocket connection to " + ServerUrl, time);
    if failure.Some? {
      EmitKeepsInv(st2, Error, "Failed to create WebSocket: " + failure.value, time);
      var st3 := Emit(st2, Error, "Failed to create WebSocket: " + failure.value, time);
      ScheduleKeepsInv(st3.(channel := st3.channel.(enabled := false)), time);
    }
  }

  lemma InitializeKeepsInv(st: State, time: int, failure: Option<string>)
    requires Inv(st)
    ensures Inv(Initialize(st, time, failure))
  {
    if st.channel.enabled && st.channel.socket != Connecting && st.channel.socket != Open {
      var st1 := st.(channel := ClearTimer(st.channel));
      assert Inv(st1);
      if !st1.channel.supported {
        EmitKeepsInv(st1, Warn, "WebSocket is not supported.", time);
      } else {
        AttemptKeepsInv(st1, time, failure);
      }
    }
  }

  /** A failed `new WebSocket(url)` switches the link off before asking for a
      reconnect, so no reconnect is ever scheduled on that path. */
  lemma ConstructorFailureGivesUp(st: State, time: int, message: string)
    requires Inv(st) && st.channel.enabled && st.channel.socket == NoSocket && st.channel.supported
    ensures var r := Initialize(st, time, Some(message));
      !r.channel.enabled && !r.channel.timer && r.channel.pending == 0 && r.channel.socket == NoSocket
  {
  }

  /** A successful attempt leaves a connecting socket and no timer. */
  lemma InitializeConnects(st: State, time: int)
    requires Inv(st) && st.channel.enabled && st.channel.socket == NoSocket && st.channel.supported
    ensures var r := Initialize(st, time, None);
      r.channel.socket == Connecting && r.channel.enabled && !r.channel.timer && r.channel.pending == 0
  {
  }

  /** A connected or connecting socket is never replaced. */
  lemma InitializeKeepsSocket(st: State, time: int, failure: Option<string>)
    requires st.channel.socket == Connecting || st.channel.socket == Open
    ensures Initialize(st, time, failure) == st
  {
  }

  lemma OnOpenKeepsInv(st: State, time: int)
    requires Inv(st) && st.channel.socket == Connecting
    ensures Inv(OnOpen(st, time))
    ensures OnOpen(st, time).channel.socket == Open
  {
    var st0 := st.(channel := st.channel.(socket := Open));
    EmitKeepsInv(st0, Info, "WebSocket connection established.", time);
  }

  /** The report of a new connection is the first frame sent on it. */
  lemma OnOpenSendsItsReport(st: State, time: int)
    requires Inv(st) && st.channel.socket == Connecting && Accepts(st, Info)
    ensures OnOpen(st, time).channel.outbox
              == st.channel.outbox + [LogFrame(Entry(time, "WebSocket connection established.", Info, st.buffer.counter + 1))]
  {
    var st0 := st.(channel := st.channel.(socket := Open));
    EmitForwards(st0, Info, "WebSocket connection established.", time);
  }

  /** The close handler, run with no current socket and no timer, leaves
      no socket; it leaves exactly one reconnect due after an unclean close
      of an enabled link and switches the link off otherwise. */
  lemma CloseHandlerKeepsInv(st: State, code: nat, reason: string, wasClean: bool, time: int)
    requires Inv(st) && st.channel.socket == NoSocket && !st.channel.timer
    ensures var r := CloseHandler(st, code, reason, wasClean, time);
      Inv(r) && r.channel.socket == NoSocket
      && (st.channel.enabled && !wasClean ==> r.channel.enabled && r.channel.timer && r.channel.pending == 1)
      && (!(st.channel.enabled && !wasClean) ==> !r.channel.enabled && !r.channel.timer && r.channel.pending == 0)
      && r.channel.closing == st.channel.closing
  {
    var text := "WebSocket connection closed. Code: " + CloseText(code, reason);
    EmitKeepsInv(st, Warn, text, time);
    EmitKeepsChannel(st, Warn, text, time);
    var st1 := Emit(st, Warn, text, time);
    var st2 := st1.(channel := st1.channel.(socket := NoSocket));
    if st2.channel.enabled && !wasClean {
      ScheduleKeepsInv(st2, time);
    }
  }

  /** After the current socket closes there is no socket; an unclean close
      of an enabled link leaves exactly one reconnect due, anything else
      switches the link off. A link with a live socket is always enabled. */
  lemma OnCloseReconnects(st: State, code: nat, reason: string, wasClean: bool, time: int)
    requires Inv(st) && st.channel.socket != NoSocket
    ensures var r := OnClose(st, code, reason, wasClean, time);
      Inv(r) && r.channel.socket == NoSocket
      && (st.channel.enabled && !wasClean ==> r.channel.enabled && r.channel.timer && r.channel.pending == 1)
      && (!(st.channel.enabled && !wasClean) ==> !r.channel.enabled && !r.channel.timer)
      && (st.channel.socket != Closing && !wasClean ==> r.channel.enabled && r.channel.timer)
  {
    CloseHandlerKeepsInv(st.(channel := st.channel.(socket := NoSocket)), code, reason, wasClean, time);
  }

  /** The close event of a socket `disable` closed finds no socket and a
      disabled link, so its `socket = null` and its reconnect branch change
      nothing. */
  lemma ClosedAfterDisableIsHarmless(st: State, code: nat, reason: string, wasClean: bool, time: int)
    requires Inv(st) && st.channel.closing > 0
    ensures var r := OnClosedAfterDisable(st, code, reason, wasClean, time);
      Inv(r) && r.channel.socket == NoSocket && !r.channel.enabled && !r.channel.timer
      && r.channel.pending == st.channel.pending && r.channel.closing == st.channel.closing - 1
  {
    CloseHandlerKeepsInv(st.(channel := st.channel.(closing := st.channel.closing - 1)), code, reason, wasClean, time);
  }

  /** The error report keeps the invariant; the socket, if any, is left
      `Closing` and nothing else in the channel changes: nothing goes out
      over the failed socket. */
  lemma OnErrorKeepsInv(st: State, time: int)
    requires Inv(st)
    ensures Inv(OnError(st, time))
    ensures OnError(st, time).channel
              == st.channel.(socket := if st.channel.socket == NoSocket then NoSocket else Closing)
  {
    var ch := if st.channel.socket == NoSocket then st.channel else st.channel.(socket := Closing);
    var failed := st.(channel := ch);
    EmitKeepsInv(failed, Error, "WebSocket Error. See browser console for details.", time);
    EmitForwards(failed, Error, "WebSocket Error. See browser console for details.", time);
    EmitKeepsChannel(failed, Error, "WebSocket Error. See browser console for details.", time);
  }

  /** Once the closing handshake has started, the invariant still holds and
      no entry is sent any more, though the socket stays until `onclose`,
      which still accepts it. */
  lemma ClosingStopsSending(st: State, level: Level, text: string, time: int)
    requires Inv(st) && st.channel.socket != NoSocket
    ensures Inv(ClosingStarts(st))
    ensures Emit(ClosingStarts(st), level, text, time).channel == ClosingStarts(st).channel
    ensures ClosingStarts(st).channel.socket != NoSocket
  {
    EmitForwards(ClosingStarts(st), level, text, time);
    EmitKeepsChannel(ClosingStarts(st), level, text, time);
  }

  /** The reconnect callback retries with the link as `onclose` left it. */
  lemma TimerFireKeepsInv(st: State, time: int, failure: Option<string>)
    requires Inv(st) && st.channel.pending > 0
    ensures Inv(TimerFire(st, time, failure))
    ensures st.channel.supported && failure.None? ==> TimerFire(st, time, failure).channel.socket == Connecting
  {
    var st1 := st.(channel := st.channel.(timer := false, pending := st.channel.pending - 1));
    InitializeKeepsInv(st1, time, failure);
  }

  /** `disable` closes an existing socket once with a normal closure, and
      leaves no socket, no reconnect due and an empty view. */
  lemma DisableTearsDown(st: State, time: int)
    requires Inv(st) && st.settings.enabled
    ensures var r := Disable(st, time);
      Inv(r) && !r.settings.enabled && r.buffer.displayed == []
      && r.channel.socket == NoSocket && !r.channel.timer && r.channel.pending == 0
      && (st.channel.socket != NoSocket ==>
            !r.channel.enabled && r.channel.closing == st.channel.closing + 1
            && r.channel.closeCalls == st.channel.closeCalls + [CloseCall(NormalClosure, DisableReason)])
      && (st.channel.socket == NoSocket ==> r.channel.closeCalls == st.channel.closeCalls)
  {
    EmitKeepsInv(st, Info, "xmediaLogger disabling...", time);
    EmitKeepsChannel(st, Info, "xmediaLogger disabling...", time);
  }

  /** Once disabled, nothing reconnects: the link stays down through any
      later `initializeWebSocket`. */
  lemma DisabledLinkStaysDown(st: State, time: int, t2: int, failure: Option<string>)
    requires Inv(st) && st.settings.enabled && st.channel.socket != NoSocket
    ensures var r := Disable(st, time);
      Initialize(r, t2, failure) == r
  {
    DisableTearsDown(st, time);
  }
}
