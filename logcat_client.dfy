/** The viewer's end of the logcat channel: one WebSocket to the server's multiplexer at a
    time, a greeting when it opens, a single reconnect timer after every close, and the
    dispatch of the server's notices as events. Sockets are numbered in creation order and
    kept with their ready states; the reconnect timer is a flag plus the step that runs when
    it fires; everything the client sends or emits is one ghost trace, in order. */
module LogcatClient {
  import opened Wrappers
  import opened Protocol

  /** `WebSocket.readyState`. */
  datatype ReadyState = Connecting | Open | Closing | Closed

  /** A socket `connect` leaves alone. */
  predicate Live(st: ReadyState) {
    st == Connecting || st == Open
  }

  /** The events the client emits to its listeners. */
  datatype Event = ConnectedEvent | DisconnectedEvent | LinesEvent(lines: seq<string>) | ClearedEvent

  /** One observable step: a frame transmitted on a socket, or an event emitted. */
  datatype Action = Send(socket: nat, frame: Frame) | Emit(event: Event)

  /** The frames transmitted on socket `s`, in order. */
  function SentOn(trace: seq<Action>, s: nat): seq<Frame> {
    if trace == [] then []
    else
      var a := trace[|trace| - 1];
      SentOn(trace[..|trace| - 1], s) + (if a.Send? && a.socket == s then [a.frame] else [])
  }

  lemma SentOnSnoc(trace: seq<Action>, a: Action, s: nat)
    ensures SentOn(trace + [a], s) == SentOn(trace, s) + (if a.Send? && a.socket == s then [a.frame] else [])
  {
    assert (trace + [a])[..|trace|] == trace;
  }

  /** No frame was ever transmitted on a socket the trace does not name. */
  lemma {:induction false} SentOnUnused(trace: seq<Action>, s: nat)
    requires forall k :: 0 <= k < |trace| && trace[k].Send? ==> trace[k].socket != s
    ensures SentOn(trace, s) == []
  {
    if trace != [] {
      var init := trace[..|trace| - 1];
      assert forall k :: 0 <= k < |init| ==> init[k] == trace[k];
      SentOnUnused(init, s);
    }
  }

  /** What every channel opens with: the channel code, then `start` for the device. */
  function Greeting(udid: string): seq<Frame> {
    [ChannelFrame(ChannelCode), MessageFrame(StartMessage(udid))]
  }

  /** The server makes a logcat producer of the first frame of the greeting and starts
      streaming the device on the second. */
  lemma GreetingStartsStream(udid: string)
    ensures |Greeting(udid)| == 2
    ensures Greeting(udid)[0].ChannelFrame? && Greeting(udid)[0].code == ChannelCode
    ensures Greeting(udid)[1].MessageFrame?
    ensures ClassifyRequest(Greeting(udid)[1].msg) == StartRequest(Some(udid), None)
  {
  }

  /** What a socket in state `st` has carried: nothing before it opened; once open, the
      greeting before anything else. */
  ghost predicate Greeted(frames: seq<Frame>, udid: string, st: ReadyState) {
    && (st == Connecting ==> frames == [])
    && (st == Open ==> frames != [])
    && (frames == [] || (|frames| >= 2 && frames[..2] == Greeting(udid)))
  }

  lemma GreetedExtends(frames: seq<Frame>, udid: string, st: ReadyState, f: Frame)
    requires Greeted(frames, udid, st) && st == Open
    ensures Greeted(frames + [f], udid, st)
  {
    assert (frames + [f])[..2] == frames[..2];
  }

  /** Every socket of `sockets` carried the greeting first, and the trace names no other. */
  ghost predicate AllGreeted(trace: seq<Action>, sockets: seq<ReadyState>, udid: string) {
    && (forall k :: 0 <= k < |trace| && trace[k].Send? ==> trace[k].socket < |sockets|)
    && (forall i: nat :: i < |sockets| ==> Greeted(SentOn(trace, i), udid, sockets[i]))
  }

  /** Emitting an event transmits nothing. */
  lemma EmitKeepsGreeted(trace: seq<Action>, sockets: seq<ReadyState>, udid: string, e: Event)
    requires AllGreeted(trace, sockets, udid)
    ensures AllGreeted(trace + [Emit(e)], sockets, udid)
  {
    forall i: nat | i < |sockets|
      ensures Greeted(SentOn(trace + [Emit(e)], i), udid, sockets[i])
    {
      SentOnSnoc(trace, Emit(e), i);
    }
    assert forall k :: 0 <= k < |trace| ==> (trace + [Emit(e)])[k] == trace[k];
  }

  /** A frame on an open socket follows its greeting. */
  lemma SendKeepsGreeted(trace: seq<Action>, sockets: seq<ReadyState>, udid: string, c: nat, f: Frame)
    requires AllGreeted(trace, sockets, udid) && c < |sockets| && sockets[c] == Open
    ensures AllGreeted(trace + [Send(c, f)], sockets, udid)
  {
    forall i: nat | i < |sockets|
      ensures Greeted(SentOn(trace + [Send(c, f)], i), udid, sockets[i])
    {
      SentOnSnoc(trace, Send(c, f), i);
      if i == c {
        GreetedExtends(SentOn(trace, i), udid, sockets[i], f);
      }
    }
    assert forall k :: 0 <= k < |trace| ==> (trace + [Send(c, f)])[k] == trace[k];
  }

  /** A socket that starts closing or closes keeps what it carried. */
  lemma CloseKeepsGreeted(trace: seq<Action>, sockets: seq<ReadyState>, udid: string, s: nat, st: ReadyState)
    requires AllGreeted(trace, sockets, udid) && s < |sockets| && !Live(st)
    ensures AllGreeted(trace, sockets[s := st], udid)
  {
  }

  /** A new socket has carried nothing. */
  lemma ConnectKeepsGreeted(trace: seq<Action>, sockets: seq<ReadyState>, udid: string)
    requires AllGreeted(trace, sockets, udid)
    ensures AllGreeted(trace, sockets + [Connecting], udid)
  {
    SentOnUnused(trace, |sockets|);
  }

  /** The `open` handler's frames make the greeting of the socket that opens. */
  lemma OpenGreets(trace: seq<Action>, sockets: seq<ReadyState>, udid: string, s: nat)
    requires AllGreeted(trace, sockets, udid) && s < |sockets| && sockets[s] == Connecting
    ensures var t := trace + [Send(s, ChannelFrame(ChannelCode))] + [Emit(ConnectedEvent)]
                     + [Send(s, MessageFrame(StartMessage(udid)))];
            AllGreeted(t, sockets[s := Open], udid) && SentOn(t, s) == Greeting(udid)
  {
    var t1 := trace + [Send(s, ChannelFrame(ChannelCode))];
    var t2 := t1 + [Emit(ConnectedEvent)];
    var t := t2 + [Send(s, MessageFrame(StartMessage(udid)))];
    var after := sockets[s := Open];
    forall i: nat | i < |after|
      ensures Greeted(SentOn(t, i), udid, after[i])
      ensures i == s ==> SentOn(t, i) == Greeting(udid)
    {
      SentOnSnoc(trace, Send(s, ChannelFrame(ChannelCode)), i);
      SentOnSnoc(t1, Emit(ConnectedEvent), i);
      SentOnSnoc(t2, Send(s, MessageFrame(StartMessage(udid))), i);
    }
    assert forall k :: 0 <= k < |trace| ==> t[k] == trace[k];
  }

  class LogcatClient {
    /** The device whose log is requested on every open. */
    const udid: string
    /** The ready state of every socket created, by creation number. */
    var sockets: seq<ReadyState>
    /** The socket `ws` refers to. */
    var ws: Option<nat>
    var isConnected: bool
    /** `reconnectTimeout !== undefined`: a reconnect is scheduled. */
    var reconnectPending: bool
    /** Scheduled reconnect timers that have neither fired nor been cancelled. */
    ghost var timers: nat
    /** Sockets whose `close` handler was detached; only `DisconnectDetached` adds to it. */
    var detached: set<nat>
    /** Every frame transmitted and every event emitted, in order. */
    ghost var trace: seq<Action>

    /** One reconnect timer at most, and it exists exactly when the flag is set; a live
        socket is always the referenced one, so at most one exists; the flag claims a
        connection only while the referenced socket has not closed (it may be closing, or,
        after a `connect` inside that window, a fresh one still connecting); every socket
        carried the greeting first. */
    ghost predicate Valid()
      reads this
    {
      && timers == (if reconnectPending then 1 else 0)
      && (ws.Some? ==> ws.value < |sockets|)
      && (forall i :: 0 <= i < |sockets| && Live(sockets[i]) ==> ws == Some(i))
      && (isConnected ==> ws.Some? && sockets[ws.value] != Closed)
      && AllGreeted(trace, sockets, udid)
      && (forall d :: d in detached ==> d < |sockets|)
      && (ws.Some? ==> ws.value !in detached)
    }

    /** `connect`'s effect: a fresh socket, connecting and referenced, unless the referenced
        one is still live. */
    twostate predicate ConnectStep()
      reads this
    {
      if old(ws).Some? && old(ws).value < |old(sockets)| && Live(old(sockets)[old(ws).value]) then
        sockets == old(sockets) && ws == old(ws)
      else
        sockets == old(sockets) + [Connecting] && ws == Some(|old(sockets)|)
    }

    constructor (udid: string)
      ensures Valid() && this.udid == udid
      ensures sockets == [] && ws == None && !isConnected && !reconnectPending
      ensures detached == {} && trace == []
    {
      this.udid := udid;
      sockets := [];
      ws := None;
      isConnected := false;
      reconnectPending := false;
      timers := 0;
      detached := {};
      trace := [];
    }

    /** `connect`: do nothing while the referenced socket is connecting or open; otherwise
        create a socket and reference it. */
    method Connect()
      requires Valid()
      modifies this
      ensures Valid() && ConnectStep()
      ensures isConnected == old(isConnected) && reconnectPending == old(reconnectPending)
      ensures timers == old(timers) && detached == old(detached) && trace == old(trace)
    {
      if ws.Some? && Live(sockets[ws.value]) {
        return;
      }
      ConnectKeepsGreeted(trace, sockets, udid);
      sockets := sockets + [Connecting];
      ws := Some(|sockets| - 1);
    }

    /** `ws.send` on the referenced socket: transmitted only when that socket is open. */
    method Transmit(f: Frame)
      requires ws.Some? ==> ws.value < |sockets|
      modifies this
      ensures old(ws).Some? && old(sockets)[old(ws).value] == Open ==> trace == old(trace) + [Send(old(ws).value, f)]
      ensures !(old(ws).Some? && old(sockets)[old(ws).value] == Open) ==> trace == old(trace)
      ensures sockets == old(sockets) && ws == old(ws) && isConnected == old(isConnected)
      ensures reconnectPending == old(reconnectPending) && timers == old(timers)
      ensures detached == old(detached)
    {
      if ws.Some? && sockets[ws.value] == Open {
        trace := trace + [Send(ws.value, f)];
      }
    }

    /** `sendMessage`: a message for the referenced socket if it is open, and nothing at all
        (not even a queued copy) otherwise. */
    method SendMessage(m: Message)
      requires ws.Some? ==> ws.value < |sockets|
      modifies this
      ensures old(ws).Some? && old(sockets)[old(ws).value] == Open ==> trace == old(trace) + [Send(old(ws).value, MessageFrame(m))]
      ensures !(old(ws).Some? && old(sockets)[old(ws).value] == Open) ==> trace == old(trace)
      ensures sockets == old(sockets) && ws == old(ws) && isConnected == old(isConnected)
      ensures reconnectPending == old(reconnectPending) && timers == old(timers)
      ensures detached == old(detached)
    {
      Transmit(MessageFrame(m));
    }

    /** The `open` handler of socket `s`: the channel code, then the connected flag and
        event, then `start` for the device. The socket that opens is always the referenced
        one, so both frames go out on it. */
    method SocketOpened(s: nat)
      requires Valid() && s < |sockets| && sockets[s] == Connecting
      modifies this
      ensures Valid()
      ensures sockets == old(sockets)[s := Open] && ws == Some(s) && isConnected
      ensures trace == old(trace) + [Send(s, ChannelFrame(ChannelCode))] + [Emit(ConnectedEvent)]
                      + [Send(s, MessageFrame(StartMessage(udid)))]
      ensures SentOn(trace, s) == Greeting(udid)
      ensures reconnectPending == old(reconnectPending) && timers == old(timers)
      ensures detached == old(detached)
    {
      OpenGreets(trace, sockets, udid, s);
      sockets := sockets[s := Open];
      Transmit(ChannelFrame(ChannelCode));
      isConnected := true;
      trace := trace + [Emit(ConnectedEvent)];
      SendMessage(StartMessage(udid));
    }

    /** `scheduleReconnect`: one timer at most. */
    method ScheduleReconnect()
      requires Valid()
      modifies this
      ensures Valid() && reconnectPending && timers == 1
      ensures sockets == old(sockets) && ws == old(ws) && isConnected == old(isConnected)
      ensures detached == old(detached) && trace == old(trace)
    {
      if reconnectPending {
        return;
      }
      reconnectPending := true;
      timers := timers + 1;
    }

    /** The server starts the closing handshake on socket `s`: the socket is closing, and no
        handler runs until its `close` event. */
    method SocketClosing(s: nat)
      requires Valid() && s < |sockets| && sockets[s] == Open
      modifies this
      ensures Valid() && sockets == old(sockets)[s := Closing]
      ensures ws == old(ws) && isConnected == old(isConnected)
      ensures reconnectPending == old(reconnectPending) && timers == old(timers)
      ensures detached == old(detached) && trace == old(trace)
    {
      CloseKeepsGreeted(trace, sockets, udid, s, Closing);
      sockets := sockets[s := Closing];
    }

    /** The `close` handler of socket `s`, for whichever socket it is: clear the flag, emit
        `disconnected`, schedule a reconnect. A detached handler does nothing. */
    method SocketClosed(s: nat)
      requires Valid() && s < |sockets| && sockets[s] != Closed
      modifies this
      ensures Valid() && sockets == old(sockets)[s := Closed] && ws == old(ws)
      ensures s in detached ==>
        && isConnected == old(isConnected) && trace == old(trace)
        && reconnectPending == old(reconnectPending) && timers == old(timers)
      ensures s !in detached ==>
        && !isConnected && trace == old(trace) + [Emit(DisconnectedEvent)]
        && reconnectPending && timers == 1
      ensures detached == old(detached)
    {
      CloseKeepsGreeted(trace, sockets, udid, s, Closed);
      sockets := sockets[s := Closed];
      if s in detached {
        return;
      }
      isConnected := false;
      EmitKeepsGreeted(trace, sockets, udid, DisconnectedEvent);
      trace := trace + [Emit(DisconnectedEvent)];
      ScheduleReconnect();
    }

    /** The reconnect timer fires: clear the flag, and connect unless connected. */
    method ReconnectTimerFired()
      requires Valid() && reconnectPending
      modifies this
      ensures Valid() && !reconnectPending && timers == 0
      ensures old(isConnected) ==> sockets == old(sockets) && ws == old(ws)
      ensures !old(isConnected) ==> ConnectStep()
      ensures isConnected == old(isConnected) && detached == old(detached) && trace == old(trace)
    {
      reconnectPending := false;
      timers := 0;
      if !isConnected {
        Connect();
      }
    }

    /** `onMessage`, given the payload as decoded (`None` when it is not JSON): emit the
        lines of a `lines` notice, `cleared` for a `cleared` notice, and nothing otherwise. */
    method OnMessage(decoded: Option<Message>)
      requires Valid()
      modifies this
      ensures Valid()
      ensures decoded.None? ==> trace == old(trace)
      ensures decoded.Some? ==>
        match ClassifyNotice(decoded.value)
        case LinesNotice(lines) => trace == old(trace) + [Emit(LinesEvent(lines))]
        case ClearedNotice => trace == old(trace) + [Emit(ClearedEvent)]
        case IgnoredNotice => trace == old(trace)
      ensures sockets == old(sockets) && ws == old(ws) && isConnected == old(isConnected)
      ensures reconnectPending == old(reconnectPending) && timers == old(timers)
      ensures detached == old(detached)
    {
      if decoded.None? {
        return;
      }
      match ClassifyNotice(decoded.value)
      case LinesNotice(lines) =>
        EmitKeepsGreeted(trace, sockets, udid, LinesEvent(lines));
        trace := trace + [Emit(LinesEvent(lines))];
      case ClearedNotice =>
        EmitKeepsGreeted(trace, sockets, udid, ClearedEvent);
        trace := trace + [Emit(ClearedEvent)];
      case IgnoredNotice =>
    }

    /** Everything a request sent on the referenced socket keeps: the greeting stays first. */
    method SendRequest(m: Message)
      requires Valid()
      modifies this
      ensures Valid()
      ensures ws.Some? && sockets[ws.value] == Open ==> trace == old(trace) + [Send(ws.value, MessageFrame(m))]
      ensures !(ws.Some? && sockets[ws.value] == Open) ==> trace == old(trace)
      ensures sockets == old(sockets) && ws == old(ws) && isConnected == old(isConnected)
      ensures reconnectPending == old(reconnectPending) && timers == old(timers)
      ensures detached == old(detached)
    {
      if ws.Some? && sockets[ws.value] == Open {
        SendKeepsGreeted(trace, sockets, udid, ws.value, MessageFrame(m));
      }
      SendMessage(m);
    }

    /** `setFilter`: a `filter` request if the socket is open. */
    method SetFilter(filter: string)
      requires Valid()
      modifies this
      ensures Valid()
      ensures ws.Some? && sockets[ws.value] == Open ==> trace == old(trace) + [Send(ws.value, MessageFrame(FilterMessage(filter)))]
      ensures !(ws.Some? && sockets[ws.value] == Open) ==> trace == old(trace)
      ensures sockets == old(sockets) && ws == old(ws) && isConnected == old(isConnected)
      ensures reconnectPending == old(reconnectPending) && timers == old(timers)
      ensures detached == old(detached)
    {
      SendRequest(FilterMessage(filter));
    }

    /** `clear`: a `clear` request if the socket is open. */
    method Clear()
      requires Valid()
      modifies this
      ensures Valid()
      ensures ws.Some? && sockets[ws.value] == Open ==> trace == old(trace) + [Send(ws.value, MessageFrame(ClearMessage()))]
      ensures !(ws.Some? && sockets[ws.value] == Open) ==> trace == old(trace)
      ensures sockets == old(sockets) && ws == old(ws) && isConnected == old(isConnected)
      ensures reconnectPending == old(reconnectPending) && timers == old(timers)
      ensures detached == old(detached)
    {
      SendRequest(ClearMessage());
    }

    /** `ws.close()`: a connecting or open socket starts closing; otherwise nothing. */
    method CloseSocket()
      requires ws.Some? && ws.value < |sockets|
      modifies this
      ensures sockets == old(sockets)[old(ws).value := if Live(old(sockets)[old(ws).value]) then Closing else old(sockets)[old(ws).value]]
      ensures ws == old(ws) && isConnected == old(isConnected)
      ensures reconnectPending == old(reconnectPending) && timers == old(timers)
      ensures detached == old(detached) && trace == old(trace)
    {
      if Live(sockets[ws.value]) {
        sockets := sockets[ws.value := Closing];
      }
    }

    /** `disconnect` as written: cancel a pending reconnect; with a socket, send `stop` if it
        is open, close it and forget it; clear the flag. The socket's `close` handler stays
        attached. */
    method Disconnect()
      requires Valid()
      modifies this
      ensures Valid() && DisconnectStep()
      ensures detached == old(detached)
    {
      DisconnectCommon();
    }

    /** `disconnect` as intended: the same, and the socket's `close` handler is detached, so
        the close event that follows schedules nothing. */
    method DisconnectDetached()
      requires Valid()
      modifies this
      ensures Valid() && DisconnectStep()
      ensures detached == old(detached) + (if old(ws).Some? then {old(ws).value} else {})
    {
      var current := ws;
      DisconnectCommon();
      if current.Some? {
        detached := detached + {current.value};
      }
    }

    /** What both versions of `disconnect` do to everything but the handlers. */
    twostate predicate DisconnectStep()
      reads this
    {
      && !reconnectPending && timers == 0 && ws == None && !isConnected
      && (old(ws).None? ==> sockets == old(sockets) && trace == old(trace))
      && (old(ws).Some? && old(ws).value < |old(sockets)| ==>
            var c := old(ws).value;
            && sockets == old(sockets)[c := if Live(old(sockets)[c]) then Closing else old(sockets)[c]]
            && (old(sockets)[c] == Open ==> trace == old(trace) + [Send(c, MessageFrame(StopMessage()))])
            && (old(sockets)[c] != Open ==> trace == old(trace)))
    }

    method DisconnectCommon()
      requires Valid()
      modifies this
      ensures Valid() && DisconnectStep()
      ensures detached == old(detached)
    {
      if reconnectPending {
        reconnectPending := false;
        timers := 0;
      }
      if ws.Some? {
        SendRequest(StopMessage());
        CloseSocket();
        ws := None;
      }
      isConnected := false;
    }

    /** `getConnectionStatus`; a `true` answer means the referenced socket has not closed. It
        need not be open: the flag is cleared only by the `close` handler or `disconnect`. */
    method GetConnectionStatus() returns (b: bool)
      requires Valid()
      ensures b == isConnected
      ensures b ==> ws.Some? && ws.value < |sockets| && sockets[ws.value] != Closed
    {
      b := isConnected;
    }
  }

  /** The `close` handler left attached by `disconnect`: connect, open, disconnect; the close
      that follows schedules a reconnect, the timer connects again and the new socket greets
      the server, so the device is streamed again although the viewer disconnected. */
  method ReconnectAfterDisconnect(udid: string) returns (c: LogcatClient)
    ensures c.sockets == [Closed, Open] && c.ws == Some(1) && c.isConnected
    ensures SentOn(c.trace, 1) == Greeting(udid)
  {
    c := new LogcatClient(udid);
    c.Connect();
    c.SocketOpened(0);
    c.Disconnect();
    c.SocketClosed(0);
    c.ReconnectTimerFired();
    c.SocketOpened(1);
  }

  /** Between the server's closing handshake and the `close` event the client reports a
      connection on which nothing can be sent: a filter set in that window is lost. */
  method ConnectedWhileClosing(udid: string, filter: string) returns (c: LogcatClient, status: bool)
    ensures status && c.sockets == [Closing] && c.ws == Some(0)
    ensures SentOn(c.trace, 0) == Greeting(udid)
  {
    c := new LogcatClient(udid);
    c.Connect();
    c.SocketOpened(0);
    c.SocketClosing(0);
    c.SetFilter(filter);
    status := c.GetConnectionStatus();
  }

  /** The same events with the handler detached: the close schedules nothing and no socket
      remains. */
  method NoReconnectAfterDisconnect(udid: string) returns (c: LogcatClient)
    ensures c.sockets == [Closed] && c.ws == None && !c.isConnected && !c.reconnectPending
  {
    c := new LogcatClient(udid);
    c.Connect();
    c.SocketOpened(0);
    c.DisconnectDetached();
    c.SocketClosed(0);
  }
}
