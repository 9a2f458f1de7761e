/** The messages the viewer and the server exchange over the logcat channel, as values
    after JSON decoding: an envelope `{type, data}` whose `data` carries a sub-type and the
    optional fields each direction uses. A field that JSON leaves out is `None`. */
module Protocol {
  import opened Wrappers

  /** The envelope type both sides require. */
  const EventType: string := "logcat"

  /** The channel code the viewer sends first on a fresh multiplexed socket. */
  const ChannelCode: string := "LOGC"

  datatype Payload = Payload(kind: string, udid: Option<string>, filter: Option<string>,
                             lines: Option<seq<string>>)

  /** `data` is `None` when the envelope has no `data` object. */
  datatype Message = Message(msgType: string, data: Option<Payload>)

  /** What travels on a socket: the channel code as bytes, or a JSON message. */
  datatype Frame = ChannelFrame(code: string) | MessageFrame(msg: Message)

  // Viewer to server. Each message is built so that the other side's dispatch (below)
  // reads it back as what it was built for.

  function StartMessage(udid: string): (m: Message)
    ensures ClassifyRequest(m) == StartRequest(Some(udid), None)
  {
    Message(EventType, Some(Payload("start", Some(udid), None, None)))
  }

  function StopMessage(): (m: Message)
    ensures ClassifyRequest(m) == StopRequest
  {
    assert "stop" != "start";
    Message(EventType, Some(Payload("stop", None, None, None)))
  }

  function ClearMessage(): (m: Message)
    ensures ClassifyRequest(m) == ClearRequest
  {
    assert "clear" != "start" && "clear" != "stop";
    Message(EventType, Some(Payload("clear", None, None, None)))
  }

  function FilterMessage(filter: string): (m: Message)
    ensures ClassifyRequest(m) == FilterRequest(Some(filter))
  {
    assert "filter" != "start" && "filter" != "stop" && "filter" != "clear";
    Message(EventType, Some(Payload("filter", None, Some(filter), None)))
  }

  // Server to viewer

  function LinesMessage(lines: seq<string>): (m: Message)
    ensures ClassifyNotice(m) == LinesNotice(lines)
  {
    Message(EventType, Some(Payload("lines", None, None, Some(lines))))
  }

  function ClearedMessage(): (m: Message)
    ensures ClassifyNotice(m) == ClearedNotice
  {
    assert "cleared" != "lines";
    Message(EventType, Some(Payload("cleared", None, None, None)))
  }

  /** A request as the server's `handleMessage` dispatches it. */
  datatype Request =
    | StartRequest(udid: Option<string>, filter: Option<string>)
    | StopRequest
    | ClearRequest
    | FilterRequest(filter: Option<string>)
    | IgnoredRequest

  /** The server's dispatch: a wrong envelope type, a missing `data` (its destructuring throws
      and the rejected promise is only logged) and an unknown sub-type are all ignored. */
  function ClassifyRequest(m: Message): (r: Request)
    ensures r.StartRequest? <==> m.msgType == EventType && m.data.Some? && m.data.value.kind == "start"
    ensures r.StopRequest? <==> m.msgType == EventType && m.data.Some? && m.data.value.kind == "stop"
    ensures r.ClearRequest? <==> m.msgType == EventType && m.data.Some? && m.data.value.kind == "clear"
    ensures r.FilterRequest? <==> m.msgType == EventType && m.data.Some? && m.data.value.kind == "filter"
    ensures r.IgnoredRequest? <==>
      m.msgType != EventType || m.data.None? || m.data.value.kind !in {"start", "stop", "clear", "filter"}
    ensures r.StartRequest? ==> r.udid == m.data.value.udid && r.filter == m.data.value.filter
    ensures r.FilterRequest? ==> r.filter == m.data.value.filter
  {
    if m.msgType != EventType || m.data.None? then IgnoredRequest
    else
      var d := m.data.value;
      if d.kind == "start" then StartRequest(d.udid, d.filter)
      else if d.kind == "stop" then StopRequest
      else if d.kind == "clear" then ClearRequest
      else if d.kind == "filter" then FilterRequest(d.filter)
      else IgnoredRequest
  }

  /** An event as the viewer's `onMessage` dispatches it. */
  datatype Notice = LinesNotice(lines: seq<string>) | ClearedNotice | IgnoredNotice

  /** The viewer's dispatch; `lines` counts only when the field is present (an empty array is
      still passed on). A missing `data` throws inside the handler and emits nothing. */
  function ClassifyNotice(m: Message): (r: Notice)
    ensures r.LinesNotice? <==> m.msgType == EventType && m.data.Some? && m.data.value.kind == "lines"
                                && m.data.value.lines.Some?
    ensures r.ClearedNotice? <==> m.msgType == EventType && m.data.Some? && m.data.value.kind == "cleared"
    ensures r.IgnoredNotice? <==>
      m.msgType != EventType || m.data.None? || m.data.value.kind !in {"lines", "cleared"}
      || (m.data.value.kind == "lines" && m.data.value.lines.None?)
    ensures r.LinesNotice? ==> r.lines == m.data.value.lines.value
  {
    if m.msgType != EventType || m.data.None? then IgnoredNotice
    else
      var d := m.data.value;
      if d.kind == "lines" then (if d.lines.Some? then LinesNotice(d.lines.value) else IgnoredNotice)
      else if d.kind == "cleared" then ClearedNotice
      else IgnoredNotice
  }

  /** The two directions do not mix: no request is taken for a notice by the viewer, and no
      notice for a request by the server. */
  lemma DirectionsDisjoint(udid: string, filter: string, lines: seq<string>)
    ensures ClassifyNotice(StartMessage(udid)) == IgnoredNotice
    ensures ClassifyNotice(StopMessage()) == IgnoredNotice
    ensures ClassifyNotice(ClearMessage()) == IgnoredNotice
    ensures ClassifyNotice(FilterMessage(filter)) == IgnoredNotice
    ensures ClassifyRequest(LinesMessage(lines)) == IgnoredRequest
    ensures ClassifyRequest(ClearedMessage()) == IgnoredRequest
  {
    assert "start" != "lines" && "start" != "cleared" && "stop" != "lines" && "stop" != "cleared";
    assert "clear" != "lines" && "clear" != "cleared" && "filter" != "lines" && "filter" != "cleared";
    assert "lines" != "start" && "lines" != "stop" && "lines" != "clear" && "lines" != "filter";
    assert "cleared" != "start" && "cleared" != "stop" && "cleared" != "clear" && "cleared" != "filter";
  }
}
