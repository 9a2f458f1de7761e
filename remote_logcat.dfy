/** The server end of the logcat channel: it runs `adb logcat` for one device, batches the
    process output into `lines` messages, and obeys the viewer's `start`, `stop`, `clear` and
    `filter` requests. The flush timer is a flag plus the step that runs when it fires; the
    child processes are numbered in spawn order and recorded with their arguments; the
    socket is an open flag with a record of every message sent. */
module RemoteLogcat {
  import opened Wrappers
  import opened Text
  import opened Protocol

  /** Lines per `lines` message. */
  const BatchLimit: nat := 100

  /** How many lines one flush takes off a queue: all of them, up to `BatchLimit`. */
  function BatchSize(buffer: seq<string>): (k: nat)
    ensures k <= |buffer| && k <= BatchLimit
    ensures k == |buffer| || k == BatchLimit
    ensures buffer != [] ==> k > 0
  {
    if |buffer| < BatchLimit then |buffer| else BatchLimit
  }

  /** A message the server sends, before JSON encoding. */
  datatype Outgoing = LinesOut(lines: seq<string>) | ClearedOut

  /** The JSON message for `o`; the viewer's dispatch reads it back as what was sent. */
  function Encode(o: Outgoing): (m: Message)
    ensures o.LinesOut? ==> ClassifyNotice(m) == LinesNotice(o.lines)
    ensures o.ClearedOut? ==> ClassifyNotice(m) == ClearedNotice
  {
    match o
    case LinesOut(lines) => LinesMessage(lines)
    case ClearedOut => ClearedMessage()
  }

  /** The lines a viewer receives from `os`: the contents of the `lines` messages, in order. */
  function SentLines(os: seq<Outgoing>): seq<string> {
    if os == [] then []
    else SentLines(os[..|os| - 1]) + (if os[|os| - 1].LinesOut? then os[|os| - 1].lines else [])
  }

  lemma SentLinesSnoc(os: seq<Outgoing>, o: Outgoing)
    ensures SentLines(os + [o]) == SentLines(os) + (if o.LinesOut? then o.lines else [])
  {
    assert (os + [o])[..|os|] == os;
  }

  /** Every `lines` message holds between 1 and `BatchLimit` lines. */
  ghost predicate BatchesFit(os: seq<Outgoing>) {
    forall i :: 0 <= i < |os| && os[i].LinesOut? ==> 1 <= |os[i].lines| <= BatchLimit
  }

  lemma BatchesFitSnoc(os: seq<Outgoing>, o: Outgoing)
    requires BatchesFit(os)
    requires o.LinesOut? ==> 1 <= |o.lines| <= BatchLimit
    ensures BatchesFit(os + [o])
  {
    assert forall i :: 0 <= i < |os| ==> (os + [o])[i] == os[i];
  }

  lemma TakeDrop<T>(s: seq<T>, k: nat)
    requires k <= |s|
    ensures s[..k] + s[k..] == s
  {
  }

  /** The arguments of the streaming process: `-v time` output for the device, and the
      filter as one more argument when it is a non-empty string. */
  function LogcatArgs(udid: string, filter: Option<string>): (r: seq<string>)
    ensures |r| >= 5 && r[..5] == ["-s", udid, "logcat", "-v", "time"]
    ensures |r| == 6 <==> filter.Some? && filter.value != ""
    ensures |r| == 5 || (|r| == 6 && r[5] == filter.value)
  {
    ["-s", udid, "logcat", "-v", "time"] + (if filter.Some? && filter.value != "" then [filter.value] else [])
  }

  /** The arguments of the process that clears the device log: the same device and command
      as the streaming process, with `-c` in place of the output format. */
  function ClearArgs(udid: string): (r: seq<string>)
    ensures |r| == 4 && r[..3] == LogcatArgs(udid, None)[..3] && r[3] == "-c"
  {
    ["-s", udid, "logcat", "-c"]
  }

  class RemoteLogcat {
    /** Lines waiting for the next flush, oldest first. */
    var buffer: seq<string>
    /** `sendBuffer !== null`: a flush is scheduled. */
    var pending: bool
    /** Scheduled flush timers that have neither fired nor been cancelled. */
    ghost var timers: nat
    var udid: string
    /** The process `logcatProcess` refers to, by spawn number. */
    var process: Option<nat>
    /** The arguments of every streaming process spawned, by spawn number. */
    var spawns: seq<seq<string>>
    ghost var killed: set<nat>
    /** Processes whose `close` event has been handled. */
    ghost var exited: set<nat>
    /** The arguments of every clearing process spawned, and how many have not closed. */
    ghost var clearSpawns: seq<seq<string>>
    ghost var clearsRunning: nat
    /** `ws.readyState === ws.OPEN`. */
    var socketOpen: bool
    /** Every message sent on the socket, in order. */
    ghost var outbox: seq<Outgoing>
    /** Every line ever queued, in order. */
    ghost var accepted: seq<string>
    /** Every line a flush took off the queue, in order, whether or not it was sent. */
    ghost var flushed: seq<string>
    /** No flush has yet found the socket closed. */
    ghost var lossless: bool

    /** One timer at most, and it exists exactly when the flag is set; the flushed lines
        followed by the queue are exactly the lines queued; while no flush found the socket
        closed, the `lines` messages carry exactly the flushed lines, in order; every `lines`
        message holds between 1 and `BatchLimit` lines. The process bookkeeping is
        constrained by `SingleProducer`. */
    ghost predicate Valid()
      reads this
    {
      && timers == (if pending then 1 else 0)
      && flushed + buffer == accepted
      && (lossless ==> SentLines(outbox) == flushed)
      && BatchesFit(outbox)
    }

    /** Spawned and neither killed nor closed. */
    ghost predicate IsRunning(p: nat)
      reads this
    {
      p < |spawns| && p !in killed && p !in exited
    }

    /** Every running streaming process is the one `logcatProcess` refers to, so at most one
        runs and `stop` reaches it. */
    ghost predicate SingleProducer()
      reads this
    {
      forall p: nat :: IsRunning(p) ==> process == Some(p)
    }

    /** The queue, the timer and the socket record are as they were. */
    twostate predicate QueueUnchanged()
      reads this
    {
      && buffer == old(buffer) && pending == old(pending) && timers == old(timers)
      && socketOpen == old(socketOpen) && outbox == old(outbox) && accepted == old(accepted)
      && flushed == old(flushed) && lossless == old(lossless)
    }

    /** The processes and the stored device are as they were. */
    twostate predicate ProcessesUnchanged()
      reads this
    {
      && killed == old(killed) && spawns == old(spawns) && process == old(process)
      && exited == old(exited) && udid == old(udid)
      && clearSpawns == old(clearSpawns) && clearsRunning == old(clearsRunning)
    }

    /** `stopLogcat`'s effect: the referenced process, if any, is killed and forgotten. */
    twostate predicate Stopped()
      reads this
    {
      && killed == old(killed) + (if old(process).Some? then {old(process).value} else {})
      && process == None
      && spawns == old(spawns) && exited == old(exited) && udid == old(udid)
      && clearSpawns == old(clearSpawns) && clearsRunning == old(clearsRunning)
    }

    /** `startLogcat(u, filter)`'s effect: the referenced process, if any, is killed; a new
        one is spawned with `LogcatArgs` and referenced; `u` is stored. */
    twostate predicate Started(u: string, filter: Option<string>)
      reads this
    {
      && killed == old(killed) + (if old(process).Some? then {old(process).value} else {})
      && spawns == old(spawns) + [LogcatArgs(u, filter)]
      && process == Some(|old(spawns)|)
      && exited == old(exited) && udid == u
      && clearSpawns == old(clearSpawns) && clearsRunning == old(clearsRunning)
    }

    /** `clearLogcat`'s effect: with a stored device, one clearing process is spawned. */
    twostate predicate ClearStarted()
      reads this
    {
      && killed == old(killed) && spawns == old(spawns) && process == old(process)
      && exited == old(exited) && udid == old(udid)
      && clearSpawns == old(clearSpawns) + (if udid != "" then [ClearArgs(udid)] else [])
      && clearsRunning == old(clearsRunning) + (if udid != "" then 1 else 0)
    }

    constructor (open: bool)
      ensures Valid() && SingleProducer()
      ensures buffer == [] && !pending && udid == "" && process == None && socketOpen == open
      ensures spawns == [] && killed == {} && exited == {} && clearSpawns == [] && clearsRunning == 0
      ensures outbox == [] && accepted == [] && flushed == [] && lossless
    {
      buffer := [];
      pending := false;
      timers := 0;
      udid := "";
      process := None;
      spawns := [];
      killed := {};
      exited := {};
      clearSpawns := [];
      clearsRunning := 0;
      socketOpen := open;
      outbox := [];
      accepted := [];
      flushed := [];
      lossless := true;
    }

    /** `processChannel`: a producer for the logcat channel code, nothing for any other. */
    static method ProcessChannel(code: string, open: bool) returns (r: RemoteLogcat?)
      ensures r != null <==> code == ChannelCode
      ensures r != null ==> fresh(r) && r.Valid() && r.SingleProducer()
                            && r.buffer == [] && r.process == None && r.udid == "" && r.outbox == []
    {
      if code != ChannelCode {
        return null;
      }
      r := new RemoteLogcat(open);
    }

    /** `bufferData`, run for every chunk a streaming process writes: queue the non-blank
        pieces, untrimmed and in order, and schedule a flush unless one is pending. */
    method BufferData(data: string)
      requires Valid()
      modifies this
      ensures Valid()
      ensures buffer == old(buffer) + NonBlank(Split(data, '\n'))
      ensures accepted == old(accepted) + NonBlank(Split(data, '\n'))
      ensures pending && timers == 1
      ensures flushed == old(flushed) && lossless == old(lossless)
      ensures outbox == old(outbox) && socketOpen == old(socketOpen)
      ensures ProcessesUnchanged()
    {
      var kept := NonBlank(Split(data, '\n'));
      Enqueue(kept);
    }

    /** Append `kept` to the queue and make sure a flush is scheduled. */
    method Enqueue(kept: seq<string>)
      requires Valid()
      modifies this
      ensures Valid()
      ensures buffer == old(buffer) + kept && accepted == old(accepted) + kept
      ensures pending && timers == 1
      ensures flushed == old(flushed) && lossless == old(lossless)
      ensures outbox == old(outbox) && socketOpen == old(socketOpen)
      ensures ProcessesUnchanged()
    {
      AppendAssoc(flushed, buffer, kept);
      buffer := buffer + kept;
      accepted := accepted + kept;
      if !pending {
        pending := true;
        timers := timers + 1;
      }
    }

    /** `flushBuffer`, run when the flush timer fires: take up to `BatchLimit` lines off the
        front and send them as one `lines` message if the socket is open (they are dropped
        otherwise); schedule the next flush exactly when lines remain. */
    method FlushBuffer()
      requires Valid() && timers > 0
      modifies this
      ensures Valid()
      ensures old(buffer) == [] ==>
        && buffer == [] && flushed == old(flushed) && outbox == old(outbox)
        && lossless == old(lossless)
      ensures old(buffer) != [] ==>
        var batch := old(buffer)[..BatchSize(old(buffer))];
        && 1 <= |batch| <= BatchLimit
        && buffer == old(buffer)[|batch|..]
        && flushed == old(flushed) + batch
        && outbox == (if socketOpen then old(outbox) + [LinesOut(batch)] else old(outbox))
        && lossless == (old(lossless) && socketOpen)
      ensures pending <==> buffer != []
      ensures timers == (if buffer != [] then 1 else 0)
      ensures accepted == old(accepted) && socketOpen == old(socketOpen)
      ensures ProcessesUnchanged()
    {
      if |buffer| == 0 {
        pending := false;
        timers := timers - 1;
        return;
      }
      var toSend := Splice();
      SendLines(toSend);
      pending := buffer != [];
      // The timer that fired is spent; a new one is armed while lines remain.
      timers := timers - 1;
      if pending {
        timers := timers + 1;
      }
    }

    /** `buffer.splice(0, BatchLimit)`: take the first batch off the queue. Until it is sent,
        the messages lack exactly that batch. */
    method Splice() returns (toSend: seq<string>)
      requires Valid() && buffer != []
      modifies this
      ensures toSend == old(buffer)[..BatchSize(old(buffer))] && 1 <= |toSend| <= BatchLimit
      ensures buffer == old(buffer)[|toSend|..] && flushed == old(flushed) + toSend
      ensures flushed + buffer == accepted
      ensures lossless ==> SentLines(outbox) + toSend == flushed
      ensures pending == old(pending) && timers == old(timers) && accepted == old(accepted)
      ensures outbox == old(outbox) && lossless == old(lossless) && socketOpen == old(socketOpen)
      ensures ProcessesUnchanged()
    {
      var k := BatchSize(buffer);
      toSend := buffer[..k];
      var rest := buffer[k..];
      TakeDrop(buffer, k);
      AppendAssoc(flushed, toSend, rest);
      buffer, flushed := rest, flushed + toSend;
    }

    /** Send `toSend` as one `lines` message if the socket is open; otherwise the batch is
        lost. */
    method SendLines(toSend: seq<string>)
      requires flushed + buffer == accepted
      requires lossless ==> SentLines(outbox) + toSend == flushed
      requires BatchesFit(outbox) && 1 <= |toSend| <= BatchLimit
      modifies this
      ensures outbox == (if socketOpen then old(outbox) + [LinesOut(toSend)] else old(outbox))
      ensures lossless == (old(lossless) && socketOpen)
      ensures flushed + buffer == accepted && (lossless ==> SentLines(outbox) == flushed)
      ensures BatchesFit(outbox)
      ensures buffer == old(buffer) && pending == old(pending) && timers == old(timers)
      ensures flushed == old(flushed) && accepted == old(accepted) && socketOpen == old(socketOpen)
      ensures ProcessesUnchanged()
    {
      if socketOpen {
        SentLinesSnoc(outbox, LinesOut(toSend));
        BatchesFitSnoc(outbox, LinesOut(toSend));
        outbox := outbox + [LinesOut(toSend)];
      } else {
        lossless := false;
      }
    }

    /** `stopLogcat`: kill and forget the referenced process; nothing else changes. */
    method StopLogcat()
      requires Valid()
      modifies this
      ensures Valid() && Stopped() && QueueUnchanged()
      ensures old(SingleProducer()) ==> SingleProducer()
      ensures forall p: nat :: IsRunning(p) ==> old(IsRunning(p)) && old(process) != Some(p)
    {
      if process.Some? {
        killed := killed + {process.value};
        process := None;
      }
    }

    /** `startLogcat`: stop the referenced process, store the device, spawn the streaming
        process and reference it. The queue and the timer are left alone, so lines queued
        before a restart are still flushed after it. */
    method StartLogcat(u: string, filter: Option<string>)
      requires Valid()
      modifies this
      ensures Valid() && Started(u, filter) && QueueUnchanged()
      ensures old(SingleProducer()) ==> SingleProducer()
    {
      if process.Some? {
        StopLogcat();
      }
      udid := u;
      spawns := spawns + [LogcatArgs(u, filter)];
      process := Some(|spawns| - 1);
    }

    /** `clearLogcat`: with a stored device, spawn `logcat -c` for it. */
    method ClearLogcat()
      requires Valid()
      modifies this
      ensures Valid() && ClearStarted() && QueueUnchanged()
      ensures SingleProducer() <==> old(SingleProducer())
    {
      if udid == "" {
        return;
      }
      clearSpawns := clearSpawns + [ClearArgs(udid)];
      clearsRunning := clearsRunning + 1;
    }

    /** The `close` handler of a clearing process: report `cleared` if the socket is open. */
    method OnClearProcessClose()
      requires Valid() && clearsRunning > 0
      modifies this
      ensures Valid()
      ensures clearsRunning == old(clearsRunning) - 1
      ensures outbox == old(outbox) + (if socketOpen then [ClearedOut] else [])
      ensures buffer == old(buffer) && pending == old(pending) && timers == old(timers)
      ensures accepted == old(accepted) && flushed == old(flushed)
      ensures lossless == old(lossless) && socketOpen == old(socketOpen)
      ensures killed == old(killed) && spawns == old(spawns) && process == old(process)
      ensures exited == old(exited) && udid == old(udid) && clearSpawns == old(clearSpawns)
    {
      clearsRunning := clearsRunning - 1;
      if socketOpen {
        SentLinesSnoc(outbox, ClearedOut);
        BatchesFitSnoc(outbox, ClearedOut);
        outbox := outbox + [ClearedOut];
      }
    }

    /** The `close` handler of streaming process `p`, as intended: forget the reference only
        when it is to `p`. */
    method OnProcessClose(p: nat)
      requires Valid() && p < |spawns| && p !in exited
      modifies this
      ensures Valid()
      ensures exited == old(exited) + {p}
      ensures process == if old(process) == Some(p) then None else old(process)
      ensures killed == old(killed) && spawns == old(spawns) && udid == old(udid)
      ensures clearSpawns == old(clearSpawns) && clearsRunning == old(clearsRunning)
      ensures QueueUnchanged()
      ensures old(SingleProducer()) ==> SingleProducer()
    {
      exited := exited + {p};
      if process == Some(p) {
        process := None;
      }
    }

    /** The `close` handler of streaming process `p` as written: it forgets the reference
        whichever process it refers to, even to one spawned after `p` was killed. */
    method OnProcessCloseAsWritten(p: nat)
      requires Valid() && p < |spawns| && p !in exited
      modifies this
      ensures Valid()
      ensures exited == old(exited) + {p}
      ensures process == None
      ensures killed == old(killed) && spawns == old(spawns) && udid == old(udid)
      ensures clearSpawns == old(clearSpawns) && clearsRunning == old(clearsRunning)
      ensures QueueUnchanged()
    {
      exited := exited + {p};
      process := None;
    }

    /** `handleMessage`: dispatch one decoded request. `start` needs a non-empty `udid`;
        `filter` needs a stored device and a present filter and restarts with the stored
        device; a wrong envelope or an unknown sub-type changes nothing. */
    method HandleMessage(m: Message)
      requires Valid()
      modifies this
      ensures Valid() && QueueUnchanged()
      ensures old(SingleProducer()) ==> SingleProducer()
      ensures match ClassifyRequest(m)
        case StartRequest(u, filter) =>
          if u.Some? && u.value != "" then Started(u.value, filter) else ProcessesUnchanged()
        case StopRequest => Stopped()
        case ClearRequest => ClearStarted()
        case FilterRequest(filter) =>
          if old(udid) != "" && filter.Some? then Started(old(udid), filter) else ProcessesUnchanged()
        case IgnoredRequest => ProcessesUnchanged()
    {
      match ClassifyRequest(m)
      case StartRequest(u, filter) =>
        if u.Some? && u.value != "" {
          StartLogcat(u.value, filter);
        }
      case StopRequest =>
        StopLogcat();
      case ClearRequest =>
        ClearLogcat();
      case FilterRequest(filter) =>
        if udid != "" && filter.Some? {
          StartLogcat(udid, filter);
        }
      case IgnoredRequest =>
    }

    /** `release`: cancel a pending flush and stop the process; the queue is left as is. */
    method Release()
      requires Valid()
      modifies this
      ensures Valid() && Stopped()
      ensures !pending && timers == 0
      ensures buffer == old(buffer) && accepted == old(accepted) && flushed == old(flushed)
      ensures outbox == old(outbox) && lossless == old(lossless)
      ensures socketOpen == old(socketOpen)
      ensures old(SingleProducer()) ==> SingleProducer()
    {
      if pending {
        pending := false;
        timers := 0;
      }
      StopLogcat();
    }

    /** The socket opens or closes underneath the producer. */
    method SetSocketOpen(open: bool)
      requires Valid()
      modifies this
      ensures Valid() && socketOpen == open && ProcessesUnchanged()
      ensures buffer == old(buffer) && pending == old(pending) && timers == old(timers)
      ensures outbox == old(outbox) && accepted == old(accepted) && flushed == old(flushed)
      ensures lossless == old(lossless)
      ensures SingleProducer() <==> old(SingleProducer())
    {
      socketOpen := open;
    }
  }

  /** While no flush has found the socket closed, the `lines` messages followed by the queue
      are exactly the lines queued, in order. */
  lemma LosslessDelivery(r: RemoteLogcat)
    requires r.Valid() && r.lossless
    ensures SentLines(r.outbox) + r.buffer == r.accepted
  {
  }

  /** The stale `close` handler in action: start, then a filter change (which kills the first
      process and spawns a second), then the first process's `close`, then another start.
      The handler as written has forgotten the second process, so the last start does not
      kill it and two streaming processes run. */
  method StaleCloseAsWritten(u: string, filter: string) returns (r: RemoteLogcat)
    requires u != ""
    ensures r.IsRunning(1) && r.IsRunning(2)
  {
    r := new RemoteLogcat(true);
    r.HandleMessage(StartMessage(u));
    r.HandleMessage(FilterMessage(filter));
    r.OnProcessCloseAsWritten(0);
    r.HandleMessage(StartMessage(u));
  }

  /** The same events with the intended handler: the last start kills the second process and
      only the third runs. */
  method StaleCloseCorrected(u: string, filter: string) returns (r: RemoteLogcat)
    requires u != ""
    ensures r.SingleProducer() && r.IsRunning(2) && !r.IsRunning(1) && !r.IsRunning(0)
  {
    r := new RemoteLogcat(true);
    r.HandleMessage(StartMessage(u));
    r.HandleMessage(FilterMessage(filter));
    r.OnProcessClose(0);
    r.HandleMessage(StartMessage(u));
  }
}
