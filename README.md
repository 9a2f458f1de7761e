# Logcat streaming: a verified model

This project models the log-streaming feature of ws-scrcpy. The feature has three parts.

- An Android device's `adb logcat` output is produced on the server.
- The server batches that output and sends it to a browser viewer over a multiplexed WebSocket channel.
- The viewer parses the lines, keeps a bounded history of them, and shows the subset that passes a level and text filter.

The model has seven modules, one file each:

- `Wrappers` (`wrappers.dfy`): the `Option` type.
- `Text` (`text.dfy`): the parts of the JavaScript runtime the code relies on, written out.
  - The character classes `\d` and `\s`, and what `.` excludes.
  - `trim()`, `toLowerCase()`, `includes()`, `split('\n')`, and the `filter(line => line.trim())` idiom.
- `LogLine` (`log_line.dfy`): log levels and entries, the two-layout line parser, and the level/text filter.
  - Each regular expression becomes a hand-written matcher that returns the pieces of the pattern.
  - Soundness is proved: a matcher's pieces always put back together to the input.
  - Completeness is proved: every well-formed line of a layout parses to the entry its groups give (`StampedComplete`, `BriefComplete`).
- `Protocol` (`protocol.dfy`): the JSON messages of the channel, as values after decoding.
  - Both sides' dispatch functions.
  - Round trips between what one side builds and what the other side dispatches.
- `LogcatPanel` (`logcat_panel.dfy`): the viewer's panel as a class.
  - It holds the history, the displayed lines (a ghost sequence standing for the DOM children), the filter and the visibility switch.
  - Its calls into the client are kept as a ghost log.
- `RemoteLogcat` (`remote_logcat.dfy`): the server's producer as a class.
  - It holds the line queue, the flush timer flag and the process reference.
  - Ghost bookkeeping covers the spawned and killed processes, plus every message sent on the socket.
- `LogcatClient` (`logcat_client.dfy`): the viewer's WebSocket client as a class.
  - Sockets are numbered in creation order and kept with their ready states.
  - A single ghost trace records every frame sent and every event emitted.

Timers, process events and socket events are methods that the environment calls. These include a flush timer firing, a process closing, a socket opening or closing, and the reconnect timer firing. Each such method states the whole new state, and each class keeps an invariant (`Valid`).

Three behaviours of the code are easy to miss, and the model states them:

- A restart keeps the queued lines and the pending flush: `startLogcat` leaves both alone, so lines read before a restart are still sent after it. `RemoteLogcat.RemoteLogcat.StartLogcat` states this.
- A `filter` request restarts streaming whenever a device has been stored, even after `stop` with no process running. `RemoteLogcat.RemoteLogcat.HandleMessage` states this.
- `disconnect` does not end reconnection. See the second finding below.

## Model

| member | source | states |
|---|---|---|
| `Text.TrimStart` | src/app/googDevice/toolbox/LogcatPanel.ts:117 | the result is a suffix of the input, all that was dropped is whitespace, and it does not start with whitespace (what `\s*` leaves for the message group) |
| `Text.Trim` | src/app/googDevice/toolbox/LogcatPanel.ts:124 | the result is empty exactly when the input is all whitespace; otherwise it starts and ends with non-whitespace |
| `Text.TrimIsMiddle` | src/app/googDevice/toolbox/LogcatPanel.ts:124 | trimming removes only the leading and the trailing whitespace: the result is the front of what follows the leading whitespace, and all that follows it there is whitespace |
| `Text.TrimSpacePrefix` | src/app/googDevice/toolbox/LogcatPanel.ts:124 | whitespace in front of a tag does not change its trimmed value |
| `Text.ToLower` | src/app/googDevice/toolbox/LogcatPanel.ts:48 | the length is kept, no character `A`-`Z` is left, each of them becomes its lower-case letter, and every other character is kept |
| `Text.ToLowerIdempotent` | src/app/googDevice/toolbox/LogcatPanel.ts:48 | a stored lower-cased filter stays lower-cased when lower-cased again |
| `Text.IndexFrom` | src/app/googDevice/toolbox/LogcatPanel.ts:171 | the result is the first position at or after `k` where the pattern occurs, or -1 exactly when there is none |
| `Text.IncludesIff` | src/app/googDevice/toolbox/LogcatPanel.ts:171 | `includes` holds exactly when some position carries the pattern |
| `Text.IncludesLowered` | src/app/googDevice/toolbox/LogcatPanel.ts:169-173 | an occurrence in the original text is still found after both sides are lower-cased |
| `Text.Split` | src/server/goog-device/mw/RemoteLogcat.ts:76 | at least one piece; no piece holds the separator; joining the pieces with the separator gives back the input |
| `Text.SplitJoin` | src/server/goog-device/mw/RemoteLogcat.ts:76 | splitting undoes joining separator-free pieces (together with `Split`'s contract, split and join are inverse) |
| `Text.NonBlank` | src/server/goog-device/mw/RemoteLogcat.ts:77 | no kept line is blank, and none are invented |
| `Text.NonBlankMembers` | src/server/goog-device/mw/RemoteLogcat.ts:77 | a line is kept exactly when it is in the input and its trim is non-empty |
| `Text.NonBlankAppend` | src/server/goog-device/mw/RemoteLogcat.ts:77 | filtering two chunks separately equals filtering their concatenation |
| `LogLine.Rank` | src/app/googDevice/toolbox/LogcatPanel.ts:160-162 | `levelOrder.indexOf`: the level's letter is at that index of `VDIWEFS` and at no earlier one |
| `LogLine.LevelOf` | src/app/googDevice/toolbox/LogcatPanel.ts:117 | `[VDIWEFS]`: a level exactly for those seven letters, and it is the level whose letter it is |
| `LogLine.TakeUntil` | src/app/googDevice/toolbox/LogcatPanel.ts:117 | `[^:]+:`: a non-empty colon-free run, then the colon, then the rest, which together give back the input |
| `LogLine.TakeMessage` | src/app/googDevice/toolbox/LogcatPanel.ts:117 | `\s*(.*)$`: whitespace followed by a message with no line terminator, which together form the input |
| `LogLine.TakeMessageOf` | src/app/googDevice/toolbox/LogcatPanel.ts:117 | whatever whitespace precedes it, the message group is the text with its leading whitespace removed |
| `LogLine.MatchTagged` | src/app/googDevice/toolbox/LogcatPanel.ts:117 | `\s+([^:]+):\s*(.*)$`: the pieces are valid and put back together to the input |
| `LogLine.MatchTaggedOf` | src/app/googDevice/toolbox/LogcatPanel.ts:117 | every valid tagged part is recognised, with the same trimmed tag and message |
| `LogLine.MatchLeveled` | src/app/googDevice/toolbox/LogcatPanel.ts:117 | `([VDIWEFS])` followed by the tagged part: the pieces put back together to the input |
| `LogLine.MatchFields` | src/app/googDevice/toolbox/LogcatPanel.ts:117 | `\s+(\d+)\s+(\d+)\s+([VDIWEFS])` and the tagged part: the pieces are valid and put back together to the input |
| `LogLine.MatchFieldsOf` | src/app/googDevice/toolbox/LogcatPanel.ts:117 | every valid field sequence is recognised with the same PID, level, trimmed tag and message |
| `LogLine.MatchStamped` | src/app/googDevice/toolbox/LogcatPanel.ts:117 | layout 1: when it matches, the pieces are each in their sub-pattern's language and put back together to the line, which starts with a digit |
| `LogLine.MatchBrief` | src/app/googDevice/toolbox/LogcatPanel.ts:131 | layout 2: when it matches, the pieces are valid and put back together to the line, which starts with a level letter |
| `LogLine.StampedEntry` | src/app/googDevice/toolbox/LogcatPanel.ts:119-128 | the entry keeps the line as `raw`, and its timestamp is the prefix of the line the pieces format to |
| `LogLine.BriefEntry` | src/app/googDevice/toolbox/LogcatPanel.ts:132-141 | the entry keeps the line as `raw` with an empty timestamp, and its level is the line's first letter |
| `LogLine.FallbackEntry` | src/app/googDevice/toolbox/LogcatPanel.ts:143-153 | the whole line is both message and `raw`, the level is `I`, and tag, PID and timestamp are empty |
| `LogLine.ParseLogLine` | src/app/googDevice/toolbox/LogcatPanel.ts:114-156 | no entry exactly when the line's trim is empty; every entry keeps the line as `raw` |
| `LogLine.StampedComplete` | src/app/googDevice/toolbox/LogcatPanel.ts:117-128 | every layout-1 line, whatever its whitespace, parses to: the timestamp group, the first number as PID (the TID dropped), the letter's level, the trimmed tag, and the message without leading whitespace |
| `LogLine.BriefComplete` | src/app/googDevice/toolbox/LogcatPanel.ts:130-141 | every layout-2 line parses to: its level, the trimmed tag, the PID, the message without leading whitespace, and an empty timestamp |
| `LogLine.ExampleStamped` | src/app/googDevice/toolbox/LogcatPanel.ts:117-128 | `06-15 10:23:01.123 1234 1234 I MyTag: Hello world` gives timestamp `06-15 10:23:01.123`, PID `1234`, level `I`, tag `MyTag`, message `Hello world` |
| `LogLine.ExampleBrief` | src/app/googDevice/toolbox/LogcatPanel.ts:130-141 | `E/Crashy(  987): fatal error` gives level `E`, tag `Crashy`, PID `987`, message `fatal error`, empty timestamp |
| `LogLine.FallbackGeneral` | src/app/googDevice/toolbox/LogcatPanel.ts:143-153 | a non-blank line that no valid layout-1 or layout-2 pieces format to parses to the fallback entry |
| `LogLine.TimeFormatIsFallback` | src/app/googDevice/toolbox/LogcatPanel.ts:143-155 | a timestamp, whitespace, then neither digit nor whitespace matches neither layout and becomes a plain info entry holding the whole line |
| `LogLine.ExampleTimeFormat` | src/server/goog-device/mw/RemoteLogcat.ts:49 | a line in the format the server requests (`-v time`) is a fallback entry |
| `LogLine.TrailingTerminator` | src/app/googDevice/toolbox/LogcatPanel.ts:117-141 | a line ending in a line terminator whose entry has a non-empty message is a fallback entry, because `.` excludes line terminators |
| `LogLine.PassesLevel` | src/app/googDevice/toolbox/LogcatPanel.ts:160-166 | an entry passes the threshold exactly when the threshold's letter occurs in `VDIWEFS` no later than the entry's |
| `LogLine.SearchText` | src/app/googDevice/toolbox/LogcatPanel.ts:170 | the text searched is the lower-cased tag, a space, and the lower-cased message |
| `LogLine.ShouldShowEntry` | src/app/googDevice/toolbox/LogcatPanel.ts:158-177 | an entry is shown exactly when its level passes and the filter is empty or occurs at some position of the search text |
| `LogLine.LevelFilterMonotonic` | src/app/googDevice/toolbox/LogcatPanel.ts:158-166 | raising an entry's level never hides it |
| `LogLine.VerboseShowsAll` | src/app/googDevice/toolbox/LogcatPanel.ts:158-166 | threshold `V` with no text shows every entry |
| `LogLine.EmptyTextOnlyLevel` | src/app/googDevice/toolbox/LogcatPanel.ts:168-176 | with an empty filter the entry is shown exactly when it passes the level threshold |
| `LogLine.TextFilterIgnoresCase` | src/app/googDevice/toolbox/LogcatPanel.ts:168-176 | with the filter stored as the pattern lower-cased, an entry of a passing level is shown exactly when its tag, a space and its message contain some text equal to the pattern up to case (both directions) |
| `LogLine.FilterEntries` | src/app/googDevice/toolbox/LogcatPanel.ts:240-244 | every shown entry passes the filter, and there are no more than in the input |
| `LogLine.FilterEntriesMembers` | src/app/googDevice/toolbox/LogcatPanel.ts:240-244 | an entry is shown exactly when it is in the history and passes the filter |
| `LogLine.FilterEntriesAppend` | src/app/googDevice/toolbox/LogcatPanel.ts:216-218 | filtering a concatenation is concatenating the filtered parts (the incremental fragment is correct) |
| `LogLine.ParseAll` | src/app/googDevice/toolbox/LogcatPanel.ts:210-214 | no more entries than lines |
| `LogLine.ParseAllRaw` | src/app/googDevice/toolbox/LogcatPanel.ts:210-214 | the entries correspond one to one, in order, to the non-blank lines, each keeping its line as `raw` |
| `LogLine.ParseAllAppend` | src/app/googDevice/toolbox/LogcatPanel.ts:210-214 | parsing a concatenation of batches is concatenating the parsed batches |
| `Protocol.ClassifyRequest` | src/server/goog-device/mw/RemoteLogcat.ts:154-180 | `start`, `stop`, `clear` and `filter` each exactly for a `logcat` message with data of that sub-type; `start` carries its `udid` and `filter`, `filter` its filter; a message is ignored exactly when its type is not `logcat`, it has no data, or its sub-type is none of the four |
| `Protocol.ClassifyNotice` | src/app/googDevice/client/LogcatClient.ts:111-124 | `lines` exactly for a `logcat` message with data of sub-type `lines` and the field present, carrying those lines; `cleared` exactly for sub-type `cleared`; a message is ignored exactly when its type is not `logcat`, it has no data, its sub-type is neither, or it is `lines` without the field |
| `Protocol.StartMessage` | src/app/googDevice/client/LogcatClient.ts:59-65 | the server dispatches it as `start` for the device, with no filter |
| `Protocol.StopMessage` | src/app/googDevice/client/LogcatClient.ts:159-164 | the server dispatches it as `stop` |
| `Protocol.ClearMessage` | src/app/googDevice/client/LogcatClient.ts:143-150 | the server dispatches it as `clear` |
| `Protocol.FilterMessage` | src/app/googDevice/client/LogcatClient.ts:133-141 | the server dispatches it as `filter` carrying the filter |
| `Protocol.LinesMessage` | src/server/goog-device/mw/RemoteLogcat.ts:93-99 | the viewer dispatches it as exactly those lines |
| `Protocol.ClearedMessage` | src/server/goog-device/mw/RemoteLogcat.ts:131-136 | the viewer dispatches it as `cleared` |
| `Protocol.DirectionsDisjoint` | src/server/goog-device/mw/RemoteLogcat.ts:155-179 | no request is taken for a notice and no notice for a request |
| `LogcatPanel.LastN` | src/app/googDevice/toolbox/LogcatPanel.ts:222-227 | keeping at most `n` yields `min(n, length)` elements and they are a suffix of the input |
| `LogcatPanel.LastNFits` | src/app/googDevice/toolbox/LogcatPanel.ts:222 | a history within capacity is kept whole |
| `LogcatPanel.LastNAppend` | src/app/googDevice/toolbox/LogcatPanel.ts:207-227 | trimming after every batch equals trimming once after all of them: the history does not depend on how lines are batched |
| `LogcatPanel.ViewAfterAdd` | src/app/googDevice/toolbox/LogcatPanel.ts:222-229 | the display after a batch is its last lines, one fewer per evicted entry while any remain, followed by exactly the batch's passing entries |
| `LogcatPanel.AddKeepsViewWithoutEviction` | src/app/googDevice/toolbox/LogcatPanel.ts:216-229 | when nothing is evicted, the incremental display update equals the filtered history |
| `LogcatPanel.EvictionCanDropShownLine` | src/app/googDevice/toolbox/LogcatPanel.ts:222-229 | when the evicted oldest entry was hidden, the update as written no longer equals the filtered history |
| `LogcatPanel.Panel.constructor` | src/app/googDevice/toolbox/LogcatPanel.ts:24-29 | empty history, empty filter, threshold `V`, hidden |
| `LogcatPanel.Panel.AddLines` | src/app/googDevice/toolbox/LogcatPanel.ts:207-234 | the history becomes the last 5000 of the old history followed by the new entries; the display loses one leading line per evicted entry and gains the passing new entries |
| `LogcatPanel.Panel.PushParsed` | src/app/googDevice/toolbox/LogcatPanel.ts:210-219 | the loop pushes exactly the parsed entries, in order, and collects exactly the passing ones |
| `LogcatPanel.Panel.TrimToCapacity` | src/app/googDevice/toolbox/LogcatPanel.ts:222-227 | the loop keeps the newest 5000 entries and removes as many leading displayed lines as entries it shifted, while there are any |
| `LogcatPanel.Panel.AddLinesSynced` | src/app/googDevice/toolbox/LogcatPanel.ts:207-234 | the corrected update: the history as in `AddLines`, and the display stays exactly the filtered history |
| `LogcatPanel.Panel.TrimToCapacitySynced` | src/app/googDevice/toolbox/LogcatPanel.ts:222-227 | the corrected loop: the newest 5000 entries, with the display still the filtered history |
| `LogcatPanel.Panel.ApplyFilter` | src/app/googDevice/toolbox/LogcatPanel.ts:236-251 | the display becomes exactly the history filtered, in order; the history is untouched |
| `LogcatPanel.Panel.SetFilterText` | src/app/googDevice/toolbox/LogcatPanel.ts:47-50 | the stored filter is the input lower-cased and the display is refiltered |
| `LogcatPanel.Panel.SetFilterLevel` | src/app/googDevice/toolbox/LogcatPanel.ts:69-72 | the threshold is the selected level and the display is refiltered |
| `LogcatPanel.Panel.Clear` | src/app/googDevice/toolbox/LogcatPanel.ts:253-257 | the client is asked to clear, and the history and the display are emptied |
| `LogcatPanel.Panel.OnCleared` | src/app/googDevice/toolbox/LogcatPanel.ts:108-111 | the history and the display are emptied, with no call to the client |
| `LogcatPanel.Panel.Show` | src/app/googDevice/toolbox/LogcatPanel.ts:259-265 | visible afterwards; connects only on the hidden-to-visible transition |
| `LogcatPanel.Panel.Hide` | src/app/googDevice/toolbox/LogcatPanel.ts:267-273 | hidden afterwards; disconnects only on the visible-to-hidden transition |
| `LogcatPanel.Panel.Toggle` | src/app/googDevice/toolbox/LogcatPanel.ts:275-281 | flips visibility, with exactly one connect or disconnect to match |
| `LogcatPanel.Panel.Release` | src/app/googDevice/toolbox/LogcatPanel.ts:287-292 | disconnects whatever the visibility and changes nothing else |
| `LogcatPanel.RunSwitches` | src/app/googDevice/toolbox/LogcatPanel.ts:259-281 | over any sequence of show/hide/toggle, connects and disconnects strictly alternate, starting with connect, and the panel is visible exactly after a connect |
| `RemoteLogcat.BatchSize` | src/server/goog-device/mw/RemoteLogcat.ts:92 | a flush takes the whole queue or exactly 100 lines, never more than either, and at least one line from a non-empty queue |
| `RemoteLogcat.Encode` | src/server/goog-device/mw/RemoteLogcat.ts:93-99 | the viewer dispatches a sent `lines` message as those lines and a `cleared` message as `cleared` |
| `RemoteLogcat.LogcatArgs` | src/server/goog-device/mw/RemoteLogcat.ts:49-53 | the arguments are `-s udid logcat -v time`, and the filter is appended only when it is non-empty |
| `RemoteLogcat.ClearArgs` | src/server/goog-device/mw/RemoteLogcat.ts:127 | the same device and `logcat` command as the streaming process, with `-c` as the fourth and last argument |
| `RemoteLogcat.RemoteLogcat.constructor` | src/server/goog-device/mw/RemoteLogcat.ts:18-23 | empty queue, no pending flush, no stored device, no process |
| `RemoteLogcat.RemoteLogcat.ProcessChannel` | src/server/goog-device/mw/RemoteLogcat.ts:25-30 | a fresh producer exactly for the logcat channel code |
| `RemoteLogcat.RemoteLogcat.BufferData` | src/server/goog-device/mw/RemoteLogcat.ts:75-84 | the queue gains exactly the non-blank pieces of the chunk, untrimmed and in order, after what it held; a flush is pending afterwards, with exactly one timer |
| `RemoteLogcat.RemoteLogcat.Enqueue` | src/server/goog-device/mw/RemoteLogcat.ts:77-83 | appends to the queue and arms a timer only if none is pending |
| `RemoteLogcat.RemoteLogcat.FlushBuffer` | src/server/goog-device/mw/RemoteLogcat.ts:86-112 | an empty queue sends nothing and clears the flag; otherwise the first min(100, length) lines are removed and sent as one `lines` message exactly when the socket is open (dropped, not re-queued, when it is not); the flag is set afterwards exactly when lines remain |
| `RemoteLogcat.RemoteLogcat.Splice` | src/server/goog-device/mw/RemoteLogcat.ts:92 | takes exactly the first batch off the queue |
| `RemoteLogcat.RemoteLogcat.SendLines` | src/server/goog-device/mw/RemoteLogcat.ts:101-103 | the batch is appended to the sent messages exactly when the socket is open |
| `RemoteLogcat.RemoteLogcat.StopLogcat` | src/server/goog-device/mw/RemoteLogcat.ts:114-119 | the referenced process is killed and forgotten; no process starts running; queue and stored device unchanged |
| `RemoteLogcat.RemoteLogcat.StartLogcat` | src/server/goog-device/mw/RemoteLogcat.ts:41-73 | any referenced process is killed, the device stored, a process spawned with `LogcatArgs` and referenced; queue and timer untouched; at most one process stays running |
| `RemoteLogcat.RemoteLogcat.ClearLogcat` | src/server/goog-device/mw/RemoteLogcat.ts:121-128 | with a stored device one `logcat -c` process is spawned for it, and without one nothing happens |
| `RemoteLogcat.RemoteLogcat.OnClearProcessClose` | src/server/goog-device/mw/RemoteLogcat.ts:129-138 | `cleared` is sent exactly when the socket is open at that moment |
| `RemoteLogcat.RemoteLogcat.OnProcessCloseAsWritten` | src/server/goog-device/mw/RemoteLogcat.ts:65-68 | the handler as written forgets the reference, whichever process it refers to |
| `RemoteLogcat.RemoteLogcat.OnProcessClose` | src/server/goog-device/mw/RemoteLogcat.ts:65-68 | the corrected handler forgets the reference only when it is to the closing process, so at most one process still runs |
| `RemoteLogcat.RemoteLogcat.HandleMessage` | src/server/goog-device/mw/RemoteLogcat.ts:154-180 | `start` starts only with a non-empty device; `stop` stops; `clear` clears; `filter` restarts with the stored device only when one is stored and a filter is present; everything else changes nothing; the queue is never touched |
| `RemoteLogcat.RemoteLogcat.Release` | src/server/goog-device/mw/RemoteLogcat.ts:182-189 | the pending flush is cancelled and the process stopped; the queue is left as it is |
| `RemoteLogcat.RemoteLogcat.SetSocketOpen` | src/server/goog-device/mw/RemoteLogcat.ts:101 | the socket state changes underneath the producer and nothing else does |
| `RemoteLogcat.LosslessDelivery` | src/server/goog-device/mw/RemoteLogcat.ts:77-103 | while no flush has found the socket closed, the sent `lines` messages followed by the queue are exactly the lines queued, in order |
| `RemoteLogcat.StaleCloseAsWritten` | src/server/goog-device/mw/RemoteLogcat.ts:41-68 | start, filter change, the first process's close, start: two streaming processes are left running |
| `RemoteLogcat.StaleCloseCorrected` | src/server/goog-device/mw/RemoteLogcat.ts:41-68 | the same events with the corrected handler leave only the newest process running |
| `LogcatClient.GreetingStartsStream` | src/app/googDevice/client/LogcatClient.ts:52-66 | the greeting is the channel code, then a message the server dispatches as `start` for the device |
| `LogcatClient.OpenGreets` | src/app/googDevice/client/LogcatClient.ts:52-66 | the open handler's frames are exactly the greeting on the opening socket, and every socket keeps its greeting first |
| `LogcatClient.LogcatClient.constructor` | src/app/googDevice/client/LogcatClient.ts:30-34 | no socket, not connected, no reconnect pending, nothing sent |
| `LogcatClient.LogcatClient.Connect` | src/app/googDevice/client/LogcatClient.ts:36-50 | nothing while the referenced socket is connecting or open; otherwise a new connecting socket is created and referenced |
| `LogcatClient.LogcatClient.Transmit` | src/app/googDevice/client/LogcatClient.ts:55 | a frame is sent on the referenced socket exactly when it is open |
| `LogcatClient.LogcatClient.SendMessage` | src/app/googDevice/client/LogcatClient.ts:127-131 | a message is sent exactly when the referenced socket is open; otherwise nothing is sent or kept |
| `LogcatClient.LogcatClient.SocketOpened` | src/app/googDevice/client/LogcatClient.ts:52-67 | in order: the channel code is sent, the connected flag is set, `connected` is emitted, `start` for the device is sent; the socket has carried exactly the greeting |
| `LogcatClient.LogcatClient.ScheduleReconnect` | src/app/googDevice/client/LogcatClient.ts:84-94 | a reconnect is pending afterwards, with exactly one timer |
| `LogcatClient.LogcatClient.SocketClosing` | src/app/googDevice/client/LogcatClient.ts:127-131 | the server's closing handshake: the socket is closing and nothing else changes; in particular the connected flag stays set until the `close` event |
| `LogcatClient.LogcatClient.SocketClosed` | src/app/googDevice/client/LogcatClient.ts:73-77 | the flag is cleared, `disconnected` is emitted and one reconnect is pending; a detached handler does nothing |
| `LogcatClient.LogcatClient.ReconnectTimerFired` | src/app/googDevice/client/LogcatClient.ts:88-93 | the pending flag is cleared, and `connect` runs only when not connected |
| `LogcatClient.LogcatClient.OnMessage` | src/app/googDevice/client/LogcatClient.ts:96-125 | an undecodable payload emits nothing; `lines` with the field present emits exactly those lines; `cleared` emits `cleared`; anything else emits nothing |
| `LogcatClient.LogcatClient.SendRequest` | src/app/googDevice/client/LogcatClient.ts:127-131 | a request is sent exactly when the referenced socket is open, after its greeting |
| `LogcatClient.LogcatClient.SetFilter` | src/app/googDevice/client/LogcatClient.ts:133-141 | a `filter` request is sent exactly when the socket is open; otherwise nothing is sent or queued |
| `LogcatClient.LogcatClient.Clear` | src/app/googDevice/client/LogcatClient.ts:143-150 | a `clear` request is sent exactly when the socket is open |
| `LogcatClient.LogcatClient.CloseSocket` | src/app/googDevice/client/LogcatClient.ts:165 | a connecting or open socket starts closing |
| `LogcatClient.LogcatClient.Disconnect` | src/app/googDevice/client/LogcatClient.ts:152-169 | cancels the reconnect; with a socket, sends `stop` only if it is open, closes it and forgets it; always clears the flag; a second call only re-clears the flags; the close handler stays attached |
| `LogcatClient.LogcatClient.DisconnectDetached` | src/app/googDevice/client/LogcatClient.ts:152-169 | the corrected disconnect: the same, and the socket's close handler is detached |
| `LogcatClient.LogcatClient.GetConnectionStatus` | src/app/googDevice/client/LogcatClient.ts:171-173 | returns the flag; `true` means a socket is referenced and has not closed, though it may be closing, or connecting after a `connect` made while the old one closed |
| `LogcatClient.ConnectedWhileClosing` | src/app/googDevice/client/LogcatClient.ts:127-173 | after open and the server's closing handshake, the status is still `true` while the socket is closing, and a filter set then is not sent: the socket has carried only its greeting |
| `LogcatClient.ReconnectAfterDisconnect` | src/app/googDevice/client/LogcatClient.ts:73-77 | connect, open, disconnect, close, timer: a new socket opens and greets the server again |
| `LogcatClient.NoReconnectAfterDisconnect` | src/app/googDevice/client/LogcatClient.ts:152-169 | with the handler detached the same events leave no socket and no reconnect pending |

## Left out

- The DOM is not modelled: `createLogElement`, the container, CSS classes, auto-scroll and scroll positions. The displayed lines are a ghost sequence of the entries they render.
- `JSON.parse`, `JSON.stringify` and `TextDecoder` are not modelled. Messages are values after decoding. An undecodable payload reaches `OnMessage` as `None`.
- A JSON `null` filter is not modelled. The server's `filter !== undefined` test lets `null` through, but the message fields are `Option`s, where absent and `null` are the same.
- Real timers are not modelled. The 50 ms and 3000 ms delays become a pending flag plus the method that runs when the timer fires.
- Socket, multiplexer and child-process I/O are not modelled. Only the following appear:
  - a socket is an open flag or a ready state;
  - processes are spawn numbers with their arguments;
  - process exits and socket events are methods.
- stderr, the `error` events of processes and sockets, and console logging have no effect on the state, so they are left out.
- The viewer's URL construction from `params` and `location`, and `binaryType`, are left out. The channel code's UTF-8 encoding is a `ChannelFrame` carrying the code.
- The `Mw` base class (`super.release()`, `onSocketMessage`'s parse) is not part of this model. Neither is `processRequest`, which always returns nothing.
- The panel and its client are separate objects in the model. The panel's calls to the client are logged as `ClientCall`s, and the client's events are logged in its trace. They are not wired to each other.
- `Text.Trim`: its own contract does not say that only the leading and trailing whitespace goes; `Text.TrimIsMiddle` proves that, because the clause on `Trim` itself would be carried into every blank-line test and make those proofs too costly.
- `Text.ToLower`: lower-cases only `A`-`Z`, whereas `toLowerCase()` uses the full Unicode case mapping.
- `LogcatPanel.Panel.AddLines`: its loop over the new lines is specified through `ParseAll` and `FilterEntries`, not statement by statement.

## Findings

| source | as written | input that shows it | evidently intended | confidence | as-written member | corrected member |
|---|---|---|---|---|---|---|
| src/server/goog-device/mw/RemoteLogcat.ts:65-68 | a streaming process's `close` handler clears `logcatProcess` whatever process it refers to by then | `start u`, then `filter f` (kills process 0, spawns 1), then process 0's `close`, then `start u`: process 1 is never killed and two `logcat` processes feed one queue | forget the reference only when it still refers to the process that closed | not executed | `RemoteLogcat.RemoteLogcat.OnProcessCloseAsWritten`, `RemoteLogcat.StaleCloseAsWritten` | `RemoteLogcat.RemoteLogcat.OnProcessClose`, `RemoteLogcat.StaleCloseCorrected` |
| src/app/googDevice/client/LogcatClient.ts:152-169 | `disconnect` closes the socket but leaves its `onclose` handler attached | `connect`, socket opens, `disconnect`, that socket's close event, reconnect timer: a new socket opens and sends `start`, so the device streams again after the viewer disconnected | closing on `disconnect` schedules no reconnect | not executed | `LogcatClient.LogcatClient.Disconnect`, `LogcatClient.ReconnectAfterDisconnect` | `LogcatClient.LogcatClient.DisconnectDetached`, `LogcatClient.NoReconnectAfterDisconnect` |
| src/app/googDevice/toolbox/LogcatPanel.ts:222-227 | every evicted entry removes the first displayed line, whether or not that entry was displayed | 5000 entries whose oldest is hidden by the filter and at least one shown, then one more line: a displayed line disappears although its entry is still in the history | remove a displayed line only for an evicted entry that is displayed, so the display stays the filtered history | not executed | `LogcatPanel.EvictionCanDropShownLine`, `LogcatPanel.Panel.AddLines` | `LogcatPanel.Panel.AddLinesSynced`, `LogcatPanel.Panel.TrimToCapacitySynced` |
