/** Log levels, log entries, the two-layout logcat line recogniser and the
    level/text filter of the viewer's log history panel. */
module LogLine {
  import opened Wrappers
  import opened Text

  /** The logcat priorities, in the order `['V','D','I','W','E','F','S']`. */
  datatype LogLevel = V | D | I | W | E | F | S

  /** Position of a level in the fixed order: `levelOrder.indexOf(l)`, the first index that
      holds the level's letter. */
  function Rank(l: LogLevel): (r: nat)
    ensures r < 7
    ensures "VDIWEFS"[r] == Letter(l)
    ensures forall j :: 0 <= j < r ==> "VDIWEFS"[j] != Letter(l)
  {
    match l
    case V => 0 case D => 1 case I => 2 case W => 3 case E => 4 case F => 5 case S => 6
  }

  function Letter(l: LogLevel): char {
    match l
    case V => 'V' case D => 'D' case I => 'I' case W => 'W' case E => 'E' case F => 'F' case S => 'S'
  }

  /** `[VDIWEFS]` read as a level. */
  function LevelOf(c: char): (r: Option<LogLevel>)
    ensures r.Some? <==> c in "VDIWEFS"
    ensures r.Some? ==> Letter(r.value) == c
    ensures forall l :: Letter(l) == c ==> r == Some(l)
  {
    match c
    case 'V' => Some(V) case 'D' => Some(D) case 'I' => Some(I) case 'W' => Some(W)
    case 'E' => Some(E) case 'F' => Some(F) case 'S' => Some(S)
    case _ => None
  }

  /** One parsed log line; `raw` is the line as received. */
  datatype LogEntry = LogEntry(timestamp: string, level: LogLevel, tag: string, pid: string,
                               message: string, raw: string)

  // ---------------------------------------------------------------------------
  // Pieces of the two patterns

  /** `\s+`. */
  predicate IsGap(s: string) {
    |s| >= 1 && All(s, Space)
  }

  /** `\d+`. */
  predicate IsNumber(s: string) {
    |s| >= 1 && All(s, Digit)
  }

  /** `\d{2}-\d{2}`. */
  predicate IsDate(s: string) {
    |s| == 5 && IsDigit(s[0]) && IsDigit(s[1]) && s[2] == '-' && IsDigit(s[3]) && IsDigit(s[4])
  }

  /** `\d{2}:\d{2}:\d{2}\.\d{3}`. */
  predicate IsClock(s: string) {
    && |s| == 12
    && IsDigit(s[0]) && IsDigit(s[1]) && s[2] == ':' && IsDigit(s[3]) && IsDigit(s[4])
    && s[5] == ':' && IsDigit(s[6]) && IsDigit(s[7]) && s[8] == '.'
    && IsDigit(s[9]) && IsDigit(s[10]) && IsDigit(s[11])
  }

  /** Greedy `\s+`: the whitespace run at the front of `s` and what follows it. */
  function TakeGap(s: string): (r: Option<(string, string)>)
    ensures r.Some? ==> IsGap(r.value.0) && r.value.0 + r.value.1 == s
  {
    var n := Span(s, Space);
    if n == 0 then None else Some((s[..n], s[n..]))
  }

  /** Greedy `\d+`. */
  function TakeNumber(s: string): (r: Option<(string, string)>)
    ensures r.Some? ==> IsNumber(r.value.0) && r.value.0 + r.value.1 == s
  {
    var n := Span(s, Digit);
    if n == 0 then None else Some((s[..n], s[n..]))
  }

  /** Greedy `\s*`. */
  function TakeSpaces(s: string): (r: (string, string))
    ensures All(r.0, Space) && r.0 + r.1 == s
  {
    var n := Span(s, Space);
    (s[..n], s[n..])
  }

  /** `[^d]+d`: a non-empty run free of `d`, then `d` itself. */
  function TakeUntil(s: string, d: char): (r: Option<(string, string)>)
    ensures r.Some? ==> |r.value.0| >= 1 && All(r.value.0, Except(d)) && r.value.0 + ([d] + r.value.1) == s
  {
    var n := Span(s, Except(d));
    if 1 <= n < |s| then Some((s[..n], s[n + 1..])) else None
  }

  /** `\s*(.*)$`: the message after greedy whitespace, which must hold no line terminator. */
  function TakeMessage(s: string): (r: Option<(string, string)>)
    ensures r.Some? ==> All(r.value.0, Space) && IsSingleLine(r.value.1) && r.value.0 + r.value.1 == s
  {
    var (g, m) := TakeSpaces(s);
    if IsSingleLine(m) then Some((g, m)) else None
  }

  lemma TakeGapOf(g: string, rest: string)
    requires IsGap(g) && rest != [] && !IsSpace(rest[0])
    ensures TakeGap(g + rest) == Some((g, rest))
  {
    SpanStops(g, rest, Space);
    assert (g + rest)[..|g|] == g;
  }

  lemma TakeNumberOf(n: string, rest: string)
    requires IsNumber(n) && rest != [] && !IsDigit(rest[0])
    ensures TakeNumber(n + rest) == Some((n, rest))
  {
    SpanStops(n, rest, Digit);
    assert (n + rest)[..|n|] == n;
  }

  lemma TakeSpacesOf(g: string, rest: string)
    requires All(g, Space) && rest != [] && !IsSpace(rest[0])
    ensures TakeSpaces(g + rest) == (g, rest)
  {
    SpanStops(g, rest, Space);
    assert (g + rest)[..|g|] == g;
  }

  lemma TakeUntilOf(t: string, d: char, rest: string)
    requires |t| >= 1 && All(t, Except(d))
    ensures TakeUntil(t + ([d] + rest), d) == Some((t, rest))
  {
    SpanStops(t, [d] + rest, Except(d));
    assert (t + ([d] + rest))[..|t|] == t;
    assert (t + ([d] + rest))[|t| + 1..] == rest;
  }

  /** Whatever whitespace precedes it, the message is the input with its leading whitespace removed. */
  lemma TakeMessageOf(g: string, m: string)
    requires All(g, Space) && IsSingleLine(m)
    ensures TakeMessage(g + m).Some? && TakeMessage(g + m).value.1 == TrimStart(m)
  {
    SpanConcat(g, m, Space);
    TrimStartSpacePrefix(g, m);
    var t := TrimStart(m);
    assert (g + m)[Span(g + m, Space)..] == t;
    assert t == m[|m| - |t|..];
    assert IsSingleLine(t) by {
      forall i | 0 <= i < |t| ensures !IsLineTerminator(t[i]) {
        assert t[i] == m[|m| - |t| + i];
      }
    }
  }

  /** A string is its prefix followed by the rest. */
  lemma SplitAt(s: string, n: nat)
    requires n <= |s|
    ensures s == s[..n] + s[n..]
  {
  }

  // ---------------------------------------------------------------------------
  // The tails the two layouts share

  /** `\s*(.*)$`: whitespace, then a message without line terminators. */
  datatype Tail = Tail(gap: string, msg: string)

  predicate ValidTail(t: Tail) {
    All(t.gap, Space) && IsSingleLine(t.msg)
  }

  function FormatTail(t: Tail): string {
    t.gap + t.msg
  }

  function MatchTail(s: string): (r: Option<Tail>)
    ensures r.Some? ==> ValidTail(r.value) && FormatTail(r.value) == s
  {
    match TakeMessage(s)
    case None => None
    case Some((g, m)) => Some(Tail(g, m))
  }

  /** `\s+([^:]+):` followed by a tail. */
  datatype Tagged = Tagged(gap: string, tagText: string, tail: Tail)

  predicate ValidTagged(t: Tagged) {
    IsGap(t.gap) && |t.tagText| >= 1 && All(t.tagText, Except(':')) && ValidTail(t.tail)
  }

  function FormatTagged(t: Tagged): string {
    t.gap + (t.tagText + ([':'] + FormatTail(t.tail)))
  }

  /** Of the whitespace run, the pattern gives the tag group all but what `\s+` needs;
      only the trimmed tag is used, so the split chosen here is the first character. */
  function MatchTagged(s: string): (r: Option<Tagged>)
    ensures r.Some? ==> ValidTagged(r.value) && FormatTagged(r.value) == s
  {
    if s == [] || !IsSpace(s[0]) then None else
    match TakeUntil(s[1..], ':')
    case None => None
    case Some((tagText, rest)) =>
      match MatchTail(rest)
      case None => None
      case Some(tail) =>
        assert s == s[..1] + s[1..];
        Some(Tagged(s[..1], tagText, tail))
  }

  lemma MatchTailOf(t: Tail)
    requires ValidTail(t)
    ensures MatchTail(FormatTail(t)).Some?
    ensures MatchTail(FormatTail(t)).value.msg == TrimStart(t.msg)
  {
    TakeMessageOf(t.gap, t.msg);
  }

  lemma MatchTaggedOf(t: Tagged)
    requires ValidTagged(t)
    ensures MatchTagged(FormatTagged(t)).Some?
    ensures Trim(MatchTagged(FormatTagged(t)).value.tagText) == Trim(t.tagText)
    ensures MatchTagged(FormatTagged(t)).value.tail.msg == TrimStart(t.tail.msg)
  {
    var g' := t.gap[1..];
    TaggedAfterGap(t);
    TakeUntilOf(g' + t.tagText, ':', FormatTail(t.tail));
    MatchTailOf(t.tail);
    TrimSpacePrefix(g', t.tagText);
  }

  /** After the first whitespace character: the rest of the gap and the tag, up to the colon. */
  lemma TaggedAfterGap(t: Tagged)
    requires ValidTagged(t)
    ensures var s := FormatTagged(t);
      s != [] && IsSpace(s[0]) && s[1..] == (t.gap[1..] + t.tagText) + ([':'] + FormatTail(t.tail))
    ensures |t.gap[1..] + t.tagText| >= 1 && All(t.gap[1..] + t.tagText, Except(':'))
  {
    var s := FormatTagged(t);
    assert s[1..] == (t.gap[1..] + t.tagText) + ([':'] + FormatTail(t.tail));
    assert All(t.gap[1..] + t.tagText, Except(':'));
  }

  // ---------------------------------------------------------------------------
  // Layout 1: ^(\d{2}-\d{2}\s+\d{2}:\d{2}:\d{2}\.\d{3})\s+(\d+)\s+(\d+)\s+([VDIWEFS])\s+([^:]+):\s*(.*)$

  /** `\s+(\d+)\s+(\d+)\s+([VDIWEFS])` followed by the tagged part. */
  datatype Fields = Fields(gap1: string, pid: string, gap2: string, tid: string, gap3: string,
                           level: LogLevel, tagged: Tagged)

  predicate ValidFields(f: Fields) {
    && IsGap(f.gap1) && IsNumber(f.pid) && IsGap(f.gap2) && IsNumber(f.tid) && IsGap(f.gap3)
    && ValidTagged(f.tagged)
  }

  /** The part after the PID: `\s+(\d+)\s+([VDIWEFS])` and the tagged part. */
  function FormatAfterPid(f: Fields): string {
    f.gap2 + (f.tid + (f.gap3 + ([Letter(f.level)] + FormatTagged(f.tagged))))
  }

  function FormatFields(f: Fields): string {
    f.gap1 + (f.pid + FormatAfterPid(f))
  }

  /** `([VDIWEFS])` followed by the tagged part. */
  function MatchLeveled(s: string): (r: Option<(LogLevel, Tagged)>)
    ensures r.Some? ==> ValidTagged(r.value.1) && [Letter(r.value.0)] + FormatTagged(r.value.1) == s
  {
    if s == [] || LevelOf(s[0]).None? then None else
    match MatchTagged(s[1..])
    case None => None
    case Some(tagged) =>
      var level := LevelOf(s[0]).value;
      ConsSplit(s, Letter(level), FormatTagged(tagged));
      Some((level, tagged))
  }

  /** A string is its first character followed by the rest. */
  lemma ConsSplit(s: string, c: char, rest: string)
    requires s != [] && s[0] == c && s[1..] == rest
    ensures [c] + rest == s
  {
    assert s == [s[0]] + s[1..];
  }

  /** `\s+(\d+)\s+([VDIWEFS])` and the tagged part; the gap before the PID and the PID
      itself are filled in by the caller. */
  function MatchAfterPid(s: string, gap1: string, pid: string): (r: Option<Fields>)
    ensures r.Some? ==> r.value.gap1 == gap1 && r.value.pid == pid && FormatAfterPid(r.value) == s
    ensures r.Some? ==> IsGap(r.value.gap2) && IsNumber(r.value.tid) && IsGap(r.value.gap3)
                        && ValidTagged(r.value.tagged)
  {
    match TakeGap(s)
    case None => None
    case Some((gap2, r3)) =>
      match TakeNumber(r3)
      case None => None
      case Some((tid, r4)) =>
        match TakeGap(r4)
        case None => None
        case Some((gap3, r5)) =>
          match MatchLeveled(r5)
          case None => None
          case Some((level, tagged)) =>
            Some(Fields(gap1, pid, gap2, tid, gap3, level, tagged))
  }

  function MatchFields(s: string): (r: Option<Fields>)
    ensures r.Some? ==> ValidFields(r.value) && FormatFields(r.value) == s
  {
    match TakeGap(s)
    case None => None
    case Some((gap1, r1)) =>
      match TakeNumber(r1)
      case None => None
      case Some((pid, r2)) => MatchAfterPid(r2, gap1, pid)
  }

  lemma MatchLeveledOf(level: LogLevel, t: Tagged)
    requires ValidTagged(t)
    ensures MatchLeveled([Letter(level)] + FormatTagged(t)).Some?
    ensures var (l, g) := MatchLeveled([Letter(level)] + FormatTagged(t)).value;
      l == level && Trim(g.tagText) == Trim(t.tagText) && g.tail.msg == TrimStart(t.tail.msg)
  {
    var s := [Letter(level)] + FormatTagged(t);
    assert s[1..] == FormatTagged(t);
    MatchTaggedOf(t);
  }

  /** The parts of a valid line the entry depends on agree. */
  predicate SameFields(g: Fields, f: Fields) {
    g.pid == f.pid && g.level == f.level
    && Trim(g.tagged.tagText) == Trim(f.tagged.tagText)
    && g.tagged.tail.msg == TrimStart(f.tagged.tail.msg)
  }

  lemma MatchAfterPidOf(f: Fields)
    requires ValidFields(f)
    ensures MatchAfterPid(FormatAfterPid(f), f.gap1, f.pid).Some?
    ensures SameFields(MatchAfterPid(FormatAfterPid(f), f.gap1, f.pid).value, f)
  {
    var r5 := [Letter(f.level)] + FormatTagged(f.tagged);
    var r4 := f.gap3 + r5;
    var r3 := f.tid + r4;
    assert r3[0] == f.tid[0] && r4[0] == f.gap3[0] && r5[0] == Letter(f.level);
    NotSpace(f.tid[0]);
    NotSpace(Letter(f.level));
    if IsDigit(f.gap3[0]) { NotSpace(f.gap3[0]); }
    TakeGapOf(f.gap2, r3);
    TakeNumberOf(f.tid, r4);
    TakeGapOf(f.gap3, r5);
    MatchLeveledOf(f.level, f.tagged);
  }

  lemma MatchFieldsOf(f: Fields)
    requires ValidFields(f)
    ensures MatchFields(FormatFields(f)).Some?
    ensures SameFields(MatchFields(FormatFields(f)).value, f)
  {
    var r2 := FormatAfterPid(f);
    var r1 := f.pid + r2;
    assert r1[0] == f.pid[0] && r2[0] == f.gap2[0];
    NotSpace(f.pid[0]);
    if IsDigit(f.gap2[0]) { NotSpace(f.gap2[0]); }
    TakeGapOf(f.gap1, r1);
    TakeNumberOf(f.pid, r2);
    MatchAfterPidOf(f);
  }

  /** A line of layout 1 cut into the pieces of its pattern. */
  datatype StampedLine = StampedLine(date: string, dateGap: string, clock: string, fields: Fields)

  /** Each piece belongs to the language of its sub-pattern. */
  predicate ValidStamped(p: StampedLine) {
    IsDate(p.date) && IsGap(p.dateGap) && IsClock(p.clock) && ValidFields(p.fields)
  }

  /** The pieces put back together, in pattern order. */
  function FormatStamped(p: StampedLine): string {
    p.date + (p.dateGap + (p.clock + FormatFields(p.fields)))
  }

  /** The entry layout 1 yields: the timestamp group, the first number (the TID is dropped),
      the letter, the trimmed tag, and the message after the colon without leading whitespace. */
  function StampedEntry(p: StampedLine, line: string): (r: LogEntry)
    ensures r.raw == line
    ensures FormatStamped(p) == line ==> |r.timestamp| <= |line| && line[..|r.timestamp|] == r.timestamp
  {
    assert FormatStamped(p) == (p.date + p.dateGap + p.clock) + FormatFields(p.fields);
    LogEntry(p.date + p.dateGap + p.clock, p.fields.level, Trim(p.fields.tagged.tagText),
             p.fields.pid, TrimStart(p.fields.tagged.tail.msg), line)
  }

  /** The clock and everything after it. */
  function MatchClocked(s: string): (r: Option<(string, Fields)>)
    ensures r.Some? ==> IsClock(r.value.0) && ValidFields(r.value.1)
                        && r.value.0 + FormatFields(r.value.1) == s
  {
    if |s| < 12 || !IsClock(s[..12]) then None else
    match MatchFields(s[12..])
    case None => None
    case Some(fields) =>
      SplitAt(s, 12);
      Some((s[..12], fields))
  }

  /** The matcher for layout 1: the pieces of `line`, or None when the pattern fails. */
  function MatchStamped(line: string): (r: Option<StampedLine>)
    ensures r.Some? ==> ValidStamped(r.value) && FormatStamped(r.value) == line
    ensures r.Some? ==> IsDigit(line[0])
  {
    if |line| < 5 || !IsDate(line[..5]) then None else
    SplitAt(line, 5);
    match TakeGap(line[5..])
    case None => None
    case Some((dateGap, r0)) =>
      match MatchClocked(r0)
      case None => None
      case Some((clock, fields)) => Some(StampedLine(line[..5], dateGap, clock, fields))
  }

  // ---------------------------------------------------------------------------
  // Layout 2: ^([VDIWEFS])\/([^(]+)\(\s*(\d+)\):\s*(.*)$

  /** A line of layout 2 cut into the pieces of its pattern. */
  datatype BriefLine = BriefLine(level: LogLevel, tagText: string, gap: string, pid: string, tail: Tail)

  predicate ValidBrief(p: BriefLine) {
    |p.tagText| >= 1 && All(p.tagText, Except('(')) && All(p.gap, Space) && IsNumber(p.pid)
    && ValidTail(p.tail)
  }

  /** `\s*(\d+)\):` and the tail. */
  function FormatPidClose(gap: string, pid: string, tail: Tail): string {
    gap + (pid + ("):" + FormatTail(tail)))
  }

  function FormatBrief(p: BriefLine): string {
    [Letter(p.level)] + (['/'] + (p.tagText + (['('] + FormatPidClose(p.gap, p.pid, p.tail))))
  }

  /** The entry layout 2 yields; it carries no timestamp. */
  function BriefEntry(p: BriefLine, line: string): (r: LogEntry)
    ensures r.raw == line && r.timestamp == []
    ensures FormatBrief(p) == line ==> |line| >= 1 && LevelOf(line[0]) == Some(r.level)
  {
    LogEntry("", p.level, Trim(p.tagText), p.pid, TrimStart(p.tail.msg), line)
  }

  function MatchPidClose(s: string): (r: Option<(string, string, Tail)>)
    ensures r.Some? ==> All(r.value.0, Space) && IsNumber(r.value.1) && ValidTail(r.value.2)
                        && FormatPidClose(r.value.0, r.value.1, r.value.2) == s
  {
    var (gap, r1) := TakeSpaces(s);
    match TakeNumber(r1)
    case None => None
    case Some((pid, r2)) =>
      if |r2| < 2 || r2[..2] != "):" then None else
      SplitAt(r2, 2);
      match MatchTail(r2[2..])
      case None => None
      case Some(tail) => Some((gap, pid, tail))
  }

  function MatchBrief(line: string): (r: Option<BriefLine>)
    ensures r.Some? ==> ValidBrief(r.value) && FormatBrief(r.value) == line
    ensures r.Some? ==> LevelOf(line[0]).Some?
  {
    if |line| < 2 || LevelOf(line[0]).None? || line[1] != '/' then None else
    var level := LevelOf(line[0]).value;
    assert line == [Letter(level)] + (['/'] + line[2..]);
    match TakeUntil(line[2..], '(')
    case None => None
    case Some((tagText, r0)) =>
      match MatchPidClose(r0)
      case None => None
      case Some((gap, pid, tail)) => Some(BriefLine(level, tagText, gap, pid, tail))
  }

  // ---------------------------------------------------------------------------
  // The parser

  /** The entry for a line that matches neither layout. */
  function FallbackEntry(line: string): (r: LogEntry)
    ensures r.message == line && r.raw == line && r.level == I
    ensures r.tag == [] && r.pid == [] && r.timestamp == []
  {
    LogEntry("", I, "", "", line, line)
  }

  /** `parseLogLine`: layout 1, else layout 2, else a plain info entry; a blank line gives None.
      Every entry keeps the line as `raw`. */
  function ParseLogLine(line: string): (r: Option<LogEntry>)
    ensures r.None? <==> IsBlank(line)
    ensures r.Some? ==> r.value.raw == line
  {
    match MatchStamped(line)
    case Some(p) =>
      LeadingNonSpace(line);
      Some(StampedEntry(p, line))
    case None =>
      match MatchBrief(line)
      case Some(p) =>
        LeadingNonSpace(line);
        Some(BriefEntry(p, line))
      case None =>
        if !IsBlank(line) then Some(FallbackEntry(line)) else None
  }

  /** A line that starts with a digit or a level letter, as both layouts do, is not blank. */
  lemma LeadingNonSpace(line: string)
    requires line != [] && (IsDigit(line[0]) || LevelOf(line[0]).Some?)
    ensures !IsBlank(line)
  {
    NotSpace(line[0]);
  }

  /** Every line of layout 1, whatever its whitespace, parses to the entry its pattern groups give. */
  lemma StampedComplete(p: StampedLine)
    requires ValidStamped(p)
    ensures ParseLogLine(FormatStamped(p)) == Some(StampedEntry(p, FormatStamped(p)))
  {
    MatchStampedOf(p);
  }

  lemma MatchClockedOf(clock: string, f: Fields)
    requires IsClock(clock) && ValidFields(f)
    ensures MatchClocked(clock + FormatFields(f)).Some?
    ensures MatchClocked(clock + FormatFields(f)).value.0 == clock
    ensures SameFields(MatchClocked(clock + FormatFields(f)).value.1, f)
  {
    var s := clock + FormatFields(f);
    assert s[..12] == clock && s[12..] == FormatFields(f);
    MatchFieldsOf(f);
  }

  lemma MatchStampedOf(p: StampedLine)
    requires ValidStamped(p)
    ensures MatchStamped(FormatStamped(p)).Some?
    ensures var q := MatchStamped(FormatStamped(p)).value;
      q.date + q.dateGap + q.clock == p.date + p.dateGap + p.clock && SameFields(q.fields, p.fields)
  {
    var line := FormatStamped(p);
    var r0 := p.clock + FormatFields(p.fields);
    assert line[..5] == p.date && line[5..] == p.dateGap + r0;
    assert r0[0] == p.clock[0];
    NotSpace(p.clock[0]);
    TakeGapOf(p.dateGap, r0);
    MatchClockedOf(p.clock, p.fields);
  }

  lemma MatchPidCloseOf(gap: string, pid: string, tail: Tail)
    requires All(gap, Space) && IsNumber(pid) && ValidTail(tail)
    ensures MatchPidClose(FormatPidClose(gap, pid, tail)) != None
    ensures var (_, pid', tail') := MatchPidClose(FormatPidClose(gap, pid, tail)).value;
      pid' == pid && tail'.msg == TrimStart(tail.msg)
  {
    var r2 := "):" + FormatTail(tail);
    var r1 := pid + r2;
    assert r1[0] == pid[0] && r2[0] == ')';
    NotSpace(pid[0]);
    TakeSpacesOf(gap, r1);
    TakeNumberOf(pid, r2);
    assert r2[..2] == "):" && r2[2..] == FormatTail(tail);
    MatchTailOf(tail);
  }

  /** Every line of layout 2 parses to the entry its pattern groups give. */
  lemma BriefComplete(p: BriefLine)
    requires ValidBrief(p)
    ensures ParseLogLine(FormatBrief(p)) == Some(BriefEntry(p, FormatBrief(p)))
  {
    var line := FormatBrief(p);
    var r0 := FormatPidClose(p.gap, p.pid, p.tail);
    assert line[0] == Letter(p.level) && line[1] == '/';
    assert !IsDigit(line[0]);
    assert MatchStamped(line) == None;
    assert line[2..] == p.tagText + (['('] + r0);
    TakeUntilOf(p.tagText, '(', r0);
    MatchPidCloseOf(p.gap, p.pid, p.tail);
  }

  // ---------------------------------------------------------------------------
  // Worked examples and the output of `logcat -v time`

  /** The layout-2 pieces of a line with two spaces before the PID, one after the colon. */
  function SimpleBrief(level: LogLevel, tag: string, pid: string, msg: string): (p: BriefLine)
    ensures FormatBrief(p) == [Letter(level)] + "/" + tag + "(  " + pid + "): " + msg
  {
    BriefLine(level, tag, "  ", pid, Tail(" ", msg))
  }

  /** `E/Crashy(  987): fatal error`. */
  lemma ExampleBrief(tag: string, pid: string, msg: string)
    requires tag == "Crashy" && pid == "987" && msg == "fatal error"
    ensures var line := "E/" + tag + "(  " + pid + "): " + msg;
      ParseLogLine(line) == Some(LogEntry("", E, tag, pid, msg, line))
  {
    var p := SimpleBrief(E, tag, pid, msg);
    assert ValidBrief(p) by {
      assert IsSingleLine(msg);
      assert IsNumber(pid);
      assert All(tag, Except('('));
    }
    assert [Letter(E)] + "/" == "E/";
    NotSpace(tag[0]); NotSpace(tag[|tag| - 1]); NotSpace(msg[0]);
    SpanUnique(msg, Space, 0);
    TrimIdentity(tag);
    BriefComplete(p);
  }

  /** The layout-1 pieces of a line with single spaces, a level `I` and the given texts. */
  function SimpleStamped(date: string, clock: string, pid: string, tid: string, tag: string, msg: string): (p: StampedLine)
    ensures FormatStamped(p) == date + " " + clock + " " + pid + " " + tid + " I " + tag + ": " + msg
  {
    StampedLine(date, " ", clock, Fields(" ", pid, " ", tid, " ", I, Tagged(" ", tag, Tail(" ", msg))))
  }

  /** `06-15 10:23:01.123 1234 1234 I MyTag: Hello world`. */
  lemma ExampleStamped(date: string, clock: string, pid: string, tid: string, tag: string, msg: string)
    requires date == "06-15" && clock == "10:23:01.123" && pid == "1234" && tid == "1234"
    requires tag == "MyTag" && msg == "Hello world"
    ensures var line := date + " " + clock + " " + pid + " " + tid + " I " + tag + ": " + msg;
      ParseLogLine(line) == Some(LogEntry(date + " " + clock, I, tag, pid, msg, line))
  {
    var p := SimpleStamped(date, clock, pid, tid, tag, msg);
    assert ValidStamped(p) by {
      assert IsSingleLine(msg);
      assert All(tag, Except(':'));
      assert IsDate(date) && IsClock(clock) && IsNumber(pid) && IsNumber(tid);
    }
    NotSpace(tag[0]); NotSpace(tag[|tag| - 1]); NotSpace(msg[0]);
    SpanUnique(msg, Space, 0);
    TrimIdentity(tag);
    StampedComplete(p);
  }

  /** After the gap that follows the clock, layout 1 needs a digit. */
  lemma FieldsNeedDigit(gap: string, rest: string)
    requires IsGap(gap) && rest != [] && !IsDigit(rest[0]) && !IsSpace(rest[0])
    ensures MatchFields(gap + rest) == None
  {
    TakeGapOf(gap, rest);
  }

  lemma ClockedNeedsDigit(clock: string, gap: string, rest: string)
    requires IsClock(clock) && IsGap(gap) && rest != [] && !IsDigit(rest[0]) && !IsSpace(rest[0])
    ensures MatchClocked(clock + (gap + rest)) == None
  {
    var s := clock + (gap + rest);
    assert s[..12] == clock && s[12..] == gap + rest;
    FieldsNeedDigit(gap, rest);
  }

  lemma StampedNeedsDigit(date: string, dateGap: string, clock: string, gap: string, rest: string)
    requires IsDate(date) && IsGap(dateGap) && IsClock(clock) && IsGap(gap)
    requires rest != [] && !IsDigit(rest[0]) && !IsSpace(rest[0])
    ensures MatchStamped(date + (dateGap + (clock + (gap + rest)))) == None
  {
    var r0 := clock + (gap + rest);
    var line := date + (dateGap + r0);
    assert line[..5] == date && line[5..] == dateGap + r0;
    assert r0[0] == clock[0];
    NotSpace(clock[0]);
    TakeGapOf(dateGap, r0);
    ClockedNeedsDigit(clock, gap, rest);
  }

  /** A timestamp followed by whitespace and then something other than a digit matches
      neither layout. The lines of `logcat -v time` (`MM-DD HH:MM:SS.mmm L/Tag( PID): msg`)
      are of this shape, so each becomes a plain info entry holding the whole line. */
  lemma TimeFormatIsFallback(date: string, dateGap: string, clock: string, gap: string, rest: string)
    requires IsDate(date) && IsGap(dateGap) && IsClock(clock) && IsGap(gap)
    requires rest != [] && !IsDigit(rest[0]) && !IsSpace(rest[0])
    ensures var line := date + (dateGap + (clock + (gap + rest)));
      ParseLogLine(line) == Some(FallbackEntry(line))
  {
    var line := date + (dateGap + (clock + (gap + rest)));
    StampedNeedsDigit(date, dateGap, clock, gap, rest);
    assert line[0] == date[0];
    NotSpace(line[0]);
    assert LevelOf(line[0]) == None;
  }

  /** `06-15 10:23:01.123 I/MyTag( 1234): Hello world`, as `logcat -v time` prints it. */
  lemma ExampleTimeFormat()
    ensures var line := "06-15" + (" " + ("10:23:01.123" + (" " + "I/MyTag( 1234): Hello world")));
      ParseLogLine(line) == Some(FallbackEntry(line))
  {
    assert IsDate("06-15") && IsGap(" ") && IsClock("10:23:01.123");
    NotSpace('I');
    TimeFormatIsFallback("06-15", " ", "10:23:01.123", " ", "I/MyTag( 1234): Hello world");
  }

  /** `.` does not match a line terminator, so a line ending in one (a `\r` left over from a
      CRLF stream) keeps a recognised layout only when everything after the colon is
      whitespace, which `\s*` consumes and leaves an empty message. Any line ending in a line
      terminator that yields a non-empty message is therefore a fallback entry. */
  lemma TrailingTerminator(line: string)
    requires line != [] && IsLineTerminator(line[|line| - 1])
    requires ParseLogLine(line).Some? && ParseLogLine(line).value.message != []
    ensures ParseLogLine(line) == Some(FallbackEntry(line))
  {
    if MatchStamped(line).Some? {
      var p := MatchStamped(line).value;
      assert ParseLogLine(line).value.message == TrimStart(p.fields.tagged.tail.msg);
      StampedEndsWithMessage(p);
      assert false;
    } else if MatchBrief(line).Some? {
      var p := MatchBrief(line).value;
      assert ParseLogLine(line).value.message == TrimStart(p.tail.msg);
      BriefEndsWithMessage(p);
      assert false;
    }
  }

  /** A matched line ends with the matched message. */
  lemma StampedEndsWithMessage(p: StampedLine)
    requires TrimStart(p.fields.tagged.tail.msg) != []
    ensures var line, m := FormatStamped(p), p.fields.tagged.tail.msg;
      |m| <= |line| && line[|line| - 1] == m[|m| - 1]
  {
  }

  lemma BriefEndsWithMessage(p: BriefLine)
    requires TrimStart(p.tail.msg) != []
    ensures var line, m := FormatBrief(p), p.tail.msg;
      |m| <= |line| && line[|line| - 1] == m[|m| - 1]
  {
  }

  // ---------------------------------------------------------------------------
  // Filtering

  /** The level threshold: an entry passes when its level comes no earlier in the order. */
  predicate PassesLevel(l: LogLevel, threshold: LogLevel)
    ensures PassesLevel(l, threshold) <==> Letter(threshold) in "VDIWEFS"[..Rank(l) + 1]
  {
    assert "VDIWEFS"[..Rank(l) + 1][Rank(l)] == Letter(l);
    assert Rank(threshold) <= Rank(l) ==> "VDIWEFS"[..Rank(l) + 1][Rank(threshold)] == Letter(threshold);
    Rank(l) >= Rank(threshold)
  }

  /** What the text filter searches: tag, a space, and message, each lower-cased. */
  function SearchText(e: LogEntry): (r: string)
    ensures r == ToLower(e.tag) + " " + ToLower(e.message)
  {
    ToLowerAppend(e.tag, " " + e.message);
    ToLowerAppend(" ", e.message);
    ToLower(e.tag + " " + e.message)
  }

  /** `shouldShowEntry`; `filterText` is the stored, already lower-cased filter. */
  predicate ShouldShowEntry(e: LogEntry, threshold: LogLevel, filterText: string)
    ensures ShouldShowEntry(e, threshold, filterText) <==>
      PassesLevel(e.level, threshold) && (filterText == [] || exists k: nat :: MatchAt(SearchText(e), filterText, k))
  {
    IncludesIff(SearchText(e), filterText);
    PassesLevel(e.level, threshold) && (filterText == [] || Includes(SearchText(e), filterText))
  }

  /** Raising an entry's level never hides it. */
  lemma LevelFilterMonotonic(e: LogEntry, threshold: LogLevel, filterText: string, higher: LogLevel)
    requires ShouldShowEntry(e, threshold, filterText)
    requires Rank(higher) >= Rank(e.level)
    ensures ShouldShowEntry(e.(level := higher), threshold, filterText)
  {
  }

  /** Threshold `V` with no text shows everything. */
  lemma VerboseShowsAll(e: LogEntry)
    ensures ShouldShowEntry(e, V, [])
  {
  }

  /** An empty filter text imposes no text condition. */
  lemma EmptyTextOnlyLevel(e: LogEntry, threshold: LogLevel)
    ensures ShouldShowEntry(e, threshold, []) <==> PassesLevel(e.level, threshold)
  {
  }

  /** The text filter is case-insensitive: with the filter stored as `pattern.toLowerCase()`,
      an entry of a passing level is shown exactly when its tag-and-message contains some
      text `q` that equals `pattern` up to case. */
  lemma TextFilterIgnoresCase(e: LogEntry, threshold: LogLevel, pattern: string)
    ensures ShouldShowEntry(e, threshold, ToLower(pattern)) <==>
      PassesLevel(e.level, threshold)
      && (pattern == [] || exists q: string, k: nat :: MatchAt(e.tag + " " + e.message, q, k) && ToLower(q) == ToLower(pattern))
  {
    var s := e.tag + " " + e.message;
    assert SearchText(e) == ToLower(s);
    if exists q: string, k: nat :: MatchAt(s, q, k) && ToLower(q) == ToLower(pattern) {
      var q: string, k: nat :| MatchAt(s, q, k) && ToLower(q) == ToLower(pattern);
      IncludesLowered(s, q, k);
    }
    if Includes(ToLower(s), ToLower(pattern)) {
      IncludesUnlowered(s, ToLower(pattern));
    }
  }

  /** An occurrence in the lower-cased text comes from text that lower-cases to it. */
  lemma IncludesUnlowered(s: string, t: string)
    requires Includes(ToLower(s), t)
    ensures exists q: string, k: nat :: MatchAt(s, q, k) && ToLower(q) == t
  {
    IncludesIff(ToLower(s), t);
    var j: nat :| MatchAt(ToLower(s), t, j);
    ToLowerSlice(s, j, j + |t|);
    assert MatchAt(s, s[j..j + |t|], j);
  }

  /** A non-blank line that no layout-1 or layout-2 piece sequence formats to is a plain
      info entry carrying the whole line. */
  lemma FallbackGeneral(line: string)
    requires !IsBlank(line)
    requires forall p :: ValidStamped(p) ==> FormatStamped(p) != line
    requires forall p :: ValidBrief(p) ==> FormatBrief(p) != line
    ensures ParseLogLine(line) == Some(FallbackEntry(line))
  {
  }

  /** The entries of `s` that pass the filter, in order. */
  function FilterEntries(s: seq<LogEntry>, threshold: LogLevel, filterText: string): (r: seq<LogEntry>)
    ensures |r| <= |s|
    ensures forall i :: 0 <= i < |r| ==> ShouldShowEntry(r[i], threshold, filterText)
  {
    if s == [] then []
    else
      var last := s[|s| - 1];
      FilterEntries(s[..|s| - 1], threshold, filterText)
        + (if ShouldShowEntry(last, threshold, filterText) then [last] else [])
  }

  /** An entry is shown exactly when it is in `s` and passes the filter. */
  lemma {:induction false} FilterEntriesMembers(s: seq<LogEntry>, threshold: LogLevel, filterText: string, e: LogEntry)
    ensures e in FilterEntries(s, threshold, filterText) <==> e in s && ShouldShowEntry(e, threshold, filterText)
  {
    if s != [] {
      FilterEntriesMembers(s[..|s| - 1], threshold, filterText, e);
      assert s == s[..|s| - 1] + [s[|s| - 1]];
    }
  }

  lemma {:induction false} FilterEntriesAppend(a: seq<LogEntry>, b: seq<LogEntry>, threshold: LogLevel, filterText: string)
    ensures FilterEntries(a + b, threshold, filterText)
         == FilterEntries(a, threshold, filterText) + FilterEntries(b, threshold, filterText)
    decreases |b|
  {
    if b == [] {
      assert a + b == a;
    } else {
      assert (a + b)[..|a + b| - 1] == a + b[..|b| - 1];
      FilterEntriesAppend(a, b[..|b| - 1], threshold, filterText);
    }
  }

  /** The entries parsed from `lines`, in order, blank lines skipped. */
  function ParseAll(lines: seq<string>): (r: seq<LogEntry>)
    ensures |r| <= |lines|
  {
    if lines == [] then []
    else
      var e := ParseLogLine(lines[|lines| - 1]);
      ParseAll(lines[..|lines| - 1]) + (if e.Some? then [e.value] else [])
  }

  /** Exactly the non-blank lines produce entries, each keeping its line as `raw`. */
  lemma {:induction false} ParseAllRaw(lines: seq<string>)
    ensures |ParseAll(lines)| == |NonBlank(lines)|
    ensures forall i :: 0 <= i < |ParseAll(lines)| ==> ParseAll(lines)[i].raw == NonBlank(lines)[i]
  {
    if lines != [] {
      var init := lines[..|lines| - 1];
      var last := lines[|lines| - 1];
      ParseAllRaw(init);
      assert lines == init + [last];
      NonBlankAppend(init, [last]);
      assert NonBlank([last]) == (if IsBlank(last) then [] else [last]);
      RawSnoc(ParseAll(init), NonBlank(init), ParseLogLine(last), last);
    }
  }

  /** One more line keeps entries and non-blank lines aligned. */
  lemma RawSnoc(es: seq<LogEntry>, raws: seq<string>, e: Option<LogEntry>, last: string)
    requires |es| == |raws| && forall i :: 0 <= i < |es| ==> es[i].raw == raws[i]
    requires e.None? <==> IsBlank(last)
    requires e.Some? ==> e.value.raw == last
    ensures var es' := es + (if e.Some? then [e.value] else []);
      var raws' := raws + (if IsBlank(last) then [] else [last]);
      |es'| == |raws'| && forall i :: 0 <= i < |es'| ==> es'[i].raw == raws'[i]
  {
  }

  lemma {:induction false} ParseAllAppend(a: seq<string>, b: seq<string>)
    ensures ParseAll(a + b) == ParseAll(a) + ParseAll(b)
    decreases |b|
  {
    if b == [] {
      assert a + b == a;
    } else {
      assert (a + b)[..|a + b| - 1] == a + b[..|b| - 1];
      ParseAllAppend(a, b[..|b| - 1]);
    }
  }
}
