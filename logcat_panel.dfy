/** The viewer's log panel: the bounded history of parsed entries, the level and text
    filter, the list of displayed lines, and the visibility switch that connects and
    disconnects the log client. The displayed list stands for the DOM lines, each named by
    the entry it renders; the panel's calls into its client are recorded in order. */
module LogcatPanel {
  import opened Text
  import opened LogLine

  /** `maxEntries`. */
  const MaxEntries: nat := 5000

  /** The calls the panel makes on its `LogcatClient`. */
  datatype ClientCall = ConnectCall | DisconnectCall | ClearCall

  /** The last `n` elements of `s` (all of `s` when it is shorter). */
  function LastN<T>(s: seq<T>, n: nat): (r: seq<T>)
    ensures |r| == if |s| <= n then |s| else n
    ensures r == s[|s| - |r|..]
  {
    if |s| <= n then s else s[|s| - n..]
  }

  /** Keeping the last `n` of a sequence that already fits keeps all of it, and keeping the
      last `n` never reorders: the result is a suffix that ends with the newest element. */
  lemma LastNFits<T>(s: seq<T>, n: nat)
    requires |s| <= n
    ensures LastN(s, n) == s
  {
  }

  /** Trimming a buffer after each batch is trimming once after all of them: the history does
      not depend on how the incoming lines are cut into batches. */
  lemma LastNAppend<T>(a: seq<T>, b: seq<T>, n: nat)
    ensures LastN(LastN(a, n) + b, n) == LastN(a + b, n)
  {
    var k := |a| - |LastN(a, n)|;
    assert a + b == a[..k] + (LastN(a, n) + b);
    assert (a + b)[k..] == LastN(a, n) + b;
  }

  /** The displayed list after a batch: one leading line removed per evicted entry (while
      there are lines left), then the batch's passing entries appended. */
  function ViewAfterAdd(view: seq<LogEntry>, evicted: nat, fragment: seq<LogEntry>): (r: seq<LogEntry>)
    ensures var kept := if evicted <= |view| then |view| - evicted else 0;
      |r| == kept + |fragment| && r[..kept] == view[|view| - kept..] && r[kept..] == fragment
  {
    (if evicted <= |view| then view[evicted..] else []) + fragment
  }

  /** Without eviction the incremental update keeps the display equal to the filtered history. */
  lemma AddKeepsViewWithoutEviction(entries: seq<LogEntry>, batch: seq<LogEntry>, threshold: LogLevel, filterText: string)
    requires |entries| + |batch| <= MaxEntries
    ensures LastN(entries + batch, MaxEntries) == entries + batch
    ensures ViewAfterAdd(FilterEntries(entries, threshold, filterText), 0,
                         FilterEntries(batch, threshold, filterText))
         == FilterEntries(entries + batch, threshold, filterText)
  {
    FilterEntriesAppend(entries, batch, threshold, filterText);
  }

  /** With eviction it need not: when the oldest entry was hidden by the filter, the update
      still removes the first displayed line, which renders an entry that stays in history. */
  lemma EvictionCanDropShownLine(entries: seq<LogEntry>, e: LogEntry, threshold: LogLevel, filterText: string)
    requires |entries| == MaxEntries
    requires !ShouldShowEntry(entries[0], threshold, filterText)
    requires FilterEntries(entries, threshold, filterText) != []
    ensures var kept := LastN(entries + [e], MaxEntries);
      kept == entries[1..] + [e]
      && ViewAfterAdd(FilterEntries(entries, threshold, filterText), 1,
                      FilterEntries([e], threshold, filterText))
         != FilterEntries(kept, threshold, filterText)
  {
    var rest := entries[1..];
    FilterFront(entries, threshold, filterText);
    var shown := FilterEntries(rest, threshold, filterText);
    assert (entries + [e])[1..] == rest + [e];
    FilterEntriesStep(rest, e, threshold, filterText);
    FilterEntriesStep([], e, threshold, filterText);
    assert [] + [e] == [e];
  }

  lemma ParseAllStep(history: seq<LogEntry>, lines: seq<string>, i: nat)
    requires i < |lines|
    ensures ParseLogLine(lines[i]).None? ==> ParseAll(lines[..i + 1]) == ParseAll(lines[..i])
    ensures ParseLogLine(lines[i]).Some? ==>
      && ParseAll(lines[..i + 1]) == ParseAll(lines[..i]) + [ParseLogLine(lines[i]).value]
      && history + ParseAll(lines[..i + 1]) == history + ParseAll(lines[..i]) + [ParseLogLine(lines[i]).value]
  {
    assert lines[..i + 1][..i] == lines[..i];
    if ParseLogLine(lines[i]).Some? {
      AppendAssoc(history, ParseAll(lines[..i]), [ParseLogLine(lines[i]).value]);
    } else {
      AppendEmpty(ParseAll(lines[..i]));
    }
  }

  lemma AppendEmpty<T>(a: seq<T>)
    ensures a + [] == a
  {
  }

  lemma FilterEntriesStep(s: seq<LogEntry>, e: LogEntry, threshold: LogLevel, filterText: string)
    ensures FilterEntries(s + [e], threshold, filterText)
         == FilterEntries(s, threshold, filterText) + (if ShouldShowEntry(e, threshold, filterText) then [e] else [])
  {
    assert (s + [e])[..|s|] == s;
  }

  /** Filtering a non-empty sequence: its first entry, if it passes, then the rest filtered. */
  lemma FilterFront(s: seq<LogEntry>, threshold: LogLevel, filterText: string)
    requires s != []
    ensures FilterEntries(s, threshold, filterText)
         == (if ShouldShowEntry(s[0], threshold, filterText) then [s[0]] else [])
            + FilterEntries(s[1..], threshold, filterText)
  {
    assert s == [s[0]] + s[1..];
    FilterEntriesAppend([s[0]], s[1..], threshold, filterText);
    FilterEntriesStep([], s[0], threshold, filterText);
    assert [] + [s[0]] == [s[0]];
  }

  class Panel {
    /** The history, oldest first. */
    var entries: seq<LogEntry>
    /** The displayed lines, top first. */
    ghost var view: seq<LogEntry>
    /** The stored text filter: the input's value, lower-cased. */
    var filterText: string
    var filterLevel: LogLevel
    var isVisible: bool
    /** The calls made on the client so far. */
    ghost var calls: seq<ClientCall>

    ghost predicate Valid()
      reads this
    {
      |entries| <= MaxEntries && ToLower(filterText) == filterText
    }

    constructor ()
      ensures Valid()
      ensures entries == [] && view == [] && filterText == [] && filterLevel == V
      ensures !isVisible && calls == []
    {
      entries := [];
      view := [];
      filterText := [];
      filterLevel := V;
      isVisible := false;
      calls := [];
    }

    /** `addLines`: parse each line, push the entries, collect the passing ones; then shift off
        the oldest entries beyond the capacity, removing one displayed line for each; then
        append the collected lines. */
    method AddLines(lines: seq<string>)
      requires Valid()
      modifies this
      ensures Valid()
      ensures entries == LastN(old(entries) + ParseAll(lines), MaxEntries)
      ensures view == ViewAfterAdd(old(view), |old(entries)| + |ParseAll(lines)| - |entries|,
                                   FilterEntries(ParseAll(lines), filterLevel, filterText))
      ensures filterText == old(filterText) && filterLevel == old(filterLevel)
      ensures isVisible == old(isVisible) && calls == old(calls)
    {
      var fragment := PushParsed(lines);
      ghost var all := entries;
      TrimToCapacity();
      assert |all| - |entries| <= |old(view)| ==> view == old(view)[|all| - |entries|..];
      view := view + fragment;
    }

    /** The loop of `addLines`: push every parsed entry and collect the passing ones. */
    method PushParsed(lines: seq<string>) returns (fragment: seq<LogEntry>)
      modifies this
      ensures entries == old(entries) + ParseAll(lines)
      ensures fragment == FilterEntries(ParseAll(lines), filterLevel, filterText)
      ensures view == old(view) && filterText == old(filterText) && filterLevel == old(filterLevel)
      ensures isVisible == old(isVisible) && calls == old(calls)
    {
      var pushed, level, text := entries, filterLevel, filterText;
      fragment := [];
      for i := 0 to |lines|
        invariant pushed == old(entries) + ParseAll(lines[..i])
        invariant fragment == FilterEntries(ParseAll(lines[..i]), level, text)
        modifies {}
      {
        var entry := ParseLogLine(lines[i]);
        ParseAllStep(old(entries), lines, i);
        if entry.Some? {
          FilterEntriesStep(ParseAll(lines[..i]), entry.value, level, text);
          pushed := pushed + [entry.value];
          if ShouldShowEntry(entry.value, level, text) {
            fragment := fragment + [entry.value];
          }
        }
      }
      assert lines[..|lines|] == lines;
      entries := pushed;
    }

    /** The `while` loop of `addLines`: shift the oldest entry off until the history fits,
        removing the first displayed line each time there is one. */
    method TrimToCapacity()
      modifies this
      ensures entries == LastN(old(entries), MaxEntries)
      ensures var evicted := |old(entries)| - |entries|;
        view == if evicted <= |old(view)| then old(view)[evicted..] else []
      ensures filterText == old(filterText) && filterLevel == old(filterLevel)
      ensures isVisible == old(isVisible) && calls == old(calls)
    {
      var kept := entries;
      ghost var shown := view;
      var evicted := 0;
      while |kept| > MaxEntries
        invariant evicted <= |entries| && kept == entries[evicted..]
        invariant |entries| > MaxEntries ==> evicted <= |entries| - MaxEntries
        invariant |entries| <= MaxEntries ==> evicted == 0
        invariant shown == if evicted <= |view| then view[evicted..] else []
        modifies {}
      {
        kept := kept[1..];
        if |shown| > 0 {
          shown := shown[1..];
        }
        evicted := evicted + 1;
      }
      entries, view := kept, shown;
    }

    /** The display shows exactly the history's entries that pass the filter, in order. */
    ghost predicate Synced()
      reads this
    {
      view == FilterEntries(entries, filterLevel, filterText)
    }

    /** `addLines` as intended: the same history, but a displayed line is removed only for an
        evicted entry that is displayed, so the display stays in step with the history. */
    method AddLinesSynced(lines: seq<string>)
      requires Valid() && Synced()
      modifies this
      ensures Valid() && Synced()
      ensures entries == LastN(old(entries) + ParseAll(lines), MaxEntries)
      ensures filterText == old(filterText) && filterLevel == old(filterLevel)
      ensures isVisible == old(isVisible) && calls == old(calls)
    {
      ghost var before := entries;
      var fragment := PushParsed(lines);
      FilterEntriesAppend(before, ParseAll(lines), filterLevel, filterText);
      view := view + fragment;
      TrimToCapacitySynced();
    }

    /** The trimming loop as intended: shift the oldest entry off until the history fits,
        removing the first displayed line exactly when the shifted entry is displayed. */
    method TrimToCapacitySynced()
      requires Synced()
      modifies this
      ensures Synced() && entries == LastN(old(entries), MaxEntries)
      ensures filterText == old(filterText) && filterLevel == old(filterLevel)
      ensures isVisible == old(isVisible) && calls == old(calls)
    {
      var kept := entries;
      ghost var shown := view;
      var evicted := 0;
      while |kept| > MaxEntries
        invariant evicted <= |entries| && kept == entries[evicted..]
        invariant |entries| > MaxEntries ==> evicted <= |entries| - MaxEntries
        invariant |entries| <= MaxEntries ==> evicted == 0
        invariant shown == FilterEntries(kept, filterLevel, filterText)
        modifies {}
      {
        FilterFront(kept, filterLevel, filterText);
        if ShouldShowEntry(kept[0], filterLevel, filterText) {
          shown := shown[1..];
        }
        kept := kept[1..];
        evicted := evicted + 1;
      }
      entries, view := kept, shown;
    }

    /** `applyFilter`: rebuild the display from the whole history; the history is untouched. */
    method ApplyFilter()
      modifies this
      ensures view == FilterEntries(entries, filterLevel, filterText)
      ensures entries == old(entries) && filterText == old(filterText) && filterLevel == old(filterLevel)
      ensures isVisible == old(isVisible) && calls == old(calls)
    {
      var fragment: seq<LogEntry> := [];
      for i := 0 to |entries|
        invariant fragment == FilterEntries(entries[..i], filterLevel, filterText)
      {
        assert entries[..i + 1][..i] == entries[..i];
        if ShouldShowEntry(entries[i], filterLevel, filterText) {
          fragment := fragment + [entries[i]];
        }
      }
      assert entries[..|entries|] == entries;
      view := fragment;
    }

    /** The filter input's `input` handler. */
    method SetFilterText(value: string)
      requires Valid()
      modifies this
      ensures Valid()
      ensures filterText == ToLower(value) && view == FilterEntries(entries, filterLevel, filterText)
      ensures entries == old(entries) && filterLevel == old(filterLevel)
      ensures isVisible == old(isVisible) && calls == old(calls)
    {
      filterText := ToLower(value);
      ToLowerIdempotent(value);
      ApplyFilter();
    }

    /** The level select's `change` handler. */
    method SetFilterLevel(level: LogLevel)
      requires Valid()
      modifies this
      ensures Valid()
      ensures filterLevel == level && view == FilterEntries(entries, filterLevel, filterText)
      ensures entries == old(entries) && filterText == old(filterText)
      ensures isVisible == old(isVisible) && calls == old(calls)
    {
      filterLevel := level;
      ApplyFilter();
    }

    /** `clear`: ask the client to clear the device log, and empty history and display. */
    method Clear()
      requires Valid()
      modifies this
      ensures Valid()
      ensures entries == [] && view == [] && calls == old(calls) + [ClearCall]
      ensures filterText == old(filterText) && filterLevel == old(filterLevel) && isVisible == old(isVisible)
    {
      calls := calls + [ClearCall];
      entries := [];
      view := [];
    }

    /** The client's `cleared` event: empty history and display, with no call back. */
    method OnCleared()
      requires Valid()
      modifies this
      ensures Valid()
      ensures entries == [] && view == [] && calls == old(calls)
      ensures filterText == old(filterText) && filterLevel == old(filterLevel) && isVisible == old(isVisible)
    {
      entries := [];
      view := [];
    }

    /** `show`: connects only on the hidden-to-visible transition. */
    method Show()
      modifies this
      ensures isVisible
      ensures calls == old(calls) + (if old(isVisible) then [] else [ConnectCall])
      ensures entries == old(entries) && view == old(view)
      ensures filterText == old(filterText) && filterLevel == old(filterLevel)
    {
      if !isVisible {
        isVisible := true;
        calls := calls + [ConnectCall];
      }
    }

    /** `hide`: disconnects only on the visible-to-hidden transition. */
    method Hide()
      modifies this
      ensures !isVisible
      ensures calls == old(calls) + (if old(isVisible) then [DisconnectCall] else [])
      ensures entries == old(entries) && view == old(view)
      ensures filterText == old(filterText) && filterLevel == old(filterLevel)
    {
      if isVisible {
        isVisible := false;
        calls := calls + [DisconnectCall];
      }
    }

    /** `toggle`: flips visibility, connecting or disconnecting accordingly. */
    method Toggle()
      modifies this
      ensures isVisible == !old(isVisible)
      ensures calls == old(calls) + [if old(isVisible) then DisconnectCall else ConnectCall]
      ensures entries == old(entries) && view == old(view)
      ensures filterText == old(filterText) && filterLevel == old(filterLevel)
    {
      if isVisible {
        Hide();
      } else {
        Show();
      }
    }

    /** `release`: disconnects whatever the visibility; the flag itself is left as it was. */
    method Release()
      modifies this
      ensures calls == old(calls) + [DisconnectCall]
      ensures isVisible == old(isVisible) && entries == old(entries) && view == old(view)
      ensures filterText == old(filterText) && filterLevel == old(filterLevel)
    {
      calls := calls + [DisconnectCall];
    }
  }

  /** Calls alternate: from a fresh panel, any sequence of `show`, `hide` and `toggle` issues
      connect and disconnect strictly in turn, starting with connect, and the last call is a
      connect exactly when the panel is visible. */
  predicate Alternating(calls: seq<ClientCall>, visible: bool) {
    && (forall i :: 0 <= i < |calls| ==> calls[i] == if i % 2 == 0 then ConnectCall else DisconnectCall)
    && (visible <==> |calls| % 2 == 1)
  }

  /** The commands of the visibility switch. */
  datatype Switch = ShowSwitch | HideSwitch | ToggleSwitch

  /** Drive a fresh panel through `switches` and return it. */
  method RunSwitches(switches: seq<Switch>) returns (p: Panel)
    ensures Alternating(p.calls, p.isVisible)
  {
    p := new Panel();
    for i := 0 to |switches|
      invariant Alternating(p.calls, p.isVisible)
    {
      match switches[i]
      case ShowSwitch => p.Show();
      case HideSwitch => p.Hide();
      case ToggleSwitch => p.Toggle();
    }
  }
}
