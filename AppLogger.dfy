/** The in-memory debug log: the newest 200 entries, each stamped with the time of day. */
module Logging {
  import Text

  const MaxEntries: nat := 200

  /** Dropping the oldest entries beyond the capacity (`removeFirst(count - maxEntries)`). */
  function Trim(entries: seq<string>): (kept: seq<string>)
    ensures |kept| == if |entries| > MaxEntries then MaxEntries else |entries|
    ensures kept == entries[|entries| - |kept|..]
  {
    if |entries| > MaxEntries then entries[|entries| - MaxEntries..] else entries
  }

  /** Trimming after every append keeps exactly what trimming the whole history once would. */
  lemma TrimAppend(history: seq<string>, entry: string)
    ensures Trim(Trim(history) + [entry]) == Trim(history + [entry])
  {
    var h := history + [entry];
    if |history| > MaxEntries {
      var t := Trim(history) + [entry];
      assert |t| == MaxEntries + 1;
      assert t[|t| - MaxEntries..] == h[|h| - MaxEntries..];
    }
  }

  /** The `HH:mm:ss` stamp of a time of day. */
  function Timestamp(hour: int, minute: int, second: int): string {
    Text.Pad2(hour) + ":" + Text.Pad2(minute) + ":" + Text.Pad2(second)
  }

  /** A stamp is eight characters, two-digit fields between colons, and the fields read back as the time. */
  lemma TimestampFields(hour: int, minute: int, second: int)
    requires 0 <= hour < 24 && 0 <= minute < 60 && 0 <= second < 60
    ensures var stamp := Timestamp(hour, minute, second);
      |stamp| == 8 && stamp[2] == ':' && stamp[5] == ':' &&
      Text.AllDigits(stamp[..2]) && Text.AllDigits(stamp[3..5]) && Text.AllDigits(stamp[6..]) &&
      Text.ParseDigits(stamp[..2]) == hour && Text.ParseDigits(stamp[3..5]) == minute && Text.ParseDigits(stamp[6..]) == second
  {
    StampLayout(Text.Pad2(hour), Text.Pad2(minute), Text.Pad2(second));
  }

  /** Three two-character fields joined by colons sit at offsets 0, 3 and 6. */
  lemma StampLayout(h: string, m: string, s: string)
    requires |h| == 2 && |m| == 2 && |s| == 2
    ensures var stamp := h + ":" + m + ":" + s;
      |stamp| == 8 && stamp[2] == ':' && stamp[5] == ':' && stamp[..2] == h && stamp[3..5] == m && stamp[6..] == s
  {
    var stamp := h + ":" + m + ":" + s;
    assert stamp[..2] == h;
    assert stamp[3..5] == m;
    assert stamp[6..] == s;
  }

  /** One log line: `[<timestamp>] <message>`. */
  function Entry(stamp: string, message: string): (line: string)
    ensures |line| == |stamp| + 3 + |message|
    ensures line[0] == '[' && line[1..|stamp| + 1] == stamp && line[|stamp| + 1..|stamp| + 3] == "] "
    ensures line[|stamp| + 3..] == message
  {
    "[" + stamp + "] " + message
  }

  class AppLogger {
    var entries: seq<string>
    /** Every entry logged since the last `clear`, oldest first. */
    ghost var history: seq<string>

    /** The buffer holds the newest entries of the history, at most `MaxEntries` of them. */
    ghost predicate Valid()
      reads this
    {
      entries == Trim(history)
    }

    constructor ()
      ensures Valid() && entries == [] && history == []
    {
      entries := [];
      history := [];
    }

    method Log(message: string, hour: int, minute: int, second: int)
      requires Valid()
      modifies this
      ensures Valid()
      ensures history == old(history) + [Entry(Timestamp(hour, minute, second), message)]
      ensures entries == Trim(old(entries) + [Entry(Timestamp(hour, minute, second), message)])
      ensures |entries| <= MaxEntries
      ensures entries[|entries| - 1] == Entry(Timestamp(hour, minute, second), message)
    {
      Append(Entry(Timestamp(hour, minute, second), message));
    }

    /** The queued part of `log`: append the formatted entry, then drop the oldest beyond the bound. */
    method Append(entry: string)
      requires Valid()
      modifies this
      ensures Valid()
      ensures history == old(history) + [entry]
      ensures entries == Trim(old(entries) + [entry])
      ensures |entries| <= MaxEntries
      ensures entries[|entries| - 1] == entry
    {
      TrimAppend(history, entry);
      history := history + [entry];
      entries := entries + [entry];
      if |entries| > MaxEntries {
        entries := entries[|entries| - MaxEntries..];
      }
    }

    method GetEntries() returns (snapshot: seq<string>)
      ensures snapshot == entries
    {
      snapshot := entries;
    }

    method AllText() returns (text: string)
      ensures text == Text.Join(entries, "\n")
      ensures |entries| >= 1 && (forall i :: 0 <= i < |entries| ==> '\n' !in entries[i]) ==>
        Text.Split(text, '\n') == entries
    {
      text := Text.Join(entries, "\n");
      if |entries| >= 1 && (forall i :: 0 <= i < |entries| ==> '\n' !in entries[i]) {
        Text.SplitJoin(entries, '\n');
      }
    }

    method Clear()
      modifies this
      ensures Valid() && entries == [] && history == []
    {
      entries := [];
      history := [];
    }
  }

  /** After any run of logging the buffer is the newest `MaxEntries` entries, in order. */
  lemma {:induction false} LogSequenceKeepsNewest(history: seq<string>, more: seq<string>)
    ensures Trim(history + more) == TrimEach(Trim(history), more)
    decreases |more|
  {
    if more != [] {
      var next := history + [more[0]];
      calc {
        TrimEach(Trim(history), more);
        TrimEach(Trim(Trim(history) + [more[0]]), more[1..]);
        { TrimAppend(history, more[0]); }
        TrimEach(Trim(next), more[1..]);
        { LogSequenceKeepsNewest(next, more[1..]); }
        Trim(next + more[1..]);
        { assert next + more[1..] == history + more; }
        Trim(history + more);
      }
    }
  }

  /** The buffer after appending and trimming entry by entry. */
  function TrimEach(buffer: seq<string>, more: seq<string>): seq<string>
    decreases |more|
  {
    if more == [] then buffer else TrimEach(Trim(buffer + [more[0]]), more[1..])
  }
}
