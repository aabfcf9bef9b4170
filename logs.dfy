/**
 * The process log: `process_logs = deque(maxlen=200)`, appended to by the
 * supervisor and the output reader, cleared on every start and read by
 * `get_logs`.
 */
module Logs {
  import opened Wrappers
  import opened OutputReader

  /** `maxlen` of the deque. */
  const Capacity: nat := 200

  function Min(a: int, b: int): int {
    if a <= b then a else b
  }

  /** What a deque with `maxlen=Capacity` holds after receiving `s` in order: its last `Capacity` items. */
  function Window(s: seq<string>): (r: seq<string>)
    ensures |r| == Min(|s|, Capacity)
    ensures r == s[|s| - |r|..]
  {
    if |s| <= Capacity then s else s[|s| - Capacity..]
  }

  lemma WindowShort(s: seq<string>)
    requires |s| <= Capacity
    ensures Window(s) == s
  {
  }

  /** Appending to a full buffer drops exactly the oldest entry and keeps the rest in order. */
  lemma WindowAppendFull(s: seq<string>, x: string)
    requires |s| == Capacity
    ensures Window(s + [x]) == s[1..] + [x]
    ensures |Window(s + [x])| == Capacity
  {
    assert (s + [x])[|s| + 1 - Capacity..] == s[1..] + [x];
  }

  /**
   * Bounding is insensitive to when it happens: trimming to the window and
   * then receiving `t` leaves what receiving everything would.
   */
  lemma WindowOfWindow(s: seq<string>, t: seq<string>)
    ensures Window(Window(s) + t) == Window(s + t)
  {
    if |s| > Capacity {
      var w := Window(s);
      var n := |w + t|;
      assert (w + t) == (s + t)[|s| - Capacity..];
      assert (w + t)[n - Min(n, Capacity)..] == (s + t)[|s + t| - Min(|s + t|, Capacity)..];
    }
  }

  /** Receiving `e` after the window of `a + b` is receiving `b + e` after `a`. */
  lemma WindowFeed(a: seq<string>, b: seq<string>, e: seq<string>)
    ensures Window(Window(a + b) + e) == Window(a + (b + e))
  {
    WindowOfWindow(a + b, e);
    assert a + b + e == a + (b + e);
  }

  /** `s[start:]` with Python's clamping of negative and oversized positions. */
  function SliceFrom(s: seq<string>, start: int): seq<string> {
    var k := if start < 0 then (if -start >= |s| then 0 else |s| + start)
             else if start > |s| then |s| else start;
    s[k..]
  }

  /**
   * `get_logs(lines)`: `log_list[-lines:] if len(log_list) > lines else log_list`.
   * For a positive count, the last `lines` entries (all of them if there are
   * fewer), in order; `0` gives everything (`log_list[-0:]` is the whole list);
   * a negative count drops that many entries from the front.
   */
  function GetLogs(entries: seq<string>, lines: int): (r: seq<string>)
    ensures lines >= 1 ==> r == entries[|entries| - Min(lines, |entries|)..]
    ensures lines == 0 ==> r == entries
    ensures lines < 0 ==> r == entries[Min(-lines, |entries|)..]
  {
    if |entries| > lines then SliceFrom(entries, -lines) else entries
  }

  /** The bounded buffer itself; `entries` is `list(process_logs)`, oldest first. */
  class LogBuffer {
    var entries: seq<string>

    ghost predicate Valid()
      reads this
    {
      |entries| <= Capacity
    }

    constructor ()
      ensures Valid() && entries == []
    {
      entries := [];
    }

    /** `process_logs.append(line)`: evicts the oldest entry when full. */
    method Append(line: string)
      requires Valid()
      modifies this
      ensures Valid()
      ensures entries == Window(old(entries) + [line])
    {
      if |entries| == Capacity {
        WindowAppendFull(entries, line);
        entries := entries[1..] + [line];
      } else {
        entries := entries + [line];
      }
    }

    /** `process_logs.clear()`. */
    method Clear()
      modifies this
      ensures Valid() && entries == []
    {
      entries := [];
    }

    /** One iteration of `log_output_reader`: the line read at `timestamp` is appended unless blank. */
    method OnOutputLine(raw: string, timestamp: string)
      requires Valid()
      modifies this
      ensures Valid()
      ensures entries == Window(old(entries) + Entry(raw, timestamp))
    {
      var decoded := Strip(raw);
      if decoded != [] {
        Append(Stamp(timestamp, decoded));
      } else {
        assert old(entries) + Entry(raw, timestamp) == old(entries);
      }
    }

    /**
     * `log_output_reader` over the whole output of one process: the lines
     * read before end of input, each with the time it was read.
     */
    method CaptureOutput(raws: seq<string>, stamps: seq<string>)
      requires Valid() && |stamps| == |raws|
      modifies this
      ensures Valid()
      ensures entries == Window(old(entries) + Captured(raws, stamps))
    {
      ghost var start := entries;
      var i := 0;
      while i < |raws|
        invariant 0 <= i <= |raws| && Valid()
        invariant entries == Window(start + Captured(raws[..i], stamps[..i]))
      {
        CapturedStep(raws, stamps, i);
        WindowFeed(start, Captured(raws[..i], stamps[..i]), Entry(raws[i], stamps[i]));
        OnOutputLine(raws[i], stamps[i]);
        i := i + 1;
      }
      assert raws[..i] == raws && stamps[..i] == stamps;
    }
  }
}
