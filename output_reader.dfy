/**
 * The per-line step of `log_output_reader`, the background task that copies
 * llama-server's combined stdout/stderr into the log buffer: each decoded
 * line is stripped of surrounding whitespace (Python's `str.strip()`);
 * blank lines are dropped, the others are stamped with the wall-clock time.
 */
module OutputReader {
  import opened Wrappers

  /** The characters Python's `str.isspace()` accepts, which `str.strip()` removes. */
  predicate IsSpace(c: char) {
    c in {' ', '\t', '\n', '\r', '\U{000B}', '\U{000C}',
          '\U{001C}', '\U{001D}', '\U{001E}', '\U{001F}', '\U{0085}', '\U{00A0}',
          '\U{1680}', '\U{2000}', '\U{2001}', '\U{2002}', '\U{2003}', '\U{2004}',
          '\U{2005}', '\U{2006}', '\U{2007}', '\U{2008}', '\U{2009}', '\U{200A}',
          '\U{2028}', '\U{2029}', '\U{202F}', '\U{205F}', '\U{3000}'}
  }

  predicate AllSpace(s: string) {
    forall i :: 0 <= i < |s| ==> IsSpace(s[i])
  }

  /** Where the text of `s` starts: the first non-whitespace position at or after `i`. */
  function TextStart(s: string, i: nat): (k: nat)
    requires i <= |s|
    ensures i <= k <= |s|
    ensures forall j :: i <= j < k ==> IsSpace(s[j])
    ensures k < |s| ==> !IsSpace(s[k])
    decreases |s| - i
  {
    if i < |s| && IsSpace(s[i]) then TextStart(s, i + 1) else i
  }

  /** Where the text of `s[k..e]` ends: just past its last non-whitespace position. */
  function TextEnd(s: string, k: nat, e: nat): (t: nat)
    requires k <= e <= |s|
    ensures k <= t <= e
    ensures forall j :: t <= j < e ==> IsSpace(s[j])
    ensures t > k ==> !IsSpace(s[t - 1])
    decreases e - k
  {
    if e > k && IsSpace(s[e - 1]) then TextEnd(s, k, e - 1) else e
  }

  /**
   * `s.strip()`: the text between the leading and the trailing whitespace;
   * empty exactly when `s` is all whitespace.
   */
  function Strip(s: string): (r: string)
    ensures r == [] <==> AllSpace(s)
    ensures r != [] ==> !IsSpace(r[0]) && !IsSpace(r[|r| - 1])
    ensures exists k :: 0 <= k <= |s| - |r| && r == s[k..k + |r|] && AllSpace(s[..k]) && AllSpace(s[k + |r|..])
  {
    var k := TextStart(s, 0);
    var e := TextEnd(s, k, |s|);
    assert AllSpace(s[..k]) by {
      assert forall j :: 0 <= j < k ==> s[..k][j] == s[j];
    }
    assert AllSpace(s[e..]) by {
      assert forall j :: 0 <= j < |s| - e ==> s[e..][j] == s[e + j];
    }
    s[k..e]
  }

  /** `f"[{timestamp}] {text}"`: the form of every line in the log buffer. */
  function Stamp(timestamp: string, text: string): string {
    "[" + timestamp + "] " + text
  }

  /**
   * One iteration of `log_output_reader`: the buffer line for one decoded
   * output line read at `timestamp`, or nothing for a blank line.
   */
  function ReaderLine(raw: string, timestamp: string): (r: Option<string>)
    ensures r.None? <==> AllSpace(raw)
    ensures r.Some? ==> r.value == Stamp(timestamp, Strip(raw))
    ensures r.Some? ==> |r.value| > |timestamp| + 3 && r.value[..|timestamp| + 3] == "[" + timestamp + "] "
                        && !IsSpace(r.value[|timestamp| + 3]) && !IsSpace(r.value[|r.value| - 1])
  {
    var text := Strip(raw);
    if text == [] then None else Some(Stamp(timestamp, text))
  }

  /** The buffer entries one output line contributes: its stamped form, or nothing when blank. */
  function Entry(raw: string, timestamp: string): (r: seq<string>)
    ensures r == [] <==> AllSpace(raw)
    ensures r != [] ==> r == [Stamp(timestamp, Strip(raw))]
  {
    match ReaderLine(raw, timestamp) case Some(line) => [line] case None => []
  }

  /** The lines one reader task appends for the output lines it reads before end of input. */
  function Captured(raws: seq<string>, stamps: seq<string>): seq<string>
    requires |stamps| == |raws|
  {
    if raws == [] then []
    else
      var n := |raws| - 1;
      Captured(raws[..n], stamps[..n]) + Entry(raws[n], stamps[n])
  }

  /** Reading one more line extends the captured lines by that line's buffer entry, if any. */
  lemma CapturedStep(raws: seq<string>, stamps: seq<string>, i: nat)
    requires |stamps| == |raws| && i < |raws|
    ensures Captured(raws[..i + 1], stamps[..i + 1])
         == Captured(raws[..i], stamps[..i]) + Entry(raws[i], stamps[i])
  {
    var rs, ss := raws[..i + 1], stamps[..i + 1];
    assert rs[..i] == raws[..i] && ss[..i] == stamps[..i];
    assert rs[i] == raws[i] && ss[i] == stamps[i];
  }
}
