/** The tracker bridge's log buffer: the 200-entry first-in-first-out window that
    `pushLog` maintains, and how a chunk read from the tracker's stdout or stderr is
    cut into log lines. The buffer itself lives in `Supervisor.TrackerBridge`; this
    module holds the functions that specify it. */
module LogBuffer {
  import opened JsText

  /** Entries kept before the oldest is dropped. */
  const Capacity: nat := 200

  /** `{ time, text }`: the time is the wall-clock text the entry was stamped with. */
  datatype LogEntry = LogEntry(time: string, text: string)

  /** The last `n` elements of `s` (all of `s` when it is shorter). */
  function LastN<T>(s: seq<T>, n: nat): seq<T> {
    if |s| <= n then s else s[|s| - n..]
  }

  /** The buffer after one `pushLog`: the entry goes last, and when that makes the buffer
      longer than `Capacity` the oldest entry is removed. */
  function Pushed(buf: seq<LogEntry>, e: LogEntry): (r: seq<LogEntry>)
    ensures |buf| <= Capacity ==> |r| <= Capacity
  {
    var grown := buf + [e];
    if |grown| > Capacity then grown[1..] else grown
  }

  /** One push appends the entry; the oldest entry goes only when the buffer already
      held `Capacity` entries. */
  lemma PushedFacts(buf: seq<LogEntry>, e: LogEntry)
    ensures var r := Pushed(buf, e);
      && r != [] && r[|r| - 1] == e
      && (|buf| < Capacity ==> r == buf + [e])
      && (|buf| >= Capacity ==> r == buf[1..] + [e])
  {
  }

  /** The most recent `Capacity` entries of `buf` followed by `es`. */
  function Window(buf: seq<LogEntry>, es: seq<LogEntry>): (w: seq<LogEntry>)
    ensures |w| <= Capacity
  {
    LastN(buf + es, Capacity)
  }

  /** The buffer after pushing `es` one after the other. */
  function PushAll(buf: seq<LogEntry>, es: seq<LogEntry>): seq<LogEntry> {
    if es == [] then buf else Pushed(PushAll(buf, es[..|es| - 1]), es[|es| - 1])
  }

  lemma PushedWindow(s: seq<LogEntry>, e: LogEntry)
    ensures Pushed(LastN(s, Capacity), e) == LastN(s + [e], Capacity)
  {
    if |s| > Capacity {
      assert s[|s| - Capacity..][1..] + [e] == (s + [e])[|s + [e]| - Capacity..];
    }
  }

  /** Whatever was pushed, the buffer is the most recent `Capacity` entries of
      everything pushed so far, in the order they were pushed. */
  lemma {:induction false} PushAllWindow(buf: seq<LogEntry>, es: seq<LogEntry>)
    requires |buf| <= Capacity
    ensures PushAll(buf, es) == Window(buf, es)
    decreases |es|
  {
    if es == [] {
      assert buf + es == buf;
    } else {
      var init := es[..|es| - 1];
      var e := es[|es| - 1];
      PushAllWindow(buf, init);
      PushedWindow(buf + init, e);
      assert buf + init + [e] == buf + es;
    }
  }

  /** The buffer never holds more than `Capacity` entries. */
  lemma PushAllBounded(buf: seq<LogEntry>, es: seq<LogEntry>)
    requires |buf| <= Capacity
    ensures |PushAll(buf, es)| <= Capacity
    ensures |buf| + |es| <= Capacity ==> PushAll(buf, es) == buf + es
  {
    PushAllWindow(buf, es);
  }

  // ---------------------------------------------------------------------------
  // From a stream chunk to log lines

  /** The warning sign the stderr handler puts in front of each line. */
  const WarnTag: string := "\U{26A0} "

  /** `.filter(l => l.trim())`: keep the lines that are not blank. */
  function NonBlank(ls: seq<string>): (r: seq<string>)
    ensures |r| <= |ls|
  {
    if ls == [] then []
    else if Trim(ls[0]) != "" then [ls[0]] + NonBlank(ls[1..])
    else NonBlank(ls[1..])
  }

  /** `data.toString().split('\n').filter(l => l.trim())`. */
  function ChunkLines(chunk: string): (ls: seq<string>)
    ensures forall i :: 0 <= i < |ls| ==> '\n' !in ls[i] && !AllSpace(ls[i])
  {
    var ls := NonBlank(Split(chunk, '\n'));
    NonBlankIn(Split(chunk, '\n'));
    forall i | 0 <= i < |ls|
      ensures '\n' !in ls[i] && !AllSpace(ls[i])
    {
      assert ls[i] in ls;
      TrimEmptyIffAllSpace(ls[i]);
    }
    ls
  }

  /** `NonBlank` keeps exactly the non-blank lines. */
  lemma {:induction false} NonBlankIn(ls: seq<string>)
    ensures forall l :: l in NonBlank(ls) <==> l in ls && Trim(l) != ""
  {
    if ls != [] {
      NonBlankIn(ls[1..]);
      assert ls == [ls[0]] + ls[1..];
    }
  }

  /** Each line as `pushLog` stores it: trimmed, stamped with the time of the push. */
  function Stamp(lines: seq<string>, time: string): (es: seq<LogEntry>)
    ensures |es| == |lines|
  {
    seq(|lines|, i requires 0 <= i < |lines| => LogEntry(time, Trim(lines[i])))
  }

  /** Each line with the warning sign in front. */
  function Tagged(lines: seq<string>): (r: seq<string>)
    ensures |r| == |lines|
  {
    seq(|lines|, i requires 0 <= i < |lines| => WarnTag + lines[i])
  }

  /** The entries the stdout handler pushes for one chunk: each line, trimmed. */
  function StdoutEntries(chunk: string, time: string): seq<LogEntry> {
    Stamp(ChunkLines(chunk), time)
  }

  /** The entries the stderr handler pushes for one chunk: each line behind the
      warning sign, trimmed. */
  function StderrEntries(chunk: string, time: string): seq<LogEntry> {
    Stamp(Tagged(ChunkLines(chunk)), time)
  }

  /** A stderr entry is the warning sign, one space and the line with its trailing
      white space removed: the leading white space of the line is kept. */
  lemma StderrText(chunk: string, time: string)
    ensures var ls := ChunkLines(chunk);
      forall i :: 0 <= i < |ls| ==> StderrEntries(chunk, time)[i].text == WarnTag + TrimEnd(ls[i])
  {
    var ls := ChunkLines(chunk);
    forall i | 0 <= i < |ls|
      ensures StderrEntries(chunk, time)[i].text == WarnTag + TrimEnd(ls[i])
    {
      TrimAfterTag(WarnTag, ls[i]);
    }
  }

  /** Stdout entries are never blank and hold no line break. */
  lemma StdoutText(chunk: string, time: string)
    ensures forall e :: e in StdoutEntries(chunk, time) ==> e.text != "" && '\n' !in e.text
  {
    var ls := ChunkLines(chunk);
    forall i | 0 <= i < |ls|
      ensures StdoutEntries(chunk, time)[i].text != "" && '\n' !in StdoutEntries(chunk, time)[i].text
    {
      TrimEmptyIffAllSpace(ls[i]);
      TrimKeepsOut(ls[i], '\n');
    }
  }

  /** Trimming adds no character. */
  lemma TrimKeepsOut(s: string, c: char)
    requires c !in s
    ensures c !in Trim(s)
  {
    TrimIsSlice(s);
    var k := |s| - |TrimStart(s)|;
    var t := Trim(s);
    forall j | 0 <= j < |t|
      ensures t[j] != c
    {
      assert t[j] == s[k + j];
    }
  }

  /** A chunk that is one non-blank line without a line break gives exactly one entry. */
  lemma SingleLineChunk(chunk: string, time: string)
    requires '\n' !in chunk && !AllSpace(chunk)
    ensures StdoutEntries(chunk, time) == [LogEntry(time, Trim(chunk))]
  {
    SplitNoSep(chunk, '\n');
    TrimEmptyIffAllSpace(chunk);
    assert [chunk][1..] == [];
  }
}
