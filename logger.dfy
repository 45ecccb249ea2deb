/** The application logger's in-memory buffer: a FIFO of the most recent
    formatted messages, bounded by `Capacity`, which evicts the oldest entry
    when full. The file and console handlers are not modelled. */
module Logging {

  /** The deque's `maxlen`. */
  const Capacity: nat := 100

  /** The fields of a log record that the formatter reads. `created` is the
      record's timestamp, given by the caller. */
  datatype LogRecord = LogRecord(levelName: string, message: string, created: real)

  /** The last min(|h|, Capacity) entries of h, oldest first. */
  function Recent(h: seq<string>): (r: seq<string>)
    ensures |r| <= Capacity && (|h| <= Capacity ==> |r| == |h|) && (|h| >= Capacity ==> |r| == Capacity)
    ensures r == h[|h| - |r|..]
  {
    if |h| <= Capacity then h else h[|h| - Capacity..]
  }

  /** Appending to a deque with `maxlen == Capacity`. */
  function BoundedAppend(buf: seq<string>, m: string): (r: seq<string>)
    requires |buf| <= Capacity
    ensures |r| <= Capacity && 0 < |r| && r[|r| - 1] == m
    ensures |buf| < Capacity ==> |r| == |buf| + 1 && r[..|buf|] == buf
    ensures |buf| == Capacity ==> |r| == Capacity && r[..Capacity - 1] == buf[1..]
  {
    if |buf| == Capacity then buf[1..] + [m] else buf + [m]
  }

  /** Appending to the recent window of a history gives the recent window of
      the longer history. */
  lemma AppendRecent(h: seq<string>, m: string)
    ensures BoundedAppend(Recent(h), m) == Recent(h + [m])
  {
    var r := Recent(h);
    var a := BoundedAppend(r, m);
    var b := Recent(h + [m]);
    assert |a| == |b|;
    forall i | 0 <= i < |a|
      ensures a[i] == b[i]
    {
      if i < |a| - 1 {
        if |r| < Capacity {
          assert a[i] == r[i];
        } else {
          assert a[i] == r[i + 1];
        }
      }
    }
  }

  /** The buffer after emitting ms one at a time into buf. */
  function EmitAll(buf: seq<string>, ms: seq<string>): seq<string>
    requires |buf| <= Capacity
    decreases |ms|
  {
    if ms == [] then buf else EmitAll(BoundedAppend(buf, ms[0]), ms[1..])
  }

  /** Starting from the recent window of h, emitting ms keeps exactly the
      recent window of h + ms; in particular, from an empty buffer, the last
      `Capacity` messages emitted in the order they were emitted. */
  lemma {:induction false} EmitAllRecent(h: seq<string>, ms: seq<string>)
    ensures EmitAll(Recent(h), ms) == Recent(h + ms)
    decreases |ms|
  {
    if ms == [] {
      assert h + ms == h;
    } else {
      EmitStep(h, ms);
      EmitAllRecent(h + [ms[0]], ms[1..]);
      ShiftHead(h, ms);
    }
  }

  lemma EmitStep(h: seq<string>, ms: seq<string>)
    requires ms != []
    ensures EmitAll(Recent(h), ms) == EmitAll(Recent(h + [ms[0]]), ms[1..])
  {
    AppendRecent(h, ms[0]);
  }

  lemma ShiftHead(h: seq<string>, ms: seq<string>)
    requires ms != []
    ensures (h + [ms[0]]) + ms[1..] == h + ms
  {
  }

  class Logger {
    /** The formatter, '%(asctime)s - %(levelname)s - %(message)s'. */
    const format: LogRecord -> string
    var logBuffer: seq<string>
    /** Every formatted message this logger has emitted, oldest first. */
    ghost var emitted: seq<string>

    ghost predicate Valid()
      reads this
    {
      logBuffer == Recent(emitted)
    }

    constructor (format: LogRecord -> string)
      ensures Valid() && this.format == format
      ensures logBuffer == [] && emitted == []
    {
      this.format := format;
      logBuffer := [];
      emitted := [];
    }

    /** Formats the record and appends it to the bounded buffer. */
    method EmitToBuffer(record: LogRecord)
      requires Valid()
      modifies this
      ensures Valid()
      ensures emitted == old(emitted) + [format(record)]
      ensures logBuffer == BoundedAppend(old(logBuffer), format(record))
    {
      var formatted := format(record);
      AppendRecent(emitted, formatted);
      if |logBuffer| == Capacity {
        logBuffer := logBuffer[1..] + [formatted];
      } else {
        logBuffer := logBuffer + [formatted];
      }
      emitted := emitted + [formatted];
    }

    /** Logs a message at DEBUG level; the buffer handler receives it. */
    method Log(message: string, created: real)
      requires Valid()
      modifies this
      ensures Valid()
      ensures emitted == old(emitted) + [format(LogRecord("DEBUG", message, created))]
      ensures logBuffer == BoundedAppend(old(logBuffer), format(LogRecord("DEBUG", message, created)))
    {
      EmitToBuffer(LogRecord("DEBUG", message, created));
    }

    /** A copy of the buffer, oldest first: the most recent `Capacity`
        messages emitted. */
    method GetBuffer() returns (entries: seq<string>)
      requires Valid()
      ensures entries == Recent(emitted)
      ensures |entries| <= Capacity
      ensures entries == emitted[|emitted| - |entries|..]
    {
      entries := logBuffer;
    }
  }
}
