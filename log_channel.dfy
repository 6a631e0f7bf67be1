/** The progress log: `log_message` pushes a timestamped line onto a
    process-wide FIFO and the `/logs` endpoint (`get_logs`) drains it. */
module LogChannel {
  import opened Wrappers

  /** One queued progress line: the timestamp read when it was logged, and
      the message. */
  datatype Entry = Entry(stamp: string, text: string)

  /** The string `log_message` queues: `[<timestamp>] <message>`. */
  function Line(e: Entry): string
  {
    "[" + e.stamp + "] " + e.text
  }

  /** Concatenation is associative. */
  lemma Regroup(a: seq<string>, b: seq<string>, c: seq<string>)
    ensures a + b + c == a + (b + c)
  {
  }

  /** Position of the first `c` in `s`, or `|s|` when there is none. */
  function IndexOf(s: string, c: char): (k: nat)
    ensures k <= |s|
    ensures k < |s| ==> s[k] == c
    ensures forall i :: 0 <= i < k ==> s[i] != c
  {
    if s == [] || s[0] == c then 0 else 1 + IndexOf(s[1..], c)
  }

  /** Splits a drained line back into timestamp and message: the timestamp
      runs from after the opening `[` to the first `]`, which must be
      followed by one space. */
  function ParseLine(line: string): Option<Entry>
  {
    if |line| == 0 || line[0] != '[' then None
    else
      var k := 1 + IndexOf(line[1..], ']');
      if k + 1 < |line| && line[k + 1] == ' ' then Some(Entry(line[1..k], line[k + 2..]))
      else None
  }

  /** A queued line gives back its timestamp and message, as long as the
      timestamp has no `]` (the `%Y-%m-%d %H:%M:%S` format never does). */
  lemma LineRoundTrip(e: Entry)
    requires ']' !in e.stamp
    ensures ParseLine(Line(e)) == Some(e)
  {
    var line := Line(e);
    var rest := line[1..];
    assert rest == e.stamp + "] " + e.text;
    var j := IndexOf(rest, ']');
    assert rest[|e.stamp|] == ']';
    assert j == |e.stamp|;
    assert line[1..1 + j] == e.stamp;
    assert line[j + 3..] == e.text;
  }

  /** `lines` are the lines of the last `|lines|` messages of `history`,
      in order, each stamped with the time of the call that logged it (the
      n-th call reads `clock(n)`). */
  ghost predicate Stamped(clock: nat -> string, lines: seq<string>, history: seq<string>)
  {
    && |lines| <= |history|
    && forall i :: 0 <= i < |lines| ==>
         lines[i] == Line(Entry(clock(|history| - |lines| + i), history[|history| - |lines| + i]))
  }

  /** The global `message_queue` together with the clock `log_message` reads.
      `messages` is every message logged so far, in order; the queue holds
      the lines of the most recent of them that have not been drained yet. */
  class MessageQueue {
    /** Queued lines not yet drained, oldest first. */
    var entries: seq<string>
    /** How many times `log_message` has been called. */
    var ticks: nat
    /** `clock(n)` is the timestamp the n-th `log_message` call reads
        (`datetime.now()` formatted as `%Y-%m-%d %H:%M:%S`). */
    const clock: nat -> string
    /** Every message logged so far, oldest first. */
    ghost var messages: seq<string>

    /** The queue holds the lines of the last `|entries|` messages, each
        stamped with the timestamp of the call that logged it. */
    ghost predicate Valid()
      reads this
    {
      ticks == |messages| && Stamped(clock, entries, messages)
    }

    constructor (clock: nat -> string)
      ensures Valid()
      ensures entries == [] && messages == [] && this.clock == clock
    {
      entries := [];
      ticks := 0;
      this.clock := clock;
      messages := [];
    }

    /** `log_message(message)`: the message, behind the current timestamp,
        goes to the back of the queue. */
    method LogMessage(message: string)
      requires Valid()
      modifies this
      ensures Valid()
      ensures entries == old(entries) + [Line(Entry(clock(old(ticks)), message))]
      ensures messages == old(messages) + [message]
    {
      entries := entries + [Line(Entry(clock(ticks), message))];
      ticks := ticks + 1;
      messages := messages + [message];
    }

    /** `get_logs`: takes every queued line off the queue, oldest first. */
    method GetLogs() returns (logs: seq<string>)
      requires Valid()
      modifies this
      ensures Valid()
      ensures logs == old(entries)
      ensures entries == [] && messages == old(messages)
    {
      logs := [];
      while entries != []
        invariant Valid()
        invariant logs + entries == old(entries)
        invariant messages == old(messages)
        decreases |entries|
      {
        ghost var before, earlier := entries, logs;
        logs := logs + [entries[0]];
        entries := entries[1..];
        assert before == [before[0]] + entries;
        Regroup(earlier, [before[0]], entries);
        forall i | 0 <= i < |entries|
          ensures entries[i] == Line(Entry(clock(ticks - |entries| + i), messages[ticks - |entries| + i]))
        {
          assert entries[i] == before[i + 1];
        }
      }
    }
  }

  /** Two polls of the log endpoint with nothing logged between them: the
      first returns every queued line, the second returns nothing, so no
      line is ever returned twice. */
  method DrainTwice(q: MessageQueue) returns (first: seq<string>, second: seq<string>)
    requires q.Valid()
    modifies q
    ensures q.Valid()
    ensures first == old(q.entries) && second == []
    ensures q.entries == [] && q.messages == old(q.messages)
  {
    first := q.GetLogs();
    second := q.GetLogs();
  }

  /** `entries` is `before` followed by one stamped line per message of
      `added`, the first logged by call number `start`. */
  ghost predicate QueuedAfter(entries: seq<string>, before: seq<string>, clock: nat -> string,
                              start: nat, added: seq<string>)
  {
    && |entries| == |before| + |added|
    && entries[..|before|] == before
    && forall k :: 0 <= k < |added| ==>
         entries[|before| + k] == Line(Entry(clock(start + k), added[k]))
  }

  /** The queue after logging `added`, when it has grown by exactly one
      line per added message (which every logging method states): the lines
      queued before, then one stamped line per added message, in order.
      Nothing was drained and nothing else was queued. */
  lemma QueueAfterLogging(q: MessageQueue, before: seq<string>, history: seq<string>, added: seq<string>)
    requires Stamped(q.clock, before, history)
    requires q.Valid()
    requires q.messages == history + added
    requires |q.entries| == |before| + |added|
    ensures QueuedAfter(q.entries, before, q.clock, |history|, added)
  {
    forall i | 0 <= i < |before|
      ensures q.entries[i] == before[i]
    {
      assert q.messages[|history| - |before| + i] == history[|history| - |before| + i];
    }
    forall k | 0 <= k < |added|
      ensures q.entries[|before| + k] == Line(Entry(q.clock(|history| + k), added[k]))
    {
      assert q.messages[|history| + k] == added[k];
    }
  }

  /** Every queued line gives back, in logging order, the message it carries
      and the timestamp of the call that logged it, provided timestamps
      never hold a `]`; so a drain returns the undrained messages in the
      order they were logged. */
  lemma DrainedLinesParse(q: MessageQueue)
    requires q.Valid()
    requires forall n :: ']' !in q.clock(n)
    ensures forall i :: 0 <= i < |q.entries| ==>
      ParseLine(q.entries[i])
        == Some(Entry(q.clock(q.ticks - |q.entries| + i), q.messages[q.ticks - |q.entries| + i]))
  {
    forall i | 0 <= i < |q.entries|
      ensures ParseLine(q.entries[i])
        == Some(Entry(q.clock(q.ticks - |q.entries| + i), q.messages[q.ticks - |q.entries| + i]))
    {
      var k := q.ticks - |q.entries| + i;
      LineRoundTrip(Entry(q.clock(k), q.messages[k]));
    }
  }
}
