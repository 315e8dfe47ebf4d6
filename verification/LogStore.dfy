/** The log store as one router sees it (internal/signaling/store.go): other
    writers may append before every broker call, acknowledgements may be lost,
    and reading may fail. */
module LogStores {
  import opened Admission
  import opened Membership
  import opened RouterLog
  import opened RouterMachine

  // ------------------------------------------------------- reading a subject

  /** The stream sequence of the first message of `s` after `pos`, or 0. */
  function NextAt(stream: Stream, s: Subject, pos: nat): (q: nat)
    requires pos <= |stream|
    ensures q != 0 ==> pos < q <= |stream| && stream[q - 1].subject == s
    decreases |stream| - pos
  {
    if pos == |stream| then 0
    else if stream[pos].subject == s then pos + 1
    else NextAt(stream, s, pos + 1)
  }

  lemma {:induction false} NextAtSkips(stream: Stream, s: Subject, pos: nat)
    requires pos <= |stream|
    ensures forall i :: pos <= i < NextAt(stream, s, pos) - 1 ==> stream[i].subject != s
    decreases |stream| - pos
  {
    if pos < |stream| && stream[pos].subject != s {
      NextAtSkips(stream, s, pos + 1);
    }
  }

  lemma {:induction false} SkipForeign(stream: Stream, s: Subject, pos: nat, end: nat)
    requires pos <= end <= |stream| && forall i :: pos <= i < end ==> stream[i].subject != s
    ensures SubjectLog(stream[..end], s) == SubjectLog(stream[..pos], s)
    ensures LastSeq(stream[..end], s) == LastSeq(stream[..pos], s)
    decreases end
  {
    if pos < end {
      SkipForeign(stream, s, pos, end - 1);
      assert stream[..end] == stream[..end - 1] + [stream[end - 1]];
      AppendedLog(stream[..end - 1], stream[end - 1], s);
    }
  }

  /** Reading the next message extends the log read so far by its fact. */
  lemma {:induction false} ReadNext(stream: Stream, s: Subject, pos: nat)
    requires pos <= |stream| && NextAt(stream, s, pos) != 0
    ensures var q := NextAt(stream, s, pos);
            SubjectLog(stream[..q], s) == SubjectLog(stream[..pos], s) + [stream[q - 1].fact]
  {
    var q: nat := NextAt(stream, s, pos);
    NextAtSkips(stream, s, pos);
    SkipForeign(stream, s, pos, q - 1);
    PrefixGrows(stream, s, q - 1);
  }

  lemma {:induction false} PrefixGrows(stream: Stream, s: Subject, n: nat)
    requires n < |stream| && stream[n].subject == s
    ensures SubjectLog(stream[..n + 1], s) == SubjectLog(stream[..n], s) + [stream[n].fact]
  {
    var prefix := stream[..n];
    assert stream[..n + 1] == prefix + [stream[n]];
    AppendedLog(prefix, stream[n], s);
  }

  /** The sequences of the next messages, at most `n`. */
  function Next(stream: Stream, s: Subject, pos: nat, n: nat): seq<nat>
    requires pos <= |stream|
    decreases n
  {
    if n == 0 || NextAt(stream, s, pos) == 0 then []
    else [NextAt(stream, s, pos)] + Next(stream, s, NextAt(stream, s, pos), n - 1)
  }

  lemma {:induction false} LastIsLast(stream: Stream, s: Subject)
    ensures var n := LastSeq(stream, s);
            && (n > 0 ==> stream[n - 1].subject == s)
            && (forall i :: n <= i < |stream| ==> stream[i].subject != s)
  {
    if stream != [] && stream[|stream| - 1].subject != s {
      LastIsLast(stream[..|stream| - 1], s);
    }
  }

  /** A reader standing on the last message has read the whole log. */
  lemma {:induction false} CaughtUp(stream: Stream, s: Subject, pos: nat)
    requires pos <= |stream| && (pos > 0 ==> stream[pos - 1].subject == s) && pos >= LastSeq(stream, s)
    ensures pos == LastSeq(stream, s) && SubjectLog(stream[..pos], s) == SubjectLog(stream, s)
  {
    LastIsLast(stream, s);
    SkipForeign(stream, s, pos, |stream|);
    assert stream[..|stream|] == stream;
  }

  // ------------------------------------------------------- the store

  /** What happens to one broker call. */
  datatype Weather = Weather(ack: Ack, reachable: bool, batch: nat)

  datatype Answer = Answered(outcome: Outcome) | Failed

  datatype Replayed = Log(facts: seq<Event>, lastSubjSeq: nat) | Unreadable

  /** The stream after the others' writes before calls `n` to `m - 1`. */
  function Drift(others: (nat, Stream) -> Stream, n: nat, m: nat, stream: Stream): Stream
    decreases m
  {
    if m <= n then stream
    else
      var before := Drift(others, n, m - 1, stream);
      before + others(m - 1, before)
  }

  lemma {:induction false} DriftSplits(others: (nat, Stream) -> Stream, n: nat, m: nat, k: nat, stream: Stream)
    requires n <= m <= k
    ensures Drift(others, n, k, stream) == Drift(others, m, k, Drift(others, n, m, stream))
    decreases k
  {
    if m < k {
      DriftSplits(others, n, m, k - 1, stream);
    }
  }

  class LogStore {
    const order: CheckOrder
    const others: (nat, Stream) -> Stream   // what lands before the n-th call
    const weather: nat -> Weather
    const horizon: nat                      // after which nobody else writes
    var stream: Stream
    var clock: nat

    ghost predicate Valid()
      reads this
    {
      forall n, st :: n >= horizon ==> others(n, st) == []
    }

    constructor (order: CheckOrder, others: (nat, Stream) -> Stream, weather: nat -> Weather, horizon: nat)
      requires forall n, st :: n >= horizon ==> others(n, st) == []
      ensures Valid() && stream == [] && clock == 0
      ensures this.order == order && this.others == others && this.weather == weather
    {
      this.order, this.others, this.weather, this.horizon := order, others, weather, horizon;
      stream, clock := [], 0;
    }

    /** One broker call begins: first come the others. */
    method Call() returns (now: Weather)
      requires Valid()
      modifies this
      ensures Valid() && clock == old(clock) + 1 && now == weather(old(clock))
      ensures stream == old(stream) + others(old(clock), old(stream))
    {
      now := weather(clock);
      stream := stream + others(clock, stream);
      clock := clock + 1;
    }

    /** Publishes under the optimistic check and the duplicate check. A failure
        leaves open whether the fact was committed. */
    method Append(e: Entry, expected: nat) returns (answer: Answer)
      requires Valid()
      modifies this
      ensures Valid() && clock == old(clock) + 1
      ensures var before := old(stream) + others(old(clock), old(stream));
              var ack := weather(old(clock)).ack;
              && stream == (if ack.Unsent? then before else AfterAppend(order, before, e, expected))
              && answer == if ack.Delivered? then Answered(Decide(order, before, e, expected)) else Failed
    {
      var now := Call();
      var outcome := Decide(order, stream, e, expected);
      if !now.ack.Unsent? && outcome.Committed? {
        stream := stream + [e];
      }
      return if now.ack.Delivered? then Answered(outcome) else Failed;
    }

    /** Fetches the next messages of a subject after `pos`: their sequences. */
    method Fetch(s: Subject, pos: nat, max: nat) returns (msgs: seq<nat>)
      requires pos <= |stream|
      ensures msgs == Next(stream, s, pos, max)
    {
      msgs := [];
      var at := pos;
      while |msgs| < max && NextAt(stream, s, at) != 0
        invariant |msgs| <= max && pos <= at <= |stream|
        invariant msgs + Next(stream, s, at, max - |msgs|) == Next(stream, s, pos, max)
        decreases max - |msgs|
      {
        at := NextAt(stream, s, at);
        msgs := msgs + [at];
      }
    }

    /** Takes fetched messages in order. */
    method Drain(s: Subject, pos: nat, msgs: seq<nat>, read: seq<Event>) returns (lastSubjSeq: nat, out: seq<Event>)
      requires ReadUpTo(stream, s, pos, read) && msgs == Next(stream, s, pos, |msgs|)
      ensures ReadUpTo(stream, s, lastSubjSeq, out) && pos <= lastSubjSeq && (msgs != [] ==> pos < lastSubjSeq)
    {
      lastSubjSeq, out := pos, read;
      for i := 0 to |msgs|
        invariant ReadUpTo(stream, s, lastSubjSeq, out) && pos <= lastSubjSeq && (i > 0 ==> pos < lastSubjSeq)
        invariant msgs[i..] == Next(stream, s, lastSubjSeq, |msgs| - i)
      {
        NextStep(stream, s, lastSubjSeq, msgs[i..], out);
        assert msgs[i..][1..] == msgs[i + 1..];
        lastSubjSeq := msgs[i];
        out := out + [stream[lastSubjSeq - 1].fact];
      }
    }

    /** Drains up to the last message and looks again until nothing new landed:
        the answer is the whole log of the subject, with its current token. */
    method Replay(s: Subject) returns (r: Replayed)
      requires Valid()
      modifies this
      ensures Valid() && old(stream) <= stream && old(clock) < clock
      ensures stream == Drift(others, old(clock), clock, old(stream))
      ensures r.Log? ==> r.facts == SubjectLog(stream, s) && r.lastSubjSeq == LastSeq(stream, s)
    {
      var out: seq<Event>, lastSubjSeq := [], 0;
      while true
        invariant Valid() && old(stream) <= stream && old(clock) <= clock
        invariant stream == Drift(others, old(clock), clock, old(stream))
        invariant ReadUpTo(stream, s, lastSubjSeq, out)
        decreases if clock < horizon then horizon - clock else 0, |stream| - lastSubjSeq
      {
        ghost var clock0, stream0 := clock, stream;
        var now := Call();
        ReadStays(stream0, stream, s, lastSubjSeq, out);
        if !now.reachable {
          return Unreadable;
        }
        var last := LastSeq(stream, s);
        if lastSubjSeq >= last {
          CaughtUp(stream, s, lastSubjSeq);
          return Log(out, lastSubjSeq);
        }
        ghost var clock1, stream1 := clock, stream;
        var ok;
        ok, lastSubjSeq, out := CatchUp(s, last, lastSubjSeq, out);
        DriftSplits(others, old(clock), clock1, clock, old(stream));
        if !ok {
          return Unreadable;
        }
      }
    }

    /** Fetches until a sequence is reached. */
    method CatchUp(s: Subject, last: nat, pos: nat, read: seq<Event>) returns (ok: bool, lastSubjSeq: nat, out: seq<Event>)
      requires Valid() && ReadUpTo(stream, s, pos, read)
      modifies this
      ensures Valid() && old(clock) <= clock && old(stream) <= stream
      ensures stream == Drift(others, old(clock), clock, old(stream))
      ensures old(clock) >= horizon ==> stream == old(stream)
      ensures ok ==> ReadUpTo(stream, s, lastSubjSeq, out) && pos <= lastSubjSeq && last <= lastSubjSeq
    {
      ok, lastSubjSeq, out := true, pos, read;
      while lastSubjSeq < last
        invariant Valid() && old(clock) <= clock && old(stream) <= stream && ok
        invariant stream == Drift(others, old(clock), clock, old(stream))
        invariant old(clock) >= horizon ==> stream == old(stream)
        invariant ReadUpTo(stream, s, lastSubjSeq, out) && pos <= lastSubjSeq
      {
        ok, lastSubjSeq, out := ReadBatch(s, lastSubjSeq, out);
        if !ok {
          return;
        }
      }
    }

    /** One fetch call and its messages; an empty batch is an error. */
    method ReadBatch(s: Subject, pos: nat, read: seq<Event>) returns (ok: bool, lastSubjSeq: nat, out: seq<Event>)
      requires Valid() && ReadUpTo(stream, s, pos, read)
      modifies this
      ensures Valid() && clock == old(clock) + 1 && stream == old(stream) + others(old(clock), old(stream))
      ensures ok ==> ReadUpTo(stream, s, lastSubjSeq, out) && pos < lastSubjSeq
    {
      var now := Call();
      ReadStays(old(stream), stream, s, pos, read);
      if !now.reachable {
        return false, pos, read;
      }
      var max := if now.batch < 256 then now.batch else 256;
      var msgs := Fetch(s, pos, max);
      if msgs == [] {
        return false, pos, read;
      }
      NextShort(stream, s, pos, max);
      lastSubjSeq, out := Drain(s, pos, msgs, read);
      ok := true;
    }
  }

  ghost predicate ReadUpTo(stream: Stream, s: Subject, pos: nat, out: seq<Event>) {
    && pos <= |stream| && (pos > 0 ==> stream[pos - 1].subject == s)
    && out == SubjectLog(stream[..pos], s)
  }

  lemma {:induction false} NextStep(stream: Stream, s: Subject, pos: nat, msgs: seq<nat>, out: seq<Event>)
    requires ReadUpTo(stream, s, pos, out) && msgs != [] && msgs == Next(stream, s, pos, |msgs|)
    ensures pos < msgs[0] <= |stream| && msgs[1..] == Next(stream, s, msgs[0], |msgs| - 1)
    ensures ReadUpTo(stream, s, msgs[0], out + [stream[msgs[0] - 1].fact])
  {
    var q := NextAt(stream, s, pos);
    assert q != 0 && Next(stream, s, pos, |msgs|) == [q] + Next(stream, s, q, |msgs| - 1);
    ReadNext(stream, s, pos);
  }

  lemma ReadStays(before: Stream, stream: Stream, s: Subject, pos: nat, out: seq<Event>)
    requires ReadUpTo(before, s, pos, out) && before <= stream
    ensures ReadUpTo(stream, s, pos, out)
  {
    assert stream[..pos] == before[..pos];
  }

  lemma {:induction false} NextShort(stream: Stream, s: Subject, pos: nat, n: nat)
    requires pos <= |stream|
    ensures var msgs := Next(stream, s, pos, n); |msgs| <= n && msgs == Next(stream, s, pos, |msgs|)
    decreases n
  {
    if n > 0 && NextAt(stream, s, pos) != 0 {
      NextShort(stream, s, NextAt(stream, s, pos), n - 1);
    }
  }
}
