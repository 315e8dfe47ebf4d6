/** The shared stream, what a router folds from one subject of it, and the
    broker's answer to an append (internal/signaling/router.go, store.go). */
module RouterLog {
  import opened Encoding
  import opened Membership
  import opened Admission
  import opened ResultCache

  // ------------------------------------------------------- the stream

  /** A stored message. `gated` records, for the proofs, that its writer had to
      be a participant. A stream sequence is an index plus one. */
  datatype Entry = Entry(subject: Subject, fact: Event, dedupId: string, gated: bool, payload: Payload)

  type Stream = seq<Entry>

  function SubjectLog(stream: Stream, s: Subject): seq<Event> {
    if stream == [] then []
    else
      var n := |stream| - 1;
      var before := SubjectLog(stream[..n], s);
      if stream[n].subject == s then before + [stream[n].fact] else before
  }

  /** The subject's last stream sequence: the token of the optimistic append. */
  function LastSeq(stream: Stream, s: Subject): (r: nat)
    ensures r <= |stream|
  {
    if stream == [] then 0
    else
      var n := |stream| - 1;
      if stream[n].subject == s then n + 1 else LastSeq(stream[..n], s)
  }

  /** The stream sequence holding a deduplication id, or 0. */
  function Find(stream: Stream, dedupId: string): (r: nat)
    ensures r <= |stream|
    ensures r > 0 ==> stream[r - 1].dedupId == dedupId
    ensures r == 0 ==> forall i :: 0 <= i < |stream| ==> stream[i].dedupId != dedupId
  {
    if stream == [] then 0
    else
      var n := |stream| - 1;
      if stream[n].dedupId == dedupId then n + 1 else Find(stream[..n], dedupId)
  }

  ghost predicate InLog(stream: Stream, s: Subject, commandId: string) {
    exists i :: 0 <= i < |stream| && stream[i].subject == s && stream[i].fact.commandId == commandId
  }

  /** InLog, with this payload hash. */
  ghost predicate InLogAs(stream: Stream, s: Subject, commandId: string, hash: string) {
    exists i :: 0 <= i < |stream| && stream[i].subject == s && stream[i].fact.commandId == commandId
                && stream[i].fact.payloadHash == hash
  }

  // ------------------------------------------------------- status and sequence

  datatype Status = Fresh | Open | Closed

  predicate LegalTransition(status: Status, t: EventType) {
    if t.Started? then status.Fresh? else status.Open?
  }

  function ApplyTransition(status: Status, t: EventType): Status {
    match t
    case Started => Open
    case Ended => Closed
    case _ => status
  }

  function StatusOf(log: seq<Event>): Status {
    if log == [] then Fresh
    else ApplyTransition(StatusOf(log[..|log| - 1]), log[|log| - 1].eventType)
  }

  /** The greatest sequence of a log, at least 0. */
  function MaxSeq(log: seq<Event>): int {
    if log == [] then 0
    else
      var m := MaxSeq(log[..|log| - 1]);
      if log[|log| - 1].sequence > m then log[|log| - 1].sequence else m
  }

  // ------------------------------------------------------- the broker

  datatype CheckOrder = OccFirst | DedupFirst

  datatype Outcome = Committed(at: nat) | Duplicate(at: nat) | Conflict

  function Decide(order: CheckOrder, stream: Stream, e: Entry, expected: nat): Outcome {
    var dup := Find(stream, e.dedupId);
    var current := LastSeq(stream, e.subject) == expected;
    if order.OccFirst? then
      if !current then Conflict else if dup > 0 then Duplicate(dup) else Committed(|stream| + 1)
    else
      if dup > 0 then Duplicate(dup) else if !current then Conflict else Committed(|stream| + 1)
  }

  function AfterAppend(order: CheckOrder, stream: Stream, e: Entry, expected: nat): Stream {
    if Decide(order, stream, e, expected).Committed? then stream + [e] else stream
  }

  // ------------------------------------------------------- cached states

  /** interactionState. `owner` is the process holding its mutex, or -1. */
  datatype Obj = Obj(subject: Subject, sequence: int, streamSeq: nat, status: Status, part: View,
                     cache: Cache, poisoned: bool, owner: int)

  function RebuiltCache(log: seq<Event>, max: int): Cache {
    if log == [] then Cache(map[], [])
    else
      var e := log[|log| - 1];
      var c := RebuiltCache(log[..|log| - 1], max);
      if e.commandId == "" then c else Put(c, e.commandId, StoredResult(e.payloadHash, true), max)
  }

  function Rebuild(stream: Stream, s: Subject, max: int): Obj {
    var log := SubjectLog(stream, s);
    Obj(s, MaxSeq(log), LastSeq(stream, s), StatusOf(log), Fold(log), RebuiltCache(log, max), false, -1)
  }

  /** A cached state whose token is the subject's last sequence. */
  predicate Current(stream: Stream, o: Obj) {
    o.streamSeq == LastSeq(stream, o.subject)
  }

  ghost predicate TokenOk(stream: Stream, o: Obj) {
    o.streamSeq <= |stream|
  }

  ghost predicate StatusOk(stream: Stream, o: Obj) {
    Current(stream, o) ==> o.status == StatusOf(SubjectLog(stream, o.subject))
  }

  ghost predicate DenseOk(stream: Stream, o: Obj) {
    Current(stream, o) ==> o.sequence == |SubjectLog(stream, o.subject)|
  }

  ghost predicate RisingOk(stream: Stream, o: Obj) {
    Current(stream, o) ==> o.sequence >= MaxSeq(SubjectLog(stream, o.subject))
  }

  ghost predicate PartOk(stream: Stream, o: Obj) {
    && (forall a :: a in o.part ==> OneOpen(o.part[a]))
    && (Current(stream, o) ==>
          forall a :: Token(a) && IsParticipantNow(o.part, a) ==> IsParticipantNow(Fold(SubjectLog(stream, o.subject)), a))
  }

  ghost predicate CacheOk(stream: Stream, o: Obj) {
    && InStep(o.cache)
    && forall id :: id in o.cache.results && o.cache.results[id].accepted ==> InLog(stream, o.subject, id)
  }

  ghost predicate CacheExact(stream: Stream, o: Obj) {
    forall id :: id in o.cache.results && o.cache.results[id].accepted ==>
      InLogAs(stream, o.subject, id, o.cache.results[id].payloadHash)
  }

  // ------------------------------------------------------- appending

  lemma {:induction false} AppendedLog(stream: Stream, e: Entry, s: Subject)
    ensures SubjectLog(stream + [e], s) == SubjectLog(stream, s) + (if e.subject == s then [e.fact] else [])
    ensures LastSeq(stream + [e], s) == if e.subject == s then |stream| + 1 else LastSeq(stream, s)
  {
    assert (stream + [e])[..|stream|] == stream;
  }

  lemma {:induction false} GrownLog(log: seq<Event>, f: Event)
    ensures StatusOf(log + [f]) == ApplyTransition(StatusOf(log), f.eventType)
    ensures MaxSeq(log + [f]) == if f.sequence > MaxSeq(log) then f.sequence else MaxSeq(log)
    ensures Fold(log + [f]) == ApplyFact(Fold(log), f)
  {
    assert (log + [f])[..|log|] == log;
  }

  lemma InLogGrows(stream: Stream, e: Entry, s: Subject, id: string)
    requires InLog(stream, s, id)
    ensures InLog(stream + [e], s, id)
  {
    var i :| 0 <= i < |stream| && stream[i].subject == s && stream[i].fact.commandId == id;
    assert (stream + [e])[i] == stream[i];
  }

  lemma InLogAsGrows(stream: Stream, e: Entry, s: Subject, id: string, hash: string)
    requires InLogAs(stream, s, id, hash)
    ensures InLogAs(stream + [e], s, id, hash)
  {
    var i :| 0 <= i < |stream| && stream[i].subject == s && stream[i].fact.commandId == id
             && stream[i].fact.payloadHash == hash;
    assert (stream + [e])[i] == stream[i];
  }

  /** What a cached state claims survives any append by anyone: on its own
      subject its token stops being current, elsewhere nothing changed. */
  lemma OthersUnaffected(stream: Stream, e: Entry, o: Obj)
    requires TokenOk(stream, o)
    ensures TokenOk(stream + [e], o)
    ensures StatusOk(stream, o) ==> StatusOk(stream + [e], o)
    ensures DenseOk(stream, o) ==> DenseOk(stream + [e], o)
    ensures RisingOk(stream, o) ==> RisingOk(stream + [e], o)
    ensures PartOk(stream, o) ==> PartOk(stream + [e], o)
    ensures CacheOk(stream, o) ==> CacheOk(stream + [e], o)
    ensures CacheExact(stream, o) ==> CacheExact(stream + [e], o)
  {
    AppendedLog(stream, e, o.subject);
    if CacheOk(stream, o) {
      forall id | id in o.cache.results && o.cache.results[id].accepted
        ensures InLog(stream + [e], o.subject, id)
      {
        InLogGrows(stream, e, o.subject, id);
      }
    }
    if CacheExact(stream, o) {
      forall id | id in o.cache.results && o.cache.results[id].accepted
        ensures InLogAs(stream + [e], o.subject, id, o.cache.results[id].payloadHash)
      {
        InLogAsGrows(stream, e, o.subject, id, o.cache.results[id].payloadHash);
      }
    }
  }

  lemma PutSound(stream: Stream, s: Subject, c: Cache, e: Event, max: int)
    requires InStep(c) && InLogAs(stream, s, e.commandId, e.payloadHash)
    requires forall id :: id in c.results ==> c.results[id].accepted && InLogAs(stream, s, id, c.results[id].payloadHash)
    ensures var c' := Put(c, e.commandId, StoredResult(e.payloadHash, true), max);
            && InStep(c')
            && forall id :: id in c'.results ==> c'.results[id].accepted && InLogAs(stream, s, id, c'.results[id].payloadHash)
  {
    PutIsBoundedFifo(c, e.commandId, StoredResult(e.payloadHash, true), max);
  }

  lemma {:induction false} RebuiltCacheSound(stream: Stream, s: Subject, log: seq<Event>, max: int)
    requires forall i :: 0 <= i < |log| ==> InLogAs(stream, s, log[i].commandId, log[i].payloadHash)
    ensures var c := RebuiltCache(log, max);
            && InStep(c)
            && forall id :: id in c.results ==> c.results[id].accepted && InLogAs(stream, s, id, c.results[id].payloadHash)
  {
    if log != [] {
      var e := log[|log| - 1];
      RebuiltCacheSound(stream, s, log[..|log| - 1], max);
      PutSound(stream, s, RebuiltCache(log[..|log| - 1], max), e, max);
    }
  }

  lemma {:induction false} SubjectLogInStream(stream: Stream, s: Subject)
    ensures forall k :: 0 <= k < |SubjectLog(stream, s)| ==>
              InLogAs(stream, s, SubjectLog(stream, s)[k].commandId, SubjectLog(stream, s)[k].payloadHash)
  {
    if stream != [] {
      var n := |stream| - 1;
      SubjectLogInStream(stream[..n], s);
      assert stream == stream[..n] + [stream[n]];
      forall k | 0 <= k < |SubjectLog(stream, s)|
        ensures InLogAs(stream, s, SubjectLog(stream, s)[k].commandId, SubjectLog(stream, s)[k].payloadHash)
      {
        var f := SubjectLog(stream, s)[k];
        if k < |SubjectLog(stream[..n], s)| {
          InLogAsGrows(stream[..n], stream[n], s, f.commandId, f.payloadHash);
        } else {
          assert stream[n].fact == f;
        }
      }
    }
  }

  /** A rebuild represents the whole log: every claim holds of it. */
  lemma RebuildSound(stream: Stream, s: Subject, max: int)
    ensures var o := Rebuild(stream, s, max);
            && TokenOk(stream, o) && StatusOk(stream, o) && RisingOk(stream, o) && PartOk(stream, o)
            && CacheOk(stream, o) && CacheExact(stream, o)
            && (forall id :: id in o.cache.results ==>
                  o.cache.results[id].accepted && InLogAs(stream, s, id, o.cache.results[id].payloadHash))
  {
    var log := SubjectLog(stream, s);
    FoldOneOpen(log);
    SubjectLogInStream(stream, s);
    RebuiltCacheSound(stream, s, log, max);
  }
}
