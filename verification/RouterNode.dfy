/** One router's append loop as it runs: HandleCommand on a cached state, while
    other routers write (internal/signaling/router.go:251-280, 356-479). */
module RouterNode {
  import opened Encoding
  import opened Membership
  import opened Admission
  import opened ResultCache
  import opened RouterLog
  import opened RouterMachine
  import opened RouterBase
  import opened RouterSafety
  import opened LogStores

  // ------------------------------------------------------- what others keep

  ghost predicate GoodAt(claim: Claim, stream: Stream, i: int) {
    0 <= i < |stream| ==>
      && EntryGood(claim, stream[..i], stream[i])
      && DotFree(stream[i].subject.tenant) && DotFree(stream[i].subject.iid)
      && stream[i].dedupId == CommandDedupId(stream[i].subject.tenant, stream[i].subject.iid, stream[i].fact.commandId)
  }

  predicate Apart(stream: Stream, i: int, j: int) {
    0 <= i < j < |stream| ==> stream[i].dedupId != stream[j].dedupId
  }

  /** Every entry is good and rightly keyed, and no key is used twice. */
  ghost predicate Good(claim: Claim, stream: Stream) {
    && (forall i {:trigger GoodAt(claim, stream, i)} :: GoodAt(claim, stream, i))
    && (forall i, j {:trigger Apart(stream, i, j)} :: Apart(stream, i, j))
  }

  lemma GoodMeans(claim: Claim, stream: Stream, s: Subject)
    requires Good(claim, stream)
    ensures EntriesGood(claim, s, stream)
  {
    forall i | 0 <= i < |stream| && stream[i].subject == s ensures EntryGood(claim, stream[..i], stream[i]) {
      assert GoodAt(claim, stream, i);
    }
  }

  lemma {:induction false} GoodGrowsBy(claim: Claim, stream: Stream, e: Entry)
    requires Good(claim, stream) && EntryGood(claim, stream, e) && Find(stream, e.dedupId) == 0
    requires DotFree(e.subject.tenant) && DotFree(e.subject.iid)
    requires e.dedupId == CommandDedupId(e.subject.tenant, e.subject.iid, e.fact.commandId)
    ensures Good(claim, stream + [e])
  {
    var after := stream + [e];
    forall i ensures GoodAt(claim, after, i) {
      assert GoodAt(claim, stream, i);
      if 0 <= i < |after| {
        assert after[..i] == if i < |stream| then stream[..i] else stream;
      }
    }
    forall i, j ensures Apart(after, i, j) {
      assert Apart(stream, i, j);
    }
  }

  /** A cached state that stands right to a good stream. */
  ghost predicate Stands(claim: Claim, stream: Stream, o: Obj) {
    Good(claim, stream) && ObjOk(stream, o) && ObjGood(claim, stream, o)
  }

  /** The other writers keep what this one keeps. */
  ghost predicate Tame(claim: Claim, others: (nat, Stream) -> Stream) {
    forall n, stream {:trigger others(n, stream)} :: Good(claim, stream) ==> Good(claim, stream + others(n, stream))
  }

  lemma {:induction false} Survives(claim: Claim, stream: Stream, more: Stream, o: Obj)
    requires ObjOk(stream, o) && ObjGood(claim, stream, o)
    ensures ObjOk(stream + more, o) && ObjGood(claim, stream + more, o)
    decreases |more|
  {
    if more == [] {
      assert stream + more == stream;
    } else {
      var n := |more| - 1;
      Survives(claim, stream, more[..n], o);
      assert stream + more == stream + more[..n] + [more[n]];
      OthersUnaffected(stream + more[..n], more[n], o);
      GoodGrows(claim, stream + more[..n], more[n], o);
    }
  }

  lemma SurvivesTo(claim: Claim, before: Stream, after: Stream, o: Obj)
    requires ObjOk(before, o) && ObjGood(claim, before, o) && before <= after && Good(claim, after)
    ensures Stands(claim, after, o)
  {
    assert after == before + after[|before|..];
    Survives(claim, before, after[|before|..], o);
  }

  lemma {:induction false} DriftStaysGood(claim: Claim, others: (nat, Stream) -> Stream, n: nat, m: nat, stream: Stream)
    requires Tame(claim, others) && Good(claim, stream)
    ensures Good(claim, Drift(others, n, m, stream))
    decreases m
  {
    if m > n {
      DriftStaysGood(claim, others, n, m - 1, stream);
    }
  }

  lemma InLogStays(before: Stream, after: Stream, s: Subject, id: string)
    requires InLog(before, s, id) && before <= after
    ensures InLog(after, s, id)
  {
    var i :| 0 <= i < |before| && before[i].subject == s && before[i].fact.commandId == id;
    assert after[i] == before[i];
  }

  /** A duplicate answer names this very command. */
  lemma {:induction false} DuplicateIsOwn(claim: Claim, stream: Stream, job: Job, id: string)
    requires Good(claim, stream) && Sane(job)
    requires Find(stream, CommandDedupId(job.subject.tenant, job.subject.iid, id)) > 0
    ensures InLog(stream, job.subject, id)
  {
    var at := Find(stream, CommandDedupId(job.subject.tenant, job.subject.iid, id)) - 1;
    var e := stream[at];
    assert GoodAt(claim, stream, at);
    CommandDedupIdInjective(e.subject.tenant, e.subject.iid, e.fact.commandId, job.subject.tenant, job.subject.iid, id);
  }

  lemma {:induction false} CommitStands(claim: Claim, stream: Stream, o: Obj, job: Job, item: Item, max: int)
    requires Stands(claim, stream, o) && Current(stream, o) && Sane(job) && item in job.items && o.subject == job.subject
    requires CheckItem(o, job, item, max).Proceed? && Find(stream, NewEntry(o, job, item).dedupId) == 0
    ensures var e := NewEntry(o, job, item);
            && Stands(claim, stream + [e], o) && Stands(claim, stream + [e], Advance(o, job, item, |stream| + 1, max))
            && InLog(stream + [e], job.subject, item.commandId)
  {
    var e := NewEntry(o, job, item);
    CommitGood(claim, stream, o, job, item, max);
    GoodGrowsBy(claim, stream, e);
    OwnEntryIsLogged(stream, e);
    SurvivesTo(claim, stream, stream + [e], o);
    AdvanceOk(stream + [e], o, job, item, |stream| + 1, max);
  }

  /** What an append does, whatever landed before it. */
  lemma Published(claim: Claim, order: CheckOrder, stream: Stream, before: Stream, o: Obj, job: Job, item: Item, max: int)
    requires Stands(claim, stream, o) && stream <= before && Good(claim, before)
    requires Sane(job) && item in job.items && o.subject == job.subject && CheckItem(o, job, item, max).Proceed?
    ensures var e := NewEntry(o, job, item);
            var outcome := Decide(order, before, e, o.streamSeq);
            var after := AfterAppend(order, before, e, o.streamSeq);
            && Stands(claim, before, o) && Stands(claim, after, o) && before <= after
            && (!outcome.Conflict? ==> InLog(after, job.subject, item.commandId))
            && (outcome.Committed? ==> Stands(claim, after, Advance(o, job, item, outcome.at, max)))
  {
    var e := NewEntry(o, job, item);
    SurvivesTo(claim, stream, before, o);
    DecideMeans(order, before, e, o.streamSeq);
    var outcome := Decide(order, before, e, o.streamSeq);
    if outcome.Committed? {
      CommitStands(claim, before, o, job, item, max);
    } else if outcome.Duplicate? {
      DuplicateIsOwn(claim, before, job, item.commandId);
    }
  }

  lemma AdoptStands(claim: Claim, stream: Stream, o: Obj, max: int)
    requires Stands(claim, stream, o)
    ensures Stands(claim, stream, Adopt(o, Rebuild(stream, o.subject, max), max))
  {
    GoodMeans(claim, stream, o.subject);
    AdoptOk(stream, o, max);
    AdoptGood(claim, stream, o, max);
  }

  lemma AnswerStands(claim: Claim, stream: Stream, o: Obj, job: Job, item: Item, max: int)
    requires Stands(claim, stream, o) && o.subject == job.subject && !job.participation
    requires CheckCommand(o, job, item, max).Answer?
    ensures var a := CheckCommand(o, job, item, max);
            && Stands(claim, stream, a.obj) && a.obj.poisoned == o.poisoned
            && (a.accepted ==> InLog(stream, job.subject, item.commandId))
  {
    CheckIsBacked(stream, o, job, item, max);
  }

  lemma PoisonedStands(claim: Claim, stream: Stream, o: Obj)
    requires Stands(claim, stream, o)
    ensures Stands(claim, stream, o.(poisoned := true))
  {
  }

  lemma NotedStands(claim: Claim, stream: Stream, o: Obj, id: string, hash: string, max: int)
    requires Stands(claim, stream, o) && InLog(stream, o.subject, id)
    ensures Stands(claim, stream, o.(cache := Put(o.cache, id, StoredResult(hash, true), max)))
  {
    PutOk(stream, o, id, StoredResult(hash, true), max);
  }

  /** The state after an append error reconciled from the log. */
  function Refreshed(o: Obj, rebuilt: Obj): Obj {
    o.(sequence := rebuilt.sequence, streamSeq := rebuilt.streamSeq, status := rebuilt.status)
  }

  lemma RefreshedStands(claim: Claim, stream: Stream, o: Obj, max: int)
    requires Stands(claim, stream, o)
    ensures var r := Rebuild(stream, o.subject, max);
            && ObjOk(stream, Refreshed(o, r)) && (!claim.Gate? ==> Stands(claim, stream, Refreshed(o, r)))
            && forall id :: id in r.cache.results ==> InLog(stream, o.subject, id)
  {
    GoodMeans(claim, stream, o.subject);
    RebuildGood(claim, stream, o.subject, max);
    RebuildSound(stream, o.subject, max);
  }

  // ------------------------------------------------------- the cached state

  class InteractionState {
    const subject: Subject
    const results: Results
    var sequence: int
    var streamSeq: nat
    var status: Status
    var part: View
    var poisoned: bool

    ghost function Contents(): Obj
      reads this, results
    {
      Obj(subject, sequence, streamSeq, status, part, results.Contents(), poisoned, -1)
    }

    ghost predicate Valid()
      reads this, results
    {
      InStep(results.Contents())
    }

    /** rebuild: one pass over the replayed facts. */
    constructor FromLog(subject: Subject, facts: seq<Event>, lastSubjSeq: nat, max: int)
      ensures Valid() && fresh(results)
      ensures Contents() == Obj(subject, MaxSeq(facts), lastSubjSeq, StatusOf(facts), Fold(facts), RebuiltCache(facts, max), false, -1)
    {
      this.subject := subject;
      results := new Results();
      sequence, streamSeq, status, part, poisoned := 0, lastSubjSeq, Fresh, Fold(facts), false;
      new;
      for i := 0 to |facts|
        invariant fresh(results) && Valid() && this.subject == subject && streamSeq == lastSubjSeq && part == Fold(facts) && !poisoned
        invariant sequence == MaxSeq(facts[..i]) && status == StatusOf(facts[..i])
        invariant results.Contents() == RebuiltCache(facts[..i], max)
      {
        var e := facts[i];
        assert facts[..i + 1][..i] == facts[..i];
        if e.sequence > sequence {
          sequence := e.sequence;
        }
        status := ApplyTransition(status, e.eventType);
        if e.commandId != "" {
          results.PutResult(e.commandId, StoredResult(e.payloadHash, true), max);
        }
      }
      assert facts[..|facts|] == facts;
    }

    /** Takes over what the log says; results are merged, never dropped for it. */
    method AdoptFrom(rebuilt: InteractionState, max: int)
      requires Valid() && rebuilt.Valid() && rebuilt != this && rebuilt.results != results
      modifies this, results
      ensures Valid() && Contents() == Adopt(old(Contents()), rebuilt.Contents(), max)
    {
      sequence, streamSeq, status, part := rebuilt.sequence, rebuilt.streamSeq, rebuilt.status, rebuilt.part;
      results.CopyMissingResults(rebuilt.results, max);
    }

    /** Takes over sequence, token and status, and nothing else. */
    method RefreshFrom(rebuilt: InteractionState)
      requires Valid() && rebuilt != this
      modifies this
      ensures Valid() && Contents() == Refreshed(old(Contents()), rebuilt.Contents())
    {
      sequence, streamSeq, status := rebuilt.sequence, rebuilt.streamSeq, rebuilt.status;
    }

    /** The checks at the top of the loop. */
    method Check(job: Job, item: Item, max: int) returns (proceed: bool, accepted: bool)
      requires Valid()
      modifies results
      ensures Valid()
      ensures var c := CheckCommand(old(Contents()), job, item, max);
              if c.Proceed? then proceed && Contents() == old(Contents())
              else !proceed && accepted == c.accepted && Contents() == c.obj
    {
      if item.commandId in results.results {
        var prev := results.results[item.commandId];
        if prev.payloadHash == "" {
          return false, prev.accepted;
        }
        if prev.payloadHash != item.hash {
          return false, false;
        }
        if prev.accepted {
          return false, true;
        }
      }
      if job.gated && !IsParticipantNow(part, job.suffix) {
        return false, false;
      }
      if !LegalTransition(status, item.eventType) {
        results.PutResult(item.commandId, StoredResult(item.hash, false), max);
        return false, false;
      }
      return true, false;
    }

    /** The append was committed: advance by one fact. */
    method Commit(job: Job, item: Item, at: nat, max: int)
      requires Valid() && !job.participation
      modifies this, results
      ensures Valid() && Contents() == Advance(old(Contents()), job, item, at, max)
    {
      sequence, streamSeq, status := sequence + 1, at, ApplyTransition(status, item.eventType);
      results.PutResult(item.commandId, StoredResult(item.hash, true), max);
    }

    /** A command that is no participation command. Whatever other routers write
        meanwhile and whatever becomes of the acknowledgements: the stream stays
        good, an accepted command is in it, and the state still stands right,
        except that after an append error its membership may be old. A state
        that is no longer trusted leaves the table. */
    method HandleCommand(store: LogStore, job: Job, cfg: Config, ghost claim: Claim)
      returns (accepted: bool, evict: bool, ghost reconciled: bool)
      requires Valid() && store.Valid() && Tame(claim, store.others)
      requires Sane(job) && !job.participation && subject == job.subject
      requires Stands(claim, store.stream, Contents())
      modifies this, results, store
      ensures Valid() && store.Valid() && old(store.stream) <= store.stream
      ensures Good(claim, store.stream) && ObjOk(store.stream, Contents())
      ensures (claim.Gate? && reconciled) || Stands(claim, store.stream, Contents())
      ensures accepted ==> InLog(store.stream, job.subject, job.items[0].commandId)
      ensures poisoned && !old(poisoned) ==> evict
    {
      var item := job.items[0];
      accepted, evict, reconciled := false, false, false;
      if poisoned {
        return;
      }
      var attempt := 0;
      while true
        invariant Valid() && store.Valid() && old(store.stream) <= store.stream && !poisoned && !reconciled && !evict
        invariant Stands(claim, store.stream, Contents()) && attempt <= cfg.maxRefold
        decreases cfg.maxRefold - attempt
      {
        var proceed, answer;
        proceed, accepted, answer := Try(store, job, item, claim, cfg.maxResults);
        if !proceed {
          return;
        }
        match answer
        case Failed =>
          accepted, reconciled := ReconcileError(store, item, claim, cfg.maxResults);
          evict := !accepted;
          return;
        case Answered(Committed(at)) =>
          Commit(job, item, at, cfg.maxResults);
          accepted, evict := true, status.Closed?;
          return;
        case Answered(Duplicate(_)) =>
          accepted := ReconcileDuplicate(store, job, item, claim, cfg.maxResults);
          evict := poisoned;
          return;
        case Answered(Conflict) =>
          var ok := Refold(store, attempt < cfg.maxRefold, claim, cfg.maxResults);
          if !ok {
            accepted, evict := false, true;
            return;
          }
          attempt := attempt + 1;
      }
    }

    /** Checks, then sends the fact prepared from this state. */
    method Try(store: LogStore, job: Job, item: Item, ghost claim: Claim, max: int)
      returns (proceed: bool, accepted: bool, answer: Answer)
      requires Valid() && store.Valid() && Tame(claim, store.others) && Stands(claim, store.stream, Contents())
      requires Sane(job) && !job.participation && subject == job.subject && item == job.items[0]
      modifies results, store
      ensures Valid() && store.Valid() && old(store.stream) <= store.stream && Stands(claim, store.stream, Contents())
      ensures !proceed && accepted ==> InLog(store.stream, subject, item.commandId)
      ensures proceed && answer.Answered? && !answer.outcome.Conflict? ==> InLog(store.stream, subject, item.commandId)
      ensures proceed && answer.Answered? && answer.outcome.Committed? ==>
                Stands(claim, store.stream, Advance(Contents(), job, item, answer.outcome.at, max))
    {
      ghost var o := Contents();
      answer := Failed;
      proceed, accepted := Check(job, item, max);
      if !proceed {
        AnswerStands(claim, store.stream, o, job, item, max);
        return;
      }
      answer := Publish(store, job, item, claim, max);
    }

    /** Sends the fact prepared from this state. Whatever the answer, the state
        still stands right; if it says committed, so does the advanced one. */
    method Publish(store: LogStore, job: Job, item: Item, ghost claim: Claim, ghost max: int) returns (answer: Answer)
      requires Valid() && store.Valid() && Tame(claim, store.others) && Stands(claim, store.stream, Contents())
      requires Sane(job) && subject == job.subject && item in job.items && CheckItem(Contents(), job, item, max).Proceed?
      modifies store
      ensures Valid() && store.Valid() && old(store.stream) <= store.stream && Contents() == old(Contents())
      ensures Stands(claim, store.stream, Contents())
      ensures answer.Answered? && !answer.outcome.Conflict? ==>
                InLog(store.stream, subject, item.commandId) && answer.outcome.at <= |store.stream|
      ensures answer.Answered? && answer.outcome.Committed? ==>
                Stands(claim, store.stream, Advance(Contents(), job, item, answer.outcome.at, max))
    {
      ghost var o := Contents();
      ghost var before := store.stream + store.others(store.clock, store.stream);
      Published(claim, store.order, store.stream, before, o, job, item, max);
      var e := Entry(subject, Event(item.eventType, sequence + 1, item.actor, item.commandId, item.hash, job.parent),
                     CommandDedupId(subject.tenant, subject.iid, item.commandId), job.gated, item.payload);
      assert e == NewEntry(o, job, item);
      answer := store.Append(e, streamSeq);
    }

    /** The checks before a participation fact. */
    method CheckFactNow(item: Item) returns (proceed: bool, accepted: bool)
      ensures var c := CheckFact(Contents(), item);
              if c.Proceed? then proceed else !proceed && accepted == c.accepted && c.obj == Contents()
    {
      if item.commandId in results.results {
        var prev := results.results[item.commandId];
        if prev.payloadHash != "" && prev.payloadHash != item.hash {
          return false, false;
        }
        if prev.accepted {
          return false, true;
        }
      }
      return LegalTransition(status, item.eventType), false;
    }

    /** One fact of a participation command. Accepted means it is in the log; the
        state still stands right unless the broker answered "duplicate", which the
        code takes for a commit. */
    method AppendParticipationFact(store: LogStore, job: Job, item: Item, cfg: Config, ghost claim: Claim)
      returns (accepted: bool, evict: bool, ghost duplicate: bool)
      requires Valid() && store.Valid() && Tame(claim, store.others)
      requires Sane(job) && job.participation && subject == job.subject && item in job.items
      requires Stands(claim, store.stream, Contents())
      modifies this, results, store
      ensures Valid() && store.Valid() && old(store.stream) <= store.stream
      ensures Good(claim, store.stream) && ObjOk(store.stream, Contents())
      ensures duplicate || Stands(claim, store.stream, Contents())
      ensures accepted ==> InLog(store.stream, job.subject, item.commandId)
      ensures poisoned && !old(poisoned) ==> evict && !accepted
    {
      accepted, evict, duplicate := false, false, false;
      if poisoned {
        return;
      }
      var attempt := 0;
      while true
        invariant Valid() && store.Valid() && old(store.stream) <= store.stream && !poisoned && !duplicate && !evict
        invariant Stands(claim, store.stream, Contents()) && attempt <= cfg.maxRefold
        decreases cfg.maxRefold - attempt
      {
        var proceed;
        proceed, accepted := CheckFactNow(item);
        if !proceed {
          CheckIsBacked(store.stream, Contents(), job, item, cfg.maxResults);
          evict := accepted && status.Closed?;
          return;
        }
        var answer := Publish(store, job, item, claim, cfg.maxResults);
        match answer
        case Failed =>
          PoisonedStands(claim, store.stream, Contents());
          poisoned, evict, accepted := true, true, false;
          return;
        case Answered(Conflict) =>
          var ok := Refold(store, attempt < cfg.maxRefold, claim, cfg.maxResults);
          if !ok {
            accepted, evict := false, true;
            return;
          }
          attempt := attempt + 1;
        case Answered(outcome) =>
          AdvanceOk(store.stream, Contents(), job, item, outcome.at, cfg.maxResults);
          CommitFact(job, item, outcome.at, cfg.maxResults);
          accepted, evict, duplicate := true, status.Closed?, outcome.Duplicate?;
          return;
      }
    }

    /** The duplicate flag is not looked at. */
    method CommitFact(job: Job, item: Item, at: nat, max: int)
      requires Valid() && job.participation
      modifies this, results
      ensures Valid() && Contents() == Advance(old(Contents()), job, item, at, max)
    {
      var fact := Event(item.eventType, sequence + 1, item.actor, item.commandId, item.hash, job.parent);
      sequence, streamSeq, status, part := sequence + 1, at, ApplyTransition(status, item.eventType), ApplyFact(part, fact);
      results.PutResult(item.commandId, StoredResult(item.hash, true), max);
    }

    /** A new state from the log, or null when it cannot be read. */
    method RebuildFrom(store: LogStore, ghost claim: Claim, max: int) returns (rebuilt: InteractionState?)
      requires Valid() && store.Valid() && Tame(claim, store.others) && Stands(claim, store.stream, Contents())
      modifies store
      ensures Valid() && store.Valid() && old(store.stream) <= store.stream && Contents() == old(Contents())
      ensures Stands(claim, store.stream, Contents())
      ensures rebuilt != null ==> fresh(rebuilt) && fresh(rebuilt.results) && rebuilt.Valid()
      ensures rebuilt != null ==> rebuilt.Contents() == Rebuild(store.stream, subject, max)
    {
      ghost var before := store.stream;
      var r := store.Replay(subject);
      DriftStaysGood(claim, store.others, old(store.clock), store.clock, before);
      SurvivesTo(claim, before, store.stream, Contents());
      if r.Unreadable? {
        return null;
      }
      rebuilt := new InteractionState.FromLog(subject, r.facts, r.lastSubjSeq, max);
    }

    /** Lost the race: re-fold, or give the state up. */
    method Refold(store: LogStore, again: bool, ghost claim: Claim, max: int) returns (ok: bool)
      requires Valid() && store.Valid() && Tame(claim, store.others) && Stands(claim, store.stream, Contents())
      modifies this, results, store
      ensures Valid() && store.Valid() && old(store.stream) <= store.stream && Stands(claim, store.stream, Contents())
      ensures (ok ==> again && poisoned == old(poisoned)) && (!ok ==> poisoned)
    {
      var rebuilt := RebuildFrom(store, claim, max);
      ghost var o := Contents();
      if rebuilt == null || !again {
        PoisonedStands(claim, store.stream, o);
        poisoned := true;
        return false;
      }
      AdoptFrom(rebuilt, max);
      AdoptStands(claim, store.stream, o, max);
      return true;
    }

    /** After an append error: accept if the fact turns out to be in the log.
        Sequence, token and status are refreshed; membership is not. */
    method ReconcileError(store: LogStore, item: Item, ghost claim: Claim, max: int) returns (accepted: bool, ghost reconciled: bool)
      requires Valid() && store.Valid() && Tame(claim, store.others) && Stands(claim, store.stream, Contents())
      modifies this, store
      ensures Valid() && store.Valid() && old(store.stream) <= store.stream && Good(claim, store.stream)
      ensures ObjOk(store.stream, Contents())
      ensures (claim.Gate? && reconciled) || Stands(claim, store.stream, Contents())
      ensures accepted ==> InLog(store.stream, subject, item.commandId)
      ensures accepted ==> poisoned == old(poisoned)
    {
      var rebuilt := RebuildFrom(store, claim, max);
      ghost var o := Contents();
      if rebuilt == null || item.commandId !in rebuilt.results.results {
        PoisonedStands(claim, store.stream, o);
        poisoned := true;
        return false, false;
      }
      RefreshedStands(claim, store.stream, o, max);
      assert item.commandId in rebuilt.Contents().cache.results;
      RefreshFrom(rebuilt);
      return true, true;
    }

    /** The store already had this id: compare the committed payload. */
    method ReconcileDuplicate(store: LogStore, job: Job, item: Item, ghost claim: Claim, max: int) returns (accepted: bool)
      requires Valid() && store.Valid() && Tame(claim, store.others) && Stands(claim, store.stream, Contents())
      requires subject == job.subject && InLog(store.stream, subject, item.commandId)
      modifies this, results, store
      ensures Valid() && store.Valid() && old(store.stream) <= store.stream && Stands(claim, store.stream, Contents())
      ensures InLog(store.stream, subject, item.commandId)
    {
      ghost var before := store.stream;
      var ok := Refold(store, true, claim, max);
      InLogStays(before, store.stream, subject, item.commandId);
      if !ok {
        return true;
      }
      if item.commandId in results.results {
        var found := results.results[item.commandId];
        return (found.payloadHash == "" || found.payloadHash == item.hash) && found.accepted;
      }
      NotedStands(claim, store.stream, Contents(), item.commandId, item.hash, max);
      results.PutResult(item.commandId, StoredResult(item.hash, true), max);
      return true;
    }
  }
}
