/** The router's guarantees over every run: four claims about one subject, each
    with the condition under which the code keeps it, proved by one induction. */
module RouterSafety {
  import opened Encoding
  import opened Membership
  import opened Admission
  import opened ResultCache
  import opened RouterLog
  import opened RouterMachine
  import opened RouterBase

  datatype Claim = Lifecycle | Dense | Rising | Gate

  // ------------------------------------------------------- conditions

  /** No fact of subject `s` took the path `h`. */
  ghost predicate Clear(marks: set<Mark>, h: Hazard, s: Subject) {
    forall m :: m in marks && m.hazard == h ==> m.subject != s
  }

  /** No end of `j'` bears the id of a participation fact of `j`. */
  ghost predicate EndsApart(j: Job, j': Job) {
    forall k, k' :: 0 <= k < |j.items| && 0 <= k' < |j'.items| && j.items[k].commandId == j'.items[k'].commandId ==>
      !j'.items[k'].eventType.Ended?
  }

  ghost predicate EndsKept(issued: seq<Job>, s: Subject) {
    forall j, j' {:trigger EndsApart(j, j')} ::
      j in issued && j' in issued && j.subject == j'.subject == s && j.participation ==> EndsApart(j, j')
  }

  /** No other fact of `j'` bears the id under which an agent joins by `j`. Only an
      agent whose name is a subject token can write. */
  ghost predicate JoinsApart(j: Job, j': Job) {
    forall k, k' :: 0 <= k < |j.items| && 0 <= k' < |j'.items| && j.items[k].commandId == j'.items[k'].commandId
                    && j.items[k].eventType.Joined? && Token(j.items[k].actor) ==>
      j'.items[k'].eventType.Joined? && j'.items[k'].actor == j.items[k].actor
  }

  ghost predicate JoinsKept(issued: seq<Job>, s: Subject) {
    forall j, j' {:trigger JoinsApart(j, j')} ::
      j in issued && j' in issued && j.subject == j'.subject == s && j.participation ==> JoinsApart(j, j')
  }

  /** Each guarantee's condition, on the history of the one subject. */
  ghost predicate Assumes(claim: Claim, cfg: Config, s: Subject, w: World) {
    match claim
    case Lifecycle => cfg.order.OccFirst? || Clear(w.marks, ParticipationDuplicate, s) || EndsKept(w.issued, s)
    case Dense => Clear(w.marks, ParticipationDuplicate, s)
    case Rising => cfg.order.OccFirst? || Clear(w.marks, ParticipationDuplicate, s)
    case Gate =>
      && Clear(w.marks, ErrorReconcile, s)
      && (Clear(w.marks, ParticipationDuplicate, s) || (cfg.order.OccFirst? && JoinsKept(w.issued, s)))
  }

  // ------------------------------------------------------- claims

  /** What the claim says of an entry, given the stream before it. */
  ghost predicate EntryGood(claim: Claim, prefix: Stream, e: Entry) {
    var log := SubjectLog(prefix, e.subject);
    match claim
    case Lifecycle => LegalTransition(StatusOf(log), e.fact.eventType)
    case Dense => e.fact.sequence == |log| + 1
    case Rising => e.fact.sequence > MaxSeq(log)
    case Gate => e.gated ==> IsParticipantNow(Fold(log), e.fact.actor)
  }

  /** What it needs of a cached state. */
  ghost predicate ObjGood(claim: Claim, stream: Stream, o: Obj) {
    match claim
    case Lifecycle => StatusOk(stream, o)
    case Dense => DenseOk(stream, o)
    case Rising => RisingOk(stream, o)
    case Gate => PartOk(stream, o)
  }

  ghost predicate EntriesGood(claim: Claim, s: Subject, stream: Stream) {
    forall i :: 0 <= i < |stream| && stream[i].subject == s ==> EntryGood(claim, stream[..i], stream[i])
  }

  ghost predicate ClaimHolds(claim: Claim, s: Subject, w: World) {
    && EntriesGood(claim, s, w.stream)
    && (forall oid :: oid in w.objs && w.objs[oid].subject == s ==> ObjGood(claim, w.stream, w.objs[oid]))
  }

  // ------------------------------------------------------- building blocks

  lemma EntriesGrow(claim: Claim, s: Subject, stream: Stream, e: Entry)
    requires EntriesGood(claim, s, stream) && (e.subject == s ==> EntryGood(claim, stream, e))
    ensures EntriesGood(claim, s, stream + [e])
  {
    var after := stream + [e];
    forall i | 0 <= i < |after| && after[i].subject == s ensures EntryGood(claim, after[..i], after[i]) {
      assert after[..i] == stream[..i];
      assert stream[..|stream|] == stream;
    }
  }

  lemma GoodGrows(claim: Claim, stream: Stream, e: Entry, o: Obj)
    requires TokenOk(stream, o) && ObjGood(claim, stream, o)
    ensures ObjGood(claim, stream + [e], o)
  {
    OthersUnaffected(stream, e, o);
  }

  lemma AppendKeepsClaim(claim: Claim, s: Subject, w: World, e: Entry)
    requires Base(w) && ClaimHolds(claim, s, w) && (e.subject == s ==> EntryGood(claim, w.stream, e))
    ensures ClaimHolds(claim, s, w.(stream := w.stream + [e]))
  {
    EntriesGrow(claim, s, w.stream, e);
    forall oid | oid in w.objs && w.objs[oid].subject == s ensures ObjGood(claim, w.stream + [e], w.objs[oid]) {
      GoodGrows(claim, w.stream, e, w.objs[oid]);
    }
  }

  /** Replacing one cached state, whatever happens to the commands. */
  lemma ReplacedKeepsClaim(claim: Claim, s: Subject, w: World, w': World, oid: int)
    requires ClaimHolds(claim, s, w) && oid in w'.objs
    requires w'.objs[oid].subject == s ==> ObjGood(claim, w.stream, w'.objs[oid])
    requires w'.stream == w.stream && w'.objs == w.objs[oid := w'.objs[oid]]
    ensures ClaimHolds(claim, s, w')
  {
  }

  lemma OwnerDoesNotMatter(claim: Claim, stream: Stream, o: Obj, owner: int)
    requires ObjGood(claim, stream, o)
    ensures ObjGood(claim, stream, o.(owner := owner))
  {
  }

  lemma FinishKeepsClaim(claim: Claim, s: Subject, w: World, pid: int, o: Obj, accepted: bool)
    requires ClaimHolds(claim, s, w) && pid in w.procs
    requires o.subject == s ==> ObjGood(claim, w.stream, o)
    ensures ClaimHolds(claim, s, Finish(w, pid, o, accepted))
  {
    if o.subject == s {
      OwnerDoesNotMatter(claim, w.stream, o, -1);
    }
    ReplacedKeepsClaim(claim, s, w, Finish(w, pid, o, accepted), w.procs[pid].obj);
  }

  lemma {:induction false} DenseLog(stream: Stream, s: Subject)
    requires EntriesGood(Dense, s, stream)
    ensures var log := SubjectLog(stream, s);
            MaxSeq(log) == |log| && forall k :: 0 <= k < |log| ==> log[k].sequence == k + 1
  {
    if stream != [] {
      var n := |stream| - 1;
      PrefixGood(Dense, s, stream);
      DenseLog(stream[..n], s);
      if stream[n].subject == s {
        assert EntryGood(Dense, stream[..n], stream[n]);
        GrownLog(SubjectLog(stream[..n], s), stream[n].fact);
      }
    }
  }

  lemma PrefixGood(claim: Claim, s: Subject, stream: Stream)
    requires EntriesGood(claim, s, stream) && stream != []
    ensures EntriesGood(claim, s, stream[..|stream| - 1])
  {
    var prefix := stream[..|stream| - 1];
    forall i | 0 <= i < |prefix| && prefix[i].subject == s ensures EntryGood(claim, prefix[..i], prefix[i]) {
      assert prefix[..i] == stream[..i];
    }
  }

  lemma RebuildGood(claim: Claim, stream: Stream, s: Subject, max: int)
    requires EntriesGood(claim, s, stream)
    ensures ObjGood(claim, stream, Rebuild(stream, s, max))
  {
    RebuildSound(stream, s, max);
    if claim.Dense? {
      DenseLog(stream, s);
    }
  }

  lemma AdoptGood(claim: Claim, stream: Stream, o: Obj, max: int)
    requires EntriesGood(claim, o.subject, stream) && ObjOk(stream, o) && ObjGood(claim, stream, o)
    ensures ObjGood(claim, stream, Adopt(o, Rebuild(stream, o.subject, max), max))
  {
    var r := Rebuild(stream, o.subject, max);
    RebuildGood(claim, stream, o.subject, max);
    RebuildSound(stream, o.subject, max);
    CopyMissingMerges(o.cache, r.cache, r.cache.order, max);
  }

  /** What passing the checks establishes. */
  lemma ProceedMeans(o: Obj, job: Job, item: Item, max: int)
    requires CheckItem(o, job, item, max).Proceed?
    ensures LegalTransition(o.status, item.eventType)
    ensures !job.participation && job.gated ==> IsParticipantNow(o.part, job.suffix)
  {
  }

  lemma AdvanceFields(o: Obj, job: Job, item: Item, at: nat, max: int)
    ensures var o' := Advance(o, job, item, at, max);
            && o'.subject == o.subject && o'.streamSeq == at && o'.sequence == o.sequence + 1
            && o'.status == ApplyTransition(o.status, item.eventType)
            && o'.part == (if job.participation then ApplyFact(o.part, NewFact(o, job, item)) else o.part)
            && o'.cache == Put(o.cache, item.commandId, StoredResult(item.hash, true), max)
  {
  }

  lemma CommitGoodCounts(claim: Claim, stream: Stream, o: Obj, e: Entry, o': Obj)
    requires claim.Lifecycle? || claim.Dense? || claim.Rising?
    requires ObjGood(claim, stream, o) && Current(stream, o) && e.subject == o.subject == o'.subject
    requires LegalTransition(o.status, e.fact.eventType) && e.fact.sequence == o.sequence + 1
    requires o'.status == ApplyTransition(o.status, e.fact.eventType) && o'.sequence == o.sequence + 1
    ensures EntryGood(claim, stream, e) && ObjGood(claim, stream + [e], o')
  {
    AppendedLog(stream, e, o.subject);
    GrownLog(SubjectLog(stream, o.subject), e.fact);
  }

  lemma CommitGoodMembers(stream: Stream, o: Obj, job: Job, e: Entry, o': Obj)
    requires PartOk(stream, o) && Current(stream, o) && e.subject == o.subject == o'.subject
    requires job.participation || !IsParticipationFact(e.fact.eventType)
    requires e.gated ==> Token(e.fact.actor) && IsParticipantNow(o.part, e.fact.actor)
    requires o'.part == if job.participation then ApplyFact(o.part, e.fact) else o.part
    ensures EntryGood(Gate, stream, e) && PartOk(stream + [e], o')
  {
    var log := SubjectLog(stream, o.subject);
    AppendedLog(stream, e, o.subject);
    GrownLog(log, e.fact);
    FoldOneOpen(log);
    CommitKeepsMembers(o.part, Fold(log), job, e.fact);
  }

  /** The heart of the protocol: an append that passes the optimistic check was
      prepared from the whole log, so both the new entry and the advanced state
      are good. */
  lemma CommitGood(claim: Claim, stream: Stream, o: Obj, job: Job, item: Item, max: int)
    requires ObjOk(stream, o) && ObjGood(claim, stream, o) && Current(stream, o)
    requires Sane(job) && item in job.items && o.subject == job.subject
    requires CheckItem(o, job, item, max).Proceed?
    ensures EntryGood(claim, stream, NewEntry(o, job, item))
    ensures ObjGood(claim, stream + [NewEntry(o, job, item)], Advance(o, job, item, |stream| + 1, max))
  {
    var e := NewEntry(o, job, item);
    var o' := Advance(o, job, item, |stream| + 1, max);
    AdvanceFields(o, job, item, |stream| + 1, max);
    ProceedMeans(o, job, item, max);
    match claim
    case Gate => CommitGoodMembers(stream, o, job, e, o');
    case _ => CommitGoodCounts(claim, stream, o, e, o');
  }

  /** Every writer of `part` that can write is a member of `fold`. */
  ghost predicate Within(part: View, fold: View) {
    forall a :: Token(a) && IsParticipantNow(part, a) ==> IsParticipantNow(fold, a)
  }

  lemma CommitKeepsMembers(part: View, fold: View, job: Job, f: Event)
    requires forall a :: a in part ==> OneOpen(part[a])
    requires forall a :: a in fold ==> OneOpen(fold[a])
    requires Within(part, fold) && (job.participation || !IsParticipationFact(f.eventType))
    ensures var part' := if job.participation then ApplyFact(part, f) else part;
            && (forall a :: a in part' ==> OneOpen(part'[a]))
            && Within(part', ApplyFact(fold, f))
  {
    ApplyOneOpen(part, f);
    forall a | Token(a) && IsParticipantNow(if job.participation then ApplyFact(part, f) else part, a)
      ensures IsParticipantNow(ApplyFact(fold, f), a)
    {
      MemberAfter(part, f, a);
      MemberAfter(fold, f, a);
    }
  }

  /** The last entry of a subject, seen as the end of its log. */
  lemma {:induction false} LastOfLog(stream: Stream, s: Subject)
    requires LastSeq(stream, s) > 0
    ensures var n := LastSeq(stream, s);
            && stream[n - 1].subject == s
            && SubjectLog(stream, s) == SubjectLog(stream[..n - 1], s) + [stream[n - 1].fact]
  {
    var n := |stream| - 1;
    if stream[n].subject != s {
      LastOfLog(stream[..n], s);
      assert stream[..n][..LastSeq(stream, s) - 1] == stream[..LastSeq(stream, s) - 1];
    }
  }

  /** The found entry was written for an issued command of this id. */
  lemma FoundUse(stream: Stream, issued: seq<Job>, job: Job, k: nat, e: Entry) returns (j: Job, i: nat)
    requires EntriesOk(stream, issued) && k < |job.items|
    requires e in stream && e.subject == job.subject && e.fact.commandId == job.items[k].commandId
    ensures j in issued && WrittenFor(e, j, i)
  {
    assert Provenance(issued, e);
    j, i :| j in issued && WrittenFor(e, j, i);
  }

  /** Status after a duplicate: the original, being the last entry and no end,
      left the interaction open. */
  lemma DuplicateStatus(order: CheckOrder, stream: Stream, o: Obj, e: Entry, o': Obj)
    requires EntriesGood(Lifecycle, o.subject, stream) && StatusOk(stream, o)
    requires o'.subject == o.subject && Current(stream, o') && o'.streamSeq > 0 && e == stream[o'.streamSeq - 1]
    requires o.status.Open? && o'.status == o.status
    requires order.OccFirst? ==> Current(stream, o)
    requires !order.OccFirst? ==> !e.fact.eventType.Ended?
    ensures StatusOk(stream, o')
  {
    if !order.OccFirst? {
      LastOfLog(stream, o.subject);
      var at := o'.streamSeq;
      assert EntryGood(Lifecycle, stream[..at - 1], stream[at - 1]);
      GrownLog(SubjectLog(stream[..at - 1], o.subject), e.fact);
    }
  }

  /** Members after a duplicate: a leave only takes away, and a join is the last
      entry's own. */
  lemma DuplicateMembers(stream: Stream, o: Obj, e: Entry, again: Event, o': Obj)
    requires PartOk(stream, o) && Current(stream, o)
    requires o'.subject == o.subject && Current(stream, o') && o'.streamSeq > 0 && e == stream[o'.streamSeq - 1]
    requires IsParticipationFact(again.eventType)
    requires again.eventType.Joined? && Token(again.actor) ==> e.fact.eventType.Joined? && e.fact.actor == again.actor
    requires o'.part == ApplyFact(o.part, again)
    ensures PartOk(stream, o')
  {
    LastOfLog(stream, o.subject);
    ApplyOneOpen(o.part, again);
    var before := SubjectLog(stream[..o'.streamSeq - 1], o.subject);
    GrownLog(before, e.fact);
    FoldOneOpen(before);
    forall a | Token(a) && IsParticipantNow(o'.part, a) ensures IsParticipantNow(Fold(SubjectLog(stream, o.subject)), a) {
      MemberAfter(o.part, again, a);
      MemberAfter(Fold(before), e.fact, a);
    }
  }

  /** A participation fact answered "duplicate" is taken as committed at the
      original's position; the claims that survive this are those whose
      condition covers it. */
  lemma DuplicateGood(claim: Claim, cfg: Config, w: World, o: Obj, job: Job, k: nat, at: nat)
    requires Base(w) && EntriesGood(claim, job.subject, w.stream)
    requires ObjGood(claim, w.stream, o) && o.subject == job.subject
    requires job in w.issued && job.participation && k < |job.items|
    requires LegalTransition(o.status, job.items[k].eventType)
    requires at == Find(w.stream, NewEntry(o, job, job.items[k]).dedupId) > 0
    requires cfg.order.OccFirst? ==> Current(w.stream, o)
    requires Assumes(claim, cfg, job.subject, Noting(w, ParticipationDuplicate, job.subject, job.items[k]))
    ensures ObjGood(claim, w.stream, Advance(o, job, job.items[k], at, cfg.maxResults))
  {
    var item := job.items[k];
    var o' := Advance(o, job, item, at, cfg.maxResults);
    AdvanceFields(o, job, item, at, cfg.maxResults);
    assert Sane(job);
    assert Mark(ParticipationDuplicate, job.subject, item) in Noting(w, ParticipationDuplicate, job.subject, item).marks;
    FoundIsOwn(w.stream, w.issued, job, item.commandId);
    if claim.Gate? {
      ApplyOneOpen(o.part, NewFact(o, job, item));
    }
    if Current(w.stream, o') {
      var e := w.stream[at - 1];
      var j, i := FoundUse(w.stream, w.issued, job, k, e);
      match claim
      case Lifecycle =>
        assert !cfg.order.OccFirst? ==> EndsApart(job, j);
        DuplicateStatus(cfg.order, w.stream, o, e, o');
      case Gate =>
        assert JoinsApart(job, j);
        DuplicateMembers(w.stream, o, e, NewFact(o, job, item), o');
      case _ =>
    }
  }

  // ------------------------------------------------------- the steps

  lemma HistoryGrows(cfg: Config, w: World, step: Step)
    ensures w.issued <= Apply(cfg, w, step).issued && w.marks <= Apply(cfg, w, step).marks
  {
  }

  /** The conditions look only at the history, so they hold earlier too. */
  lemma AssumesEarlier(claim: Claim, cfg: Config, s: Subject, w: World, w': World)
    requires w.issued <= w'.issued && w.marks <= w'.marks && Assumes(claim, cfg, s, w')
    ensures Assumes(claim, cfg, s, w)
  {
    assert forall j :: j in w.issued ==> j in w'.issued;
  }

  lemma AnswerKeepsClaim(claim: Claim, cfg: Config, s: Subject, w: World, pid: int)
    requires Base(w) && ClaimHolds(claim, s, w) && Holds(w, pid, Ready)
    requires var p := w.procs[pid]; CheckItem(w.objs[p.obj], p.job, p.job.items[p.idx], cfg.maxResults).Answer?
    ensures var p := w.procs[pid];
            var a := CheckItem(w.objs[p.obj], p.job, p.job.items[p.idx], cfg.maxResults);
            ClaimHolds(claim, s, Finish(w, pid, a.obj, a.accepted))
  {
    var p := w.procs[pid];
    var o := w.objs[p.obj];
    var a := CheckItem(o, p.job, p.job.items[p.idx], cfg.maxResults);
    AnswerLeavesState(o, p.job, p.job.items[p.idx], cfg.maxResults);
    if o.subject == s {
      CacheDoesNotMatter(claim, w.stream, o, a.obj.cache);
    }
    FinishKeepsClaim(claim, s, w, pid, a.obj, a.accepted);
  }

  /** An answer from the checks changes the cached results at most. */
  lemma AnswerLeavesState(o: Obj, job: Job, item: Item, max: int)
    requires CheckItem(o, job, item, max).Answer?
    ensures var a := CheckItem(o, job, item, max); a.obj == o.(cache := a.obj.cache)
  {
  }

  lemma CacheDoesNotMatter(claim: Claim, stream: Stream, o: Obj, cache: Cache)
    requires ObjGood(claim, stream, o)
    ensures ObjGood(claim, stream, o.(cache := cache))
  {
  }

  lemma MoveKeepsClaim(claim: Claim, s: Subject, w: World, pid: int, pc: Pc)
    requires ClaimHolds(claim, s, w) && pid in w.procs
    ensures ClaimHolds(claim, s, Move(w, pid, pc))
  {
  }

  lemma ErrorKeepsClaim(claim: Claim, s: Subject, w: World, pid: int)
    requires ClaimHolds(claim, s, w) && Holds(w, pid, Ready)
    ensures ClaimHolds(claim, s, OnError(w, pid))
  {
    var p := w.procs[pid];
    if p.job.participation {
      FinishKeepsClaim(claim, s, w, pid, w.objs[p.obj].(poisoned := true), false);
    } else {
      MoveKeepsClaim(claim, s, w, pid, ReconcilingError);
    }
  }

  lemma CommitKeepsClaim(claim: Claim, cfg: Config, s: Subject, w: World, pid: int, e: Entry)
    requires Base(w) && ClaimHolds(claim, s, w) && Holds(w, pid, Ready) && !w.procs[pid].pc.Acquiring?
    requires var p := w.procs[pid];
             && CheckItem(w.objs[p.obj], p.job, p.job.items[p.idx], cfg.maxResults).Proceed?
             && e == NewEntry(w.objs[p.obj], p.job, p.job.items[p.idx])
             && LastSeq(w.stream, e.subject) == w.objs[p.obj].streamSeq
    ensures ClaimHolds(claim, s, w.(stream := w.stream + [e]))
    ensures var p := w.procs[pid];
            var w' := w.(stream := w.stream + [e]);
            ClaimHolds(claim, s, Finish(w', pid, Advance(w.objs[p.obj], p.job, p.job.items[p.idx], |w.stream| + 1, cfg.maxResults), true))
  {
    var p := w.procs[pid];
    var o, item := w.objs[p.obj], p.job.items[p.idx];
    var w' := w.(stream := w.stream + [e]);
    assert ProcOk(w, pid) && ObjOk(w.stream, o);
    if o.subject == s {
      CommitGood(claim, w.stream, o, p.job, item, cfg.maxResults);
    }
    AppendKeepsClaim(claim, s, w, e);
    AdvanceFields(o, p.job, item, |w.stream| + 1, cfg.maxResults);
    FinishKeepsClaim(claim, s, w', pid, Advance(o, p.job, item, |w.stream| + 1, cfg.maxResults), true);
  }

  lemma DuplicateKeepsClaim(claim: Claim, cfg: Config, s: Subject, w: World, pid: int, at: nat)
    requires Base(w) && ClaimHolds(claim, s, w) && Holds(w, pid, Ready)
    requires var p := w.procs[pid];
             && CheckItem(w.objs[p.obj], p.job, p.job.items[p.idx], cfg.maxResults).Proceed?
             && at == Find(w.stream, NewEntry(w.objs[p.obj], p.job, p.job.items[p.idx]).dedupId) > 0
             && (cfg.order.OccFirst? ==> Current(w.stream, w.objs[p.obj]))
    requires Assumes(claim, cfg, s, OnAnswer(cfg, w, pid, w.procs[pid].job.items[w.procs[pid].idx], Duplicate(at)))
    ensures ClaimHolds(claim, s, OnAnswer(cfg, w, pid, w.procs[pid].job.items[w.procs[pid].idx], Duplicate(at)))
  {
    var p := w.procs[pid];
    var o, item := w.objs[p.obj], p.job.items[p.idx];
    assert ProcOk(w, pid) && ObjOk(w.stream, o);
    if p.job.participation {
      var noted := Noting(w, ParticipationDuplicate, p.job.subject, item);
      AdvanceFields(o, p.job, item, at, cfg.maxResults);
      if o.subject == s {
        AssumesEarlier(claim, cfg, s, noted, OnAnswer(cfg, w, pid, item, Duplicate(at)));
        ProceedMeans(o, p.job, item, cfg.maxResults);
        DuplicateGood(claim, cfg, w, o, p.job, p.idx, at);
      }
      FinishKeepsClaim(claim, s, noted, pid, Advance(o, p.job, item, at, cfg.maxResults), true);
    } else {
      MoveKeepsClaim(claim, s, w, pid, ReconcilingDuplicate);
    }
  }

  /** The broker committed the fact; its answer may still be lost. */
  lemma PublishedKeepsClaim(claim: Claim, cfg: Config, s: Subject, w: World, pid: int, ack: Ack, e: Entry)
    requires Base(w) && ClaimHolds(claim, s, w) && Holds(w, pid, Ready) && !ack.Unsent?
    requires var p := w.procs[pid];
             && CheckItem(w.objs[p.obj], p.job, p.job.items[p.idx], cfg.maxResults).Proceed?
             && e == NewEntry(w.objs[p.obj], p.job, p.job.items[p.idx])
             && Decide(cfg.order, w.stream, e, w.objs[p.obj].streamSeq).Committed?
    ensures ClaimHolds(claim, s, TryAppend(cfg, w, pid, ack))
  {
    DecideMeans(cfg.order, w.stream, e, w.objs[w.procs[pid].obj].streamSeq);
    assert ProcOk(w, pid);
    CommitKeepsClaim(claim, cfg, s, w, pid, e);
    if ack.Lost? {
      ErrorKeepsClaim(claim, s, w.(stream := w.stream + [e]), pid);
    }
  }

  /** The broker did not, or was not asked to. */
  lemma UnpublishedCases(cfg: Config, w: World, pid: int, ack: Ack, e: Entry, outcome: Outcome)
    requires Holds(w, pid, Ready)
    requires e == NewEntry(w.objs[w.procs[pid].obj], w.procs[pid].job, w.procs[pid].job.items[w.procs[pid].idx])
    requires outcome == Decide(cfg.order, w.stream, e, w.objs[w.procs[pid].obj].streamSeq)
    requires outcome.Committed? ==> ack.Unsent?
    ensures TryAppend(cfg, w, pid, ack) ==
            if ack.Delivered? then OnAnswer(cfg, w, pid, w.procs[pid].job.items[w.procs[pid].idx], outcome) else OnError(w, pid)
  {
    assert w.(stream := w.stream) == w;
  }

  lemma TryAppendKeepsClaim(claim: Claim, cfg: Config, s: Subject, w: World, pid: int, ack: Ack)
    requires Base(w) && ClaimHolds(claim, s, w) && Holds(w, pid, Ready)
    requires var p := w.procs[pid]; CheckItem(w.objs[p.obj], p.job, p.job.items[p.idx], cfg.maxResults).Proceed?
    requires Assumes(claim, cfg, s, TryAppend(cfg, w, pid, ack))
    ensures ClaimHolds(claim, s, TryAppend(cfg, w, pid, ack))
  {
    var p := w.procs[pid];
    var o, item := w.objs[p.obj], p.job.items[p.idx];
    var e := NewEntry(o, p.job, item);
    var outcome := Decide(cfg.order, w.stream, e, o.streamSeq);
    if outcome.Committed? && !ack.Unsent? {
      PublishedKeepsClaim(claim, cfg, s, w, pid, ack, e);
    } else {
      UnpublishedCases(cfg, w, pid, ack, e, outcome);
      if !ack.Delivered? {
        ErrorKeepsClaim(claim, s, w, pid);
      } else if outcome.Duplicate? {
        assert ProcOk(w, pid);
        DecideMeans(cfg.order, w.stream, e, o.streamSeq);
        DuplicateKeepsClaim(claim, cfg, s, w, pid, outcome.at);
      } else {
        MoveKeepsClaim(claim, s, w, pid, Refolding);
        assert TryAppend(cfg, w, pid, ack) == Move(w, pid, Refolding);
      }
    }
  }

  lemma AttemptKeepsClaim(claim: Claim, cfg: Config, s: Subject, w: World, pid: int, ack: Ack)
    requires Base(w) && ClaimHolds(claim, s, w) && Holds(w, pid, Ready)
    requires Assumes(claim, cfg, s, DoAttempt(cfg, w, pid, ack))
    ensures ClaimHolds(claim, s, DoAttempt(cfg, w, pid, ack))
  {
    var p := w.procs[pid];
    if CheckItem(w.objs[p.obj], p.job, p.job.items[p.idx], cfg.maxResults).Answer? {
      AnswerKeepsClaim(claim, cfg, s, w, pid);
    } else {
      TryAppendKeepsClaim(claim, cfg, s, w, pid, ack);
    }
  }

  lemma RefoldKeepsClaim(claim: Claim, cfg: Config, s: Subject, w: World, pid: int, replayed: bool)
    requires Base(w) && ClaimHolds(claim, s, w) && Holds(w, pid, Refolding)
    ensures ClaimHolds(claim, s, DoRefold(cfg, w, pid, replayed))
  {
    var p := w.procs[pid];
    var o := w.objs[p.obj];
    assert ProcOk(w, pid) && ObjOk(w.stream, o);
    if !replayed || p.attempt >= cfg.maxRefold {
      FinishKeepsClaim(claim, s, w, pid, o.(poisoned := true), false);
    } else {
      if o.subject == s {
        AdoptGood(claim, w.stream, o, cfg.maxResults);
      }
      ReplacedKeepsClaim(claim, s, w, DoRefold(cfg, w, pid, replayed), p.obj);
    }
  }

  lemma ReconcileErrorKeepsClaim(claim: Claim, cfg: Config, s: Subject, w: World, pid: int, replayed: bool)
    requires Base(w) && ClaimHolds(claim, s, w) && Holds(w, pid, ReconcilingError)
    requires Assumes(claim, cfg, s, DoReconcileError(cfg, w, pid, replayed))
    ensures ClaimHolds(claim, s, DoReconcileError(cfg, w, pid, replayed))
  {
    var p := w.procs[pid];
    var o, item := w.objs[p.obj], p.job.items[p.idx];
    assert ProcOk(w, pid);
    var r := Rebuild(w.stream, o.subject, cfg.maxResults);
    if replayed && item.commandId in r.cache.results {
      if o.subject == s {
        RebuildGood(claim, w.stream, o.subject, cfg.maxResults);
        assert Mark(ErrorReconcile, s, item) in DoReconcileError(cfg, w, pid, replayed).marks;
      }
      FinishKeepsClaim(claim, s, Noting(w, ErrorReconcile, p.job.subject, item), pid,
                       o.(sequence := r.sequence, streamSeq := r.streamSeq, status := r.status), true);
    } else {
      FinishKeepsClaim(claim, s, w, pid, o.(poisoned := true), false);
    }
  }

  lemma ResolveKeepsClaim(claim: Claim, cfg: Config, s: Subject, w: World, pid: int, o: Obj, item: Item)
    requires ClaimHolds(claim, s, w) && pid in w.procs && (o.subject == s ==> ObjGood(claim, w.stream, o))
    ensures ClaimHolds(claim, s, Resolve(cfg, w, pid, o, item))
  {
    if item.commandId in o.cache.results {
      var found := o.cache.results[item.commandId];
      FinishKeepsClaim(claim, s, w, pid, o, (found.payloadHash == "" || found.payloadHash == item.hash) && found.accepted);
    } else {
      FinishKeepsClaim(claim, s, Noting(w, ForgottenDuplicate, w.procs[pid].job.subject, item), pid,
        o.(cache := Put(o.cache, item.commandId, StoredResult(item.hash, true), cfg.maxResults)), true);
    }
  }

  lemma ReconcileDuplicateKeepsClaim(claim: Claim, cfg: Config, s: Subject, w: World, pid: int, replayed: bool)
    requires Base(w) && ClaimHolds(claim, s, w) && Holds(w, pid, ReconcilingDuplicate)
    ensures ClaimHolds(claim, s, DoReconcileDuplicate(cfg, w, pid, replayed))
  {
    var p := w.procs[pid];
    var o, item := w.objs[p.obj], p.job.items[p.idx];
    assert ProcOk(w, pid) && ObjOk(w.stream, o);
    if !replayed {
      FinishKeepsClaim(claim, s, Noting(w, UnreadDuplicate, p.job.subject, item), pid, o.(poisoned := true), true);
    } else {
      if o.subject == s {
        AdoptGood(claim, w.stream, o, cfg.maxResults);
      }
      ResolveKeepsClaim(claim, cfg, s, w, pid, Adopt(o, Rebuild(w.stream, o.subject, cfg.maxResults), cfg.maxResults), item);
    }
  }

  lemma QuietStepKeepsClaim(claim: Claim, cfg: Config, s: Subject, w: World, step: Step)
    requires ClaimHolds(claim, s, w)
    requires step.Submit? || step.Load? || step.Take? || step.Evict? || step.Crash?
    ensures ClaimHolds(claim, s, Apply(cfg, w, step))
  {
    if step.Load? && step.of == s {
      RebuildGood(claim, w.stream, s, cfg.maxResults);
    }
  }

  lemma StepKeepsClaim(claim: Claim, cfg: Config, s: Subject, w: World, step: Step)
    requires Base(w) && ClaimHolds(claim, s, w) && Assumes(claim, cfg, s, Apply(cfg, w, step))
    ensures ClaimHolds(claim, s, Apply(cfg, w, step))
  {
    match step
    case Attempt(pid, ack) =>
      if Holds(w, pid, Ready) {
        AttemptKeepsClaim(claim, cfg, s, w, pid, ack);
      }
    case Refold(pid, replayed) =>
      if Holds(w, pid, Refolding) {
        RefoldKeepsClaim(claim, cfg, s, w, pid, replayed);
      }
    case ReconcileError(pid, replayed) =>
      if Holds(w, pid, ReconcilingError) {
        ReconcileErrorKeepsClaim(claim, cfg, s, w, pid, replayed);
      }
    case ReconcileDuplicate(pid, replayed) =>
      if Holds(w, pid, ReconcilingDuplicate) {
        ReconcileDuplicateKeepsClaim(claim, cfg, s, w, pid, replayed);
      }
    case _ => QuietStepKeepsClaim(claim, cfg, s, w, step);
  }

  /** Every run whose history of subject `s` meets a claim's condition keeps the
      claim on `s`, whatever happens on other subjects. */
  lemma {:induction false} ClaimAlways(claim: Claim, cfg: Config, s: Subject, steps: seq<Step>)
    requires Assumes(claim, cfg, s, Run(cfg, steps))
    ensures ClaimHolds(claim, s, Run(cfg, steps))
  {
    if steps != [] {
      var before, last := steps[..|steps| - 1], steps[|steps| - 1];
      HistoryGrows(cfg, Run(cfg, before), last);
      AssumesEarlier(claim, cfg, s, Run(cfg, before), Run(cfg, steps));
      ClaimAlways(claim, cfg, s, before);
      BaseAlways(cfg, before);
      StepKeepsClaim(claim, cfg, s, Run(cfg, before), last);
    }
  }
}
