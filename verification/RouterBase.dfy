/** The part of the router invariant that holds with no assumption at all:
    ownership of cached states, provenance and uniqueness of entries, and that
    nothing is reported accepted that is not in the log. */
module RouterBase {
  import opened Encoding
  import opened Membership
  import opened Admission
  import opened ResultCache
  import opened RouterLog
  import opened RouterMachine

  /** An entry written for fact `k` of an issued job. */
  ghost predicate WrittenFor(e: Entry, job: Job, k: nat) {
    && k < |job.items|
    && e.subject == job.subject && e.gated == job.gated
    && e.fact.commandId == job.items[k].commandId && e.fact.eventType == job.items[k].eventType
    && e.fact.actor == job.items[k].actor && e.fact.payloadHash == job.items[k].hash
    && e.payload == job.items[k].payload
  }

  ghost predicate Provenance(issued: seq<Job>, e: Entry) {
    exists job, k: nat :: job in issued && WrittenFor(e, job, k)
  }

  ghost predicate EntriesOk(stream: Stream, issued: seq<Job>) {
    && (forall i :: 0 <= i < |stream| ==>
          && stream[i].dedupId == CommandDedupId(stream[i].subject.tenant, stream[i].subject.iid, stream[i].fact.commandId)
          && Provenance(issued, stream[i]))
    && (forall i, j :: 0 <= i < j < |stream| ==> stream[i].dedupId != stream[j].dedupId)
  }

  ghost predicate FactsLogged(stream: Stream, job: Job, n: nat)
    requires n <= |job.items|
  {
    forall k :: 0 <= k < n ==> InLog(stream, job.subject, job.items[k].commandId)
  }

  ghost predicate ProcOk(w: World, pid: int)
    requires pid in w.procs
  {
    var p := w.procs[pid];
    && pid >= 0 && p.job in w.issued && p.idx < |p.job.items|
    && FactsLogged(w.stream, p.job, p.idx)
    && (!p.pc.Acquiring? ==> p.obj in w.objs && w.objs[p.obj].owner == pid && w.objs[p.obj].subject == p.job.subject)
    && (p.pc.ReconcilingDuplicate? ==> FactsLogged(w.stream, p.job, p.idx + 1))
    && (p.pc.ReconcilingDuplicate? || p.pc.ReconcilingError? ==> !p.job.participation)
  }

  ghost predicate ObjOk(stream: Stream, o: Obj) {
    TokenOk(stream, o) && CacheOk(stream, o)
  }

  ghost predicate Base(w: World) {
    && (forall job :: job in w.issued ==> Sane(job))
    && EntriesOk(w.stream, w.issued)
    && (forall oid :: oid in w.objs ==> ObjOk(w.stream, w.objs[oid]))
    && (forall pid :: pid in w.procs ==> ProcOk(w, pid))
    && (forall r :: r in w.replies && r.accepted ==> r.job in w.issued && FactsLogged(w.stream, r.job, |r.job.items|))
  }

  // ------------------------------------------------------- building blocks

  lemma LoggedGrows(stream: Stream, e: Entry, job: Job, n: nat)
    requires n <= |job.items| && FactsLogged(stream, job, n)
    ensures FactsLogged(stream + [e], job, n)
  {
    forall k | 0 <= k < n ensures InLog(stream + [e], job.subject, job.items[k].commandId) {
      InLogGrows(stream, e, job.subject, job.items[k].commandId);
    }
  }

  /** A duplicate answer names an entry of the same subject and command. */
  lemma {:induction false} FoundIsOwn(stream: Stream, issued: seq<Job>, job: Job, id: string)
    requires EntriesOk(stream, issued) && (forall j :: j in issued ==> Sane(j)) && job in issued
    requires Find(stream, CommandDedupId(job.subject.tenant, job.subject.iid, id)) > 0
    ensures var e := stream[Find(stream, CommandDedupId(job.subject.tenant, job.subject.iid, id)) - 1];
            e.subject == job.subject && e.fact.commandId == id
    ensures InLog(stream, job.subject, id)
  {
    var e := stream[Find(stream, CommandDedupId(job.subject.tenant, job.subject.iid, id)) - 1];
    var j, k: nat :| j in issued && WrittenFor(e, j, k);
    CommandDedupIdInjective(e.subject.tenant, e.subject.iid, e.fact.commandId,
                            job.subject.tenant, job.subject.iid, id);
  }

  lemma AppendKeepsBase(w: World, e: Entry)
    requires Base(w)
    requires Provenance(w.issued, e) && Find(w.stream, e.dedupId) == 0
    requires e.dedupId == CommandDedupId(e.subject.tenant, e.subject.iid, e.fact.commandId)
    ensures Base(w.(stream := w.stream + [e]))
  {
    var w' := w.(stream := w.stream + [e]);
    forall oid | oid in w'.objs ensures ObjOk(w'.stream, w'.objs[oid]) {
      OthersUnaffected(w.stream, e, w.objs[oid]);
    }
    forall pid | pid in w'.procs ensures ProcOk(w', pid) {
      var p := w.procs[pid];
      LoggedGrows(w.stream, e, p.job, p.idx);
      if p.pc.ReconcilingDuplicate? {
        LoggedGrows(w.stream, e, p.job, p.idx + 1);
      }
    }
    forall r | r in w'.replies && r.accepted ensures FactsLogged(w'.stream, r.job, |r.job.items|) {
      LoggedGrows(w.stream, e, r.job, |r.job.items|);
    }
  }

  lemma FinishKeepsProc(w: World, pid: int, o: Obj, accepted: bool, q: int)
    requires Base(w) && pid in w.procs && !w.procs[pid].pc.Acquiring? && q in Finish(w, pid, o, accepted).procs
    requires accepted ==> FactsLogged(w.stream, w.procs[pid].job, w.procs[pid].idx + 1)
    ensures ProcOk(Finish(w, pid, o, accepted), q)
  {
    assert ProcOk(w, pid) && ProcOk(w, q);
  }

  lemma FinishKeepsBase(w: World, pid: int, o: Obj, accepted: bool)
    requires Base(w) && pid in w.procs && !w.procs[pid].pc.Acquiring?
    requires ObjOk(w.stream, o)
    requires accepted ==> FactsLogged(w.stream, w.procs[pid].job, w.procs[pid].idx + 1)
    ensures Base(Finish(w, pid, o, accepted))
  {
    var w' := Finish(w, pid, o, accepted);
    forall q | q in w'.procs ensures ProcOk(w', q) {
      FinishKeepsProc(w, pid, o, accepted, q);
    }
    assert ProcOk(w, pid);
    assert forall oid :: oid in w'.objs ==> ObjOk(w'.stream, w'.objs[oid]);
  }

  lemma LoggedNext(stream: Stream, job: Job, n: nat)
    requires n < |job.items| && FactsLogged(stream, job, n)
    requires InLog(stream, job.subject, job.items[n].commandId)
    ensures FactsLogged(stream, job, n + 1)
  {
  }

  lemma MoveKeepsBase(w: World, pid: int, pc: Pc)
    requires Base(w) && pid in w.procs && !w.procs[pid].pc.Acquiring? && !pc.Acquiring?
    requires pc.ReconcilingDuplicate? ==> FactsLogged(w.stream, w.procs[pid].job, w.procs[pid].idx + 1)
    requires pc.ReconcilingDuplicate? || pc.ReconcilingError? ==> !w.procs[pid].job.participation
    ensures Base(Move(w, pid, pc))
  {
    var w' := Move(w, pid, pc);
    assert ProcOk(w, pid);
    forall q | q in w'.procs ensures ProcOk(w', q) {
      assert ProcOk(w, q);
    }
  }

  lemma AdoptOk(stream: Stream, o: Obj, max: int)
    requires ObjOk(stream, o)
    ensures ObjOk(stream, Adopt(o, Rebuild(stream, o.subject, max), max))
  {
    var r := Rebuild(stream, o.subject, max);
    RebuildSound(stream, o.subject, max);
    CopyMissingMerges(o.cache, r.cache, r.cache.order, max);
  }

  lemma PutOk(stream: Stream, o: Obj, id: string, sr: StoredResult, max: int)
    requires ObjOk(stream, o)
    requires sr.accepted ==> InLog(stream, o.subject, id)
    ensures ObjOk(stream, o.(cache := Put(o.cache, id, sr, max)))
  {
    PutIsBoundedFifo(o.cache, id, sr, max);
  }

  lemma AdvanceOk(stream: Stream, o: Obj, job: Job, item: Item, at: nat, max: int)
    requires ObjOk(stream, o) && o.subject == job.subject && at <= |stream|
    requires InLog(stream, job.subject, item.commandId)
    ensures ObjOk(stream, Advance(o, job, item, at, max))
  {
    PutOk(stream, o, item.commandId, StoredResult(item.hash, true), max);
  }

  /** An accepting answer from the checks is backed by the log. */
  lemma CheckIsBacked(stream: Stream, o: Obj, job: Job, item: Item, max: int)
    requires ObjOk(stream, o) && o.subject == job.subject
    requires CheckItem(o, job, item, max).Answer?
    ensures var a := CheckItem(o, job, item, max);
            && ObjOk(stream, a.obj)
            && (a.accepted ==> a.obj == o && item.commandId in o.cache.results && o.cache.results[item.commandId].accepted
                               && InLog(stream, job.subject, item.commandId))
  {
    PutOk(stream, o, item.commandId, StoredResult(item.hash, false), max);
  }

  // ------------------------------------------------------- the steps

  lemma ProvenanceGrows(issued: seq<Job>, more: seq<Job>, e: Entry)
    requires Provenance(issued, e) && issued <= more
    ensures Provenance(more, e)
  {
  }

  lemma SubmitKeepsBase(cfg: Config, w: World, pid: int, id: Identity, subject: string, cmd: Command)
    requires Base(w) && pid >= 0
    ensures Base(DoSubmit(cfg, w, pid, id, subject, cmd))
  {
    var w' := DoSubmit(cfg, w, pid, id, subject, cmd);
    if pid !in w.procs && Admit(cfg.devMode, id, subject, cmd).Admitted? && Representable(cmd) {
      AdmittedIsSane(cfg.devMode, id, subject, cmd);
      forall i | 0 <= i < |w'.stream| ensures Provenance(w'.issued, w'.stream[i]) {
        ProvenanceGrows(w.issued, w'.issued, w.stream[i]);
      }
      forall q | q in w'.procs ensures ProcOk(w', q) {
        if q != pid {
          assert ProcOk(w, q);
        }
      }
    }
  }

  lemma TakeKeepsProc(w: World, pid: int, oid: int, q: int)
    requires Base(w) && pid in w.procs && w.procs[pid].pc.Acquiring? && oid in w.objs && w.objs[oid].owner == -1
    requires w.objs[oid].subject == w.procs[pid].job.subject && q in DoTake(w, pid, oid).procs
    ensures ProcOk(DoTake(w, pid, oid), q)
  {
    assert ProcOk(w, pid) && ProcOk(w, q);
  }

  lemma TakeKeepsBase(w: World, pid: int, oid: int)
    requires Base(w) && pid in w.procs && w.procs[pid].pc.Acquiring? && oid in w.objs && w.objs[oid].owner == -1
    requires w.objs[oid].subject == w.procs[pid].job.subject
    ensures Base(DoTake(w, pid, oid))
  {
    var w' := DoTake(w, pid, oid);
    forall q | q in w'.procs ensures ProcOk(w', q) {
      TakeKeepsProc(w, pid, oid, q);
    }
    assert ObjOk(w.stream, w.objs[oid]);
    assert forall o :: o in w'.objs ==> ObjOk(w'.stream, w'.objs[o]);
  }

  lemma DropKeepsBase(w: World, pids: set<int>, oid: int)
    requires Base(w)
    requires forall q :: q in w.procs && q !in pids && !w.procs[q].pc.Acquiring? ==> w.procs[q].obj != oid
    ensures Base(w.(procs := w.procs - pids, objs := w.objs - {oid}))
  {
    var w' := w.(procs := w.procs - pids, objs := w.objs - {oid});
    forall q | q in w'.procs ensures ProcOk(w', q) {
      assert ProcOk(w, q);
    }
  }

  lemma EntryIsSourced(w: World, pid: int)
    requires Base(w) && Holds(w, pid, Ready)
    ensures var p := w.procs[pid];
            Provenance(w.issued, NewEntry(w.objs[p.obj], p.job, p.job.items[p.idx]))
  {
    var p := w.procs[pid];
    assert ProcOk(w, pid);
    assert WrittenFor(NewEntry(w.objs[p.obj], p.job, p.job.items[p.idx]), p.job, p.idx);
  }

  lemma {:induction false} DecideMeans(order: CheckOrder, stream: Stream, e: Entry, expected: nat)
    ensures var outcome := Decide(order, stream, e, expected);
            && (outcome.Committed? ==> Find(stream, e.dedupId) == 0 && LastSeq(stream, e.subject) == expected
                                       && outcome.at == |stream| + 1)
            && (outcome.Duplicate? ==> outcome.at == Find(stream, e.dedupId) > 0
                                       && (order.OccFirst? ==> LastSeq(stream, e.subject) == expected))
            && AfterAppend(order, stream, e, expected) == if outcome.Committed? then stream + [e] else stream
  {
  }

  /** The stream part of an append attempt. */
  lemma PublishKeepsBase(w: World, pid: int, e: Entry, outcome: Outcome, stream': Stream)
    requires Base(w) && Holds(w, pid, Ready)
    requires e == NewEntry(w.objs[w.procs[pid].obj], w.procs[pid].job, w.procs[pid].job.items[w.procs[pid].idx])
    requires outcome.Committed? ==> Find(w.stream, e.dedupId) == 0 && outcome.at == |w.stream| + 1
    requires outcome.Duplicate? ==> outcome.at == Find(w.stream, e.dedupId) > 0
    requires stream' == if outcome.Committed? then w.stream + [e] else w.stream
    ensures Base(w.(stream := stream'))
    ensures !outcome.Conflict? ==> InLog(stream', e.subject, e.fact.commandId) && outcome.at <= |stream'|
  {
    assert ProcOk(w, pid);
    if outcome.Committed? {
      EntryIsSourced(w, pid);
      AppendKeepsBase(w, e);
      OwnEntryIsLogged(w.stream, e);
    } else {
      assert w.(stream := w.stream) == w;
      if outcome.Duplicate? {
        FoundIsOwn(w.stream, w.issued, w.procs[pid].job, e.fact.commandId);
      }
    }
  }

  lemma OwnEntryIsLogged(stream: Stream, e: Entry)
    ensures InLog(stream + [e], e.subject, e.fact.commandId)
    ensures InLogAs(stream + [e], e.subject, e.fact.commandId, e.fact.payloadHash)
  {
    assert (stream + [e])[|stream|] == e;
  }

  lemma ErrorKeepsBase(w: World, pid: int)
    requires Base(w) && Holds(w, pid, Ready)
    ensures Base(OnError(w, pid))
  {
    var p := w.procs[pid];
    assert ProcOk(w, pid);
    if p.job.participation {
      FinishKeepsBase(w, pid, w.objs[p.obj].(poisoned := true), false);
    } else {
      MoveKeepsBase(w, pid, ReconcilingError);
    }
  }

  lemma AnswerKeepsBase(cfg: Config, w: World, pid: int, outcome: Outcome)
    requires Base(w) && Holds(w, pid, Ready)
    requires var p := w.procs[pid];
             !outcome.Conflict? ==> InLog(w.stream, p.job.subject, p.job.items[p.idx].commandId) && outcome.at <= |w.stream|
    ensures Base(OnAnswer(cfg, w, pid, w.procs[pid].job.items[w.procs[pid].idx], outcome))
  {
    var p := w.procs[pid];
    var o, item := w.objs[p.obj], p.job.items[p.idx];
    assert ProcOk(w, pid);
    match outcome
    case Conflict => MoveKeepsBase(w, pid, Refolding);
    case Committed(at) =>
      LoggedNext(w.stream, p.job, p.idx);
      AdvanceOk(w.stream, o, p.job, item, at, cfg.maxResults);
      FinishKeepsBase(w, pid, Advance(o, p.job, item, at, cfg.maxResults), true);
    case Duplicate(at) =>
      LoggedNext(w.stream, p.job, p.idx);
      if p.job.participation {
        AdvanceOk(w.stream, o, p.job, item, at, cfg.maxResults);
        NotingKeepsBase(w, ParticipationDuplicate, p.job.subject, item);
        FinishKeepsBase(Noting(w, ParticipationDuplicate, p.job.subject, item), pid, Advance(o, p.job, item, at, cfg.maxResults), true);
      } else {
        MoveKeepsBase(w, pid, ReconcilingDuplicate);
      }
  }

  lemma NotingKeepsBase(w: World, h: Hazard, s: Subject, item: Item)
    requires Base(w)
    ensures Base(Noting(w, h, s, item))
  {
    forall q | q in w.procs ensures ProcOk(Noting(w, h, s, item), q) {
      assert ProcOk(w, q);
    }
  }

  lemma AttemptKeepsBase(cfg: Config, w: World, pid: int, ack: Ack)
    requires Base(w) && Holds(w, pid, Ready)
    ensures Base(DoAttempt(cfg, w, pid, ack))
  {
    var p := w.procs[pid];
    var o, item := w.objs[p.obj], p.job.items[p.idx];
    assert ProcOk(w, pid) && ObjOk(w.stream, o);
    var check := CheckItem(o, p.job, item, cfg.maxResults);
    if check.Answer? {
      CheckIsBacked(w.stream, o, p.job, item, cfg.maxResults);
      if check.accepted {
        LoggedNext(w.stream, p.job, p.idx);
      }
      FinishKeepsBase(w, pid, check.obj, check.accepted);
    } else {
      var e := NewEntry(o, p.job, item);
      DecideMeans(cfg.order, w.stream, e, o.streamSeq);
      PublishKeepsBase(w, pid, e, Decide(cfg.order, w.stream, e, o.streamSeq),
                       AfterAppend(cfg.order, w.stream, e, o.streamSeq));
      var w' := w.(stream := AfterAppend(cfg.order, w.stream, e, o.streamSeq));
      match ack
      case Delivered => AnswerKeepsBase(cfg, w', pid, Decide(cfg.order, w.stream, e, o.streamSeq));
      case Lost => ErrorKeepsBase(w', pid);
      case Unsent => ErrorKeepsBase(w, pid);
    }
  }

  lemma ReplaceKeepsProc(w: World, pid: int, o: Obj, q: int)
    requires Base(w) && pid in w.procs && !w.procs[pid].pc.Acquiring? && q in w.procs
    requires o.owner == pid && o.subject == w.procs[pid].job.subject
    ensures ProcOk(Replace(w, pid, o), q)
  {
    assert ProcOk(w, pid) && ProcOk(w, q);
  }

  lemma ReplaceKeepsBase(w: World, pid: int, o: Obj)
    requires Base(w) && pid in w.procs && !w.procs[pid].pc.Acquiring? && ObjOk(w.stream, o)
    requires o.owner == pid && o.subject == w.procs[pid].job.subject
    ensures Base(Replace(w, pid, o))
  {
    var w' := Replace(w, pid, o);
    forall q | q in w'.procs ensures ProcOk(w', q) {
      ReplaceKeepsProc(w, pid, o, q);
    }
    assert forall oid :: oid in w'.objs ==> ObjOk(w'.stream, w'.objs[oid]);
  }

  lemma PoisonKeepsBase(w: World, pid: int)
    requires Base(w) && pid in w.procs && !w.procs[pid].pc.Acquiring? && w.procs[pid].obj in w.objs
    ensures Base(Finish(w, pid, w.objs[w.procs[pid].obj].(poisoned := true), false))
  {
    assert ObjOk(w.stream, w.objs[w.procs[pid].obj]);
    FinishKeepsBase(w, pid, w.objs[w.procs[pid].obj].(poisoned := true), false);
  }

  lemma AdoptKeepsBase(w: World, pid: int, max: int)
    requires Base(w) && pid in w.procs && !w.procs[pid].pc.Acquiring? && w.procs[pid].obj in w.objs
    ensures var o := w.objs[w.procs[pid].obj]; Base(Replace(w, pid, Adopt(o, Rebuild(w.stream, o.subject, max), max)))
  {
    var o := w.objs[w.procs[pid].obj];
    assert ProcOk(w, pid) && ObjOk(w.stream, o);
    AdoptOk(w.stream, o, max);
    ReplaceKeepsBase(w, pid, Adopt(o, Rebuild(w.stream, o.subject, max), max));
  }

  lemma RefoldKeepsBase(cfg: Config, w: World, pid: int, replayed: bool)
    requires Base(w)
    ensures Base(Apply(cfg, w, Refold(pid, replayed)))
  {
    if Holds(w, pid, Refolding) {
      PoisonKeepsBase(w, pid);
      AdoptKeepsBase(w, pid, cfg.maxResults);
    }
  }

  lemma ReconcileErrorKeepsBase(cfg: Config, w: World, pid: int, replayed: bool)
    requires Base(w) && Holds(w, pid, ReconcilingError)
    ensures Base(DoReconcileError(cfg, w, pid, replayed))
  {
    var p := w.procs[pid];
    var o, item := w.objs[p.obj], p.job.items[p.idx];
    assert ProcOk(w, pid) && ObjOk(w.stream, o);
    var r := Rebuild(w.stream, o.subject, cfg.maxResults);
    RebuildSound(w.stream, o.subject, cfg.maxResults);
    if replayed && item.commandId in r.cache.results {
      LoggedNext(w.stream, p.job, p.idx);
      NotingKeepsBase(w, ErrorReconcile, p.job.subject, item);
      FinishKeepsBase(Noting(w, ErrorReconcile, p.job.subject, item), pid,
                      o.(sequence := r.sequence, streamSeq := r.streamSeq, status := r.status), true);
    } else {
      FinishKeepsBase(w, pid, o.(poisoned := true), false);
    }
  }

  lemma ReconcileDuplicateKeepsBase(cfg: Config, w: World, pid: int, replayed: bool)
    requires Base(w) && Holds(w, pid, ReconcilingDuplicate)
    ensures Base(DoReconcileDuplicate(cfg, w, pid, replayed))
  {
    var p := w.procs[pid];
    var o, item := w.objs[p.obj], p.job.items[p.idx];
    assert ProcOk(w, pid) && ObjOk(w.stream, o);
    NotingKeepsBase(w, UnreadDuplicate, p.job.subject, item);
    NotingKeepsBase(w, ForgottenDuplicate, p.job.subject, item);
    if !replayed {
      FinishKeepsBase(Noting(w, UnreadDuplicate, p.job.subject, item), pid, o.(poisoned := true), true);
    } else {
      AdoptOk(w.stream, o, cfg.maxResults);
      var o' := Adopt(o, Rebuild(w.stream, o.subject, cfg.maxResults), cfg.maxResults);
      if item.commandId in o'.cache.results {
        var found := o'.cache.results[item.commandId];
        FinishKeepsBase(w, pid, o', (found.payloadHash == "" || found.payloadHash == item.hash) && found.accepted);
      } else {
        assert InLog(w.stream, p.job.subject, p.job.items[p.idx].commandId);
        PutOk(w.stream, o', item.commandId, StoredResult(item.hash, true), cfg.maxResults);
        FinishKeepsBase(Noting(w, ForgottenDuplicate, p.job.subject, item), pid,
          o'.(cache := Put(o'.cache, item.commandId, StoredResult(item.hash, true), cfg.maxResults)), true);
      }
    }
  }

  lemma LoadKeepsBase(cfg: Config, w: World, oid: int, s: Subject)
    requires Base(w)
    ensures Base(Apply(cfg, w, Load(oid, s)))
  {
    RebuildSound(w.stream, s, cfg.maxResults);
    if oid !in w.objs {
      LoadsOk(w, oid, Rebuild(w.stream, s, cfg.maxResults));
    }
  }

  lemma LoadsOk(w: World, oid: int, o: Obj)
    requires Base(w) && oid !in w.objs && ObjOk(w.stream, o)
    ensures Base(w.(objs := w.objs[oid := o]))
  {
    var w' := w.(objs := w.objs[oid := o]);
    forall q | q in w'.procs ensures ProcOk(w', q) {
      assert ProcOk(w, q);
    }
  }

  lemma EvictKeepsBase(cfg: Config, w: World, oid: int)
    requires Base(w)
    ensures Base(Apply(cfg, w, Evict(oid)))
  {
    if oid in w.objs && w.objs[oid].owner == -1 {
      forall q | q in w.procs && !w.procs[q].pc.Acquiring? ensures w.procs[q].obj != oid {
        assert ProcOk(w, q);
      }
      DropKeepsBase(w, {}, oid);
      assert w.procs - {} == w.procs;
    }
  }

  lemma CrashKeepsBase(cfg: Config, w: World, pid: int)
    requires Base(w)
    ensures Base(Apply(cfg, w, Crash(pid)))
  {
    if pid in w.procs {
      var p := w.procs[pid];
      assert ProcOk(w, pid);
      if p.pc.Acquiring? {
        var w' := Apply(cfg, w, Crash(pid));
        forall q | q in w'.procs ensures ProcOk(w', q) {
          assert ProcOk(w, q);
        }
      } else {
        forall q | q in w.procs && q !in {pid} && !w.procs[q].pc.Acquiring? ensures w.procs[q].obj != p.obj {
          assert ProcOk(w, q);
        }
        DropKeepsBase(w, {pid}, p.obj);
      }
    }
  }

  lemma ErrorStepKeepsBase(cfg: Config, w: World, pid: int, replayed: bool)
    requires Base(w)
    ensures Base(Apply(cfg, w, ReconcileError(pid, replayed)))
  {
    if Holds(w, pid, ReconcilingError) {
      ReconcileErrorKeepsBase(cfg, w, pid, replayed);
    }
  }

  lemma DuplicateStepKeepsBase(cfg: Config, w: World, pid: int, replayed: bool)
    requires Base(w)
    ensures Base(Apply(cfg, w, ReconcileDuplicate(pid, replayed)))
  {
    if Holds(w, pid, ReconcilingDuplicate) {
      ReconcileDuplicateKeepsBase(cfg, w, pid, replayed);
    }
  }

  lemma AttemptStepKeepsBase(cfg: Config, w: World, pid: int, ack: Ack)
    requires Base(w)
    ensures Base(Apply(cfg, w, Attempt(pid, ack)))
  {
    if Holds(w, pid, Ready) {
      AttemptKeepsBase(cfg, w, pid, ack);
    }
  }

  lemma SubmitStepKeepsBase(cfg: Config, w: World, pid: int, id: Identity, subject: string, cmd: Command)
    requires Base(w)
    ensures Base(Apply(cfg, w, Submit(pid, id, subject, cmd)))
  {
    if pid >= 0 {
      SubmitKeepsBase(cfg, w, pid, id, subject, cmd);
    }
  }

  lemma TakeStepKeepsBase(cfg: Config, w: World, pid: int, oid: int)
    requires Base(w)
    ensures Base(Apply(cfg, w, Take(pid, oid)))
  {
    if Apply(cfg, w, Take(pid, oid)) != w {
      TakeKeepsBase(w, pid, oid);
    }
  }

  lemma StepKeepsBase(cfg: Config, w: World, step: Step)
    requires Base(w)
    ensures Base(Apply(cfg, w, step))
  {
    match step
    case Submit(pid, id, subject, cmd) => SubmitStepKeepsBase(cfg, w, pid, id, subject, cmd);
    case Load(oid, s) => LoadKeepsBase(cfg, w, oid, s);
    case Take(pid, oid) => TakeStepKeepsBase(cfg, w, pid, oid);
    case Attempt(pid, ack) => AttemptStepKeepsBase(cfg, w, pid, ack);
    case Refold(pid, replayed) => RefoldKeepsBase(cfg, w, pid, replayed);
    case ReconcileError(pid, replayed) => ErrorStepKeepsBase(cfg, w, pid, replayed);
    case ReconcileDuplicate(pid, replayed) => DuplicateStepKeepsBase(cfg, w, pid, replayed);
    case Evict(oid) => EvictKeepsBase(cfg, w, oid);
    case Crash(pid) => CrashKeepsBase(cfg, w, pid);
  }

  lemma {:induction false} BaseAlways(cfg: Config, steps: seq<Step>)
    ensures Base(Run(cfg, steps))
  {
    if steps != [] {
      BaseAlways(cfg, steps[..|steps| - 1]);
      StepKeepsBase(cfg, Run(cfg, steps[..|steps| - 1]), steps[|steps| - 1]);
    }
  }
}
