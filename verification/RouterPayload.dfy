/** What an accepting answer says about the payload: it is the logged one, or
    that very fact took a path on which the code does not compare. */
module RouterPayload {
  import opened Encoding
  import opened Membership
  import opened Admission
  import opened ResultCache
  import opened RouterLog
  import opened RouterMachine
  import opened RouterBase

  /** The fact with this id and hash took a path that skips the comparison. */
  ghost predicate Skipped(marks: set<Mark>, s: Subject, id: string, hash: string) {
    exists m :: m in marks && m.subject == s && m.item.commandId == id && m.item.hash == hash
  }

  ghost predicate Accounted(stream: Stream, marks: set<Mark>, s: Subject, id: string, hash: string) {
    InLogAs(stream, s, id, hash) || Skipped(marks, s, id, hash)
  }

  ghost predicate CachePaid(stream: Stream, marks: set<Mark>, s: Subject, c: Cache) {
    forall id :: id in c.results && c.results[id].accepted ==>
      c.results[id].payloadHash != "" && Accounted(stream, marks, s, id, c.results[id].payloadHash)
  }

  ghost predicate ItemsPaid(stream: Stream, marks: set<Mark>, job: Job, n: nat)
    requires n <= |job.items|
  {
    forall k :: 0 <= k < n ==> Accounted(stream, marks, job.subject, job.items[k].commandId, job.items[k].hash)
  }

  ghost predicate Paid(w: World) {
    && (forall oid :: oid in w.objs ==> CachePaid(w.stream, w.marks, w.objs[oid].subject, w.objs[oid].cache))
    && (forall pid :: pid in w.procs ==>
          w.procs[pid].idx <= |w.procs[pid].job.items| && ItemsPaid(w.stream, w.marks, w.procs[pid].job, w.procs[pid].idx))
    && (forall r :: r in w.replies && r.accepted ==> ItemsPaid(w.stream, w.marks, r.job, |r.job.items|))
  }

  // ------------------------------------------------------- building blocks

  lemma AccountedGrows(stream: Stream, more: Stream, marks: set<Mark>, marks': set<Mark>, s: Subject, id: string, hash: string)
    requires Accounted(stream, marks, s, id, hash) && marks <= marks' && (more == stream || exists e :: more == stream + [e])
    ensures Accounted(more, marks', s, id, hash)
  {
    if InLogAs(stream, s, id, hash) && more != stream {
      var e :| more == stream + [e];
      InLogAsGrows(stream, e, s, id, hash);
    }
  }

  /** What was accounted for stays so while the stream and the marks grow. */
  lemma GrownPaid(w: World, stream': Stream, marks': set<Mark>)
    requires Paid(w) && w.marks <= marks' && (stream' == w.stream || exists e :: stream' == w.stream + [e])
    ensures Paid(w.(stream := stream', marks := marks'))
  {
    forall s, id, hash | Accounted(w.stream, w.marks, s, id, hash) ensures Accounted(stream', marks', s, id, hash) {
      AccountedGrows(w.stream, stream', w.marks, marks', s, id, hash);
    }
  }

  lemma NotedPaid(w: World, h: Hazard, s: Subject, item: Item)
    requires Paid(w)
    ensures Paid(Noting(w, h, s, item)) && Accounted(w.stream, Noting(w, h, s, item).marks, s, item.commandId, item.hash)
  {
    GrownPaid(w, w.stream, w.marks + {Mark(h, s, item)});
    assert Mark(h, s, item) in Noting(w, h, s, item).marks;
    assert w.(stream := w.stream, marks := w.marks + {Mark(h, s, item)}) == Noting(w, h, s, item);
  }

  lemma AppendedPaid(w: World, e: Entry)
    requires Paid(w)
    ensures Paid(w.(stream := w.stream + [e]))
  {
    GrownPaid(w, w.stream + [e], w.marks);
    assert w.(stream := w.stream + [e], marks := w.marks) == w.(stream := w.stream + [e]);
  }

  lemma FinishPaid(w: World, pid: int, o: Obj, accepted: bool)
    requires Paid(w) && pid in w.procs && w.procs[pid].idx < |w.procs[pid].job.items|
    requires CachePaid(w.stream, w.marks, o.subject, o.cache)
    requires var p := w.procs[pid];
             accepted ==> Accounted(w.stream, w.marks, p.job.subject, p.job.items[p.idx].commandId, p.job.items[p.idx].hash)
    ensures Paid(Finish(w, pid, o, accepted))
  {
    var p := w.procs[pid];
    if accepted {
      assert ItemsPaid(w.stream, w.marks, p.job, p.idx + 1);
    }
  }

  lemma PutPaid(stream: Stream, marks: set<Mark>, s: Subject, c: Cache, id: string, sr: StoredResult, max: int)
    requires InStep(c) && CachePaid(stream, marks, s, c)
    requires sr.accepted ==> sr.payloadHash != "" && Accounted(stream, marks, s, id, sr.payloadHash)
    ensures CachePaid(stream, marks, s, Put(c, id, sr, max))
  {
    PutIsBoundedFifo(c, id, sr, max);
  }

  lemma LoggedHashNonempty(w: World, s: Subject, id: string, hash: string)
    requires Base(w) && InLogAs(w.stream, s, id, hash)
    ensures hash != ""
  {
    var i :| 0 <= i < |w.stream| && w.stream[i].subject == s && w.stream[i].fact.commandId == id
             && w.stream[i].fact.payloadHash == hash;
    assert Provenance(w.issued, w.stream[i]);
    var job, k: nat :| job in w.issued && WrittenFor(w.stream[i], job, k);
    assert Sane(job);
  }

  lemma RebuiltPaid(w: World, s: Subject, max: int)
    requires Base(w)
    ensures CachePaid(w.stream, w.marks, s, Rebuild(w.stream, s, max).cache)
  {
    var c := Rebuild(w.stream, s, max).cache;
    RebuildSound(w.stream, s, max);
    forall id | id in c.results ensures c.results[id].payloadHash != "" {
      LoggedHashNonempty(w, s, id, c.results[id].payloadHash);
    }
  }

  lemma AdoptPaid(w: World, o: Obj, max: int)
    requires Base(w) && InStep(o.cache) && CachePaid(w.stream, w.marks, o.subject, o.cache)
    ensures CachePaid(w.stream, w.marks, o.subject, Adopt(o, Rebuild(w.stream, o.subject, max), max).cache)
  {
    var r := Rebuild(w.stream, o.subject, max);
    RebuiltPaid(w, o.subject, max);
    CopyMissingMerges(o.cache, r.cache, r.cache.order, max);
  }

  // ------------------------------------------------------- the steps

  lemma AnswerIsPaid(stream: Stream, marks: set<Mark>, o: Obj, job: Job, item: Item, max: int)
    requires ObjOk(stream, o) && CachePaid(stream, marks, o.subject, o.cache) && o.subject == job.subject
    requires CheckItem(o, job, item, max).Answer?
    ensures var a := CheckItem(o, job, item, max);
            && CachePaid(stream, marks, a.obj.subject, a.obj.cache)
            && (a.accepted ==> Accounted(stream, marks, job.subject, item.commandId, item.hash))
  {
    CheckIsBacked(stream, o, job, item, max);
    PutPaid(stream, marks, o.subject, o.cache, item.commandId, StoredResult(item.hash, false), max);
  }

  lemma AnswerPaid(cfg: Config, w: World, pid: int)
    requires Base(w) && Paid(w) && Holds(w, pid, Ready)
    requires var p := w.procs[pid]; CheckItem(w.objs[p.obj], p.job, p.job.items[p.idx], cfg.maxResults).Answer?
    ensures var p := w.procs[pid];
            var a := CheckItem(w.objs[p.obj], p.job, p.job.items[p.idx], cfg.maxResults);
            Paid(Finish(w, pid, a.obj, a.accepted))
  {
    var p := w.procs[pid];
    var o, item := w.objs[p.obj], p.job.items[p.idx];
    var a := CheckItem(o, p.job, item, cfg.maxResults);
    assert ProcOk(w, pid);
    AnswerIsPaid(w.stream, w.marks, o, p.job, item, cfg.maxResults);
    FinishPaid(w, pid, a.obj, a.accepted);
  }

  lemma ErrorPaid(w: World, pid: int)
    requires Paid(w) && Holds(w, pid, Ready)
    ensures Paid(OnError(w, pid))
  {
    var p := w.procs[pid];
    if p.job.participation {
      FinishPaid(w, pid, w.objs[p.obj].(poisoned := true), false);
    }
  }

  lemma AdvancePaid(w: World, pid: int, at: nat, max: int)
    requires Base(w) && Paid(w) && Holds(w, pid, Ready)
    requires var p := w.procs[pid];
             Accounted(w.stream, w.marks, p.job.subject, p.job.items[p.idx].commandId, p.job.items[p.idx].hash)
    ensures var p := w.procs[pid]; Paid(Finish(w, pid, Advance(w.objs[p.obj], p.job, p.job.items[p.idx], at, max), true))
  {
    var p := w.procs[pid];
    var o, item := w.objs[p.obj], p.job.items[p.idx];
    assert ProcOk(w, pid) && ObjOk(w.stream, o) && Sane(p.job);
    PutPaid(w.stream, w.marks, o.subject, o.cache, item.commandId, StoredResult(item.hash, true), max);
    FinishPaid(w, pid, Advance(o, p.job, item, at, max), true);
  }

  lemma TryAppendPaid(cfg: Config, w: World, pid: int, ack: Ack)
    requires Base(w) && Paid(w) && Holds(w, pid, Ready)
    ensures Paid(TryAppend(cfg, w, pid, ack))
  {
    var p := w.procs[pid];
    var o, item := w.objs[p.obj], p.job.items[p.idx];
    var e := NewEntry(o, p.job, item);
    var outcome := Decide(cfg.order, w.stream, e, o.streamSeq);
    DecideMeans(cfg.order, w.stream, e, o.streamSeq);
    var w' := w.(stream := AfterAppend(cfg.order, w.stream, e, o.streamSeq));
    PublishKeepsBase(w, pid, e, outcome, w'.stream);
    if outcome.Committed? {
      AppendedPaid(w, e);
      OwnEntryIsLogged(w.stream, e);
    } else {
      assert w' == w;
    }
    match ack
    case Lost => ErrorPaid(w', pid);
    case Unsent => ErrorPaid(w, pid);
    case Delivered => DeliveredPaid(cfg, w', pid, item, outcome);
  }

  lemma DeliveredPaid(cfg: Config, w: World, pid: int, item: Item, outcome: Outcome)
    requires Base(w) && Paid(w) && Holds(w, pid, Ready) && item == w.procs[pid].job.items[w.procs[pid].idx]
    requires outcome.Committed? ==> InLogAs(w.stream, w.procs[pid].job.subject, item.commandId, item.hash)
    ensures Paid(OnAnswer(cfg, w, pid, item, outcome))
  {
    var p := w.procs[pid];
    match outcome
    case Conflict =>
    case Committed(at) => AdvancePaid(w, pid, at, cfg.maxResults);
    case Duplicate(at) =>
      if p.job.participation {
        NotedPaid(w, ParticipationDuplicate, p.job.subject, item);
        NotingKeepsBase(w, ParticipationDuplicate, p.job.subject, item);
        AdvancePaid(Noting(w, ParticipationDuplicate, p.job.subject, item), pid, at, cfg.maxResults);
      }
  }

  lemma ReplacePaid(w: World, pid: int, o: Obj)
    requires Paid(w) && pid in w.procs && CachePaid(w.stream, w.marks, o.subject, o.cache)
    ensures Paid(Replace(w, pid, o))
  {
  }

  lemma RefoldPaid(cfg: Config, w: World, pid: int, replayed: bool)
    requires Base(w) && Paid(w)
    ensures Paid(Apply(cfg, w, Refold(pid, replayed)))
  {
    if Holds(w, pid, Refolding) {
      var o := w.objs[w.procs[pid].obj];
      assert ProcOk(w, pid) && ObjOk(w.stream, o);
      FinishPaid(w, pid, o.(poisoned := true), false);
      AdoptPaid(w, o, cfg.maxResults);
      ReplacePaid(w, pid, Adopt(o, Rebuild(w.stream, o.subject, cfg.maxResults), cfg.maxResults));
    }
  }

  lemma ReconcileErrorPaid(cfg: Config, w: World, pid: int, replayed: bool)
    requires Base(w) && Paid(w) && Holds(w, pid, ReconcilingError)
    ensures Paid(DoReconcileError(cfg, w, pid, replayed))
  {
    var p := w.procs[pid];
    var o, item := w.objs[p.obj], p.job.items[p.idx];
    var r := Rebuild(w.stream, o.subject, cfg.maxResults);
    if replayed && item.commandId in r.cache.results {
      NotedPaid(w, ErrorReconcile, p.job.subject, item);
      FinishPaid(Noting(w, ErrorReconcile, p.job.subject, item), pid,
                 o.(sequence := r.sequence, streamSeq := r.streamSeq, status := r.status), true);
    } else {
      FinishPaid(w, pid, o.(poisoned := true), false);
    }
  }

  lemma ReconcileDuplicatePaid(cfg: Config, w: World, pid: int, replayed: bool)
    requires Base(w) && Paid(w) && Holds(w, pid, ReconcilingDuplicate)
    ensures Paid(DoReconcileDuplicate(cfg, w, pid, replayed))
  {
    var p := w.procs[pid];
    var o, item := w.objs[p.obj], p.job.items[p.idx];
    assert ProcOk(w, pid) && ObjOk(w.stream, o) && Sane(p.job);
    if !replayed {
      NotedPaid(w, UnreadDuplicate, p.job.subject, item);
      FinishPaid(Noting(w, UnreadDuplicate, p.job.subject, item), pid, o.(poisoned := true), true);
    } else {
      AdoptPaid(w, o, cfg.maxResults);
      AdoptOk(w.stream, o, cfg.maxResults);
      ResolvePaid(cfg, w, pid, Adopt(o, Rebuild(w.stream, o.subject, cfg.maxResults), cfg.maxResults), item);
    }
  }

  lemma ResolvePaid(cfg: Config, w: World, pid: int, o: Obj, item: Item)
    requires Paid(w) && pid in w.procs && w.procs[pid].idx < |w.procs[pid].job.items|
    requires item == w.procs[pid].job.items[w.procs[pid].idx] && item.hash != "" && o.subject == w.procs[pid].job.subject
    requires InStep(o.cache) && CachePaid(w.stream, w.marks, o.subject, o.cache)
    ensures Paid(Resolve(cfg, w, pid, o, item))
  {
    if item.commandId in o.cache.results {
      var found := o.cache.results[item.commandId];
      FinishPaid(w, pid, o, (found.payloadHash == "" || found.payloadHash == item.hash) && found.accepted);
    } else {
      var noted := Noting(w, ForgottenDuplicate, o.subject, item);
      NotedPaid(w, ForgottenDuplicate, o.subject, item);
      PaidStays(w, noted, o);
      PutPaid(w.stream, noted.marks, o.subject, o.cache, item.commandId, StoredResult(item.hash, true), cfg.maxResults);
      FinishPaid(noted, pid, o.(cache := Put(o.cache, item.commandId, StoredResult(item.hash, true), cfg.maxResults)), true);
    }
  }

  lemma PaidStays(w: World, w': World, o: Obj)
    requires CachePaid(w.stream, w.marks, o.subject, o.cache) && w'.stream == w.stream && w.marks <= w'.marks
    ensures CachePaid(w'.stream, w'.marks, o.subject, o.cache)
  {
    forall id, hash | Accounted(w.stream, w.marks, o.subject, id, hash) ensures Accounted(w'.stream, w'.marks, o.subject, id, hash) {
      AccountedGrows(w.stream, w.stream, w.marks, w'.marks, o.subject, id, hash);
    }
  }

  lemma AttemptPaid(cfg: Config, w: World, pid: int, ack: Ack)
    requires Base(w) && Paid(w) && Holds(w, pid, Ready)
    ensures Paid(DoAttempt(cfg, w, pid, ack))
  {
    var p := w.procs[pid];
    if CheckItem(w.objs[p.obj], p.job, p.job.items[p.idx], cfg.maxResults).Answer? {
      AnswerPaid(cfg, w, pid);
    } else {
      TryAppendPaid(cfg, w, pid, ack);
    }
  }

  lemma SubmitPaid(cfg: Config, w: World, pid: int, id: Identity, subject: string, cmd: Command)
    requires Paid(w)
    ensures Paid(Apply(cfg, w, Submit(pid, id, subject, cmd)))
  {
  }

  lemma LoadPaid(cfg: Config, w: World, oid: int, s: Subject)
    requires Base(w) && Paid(w)
    ensures Paid(Apply(cfg, w, Load(oid, s)))
  {
    RebuiltPaid(w, s, cfg.maxResults);
  }

  lemma TakePaid(cfg: Config, w: World, pid: int, oid: int)
    requires Paid(w)
    ensures Paid(Apply(cfg, w, Take(pid, oid)))
  {
  }

  lemma DropPaid(w: World, pids: set<int>, oids: set<int>)
    requires Paid(w)
    ensures Paid(w.(procs := w.procs - pids, objs := w.objs - oids))
  {
  }

  lemma CrashPaid(cfg: Config, w: World, pid: int)
    requires Paid(w)
    ensures Paid(Apply(cfg, w, Crash(pid)))
  {
    if pid in w.procs {
      DropPaid(w, {pid}, {});
      DropPaid(w, {pid}, {w.procs[pid].obj});
      assert w.objs - {} == w.objs;
    }
  }

  lemma EvictPaid(cfg: Config, w: World, oid: int)
    requires Paid(w)
    ensures Paid(Apply(cfg, w, Evict(oid)))
  {
    DropPaid(w, {}, {oid});
    assert w.procs - {} == w.procs;
  }

  lemma AttemptStepPaid(cfg: Config, w: World, pid: int, ack: Ack)
    requires Base(w) && Paid(w)
    ensures Paid(Apply(cfg, w, Attempt(pid, ack)))
  {
    if Holds(w, pid, Ready) {
      AttemptPaid(cfg, w, pid, ack);
    }
  }

  lemma ErrorStepPaid(cfg: Config, w: World, pid: int, replayed: bool)
    requires Base(w) && Paid(w)
    ensures Paid(Apply(cfg, w, ReconcileError(pid, replayed)))
  {
    if Holds(w, pid, ReconcilingError) {
      ReconcileErrorPaid(cfg, w, pid, replayed);
    }
  }

  lemma DuplicateStepPaid(cfg: Config, w: World, pid: int, replayed: bool)
    requires Base(w) && Paid(w)
    ensures Paid(Apply(cfg, w, ReconcileDuplicate(pid, replayed)))
  {
    if Holds(w, pid, ReconcilingDuplicate) {
      ReconcileDuplicatePaid(cfg, w, pid, replayed);
    }
  }

  lemma StepPaid(cfg: Config, w: World, step: Step)
    requires Base(w) && Paid(w)
    ensures Paid(Apply(cfg, w, step))
  {
    match step
    case Submit(pid, id, subject, cmd) => SubmitPaid(cfg, w, pid, id, subject, cmd);
    case Load(oid, s) => LoadPaid(cfg, w, oid, s);
    case Take(pid, oid) => TakePaid(cfg, w, pid, oid);
    case Attempt(pid, ack) => AttemptStepPaid(cfg, w, pid, ack);
    case Refold(pid, replayed) => RefoldPaid(cfg, w, pid, replayed);
    case ReconcileError(pid, replayed) => ErrorStepPaid(cfg, w, pid, replayed);
    case ReconcileDuplicate(pid, replayed) => DuplicateStepPaid(cfg, w, pid, replayed);
    case Evict(oid) => EvictPaid(cfg, w, oid);
    case Crash(pid) => CrashPaid(cfg, w, pid);
  }

  lemma {:induction false} PaidAlways(cfg: Config, steps: seq<Step>)
    ensures Paid(Run(cfg, steps))
  {
    if steps != [] {
      PaidAlways(cfg, steps[..|steps| - 1]);
      BaseAlways(cfg, steps[..|steps| - 1]);
      StepPaid(cfg, Run(cfg, steps[..|steps| - 1]), steps[|steps| - 1]);
    }
  }

  // ------------------------------------------------------- the payload itself

  /** Issued commands carry their payload and its hash, and a participation
      command the ids derived from it. */
  ghost predicate Sealed(job: Job) {
    forall k :: 0 <= k < |job.items| ==> SealedItem(job.items[k]) && (job.participation ==> IsDerived(job, k))
  }

  ghost predicate SealedItem(item: Item) {
    item.hash == HashPayload(item.payload) && item.actor == item.payload.actor && Fits(item.payload)
  }

  lemma {:induction false} IssuedAreSealed(cfg: Config, steps: seq<Step>)
    ensures forall job :: job in Run(cfg, steps).issued ==> Sealed(job)
  {
    if steps != [] {
      var before, last := steps[..|steps| - 1], steps[|steps| - 1];
      IssuedAreSealed(cfg, before);
      IssuedGrowsBy(cfg, Run(cfg, before), last);
    }
  }

  lemma IssuedGrowsBy(cfg: Config, w: World, step: Step)
    ensures var w' := Apply(cfg, w, step);
            w'.issued == w.issued || exists job :: w'.issued == w.issued + [job] && Sealed(job)
  {
    if step.Submit? && Apply(cfg, w, step).issued != w.issued {
      var job := Admit(cfg.devMode, step.identity, step.subject, step.cmd).job;
      forall k | 0 <= k < |job.items| ensures SealedItem(job.items[k]) && (job.participation ==> IsDerived(job, k)) {
        AdmittedItems(cfg.devMode, step.identity, step.subject, step.cmd, k);
      }
      assert Apply(cfg, w, step).issued == w.issued + [job];
    }
  }

  ghost predicate LoggedInFull(stream: Stream, s: Subject, item: Item) {
    exists i :: 0 <= i < |stream| && stream[i].subject == s && stream[i].fact.commandId == item.commandId
                && stream[i].payload == item.payload
  }

  /** In every run an accepted command's facts are in the log with its very tenant,
      actor, type, medium, reference and data, except a fact that itself took one
      of the four paths that do not compare. */
  lemma {:induction false} AcceptedPayloadIsLogged(cfg: Config, steps: seq<Step>, r: Reply, k: nat)
    requires r in Run(cfg, steps).replies && r.accepted && k < |r.job.items|
    ensures var w := Run(cfg, steps);
            || LoggedInFull(w.stream, r.job.subject, r.job.items[k])
            || Skipped(w.marks, r.job.subject, r.job.items[k].commandId, r.job.items[k].hash)
  {
    var w := Run(cfg, steps);
    PaidAlways(cfg, steps);
    BaseAlways(cfg, steps);
    IssuedAreSealed(cfg, steps);
    HashLoggedIsPayload(w, r.job, k);
  }

  lemma HashLoggedIsPayload(w: World, job: Job, k: nat)
    requires Base(w) && job in w.issued && k < |job.items| && forall j :: j in w.issued ==> Sealed(j)
    ensures InLogAs(w.stream, job.subject, job.items[k].commandId, job.items[k].hash) ==>
              LoggedInFull(w.stream, job.subject, job.items[k])
  {
    var item := job.items[k];
    if InLogAs(w.stream, job.subject, item.commandId, item.hash) {
      var i :| 0 <= i < |w.stream| && w.stream[i].subject == job.subject && w.stream[i].fact.commandId == item.commandId
               && w.stream[i].fact.payloadHash == item.hash;
      assert Provenance(w.issued, w.stream[i]);
      var j, n: nat :| j in w.issued && WrittenFor(w.stream[i], j, n);
      assert SealedItem(j.items[n]) && SealedItem(item);
      HashPayloadInjective(j.items[n].payload, item.payload);
    }
  }
}
