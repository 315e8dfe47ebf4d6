/** Building concrete runs: one command at a time, through a named cached state,
    in worlds where no other command is in flight. */
module RouterRuns {
  import opened Encoding
  import opened Membership
  import opened Admission
  import opened ResultCache
  import opened RouterLog
  import opened RouterMachine
  import opened RouterBase

  // ------------------------------------------------------- reachable worlds

  ghost predicate Reachable(cfg: Config, w: World) {
    exists steps :: Run(cfg, steps) == w
  }

  lemma {:induction false} StepReaches(cfg: Config, w: World, step: Step)
    requires Reachable(cfg, w)
    ensures Reachable(cfg, Apply(cfg, w, step))
  {
    var before :| Run(cfg, before) == w;
    var steps := before + [step];
    assert steps[..|steps| - 1] == before;
    assert Run(cfg, steps) == Apply(cfg, w, step);
  }

  lemma {:induction false} NothingYet(cfg: Config)
    ensures Reachable(cfg, EMPTY)
  {
    assert Run(cfg, []) == EMPTY;
  }

  lemma {:induction false} ReachableIsBase(cfg: Config, w: World)
    requires Reachable(cfg, w)
    ensures Base(w)
  {
    var steps :| Run(cfg, steps) == w;
    BaseAlways(cfg, steps);
  }

  lemma Loads(cfg: Config, w: World, oid: int, s: Subject) returns (w': World)
    requires Reachable(cfg, w) && oid !in w.objs
    ensures Reachable(cfg, w') && w' == w.(objs := w.objs[oid := Rebuild(w.stream, s, cfg.maxResults)])
  {
    w' := Apply(cfg, w, Load(oid, s));
    StepReaches(cfg, w, Load(oid, s));
  }

  // ------------------------------------------------------- one command

  /** No command is in flight and state `oid` of subject `s` is free. */
  predicate Quiet(w: World, oid: int, s: Subject) {
    w.procs == map[] && oid in w.objs && w.objs[oid].owner == -1 && !w.objs[oid].poisoned && w.objs[oid].subject == s
  }

  /** A command of one fact, as the router admits it. */
  datatype Letter = Letter(identity: Identity, subject: string, cmd: Command, job: Job)

  predicate Sendable(cfg: Config, l: Letter) {
    Admit(cfg.devMode, l.identity, l.subject, l.cmd) == Admitted(l.job) && Representable(l.cmd) && |l.job.items| == 1
  }

  function Begun(w: World, oid: int, job: Job): World
    requires oid in w.objs
  {
    w.(objs := w.objs[oid := w.objs[oid].(owner := 0)], procs := map[0 := Proc(job, 0, oid, Ready, 0)], issued := w.issued + [job])
  }

  lemma Begins(cfg: Config, w: World, oid: int, l: Letter)
    requires Reachable(cfg, w) && Quiet(w, oid, l.job.subject) && Sendable(cfg, l)
    ensures Reachable(cfg, Begun(w, oid, l.job))
  {
    var submit, take := Submit(0, l.identity, l.subject, l.cmd), Take(0, oid);
    var w1 := Apply(cfg, w, submit);
    StepReaches(cfg, w, submit);
    StepReaches(cfg, w1, take);
    assert w1.procs == map[0 := Proc(l.job, 0, 0, Acquiring, 0)];
    assert Apply(cfg, w1, take).procs == map[0 := Proc(l.job, 0, oid, Ready, 0)];
    assert Apply(cfg, w1, take) == Begun(w, oid, l.job);
  }

  /** The world after the command was answered. */
  function Replied(w: World, oid: int, job: Job, o: Obj, accepted: bool, stream: Stream, marks: set<Mark>): World {
    World(stream, w.objs[oid := o], map[], w.issued + [job], w.replies + {Reply(job, accepted)}, marks)
  }

  lemma FinishesAs(w: World, oid: int, job: Job, o: Obj, accepted: bool, stream: Stream, marks: set<Mark>, pc: Pc)
    requires Quiet(w, oid, job.subject) && |job.items| == 1 && o.owner == 0
    ensures Finish(Begun(w, oid, job).(stream := stream, marks := marks, procs := map[0 := Proc(job, 0, oid, pc, 0)]), 0, o, accepted)
            == Replied(w, oid, job, o.(owner := -1), accepted, stream, marks)
  {
    assert map[0 := Proc(job, 0, oid, pc, 0)] - {0} == map[];
    assert Begun(w, oid, job).objs[oid := o.(owner := -1)] == w.objs[oid := o.(owner := -1)];
  }

  lemma OwnerIsNoField(o: Obj, job: Job, item: Item, at: nat, max: int)
    requires o.owner == -1
    ensures var held := o.(owner := 0);
            && Advance(held, job, item, at, max).(owner := -1) == Advance(o, job, item, at, max)
            && Advance(held, job, item, at, max).owner == 0
            && NewEntry(held, job, item) == NewEntry(o, job, item)
            && CheckItem(held, job, item, max).Proceed? == CheckItem(o, job, item, max).Proceed?
  {
  }

  /** The attempt of a begun command that passed the checks. */
  lemma Attempted(cfg: Config, w: World, oid: int, l: Letter, ack: Ack)
    requires Reachable(cfg, w) && Quiet(w, oid, l.job.subject) && Sendable(cfg, l)
    requires CheckItem(w.objs[oid], l.job, l.job.items[0], cfg.maxResults).Proceed?
    ensures Reachable(cfg, TryAppend(cfg, Begun(w, oid, l.job), 0, ack))
  {
    var begun := Begun(w, oid, l.job);
    Begins(cfg, w, oid, l);
    OwnerIsNoField(w.objs[oid], l.job, l.job.items[0], 0, cfg.maxResults);
    StepReaches(cfg, begun, Attempt(0, ack));
    assert Apply(cfg, begun, Attempt(0, ack)) == TryAppend(cfg, begun, 0, ack);
  }

  /** A command that is appended. */
  lemma Commits(cfg: Config, w: World, oid: int, l: Letter) returns (w': World)
    requires Reachable(cfg, w) && Quiet(w, oid, l.job.subject) && Sendable(cfg, l)
    requires CheckItem(w.objs[oid], l.job, l.job.items[0], cfg.maxResults).Proceed?
    requires Decide(cfg.order, w.stream, NewEntry(w.objs[oid], l.job, l.job.items[0]), w.objs[oid].streamSeq).Committed?
    ensures Reachable(cfg, w')
    ensures w' == Replied(w, oid, l.job, Advance(w.objs[oid], l.job, l.job.items[0], |w.stream| + 1, cfg.maxResults), true,
                          w.stream + [NewEntry(w.objs[oid], l.job, l.job.items[0])], w.marks)
  {
    var o, item := w.objs[oid], l.job.items[0];
    OwnerIsNoField(o, l.job, item, |w.stream| + 1, cfg.maxResults);
    Attempted(cfg, w, oid, l, Delivered);
    w' := TryAppend(cfg, Begun(w, oid, l.job), 0, Delivered);
    FinishesAs(w, oid, l.job, Advance(o.(owner := 0), l.job, item, |w.stream| + 1, cfg.maxResults), true,
               w.stream + [NewEntry(o, l.job, item)], w.marks, Ready);
  }

  /** A participation fact answered "duplicate". */
  lemma Repeats(cfg: Config, w: World, oid: int, l: Letter, at: nat) returns (w': World)
    requires Reachable(cfg, w) && Quiet(w, oid, l.job.subject) && Sendable(cfg, l) && l.job.participation
    requires CheckItem(w.objs[oid], l.job, l.job.items[0], cfg.maxResults).Proceed?
    requires Decide(cfg.order, w.stream, NewEntry(w.objs[oid], l.job, l.job.items[0]), w.objs[oid].streamSeq) == Duplicate(at)
    ensures Reachable(cfg, w')
    ensures w' == Replied(w, oid, l.job, Advance(w.objs[oid], l.job, l.job.items[0], at, cfg.maxResults), true,
                          w.stream, w.marks + {Mark(ParticipationDuplicate, l.job.subject, l.job.items[0])})
  {
    var o, item := w.objs[oid], l.job.items[0];
    OwnerIsNoField(o, l.job, item, at, cfg.maxResults);
    Attempted(cfg, w, oid, l, Delivered);
    w' := TryAppend(cfg, Begun(w, oid, l.job), 0, Delivered);
    FinishesAs(w, oid, l.job, Advance(o.(owner := 0), l.job, item, at, cfg.maxResults), true,
               w.stream, w.marks + {Mark(ParticipationDuplicate, l.job.subject, item)}, Ready);
  }

  /** A command refused as illegal: the refusal enters the cache. */
  lemma Refused(cfg: Config, w: World, oid: int, l: Letter) returns (w': World)
    requires Reachable(cfg, w) && Quiet(w, oid, l.job.subject) && Sendable(cfg, l)
    requires !l.job.participation && !l.job.gated && l.job.items[0].commandId !in w.objs[oid].cache.results
    requires !LegalTransition(w.objs[oid].status, l.job.items[0].eventType)
    ensures Reachable(cfg, w')
    ensures var item := l.job.items[0];
            w' == Replied(w, oid, l.job, w.objs[oid].(cache := Put(w.objs[oid].cache, item.commandId, StoredResult(item.hash, false), cfg.maxResults)),
                          false, w.stream, w.marks)
  {
    var o, item := w.objs[oid], l.job.items[0];
    var begun := Begun(w, oid, l.job);
    var cache := Put(o.cache, item.commandId, StoredResult(item.hash, false), cfg.maxResults);
    Begins(cfg, w, oid, l);
    StepReaches(cfg, begun, Attempt(0, Delivered));
    w' := Apply(cfg, begun, Attempt(0, Delivered));
    FinishesAs(w, oid, l.job, o.(owner := 0, cache := cache), false, w.stream, w.marks, Ready);
    assert o.(owner := 0, cache := cache).(owner := -1) == o.(cache := cache);
  }

  /** The command begun and waiting at `pc`, nothing stored. */
  function Waiting(w: World, oid: int, job: Job, pc: Pc): World
    requires oid in w.objs
  {
    Begun(w, oid, job).(procs := map[0 := Proc(job, 0, oid, pc, 0)])
  }

  lemma Fails(cfg: Config, w: World, oid: int, l: Letter)
    requires Reachable(cfg, w) && Quiet(w, oid, l.job.subject) && Sendable(cfg, l) && !l.job.participation
    requires CheckItem(w.objs[oid], l.job, l.job.items[0], cfg.maxResults).Proceed?
    ensures Reachable(cfg, Waiting(w, oid, l.job, ReconcilingError))
  {
    Attempted(cfg, w, oid, l, Unsent);
    assert TryAppend(cfg, Begun(w, oid, l.job), 0, Unsent) == Waiting(w, oid, l.job, ReconcilingError);
  }

  lemma AfterError(cfg: Config, w: World, oid: int, job: Job)
    requires Quiet(w, oid, job.subject) && |job.items| == 1
    requires job.items[0].commandId in Rebuild(w.stream, job.subject, cfg.maxResults).cache.results
    ensures var r := Rebuild(w.stream, job.subject, cfg.maxResults);
            Apply(cfg, Waiting(w, oid, job, ReconcilingError), ReconcileError(0, true))
            == Replied(w, oid, job, w.objs[oid].(sequence := r.sequence, streamSeq := r.streamSeq, status := r.status), true,
                       w.stream, w.marks + {Mark(ErrorReconcile, job.subject, job.items[0])})
  {
    var r := Rebuild(w.stream, job.subject, cfg.maxResults);
    FinishesAs(w, oid, job, w.objs[oid].(owner := 0, sequence := r.sequence, streamSeq := r.streamSeq, status := r.status), true,
               w.stream, w.marks + {Mark(ErrorReconcile, job.subject, job.items[0])}, ReconcilingError);
  }

  /** A command whose publish failed and whose id the log turns out to hold. */
  lemma Reconciles(cfg: Config, w: World, oid: int, l: Letter) returns (w': World)
    requires Reachable(cfg, w) && Quiet(w, oid, l.job.subject) && Sendable(cfg, l) && !l.job.participation
    requires CheckItem(w.objs[oid], l.job, l.job.items[0], cfg.maxResults).Proceed?
    requires l.job.items[0].commandId in Rebuild(w.stream, l.job.subject, cfg.maxResults).cache.results
    ensures Reachable(cfg, w')
    ensures var r := Rebuild(w.stream, l.job.subject, cfg.maxResults);
            w' == Replied(w, oid, l.job, w.objs[oid].(sequence := r.sequence, streamSeq := r.streamSeq, status := r.status), true,
                          w.stream, w.marks + {Mark(ErrorReconcile, l.job.subject, l.job.items[0])})
  {
    Fails(cfg, w, oid, l);
    w' := Apply(cfg, Waiting(w, oid, l.job, ReconcilingError), ReconcileError(0, true));
    StepReaches(cfg, Waiting(w, oid, l.job, ReconcilingError), ReconcileError(0, true));
    AfterError(cfg, w, oid, l.job);
  }

  /** A plain command answered "duplicate" goes on to reconcile. */
  lemma Duplicates(cfg: Config, w: World, oid: int, l: Letter)
    requires Reachable(cfg, w) && Quiet(w, oid, l.job.subject) && Sendable(cfg, l) && !l.job.participation
    requires CheckItem(w.objs[oid], l.job, l.job.items[0], cfg.maxResults).Proceed?
    requires Decide(cfg.order, w.stream, NewEntry(w.objs[oid], l.job, l.job.items[0]), w.objs[oid].streamSeq).Duplicate?
    ensures Reachable(cfg, Waiting(w, oid, l.job, ReconcilingDuplicate))
  {
    OwnerIsNoField(w.objs[oid], l.job, l.job.items[0], 0, cfg.maxResults);
    Attempted(cfg, w, oid, l, Delivered);
    assert TryAppend(cfg, Begun(w, oid, l.job), 0, Delivered) == Waiting(w, oid, l.job, ReconcilingDuplicate);
  }

  /** The log cannot be read: accepted on the broker's word. */
  lemma AcceptsUnread(cfg: Config, w: World, oid: int, l: Letter) returns (w': World)
    requires Reachable(cfg, w) && Quiet(w, oid, l.job.subject) && Sendable(cfg, l) && !l.job.participation
    requires CheckItem(w.objs[oid], l.job, l.job.items[0], cfg.maxResults).Proceed?
    requires Decide(cfg.order, w.stream, NewEntry(w.objs[oid], l.job, l.job.items[0]), w.objs[oid].streamSeq).Duplicate?
    ensures Reachable(cfg, w') && w'.stream == w.stream && w'.issued == w.issued + [l.job] && Reply(l.job, true) in w'.replies
    ensures w'.marks == w.marks + {Mark(UnreadDuplicate, l.job.subject, l.job.items[0])}
  {
    Duplicates(cfg, w, oid, l);
    w' := Apply(cfg, Waiting(w, oid, l.job, ReconcilingDuplicate), ReconcileDuplicate(0, false));
    StepReaches(cfg, Waiting(w, oid, l.job, ReconcilingDuplicate), ReconcileDuplicate(0, false));
    AfterUnread(cfg, w, oid, l.job);
  }

  lemma AfterUnread(cfg: Config, w: World, oid: int, job: Job)
    requires oid in w.objs && |job.items| == 1
    ensures var w' := Apply(cfg, Waiting(w, oid, job, ReconcilingDuplicate), ReconcileDuplicate(0, false));
            && w'.stream == w.stream && w'.issued == w.issued + [job] && Reply(job, true) in w'.replies
            && w'.marks == w.marks + {Mark(UnreadDuplicate, job.subject, job.items[0])}
  {
  }

  /** The log is read, but the result is no longer remembered. */
  lemma AcceptsForgotten(cfg: Config, w: World, oid: int, l: Letter) returns (w': World)
    requires Reachable(cfg, w) && Quiet(w, oid, l.job.subject) && Sendable(cfg, l) && !l.job.participation
    requires CheckItem(w.objs[oid], l.job, l.job.items[0], cfg.maxResults).Proceed?
    requires Decide(cfg.order, w.stream, NewEntry(w.objs[oid], l.job, l.job.items[0]), w.objs[oid].streamSeq).Duplicate?
    requires InStep(w.objs[oid].cache) && l.job.items[0].commandId !in w.objs[oid].cache.results
    requires l.job.items[0].commandId !in Rebuild(w.stream, l.job.subject, cfg.maxResults).cache.results
    ensures Reachable(cfg, w') && w'.stream == w.stream && w'.issued == w.issued + [l.job] && Reply(l.job, true) in w'.replies
    ensures w'.marks == w.marks + {Mark(ForgottenDuplicate, l.job.subject, l.job.items[0])}
  {
    Duplicates(cfg, w, oid, l);
    w' := Apply(cfg, Waiting(w, oid, l.job, ReconcilingDuplicate), ReconcileDuplicate(0, true));
    StepReaches(cfg, Waiting(w, oid, l.job, ReconcilingDuplicate), ReconcileDuplicate(0, true));
    AfterForgotten(cfg, w, oid, l.job);
  }

  lemma AfterForgotten(cfg: Config, w: World, oid: int, job: Job)
    requires Quiet(w, oid, job.subject) && |job.items| == 1
    requires InStep(w.objs[oid].cache) && job.items[0].commandId !in w.objs[oid].cache.results
    requires job.items[0].commandId !in Rebuild(w.stream, job.subject, cfg.maxResults).cache.results
    ensures var w' := Apply(cfg, Waiting(w, oid, job, ReconcilingDuplicate), ReconcileDuplicate(0, true));
            && w'.stream == w.stream && w'.issued == w.issued + [job] && Reply(job, true) in w'.replies
            && w'.marks == w.marks + {Mark(ForgottenDuplicate, job.subject, job.items[0])}
  {
    Unremembered(cfg, Waiting(w, oid, job, ReconcilingDuplicate), job.items[0]);
  }

  lemma Unremembered(cfg: Config, w: World, item: Item)
    requires 0 in w.procs && w.procs[0].obj in w.objs && w.procs[0].idx == 0 && w.procs[0].job.items == [item]
    requires var o := w.objs[w.procs[0].obj];
             && InStep(o.cache) && item.commandId !in o.cache.results
             && item.commandId !in Rebuild(w.stream, o.subject, cfg.maxResults).cache.results
    ensures var w' := DoReconcileDuplicate(cfg, w, 0, true);
            && w'.stream == w.stream && w'.issued == w.issued && Reply(w.procs[0].job, true) in w'.replies
            && w'.marks == w.marks + {Mark(ForgottenDuplicate, w.procs[0].job.subject, item)}
  {
    var o := w.objs[w.procs[0].obj];
    var r := Rebuild(w.stream, o.subject, cfg.maxResults);
    CopyMissingMerges(o.cache, r.cache, r.cache.order, cfg.maxResults);
  }
}
