/** When a participation append can be answered "duplicate" at all: only for an
    id that was submitted more than once. */
module RouterOnce {
  import opened Membership
  import opened Admission
  import opened ResultCache
  import opened RouterLog
  import opened RouterMachine
  import opened RouterBase
  import opened RouterSafety

  ghost predicate Mentions(job: Job, s: Subject, id: string) {
    job.subject == s && exists k :: 0 <= k < |job.items| && job.items[k].commandId == id
  }

  /** At most one admitted command of `s` bears the id. */
  ghost predicate Once(issued: seq<Job>, s: Subject, id: string) {
    forall i, j :: 0 <= i < j < |issued| && Mentions(issued[i], s, id) ==> !Mentions(issued[j], s, id)
  }

  /** The command in flight may still append the id. */
  ghost predicate Pending(p: Proc, s: Subject, id: string) {
    p.job.subject == s && exists k :: p.idx <= k < |p.job.items| && p.job.items[k].commandId == id
  }

  /** An id used once has one command in flight at most, and a participation
      command only until the fact is in the log. */
  ghost predicate Lone(w: World, s: Subject, id: string) {
    && (forall pid, pid' :: pid in w.procs && pid' in w.procs && Pending(w.procs[pid], s, id) && Pending(w.procs[pid'], s, id) ==>
          pid == pid')
    && (InLog(w.stream, s, id) ==> forall pid :: pid in w.procs && Pending(w.procs[pid], s, id) ==> !w.procs[pid].job.participation)
  }

  ghost predicate Repeated(w: World, m: Mark) {
    m.hazard.ParticipationDuplicate? ==>
      (exists job :: job in w.issued && job.subject == m.subject && job.participation && m.item in job.items)
      && !Once(w.issued, m.subject, m.item.commandId)
  }

  ghost predicate Lonely(w: World) {
    && (forall s, id {:trigger Once(w.issued, s, id)} :: Once(w.issued, s, id) ==> Lone(w, s, id))
    && (forall m :: m in w.marks ==> Repeated(w, m))
  }

  // ------------------------------------------------------- what a step does

  ghost predicate Carries(w: World, w': World, pid: int)
    requires pid in w'.procs
  {
    pid in w.procs && w'.procs[pid].job == w.procs[pid].job && w'.procs[pid].idx >= w.procs[pid].idx
  }

  /** A step other than a submission or a commit starts nothing and logs nothing. */
  ghost predicate Calm(w: World, w': World) {
    && w'.stream == w.stream && w'.issued == w.issued
    && forall pid :: pid in w'.procs ==> Carries(w, w', pid)
  }

  lemma CalmKeeps(w: World, w': World)
    requires Lonely(w) && Calm(w, w') && (forall m :: m in w'.marks && m !in w.marks ==> Repeated(w', m))
    ensures Lonely(w')
  {
    forall s, id | Once(w'.issued, s, id) ensures Lone(w', s, id) {
      assert Once(w.issued, s, id);
      forall pid | pid in w'.procs && Pending(w'.procs[pid], s, id) ensures pid in w.procs && Pending(w.procs[pid], s, id) {
        assert Carries(w, w', pid);
      }
    }
    forall m | m in w'.marks ensures Repeated(w', m) {
      if m in w.marks {
        assert Repeated(w, m);
      }
    }
  }

  lemma LogMentions(w: World, s: Subject, id: string) returns (job: Job)
    requires Base(w) && InLog(w.stream, s, id)
    ensures job in w.issued && Mentions(job, s, id)
  {
    var i :| 0 <= i < |w.stream| && w.stream[i].subject == s && w.stream[i].fact.commandId == id;
    assert Provenance(w.issued, w.stream[i]);
    var n: nat;
    job, n :| job in w.issued && WrittenFor(w.stream[i], job, n);
    assert job.items[n].commandId == id;
  }

  lemma OnceEarlier(issued: seq<Job>, job: Job, s: Subject, id: string)
    requires Once(issued + [job], s, id)
    ensures Once(issued, s, id)
    ensures Mentions(job, s, id) ==> forall j :: j in issued ==> !Mentions(j, s, id)
  {
    var all := issued + [job];
    forall i, j | 0 <= i < j < |issued| && Mentions(issued[i], s, id) ensures !Mentions(issued[j], s, id) {
      assert all[i] == issued[i] && all[j] == issued[j];
    }
    if Mentions(job, s, id) {
      forall j | j in issued ensures !Mentions(j, s, id) {
        var i :| 0 <= i < |issued| && issued[i] == j;
        assert all[i] == j && all[|issued|] == job;
      }
    }
  }

  lemma SubmitKeeps(cfg: Config, w: World, pid: int, id: Identity, subject: string, cmd: Command)
    requires Base(w) && Lonely(w)
    ensures Lonely(DoSubmit(cfg, w, pid, id, subject, cmd))
  {
    var w' := DoSubmit(cfg, w, pid, id, subject, cmd);
    if w' != w {
      var job := w'.procs[pid].job;
      forall s, x | Once(w'.issued, s, x) ensures Lone(w', s, x) {
        OnceEarlier(w.issued, job, s, x);
        assert Lone(w, s, x);
        SubmittedLone(w, w', pid, job, s, x);
      }
      forall m | m in w'.marks ensures Repeated(w', m) {
        assert Repeated(w, m);
        if m.hazard.ParticipationDuplicate? && Once(w'.issued, m.subject, m.item.commandId) {
          OnceEarlier(w.issued, job, m.subject, m.item.commandId);
        }
      }
    }
  }

  lemma SubmittedLone(w: World, w': World, pid: int, job: Job, s: Subject, x: string)
    requires Base(w) && Lone(w, s, x) && pid !in w.procs
    requires w'.stream == w.stream && w'.procs == w.procs[pid := Proc(job, 0, 0, Acquiring, 0)]
    requires Mentions(job, s, x) ==> forall j :: j in w.issued ==> !Mentions(j, s, x)
    ensures Lone(w', s, x)
  {
    if Pending(w'.procs[pid], s, x) {
      assert Mentions(job, s, x);
      forall q | q in w.procs ensures !Pending(w.procs[q], s, x) {
        assert ProcOk(w, q);
        assert !Mentions(w.procs[q].job, s, x);
      }
      if InLog(w.stream, s, x) {
        var j := LogMentions(w, s, x);
      }
    }
  }

  /** A commit by `pid`, after which it no longer has that fact to append, or is
      no participation command. */
  lemma CommitKeeps(w: World, w': World, pid: int)
    requires Base(w) && Lonely(w) && Holds(w, pid, Ready)
    requires var p := w.procs[pid];
             w'.stream == w.stream + [NewEntry(w.objs[p.obj], p.job, p.job.items[p.idx])]
    requires w'.issued == w.issued && w'.marks == w.marks && forall q :: q in w'.procs ==> Carries(w, w', q)
    requires pid in w'.procs && w.procs[pid].job.participation ==> w'.procs[pid].idx > w.procs[pid].idx
    ensures Lonely(w')
  {
    var p := w.procs[pid];
    var e := NewEntry(w.objs[p.obj], p.job, p.job.items[p.idx]);
    assert ProcOk(w, pid) && Sane(p.job);
    forall s, id | Once(w'.issued, s, id) ensures Lone(w', s, id) {
      assert Once(w.issued, s, id) && Lone(w, s, id);
      forall q | q in w'.procs && Pending(w'.procs[q], s, id) ensures q in w.procs && Pending(w.procs[q], s, id) {
        assert Carries(w, w', q);
      }
      if InLog(w'.stream, s, id) && !InLog(w.stream, s, id) {
        NewIsLast(w.stream, e, s, id);
        assert Pending(p, s, id);
        forall q | q in w'.procs && Pending(w'.procs[q], s, id) ensures !w'.procs[q].job.participation {
          assert Carries(w, w', q) && q == pid;
        }
      }
    }
    forall m | m in w'.marks ensures Repeated(w', m) {
      assert Repeated(w, m);
    }
  }

  lemma NewIsLast(stream: Stream, e: Entry, s: Subject, id: string)
    requires InLog(stream + [e], s, id) && !InLog(stream, s, id)
    ensures e.subject == s && e.fact.commandId == id
  {
    var after := stream + [e];
    var i :| 0 <= i < |after| && after[i].subject == s && after[i].fact.commandId == id;
    if i < |stream| {
      assert stream[i] == after[i];
    }
  }

  /** A "duplicate" answer to a participation fact means its id is in the log while
      the command is in flight. */
  lemma DuplicateIsRepeated(w: World, w': World, pid: int, at: nat)
    requires Base(w) && Lonely(w) && Holds(w, pid, Ready) && w.procs[pid].job.participation
    requires var p := w.procs[pid];
             at == Find(w.stream, NewEntry(w.objs[p.obj], p.job, p.job.items[p.idx]).dedupId) > 0
    requires w'.issued == w.issued
    ensures var p := w.procs[pid]; Repeated(w', Mark(ParticipationDuplicate, p.job.subject, p.job.items[p.idx]))
  {
    var p := w.procs[pid];
    assert ProcOk(w, pid);
    FoundIsOwn(w.stream, w.issued, p.job, p.job.items[p.idx].commandId);
    assert Pending(p, p.job.subject, p.job.items[p.idx].commandId);
    assert Once(w.issued, p.job.subject, p.job.items[p.idx].commandId) ==> Lone(w, p.job.subject, p.job.items[p.idx].commandId);
  }

  lemma FinishCarries(w: World, pid: int, o: Obj, accepted: bool)
    requires pid in w.procs
    ensures forall q :: q in Finish(w, pid, o, accepted).procs ==> Carries(w, Finish(w, pid, o, accepted), q)
    ensures pid in Finish(w, pid, o, accepted).procs ==> Finish(w, pid, o, accepted).procs[pid].idx > w.procs[pid].idx
  {
  }

  lemma AttemptKeeps(cfg: Config, w: World, pid: int, ack: Ack)
    requires Base(w) && Lonely(w) && Holds(w, pid, Ready)
    ensures Lonely(DoAttempt(cfg, w, pid, ack))
  {
    var p := w.procs[pid];
    var o, item := w.objs[p.obj], p.job.items[p.idx];
    var w' := DoAttempt(cfg, w, pid, ack);
    if CheckItem(o, p.job, item, cfg.maxResults).Answer? {
      var a := CheckItem(o, p.job, item, cfg.maxResults);
      FinishCarries(w, pid, a.obj, a.accepted);
      CalmKeeps(w, w');
    } else {
      TryKeeps(cfg, w, pid, ack);
    }
  }

  lemma TryCommits(cfg: Config, w: World, pid: int, ack: Ack)
    requires Base(w) && Lonely(w) && Holds(w, pid, Ready) && !ack.Unsent?
    requires var p := w.procs[pid];
             Decide(cfg.order, w.stream, NewEntry(w.objs[p.obj], p.job, p.job.items[p.idx]), w.objs[p.obj].streamSeq).Committed?
    ensures Lonely(TryAppend(cfg, w, pid, ack))
  {
    var p := w.procs[pid];
    var o, item := w.objs[p.obj], p.job.items[p.idx];
    var e := NewEntry(o, p.job, item);
    var appended := w.(stream := w.stream + [e]);
    FinishCarries(appended, pid, o.(poisoned := true), false);
    FinishCarries(appended, pid, Advance(o, p.job, item, |w.stream| + 1, cfg.maxResults), true);
    CommitKeeps(w, TryAppend(cfg, w, pid, ack), pid);
  }

  lemma TryKeeps(cfg: Config, w: World, pid: int, ack: Ack)
    requires Base(w) && Lonely(w) && Holds(w, pid, Ready)
    ensures Lonely(TryAppend(cfg, w, pid, ack))
  {
    var p := w.procs[pid];
    var o, item := w.objs[p.obj], p.job.items[p.idx];
    var e := NewEntry(o, p.job, item);
    var outcome := Decide(cfg.order, w.stream, e, o.streamSeq);
    if outcome.Committed? && !ack.Unsent? {
      TryCommits(cfg, w, pid, ack);
    } else {
      UnpublishedCases(cfg, w, pid, ack, e, outcome);
      if !ack.Delivered? {
        ErrorKeeps(w, pid);
      } else {
        AnswerKeeps(cfg, w, pid, outcome);
      }
    }
  }

  lemma ErrorKeeps(w: World, pid: int)
    requires Lonely(w) && Holds(w, pid, Ready)
    ensures Lonely(OnError(w, pid))
  {
    FinishCarries(w, pid, w.objs[w.procs[pid].obj].(poisoned := true), false);
    CalmKeeps(w, OnError(w, pid));
  }

  lemma AnswerKeeps(cfg: Config, w: World, pid: int, outcome: Outcome)
    requires Base(w) && Lonely(w) && Holds(w, pid, Ready) && !outcome.Committed?
    requires var p := w.procs[pid];
             outcome.Duplicate? ==> outcome.at == Find(w.stream, NewEntry(w.objs[p.obj], p.job, p.job.items[p.idx]).dedupId) > 0
    ensures Lonely(OnAnswer(cfg, w, pid, w.procs[pid].job.items[w.procs[pid].idx], outcome))
  {
    var p := w.procs[pid];
    if outcome.Duplicate? && p.job.participation {
      RepeatKeeps(cfg, w, pid, outcome.at);
    } else {
      CalmKeeps(w, OnAnswer(cfg, w, pid, p.job.items[p.idx], outcome));
    }
  }

  lemma RepeatKeeps(cfg: Config, w: World, pid: int, at: nat)
    requires Base(w) && Lonely(w) && Holds(w, pid, Ready) && w.procs[pid].job.participation
    requires var p := w.procs[pid];
             at == Find(w.stream, NewEntry(w.objs[p.obj], p.job, p.job.items[p.idx]).dedupId) > 0
    ensures Lonely(OnAnswer(cfg, w, pid, w.procs[pid].job.items[w.procs[pid].idx], Duplicate(at)))
  {
    var p := w.procs[pid];
    var o, item := w.objs[p.obj], p.job.items[p.idx];
    var noted := Noting(w, ParticipationDuplicate, p.job.subject, item);
    var w' := Finish(noted, pid, Advance(o, p.job, item, at, cfg.maxResults), true);
    assert OnAnswer(cfg, w, pid, item, Duplicate(at)) == w';
    FinishCarries(noted, pid, Advance(o, p.job, item, at, cfg.maxResults), true);
    DuplicateIsRepeated(w, w', pid, at);
    NotedKeeps(w, noted, w', Mark(ParticipationDuplicate, p.job.subject, item));
  }

  lemma NotedKeeps(w: World, noted: World, w': World, m: Mark)
    requires Lonely(w) && noted == w.(marks := w.marks + {m}) && w'.marks == noted.marks && Repeated(w', m)
    requires w'.stream == w.stream && w'.issued == w.issued && forall q :: q in w'.procs ==> Carries(noted, w', q)
    ensures Lonely(w')
  {
    forall q | q in w'.procs ensures Carries(w, w', q) {
      assert Carries(noted, w', q);
    }
    CalmKeeps(w, w');
  }

  lemma RefoldKeeps(cfg: Config, w: World, pid: int, replayed: bool)
    requires Lonely(w) && Holds(w, pid, Refolding)
    ensures Lonely(DoRefold(cfg, w, pid, replayed))
  {
    CalmKeeps(w, DoRefold(cfg, w, pid, replayed));
  }

  lemma RefoldStepKeeps(cfg: Config, w: World, pid: int, replayed: bool)
    requires Lonely(w)
    ensures Lonely(Apply(cfg, w, Refold(pid, replayed)))
  {
    if Holds(w, pid, Refolding) {
      RefoldKeeps(cfg, w, pid, replayed);
    }
  }

  lemma ReconcileErrorKeeps(cfg: Config, w: World, pid: int, replayed: bool)
    requires Lonely(w) && Holds(w, pid, ReconcilingError)
    ensures Lonely(DoReconcileError(cfg, w, pid, replayed))
  {
    CalmKeeps(w, DoReconcileError(cfg, w, pid, replayed));
  }

  lemma ErrorStepKeeps(cfg: Config, w: World, pid: int, replayed: bool)
    requires Lonely(w)
    ensures Lonely(Apply(cfg, w, ReconcileError(pid, replayed)))
  {
    if Holds(w, pid, ReconcilingError) {
      ReconcileErrorKeeps(cfg, w, pid, replayed);
    }
  }

  lemma ReconcileDuplicateKeeps(cfg: Config, w: World, pid: int, replayed: bool)
    requires Lonely(w) && Holds(w, pid, ReconcilingDuplicate)
    ensures Lonely(DoReconcileDuplicate(cfg, w, pid, replayed))
  {
    CalmKeeps(w, DoReconcileDuplicate(cfg, w, pid, replayed));
  }

  lemma DuplicateStepKeeps(cfg: Config, w: World, pid: int, replayed: bool)
    requires Lonely(w)
    ensures Lonely(Apply(cfg, w, ReconcileDuplicate(pid, replayed)))
  {
    if Holds(w, pid, ReconcilingDuplicate) {
      ReconcileDuplicateKeeps(cfg, w, pid, replayed);
    }
  }

  lemma SubmitStepKeeps(cfg: Config, w: World, pid: int, id: Identity, subject: string, cmd: Command)
    requires Base(w) && Lonely(w)
    ensures Lonely(Apply(cfg, w, Submit(pid, id, subject, cmd)))
  {
    if pid >= 0 {
      SubmitKeeps(cfg, w, pid, id, subject, cmd);
    }
  }

  lemma AttemptStepKeeps(cfg: Config, w: World, pid: int, ack: Ack)
    requires Base(w) && Lonely(w)
    ensures Lonely(Apply(cfg, w, Attempt(pid, ack)))
  {
    if Holds(w, pid, Ready) {
      AttemptKeeps(cfg, w, pid, ack);
    }
  }

  lemma QuietStepKeeps(cfg: Config, w: World, step: Step)
    requires Lonely(w) && (step.Load? || step.Take? || step.Evict? || step.Crash?)
    ensures Lonely(Apply(cfg, w, step))
  {
    CalmKeeps(w, Apply(cfg, w, step));
  }

  lemma StepKeeps(cfg: Config, w: World, step: Step)
    requires Base(w) && Lonely(w)
    ensures Lonely(Apply(cfg, w, step))
  {
    match step
    case Submit(pid, id, subject, cmd) => SubmitStepKeeps(cfg, w, pid, id, subject, cmd);
    case Attempt(pid, ack) => AttemptStepKeeps(cfg, w, pid, ack);
    case Refold(pid, replayed) => RefoldStepKeeps(cfg, w, pid, replayed);
    case ReconcileError(pid, replayed) => ErrorStepKeeps(cfg, w, pid, replayed);
    case ReconcileDuplicate(pid, replayed) => DuplicateStepKeeps(cfg, w, pid, replayed);
    case _ => QuietStepKeeps(cfg, w, step);
  }

  lemma {:induction false} LonelyAlways(cfg: Config, steps: seq<Step>)
    ensures Lonely(Run(cfg, steps))
  {
    if steps != [] {
      LonelyAlways(cfg, steps[..|steps| - 1]);
      BaseAlways(cfg, steps[..|steps| - 1]);
      StepKeeps(cfg, Run(cfg, steps[..|steps| - 1]), steps[|steps| - 1]);
    }
  }
}
