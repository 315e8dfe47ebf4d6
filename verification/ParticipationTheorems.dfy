/** Every run of any number of participation projectors. */
module ParticipationTheorems {
  import opened Ledgers
  import opened ParticipationTables
  import opened ParticipationMachine
  import opened ParticipationSafety

  ghost predicate CodecOk(c: Codec) {
    CollisionFree(c) && !c.uuid("")
  }

  predicate RecordOk(c: Codec, record: Record) {
    Acceptable(c, record.command) && record == RecordOf(c, record.command)
  }

  /** What was loaded is the stored fold, if the stored version is still the same. */
  predicate Fresh(db: Db, fold: Fold) {
    && fold.version <= HeadOf(db, fold.key).version
    && (fold.version == HeadOf(db, fold.key).version ==> Stored(db, fold.key) == fold)
  }

  predicate FreshHead(db: Db, k: Key, head: HeadRow) {
    && head.version <= HeadOf(db, k).version
    && (head.version == HeadOf(db, k).version ==> HeadOf(db, k) == head)
  }

  predicate Loaded(c: Codec, db: Db, record: Record, fold: Fold) {
    RecordOk(c, record) && fold.key == record.command.key && fold.key.tenant != "" && Fresh(db, fold)
  }

  predicate Engaged(c: Codec, db: Db, record: Record, intent: Intent) {
    RecordOk(c, record) && Registered(db, intent) && AskedFor(c, intent, record.command)
  }

  ghost predicate ProcOk(c: Codec, db: Db, pc: Pc) {
    match pc
    case Idle => true
    case LoadingRows(record, head) => RecordOk(c, record) && record.command.key.tenant != "" && FreshHead(db, record.command.key, head)
    case LoadingLedger(record, fold) => Loaded(c, db, record, fold)
    case Installing(record, fold, records, final) => Loaded(c, db, record, fold) && Installable(record, fold, records, final)
    case Reconciling(record, fold, historical) => Loaded(c, db, record, fold) && (historical <==> record.command.version <= fold.version)
    case Awaiting(record, fold, historical, intent) =>
      && Loaded(c, db, record, fold) && (historical <==> record.command.version <= fold.version)
      && Engaged(c, db, record, intent) && intent.observed == fold.version
    case Resolving(record, fold, records, final, intent) =>
      && Loaded(c, db, record, fold) && Installable(record, fold, records, final)
      && Engaged(c, db, record, intent) && intent.observed == fold.version
    case WantSnapshot(record, intent) => Engaged(c, db, record, intent)
    case Recording(record, intent, replayed) =>
      && Engaged(c, db, record, intent) && record.command.version <= intent.observed
      && SlotOf(replayed) == SlotOf(record) && replayed.id == record.id
    case Replacing(record, intent, fold) =>
      Engaged(c, db, record, intent) && fold.key == intent.key && fold.version > 0 && fold.version >= intent.observed
    case Failing(record, intent) => Engaged(c, db, record, intent)
    case Poisoning(_) => true
  }

  predicate ReplyOk(db: Db, r: Reply) {
    r.result.Applied? || r.result.Duplicate? ==> Holds(db.ledger, SlotOf(r.record), r.record.id)
  }

  ghost predicate WorldOk(c: Codec, w: World) {
    && TablesOk(c, w.db)
    && (forall p {:trigger Proc(w, p)} :: ProcOk(c, w.db, Proc(w, p)))
    && (forall r :: r in w.replies ==> ReplyOk(w.db, r))
    && (forall k {:trigger Stored(w.db, k)} :: Stored(w.db, k) == Pure(k, w.committed))
  }

  lemma FreshStays(db: Db, db': Db, fold: Fold)
    requires Fresh(db, fold) && Grows(db, db')
    ensures Fresh(db', fold)
  {
    assert FoldMoves(Stored(db, fold.key), Stored(db', fold.key));
  }

  lemma ProcStable(c: Codec, db: Db, db': Db, pc: Pc)
    requires ProcOk(c, db, pc) && Grows(db, db')
    ensures ProcOk(c, db', pc)
  {
    match pc
    case LoadingRows(record, head) => assert FoldMoves(Stored(db, record.command.key), Stored(db', record.command.key));
    case LoadingLedger(_, fold) => FreshStays(db, db', fold);
    case Installing(_, fold, _, _) => FreshStays(db, db', fold);
    case Reconciling(_, fold, _) => FreshStays(db, db', fold);
    case Awaiting(_, fold, _, _) => FreshStays(db, db', fold);
    case Resolving(_, fold, _, _, _) => FreshStays(db, db', fold);
    case _ =>
  }

  ghost predicate Followed(db: Db, committed: seq<Effect>) {
    forall k {:trigger Stored(db, k)} :: Stored(db, k) == Pure(k, committed)
  }

  /** A step by `p` over a database that only grew. */
  lemma StepKeeps(c: Codec, w: World, w': World, p: nat)
    requires WorldOk(c, w) && TablesOk(c, w'.db) && Grows(w.db, w'.db) && Followed(w'.db, w'.committed)
    requires p in w'.procs && w'.procs == w.procs[p := w'.procs[p]] && ProcOk(c, w'.db, w'.procs[p])
    requires forall r :: r in w'.replies && r !in w.replies ==> ReplyOk(w'.db, r)
    ensures WorldOk(c, w')
  {
    forall q: nat ensures ProcOk(c, w'.db, Proc(w', q)) {
      if q != p {
        assert ProcOk(c, w.db, Proc(w, q));
        ProcStable(c, w.db, w'.db, Proc(w, q));
        assert Proc(w', q) == Proc(w, q);
      }
    }
    forall r | r in w'.replies ensures ReplyOk(w'.db, r) {
      if r in w.replies {
        assert ReplyOk(w.db, r);
      }
    }
  }

  lemma GrowsReflexive(db: Db)
    ensures Grows(db, db)
  {
  }

  lemma MoveKeeps(c: Codec, w: World, p: nat, pc: Pc)
    requires WorldOk(c, w) && ProcOk(c, w.db, pc)
    ensures WorldOk(c, To(w, p, pc)) && Grows(w.db, To(w, p, pc).db)
  {
    GrowsReflexive(w.db);
    StepKeeps(c, w, To(w, p, pc), p);
  }

  lemma DoneKeeps(c: Codec, w: World, p: nat, record: Record, result: Result)
    requires WorldOk(c, w) && ReplyOk(w.db, Reply(record, result))
    ensures WorldOk(c, Done(w, p, record, result)) && Grows(w.db, Done(w, p, record, result).db)
  {
    GrowsReflexive(w.db);
    StepKeeps(c, w, Done(w, p, record, result), p);
  }

  lemma StartStep(c: Codec, w: World, p: nat, grant: Grant, command: Command)
    requires CodecOk(c) && WorldOk(c, w)
    ensures WorldOk(c, DoStart(c, w, p, grant, command)) && Grows(w.db, DoStart(c, w, p, grant, command).db)
  {
    if !Acceptable(c, command) || !Granted(grant, command) {
      DoneKeeps(c, w, p, RecordOf(c, command), Poisoned);
    } else {
      MoveKeeps(c, w, p, LoadingRows(RecordOf(c, command), HeadOf(w.db, command.key)));
    }
  }

  /** A read torn by another transaction is fresh only if none lay between. */
  lemma ReadStep(c: Codec, w: World, p: nat, record: Record, head: HeadRow)
    requires WorldOk(c, w) && ProcOk(c, w.db, LoadingRows(record, head))
    ensures WorldOk(c, DoRead(w, p, record, head)) && Grows(w.db, DoRead(w, p, record, head).db)
  {
    var k := record.command.key;
    MoveKeeps(c, w, p, LoadingLedger(record, Fold(k, head.version, head.id, Participants(w.db.rows, k), head.provenance)));
  }

  lemma ChooseStep(c: Codec, w: World, p: nat, record: Record, fold: Fold)
    requires WorldOk(c, w) && Loaded(c, w.db, record, fold)
    ensures WorldOk(c, DoChoose(w, p, record, fold)) && Grows(w.db, DoChoose(w, p, record, fold).db)
  {
    var version := record.command.version;
    if version <= fold.version {
      if SlotOf(record) !in w.db.ledger.versions {
        MoveKeeps(c, w, p, Reconciling(record, fold, true));
      } else if w.db.ledger.versions[SlotOf(record)] == record.id {
        DoneKeeps(c, w, p, record, Duplicate);
      } else {
        MoveKeeps(c, w, p, Poisoning(record));
      }
    } else if version > fold.version + 1 {
      MoveKeeps(c, w, p, Reconciling(record, fold, false));
    } else {
      match Folded(fold, [record])
      case None => DoneKeeps(c, w, p, record, Poisoned);
      case Some(final) =>
        assert [record][0] == record;
        MoveKeeps(c, w, p, Installing(record, fold, [record], final));
    }
  }

  lemma SameFoldsFollowed(w: World, db: Db)
    requires Followed(w.db, w.committed) && SameFolds(w.db, db)
    ensures Followed(db, w.committed)
  {
    forall k ensures Stored(db, k) == Pure(k, w.committed) {
      assert Stored(db, k) == Stored(w.db, k);
    }
  }

  lemma BeginStep(c: Codec, w: World, p: nat, record: Record, fold: Fold, historical: bool, token: string)
    requires CodecOk(c) && WorldOk(c, w) && ProcOk(c, w.db, Reconciling(record, fold, historical))
    ensures var w' := DoBegin(w, p, record, fold, historical, token); WorldOk(c, w') && Grows(w.db, w'.db)
  {
    var proposed := Proposed(record, fold.version, historical, token);
    BeginKeeps(c, w.db, proposed, record);
    var (tx, intent) := BeginTx(w.db, proposed, record);
    SameFoldsFollowed(w, After(w.db, tx));
    if tx.RolledBack? {
      MoveKeeps(c, w, p, Idle);
    } else {
      if tx.ok {
        FreshStays(w.db, tx.db, fold);
      }
      StepKeeps(c, w, DoBegin(w, p, record, fold, historical, token), p);
    }
  }

  lemma ReplayedStep(c: Codec, w: World, p: nat, pc: Pc, replay: Replay)
    requires WorldOk(c, w) && pc.Awaiting? && ProcOk(c, w.db, pc)
    ensures var w' := DoAnswered(c, w, p, pc, Replayed(replay)); WorldOk(c, w') && Grows(w.db, w'.db)
  {
    if !ValidReplay(c, replay, pc.intent, pc.record) {
      DoneKeeps(c, w, p, pc.record, Poisoned);
    } else {
      var records := Records(c, replay.commands);
      var i :| 0 <= i < |records| && replay.commands[i].version == pc.record.command.version
               && RecordOf(c, replay.commands[i]).id == pc.record.id;
      assert SlotOf(records[i]) == SlotOf(pc.record) && records[i].id == pc.record.id;
      if pc.historical {
        MoveKeeps(c, w, p, Recording(pc.record, pc.intent, records[0]));
      } else {
        match Folded(pc.fold, records)
        case None => DoneKeeps(c, w, p, pc.record, Poisoned);
        case Some(final) => MoveKeeps(c, w, p, Resolving(pc.record, pc.fold, records, final, pc.intent));
      }
    }
  }

  lemma AnsweredStep(c: Codec, w: World, p: nat, pc: Pc, answer: Answer)
    requires WorldOk(c, w) && pc.Awaiting? && ProcOk(c, w.db, pc)
    ensures var w' := DoAnswered(c, w, p, pc, answer); WorldOk(c, w') && Grows(w.db, w'.db)
  {
    match answer
    case AuthorityError => MoveKeeps(c, w, p, Failing(pc.record, pc.intent));
    case HistoryUnknown => MoveKeeps(c, w, p, WantSnapshot(pc.record, pc.intent));
    case Replayed(replay) => ReplayedStep(c, w, p, pc, replay);
  }

  lemma SnapStep(c: Codec, w: World, p: nat, record: Record, intent: Intent, snapshot: Option<Snapshot>)
    requires WorldOk(c, w) && Engaged(c, w.db, record, intent)
    ensures var w' := DoSnap(c, w, p, record, intent, snapshot); WorldOk(c, w') && Grows(w.db, w'.db)
  {
    if snapshot.None? {
      MoveKeeps(c, w, p, Failing(record, intent));
    } else if !ValidSnapshot(c, snapshot.value, intent, record) {
      DoneKeeps(c, w, p, record, Poisoned);
    } else {
      MoveKeeps(c, w, p, Replacing(record, intent, SnapshotFold(snapshot.value)));
    }
  }

  lemma FinishKeeps(c: Codec, w: World, p: nat, record: Record, tx: Tx<Db>, result: Result, effects: seq<Effect>)
    requires WorldOk(c, w) && TablesOk(c, After(w.db, tx)) && Grows(w.db, After(w.db, tx))
    requires tx.Committed? && tx.ok ==> ReplyOk(tx.db, Reply(record, result)) && Followed(tx.db, w.committed + effects)
    requires tx.Committed? && !tx.ok ==> tx.db == w.db
    ensures var w' := Finish(w, p, record, tx, result, effects); WorldOk(c, w') && Grows(w.db, w'.db)
  {
    if tx.RolledBack? {
      MoveKeeps(c, w, p, Idle);
    } else {
      StepKeeps(c, w, Finish(w, p, record, tx, result, effects), p);
    }
  }

  lemma {:induction false} BatchFollowed(w: World, db: Db, fold: Fold, records: seq<Record>, final: Fold)
    requires Followed(w.db, w.committed) && Stored(w.db, fold.key) == fold
    requires Folded(fold, records) == Some(final) && final.key == fold.key && MovesTo(w.db, db, final)
    ensures Followed(db, w.committed + [Batch(fold.key, records)])
  {
    var after := w.committed + [Batch(fold.key, records)];
    assert after[..|after| - 1] == w.committed;
    forall k ensures Stored(db, k) == Pure(k, after) {
      assert Stored(w.db, k) == Pure(k, w.committed);
    }
  }

  lemma ReplacedFollowed(w: World, db: Db, fold: Fold)
    requires Followed(w.db, w.committed) && MovesTo(w.db, db, fold)
    ensures Followed(db, w.committed + [Replaced(fold)])
  {
    var after := w.committed + [Replaced(fold)];
    assert after[..|after| - 1] == w.committed;
    forall k ensures Stored(db, k) == Pure(k, after) {
      assert Stored(w.db, k) == Pure(k, w.committed);
    }
  }

  lemma InstallStep(c: Codec, w: World, p: nat, record: Record, fold: Fold, records: seq<Record>, final: Fold)
    requires WorldOk(c, w) && ProcOk(c, w.db, Installing(record, fold, records, final))
    ensures var w' := DoCommit(w, p, Installing(record, fold, records, final)); WorldOk(c, w') && Grows(w.db, w'.db)
  {
    var tx := InstallTx(w.db, fold.version, records, final);
    FoldIffConsecutive(fold, records);
    GrowsReflexive(w.db);
    if tx.Committed? && tx.ok {
      InstallKeeps(c, w.db, record, fold, records, final);
      BatchFollowed(w, tx.db, fold, records, final);
    }
    FinishKeeps(c, w, p, record, tx, Applied, [Batch(fold.key, records)]);
  }

  lemma ResolveKeeps(c: Codec, db: Db, record: Record, fold: Fold, records: seq<Record>, final: Fold, intent: Intent)
    requires TablesOk(c, db) && Installable(record, fold, records, final) && Registered(db, intent) && Locks(db, intent)
    requires Stored(db, fold.key) == fold && InstallRecords(db, records, final).Some?
    ensures var db' := Complete(InstallRecords(db, records, final).value, intent, Installed, Settled);
            && TablesOk(c, db') && Grows(db, db') && Holds(db'.ledger, SlotOf(record), record.id)
            && final.key == fold.key && MovesTo(db, db', final)
  {
    InstallKeeps(c, db, record, fold, records, final);
    var db1 := InstallRecords(db, records, final).value;
    CompleteKeeps(c, db1, intent, Installed, Settled);
    GrowsTransitive(db, db1, Complete(db1, intent, Installed, Settled));
    MovesToSame(db, db1, Complete(db1, intent, Installed, Settled), final);
  }

  lemma ResolveStep(c: Codec, w: World, p: nat, record: Record, fold: Fold, records: seq<Record>, final: Fold, intent: Intent)
    requires WorldOk(c, w) && ProcOk(c, w.db, Resolving(record, fold, records, final, intent))
    ensures var w' := DoCommit(w, p, Resolving(record, fold, records, final, intent)); WorldOk(c, w') && Grows(w.db, w'.db)
  {
    var tx := ReconcileTx(w.db, intent, records, final);
    GrowsReflexive(w.db);
    if tx.Committed? && tx.ok {
      ResolveKeeps(c, w.db, record, fold, records, final, intent);
      BatchFollowed(w, tx.db, fold, records, final);
    }
    FinishKeeps(c, w, p, record, tx, Applied, [Batch(fold.key, records)]);
  }

  lemma ReplaceStep(c: Codec, w: World, p: nat, record: Record, intent: Intent, fold: Fold)
    requires WorldOk(c, w) && ProcOk(c, w.db, Replacing(record, intent, fold))
    ensures var w' := DoCommit(w, p, Replacing(record, intent, fold)); WorldOk(c, w') && Grows(w.db, w'.db)
  {
    var tx := SnapshotTx(w.db, intent, fold, record);
    SnapshotKeeps(c, w.db, intent, fold, record);
    if tx.Committed? && tx.ok {
      ReplacedFollowed(w, tx.db, fold);
    }
    FinishKeeps(c, w, p, record, tx, AuditedSnapshot, [Replaced(fold)]);
  }

  lemma RecordStep(c: Codec, w: World, p: nat, record: Record, intent: Intent, replayed: Record)
    requires WorldOk(c, w) && ProcOk(c, w.db, Recording(record, intent, replayed))
    ensures var w' := DoCommit(w, p, Recording(record, intent, replayed)); WorldOk(c, w') && Grows(w.db, w'.db)
  {
    var tx := HistoricalTx(w.db, intent, replayed);
    HistoricalKeeps(c, w.db, intent, replayed);
    SameFoldsFollowed(w, After(w.db, tx));
    assert w.committed + [] == w.committed;
    FinishKeeps(c, w, p, record, tx, Duplicate, []);
  }

  lemma FailStep(c: Codec, w: World, p: nat, record: Record, intent: Intent)
    requires WorldOk(c, w) && ProcOk(c, w.db, Failing(record, intent))
    ensures var w' := DoCommit(w, p, Failing(record, intent)); WorldOk(c, w') && Grows(w.db, w'.db)
  {
    var tx := FailTx(w.db, intent, record);
    FailKeeps(c, w.db, intent, record);
    SameFoldsFollowed(w, tx.db);
    StepKeeps(c, w, DoCommit(w, p, Failing(record, intent)), p);
  }

  lemma PoisonStep(c: Codec, w: World, p: nat, record: Record)
    requires WorldOk(c, w)
    ensures var w' := DoCommit(w, p, Poisoning(record)); WorldOk(c, w') && Grows(w.db, w'.db)
  {
    DlqPart(c, w.db, Audit(record.command.key, record.id.eventId, Divergent));
    SameFoldsFollowed(w, PoisonTx(w.db, record));
    StepKeeps(c, w, DoCommit(w, p, Poisoning(record)), p);
  }

  lemma CommitStep(c: Codec, w: World, p: nat, pc: Pc)
    requires WorldOk(c, w) && ProcOk(c, w.db, pc)
    ensures WorldOk(c, DoCommit(w, p, pc)) && Grows(w.db, DoCommit(w, p, pc).db)
  {
    match pc
    case Installing(record, fold, records, final) => InstallStep(c, w, p, record, fold, records, final);
    case Resolving(record, fold, records, final, intent) => ResolveStep(c, w, p, record, fold, records, final, intent);
    case Recording(record, intent, replayed) => RecordStep(c, w, p, record, intent, replayed);
    case Replacing(record, intent, fold) => ReplaceStep(c, w, p, record, intent, fold);
    case Failing(record, intent) => FailStep(c, w, p, record, intent);
    case Poisoning(record) => PoisonStep(c, w, p, record);
    case _ => GrowsReflexive(w.db);
  }

  lemma ApplyKeeps(c: Codec, w: World, step: Step)
    requires CodecOk(c) && WorldOk(c, w)
    ensures WorldOk(c, Apply(c, w, step)) && Grows(w.db, Apply(c, w, step).db)
  {
    GrowsReflexive(w.db);
    match step
    case Start(p, grant, command) => if Proc(w, p).Idle? { StartStep(c, w, p, grant, command); }
    case Read(p) => if Proc(w, p).LoadingRows? { ReadStep(c, w, p, Proc(w, p).record, Proc(w, p).head); }
    case Choose(p) => if Proc(w, p).LoadingLedger? { ChooseStep(c, w, p, Proc(w, p).record, Proc(w, p).fold); }
    case Begin(p, token) =>
      var pc := Proc(w, p);
      if pc.Reconciling? {
        BeginStep(c, w, p, pc.record, pc.fold, pc.historical, token);
      }
    case Answered(p, answer) => if Proc(w, p).Awaiting? { AnsweredStep(c, w, p, Proc(w, p), answer); }
    case Snap(p, snapshot) =>
      if Proc(w, p).WantSnapshot? { SnapStep(c, w, p, Proc(w, p).record, Proc(w, p).intent, snapshot); }
    case Commit(p) => CommitStep(c, w, p, Proc(w, p));
    case Crash(p) => MoveKeeps(c, w, p, Idle);
  }

  lemma {:induction false} RunKeeps(c: Codec, steps: seq<Step>)
    requires CodecOk(c)
    ensures WorldOk(c, Run(c, steps))
  {
    if steps == [] {
      forall k ensures Stored(INITIAL.db, k) == Pure(k, []) {
        assert Participants(map[], k) == {};
      }
    } else {
      RunKeeps(c, steps[..|steps| - 1]);
      ApplyKeeps(c, Run(c, steps[..|steps| - 1]), steps[|steps| - 1]);
    }
  }

  /** The participants table, updated row by row by projectors that lose races
      and read torn heads, with its head row, is the pure fold of what committed. */
  lemma {:induction false} TableIsPureFold(c: Codec, steps: seq<Step>, k: Key)
    requires CodecOk(c)
    ensures Stored(Run(c, steps).db, k) == Pure(k, Run(c, steps).committed)
  {
    RunKeeps(c, steps);
  }

  /** Ledger and head agree, a participant's row names a ledger entry, at most
      one intent is pending, and it keeps its command waiting. */
  lemma {:induction false} TablesAgree(c: Codec, steps: seq<Step>)
    requires CodecOk(c)
    ensures TablesOk(c, Run(c, steps).db)
  {
    RunKeeps(c, steps);
  }

  lemma {:induction false} WriteOnce(c: Codec, steps: seq<Step>, more: seq<Step>)
    requires CodecOk(c)
    ensures Grows(Run(c, steps).db, Run(c, steps + more).db)
    decreases |more|
  {
    if more == [] {
      assert steps + more == steps;
      GrowsReflexive(Run(c, steps).db);
    } else {
      var all := steps + more;
      var init := more[..|more| - 1];
      assert all[..|all| - 1] == steps + init && all[|all| - 1] == more[|more| - 1];
      WriteOnce(c, steps, init);
      RunKeeps(c, steps + init);
      ApplyKeeps(c, Run(c, steps + init), more[|more| - 1]);
      GrowsTransitive(Run(c, steps).db, Run(c, steps + init).db, Run(c, all).db);
    }
  }

  /** A command answered applied or duplicate is in the ledger with its identity. */
  lemma {:induction false} AnsweredIsRetained(c: Codec, steps: seq<Step>, r: Reply)
    requires CodecOk(c) && r in Run(c, steps).replies
    ensures ReplyOk(Run(c, steps).db, r)
  {
    RunKeeps(c, steps);
  }

  /** Within a tenant an event id is answered applied or duplicate for one command
      only, and a version for one event only. */
  lemma {:induction false} OneEventOneCommand(c: Codec, steps: seq<Step>, r: Reply, q: Reply)
    requires CodecOk(c) && r in Run(c, steps).replies && q in Run(c, steps).replies
    requires (r.result.Applied? || r.result.Duplicate?) && (q.result.Applied? || q.result.Duplicate?)
    requires SlotOf(r.record).key.tenant == SlotOf(q.record).key.tenant
    ensures r.record.id.eventId == q.record.id.eventId <==> SlotOf(r.record) == SlotOf(q.record)
    ensures r.record.id.eventId == q.record.id.eventId ==> r.record.id == q.record.id
  {
    RunKeeps(c, steps);
    var db := Run(c, steps).db;
    assert ReplyOk(db, r) && ReplyOk(db, q);
    if r.record.id.eventId == q.record.id.eventId {
      EventOnce(db.ledger, SlotOf(r.record), SlotOf(q.record));
    }
  }
}
