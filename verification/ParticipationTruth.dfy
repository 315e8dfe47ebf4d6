/** Participation projectors fed from one dense command history per interaction. */
module ParticipationTruth {
  import opened Ledgers
  import opened ParticipationTables
  import opened ParticipationMachine
  import opened ParticipationSafety
  import opened ParticipationTheorems

  type History = Key -> seq<Command>

  /** The reference: a participant is wanted if the last command about them says so. */
  predicate Wants(commands: seq<Command>, p: string) {
    commands != [] &&
    var last := commands[|commands| - 1];
    if last.participant == p then last.desired.Assigned? else Wants(commands[..|commands| - 1], p)
  }

  predicate TrueCommand(h: History, command: Command) {
    0 < command.version <= |h(command.key)| && command == h(command.key)[command.version - 1]
  }

  ghost predicate TrueFold(c: Codec, h: History, fold: Fold) {
    && fold.version <= |h(fold.key)|
    && (forall p :: p in fold.participants <==> Wants(h(fold.key)[..fold.version], p))
  }

  predicate TrueRow(c: Codec, h: History, s: Slot, id: Identity) {
    0 < s.version <= |h(s.key)| && id == RecordOf(c, h(s.key)[s.version - 1]).id
  }

  ghost predicate TrueLedger(c: Codec, h: History, l: Ledger) {
    forall s :: s in l.versions ==> TrueRow(c, h, s, l.versions[s])
  }

  predicate TrueRecord(c: Codec, h: History, record: Record) {
    TrueCommand(h, record.command) && record == RecordOf(c, record.command)
  }

  predicate TrueRecords(c: Codec, h: History, records: seq<Record>) {
    forall i :: 0 <= i < |records| ==> TrueRecord(c, h, records[i])
  }

  ghost predicate TrueDb(c: Codec, h: History, db: Db) {
    && (forall k {:trigger Stored(db, k)} :: TrueFold(c, h, Stored(db, k)))
    && TrueLedger(c, h, db.ledger)
    && (forall a :: a in db.dlq ==> !a.reason.Divergent?)
  }

  /** A loaded fold may be torn, so nothing is claimed of it here. */
  ghost predicate TruePc(c: Codec, h: History, pc: Pc) {
    match pc
    case Idle => true
    case LoadingRows(record, _) => TrueRecord(c, h, record)
    case LoadingLedger(record, _) => TrueRecord(c, h, record)
    case Installing(record, _, records, _) => TrueRecord(c, h, record) && TrueRecords(c, h, records)
    case Reconciling(record, _, _) => TrueRecord(c, h, record)
    case Awaiting(record, _, _, _) => TrueRecord(c, h, record)
    case Resolving(record, _, records, _, _) => TrueRecord(c, h, record) && TrueRecords(c, h, records)
    case WantSnapshot(record, _) => TrueRecord(c, h, record)
    case Recording(record, _, replayed) => TrueRecord(c, h, record) && TrueRecord(c, h, replayed)
    case Replacing(record, _, fold) => TrueRecord(c, h, record) && TrueFold(c, h, fold) && TrueRow(c, h, Slot(fold.key, fold.version), fold.id)
    case Failing(record, _) => TrueRecord(c, h, record)
    case Poisoning(_) => false
  }

  ghost predicate TrueWorld(c: Codec, h: History, w: World) {
    TrueDb(c, h, w.db) && forall p {:trigger Proc(w, p)} :: TruePc(c, h, Proc(w, p))
  }

  /** Commands, replays and snapshots come from the history. */
  ghost predicate Truthful(c: Codec, h: History, step: Step) {
    match step
    case Start(_, _, command) => TrueCommand(h, command)
    case Answered(_, Replayed(replay)) => forall i :: 0 <= i < |replay.commands| ==> TrueCommand(h, replay.commands[i])
    case Snap(_, Some(s)) => TrueFold(c, h, SnapshotFold(s)) && TrueRow(c, h, Slot(s.key, s.version), s.head)
    case _ => true
  }

  lemma TrueStep(c: Codec, h: History, w: World, w': World, p: nat)
    requires TrueWorld(c, h, w) && TrueDb(c, h, w'.db)
    requires p in w'.procs && w'.procs == w.procs[p := w'.procs[p]] && TruePc(c, h, w'.procs[p])
    ensures TrueWorld(c, h, w')
  {
    forall q: nat ensures TruePc(c, h, Proc(w', q)) {
      assert TruePc(c, h, Proc(w, q));
    }
  }

  /** One more command moves the reference exactly as it moves the fold. */
  lemma NextIsTrue(c: Codec, h: History, fold: Fold, record: Record)
    requires TrueFold(c, h, fold) && Fits(fold, record) && record.command.key == fold.key && TrueRecord(c, h, record)
    ensures TrueFold(c, h, Next(fold, record))
  {
    var history, n := h(fold.key), fold.version;
    assert history[..n + 1][..n] == history[..n] && history[..n + 1][n] == record.command;
  }

  lemma {:induction false} FoldIsTrue(c: Codec, h: History, fold: Fold, records: seq<Record>)
    requires fold.key.tenant != "" && TrueFold(c, h, fold) && TrueRecords(c, h, records) && Folded(fold, records).Some?
    ensures TrueFold(c, h, Folded(fold, records).value)
    decreases |records|
  {
    if records != [] {
      NextIsTrue(c, h, fold, records[0]);
      FoldIsTrue(c, h, Next(fold, records[0]), records[1..]);
    }
  }

  lemma {:induction false} RowsKeepTruth(c: Codec, h: History, p: Pages, records: seq<Record>)
    requires TrueLedger(c, h, p.ledger) && TrueRecords(c, h, records) && InstallRows(p, records).Some?
    ensures TrueLedger(c, h, InstallRows(p, records).value.ledger)
    decreases |records|
  {
    if records != [] {
      assert TrueRecord(c, h, records[0]);
      RowsKeepTruth(c, h, Pages(Insert(p.ledger, SlotOf(records[0]), records[0].id).value, RowsAfter(p.rows, records[0])), records[1..]);
    }
  }

  lemma MovedIsTrue(c: Codec, h: History, db: Db, db': Db, fold: Fold)
    requires TrueDb(c, h, db) && MovesTo(db, db', fold) && TrueFold(c, h, fold) && TrueLedger(c, h, db'.ledger)
    requires forall a :: a in db'.dlq ==> !a.reason.Divergent?
    ensures TrueDb(c, h, db')
  {
    forall k ensures TrueFold(c, h, Stored(db', k)) {
      assert TrueFold(c, h, Stored(db, k));
    }
  }

  lemma SameFoldsTrue(c: Codec, h: History, db: Db, db': Db)
    requires TrueDb(c, h, db) && SameFolds(db, db') && TrueLedger(c, h, db'.ledger)
    requires forall a :: a in db'.dlq ==> !a.reason.Divergent?
    ensures TrueDb(c, h, db')
  {
    forall k ensures TrueFold(c, h, Stored(db', k)) {
      assert TrueFold(c, h, Stored(db, k)) && Stored(db', k) == Stored(db, k);
    }
  }

  lemma InstallKeepsTruth(c: Codec, h: History, db: Db, record: Record, fold: Fold, records: seq<Record>, final: Fold)
    requires TablesOk(c, db) && TrueDb(c, h, db) && TrueRecords(c, h, records) && Installable(record, fold, records, final)
    requires Stored(db, fold.key) == fold && InstallRecords(db, records, final).Some?
    ensures var db' := InstallRecords(db, records, final).value; TrueDb(c, h, db') && db'.dlq == db.dlq
  {
    var db' := InstallRecords(db, records, final).value;
    InstallKeeps(c, db, record, fold, records, final);
    assert TrueFold(c, h, Stored(db, fold.key));
    FoldIsTrue(c, h, fold, records);
    RowsKeepTruth(c, h, Pages(db.ledger, db.rows), records);
    MovedIsTrue(c, h, db, db', final);
  }

  lemma CommitKeepsTruth(c: Codec, h: History, w: World, p: nat)
    requires WorldOk(c, w) && TrueWorld(c, h, w)
    ensures TrueWorld(c, h, DoCommit(w, p, Proc(w, p)))
  {
    var pc := Proc(w, p);
    assert ProcOk(c, w.db, pc) && TruePc(c, h, pc);
    match pc
    case Installing(record, fold, records, final) => InstallTruth(c, h, w, p, pc);
    case Resolving(record, fold, records, final, intent) => ResolveTruth(c, h, w, p, pc);
    case Replacing(record, intent, fold) => ReplaceTruth(c, h, w, p, pc);
    case Recording(record, intent, replayed) => RecordTruth(c, h, w, p, pc);
    case Failing(record, intent) => FailTruth(c, h, w, p, pc);
    case _ =>
  }

  lemma RecordTruth(c: Codec, h: History, w: World, p: nat, pc: Pc)
    requires TrueWorld(c, h, w) && pc.Recording? && TruePc(c, h, pc)
    ensures TrueWorld(c, h, DoCommit(w, p, pc))
  {
    SameFoldsTrue(c, h, w.db, After(w.db, HistoricalTx(w.db, pc.intent, pc.replayed)));
    TrueStep(c, h, w, DoCommit(w, p, pc), p);
  }

  lemma FailTruth(c: Codec, h: History, w: World, p: nat, pc: Pc)
    requires TrueWorld(c, h, w) && pc.Failing? && TruePc(c, h, pc)
    ensures TrueWorld(c, h, DoCommit(w, p, pc))
  {
    SameFoldsTrue(c, h, w.db, After(w.db, FailTx(w.db, pc.intent, pc.record)));
    TrueStep(c, h, w, DoCommit(w, p, pc), p);
  }

  lemma InstallTruth(c: Codec, h: History, w: World, p: nat, pc: Pc)
    requires WorldOk(c, w) && TrueWorld(c, h, w) && pc.Installing? && ProcOk(c, w.db, pc) && TruePc(c, h, pc)
    ensures TrueWorld(c, h, DoCommit(w, p, pc))
  {
    var tx := InstallTx(w.db, pc.fold.version, pc.records, pc.final);
    if tx.Committed? && tx.ok {
      FoldIffConsecutive(pc.fold, pc.records);
      InstallKeepsTruth(c, h, w.db, pc.record, pc.fold, pc.records, pc.final);
    }
    TrueStep(c, h, w, DoCommit(w, p, pc), p);
  }

  lemma ResolveTruth(c: Codec, h: History, w: World, p: nat, pc: Pc)
    requires WorldOk(c, w) && TrueWorld(c, h, w) && pc.Resolving? && ProcOk(c, w.db, pc) && TruePc(c, h, pc)
    ensures TrueWorld(c, h, DoCommit(w, p, pc))
  {
    var tx := ReconcileTx(w.db, pc.intent, pc.records, pc.final);
    if tx.Committed? && tx.ok {
      InstallKeepsTruth(c, h, w.db, pc.record, pc.fold, pc.records, pc.final);
      SameFoldsTrue(c, h, InstallRecords(w.db, pc.records, pc.final).value, tx.db);
    }
    TrueStep(c, h, w, DoCommit(w, p, pc), p);
  }

  lemma ReplaceTruth(c: Codec, h: History, w: World, p: nat, pc: Pc)
    requires WorldOk(c, w) && TrueWorld(c, h, w) && pc.Replacing? && ProcOk(c, w.db, pc) && TruePc(c, h, pc)
    ensures TrueWorld(c, h, DoCommit(w, p, pc))
  {
    var tx := SnapshotTx(w.db, pc.intent, pc.fold, pc.record);
    SnapshotKeeps(c, w.db, pc.intent, pc.fold, pc.record);
    if tx.Committed? && tx.ok {
      MovedIsTrue(c, h, w.db, tx.db, pc.fold);
    }
    TrueStep(c, h, w, DoCommit(w, p, pc), p);
  }

  lemma BeginTruth(c: Codec, h: History, w: World, p: nat, token: string)
    requires TrueWorld(c, h, w) && Proc(w, p).Reconciling?
    ensures var pc := Proc(w, p); TrueWorld(c, h, DoBegin(w, p, pc.record, pc.fold, pc.historical, token))
  {
    var pc := Proc(w, p);
    assert TruePc(c, h, pc);
    var w' := DoBegin(w, p, pc.record, pc.fold, pc.historical, token);
    SameFoldsTrue(c, h, w.db, w'.db);
    TrueStep(c, h, w, w', p);
  }

  lemma ChooseTruth(c: Codec, h: History, w: World, p: nat)
    requires TrueWorld(c, h, w) && Proc(w, p).LoadingLedger?
    ensures TrueWorld(c, h, DoChoose(w, p, Proc(w, p).record, Proc(w, p).fold))
  {
    var record, fold := Proc(w, p).record, Proc(w, p).fold;
    assert TruePc(c, h, Proc(w, p));
    if SlotOf(record) in w.db.ledger.versions {
      assert TrueRow(c, h, SlotOf(record), w.db.ledger.versions[SlotOf(record)]);
    }
    assert TrueRecords(c, h, [record]);
    TrueStep(c, h, w, DoChoose(w, p, record, fold), p);
  }

  lemma AnsweredTruth(c: Codec, h: History, w: World, p: nat, answer: Answer)
    requires WorldOk(c, w) && TrueWorld(c, h, w) && Proc(w, p).Awaiting? && Truthful(c, h, Answered(p, answer))
    ensures TrueWorld(c, h, DoAnswered(c, w, p, Proc(w, p), answer))
  {
    var pc := Proc(w, p);
    assert TruePc(c, h, pc) && ProcOk(c, w.db, pc);
    if answer.Replayed? {
      assert TrueRecords(c, h, Records(c, answer.replay.commands));
    }
    TrueStep(c, h, w, DoAnswered(c, w, p, pc, answer), p);
  }

  lemma ApplyTruth(c: Codec, h: History, w: World, step: Step)
    requires WorldOk(c, w) && TrueWorld(c, h, w) && Truthful(c, h, step)
    ensures TrueWorld(c, h, Apply(c, w, step))
  {
    match step
    case Start(p, grant, command) =>
      if Proc(w, p).Idle? { TrueStep(c, h, w, DoStart(c, w, p, grant, command), p); }
    case Read(p) =>
      if Proc(w, p).LoadingRows? { TrueStep(c, h, w, DoRead(w, p, Proc(w, p).record, Proc(w, p).head), p); }
    case Choose(p) => if Proc(w, p).LoadingLedger? { ChooseTruth(c, h, w, p); }
    case Begin(p, token) => if Proc(w, p).Reconciling? { BeginTruth(c, h, w, p, token); }
    case Answered(p, answer) => if Proc(w, p).Awaiting? { AnsweredTruth(c, h, w, p, answer); }
    case Snap(p, snapshot) =>
      var pc := Proc(w, p);
      if pc.WantSnapshot? {
        TrueStep(c, h, w, DoSnap(c, w, p, pc.record, pc.intent, snapshot), p);
      }
    case Commit(p) => CommitKeepsTruth(c, h, w, p);
    case Crash(p) => TrueStep(c, h, w, To(w, p, Idle), p);
  }

  lemma {:induction false} TruthKept(c: Codec, h: History, steps: seq<Step>)
    requires CodecOk(c) && (forall i :: 0 <= i < |steps| ==> Truthful(c, h, steps[i]))
    ensures TrueWorld(c, h, Run(c, steps))
  {
    if steps == [] {
      forall k ensures TrueFold(c, h, Stored(INITIAL.db, k)) {
        assert Participants(map[], k) == {} && h(k)[..0] == [];
      }
    } else {
      TruthKept(c, h, steps[..|steps| - 1]);
      RunKeeps(c, steps[..|steps| - 1]);
      ApplyTruth(c, h, Run(c, steps[..|steps| - 1]), steps[|steps| - 1]);
    }
  }

  /** Whatever the order, repeats, gaps, snapshots and races: a participant has a
      row exactly if the last command about them, up to the head's version, wants
      them, and no command of the history is recorded as divergent. */
  lemma {:induction false} RowsAreWhatIsWanted(c: Codec, h: History, steps: seq<Step>, k: Key, p: string)
    requires CodecOk(c) && (forall i :: 0 <= i < |steps| ==> Truthful(c, h, steps[i]))
    ensures var db := Run(c, steps).db;
            && HeadOf(db, k).version <= |h(k)|
            && (RowKey(k, p) in db.rows <==> Wants(h(k)[..HeadOf(db, k).version], p))
            && (forall a :: a in db.dlq ==> !a.reason.Divergent?)
  {
    TruthKept(c, h, steps);
    var db := Run(c, steps).db;
    assert TrueFold(c, h, Stored(db, k));
    Listed(db.rows, k, p);
  }
}
