/** Any number of participation projectors over one database. Statements of a
    read are steps of their own (the transactions are read committed), writing
    transactions are one step each, and a projector may stop anywhere. */
module ParticipationMachine {
  import opened Ledgers
  import opened ParticipationTables

  datatype Pc =
    | Idle
    | LoadingRows(record: Record, head: HeadRow)
    | LoadingLedger(record: Record, fold: Fold)
    | Installing(record: Record, fold: Fold, records: seq<Record>, final: Fold)
    | Reconciling(record: Record, fold: Fold, historical: bool)
    | Awaiting(record: Record, fold: Fold, historical: bool, intent: Intent)
    | Resolving(record: Record, fold: Fold, records: seq<Record>, final: Fold, intent: Intent)
    | WantSnapshot(record: Record, intent: Intent)
    | Recording(record: Record, intent: Intent, replayed: Record)
    | Replacing(record: Record, intent: Intent, fold: Fold)
    | Failing(record: Record, intent: Intent)
    | Poisoning(record: Record)

  datatype Result = Applied | Duplicate | CompareAndSetLost | Poisoned | AuditedSnapshot

  datatype Reply = Reply(record: Record, result: Result)

  /** What a committed transaction did to an interaction's fold. */
  datatype Effect = Batch(key: Key, records: seq<Record>) | Replaced(fold: Fold)

  datatype World = World(db: Db, procs: map<nat, Pc>, replies: set<Reply>, committed: seq<Effect>)

  datatype Grant = Grant(tenant: string, serviceId: string, capability: string, role: string)

  predicate Granted(g: Grant, command: Command) {
    g.tenant == command.key.tenant && g.serviceId != "" && g.role == "" && g.capability == "Corex-participation-write"
  }

  datatype Answer = Replayed(replay: Replay) | HistoryUnknown | AuthorityError

  datatype Step =
    | Start(p: nat, grant: Grant, command: Command)
    | Read(p: nat)
    | Choose(p: nat)
    | Begin(p: nat, token: string)
    | Answered(p: nat, answer: Answer)
    | Snap(p: nat, snapshot: Option<Snapshot>)
    | Commit(p: nat)
    | Crash(p: nat)

  const INITIAL: World := World(Db(map[], map[], EMPTY_LEDGER, map[], map[], {}), map[], {}, [])

  function Proc(w: World, p: nat): Pc {
    if p in w.procs then w.procs[p] else Idle
  }

  function To(w: World, p: nat, pc: Pc): World {
    w.(procs := w.procs[p := pc])
  }

  function Done(w: World, p: nat, record: Record, result: Result): World {
    w.(procs := w.procs[p := Idle], replies := w.replies + {Reply(record, result)})
  }

  function DoStart(c: Codec, w: World, p: nat, grant: Grant, command: Command): World {
    if !Acceptable(c, command) || !Granted(grant, command) then Done(w, p, RecordOf(c, command), Poisoned)
    else To(w, p, LoadingRows(RecordOf(c, command), HeadOf(w.db, command.key)))
  }

  /** The rows are read after the head: another transaction may lie between. */
  function DoRead(w: World, p: nat, record: Record, head: HeadRow): World {
    var k := record.command.key;
    To(w, p, LoadingLedger(record, Fold(k, head.version, head.id, Participants(w.db.rows, k), head.provenance)))
  }

  function DoChoose(w: World, p: nat, record: Record, fold: Fold): World {
    var version := record.command.version;
    if version <= fold.version then
      if SlotOf(record) !in w.db.ledger.versions then To(w, p, Reconciling(record, fold, true))
      else if w.db.ledger.versions[SlotOf(record)] == record.id then Done(w, p, record, Duplicate)
      else To(w, p, Poisoning(record))
    else if version > fold.version + 1 then To(w, p, Reconciling(record, fold, false))
    else match Folded(fold, [record])
      case None => Done(w, p, record, Poisoned)
      case Some(final) => To(w, p, Installing(record, fold, [record], final))
  }

  function Proposed(record: Record, observed: nat, historical: bool, token: string): Intent {
    Intent(token, record.command.key, observed, if historical then record.command.version else observed + 1,
           record.command.version, record.id)
  }

  ghost function DoBegin(w: World, p: nat, record: Record, fold: Fold, historical: bool, token: string): World {
    var (tx, intent) := BeginTx(w.db, Proposed(record, fold.version, historical, token), record);
    match tx
    case RolledBack => To(w, p, Idle)
    case Committed(db, false) => Done(w.(db := db), p, record, CompareAndSetLost)
    case Committed(db, true) => To(w.(db := db), p, Awaiting(record, fold, historical, intent))
  }

  function DoAnswered(c: Codec, w: World, p: nat, pc: Pc, answer: Answer): World
    requires pc.Awaiting?
  {
    match answer
    case AuthorityError => To(w, p, Failing(pc.record, pc.intent))
    case HistoryUnknown => To(w, p, WantSnapshot(pc.record, pc.intent))
    case Replayed(replay) =>
      if !ValidReplay(c, replay, pc.intent, pc.record) then Done(w, p, pc.record, Poisoned)
      else
        var records := Records(c, replay.commands);
        if pc.historical then To(w, p, Recording(pc.record, pc.intent, records[0]))
        else match Folded(pc.fold, records)
          case None => Done(w, p, pc.record, Poisoned)
          case Some(final) => To(w, p, Resolving(pc.record, pc.fold, records, final, pc.intent))
  }

  function DoSnap(c: Codec, w: World, p: nat, record: Record, intent: Intent, snapshot: Option<Snapshot>): World {
    if snapshot.None? then To(w, p, Failing(record, intent))
    else if !ValidSnapshot(c, snapshot.value, intent, record) then Done(w, p, record, Poisoned)
    else To(w, p, Replacing(record, intent, SnapshotFold(snapshot.value)))
  }

  function Finish(w: World, p: nat, record: Record, tx: Tx<Db>, result: Result, effects: seq<Effect>): World {
    match tx
    case RolledBack => To(w, p, Idle)
    case Committed(db, true) => Done(w.(db := db, committed := w.committed + effects), p, record, result)
    case Committed(db, false) => Done(w.(db := db), p, record, CompareAndSetLost)
  }

  function DoCommit(w: World, p: nat, pc: Pc): World {
    match pc
    case Installing(record, fold, records, final) =>
      Finish(w, p, record, InstallTx(w.db, fold.version, records, final), Applied, [Batch(fold.key, records)])
    case Resolving(record, fold, records, final, intent) =>
      Finish(w, p, record, ReconcileTx(w.db, intent, records, final), Applied, [Batch(fold.key, records)])
    case Recording(record, intent, replayed) => Finish(w, p, record, HistoricalTx(w.db, intent, replayed), Duplicate, [])
    case Replacing(record, intent, fold) =>
      Finish(w, p, record, SnapshotTx(w.db, intent, fold, record), AuditedSnapshot, [Replaced(fold)])
    case Failing(record, intent) =>
      var tx := FailTx(w.db, intent, record);
      if tx.Committed? && tx.ok then Done(w.(db := tx.db), p, record, Poisoned)
      else To(w.(db := After(w.db, tx)), p, Idle)
    case Poisoning(record) => Done(w.(db := PoisonTx(w.db, record)), p, record, Poisoned)
    case _ => w
  }

  ghost function Apply(c: Codec, w: World, step: Step): World {
    match step
    case Start(p, grant, command) => if Proc(w, p).Idle? then DoStart(c, w, p, grant, command) else w
    case Read(p) => if Proc(w, p).LoadingRows? then DoRead(w, p, Proc(w, p).record, Proc(w, p).head) else w
    case Choose(p) => if Proc(w, p).LoadingLedger? then DoChoose(w, p, Proc(w, p).record, Proc(w, p).fold) else w
    case Begin(p, token) =>
      var pc := Proc(w, p);
      if pc.Reconciling? then DoBegin(w, p, pc.record, pc.fold, pc.historical, token) else w
    case Answered(p, answer) => if Proc(w, p).Awaiting? then DoAnswered(c, w, p, Proc(w, p), answer) else w
    case Snap(p, snapshot) =>
      if Proc(w, p).WantSnapshot? then DoSnap(c, w, p, Proc(w, p).record, Proc(w, p).intent, snapshot) else w
    case Commit(p) => DoCommit(w, p, Proc(w, p))
    case Crash(p) => To(w, p, Idle)
  }

  ghost function Run(c: Codec, steps: seq<Step>): World {
    if steps == [] then INITIAL else Apply(c, Run(c, steps[..|steps| - 1]), steps[|steps| - 1])
  }

  /** The reference: the committed batches folded purely, snapshots replacing. */
  function Pure(k: Key, effects: seq<Effect>): Fold {
    if effects == [] then EmptyFold(k)
    else
      var before := Pure(k, effects[..|effects| - 1]);
      match effects[|effects| - 1]
      case Batch(key, records) =>
        if key != k then before
        else (match Folded(before, records) case Some(f) => f case None => before)
      case Replaced(fold) => if fold.key != k then before else fold
  }

  // ------------------------------------------------------------- invariants

  predicate HeadOk(db: Db, k: Key) {
    HeadOf(db, k).version > 0 ==> Holds(db.ledger, Slot(k, HeadOf(db, k).version), HeadOf(db, k).id)
  }

  predicate Below(db: Db, s: Slot) {
    s in db.ledger.versions ==> s.version <= HeadOf(db, s.key).version
  }

  /** A participant's row names the ledger entry that put it there. */
  predicate RowOk(db: Db, r: RowKey) {
    r in db.rows ==> Holds(db.ledger, Slot(r.key, db.rows[r].version), db.rows[r].id)
  }

  predicate AskedFor(c: Codec, intent: Intent, command: Command) {
    && RecordOf(c, command).id == intent.held && command.key == intent.key && intent.to == command.version > 0
    && intent.from == if command.version <= intent.observed then command.version else intent.observed + 1
  }

  /** An intent asks for what its held command needs, and keeps that command
      waiting as long as it is pending itself. */
  ghost predicate IntentOk(c: Codec, db: Db, t: TokenKey) {
    t in db.intents ==>
      var intent := db.intents[t].intent;
      && intent.token == t.token && intent.key.tenant == t.tenant
      && (exists command :: AskedFor(c, intent, command))
      && (db.intents[t].status.Pending? ==> Kept(db, intent))
  }

  predicate Kept(db: Db, intent: Intent) {
    var e := EventKey(intent.key.tenant, intent.held.eventId);
    e in db.inputs && db.inputs[e].status.Waiting? && db.inputs[e].slot.key == intent.key
  }

  predicate OnePending(db: Db, t: TokenKey, u: TokenKey) {
    t in db.intents ==>
      var k := db.intents[t].intent.key;
      PendingFor(db, k, t) && PendingFor(db, k, u) ==> t == u
  }

  /** A waiting command has failed fewer than three times, a failed one three at most. */
  predicate InputOk(db: Db, e: EventKey) {
    e in db.inputs ==>
      db.inputs[e].attempts <= MAX_ATTEMPTS && (db.inputs[e].status.Waiting? ==> db.inputs[e].attempts < MAX_ATTEMPTS)
  }

  ghost predicate Queues(c: Codec, db: Db) {
    && (forall t {:trigger IntentOk(c, db, t)} :: IntentOk(c, db, t))
    && (forall t, u {:trigger OnePending(db, t, u)} :: OnePending(db, t, u))
    && (forall e {:trigger InputOk(db, e)} :: InputOk(db, e))
  }

  ghost predicate FoldOk(db: Db) {
    && Sound(db.ledger)
    && (forall k {:trigger HeadOk(db, k)} :: HeadOk(db, k))
    && (forall s {:trigger Below(db, s)} :: Below(db, s))
    && (forall r {:trigger RowOk(db, r)} :: RowOk(db, r))
  }

  ghost predicate TablesOk(c: Codec, db: Db) {
    FoldOk(db) && Queues(c, db)
  }

  predicate RowMoves(r: IntentRow, r': IntentRow) {
    r' == r || (r.status.Pending? && !r'.status.Pending? && r'.intent == r.intent)
  }

  predicate InputMoves(i: Input, i': Input) {
    i' == i || (i.status.Waiting? && i'.slot == i.slot && i'.hash == i.hash && i.attempts <= i'.attempts)
  }

  predicate FoldMoves(f: Fold, f': Fold) {
    f' == f || f'.version > f.version
  }

  ghost predicate Grows(db: Db, db': Db) {
    && Extends(db.ledger, db'.ledger)
    && (forall t :: t in db.intents ==> t in db'.intents && RowMoves(db.intents[t], db'.intents[t]))
    && (forall e :: e in db.inputs ==> e in db'.inputs && InputMoves(db.inputs[e], db'.inputs[e]))
    && (forall k {:trigger Stored(db', k)} :: FoldMoves(Stored(db, k), Stored(db', k)))
    && db.dlq <= db'.dlq
  }

  lemma GrowsTransitive(a: Db, b: Db, d: Db)
    requires Grows(a, b) && Grows(b, d)
    ensures Grows(a, d)
  {
    forall k ensures FoldMoves(Stored(a, k), Stored(d, k)) {
      assert FoldMoves(Stored(a, k), Stored(b, k)) && FoldMoves(Stored(b, k), Stored(d, k));
    }
    forall t | t in a.intents ensures t in d.intents && RowMoves(a.intents[t], d.intents[t]) {
      assert RowMoves(a.intents[t], b.intents[t]);
    }
    forall e | e in a.inputs ensures e in d.inputs && InputMoves(a.inputs[e], d.inputs[e]) {
      assert InputMoves(a.inputs[e], b.inputs[e]);
    }
  }
}
