/** Desired participation: the pure fold of a command history
    (internal/participation) and the table transactions that store it row by row
    (internal/participationpg). */
module ParticipationTables {
  import opened Ledgers

  datatype Desired = Assigned | Unassigned | Unspecified

  /** `stamp` holds the occurrence time and trace parent. */
  datatype Command = Command(eventId: string, key: Key, participant: string, version: nat, desired: Desired, stamp: string)

  /** How identifiers and stamps are recognised, and commands digested. */
  datatype Codec = Codec(uuid: string -> bool, stamped: string -> bool, hash: Command -> string)

  /** The digest of the deterministic encoding tells commands apart. */
  ghost predicate CollisionFree(c: Codec) {
    forall a, b {:trigger c.hash(a), c.hash(b)} :: c.hash(a) == c.hash(b) ==> a == b
  }

  datatype Record = Record(command: Command, id: Identity)

  predicate Acceptable(c: Codec, command: Command) {
    && c.uuid(command.eventId) && c.uuid(command.key.tenant) && c.uuid(command.key.interaction)
    && c.uuid(command.participant) && command.version > 0 && !command.desired.Unspecified? && c.stamped(command.stamp)
  }

  function RecordOf(c: Codec, command: Command): Record {
    Record(command, Identity(command.eventId, c.hash(command)))
  }

  function SlotOf(record: Record): Slot {
    Slot(record.command.key, record.command.version)
  }

  // ------------------------------------------------------------------- fold

  datatype Fold = Fold(key: Key, version: nat, id: Identity, participants: set<string>, provenance: string)

  const NO_IDENTITY: Identity := Identity("", "")

  function EmptyFold(k: Key): Fold {
    Fold(k, 0, NO_IDENTITY, {}, "")
  }

  function Next(fold: Fold, record: Record): Fold {
    var command := record.command;
    Fold(command.key, command.version, record.id,
         if command.desired.Assigned? then fold.participants + {command.participant}
         else fold.participants - {command.participant}, "")
  }

  predicate Fits(fold: Fold, record: Record) {
    record.command.version == fold.version + 1 && (fold.key.tenant != "" ==> fold.key == record.command.key)
  }

  function Folded(fold: Fold, records: seq<Record>): Option<Fold>
    decreases |records|
  {
    if records == [] then Some(fold)
    else if !Fits(fold, records[0]) then None
    else Folded(Next(fold, records[0]), records[1..])
  }

  lemma {:induction false} FoldSplits(fold: Fold, a: seq<Record>, b: seq<Record>)
    ensures Folded(fold, a + b) == match Folded(fold, a) { case None => None case Some(f) => Folded(f, b) }
    decreases |a|
  {
    if a == [] {
      assert a + b == b;
    } else {
      assert (a + b)[1..] == a[1..] + b;
      if Fits(fold, a[0]) {
        FoldSplits(Next(fold, a[0]), a[1..], b);
      }
    }
  }

  predicate Consecutive(key: Key, version: nat, records: seq<Record>) {
    forall i :: 0 <= i < |records| ==> records[i].command.key == key && records[i].command.version == version + 1 + i
  }

  /** A batch folds exactly when it continues the fold, and ends in its last record. */
  lemma {:induction false} FoldIffConsecutive(fold: Fold, records: seq<Record>)
    requires fold.key.tenant != ""
    ensures Folded(fold, records).Some? <==> Consecutive(fold.key, fold.version, records)
    ensures Folded(fold, records).Some? ==> Ends(fold, records, Folded(fold, records).value)
    decreases |records|
  {
    if records != [] {
      assert Consecutive(fold.key, fold.version, records) ==> Fits(fold, records[0]);
      if Fits(fold, records[0]) {
        var next := Next(fold, records[0]);
        FoldIffConsecutive(next, records[1..]);
        ConsecutiveTail(fold.key, fold.version, records);
      }
    }
  }

  predicate Ends(fold: Fold, records: seq<Record>, final: Fold) {
    && final.key == fold.key && final.version == fold.version + |records|
    && (if records == [] then final == fold else final.id == records[|records| - 1].id && final.provenance == "")
  }

  lemma ConsecutiveTail(key: Key, version: nat, records: seq<Record>)
    requires records != [] && records[0].command.key == key && records[0].command.version == version + 1
    ensures Consecutive(key, version, records) <==> Consecutive(key, version + 1, records[1..])
  {
    if Consecutive(key, version + 1, records[1..]) {
      forall i | 0 <= i < |records| ensures records[i].command.key == key && records[i].command.version == version + 1 + i {
        if i > 0 {
          assert records[i] == records[1..][i - 1];
        }
      }
    }
    if Consecutive(key, version, records) {
      forall i | 0 <= i < |records[1..]|
        ensures records[1..][i].command.key == key && records[1..][i].command.version == version + 1 + 1 + i
      {
        assert records[1..][i] == records[i + 1];
      }
    }
  }

  /** The loop of foldRecords, over a copy of the fold. */
  method FoldRecords(current: Fold, records: seq<Record>) returns (r: Option<Fold>)
    ensures r == Folded(current, records)
    ensures current.key.tenant != "" ==> (r.Some? <==> Consecutive(current.key, current.version, records))
  {
    if current.key.tenant != "" {
      FoldIffConsecutive(current, records);
    }
    var next := current;
    for i := 0 to |records|
      invariant Folded(current, records) == Folded(next, records[i..])
    {
      var command := records[i].command;
      if command.version != next.version + 1 || (next.key.tenant != "" && next.key != command.key) {
        return None;
      }
      assert records[i..][1..] == records[i + 1..];
      if command.desired.Assigned? {
        next := next.(participants := next.participants + {command.participant});
      } else {
        next := next.(participants := next.participants - {command.participant});
      }
      next := next.(key := command.key, version := command.version, id := records[i].id, provenance := "");
    }
    return Some(next);
  }

  // ----------------------------------------------------- authority's answers

  datatype Intent = Intent(token: string, key: Key, observed: nat, from: nat, to: nat, held: Identity)

  datatype Replay = Replay(commands: seq<Command>, headVersion: nat, head: Identity, historyFloor: nat, provenance: string)

  function Records(c: Codec, commands: seq<Command>): (r: seq<Record>)
    ensures |r| == |commands| && forall i :: 0 <= i < |r| ==> r[i] == RecordOf(c, commands[i])
  {
    seq(|commands|, i requires 0 <= i < |commands| => RecordOf(c, commands[i]))
  }

  predicate Requested(c: Codec, commands: seq<Command>, intent: Intent) {
    forall i :: 0 <= i < |commands| ==>
      Acceptable(c, commands[i]) && commands[i].key == intent.key && commands[i].version == intent.from + i
  }

  predicate Contains(c: Codec, commands: seq<Command>, held: Record) {
    exists i :: 0 <= i < |commands| && commands[i].version == held.command.version && RecordOf(c, commands[i]).id == held.id
  }

  predicate ValidReplay(c: Codec, replay: Replay, intent: Intent, held: Record) {
    var commands := replay.commands;
    && replay.historyFloor > 0 && replay.provenance != "" && replay.headVersion >= intent.to
    && intent.from <= intent.to && |commands| == intent.to - intent.from + 1
    && Requested(c, commands, intent)
    && (replay.headVersion == commands[|commands| - 1].version ==> replay.head == RecordOf(c, commands[|commands| - 1]).id)
    && Contains(c, commands, held)
  }

  /** The loops of validateReplay. */
  method ValidateReplay(c: Codec, replay: Replay, intent: Intent, held: Record) returns (r: Option<seq<Record>>)
    requires intent.from <= intent.to
    ensures r == if ValidReplay(c, replay, intent, held) then Some(Records(c, replay.commands)) else None
  {
    var commands := replay.commands;
    if replay.historyFloor == 0 || replay.provenance == "" || replay.headVersion < intent.to
       || |commands| != intent.to - intent.from + 1 {
      return None;
    }
    var records: seq<Record> := [];
    for i := 0 to |commands|
      invariant records == Records(c, commands[..i])
      invariant forall j :: 0 <= j < i ==> Acceptable(c, commands[j]) && commands[j].key == intent.key && commands[j].version == intent.from + j
    {
      if !Acceptable(c, commands[i]) || commands[i].key != intent.key || commands[i].version != intent.from + i {
        return None;
      }
      records := records + [RecordOf(c, commands[i])];
    }
    assert commands[..|commands|] == commands;
    var last := records[|records| - 1];
    if replay.headVersion == last.command.version && replay.head != last.id {
      return None;
    }
    var found := false;
    for i := 0 to |records|
      invariant found <==> exists j :: 0 <= j < i && commands[j].version == held.command.version && RecordOf(c, commands[j]).id == held.id
    {
      if records[i].command.version == held.command.version && records[i].id == held.id {
        found := true;
      }
    }
    return if found then Some(records) else None;
  }

  datatype Snapshot = Snapshot(key: Key, version: nat, head: Identity, participants: seq<string>, historyFloor: nat, provenance: string)

  predicate ValidSnapshot(c: Codec, s: Snapshot, intent: Intent, held: Record) {
    && s.key == intent.key && s.version >= intent.observed && s.version >= held.command.version
    && c.uuid(s.head.eventId) && s.head.hash != "" && 0 < s.historyFloor <= s.version && s.provenance != ""
    && forall p :: p in s.participants ==> c.uuid(p)
  }

  function SnapshotFold(s: Snapshot): Fold {
    Fold(s.key, s.version, s.head, (set p | p in s.participants), s.provenance)
  }

  // ----------------------------------------------------------------- tables

  datatype HeadRow = HeadRow(version: nat, id: Identity, provenance: string)

  datatype RowKey = RowKey(key: Key, participant: string)

  datatype Row = Row(version: nat, id: Identity)

  type Rows = map<RowKey, Row>

  datatype InputStatus = Waiting | Settled | DeadLettered

  /** A held command, kept while it is being reconciled. */
  datatype Input = Input(slot: Slot, hash: string, attempts: nat, status: InputStatus)

  datatype IntentStatus = Pending | Installed | Audited

  datatype IntentRow = IntentRow(intent: Intent, status: IntentStatus)

  datatype Reason = Divergent | UnknownHistory | Exhausted

  datatype Audit = Audit(key: Key, eventId: string, reason: Reason)

  datatype Db = Db(
    heads: map<Key, HeadRow>,
    rows: Rows,
    ledger: Ledger,
    inputs: map<EventKey, Input>,
    intents: map<TokenKey, IntentRow>,
    dlq: set<Audit>)

  function HeadOf(db: Db, k: Key): HeadRow {
    if k in db.heads then db.heads[k] else HeadRow(0, NO_IDENTITY, "")
  }

  function Participants(rows: Rows, k: Key): set<string> {
    set r | r in rows && r.key == k :: r.participant
  }

  /** What the tables say about an interaction. */
  function Stored(db: Db, k: Key): Fold {
    var head := HeadOf(db, k);
    Fold(k, head.version, head.id, Participants(db.rows, k), head.provenance)
  }

  /** One record's row: upserted when assigned, deleted otherwise. */
  function RowsAfter(rows: Rows, record: Record): Rows {
    var r := RowKey(record.command.key, record.command.participant);
    if record.command.desired.Assigned? then rows[r := Row(record.command.version, record.id)] else rows - {r}
  }

  datatype Pages = Pages(ledger: Ledger, rows: Rows)

  function InstallRows(p: Pages, records: seq<Record>): Option<Pages>
    decreases |records|
  {
    if records == [] then Some(p)
    else match Insert(p.ledger, SlotOf(records[0]), records[0].id)
      case None => None
      case Some(l) => InstallRows(Pages(l, RowsAfter(p.rows, records[0])), records[1..])
  }

  /** Only version and identity of the folded state are written; participants
      come from the rows. */
  function InstallRecords(db: Db, records: seq<Record>, final: Fold): Option<Db> {
    match InstallRows(Pages(db.ledger, db.rows), records)
    case None => None
    case Some(p) =>
      Some(db.(ledger := p.ledger, rows := p.rows, heads := db.heads[final.key := HeadRow(final.version, final.id, "")]))
  }

  function InstallTx(db: Db, expected: nat, records: seq<Record>, final: Fold): Tx<Db> {
    if HeadOf(db, final.key).version != expected then Committed(db, false)
    else match InstallRecords(db, records, final)
      case None => RolledBack
      case Some(db') => Committed(db', true)
  }

  predicate PendingFor(db: Db, key: Key, t: TokenKey) {
    t in db.intents && db.intents[t].status.Pending? && db.intents[t].intent.key == key
  }

  ghost predicate SomePending(db: Db, key: Key) {
    exists t :: PendingFor(db, key, t)
  }

  predicate InputTaken(db: Db, e: EventKey, slot: Slot) {
    e in db.inputs || exists o :: o in db.inputs && db.inputs[o].slot == slot
  }

  /** Joins the pending intent for the same held command at the same version, or
      keeps the command and starts one. */
  ghost function BeginTx(db: Db, intent: Intent, held: Record): (Tx<Db>, Intent) {
    var e, t := EventKey(intent.key.tenant, held.id.eventId), TokenKey(intent.key.tenant, intent.token);
    if HeadOf(db, intent.key).version != intent.observed then (Committed(db, false), intent)
    else if SomePending(db, intent.key) then
      var p :| PendingFor(db, intent.key, p);
      var kept := db.intents[p].intent;
      if kept.observed != intent.observed || kept.held != held.id then (RolledBack, intent)
      else (Committed(db, true), intent.(token := kept.token, observed := kept.observed, from := kept.from, to := kept.to))
    else if InputTaken(db, e, SlotOf(held)) then (Committed(db, false), intent)
    else
      var db' := db.(inputs := db.inputs[e := Input(Slot(intent.key, held.command.version), held.id.hash, 0, Waiting)]);
      if t in db.intents then (Committed(db', false), intent)
      else (Committed(db'.(intents := db'.intents[t := IntentRow(intent, Pending)]), true), intent)
  }

  predicate Locks(db: Db, intent: Intent) {
    var t := TokenKey(intent.key.tenant, intent.token);
    && HeadOf(db, intent.key).version == intent.observed
    && PendingFor(db, intent.key, t) && db.intents[t].intent.observed == intent.observed
  }

  /** Both the intent and the input it holds leave pending. */
  function Complete(db: Db, intent: Intent, status: IntentStatus, input: InputStatus): Db {
    var t, e := TokenKey(intent.key.tenant, intent.token), EventKey(intent.key.tenant, intent.held.eventId);
    var db' := if t in db.intents && db.intents[t].status.Pending?
               then db.(intents := db.intents[t := db.intents[t].(status := status)]) else db;
    if e in db'.inputs && db'.inputs[e].status.Waiting?
    then db'.(inputs := db'.inputs[e := db'.inputs[e].(status := input)]) else db'
  }

  function ReconcileTx(db: Db, intent: Intent, records: seq<Record>, final: Fold): Tx<Db> {
    if !Locks(db, intent) then Committed(db, false)
    else match InstallRecords(db, records, final)
      case None => RolledBack
      case Some(db') => Committed(Complete(db', intent, Installed, Settled), true)
  }

  function HistoricalTx(db: Db, intent: Intent, record: Record): Tx<Db> {
    if !Locks(db, intent) then Committed(db, false)
    else match Insert(db.ledger, SlotOf(record), record.id)
      case None => RolledBack
      case Some(l) => Committed(Complete(db.(ledger := l), intent, Installed, Settled), true)
  }

  /** The interaction's rows, all replaced by the snapshot's. */
  function RowsReplaced(rows: Rows, k: Key, fold: Fold): Rows {
    (map r | r in rows && r.key != k :: rows[r])
    + map p | p in fold.participants :: RowKey(k, p) := Row(fold.version, fold.id)
  }

  function SnapshotTx(db: Db, intent: Intent, fold: Fold, held: Record): Tx<Db> {
    if !Locks(db, intent) then Committed(db, false)
    else match Insert(db.ledger, Slot(intent.key, fold.version), fold.id)
      case None => RolledBack
      case Some(l) =>
        var db' := db.(ledger := l, rows := RowsReplaced(db.rows, intent.key, fold),
                       heads := db.heads[intent.key := HeadRow(fold.version, fold.id, fold.provenance)],
                       dlq := db.dlq + {Audit(intent.key, held.id.eventId, UnknownHistory)});
        Committed(Complete(db', intent, Audited, DeadLettered), true)
  }

  const MAX_ATTEMPTS: nat := 3

  /** One more failure; the third gives up. Answers whether it gave up. */
  function FailTx(db: Db, intent: Intent, held: Record): Tx<Db> {
    var e := EventKey(intent.key.tenant, held.id.eventId);
    if !Locks(db, intent) then Committed(db, false)
    else if e !in db.inputs || !db.inputs[e].status.Waiting? then RolledBack
    else
      var db' := db.(inputs := db.inputs[e := db.inputs[e].(attempts := db.inputs[e].attempts + 1)]);
      if db'.inputs[e].attempts < MAX_ATTEMPTS then Committed(db', false)
      else
        var audited := db'.(dlq := db'.dlq + {Audit(intent.key, held.id.eventId, Exhausted)});
        Committed(Complete(audited, intent, Audited, DeadLettered), true)
  }

  function PoisonTx(db: Db, record: Record): Db {
    db.(dlq := db.dlq + {Audit(record.command.key, record.id.eventId, Divergent)})
  }
}
