/** What every participation transaction keeps. */
module ParticipationSafety {
  import opened Ledgers
  import opened ParticipationTables
  import opened ParticipationMachine

  // -------------------------------------------------------------- row by row

  lemma RowsAfterMeans(rows: Rows, record: Record, k: Key)
    ensures Participants(RowsAfter(rows, record), k) ==
            if k != record.command.key then Participants(rows, k)
            else if record.command.desired.Assigned? then Participants(rows, k) + {record.command.participant}
            else Participants(rows, k) - {record.command.participant}
  {
    var after := RowsAfter(rows, record);
    forall p ensures p in Participants(after, k) <==> RowKey(k, p) in after {
      Listed(after, k, p);
    }
    forall p ensures p in Participants(rows, k) <==> RowKey(k, p) in rows {
      Listed(rows, k, p);
    }
  }

  lemma Listed(rows: Rows, k: Key, p: string)
    ensures p in Participants(rows, k) <==> RowKey(k, p) in rows
  {
    if RowKey(k, p) in rows {
      assert RowKey(k, p).participant == p;
    }
    if p in Participants(rows, k) {
      var r :| r in rows && r.key == k && r.participant == p;
      assert r == RowKey(k, p);
    }
  }

  /** The rows follow the pure fold, record by record; other interactions stay. */
  lemma {:induction false} RowsFollowFold(p: Pages, fold: Fold, records: seq<Record>)
    requires fold.key.tenant != "" && Participants(p.rows, fold.key) == fold.participants
    requires Folded(fold, records).Some? && InstallRows(p, records).Some?
    ensures var rows := InstallRows(p, records).value.rows;
            && Participants(rows, fold.key) == Folded(fold, records).value.participants
            && forall k :: k != fold.key ==> Participants(rows, k) == Participants(p.rows, k)
    decreases |records|
  {
    if records != [] {
      var record := records[0];
      var p1 := Pages(Insert(p.ledger, SlotOf(record), record.id).value, RowsAfter(p.rows, record));
      forall k ensures k != fold.key ==> Participants(p1.rows, k) == Participants(p.rows, k) {
        RowsAfterMeans(p.rows, record, k);
      }
      RowsAfterMeans(p.rows, record, fold.key);
      RowsFollowFold(p1, Next(fold, record), records[1..]);
    }
  }

  predicate Backed(l: Ledger, rows: Rows, r: RowKey) {
    r in rows ==> Holds(l, Slot(r.key, rows[r].version), rows[r].id)
  }

  ghost predicate AllBacked(l: Ledger, rows: Rows) {
    forall r {:trigger Backed(l, rows, r)} :: Backed(l, rows, r)
  }

  predicate UpTo(key: Key, n: nat, records: seq<Record>) {
    forall i :: 0 <= i < |records| ==> records[i].command.key == key && 0 < records[i].command.version <= n
  }

  lemma {:induction false} InstallRowsKeeps(p: Pages, key: Key, n: nat, records: seq<Record>)
    requires Sound(p.ledger) && AllBacked(p.ledger, p.rows) && UpTo(key, n, records) && InstallRows(p, records).Some?
    ensures var p' := InstallRows(p, records).value;
            && Sound(p'.ledger) && ExtendsBy(p.ledger, p'.ledger, key, n) && AllBacked(p'.ledger, p'.rows)
            && forall i :: 0 <= i < |records| ==> Holds(p'.ledger, SlotOf(records[i]), records[i].id)
    decreases |records|
  {
    if records != [] {
      InsertKeeps(p.ledger, SlotOf(records[0]), records[0].id);
      var p1 := Pages(Insert(p.ledger, SlotOf(records[0]), records[0].id).value, RowsAfter(p.rows, records[0]));
      forall r ensures Backed(p1.ledger, p1.rows, r) {
        assert Backed(p.ledger, p.rows, r);
      }
      InstallRowsKeeps(p1, key, n, records[1..]);
      var p' := InstallRows(p, records).value;
      forall i | 0 <= i < |records| ensures Holds(p'.ledger, SlotOf(records[i]), records[i].id) {
        if i > 0 {
          assert records[i] == records[1..][i - 1];
        }
      }
    }
  }

  lemma RowsReplacedMeans(rows: Rows, k: Key, fold: Fold, q: Key)
    ensures Participants(RowsReplaced(rows, k, fold), q) == if q == k then fold.participants else Participants(rows, q)
  {
    var after := RowsReplaced(rows, k, fold);
    forall p ensures p in Participants(after, q) <==> RowKey(q, p) in after {
      Listed(after, q, p);
    }
    forall p ensures p in Participants(rows, q) <==> RowKey(q, p) in rows {
      Listed(rows, q, p);
    }
  }

  predicate SameFolds(db: Db, db': Db) {
    db'.heads == db.heads && db'.rows == db.rows
  }

  /** The fold of one interaction was replaced, and no other changed. */
  ghost predicate MovesTo(db: Db, db': Db, fold: Fold) {
    && Stored(db', fold.key) == fold
    && forall k {:trigger Stored(db', k)} :: k != fold.key ==> Stored(db', k) == Stored(db, k)
  }

  lemma MovesToSame(db: Db, db1: Db, db2: Db, fold: Fold)
    requires MovesTo(db, db1, fold) && db2.heads == db1.heads && db2.rows == db1.rows
    ensures MovesTo(db, db2, fold)
  {
    forall k ensures Stored(db2, k) == Stored(db1, k) {
    }
  }

  // ------------------------------------------------------------ three parts

  /** Heads, rows and ledger may move; the queues stay. */
  lemma FoldPart(c: Codec, db: Db, db': Db)
    requires TablesOk(c, db) && FoldOk(db') && db' == db.(heads := db'.heads, rows := db'.rows, ledger := db'.ledger)
    requires Extends(db.ledger, db'.ledger) && forall k {:trigger Stored(db', k)} :: FoldMoves(Stored(db, k), Stored(db', k))
    ensures TablesOk(c, db') && Grows(db, db')
  {
    forall t ensures IntentOk(c, db', t) {
      assert IntentOk(c, db, t);
    }
    forall t, u ensures OnePending(db', t, u) {
      assert OnePending(db, t, u);
    }
    forall e ensures InputOk(db', e) {
      assert InputOk(db, e);
    }
  }

  /** The queues and the DLQ may move; heads, rows and ledger stay. */
  lemma QueuePart(c: Codec, db: Db, db': Db)
    requires TablesOk(c, db) && Queues(c, db') && db.dlq <= db'.dlq
    requires db' == db.(inputs := db'.inputs, intents := db'.intents, dlq := db'.dlq)
    requires forall t :: t in db.intents ==> t in db'.intents && RowMoves(db.intents[t], db'.intents[t])
    requires forall e :: e in db.inputs ==> e in db'.inputs && InputMoves(db.inputs[e], db'.inputs[e])
    ensures TablesOk(c, db') && Grows(db, db')
  {
    forall k ensures HeadOk(db', k) {
      assert HeadOk(db, k);
    }
    forall s ensures Below(db', s) {
      assert Below(db, s);
    }
    forall r ensures RowOk(db', r) {
      assert RowOk(db, r);
    }
    forall k ensures Stored(db', k) == Stored(db, k) {
    }
  }

  lemma DlqPart(c: Codec, db: Db, audit: Audit)
    requires TablesOk(c, db)
    ensures var db' := db.(dlq := db.dlq + {audit}); TablesOk(c, db') && Grows(db, db')
  {
    var db' := db.(dlq := db.dlq + {audit});
    forall t ensures IntentOk(c, db', t) {
      assert IntentOk(c, db, t);
    }
    forall t, u ensures OnePending(db', t, u) {
      assert OnePending(db, t, u);
    }
    forall e ensures InputOk(db', e) {
      assert InputOk(db, e);
    }
    QueuePart(c, db, db');
  }

  predicate Registered(db: Db, intent: Intent) {
    var t := TokenKey(intent.key.tenant, intent.token);
    t in db.intents && db.intents[t].intent == intent
  }

  /** Closing an intent releases no other intent's command. */
  lemma CompleteKeeps(c: Codec, db: Db, intent: Intent, status: IntentStatus, input: InputStatus)
    requires TablesOk(c, db) && Registered(db, intent) && !status.Pending? && !input.Waiting?
    requires db.intents[TokenKey(intent.key.tenant, intent.token)].status.Pending?
    ensures TablesOk(c, Complete(db, intent, status, input)) && Grows(db, Complete(db, intent, status, input))
  {
    var db' := Complete(db, intent, status, input);
    var t0, e0 := TokenKey(intent.key.tenant, intent.token), EventKey(intent.key.tenant, intent.held.eventId);
    assert IntentOk(c, db, t0);
    forall t ensures IntentOk(c, db', t) {
      assert IntentOk(c, db, t) && OnePending(db, t, t0);
    }
    forall t, u ensures OnePending(db', t, u) {
      assert OnePending(db, t, u);
    }
    forall e ensures InputOk(db', e) {
      assert InputOk(db, e);
    }
    QueuePart(c, db, db');
  }

  // ----------------------------------------------------------- transactions

  /** What a projector hands to an install, relative to the fold it loaded. */
  ghost predicate Installable(record: Record, fold: Fold, records: seq<Record>, final: Fold) {
    && fold.key.tenant != "" && records != [] && Folded(fold, records) == Some(final)
    && exists i :: 0 <= i < |records| && SlotOf(records[i]) == SlotOf(record) && records[i].id == record.id
  }

  /** Installing on top of the very fold that is stored: the tables then hold the
      purely folded state, to the last column. */
  lemma InstallKeeps(c: Codec, db: Db, record: Record, fold: Fold, records: seq<Record>, final: Fold)
    requires TablesOk(c, db) && Installable(record, fold, records, final)
    requires Stored(db, fold.key) == fold && InstallRecords(db, records, final).Some?
    ensures var db' := InstallRecords(db, records, final).value;
            && TablesOk(c, db') && Grows(db, db') && Holds(db'.ledger, SlotOf(record), record.id)
            && final.key == fold.key && MovesTo(db, db', final)
  {
    FoldIffConsecutive(fold, records);
    var p := Pages(db.ledger, db.rows);
    var db' := InstallRecords(db, records, final).value;
    RowsFollowFold(p, fold, records);
    forall r ensures Backed(p.ledger, p.rows, r) {
      assert RowOk(db, r);
    }
    InstallRowsKeeps(p, fold.key, final.version, records);
    assert SlotOf(records[|records| - 1]) == Slot(fold.key, final.version);
    forall k ensures HeadOk(db', k) {
      assert HeadOk(db, k);
    }
    forall s ensures Below(db', s) {
      assert Below(db, s);
    }
    forall r ensures RowOk(db', r) {
      assert Backed(db'.ledger, db'.rows, r);
    }
    assert MovesTo(db, db', final);
    FoldPart(c, db, db');
  }

  lemma HistoricalKeeps(c: Codec, db: Db, intent: Intent, record: Record)
    requires TablesOk(c, db) && Registered(db, intent)
    requires record.command.key == intent.key && 0 < record.command.version <= intent.observed
    ensures var tx := HistoricalTx(db, intent, record);
            && TablesOk(c, After(db, tx)) && Grows(db, After(db, tx))
            && (tx.Committed? && tx.ok ==> Holds(tx.db.ledger, SlotOf(record), record.id))
            && SameFolds(db, After(db, tx))
  {
    var tx := HistoricalTx(db, intent, record);
    if tx.Committed? && tx.ok {
      InsertKeeps(db.ledger, SlotOf(record), record.id);
      var db1 := db.(ledger := Insert(db.ledger, SlotOf(record), record.id).value);
      forall k ensures HeadOk(db1, k) {
        assert HeadOk(db, k);
      }
      forall s ensures Below(db1, s) {
        assert Below(db, s);
      }
      forall r ensures RowOk(db1, r) {
        assert RowOk(db, r);
      }
      forall k ensures Stored(db1, k) == Stored(db, k) {
      }
      FoldPart(c, db, db1);
      CompleteKeeps(c, db1, intent, Installed, Settled);
      GrowsTransitive(db, db1, tx.db);
    }
  }

  function SnapshotDb(db: Db, l: Ledger, k: Key, fold: Fold): Db {
    db.(ledger := l, rows := RowsReplaced(db.rows, k, fold), heads := db.heads[k := HeadRow(fold.version, fold.id, fold.provenance)])
  }

  /** The deletes and inserts of a snapshot leave exactly its participants. */
  lemma SnapshotRowsKeep(c: Codec, db: Db, l: Ledger, fold: Fold)
    requires TablesOk(c, db) && Sound(l) && ExtendsBy(db.ledger, l, fold.key, fold.version)
    requires Holds(l, Slot(fold.key, fold.version), fold.id) && fold.version > HeadOf(db, fold.key).version
    ensures var db' := SnapshotDb(db, l, fold.key, fold);
            && TablesOk(c, db') && Grows(db, db')
            && MovesTo(db, db', fold)
  {
    var db' := SnapshotDb(db, l, fold.key, fold);
    forall k ensures Participants(db'.rows, k) == if k == fold.key then fold.participants else Participants(db.rows, k) {
      RowsReplacedMeans(db.rows, fold.key, fold, k);
    }
    forall k ensures HeadOk(db', k) {
      assert HeadOk(db, k);
    }
    forall s ensures Below(db', s) {
      assert Below(db, s);
    }
    forall r ensures RowOk(db', r) {
      assert RowOk(db, r);
    }
    FoldPart(c, db, db');
  }

  function AuditedDb(db: Db, intent: Intent, audit: Audit): Db {
    Complete(db.(dlq := db.dlq + {audit}), intent, Audited, DeadLettered)
  }

  lemma AuditKeeps(c: Codec, db: Db, intent: Intent, audit: Audit)
    requires TablesOk(c, db) && Registered(db, intent)
    requires db.intents[TokenKey(intent.key.tenant, intent.token)].status.Pending?
    ensures var db' := AuditedDb(db, intent, audit);
            TablesOk(c, db') && Grows(db, db') && db'.heads == db.heads && db'.rows == db.rows
  {
    var db1 := db.(dlq := db.dlq + {audit});
    DlqPart(c, db, audit);
    CompleteKeeps(c, db1, intent, Audited, DeadLettered);
    GrowsTransitive(db, db1, AuditedDb(db, intent, audit));
  }

  lemma SnapshotKeeps(c: Codec, db: Db, intent: Intent, fold: Fold, held: Record)
    requires TablesOk(c, db) && Registered(db, intent) && fold.key == intent.key
    requires fold.version > 0 && fold.version >= intent.observed
    ensures var tx := SnapshotTx(db, intent, fold, held);
            && TablesOk(c, After(db, tx)) && Grows(db, After(db, tx))
            && (tx.Committed? && tx.ok ==> MovesTo(db, tx.db, fold))
            && (tx.Committed? && !tx.ok ==> tx.db == db)
  {
    var tx := SnapshotTx(db, intent, fold, held);
    if tx.Committed? && tx.ok {
      assert HeadOk(db, intent.key);
      InsertKeeps(db.ledger, Slot(intent.key, fold.version), fold.id);
      var l := Insert(db.ledger, Slot(intent.key, fold.version), fold.id).value;
      var db1 := SnapshotDb(db, l, fold.key, fold);
      SnapshotRowsKeep(c, db, l, fold);
      AuditKeeps(c, db1, intent, Audit(intent.key, held.id.eventId, UnknownHistory));
      GrowsTransitive(db, db1, tx.db);
      MovesToSame(db, db1, tx.db, fold);
    }
  }

  /** The waiting command is always found, and given up at its third failure. */
  lemma FailKeeps(c: Codec, db: Db, intent: Intent, held: Record)
    requires TablesOk(c, db) && Registered(db, intent) && intent.held == held.id
    ensures var tx := FailTx(db, intent, held);
            && tx.Committed? && TablesOk(c, tx.db) && Grows(db, tx.db)
            && SameFolds(db, tx.db)
            && (tx.ok ==> Audit(intent.key, held.id.eventId, Exhausted) in tx.db.dlq)
            && (Locks(db, intent) ==> Kept(db, intent) && (tx.ok <==> TwiceFailed(db, intent)))
  {
    var tx := FailTx(db, intent, held);
    var t0, e := TokenKey(intent.key.tenant, intent.token), EventKey(intent.key.tenant, held.id.eventId);
    assert IntentOk(c, db, t0) && InputOk(db, e);
    if Locks(db, intent) {
      var attempts := db.inputs[e].attempts + 1;
      if attempts < MAX_ATTEMPTS {
        var db1 := db.(inputs := db.inputs[e := db.inputs[e].(attempts := attempts)]);
        CountKeeps(c, db, e);
        assert tx.db == db1;
      } else {
        ExhaustKeeps(c, db, intent, e);
      }
    }
  }

  predicate TwiceFailed(db: Db, intent: Intent)
    requires Kept(db, intent)
  {
    db.inputs[EventKey(intent.key.tenant, intent.held.eventId)].attempts == MAX_ATTEMPTS - 1
  }

  lemma CountKeeps(c: Codec, db: Db, e: EventKey)
    requires TablesOk(c, db) && e in db.inputs && db.inputs[e].status.Waiting? && db.inputs[e].attempts + 1 < MAX_ATTEMPTS
    ensures var db' := db.(inputs := db.inputs[e := db.inputs[e].(attempts := db.inputs[e].attempts + 1)]);
            TablesOk(c, db') && Grows(db, db')
  {
    var db' := db.(inputs := db.inputs[e := db.inputs[e].(attempts := db.inputs[e].attempts + 1)]);
    forall t ensures IntentOk(c, db', t) {
      assert IntentOk(c, db, t);
    }
    forall t, u ensures OnePending(db', t, u) {
      assert OnePending(db, t, u);
    }
    forall o ensures InputOk(db', o) {
      assert InputOk(db, o);
    }
    QueuePart(c, db, db');
  }

  function Exhausting(db: Db, intent: Intent, e: EventKey): Db
    requires e in db.inputs
  {
    var db' := db.(inputs := db.inputs[e := db.inputs[e].(attempts := db.inputs[e].attempts + 1)]);
    Complete(db'.(dlq := db'.dlq + {Audit(intent.key, e.eventId, Exhausted)}), intent, Audited, DeadLettered)
  }

  lemma ExhaustKeeps(c: Codec, db: Db, intent: Intent, e: EventKey)
    requires TablesOk(c, db) && Registered(db, intent) && e == EventKey(intent.key.tenant, intent.held.eventId)
    requires db.intents[TokenKey(intent.key.tenant, intent.token)].status.Pending?
    requires e in db.inputs && db.inputs[e].status.Waiting? && db.inputs[e].attempts + 1 == MAX_ATTEMPTS
    ensures TablesOk(c, Exhausting(db, intent, e)) && Grows(db, Exhausting(db, intent, e))
  {
    var db' := Exhausting(db, intent, e);
    var t0 := TokenKey(intent.key.tenant, intent.token);
    assert IntentOk(c, db, t0);
    forall t ensures IntentOk(c, db', t) {
      assert IntentOk(c, db, t) && OnePending(db, t, t0);
    }
    forall t, u ensures OnePending(db', t, u) {
      assert OnePending(db, t, u);
    }
    forall o ensures InputOk(db', o) {
      assert InputOk(db, o);
    }
    QueuePart(c, db, db');
  }

  /** A started or joined intent is the proposed one, up to its token: the held
      command's digest fixes what is asked for. */
  lemma BeginKeeps(c: Codec, db: Db, intent: Intent, held: Record)
    requires CollisionFree(c) && TablesOk(c, db) && AskedFor(c, intent, held.command) && held == RecordOf(c, held.command)
    ensures var (tx, begun) := BeginTx(db, intent, held);
            && TablesOk(c, After(db, tx)) && Grows(db, After(db, tx))
            && SameFolds(db, After(db, tx))
            && (tx.Committed? && tx.ok ==> begun == intent.(token := begun.token) && Registered(tx.db, begun))
  {
    var (tx, begun) := BeginTx(db, intent, held);
    if tx.Committed? && HeadOf(db, intent.key).version == intent.observed {
      if SomePending(db, intent.key) {
        var t := TokenKey(intent.key.tenant, begun.token);
        PendingIsIndexed(c, db, intent.key);
        assert IntentOk(c, db, t);
        var command :| AskedFor(c, db.intents[t].intent, command);
        assert tx.ok ==> c.hash(command) == c.hash(held.command);
      } else if tx.db != db {
        StartKeeps(c, db, tx.db, intent, held);
      }
    }
  }

  lemma PendingIsIndexed(c: Codec, db: Db, key: Key)
    requires Queues(c, db)
    ensures forall t :: PendingFor(db, key, t) ==> t == TokenKey(key.tenant, db.intents[t].intent.token)
  {
    forall t | PendingFor(db, key, t) ensures t == TokenKey(key.tenant, db.intents[t].intent.token) {
      assert IntentOk(c, db, t);
    }
  }

  lemma StartKeeps(c: Codec, db: Db, db': Db, intent: Intent, held: Record)
    requires TablesOk(c, db) && AskedFor(c, intent, held.command) && held == RecordOf(c, held.command)
    requires !SomePending(db, intent.key)
    requires var e, t := EventKey(intent.key.tenant, held.id.eventId), TokenKey(intent.key.tenant, intent.token);
             && e !in db.inputs
             && db' == db.(inputs := db.inputs[e := Input(Slot(intent.key, held.command.version), held.id.hash, 0, Waiting)],
                           intents := if t in db.intents then db.intents else db.intents[t := IntentRow(intent, Pending)])
    ensures TablesOk(c, db') && Grows(db, db')
  {
    forall t ensures IntentOk(c, db', t) {
      assert IntentOk(c, db, t);
    }
    forall t, u ensures OnePending(db', t, u) {
      assert OnePending(db, t, u);
      assert !PendingFor(db, intent.key, t) && !PendingFor(db, intent.key, u);
    }
    forall o ensures InputOk(db', o) {
      assert InputOk(db, o);
    }
    QueuePart(c, db, db');
  }
}
