/** The participation tables as the store updates them, statement by statement. */
module ParticipationStore {
  import opened Ledgers
  import opened ParticipationTables
  import opened ParticipationMachine
  import opened ParticipationSafety

  class Store {
    var heads: map<Key, HeadRow>
    var rows: Rows
    var ledger: Ledger
    var inputs: map<EventKey, Input>
    var intents: map<TokenKey, IntentRow>
    var dlq: set<Audit>

    function Contents(): Db
      reads this
    {
      Db(heads, rows, ledger, inputs, intents, dlq)
    }

    constructor ()
      ensures Contents() == INITIAL.db
    {
      heads, rows, ledger, inputs, intents, dlq := map[], map[], EMPTY_LEDGER, map[], map[], {};
    }

    method InsertLedgers(slot: Slot, id: Identity) returns (ok: bool)
      modifies this`ledger
      ensures ok <==> Insert(old(ledger), slot, id).Some?
      ensures ledger == if ok then Insert(old(ledger), slot, id).value else old(ledger)
    {
      var e := EventKey(slot.key.tenant, id.eventId);
      if slot in ledger.versions || e in ledger.events {
        return false;
      }
      ledger := ledger.(versions := ledger.versions[slot := id]);
      ledger := ledger.(events := ledger.events[e := EventRow(slot, id.hash)]);
      return true;
    }

    /** Ledger rows, an upsert or delete per record, then the head row. On a
        violation the caller's transaction rolls back. */
    method InstallRecords(records: seq<Record>, final: Fold) returns (ok: bool)
      modifies this`ledger, this`rows, this`heads
      ensures ok <==> ParticipationTables.InstallRecords(old(Contents()), records, final).Some?
      ensures ok ==> Contents() == ParticipationTables.InstallRecords(old(Contents()), records, final).value
    {
      ghost var start := Pages(ledger, rows);
      for i := 0 to |records|
        invariant heads == old(heads)
        invariant InstallRows(start, records) == InstallRows(Pages(ledger, rows), records[i..])
      {
        assert records[i..][1..] == records[i + 1..];
        var command := records[i].command;
        ok := InsertLedgers(SlotOf(records[i]), records[i].id);
        if !ok {
          return;
        }
        var r := RowKey(command.key, command.participant);
        if command.desired.Assigned? {
          rows := rows[r := Row(command.version, records[i].id)];
        } else {
          rows := rows - {r};
        }
      }
      heads := heads[final.key := HeadRow(final.version, final.id, "")];
      return true;
    }

    /** Compare-and-set: only on top of the version that was loaded. If that fold
        is the stored one, the tables then say exactly what was folded. */
    method Install(record: Record, fold: Fold, records: seq<Record>, final: Fold) returns (tx: Tx<Db>)
      requires Installable(record, fold, records, final)
      modifies this
      ensures tx == InstallTx(old(Contents()), fold.version, records, final)
      ensures Contents() == After(old(Contents()), tx)
      ensures tx.Committed? && tx.ok && Stored(old(Contents()), fold.key) == fold ==> Stored(Contents(), fold.key) == final
    {
      var heads0, rows0, ledger0 := heads, rows, ledger;
      FoldIffConsecutive(fold, records);
      if HeadOf(Contents(), final.key).version != fold.version {
        return Committed(Contents(), false);
      }
      var ok := InstallRecords(records, final);
      if !ok {
        heads, rows, ledger := heads0, rows0, ledger0;
        return RolledBack;
      }
      if Stored(old(Contents()), fold.key) == fold {
        RowsFollowFold(Pages(old(ledger), old(rows)), fold, records);
      }
      return Committed(Contents(), true);
    }

    /** Deletes an interaction's rows and inserts the snapshot's, one by one, in
        whatever order they come. */
    method ReplaceRows(k: Key, fold: Fold)
      modifies this`rows
      ensures rows == RowsReplaced(old(rows), k, fold)
    {
      rows := map r | r in rows && r.key != k :: rows[r];
      ghost var kept := rows;
      var todo, done := fold.participants, {};
      while todo != {}
        invariant todo !! done && todo + done == fold.participants
        invariant rows == kept + map p | p in done :: RowKey(k, p) := Row(fold.version, fold.id)
      {
        var p :| p in todo;
        rows := rows[RowKey(k, p) := Row(fold.version, fold.id)];
        todo, done := todo - {p}, done + {p};
      }
      assert done == fold.participants;
    }

    /** Both updates at the end of a reconcile. */
    method CompleteReconcile(intent: Intent, status: IntentStatus, input: InputStatus)
      modifies this`intents, this`inputs
      ensures Contents() == Complete(old(Contents()), intent, status, input)
    {
      var t, e := TokenKey(intent.key.tenant, intent.token), EventKey(intent.key.tenant, intent.held.eventId);
      if t in intents && intents[t].status.Pending? {
        intents := intents[t := intents[t].(status := status)];
      }
      if e in inputs && inputs[e].status.Waiting? {
        inputs := inputs[e := inputs[e].(status := input)];
      }
    }

    /** A replayed batch under the intent's lock. */
    method InstallReconcile(intent: Intent, records: seq<Record>, final: Fold) returns (tx: Tx<Db>)
      modifies this
      ensures tx == ReconcileTx(old(Contents()), intent, records, final)
      ensures Contents() == After(old(Contents()), tx)
    {
      var heads0, rows0, ledger0 := heads, rows, ledger;
      if !Locks(Contents(), intent) {
        return Committed(Contents(), false);
      }
      var ok := InstallRecords(records, final);
      if !ok {
        heads, rows, ledger := heads0, rows0, ledger0;
        return RolledBack;
      }
      CompleteReconcile(intent, Installed, Settled);
      return Committed(Contents(), true);
    }

    /** The identity of an older command under the intent's lock. */
    method InstallHistorical(intent: Intent, record: Record) returns (tx: Tx<Db>)
      modifies this
      ensures tx == HistoricalTx(old(Contents()), intent, record)
      ensures Contents() == After(old(Contents()), tx)
    {
      if !Locks(Contents(), intent) {
        return Committed(Contents(), false);
      }
      var ok := InsertLedgers(SlotOf(record), record.id);
      if !ok {
        return RolledBack;
      }
      CompleteReconcile(intent, Installed, Settled);
      return Committed(Contents(), true);
    }

    /** A snapshot: rows, ledgers, head, audit, and the intent's end. */
    method InstallSnapshot(intent: Intent, fold: Fold, held: Record) returns (tx: Tx<Db>)
      modifies this
      ensures tx == SnapshotTx(old(Contents()), intent, fold, held)
      ensures Contents() == After(old(Contents()), tx)
    {
      var rows0 := rows;
      if !Locks(Contents(), intent) {
        return Committed(Contents(), false);
      }
      ReplaceRows(intent.key, fold);
      var ok := InsertLedgers(Slot(intent.key, fold.version), fold.id);
      if !ok {
        rows := rows0;
        return RolledBack;
      }
      heads := heads[intent.key := HeadRow(fold.version, fold.id, fold.provenance)];
      dlq := dlq + {Audit(intent.key, held.id.eventId, UnknownHistory)};
      CompleteReconcile(intent, Audited, DeadLettered);
      return Committed(Contents(), true);
    }

    /** Keeps the held command and starts an intent, or joins the pending one. */
    method BeginReconcile(ghost c: Codec, intent: Intent, held: Record) returns (tx: Tx<Db>, begun: Intent)
      requires Queues(c, Contents())
      modifies this
      ensures (tx, begun) == BeginTx(old(Contents()), intent, held)
      ensures Contents() == After(old(Contents()), tx)
    {
      var db := Contents();
      begun := intent;
      if HeadOf(db, intent.key).version != intent.observed {
        return Committed(db, false), begun;
      }
      if p :| p in db.intents && PendingFor(db, intent.key, p) {
        assert forall q :: PendingFor(db, intent.key, q) ==> OnePending(db, p, q);
        var kept := db.intents[p].intent;
        if kept.observed != intent.observed || kept.held != held.id {
          return RolledBack, begun;
        }
        begun := intent.(token := kept.token, observed := kept.observed, from := kept.from, to := kept.to);
        return Committed(db, true), begun;
      }
      var e, t := EventKey(intent.key.tenant, held.id.eventId), TokenKey(intent.key.tenant, intent.token);
      if InputTaken(db, e, SlotOf(held)) {
        return Committed(db, false), begun;
      }
      inputs := inputs[e := Input(Slot(intent.key, held.command.version), held.id.hash, 0, Waiting)];
      if t in intents {
        return Committed(Contents(), false), begun;
      }
      intents := intents[t := IntentRow(intent, Pending)];
      return Committed(Contents(), true), begun;
    }

    /** A failed reconcile: counted, and given up at the third time. */
    method FailReconcile(intent: Intent, held: Record) returns (tx: Tx<Db>)
      requires intent.held == held.id
      modifies this
      ensures tx == FailTx(old(Contents()), intent, held) && Contents() == After(old(Contents()), tx)
    {
      var t, e := TokenKey(intent.key.tenant, intent.token), EventKey(intent.key.tenant, held.id.eventId);
      if !Locks(Contents(), intent) {
        return Committed(Contents(), false);
      }
      if e !in inputs || !inputs[e].status.Waiting? {
        return RolledBack;
      }
      var attempts := inputs[e].attempts + 1;
      if attempts < MAX_ATTEMPTS {
        inputs := inputs[e := inputs[e].(attempts := attempts)];
        return Committed(Contents(), false);
      }
      dlq := dlq + {Audit(intent.key, held.id.eventId, Exhausted)};
      var counted := inputs[e := inputs[e].(attempts := attempts)];
      inputs := inputs[e := inputs[e].(attempts := attempts, status := DeadLettered)];
      assert inputs == counted[e := counted[e].(status := DeadLettered)];
      intents := intents[t := intents[t].(status := Audited)];
      return Committed(Contents(), true);
    }
  }
}
