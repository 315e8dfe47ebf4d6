/** The projection tables as the store updates them, and the projector's loops. */
module RouteStore {
  import opened Ledgers
  import opened RouteProjection
  import opened RouteMachine
  import opened RouteSafety

  class Store {
    const codec: Codec
    var db: Db

    constructor (codec: Codec)
      ensures this.codec == codec && db == INITIAL.db && TablesOk(db)
    {
      this.codec := codec;
      db := INITIAL.db;
    }

    /** One version and one event row, or a unique violation. */
    method InsertFactLedgers(fact: RouteFact) returns (ok: bool)
      modifies this`db
      ensures ok <==> Insert(old(db).ledger, SlotOf(fact), IdOf(codec, fact)).Some?
      ensures db == if ok then old(db).(ledger := Insert(old(db).ledger, SlotOf(fact), IdOf(codec, fact)).value) else old(db)
    {
      var e := EventKey(fact.key.tenant, fact.eventId);
      if SlotOf(fact) in db.ledger.versions || e in db.ledger.events {
        return false;
      }
      var l := db.ledger.(versions := db.ledger.versions[SlotOf(fact) := IdOf(codec, fact)]);
      db := db.(ledger := l.(events := l.events[e := EventRow(SlotOf(fact), codec.hash(fact))]));
      return true;
    }

    /** Compare-and-set on the head version, row by row; a violation rolls the
        whole transaction back. Given a folded batch, the tables stay consistent
        and nothing retained is rewritten. */
    method InstallBatch(fact: RouteFact, expected: nat, facts: seq<RouteFact>, final: Head, token: Option<string>)
      returns (tx: Tx<Db>)
      requires TablesOk(db) && Installable(codec, db, fact, expected, facts, final)
      modifies this`db
      ensures tx == InstallBatchTx(codec, old(db), fact.key, expected, facts, final, token)
      ensures db == After(old(db), tx) && TablesOk(db) && Grows(old(db), db)
    {
      InstallKeeps(codec, db, fact, expected, facts, final, token);
      var before := db;
      if HeadOf(db, fact.key).version != expected {
        return Committed(db, false);
      }
      if token.Some? && !PendingMatches(db, fact.key, token.value, expected) {
        return Committed(db, false);
      }
      for i := 0 to |facts|
        invariant db == before.(ledger := db.ledger)
        invariant InsertFacts(codec, before.ledger, facts) == InsertFacts(codec, db.ledger, facts[i..])
      {
        assert facts[i..][1..] == facts[i + 1..];
        var ok := InsertFactLedgers(facts[i]);
        if !ok {
          db := before;
          return RolledBack;
        }
      }
      db := db.(heads := db.heads[fact.key := final]);
      if token.Some? {
        db := Close(db, fact.key, token.value, Installed);
      }
      return Committed(db, true);
    }

    /** Under the intent's lock, the identity of a fact at or below the head. */
    method InstallHistoricalIdentity(intent: Intent, fact: RouteFact) returns (tx: Tx<Db>)
      requires TablesOk(db) && fact.key == intent.key && 0 < fact.version <= intent.observed
      modifies this`db
      ensures tx == HistoricalTx(codec, old(db), intent, fact)
      ensures db == After(old(db), tx) && TablesOk(db) && Grows(old(db), db)
    {
      HistoricalKeeps(codec, db, intent, fact);
      if HeadOf(db, intent.key).version != intent.observed || !PendingMatches(db, intent.key, intent.token, intent.observed) {
        return Committed(db, false);
      }
      var ok := InsertFactLedgers(fact);
      if !ok {
        return RolledBack;
      }
      db := Close(db, intent.key, intent.token, Installed);
      return Committed(db, true);
    }

    /** Head, both ledger rows, the DLQ row of the held fact, and the intent's end. */
    method InstallSnapshotAndAudit(intent: Intent, snapshot: Snapshot, held: RouteFact) returns (tx: Tx<Db>)
      requires TablesOk(db) && ValidSnapshot(codec, snapshot, intent, held) && held.key == intent.key
      requires snapshot.head.visible ==> Bound(db, intent.key, snapshot.head.authorizationId, snapshot.head.receiptId)
      modifies this`db
      ensures tx == SnapshotTx(old(db), intent, snapshot, held)
      ensures db == After(old(db), tx) && TablesOk(db) && Grows(old(db), db)
    {
      SnapshotKeeps(db, intent, snapshot, held);
      var before, head := db, snapshot.head;
      if HeadOf(db, intent.key).version != intent.observed || !PendingMatches(db, intent.key, intent.token, intent.observed) {
        return Committed(db, false);
      }
      db := db.(heads := db.heads[intent.key := head]);
      var slot, e := Slot(intent.key, head.version), EventKey(intent.key.tenant, head.eventId);
      if slot in db.ledger.versions || e in db.ledger.events {
        db := before;
        return RolledBack;
      }
      var l := db.ledger.(versions := db.ledger.versions[slot := Identity(head.eventId, head.hash)]);
      db := db.(ledger := l.(events := l.events[e := EventRow(slot, head.hash)]));
      db := db.(dlq := db.dlq + {Poison(intent.key, held.eventId, UnknownHistory)});
      db := Close(db, intent.key, intent.token, Audited);
      return Committed(db, true);
    }

    /** Joins the pending intent that asks for the same, or starts one. */
    method BeginReconcile(proposed: Intent) returns (tx: Tx<Db>, intent: Intent)
      requires TablesOk(db)
      modifies this`db
      ensures (tx, intent) == BeginTx(old(db), proposed)
      ensures db == After(old(db), tx) && TablesOk(db) && Grows(old(db), db)
    {
      BeginKeeps(db, proposed);
      intent := proposed;
      if HeadOf(db, proposed.key).version != proposed.observed {
        return Committed(db, false), intent;
      }
      if p :| p in db.intents && PendingFor(db, proposed.key, p) {
        assert PendingFor(db, proposed.key, p);
        assert forall q :: PendingFor(db, proposed.key, q) ==> OnePending(db, p, q);
        intent := db.intents[p].intent;
        return Committed(db, intent.(token := proposed.token) == proposed), intent;
      }
      var t := TokenKey(proposed.key.tenant, proposed.token);
      if t in db.intents {
        return RolledBack, intent;
      }
      db := db.(intents := db.intents[t := IntentRow(proposed, Pending)]);
      return Committed(db, true), intent;
    }
  }

  /** Whether every ringing fact of a batch has its authorization, read in turn. */
  method ValidateAuthorizationBindings(db: Db, facts: seq<RouteFact>) returns (ok: bool)
    ensures ok <==> AllBound(db, facts)
  {
    for i := 0 to |facts|
      invariant forall j :: 0 <= j < i && facts[j].kind.Ringing? ==>
                              Bound(db, facts[j].key, facts[j].authorizationId, facts[j].receiptId)
    {
      if !facts[i].kind.Ringing? {
        continue;
      }
      var a := AuthorizationKey(facts[i].key.tenant, facts[i].authorizationId);
      if a !in db.authorizations || db.authorizations[a].interaction != facts[i].key.interaction
         || db.authorizations[a].receiptId != facts[i].receiptId {
        return false;
      }
    }
    return true;
  }

  /** The search for the held fact in a replay. */
  method HoldsFact(c: Codec, facts: seq<RouteFact>, held: RouteFact) returns (found: bool)
    ensures found <==> exists i :: 0 <= i < |facts| && Same(c, facts[i], held)
  {
    found := false;
    for i := 0 to |facts|
      invariant found <==> exists j :: 0 <= j < i && Same(c, facts[j], held)
    {
      if facts[i].version == held.version && facts[i].eventId == held.eventId && c.hash(facts[i]) == c.hash(held) {
        found := true;
      }
    }
  }
}
