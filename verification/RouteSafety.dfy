/** What every step of every route projector keeps, whatever the router says. */
module RouteSafety {
  import opened Ledgers
  import opened RouteProjection
  import opened RouteMachine

  // ----------------------------------------------------------------- tables

  predicate UpTo(key: Key, n: nat, facts: seq<RouteFact>) {
    forall i :: 0 <= i < |facts| ==> facts[i].key == key && 0 < facts[i].version <= n
  }

  lemma {:induction false} InsertFactsKeeps(c: Codec, l: Ledger, key: Key, n: nat, facts: seq<RouteFact>)
    requires Sound(l) && UpTo(key, n, facts) && InsertFacts(c, l, facts).Some?
    ensures var l' := InsertFacts(c, l, facts).value;
            && Sound(l') && ExtendsBy(l, l', key, n)
            && forall i :: 0 <= i < |facts| ==> Holds(l', SlotOf(facts[i]), IdOf(c, facts[i]))
    decreases |facts|
  {
    if facts != [] {
      InsertKeeps(l, SlotOf(facts[0]), IdOf(c, facts[0]));
      var l1 := Insert(l, SlotOf(facts[0]), IdOf(c, facts[0])).value;
      InsertFactsKeeps(c, l1, key, n, facts[1..]);
      var l' := InsertFacts(c, l, facts).value;
      forall i | 0 <= i < |facts| ensures Holds(l', SlotOf(facts[i]), IdOf(c, facts[i])) {
        if i > 0 {
          assert facts[i] == facts[1..][i - 1];
        }
      }
    }
  }

  /** A row below the head changes nothing else. */
  lemma HistoricalRowKeeps(db: Db, l: Ledger, key: Key)
    requires TablesOk(db) && Sound(l) && ExtendsBy(db.ledger, l, key, HeadOf(db, key).version)
    ensures TablesOk(db.(ledger := l)) && Grows(db, db.(ledger := l))
  {
    var db' := db.(ledger := l);
    forall k ensures HeadOk(db', k) {
      assert HeadOk(db, k);
    }
    forall s ensures Below(db', s) {
      assert Below(db, s);
    }
    forall t ensures IntentOk(db', t) {
      assert IntentOk(db, t);
    }
    forall t, u ensures OnePending(db', t, u) {
      assert OnePending(db, t, u);
    }
  }

  function WithHead(db: Db, l: Ledger, key: Key, head: Head): Db {
    db.(ledger := l, heads := db.heads[key := head])
  }

  lemma HeadRowKeeps(db: Db, l: Ledger, key: Key, head: Head)
    requires TablesOk(db) && Sound(l) && ExtendsBy(db.ledger, l, key, head.version)
    requires head.version > HeadOf(db, key).version && Vouched(db, key, head)
    requires Holds(l, Slot(key, head.version), Identity(head.eventId, head.hash))
    ensures TablesOk(WithHead(db, l, key, head)) && Grows(db, WithHead(db, l, key, head))
  {
    var db' := WithHead(db, l, key, head);
    forall k ensures HeadOk(db', k) {
      assert HeadOk(db, k);
    }
    forall s ensures Below(db', s) {
      assert Below(db, s);
    }
    forall t ensures IntentOk(db', t) {
      assert IntentOk(db, t);
    }
    forall t, u ensures OnePending(db', t, u) {
      assert OnePending(db, t, u);
    }
  }

  lemma IntentsKeep(db: Db, db': Db)
    requires TablesOk(db) && Intents(db')
    requires db' == db.(intents := db'.intents, dlq := db'.dlq) && db.dlq <= db'.dlq
    requires forall t :: t in db.intents ==> t in db'.intents && RowMoves(db.intents[t], db'.intents[t])
    ensures TablesOk(db') && Grows(db, db')
  {
    forall k ensures HeadOk(db', k) {
      assert HeadOk(db, k);
    }
    forall s ensures Below(db', s) {
      assert Below(db, s);
    }
  }

  lemma CloseKeeps(db: Db, key: Key, token: string, status: Status)
    requires TablesOk(db) && !status.Pending?
    requires TokenKey(key.tenant, token) in db.intents && db.intents[TokenKey(key.tenant, token)].status.Pending?
    ensures TablesOk(Close(db, key, token, status)) && Grows(db, Close(db, key, token, status))
  {
    var db' := Close(db, key, token, status);
    forall t ensures IntentOk(db', t) {
      assert IntentOk(db, t);
    }
    forall t, u ensures OnePending(db', t, u) {
      assert OnePending(db, t, u);
    }
    IntentsKeep(db, db');
  }

  // ----------------------------------------------------------- transactions

  /** What a projector hands to an install. */
  ghost predicate Installable(c: Codec, db: Db, fact: RouteFact, expected: nat, facts: seq<RouteFact>, final: Head) {
    && facts != [] && UpTo(fact.key, final.version, facts) && final.version > expected
    && SlotOf(facts[|facts| - 1]) == Slot(fact.key, final.version)
    && IdOf(c, facts[|facts| - 1]) == Identity(final.eventId, final.hash)
    && Vouched(db, fact.key, final)
    && exists i :: 0 <= i < |facts| && SlotOf(facts[i]) == SlotOf(fact) && IdOf(c, facts[i]) == IdOf(c, fact)
  }

  lemma InstallKeeps(c: Codec, db: Db, fact: RouteFact, expected: nat, facts: seq<RouteFact>, final: Head, token: Option<string>)
    requires TablesOk(db) && Installable(c, db, fact, expected, facts, final)
    ensures var tx := InstallBatchTx(c, db, fact.key, expected, facts, final, token);
            && TablesOk(After(db, tx)) && Grows(db, After(db, tx))
            && (tx.Committed? && tx.ok ==> Retained(c, tx.db, fact))
  {
    var tx := InstallBatchTx(c, db, fact.key, expected, facts, final, token);
    if tx.Committed? && tx.ok {
      InsertFactsKeeps(c, db.ledger, fact.key, final.version, facts);
      var db1 := WithHead(db, InsertFacts(c, db.ledger, facts).value, fact.key, final);
      HeadRowKeeps(db, db1.ledger, fact.key, final);
      if token.Some? {
        CloseKeeps(db1, fact.key, token.value, Installed);
        GrowsTransitive(db, db1, tx.db);
      }
    }
  }

  lemma HistoricalKeeps(c: Codec, db: Db, intent: Intent, fact: RouteFact)
    requires TablesOk(db) && fact.key == intent.key && 0 < fact.version <= intent.observed
    ensures var tx := HistoricalTx(c, db, intent, fact);
            && TablesOk(After(db, tx)) && Grows(db, After(db, tx))
            && (tx.Committed? && tx.ok ==> Retained(c, tx.db, fact))
  {
    var tx := HistoricalTx(c, db, intent, fact);
    if tx.Committed? && tx.ok {
      InsertKeeps(db.ledger, SlotOf(fact), IdOf(c, fact));
      var db1 := db.(ledger := Insert(db.ledger, SlotOf(fact), IdOf(c, fact)).value);
      HistoricalRowKeeps(db, db1.ledger, fact.key);
      CloseKeeps(db1, intent.key, intent.token, Installed);
      GrowsTransitive(db, db1, tx.db);
    }
  }

  /** A snapshot replaces the head only by a higher version: its own version is
      already in the ledger. */
  lemma SnapshotKeeps(db: Db, intent: Intent, snapshot: Snapshot, held: RouteFact)
    requires TablesOk(db) && held.key == intent.key
    requires snapshot.head.version > 0 && intent.observed <= snapshot.head.version
    requires Vouched(db, intent.key, snapshot.head)
    ensures var tx := SnapshotTx(db, intent, snapshot, held);
            && TablesOk(After(db, tx)) && Grows(db, After(db, tx))
            && (tx.Committed? && tx.ok ==> Poison(held.key, held.eventId, UnknownHistory) in tx.db.dlq)
  {
    var tx := SnapshotTx(db, intent, snapshot, held);
    if tx.Committed? && tx.ok {
      var slot, id := Slot(intent.key, snapshot.head.version), Identity(snapshot.head.eventId, snapshot.head.hash);
      assert HeadOk(db, intent.key);
      InsertKeeps(db.ledger, slot, id);
      var db2 := WithHead(db, Insert(db.ledger, slot, id).value, intent.key, snapshot.head);
      HeadRowKeeps(db, db2.ledger, intent.key, snapshot.head);
      var db3 := db2.(dlq := db2.dlq + {Poison(intent.key, held.eventId, UnknownHistory)});
      DlqKeeps(db2, db3);
      CloseKeeps(db3, intent.key, intent.token, Audited);
      GrowsTransitive(db, db2, db3);
      GrowsTransitive(db, db3, tx.db);
    }
  }

  lemma DlqKeeps(db: Db, db': Db)
    requires TablesOk(db) && db' == db.(dlq := db'.dlq) && db.dlq <= db'.dlq
    ensures TablesOk(db') && Grows(db, db')
  {
    forall t ensures IntentOk(db', t) {
      assert IntentOk(db, t);
    }
    forall t, u ensures OnePending(db', t, u) {
      assert OnePending(db, t, u);
    }
    IntentsKeep(db, db');
  }

  lemma BeginKeeps(db: Db, proposed: Intent)
    requires TablesOk(db)
    ensures var (tx, intent) := BeginTx(db, proposed);
            && TablesOk(After(db, tx)) && Grows(db, After(db, tx))
            && (tx.Committed? && tx.ok ==> intent.(token := proposed.token) == proposed)
  {
    var (tx, intent) := BeginTx(db, proposed);
    if tx.Committed? && tx.ok && !SomePending(db, proposed.key) {
      forall t ensures IntentOk(tx.db, t) {
        assert IntentOk(db, t);
      }
      forall t, u ensures OnePending(tx.db, t, u) {
        assert OnePending(db, t, u);
        assert !PendingFor(db, proposed.key, t) && !PendingFor(db, proposed.key, u);
      }
      IntentsKeep(db, tx.db);
    }
  }

  lemma AuthorizeKeeps(db: Db, a: AuthorizationKey, b: Binding)
    requires TablesOk(db) && a !in db.authorizations
    ensures var db' := db.(authorizations := db.authorizations[a := b]); TablesOk(db') && Grows(db, db')
  {
    var db' := db.(authorizations := db.authorizations[a := b]);
    forall k ensures HeadOk(db', k) {
      assert HeadOk(db, k);
    }
    forall s ensures Below(db', s) {
      assert Below(db, s);
    }
    forall t ensures IntentOk(db', t) {
      assert IntentOk(db, t);
    }
    forall t, u ensures OnePending(db', t, u) {
      assert OnePending(db, t, u);
    }
  }
}
