/** When a route reconcile of an interaction can start. As with participation, a
    pending intent is overtaken by an in-order fact that moves the head past the
    version it observed (internal/deliverypg/projection.go:166-182), and nothing ever
    closes it. */
module RouteStalls {
  import opened Ledgers
  import opened RouteProjection
  import opened RouteMachine
  import opened RouteTheorems

  predicate Overtaken(db: Db, k: Key, t: TokenKey) {
    PendingFor(db, k, t) && db.intents[t].intent.observed < HeadOf(db, k).version
  }

  predicate IntentOf(db: Db, k: Key, t: TokenKey) {
    t in db.intents && db.intents[t].intent.key == k
  }

  /** No intent of the interaction was started, closed or changed. */
  ghost predicate SameIntents(db: Db, db': Db, k: Key) {
    forall t :: (IntentOf(db, k, t) <==> IntentOf(db', k, t)) && (IntentOf(db, k, t) ==> db'.intents[t] == db.intents[t])
  }

  predicate Started(tx: Tx<Db>) {
    tx.Committed? && tx.ok
  }

  // ------------------------------------------------------- one transaction

  /** The pending intent is the overtaken one, so no proposal meets it. */
  lemma OvertakenBars(db: Db, k: Key, t: TokenKey, proposed: Intent)
    requires Intents(db) && Overtaken(db, k, t) && proposed.key == k
    ensures !Started(BeginTx(db, proposed).0) && After(db, BeginTx(db, proposed).0) == db
  {
    if HeadOf(db, k).version == proposed.observed {
      forall q | PendingFor(db, k, q) ensures q == t {
        assert OnePending(db, t, q);
      }
    }
  }

  lemma BeginElsewhere(db: Db, k: Key, proposed: Intent)
    requires proposed.key != k
    ensures SameIntents(db, After(db, BeginTx(db, proposed).0), k)
  {
  }

  /** Closing needs the intent to have observed the present head. */
  lemma CloseElsewhere(db: Db, db1: Db, k: Key, t: TokenKey, key: Key, token: string, observed: nat, status: Status)
    requires Intents(db) && Overtaken(db, k, t) && db1.intents == db.intents
    requires HeadOf(db, key).version == observed && PendingMatches(db, key, token, observed)
    ensures SameIntents(db, Close(db1, key, token, status), k)
  {
    assert OnePending(db, t, TokenKey(key.tenant, token));
  }

  lemma InstallElsewhere(c: Codec, db: Db, k: Key, t: TokenKey, key: Key, expected: nat, facts: seq<RouteFact>, final: Head,
                         token: Option<string>)
    requires Intents(db) && Overtaken(db, k, t)
    ensures SameIntents(db, After(db, InstallBatchTx(c, db, key, expected, facts, final, token)), k)
  {
    var l := InsertFacts(c, db.ledger, facts);
    if token.Some? && HeadOf(db, key).version == expected && PendingMatches(db, key, token.value, expected) && l.Some? {
      CloseElsewhere(db, db.(ledger := l.value, heads := db.heads[key := final]), k, t, key, token.value, expected, Installed);
    }
  }

  lemma HistoricalElsewhere(c: Codec, db: Db, k: Key, t: TokenKey, intent: Intent, fact: RouteFact)
    requires Intents(db) && Overtaken(db, k, t)
    ensures SameIntents(db, After(db, HistoricalTx(c, db, intent, fact)), k)
  {
    var l := Insert(db.ledger, SlotOf(fact), IdOf(c, fact));
    if HeadOf(db, intent.key).version == intent.observed && PendingMatches(db, intent.key, intent.token, intent.observed) && l.Some? {
      CloseElsewhere(db, db.(ledger := l.value), k, t, intent.key, intent.token, intent.observed, Installed);
    }
  }

  lemma SnapshotElsewhere(db: Db, k: Key, t: TokenKey, intent: Intent, snapshot: Snapshot, held: RouteFact)
    requires Intents(db) && Overtaken(db, k, t)
    ensures SameIntents(db, After(db, SnapshotTx(db, intent, snapshot, held)), k)
  {
    var head := snapshot.head;
    var l := Insert(db.ledger, Slot(intent.key, head.version), Identity(head.eventId, head.hash));
    if HeadOf(db, intent.key).version == intent.observed && PendingMatches(db, intent.key, intent.token, intent.observed) && l.Some? {
      var db1 := db.(ledger := l.value, heads := db.heads[intent.key := head],
                     dlq := db.dlq + {Poison(intent.key, held.eventId, UnknownHistory)});
      CloseElsewhere(db, db1, k, t, intent.key, intent.token, intent.observed, Audited);
    }
  }

  lemma CommitElsewhere(c: Codec, w: World, p: nat, k: Key, t: TokenKey)
    requires Intents(w.db) && Overtaken(w.db, k, t)
    ensures SameIntents(w.db, DoCommit(c, w, p, Proc(w, p)).db, k)
  {
    match Proc(w, p)
    case Installing(fact, expected, facts, final, token) =>
      InstallElsewhere(c, w.db, k, t, fact.key, expected, facts, final, token);
    case Recording(_, intent, replayed) => HistoricalElsewhere(c, w.db, k, t, intent, replayed);
    case Replacing(fact, intent, snapshot) => SnapshotElsewhere(w.db, k, t, intent, snapshot, fact);
    case _ =>
  }

  // ------------------------------------------------------- any continuation

  lemma BeginStalls(c: Codec, w: World, p: nat, token: string, k: Key, t: TokenKey)
    requires Intents(w.db) && Overtaken(w.db, k, t) && Proc(w, p).Reconciling?
    ensures var pc := Proc(w, p); SameIntents(w.db, DoBegin(c, w, p, pc.fact, pc.loaded, pc.historical, token).db, k)
  {
    var pc := Proc(w, p);
    var proposed := Proposed(c, pc.fact, pc.loaded, pc.historical, token);
    if proposed.key == k {
      OvertakenBars(w.db, k, t, proposed);
    } else {
      BeginElsewhere(w.db, k, proposed);
    }
  }

  lemma StepSameIntents(c: Codec, w: World, step: Step, k: Key, t: TokenKey)
    requires Intents(w.db) && Overtaken(w.db, k, t)
    ensures SameIntents(w.db, Apply(c, w, step).db, k)
  {
    match step
    case Begin(p, token) => if Proc(w, p).Reconciling? { BeginStalls(c, w, p, token, k, t); }
    case Commit(p) => CommitElsewhere(c, w, p, k, t);
    case _ =>
  }

  lemma StepStalls(c: Codec, w: World, step: Step, k: Key, t: TokenKey)
    requires Faithful(c) && WorldOk(c, w) && Overtaken(w.db, k, t)
    ensures SameIntents(w.db, Apply(c, w, step).db, k) && Overtaken(Apply(c, w, step).db, k, t)
  {
    StepSameIntents(c, w, step, k, t);
    ApplyKeeps(c, w, step);
    StillOvertaken(w.db, Apply(c, w, step).db, k, t);
  }

  lemma StillOvertaken(db: Db, db': Db, k: Key, t: TokenKey)
    requires Overtaken(db, k, t) && SameIntents(db, db', k) && Grows(db, db')
    ensures Overtaken(db', k, t)
  {
    assert HeadMoves(HeadOf(db, k), HeadOf(db', k));
    assert IntentOf(db, k, t);
  }

  /** Once a pending intent has been overtaken, no reconcile of that interaction is
      ever started or finished again, in any continuation by anyone. */
  lemma {:induction false} StalledForever(c: Codec, steps: seq<Step>, more: seq<Step>, k: Key, t: TokenKey)
    requires Faithful(c) && Overtaken(Run(c, steps).db, k, t)
    ensures Overtaken(Run(c, steps + more).db, k, t) && SameIntents(Run(c, steps).db, Run(c, steps + more).db, k)
    decreases |more|
  {
    if more == [] {
      assert steps + more == steps;
    } else {
      var all, init := steps + more, more[..|more| - 1];
      assert all[..|all| - 1] == steps + init && all[|all| - 1] == more[|more| - 1];
      StalledForever(c, steps, init, k, t);
      RunKeeps(c, steps + init);
      StepStalls(c, Run(c, steps + init), more[|more| - 1], k, t);
      SameIntentsTransitive(Run(c, steps).db, Run(c, steps + init).db, Run(c, all).db, k);
    }
  }

  lemma SameIntentsTransitive(a: Db, b: Db, d: Db, k: Key)
    requires SameIntents(a, b, k) && SameIntents(b, d, k)
    ensures SameIntents(a, d, k)
  {
    forall t ensures (IntentOf(a, k, t) <==> IntentOf(d, k, t)) && (IntentOf(a, k, t) ==> d.intents[t] == a.intents[t]) {
      assert IntentOf(a, k, t) <==> IntentOf(b, k, t);
      assert IntentOf(b, k, t) <==> IntentOf(d, k, t);
    }
  }

  // ------------------------------------------------------- when one can start

  /** Some fact of the interaction would start or join a reconcile now. */
  ghost predicate CanStart(c: Codec, db: Db, k: Key) {
    exists fact: RouteFact, historical, token :: fact.key == k && Starts(c, db, fact, historical, token)
  }

  ghost predicate Starts(c: Codec, db: Db, fact: RouteFact, historical: bool, token: string) {
    Started(BeginTx(db, Proposed(c, fact, HeadOf(db, fact.key), historical, token)).0)
  }

  /** An intent never observed more than the head, and asks for what some fact needs. */
  ghost predicate Asked(c: Codec, db: Db, t: TokenKey) {
    t in db.intents ==>
      var intent := db.intents[t].intent;
      && intent.observed <= HeadOf(db, intent.key).version
      && exists fact, loaded: Head, historical :: loaded.version == intent.observed
                                                  && intent == Proposed(c, fact, loaded, historical, intent.token)
  }

  lemma BeginAsks(c: Codec, db: Db, fact: RouteFact, loaded: Head, historical: bool, token: string, t: TokenKey)
    requires Asked(c, db, t)
    ensures Asked(c, After(db, BeginTx(db, Proposed(c, fact, loaded, historical, token)).0), t)
  {
    var proposed := Proposed(c, fact, loaded, historical, token);
    assert loaded.version == proposed.observed && proposed == Proposed(c, fact, loaded, historical, proposed.token);
  }

  lemma NoOtherStarts(c: Codec, w: World, step: Step)
    requires !step.Begin?
    ensures Apply(c, w, step).db.intents.Keys == w.db.intents.Keys
  {
    if step.Commit? {
      CommitStartsNone(c, w, step.p);
    }
  }

  lemma CommitStartsNone(c: Codec, w: World, p: nat)
    ensures DoCommit(c, w, p, Proc(w, p)).db.intents.Keys == w.db.intents.Keys
  {
  }

  lemma StepAsks(c: Codec, w: World, step: Step, t: TokenKey)
    requires Faithful(c) && WorldOk(c, w) && Asked(c, w.db, t)
    ensures Asked(c, Apply(c, w, step).db, t)
  {
    var db, db' := w.db, Apply(c, w, step).db;
    if step.Begin? {
      var pc := Proc(w, step.p);
      if pc.Reconciling? {
        BeginAsks(c, db, pc.fact, pc.loaded, pc.historical, step.token, t);
      }
    } else if t in db'.intents {
      NoOtherStarts(c, w, step);
      ApplyKeeps(c, w, step);
      AskedStays(c, db, db', t);
    }
  }

  lemma AskedStays(c: Codec, db: Db, db': Db, t: TokenKey)
    requires Asked(c, db, t) && t in db.intents && Grows(db, db')
    ensures Asked(c, db', t)
  {
    assert RowMoves(db.intents[t], db'.intents[t]);
    var k := db.intents[t].intent.key;
    assert HeadMoves(HeadOf(db, k), HeadOf(db', k));
  }

  lemma {:induction false} AskedAlways(c: Codec, steps: seq<Step>, t: TokenKey)
    requires Faithful(c)
    ensures Asked(c, Run(c, steps).db, t)
  {
    if steps != [] {
      var before := steps[..|steps| - 1];
      AskedAlways(c, before, t);
      RunKeeps(c, before);
      StepAsks(c, Run(c, before), steps[|steps| - 1], t);
    }
  }

  lemma StartsAfresh(c: Codec, db: Db, k: Key)
    requires !SomePending(db, k)
    ensures CanStart(c, db, k)
  {
    var tokens := set t | t in db.intents :: t.token;
    var token := Unused(tokens);
    forall t | t in db.intents ensures t.token != token {
      assert t.token in tokens;
    }
    assert Starts(c, db, RouteFact(k, "", 0, Reserved, "", "", 0, 0), false, token);
  }

  lemma StartsByJoining(c: Codec, db: Db, k: Key, t: TokenKey)
    requires Intents(db) && PendingFor(db, k, t) && Asked(c, db, t) && db.intents[t].intent.observed == HeadOf(db, k).version
    ensures CanStart(c, db, k)
  {
    var intent := db.intents[t].intent;
    var fact, loaded: Head, historical :| loaded.version == intent.observed
                                          && intent == Proposed(c, fact, loaded, historical, intent.token);
    forall q | PendingFor(db, k, q) ensures q == t {
      assert OnePending(db, t, q);
    }
    assert Starts(c, db, fact, historical, intent.token);
  }

  /** In every run: a reconcile of the interaction can start exactly if none of its
      pending intents has been overtaken. */
  lemma {:induction false} CanStartIffNotOvertaken(c: Codec, steps: seq<Step>, k: Key)
    requires Faithful(c)
    ensures CanStart(c, Run(c, steps).db, k) <==> forall t :: !Overtaken(Run(c, steps).db, k, t)
  {
    var db := Run(c, steps).db;
    RunKeeps(c, steps);
    if t :| Overtaken(db, k, t) {
      forall fact: RouteFact, historical, token | fact.key == k ensures !Starts(c, db, fact, historical, token) {
        OvertakenBars(db, k, t, Proposed(c, fact, HeadOf(db, k), historical, token));
      }
    } else if t :| PendingFor(db, k, t) {
      AskedAlways(c, steps, t);
      assert Asked(c, db, t) && !Overtaken(db, k, t);
      StartsByJoining(c, db, k, t);
    } else {
      StartsAfresh(c, db, k);
    }
  }

  /** In no continuation can a reconcile of the interaction start. */
  ghost predicate Stalled(c: Codec, steps: seq<Step>, k: Key) {
    forall more :: !CanStart(c, Run(c, steps + more).db, k)
  }

  lemma {:induction false} NeverAgain(c: Codec, steps: seq<Step>, k: Key, t: TokenKey)
    requires Faithful(c) && Overtaken(Run(c, steps).db, k, t)
    ensures Stalled(c, steps, k)
  {
    forall more ensures !CanStart(c, Run(c, steps + more).db, k) {
      StalledForever(c, steps, more, k, t);
      CanStartIffNotOvertaken(c, steps + more, k);
    }
  }

  // ------------------------------------------------------- a run that stalls

  ghost predicate Reachable(c: Codec, w: World) {
    exists steps :: Run(c, steps) == w
  }

  lemma {:induction false} Steps(c: Codec, w: World, step: Step)
    requires Reachable(c, w)
    ensures Reachable(c, Apply(c, w, step))
  {
    var before :| Run(c, before) == w;
    var steps := before + [step];
    assert steps[..|steps| - 1] == before;
    assert Run(c, steps) == Apply(c, w, step);
  }

  predicate OutOfOrder(c: Codec, first: RouteFact, gap: RouteFact) {
    && ValidFact(c, first) && ValidFact(c, gap) && Hashable(first) && Hashable(gap)
    && first.key == gap.key && first.version == 1 && gap.version > 1
  }

  /** The fact that finds a gap opens an intent at version 0. */
  lemma OpensIntent(c: Codec, gap: RouteFact, token: string) returns (w: World)
    requires ValidFact(c, gap) && Hashable(gap) && gap.version > 1
    ensures Reachable(c, w) && PendingFor(w.db, gap.key, TokenKey(gap.key.tenant, token))
    ensures w.db.intents[TokenKey(gap.key.tenant, token)].intent.observed == 0
    ensures w.db.heads == map[] && w.db.ledger == EMPTY_LEDGER && w.db.authorizations == map[] && w.procs.Keys == {0}
  {
    assert Run(c, []) == INITIAL;
    var w1 := Apply(c, INITIAL, Start(0, gap));
    Steps(c, INITIAL, Start(0, gap));
    var w2 := Apply(c, w1, Choose(0));
    Steps(c, w1, Choose(0));
    assert Proc(w2, 0).Reconciling? && w2.db == INITIAL.db;
    w := Apply(c, w2, Begin(0, token));
    Steps(c, w2, Begin(0, token));
  }

  /** The authorization a fact names is on record. */
  lemma Authorizes(c: Codec, w: World, fact: RouteFact) returns (w': World)
    requires Reachable(c, w) && w.db.authorizations == map[]
    ensures Reachable(c, w') && AllBound(w'.db, [fact]) && w'.procs == w.procs
    ensures w'.db == w.db.(authorizations := w'.db.authorizations)
  {
    var step := Authorize(AuthorizationKey(fact.key.tenant, fact.authorizationId), Binding(fact.key.interaction, fact.receiptId));
    w' := Apply(c, w, step);
    Steps(c, w, step);
  }

  /** And the first fact, at another projector, installs at once. */
  lemma InstallsFirst(c: Codec, w: World, first: RouteFact) returns (w': World)
    requires Reachable(c, w) && ValidFact(c, first) && Hashable(first) && first.version == 1 && AllBound(w.db, [first])
    requires Proc(w, 1).Idle? && w.db.heads == map[] && w.db.ledger == EMPTY_LEDGER
    ensures Reachable(c, w') && w'.db.intents == w.db.intents && HeadOf(w'.db, first.key).version == 1
  {
    var w1 := Apply(c, w, Start(1, first));
    Steps(c, w, Start(1, first));
    var w2 := Apply(c, w1, Choose(1));
    Steps(c, w1, Choose(1));
    var w3 := Apply(c, w2, Check(1));
    Steps(c, w2, Check(1));
    assert [first][1..] == [];
    assert Folded(c, first.key, EMPTY, [first]) == Some(Next(c, EMPTY, first));
    assert Proc(w3, 1) == Installing(first, 0, [first], Next(c, EMPTY, first), None) && w3.db == w.db;
    assert Insert(EMPTY_LEDGER, SlotOf(first), IdOf(c, first)).Some?;
    assert InsertFacts(c, EMPTY_LEDGER, [first]).Some?;
    w' := Apply(c, w3, Commit(1));
    Steps(c, w3, Commit(1));
  }

  /** Two facts of any interaction that arrive out of order at two projectors: the
      second opens an intent for the gap, the first installs in order, and from then on
      no reconcile of that interaction ever starts. */
  lemma {:induction false} OutOfOrderStalls(c: Codec, first: RouteFact, gap: RouteFact, token: string)
    requires Faithful(c) && OutOfOrder(c, first, gap)
    ensures exists steps :: Overtaken(Run(c, steps).db, gap.key, TokenKey(gap.key.tenant, token)) && Stalled(c, steps, gap.key)
  {
    var asked := OpensIntent(c, gap, token);
    var w := Authorizes(c, asked, first);
    var w' := InstallsFirst(c, w, first);
    assert Overtaken(w'.db, gap.key, TokenKey(gap.key.tenant, token));
    var steps :| Run(c, steps) == w';
    NeverAgain(c, steps, gap.key, TokenKey(gap.key.tenant, token));
  }
}
