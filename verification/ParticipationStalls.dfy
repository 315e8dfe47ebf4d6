/** When a reconcile of an interaction can start. An intent is pending for the
    version it observed; an in-order command that moves the head past it overtakes it
    (internal/participationpg/store.go:91-92, 376-380), and nothing ever closes it. */
module ParticipationStalls {
  import opened Ledgers
  import opened ParticipationTables
  import opened ParticipationMachine
  import opened ParticipationTheorems

  predicate Overtaken(db: Db, k: Key, t: TokenKey) {
    PendingFor(db, k, t) && db.intents[t].intent.observed < HeadOf(db, k).version
  }

  /** No intent of the interaction was started, closed or changed. */
  ghost predicate SameIntents(db: Db, db': Db, k: Key) {
    forall t :: (IntentOf(db, k, t) <==> IntentOf(db', k, t)) && (IntentOf(db, k, t) ==> db'.intents[t] == db.intents[t])
  }

  predicate IntentOf(db: Db, k: Key, t: TokenKey) {
    t in db.intents && db.intents[t].intent.key == k
  }

  predicate Started(tx: Tx<Db>) {
    tx.Committed? && tx.ok
  }

  // ------------------------------------------------------- one transaction

  /** The pending intent is the overtaken one, so no proposal meets it. */
  lemma OvertakenBars(c: Codec, db: Db, k: Key, t: TokenKey, intent: Intent, held: Record)
    requires Queues(c, db) && Overtaken(db, k, t) && intent.key == k
    ensures !Started(BeginTx(db, intent, held).0) && After(db, BeginTx(db, intent, held).0) == db
  {
    if HeadOf(db, k).version == intent.observed {
      var p :| PendingFor(db, intent.key, p);
      forall q | PendingFor(db, k, q) ensures q == t {
        assert OnePending(db, t, q);
      }
    }
  }

  lemma BeginElsewhere(db: Db, k: Key, intent: Intent, held: Record)
    requires intent.key != k
    ensures SameIntents(db, After(db, BeginTx(db, intent, held).0), k)
  {
  }

  /** Closing needs the intent to have observed the present head. */
  lemma CloseElsewhere(c: Codec, db: Db, db1: Db, k: Key, t: TokenKey, intent: Intent, status: IntentStatus, input: InputStatus)
    requires Queues(c, db) && Overtaken(db, k, t) && Locks(db, intent) && db1.intents == db.intents
    ensures SameIntents(db, Complete(db1, intent, status, input), k)
  {
    assert OnePending(db, t, TokenKey(intent.key.tenant, intent.token));
  }

  lemma CommitElsewhere(c: Codec, w: World, p: nat, k: Key, t: TokenKey)
    requires Queues(c, w.db) && Overtaken(w.db, k, t)
    ensures SameIntents(w.db, DoCommit(w, p, Proc(w, p)).db, k)
  {
    var db := w.db;
    match Proc(w, p)
    case Resolving(_, _, records, final, intent) => ReplayElsewhere(c, db, k, t, intent, records, final);
    case Recording(_, intent, replayed) => HistoricalElsewhere(c, db, k, t, intent, replayed);
    case Replacing(record, intent, fold) => SnapshotElsewhere(c, db, k, t, intent, fold, record);
    case Failing(record, intent) => FailElsewhere(c, db, k, t, intent, record);
    case _ =>
  }

  lemma ReplayElsewhere(c: Codec, db: Db, k: Key, t: TokenKey, intent: Intent, records: seq<Record>, final: Fold)
    requires Queues(c, db) && Overtaken(db, k, t)
    ensures SameIntents(db, After(db, ReconcileTx(db, intent, records, final)), k)
  {
    if Locks(db, intent) && InstallRecords(db, records, final).Some? {
      CloseElsewhere(c, db, InstallRecords(db, records, final).value, k, t, intent, Installed, Settled);
    }
  }

  lemma HistoricalElsewhere(c: Codec, db: Db, k: Key, t: TokenKey, intent: Intent, record: Record)
    requires Queues(c, db) && Overtaken(db, k, t)
    ensures SameIntents(db, After(db, HistoricalTx(db, intent, record)), k)
  {
    var l := Insert(db.ledger, SlotOf(record), record.id);
    if Locks(db, intent) && l.Some? {
      CloseElsewhere(c, db, db.(ledger := l.value), k, t, intent, Installed, Settled);
    }
  }

  lemma SnapshotElsewhere(c: Codec, db: Db, k: Key, t: TokenKey, intent: Intent, fold: Fold, held: Record)
    requires Queues(c, db) && Overtaken(db, k, t)
    ensures SameIntents(db, After(db, SnapshotTx(db, intent, fold, held)), k)
  {
    var l := Insert(db.ledger, Slot(intent.key, fold.version), fold.id);
    if Locks(db, intent) && l.Some? {
      var db1 := db.(ledger := l.value, rows := RowsReplaced(db.rows, intent.key, fold),
                     heads := db.heads[intent.key := HeadRow(fold.version, fold.id, fold.provenance)],
                     dlq := db.dlq + {Audit(intent.key, held.id.eventId, UnknownHistory)});
      CloseElsewhere(c, db, db1, k, t, intent, Audited, DeadLettered);
    }
  }

  lemma FailElsewhere(c: Codec, db: Db, k: Key, t: TokenKey, intent: Intent, held: Record)
    requires Queues(c, db) && Overtaken(db, k, t)
    ensures SameIntents(db, After(db, FailTx(db, intent, held)), k)
  {
    var e := EventKey(intent.key.tenant, held.id.eventId);
    if Locks(db, intent) && e in db.inputs {
      var db1 := db.(inputs := db.inputs[e := db.inputs[e].(attempts := db.inputs[e].attempts + 1)],
                     dlq := db.dlq + {Audit(intent.key, held.id.eventId, Exhausted)});
      CloseElsewhere(c, db, db1, k, t, intent, Audited, DeadLettered);
    }
  }

  // ------------------------------------------------------- any continuation

  lemma BeginStalls(c: Codec, w: World, p: nat, token: string, k: Key, t: TokenKey)
    requires Queues(c, w.db) && Overtaken(w.db, k, t) && Proc(w, p).Reconciling?
    ensures var pc := Proc(w, p); SameIntents(w.db, DoBegin(w, p, pc.record, pc.fold, pc.historical, token).db, k)
  {
    var pc := Proc(w, p);
    var intent := Proposed(pc.record, pc.fold.version, pc.historical, token);
    if intent.key == k {
      OvertakenBars(c, w.db, k, t, intent, pc.record);
    } else {
      BeginElsewhere(w.db, k, intent, pc.record);
    }
  }

  lemma StepSameIntents(c: Codec, w: World, step: Step, k: Key, t: TokenKey)
    requires Queues(c, w.db) && Overtaken(w.db, k, t)
    ensures SameIntents(w.db, Apply(c, w, step).db, k)
  {
    match step
    case Begin(p, token) => if Proc(w, p).Reconciling? { BeginStalls(c, w, p, token, k, t); }
    case Commit(p) => CommitElsewhere(c, w, p, k, t);
    case _ =>
  }

  lemma StepStalls(c: Codec, w: World, step: Step, k: Key, t: TokenKey)
    requires CodecOk(c) && WorldOk(c, w) && Overtaken(w.db, k, t)
    ensures SameIntents(w.db, Apply(c, w, step).db, k) && Overtaken(Apply(c, w, step).db, k, t)
  {
    StepSameIntents(c, w, step, k, t);
    ApplyKeeps(c, w, step);
    StillOvertaken(w.db, Apply(c, w, step).db, k, t);
  }

  lemma StillOvertaken(db: Db, db': Db, k: Key, t: TokenKey)
    requires Overtaken(db, k, t) && SameIntents(db, db', k) && Grows(db, db')
    ensures Overtaken(db', k, t)
  {
    assert FoldMoves(Stored(db, k), Stored(db', k));
    assert IntentOf(db, k, t);
  }

  /** Once a pending intent has been overtaken, no reconcile of that interaction is
      ever started or finished again, in any continuation by anyone. */
  lemma {:induction false} StalledForever(c: Codec, steps: seq<Step>, more: seq<Step>, k: Key, t: TokenKey)
    requires CodecOk(c) && Overtaken(Run(c, steps).db, k, t)
    ensures Overtaken(Run(c, steps + more).db, k, t) && SameIntents(Run(c, steps).db, Run(c, steps + more).db, k)
    decreases |more|
  {
    if more == [] {
      assert steps + more == steps;
    } else {
      var all, init := steps + more, more[..|more| - 1];
      assert all[..|all| - 1] == steps + init && all[|all| - 1] == more[|more| - 1];
      StalledForever(c, steps, init, k, t);
      RunKeeps(c, steps + init);
      StepStalls(c, Run(c, steps + init), more[|more| - 1], k, t);
      SameIntentsTransitive(Run(c, steps).db, Run(c, steps + init).db, Run(c, all).db, k);
    }
  }

  lemma SameIntentsTransitive(a: Db, b: Db, d: Db, k: Key)
    requires SameIntents(a, b, k) && SameIntents(b, d, k)
    ensures SameIntents(a, d, k)
  {
    forall t ensures (IntentOf(a, k, t) <==> IntentOf(d, k, t)) && (IntentOf(a, k, t) ==> d.intents[t] == a.intents[t]) {
      assert IntentOf(a, k, t) <==> IntentOf(b, k, t);
      assert IntentOf(b, k, t) <==> IntentOf(d, k, t);
    }
  }

  // ------------------------------------------------------- when one can start

  /** Some command of the interaction would start or join a reconcile now. */
  ghost predicate CanStart(c: Codec, db: Db, k: Key) {
    exists command: Command, historical, token :: command.key == k && Starts(c, db, command, historical, token)
  }

  ghost predicate Starts(c: Codec, db: Db, command: Command, historical: bool, token: string) {
    var record := RecordOf(c, command);
    Started(BeginTx(db, Proposed(record, HeadOf(db, command.key).version, historical, token), record).0)
  }

  /** An intent never observed more than the head. */
  predicate Observed(db: Db, t: TokenKey) {
    t in db.intents ==> db.intents[t].intent.observed <= HeadOf(db, db.intents[t].intent.key).version
  }

  lemma BeginObserves(db: Db, intent: Intent, held: Record, t: TokenKey)
    requires Observed(db, t)
    ensures Observed(After(db, BeginTx(db, intent, held).0), t)
  {
  }

  lemma CommitStartsNone(w: World, p: nat)
    ensures DoCommit(w, p, Proc(w, p)).db.intents.Keys == w.db.intents.Keys
  {
    var db := w.db;
    match Proc(w, p)
    case Resolving(_, _, records, final, intent) =>
      if Locks(db, intent) && InstallRecords(db, records, final).Some? {
        assert InstallRecords(db, records, final).value.intents == db.intents;
      }
    case Replacing(record, intent, fold) => SnapshotStartsNone(db, intent, fold, record);
    case Failing(record, intent) => FailStartsNone(db, intent, record);
    case _ =>
  }

  lemma SnapshotStartsNone(db: Db, intent: Intent, fold: Fold, held: Record)
    ensures After(db, SnapshotTx(db, intent, fold, held)).intents.Keys == db.intents.Keys
  {
  }

  lemma FailStartsNone(db: Db, intent: Intent, held: Record)
    ensures After(db, FailTx(db, intent, held)).intents.Keys == db.intents.Keys
  {
  }

  lemma NoOtherStarts(c: Codec, w: World, step: Step)
    requires !step.Begin?
    ensures Apply(c, w, step).db.intents.Keys == w.db.intents.Keys
  {
    if step.Commit? {
      CommitStartsNone(w, step.p);
    }
  }

  lemma StepObserves(c: Codec, w: World, step: Step, t: TokenKey)
    requires CodecOk(c) && WorldOk(c, w) && Observed(w.db, t)
    ensures Observed(Apply(c, w, step).db, t)
  {
    var db, db' := w.db, Apply(c, w, step).db;
    if step.Begin? {
      var pc := Proc(w, step.p);
      if pc.Reconciling? {
        BeginObserves(db, Proposed(pc.record, pc.fold.version, pc.historical, step.token), pc.record, t);
      }
    } else if t in db'.intents {
      NoOtherStarts(c, w, step);
      ApplyKeeps(c, w, step);
      var k := db.intents[t].intent.key;
      assert RowMoves(db.intents[t], db'.intents[t]) && FoldMoves(Stored(db, k), Stored(db', k));
    }
  }

  lemma {:induction false} ObservedAlways(c: Codec, steps: seq<Step>, t: TokenKey)
    requires CodecOk(c)
    ensures Observed(Run(c, steps).db, t)
  {
    if steps != [] {
      var before := steps[..|steps| - 1];
      ObservedAlways(c, before, t);
      RunKeeps(c, before);
      StepObserves(c, Run(c, before), steps[|steps| - 1], t);
    }
  }

  lemma StartsAfresh(c: Codec, db: Db, k: Key)
    requires !SomePending(db, k)
    ensures CanStart(c, db, k)
  {
    var events := set e | e in db.inputs :: e.eventId;
    var versions := set e | e in db.inputs :: db.inputs[e].slot.version;
    var tokens := set t | t in db.intents :: t.token;
    var event := Unused(events);
    var token := Unused(tokens);
    var version := VersionBound(versions);
    var command := Command(event, k, "", version + 1, Assigned, "");
    forall e | e in db.inputs ensures e.eventId != event && db.inputs[e].slot.version <= version {
      assert e.eventId in events && db.inputs[e].slot.version in versions;
    }
    forall t | t in db.intents ensures t.token != token {
      assert t.token in tokens;
    }
    assert Starts(c, db, command, false, token);
  }

  lemma StartsByJoining(c: Codec, db: Db, k: Key, t: TokenKey)
    requires Queues(c, db) && PendingFor(db, k, t) && db.intents[t].intent.observed == HeadOf(db, k).version
    ensures CanStart(c, db, k)
  {
    assert IntentOk(c, db, t);
    var command :| AskedFor(c, db.intents[t].intent, command);
    forall q | PendingFor(db, k, q) ensures q == t {
      assert OnePending(db, t, q);
    }
    assert Starts(c, db, command, false, t.token);
  }

  /** In every run: a reconcile of the interaction can start exactly if none of its
      pending intents has been overtaken. */
  lemma {:induction false} CanStartIffNotOvertaken(c: Codec, steps: seq<Step>, k: Key)
    requires CodecOk(c)
    ensures CanStart(c, Run(c, steps).db, k) <==> forall t :: !Overtaken(Run(c, steps).db, k, t)
  {
    var db := Run(c, steps).db;
    RunKeeps(c, steps);
    if t :| Overtaken(db, k, t) {
      forall command: Command, historical, token | command.key == k ensures !Starts(c, db, command, historical, token) {
        OvertakenBars(c, db, k, t, Proposed(RecordOf(c, command), HeadOf(db, k).version, historical, token), RecordOf(c, command));
      }
    } else if t :| PendingFor(db, k, t) {
      ObservedAlways(c, steps, t);
      assert Observed(db, t) && !Overtaken(db, k, t);
      StartsByJoining(c, db, k, t);
    } else {
      StartsAfresh(c, db, k);
    }
  }

  /** In no continuation can a reconcile of the interaction start. */
  ghost predicate Stalled(c: Codec, steps: seq<Step>, k: Key) {
    forall more :: !CanStart(c, Run(c, steps + more).db, k)
  }

  lemma {:induction false} NeverAgain(c: Codec, steps: seq<Step>, k: Key, t: TokenKey)
    requires CodecOk(c) && Overtaken(Run(c, steps).db, k, t)
    ensures Stalled(c, steps, k)
  {
    forall more ensures !CanStart(c, Run(c, steps + more).db, k) {
      StalledForever(c, steps, more, k, t);
      CanStartIffNotOvertaken(c, steps + more, k);
    }
  }

  // ------------------------------------------------------- a run that stalls

  ghost predicate Reachable(c: Codec, w: World) {
    exists steps :: Run(c, steps) == w
  }

  lemma {:induction false} Steps(c: Codec, w: World, step: Step)
    requires Reachable(c, w)
    ensures Reachable(c, Apply(c, w, step))
  {
    var before :| Run(c, before) == w;
    var steps := before + [step];
    assert steps[..|steps| - 1] == before;
    assert Run(c, steps) == Apply(c, w, step);
  }

  predicate OutOfOrder(c: Codec, first: Command, gap: Command) {
    Acceptable(c, first) && Acceptable(c, gap) && first.key == gap.key && first.version == 1 && gap.version > 1
  }

  /** The command that finds a gap opens an intent at version 0. */
  lemma OpensIntent(c: Codec, gap: Command, token: string) returns (w: World)
    requires Acceptable(c, gap) && gap.version > 1
    ensures Reachable(c, w) && PendingFor(w.db, gap.key, TokenKey(gap.key.tenant, token))
    ensures w.db.intents[TokenKey(gap.key.tenant, token)].intent.observed == 0
    ensures w.db.heads == map[] && w.db.rows == map[] && w.db.ledger == EMPTY_LEDGER && w.procs.Keys == {0}
  {
    var grant := Grant(gap.key.tenant, "s", "Corex-participation-write", "");
    assert Run(c, []) == INITIAL;
    var w1 := Apply(c, INITIAL, Start(0, grant, gap));
    Steps(c, INITIAL, Start(0, grant, gap));
    var w2 := Apply(c, w1, Read(0));
    Steps(c, w1, Read(0));
    var w3 := Apply(c, w2, Choose(0));
    Steps(c, w2, Choose(0));
    assert Proc(w3, 0).Reconciling? && w3.db == INITIAL.db;
    w := Apply(c, w3, Begin(0, token));
    Steps(c, w3, Begin(0, token));
  }

  /** And the first command, at another projector, installs at once. */
  lemma InstallsFirst(c: Codec, w: World, first: Command) returns (w': World)
    requires Reachable(c, w) && Acceptable(c, first) && first.version == 1 && Proc(w, 1).Idle?
    requires w.db.heads == map[] && w.db.rows == map[] && w.db.ledger == EMPTY_LEDGER
    ensures Reachable(c, w') && w'.db.intents == w.db.intents && HeadOf(w'.db, first.key).version == 1
  {
    var grant := Grant(first.key.tenant, "s", "Corex-participation-write", "");
    var record := RecordOf(c, first);
    var w1 := Apply(c, w, Start(1, grant, first));
    Steps(c, w, Start(1, grant, first));
    var w2 := Apply(c, w1, Read(1));
    Steps(c, w1, Read(1));
    var w3 := Apply(c, w2, Choose(1));
    Steps(c, w2, Choose(1));
    assert [record][1..] == [];
    assert Folded(Proc(w2, 1).fold, [record]) == Some(Next(Proc(w2, 1).fold, record));
    assert Proc(w3, 1).Installing? && w3.db == w.db;
    assert Insert(EMPTY_LEDGER, SlotOf(record), record.id).Some?;
    assert InstallRows(Pages(w.db.ledger, w.db.rows), [record]).Some?;
    w' := Apply(c, w3, Commit(1));
    Steps(c, w3, Commit(1));
  }

  /** Two commands of any interaction that arrive out of order at two projectors: the
      second opens an intent for the gap, the first installs in order, and from then on
      no reconcile of that interaction ever starts. */
  lemma {:induction false} OutOfOrderStalls(c: Codec, first: Command, gap: Command, token: string)
    requires CodecOk(c) && OutOfOrder(c, first, gap)
    ensures exists steps :: Overtaken(Run(c, steps).db, gap.key, TokenKey(gap.key.tenant, token)) && Stalled(c, steps, gap.key)
  {
    var w := OpensIntent(c, gap, token);
    var w' := InstallsFirst(c, w, first);
    assert Overtaken(w'.db, gap.key, TokenKey(gap.key.tenant, token));
    var steps :| Run(c, steps) == w';
    NeverAgain(c, steps, gap.key, TokenKey(gap.key.tenant, token));
  }
}
