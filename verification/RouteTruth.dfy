/** Route projectors fed from one dense history per interaction: in any order,
    with repeats and gaps, by any number of projectors. */
module RouteTruth {
  import opened Ledgers
  import opened RouteProjection
  import opened RouteMachine
  import opened RouteSafety
  import opened RouteTheorems

  type History = Key -> seq<RouteFact>

  ghost predicate HistoryOk(c: Codec, h: History) {
    forall k {:trigger h(k)} :: Dense(c, k, 0, h(k)) && Representable(h(k))
  }

  /** The projection of the first `n` facts. */
  function At(c: Codec, h: History, k: Key, n: nat): Head
    requires n <= |h(k)|
  {
    match Folded(c, k, EMPTY, h(k)[..n])
    case None => EMPTY
    case Some(head) => head
  }

  lemma {:induction false} AtVersion(c: Codec, h: History, k: Key, n: nat)
    requires HistoryOk(c, h) && n <= |h(k)|
    ensures Folded(c, k, EMPTY, h(k)[..n]).Some? && At(c, h, k, n).version == n
    ensures n > 0 ==> Ends(c, At(c, h, k, n), h(k)[n - 1])
  {
    var facts := h(k)[..n];
    assert Dense(c, k, 0, h(k));
    assert Dense(c, k, 0, facts) by {
      forall i | 0 <= i < |facts| ensures ValidFact(c, facts[i]) && facts[i].version == 0 + 1 + i && facts[i].key == k {
        assert facts[i] == h(k)[i];
      }
    }
    FoldIffDense(c, k, EMPTY, facts);
    if n > 0 {
      FoldEnds(c, k, EMPTY, facts);
    }
  }

  /** Any stretch of history carries one projection to the next. */
  lemma {:induction false} AtSplits(c: Codec, h: History, k: Key, n: nat, m: nat)
    requires HistoryOk(c, h) && n <= m <= |h(k)|
    ensures Folded(c, k, At(c, h, k, n), h(k)[n..m]) == Some(At(c, h, k, m))
  {
    AtVersion(c, h, k, n);
    AtVersion(c, h, k, m);
    assert h(k)[..m] == h(k)[..n] + h(k)[n..m];
    FoldSplits(c, k, EMPTY, h(k)[..n], h(k)[n..m]);
  }

  predicate TrueHead(c: Codec, h: History, k: Key, head: Head) {
    head.version <= |h(k)| && head == At(c, h, k, head.version)
  }

  predicate TrueFact(h: History, fact: RouteFact) {
    0 < fact.version <= |h(fact.key)| && fact == h(fact.key)[fact.version - 1]
  }

  predicate TrueRow(c: Codec, h: History, s: Slot, id: Identity) {
    0 < s.version <= |h(s.key)| && id == IdOf(c, h(s.key)[s.version - 1])
  }

  ghost predicate TrueLedger(c: Codec, h: History, l: Ledger) {
    forall s :: s in l.versions ==> TrueRow(c, h, s, l.versions[s])
  }

  ghost predicate TrueDb(c: Codec, h: History, db: Db) {
    && (forall k {:trigger HeadOf(db, k)} :: TrueHead(c, h, k, HeadOf(db, k)))
    && TrueLedger(c, h, db.ledger)
    && (forall p :: p in db.dlq ==> !p.reason.Divergent?)
  }

  ghost predicate TruePc(c: Codec, h: History, pc: Pc) {
    match pc
    case Idle => true
    case Loading(fact, loaded) => TrueFact(h, fact) && TrueHead(c, h, fact.key, loaded)
    case Checking(fact, loaded) => TrueFact(h, fact) && TrueHead(c, h, fact.key, loaded)
    case Installing(fact, expected, facts, final, _) =>
      && TrueFact(h, fact) && final.version <= |h(fact.key)| && expected <= final.version
      && facts == h(fact.key)[expected..final.version] && TrueHead(c, h, fact.key, final)
    case Reconciling(fact, loaded, _) => TrueFact(h, fact) && TrueHead(c, h, fact.key, loaded)
    case Awaiting(fact, loaded, _, _) => TrueFact(h, fact) && TrueHead(c, h, fact.key, loaded)
    case WantSnapshot(fact, _) => TrueFact(h, fact)
    case Recording(fact, _, replayed) => TrueFact(h, fact) && replayed == fact
    case Replacing(fact, _, snapshot) => TrueFact(h, fact) && TrueHead(c, h, fact.key, snapshot.head)
    case Poisoning(_) => false
  }

  ghost predicate TrueWorld(c: Codec, h: History, w: World) {
    && TrueDb(c, h, w.db)
    && (forall p {:trigger Proc(w, p)} :: TruePc(c, h, Proc(w, p)))
    && (forall r :: r in w.replies ==> !r.result.Poisoned?)
  }

  predicate Stretch(h: History, k: Key, n: nat, m: nat, facts: seq<RouteFact>) {
    n <= m <= |h(k)| && facts == h(k)[n..m]
  }

  /** Facts, replays and snapshots come from the history: a replay starts where
      it was asked to and reaches the held fact, and a snapshot is no older than
      what was observed. */
  ghost predicate Truthful(c: Codec, h: History, w: World, step: Step) {
    match step
    case Start(_, fact) => TrueFact(h, fact)
    case Replay(p, Facts(facts, routerHead)) =>
      var pc := Proc(w, p);
      pc.Awaiting? ==>
        if pc.historical then facts == [pc.fact]
        else exists m: nat :: Stretch(h, pc.fact.key, pc.loaded.version, m, facts) && pc.fact.version <= m <= routerHead
    case Snap(p, Some(s)) =>
      var pc := Proc(w, p);
      pc.WantSnapshot? ==>
        && s.key == pc.fact.key && TrueHead(c, h, s.key, s.head) && s.head.version > 0
        && pc.intent.observed <= s.head.version && 0 < s.historyFloor <= s.head.version && s.provenance != ""
    case _ => true
  }

  ghost predicate TruthfulRun(c: Codec, h: History, steps: seq<Step>) {
    forall i :: 0 <= i < |steps| ==> Truthful(c, h, Run(c, steps[..i]), steps[i])
  }

  // ------------------------------------------------------------------ steps

  lemma TrueStep(c: Codec, h: History, w: World, w': World, p: nat)
    requires TrueWorld(c, h, w) && TrueDb(c, h, w'.db)
    requires p in w'.procs && w'.procs == w.procs[p := w'.procs[p]] && TruePc(c, h, w'.procs[p])
    requires forall r :: r in w'.replies && r !in w.replies ==> !r.result.Poisoned?
    ensures TrueWorld(c, h, w')
  {
    forall q: nat ensures TruePc(c, h, Proc(w', q)) {
      assert TruePc(c, h, Proc(w, q));
    }
  }

  lemma {:induction false} InsertKeepsTruth(c: Codec, h: History, l: Ledger, facts: seq<RouteFact>)
    requires TrueLedger(c, h, l) && InsertFacts(c, l, facts).Some?
    requires forall i :: 0 <= i < |facts| ==> TrueFact(h, facts[i])
    ensures TrueLedger(c, h, InsertFacts(c, l, facts).value)
    decreases |facts|
  {
    if facts != [] {
      assert TrueFact(h, facts[0]);
      InsertKeepsTruth(c, h, Insert(l, SlotOf(facts[0]), IdOf(c, facts[0])).value, facts[1..]);
    }
  }

  lemma StretchIsTrue(c: Codec, h: History, k: Key, n: nat, m: nat)
    requires HistoryOk(c, h) && n <= m <= |h(k)|
    ensures forall i :: 0 <= i < m - n ==> TrueFact(h, h(k)[n..m][i]) && h(k)[n..m][i].key == k
  {
    assert Dense(c, k, 0, h(k));
    forall i | 0 <= i < m - n ensures TrueFact(h, h(k)[n..m][i]) && h(k)[n..m][i].key == k {
      assert h(k)[n..m][i] == h(k)[n + i] && h(k)[n + i].version == n + i + 1;
    }
  }

  lemma InstallKeepsTruth(c: Codec, h: History, db: Db, pc: Pc)
    requires HistoryOk(c, h) && TrueDb(c, h, db) && pc.Installing? && TruePc(c, h, pc)
    ensures TrueDb(c, h, After(db, InstallBatchTx(c, db, pc.fact.key, pc.expected, pc.facts, pc.final, pc.token)))
  {
    var tx := InstallBatchTx(c, db, pc.fact.key, pc.expected, pc.facts, pc.final, pc.token);
    if tx.Committed? && tx.ok {
      StretchIsTrue(c, h, pc.fact.key, pc.expected, pc.final.version);
      InsertKeepsTruth(c, h, db.ledger, pc.facts);
      forall k ensures TrueHead(c, h, k, HeadOf(tx.db, k)) {
        assert TrueHead(c, h, k, HeadOf(db, k));
      }
    }
  }

  lemma FinishKeepsTruth(c: Codec, h: History, w: World, p: nat, fact: RouteFact, tx: Tx<Db>, result: Result)
    requires TrueWorld(c, h, w) && TrueDb(c, h, After(w.db, tx)) && !result.Poisoned?
    ensures TrueWorld(c, h, Finish(w, p, fact, tx, result))
  {
    TrueStep(c, h, w, Finish(w, p, fact, tx, result), p);
  }

  lemma CommitKeepsTruth(c: Codec, h: History, w: World, p: nat)
    requires HistoryOk(c, h) && WorldOk(c, w) && TrueWorld(c, h, w)
    ensures TrueWorld(c, h, DoCommit(c, w, p, Proc(w, p)))
  {
    var pc := Proc(w, p);
    match pc
    case Installing(fact, expected, facts, final, token) =>
      InstallKeepsTruth(c, h, w.db, pc);
      FinishKeepsTruth(c, h, w, p, fact, InstallBatchTx(c, w.db, fact.key, expected, facts, final, token), Applied);
    case Recording(fact, intent, replayed) =>
      HistoricalKeepsTruth(c, h, w.db, fact, intent);
      FinishKeepsTruth(c, h, w, p, fact, HistoricalTx(c, w.db, intent, replayed), Duplicate);
    case Replacing(fact, intent, snapshot) =>
      SnapshotKeepsTruth(c, h, w.db, fact, intent, snapshot);
      FinishKeepsTruth(c, h, w, p, fact, SnapshotTx(w.db, intent, snapshot, fact), AuditedUnknownHistory);
    case _ =>
  }

  lemma HistoricalKeepsTruth(c: Codec, h: History, db: Db, fact: RouteFact, intent: Intent)
    requires TrueDb(c, h, db) && TrueFact(h, fact)
    ensures TrueDb(c, h, After(db, HistoricalTx(c, db, intent, fact)))
  {
    var tx := HistoricalTx(c, db, intent, fact);
    if tx.Committed? {
      forall k ensures TrueHead(c, h, k, HeadOf(tx.db, k)) {
        assert TrueHead(c, h, k, HeadOf(db, k));
      }
    }
  }

  lemma TrueHeadRow(c: Codec, h: History, k: Key, head: Head)
    requires HistoryOk(c, h) && TrueHead(c, h, k, head) && head.version > 0
    ensures TrueRow(c, h, Slot(k, head.version), Identity(head.eventId, head.hash))
  {
    AtVersion(c, h, k, head.version);
  }

  lemma SnapshotKeepsTruth(c: Codec, h: History, db: Db, fact: RouteFact, intent: Intent, snapshot: Snapshot)
    requires HistoryOk(c, h) && TrueDb(c, h, db) && intent.key == fact.key
    requires TrueHead(c, h, fact.key, snapshot.head) && snapshot.head.version > 0
    ensures TrueDb(c, h, After(db, SnapshotTx(db, intent, snapshot, fact)))
  {
    var tx := SnapshotTx(db, intent, snapshot, fact);
    TrueHeadRow(c, h, fact.key, snapshot.head);
    if tx.Committed? && tx.ok {
      forall k ensures TrueHead(c, h, k, HeadOf(tx.db, k)) {
        if k != fact.key {
          assert HeadOf(tx.db, k) == HeadOf(db, k);
        }
      }
      assert TrueLedger(c, h, tx.db.ledger);
    }
  }

  lemma TrueFactIsValid(c: Codec, h: History, fact: RouteFact)
    requires HistoryOk(c, h) && TrueFact(h, fact)
    ensures ValidFact(c, fact)
  {
    assert Dense(c, fact.key, 0, h(fact.key));
  }

  lemma StartKeepsTruth(c: Codec, h: History, w: World, p: nat, fact: RouteFact)
    requires HistoryOk(c, h) && TrueWorld(c, h, w) && TrueFact(h, fact)
    ensures TrueWorld(c, h, DoStart(c, w, p, fact))
  {
    TrueFactIsValid(c, h, fact);
    assert TrueHead(c, h, fact.key, HeadOf(w.db, fact.key));
    TrueStep(c, h, w, DoStart(c, w, p, fact), p);
  }

  lemma ChooseKeepsTruth(c: Codec, h: History, w: World, p: nat)
    requires TrueWorld(c, h, w) && Proc(w, p).Loading?
    ensures TrueWorld(c, h, DoChoose(c, w, p, Proc(w, p).fact, Proc(w, p).loaded))
  {
    var fact, loaded := Proc(w, p).fact, Proc(w, p).loaded;
    assert TruePc(c, h, Proc(w, p));
    if SlotOf(fact) in w.db.ledger.versions {
      assert TrueRow(c, h, SlotOf(fact), w.db.ledger.versions[SlotOf(fact)]);
    }
    TrueStep(c, h, w, DoChoose(c, w, p, fact, loaded), p);
  }

  lemma CheckKeepsTruth(c: Codec, h: History, w: World, p: nat)
    requires HistoryOk(c, h) && WorldOk(c, w) && TrueWorld(c, h, w) && Proc(w, p).Checking?
    ensures TrueWorld(c, h, DoCheck(c, w, p, Proc(w, p).fact, Proc(w, p).loaded))
  {
    var fact, loaded := Proc(w, p).fact, Proc(w, p).loaded;
    assert TruePc(c, h, Proc(w, p)) && ProcOk(c, w.db, Proc(w, p));
    assert [fact] == h(fact.key)[loaded.version..fact.version];
    AtSplits(c, h, fact.key, loaded.version, fact.version);
    AtVersion(c, h, fact.key, fact.version);
    TrueStep(c, h, w, DoCheck(c, w, p, fact, loaded), p);
  }

  lemma BeginKeepsTruth(c: Codec, h: History, w: World, p: nat, token: string)
    requires TrueWorld(c, h, w) && Proc(w, p).Reconciling?
    ensures var pc := Proc(w, p); TrueWorld(c, h, DoBegin(c, w, p, pc.fact, pc.loaded, pc.historical, token))
  {
    var pc := Proc(w, p);
    assert TruePc(c, h, pc);
    var w' := DoBegin(c, w, p, pc.fact, pc.loaded, pc.historical, token);
    assert w'.db == w.db.(intents := w'.db.intents);
    forall k ensures TrueHead(c, h, k, HeadOf(w'.db, k)) {
      assert TrueHead(c, h, k, HeadOf(w.db, k));
    }
    TrueStep(c, h, w, w', p);
  }

  lemma {:induction false} GapFolds(c: Codec, h: History, fact: RouteFact, n: nat, m: nat, facts: seq<RouteFact>, routerHead: nat)
    requires HistoryOk(c, h) && TrueFact(h, fact) && Stretch(h, fact.key, n, m, facts) && n < fact.version <= m <= routerHead
    ensures Folded(c, fact.key, At(c, h, fact.key, n), facts) == Some(At(c, h, fact.key, m))
    ensures At(c, h, fact.key, m).version == m && Covers(c, fact, facts, routerHead)
    ensures forall i :: 0 <= i < |facts| ==> facts[i].key == fact.key
  {
    StretchIsTrue(c, h, fact.key, n, m);
    AtSplits(c, h, fact.key, n, m);
    AtVersion(c, h, fact.key, m);
    assert facts[fact.version - 1 - n] == h(fact.key)[fact.version - 1];
    assert Same(c, facts[fact.version - 1 - n], fact);
    assert facts[|facts| - 1] == h(fact.key)[m - 1] && Ends(c, At(c, h, fact.key, m), h(fact.key)[m - 1]);
  }

  lemma GapKeepsTruth(c: Codec, h: History, w: World, p: nat, facts: seq<RouteFact>, routerHead: nat)
    requires HistoryOk(c, h) && WorldOk(c, w) && TrueWorld(c, h, w) && Proc(w, p).Awaiting? && !Proc(w, p).historical
    requires Truthful(c, h, w, Replay(p, Facts(facts, routerHead)))
    ensures var pc := Proc(w, p); TrueWorld(c, h, DoGap(c, w, p, pc.fact, pc.loaded, pc.intent, facts, routerHead))
  {
    var pc := Proc(w, p);
    assert TruePc(c, h, pc) && ProcOk(c, w.db, pc);
    var m: nat :| Stretch(h, pc.fact.key, pc.loaded.version, m, facts) && pc.fact.version <= m <= routerHead;
    GapFolds(c, h, pc.fact, pc.loaded.version, m, facts, routerHead);
    if !AllBound(w.db, facts) {
      TrueStep(c, h, w, To(w, p, Idle), p);
    } else {
      var next := Installing(pc.fact, pc.loaded.version, facts, At(c, h, pc.fact.key, m), Some(pc.intent.token));
      assert TruePc(c, h, next);
      TrueStep(c, h, w, To(w, p, next), p);
    }
  }

  lemma ReplayKeepsTruth(c: Codec, h: History, w: World, p: nat, answer: Answer)
    requires HistoryOk(c, h) && WorldOk(c, w) && TrueWorld(c, h, w) && Proc(w, p).Awaiting?
    requires Truthful(c, h, w, Replay(p, answer))
    ensures TrueWorld(c, h, DoReplay(c, w, p, Proc(w, p), answer))
  {
    var pc := Proc(w, p);
    assert TruePc(c, h, pc) && ProcOk(c, w.db, pc);
    match answer
    case RouterError => TrueStep(c, h, w, To(w, p, Idle), p);
    case HistoryUnknown => TrueStep(c, h, w, To(w, p, WantSnapshot(pc.fact, pc.intent)), p);
    case Facts(facts, routerHead) =>
      if !Representable(facts) {
      } else if pc.historical {
        TrueStep(c, h, w, DoHistorical(c, w, p, pc.fact, pc.intent, facts), p);
      } else {
        GapKeepsTruth(c, h, w, p, facts, routerHead);
      }
  }

  lemma SnapKeepsTruth(c: Codec, h: History, w: World, p: nat, snapshot: Option<Snapshot>)
    requires NonZero(c) && HistoryOk(c, h) && WorldOk(c, w) && TrueWorld(c, h, w) && Proc(w, p).WantSnapshot?
    requires Truthful(c, h, w, Snap(p, snapshot))
    ensures var pc := Proc(w, p); TrueWorld(c, h, DoSnap(c, w, p, pc.fact, pc.intent, snapshot))
  {
    var pc := Proc(w, p);
    assert TruePc(c, h, pc) && ProcOk(c, w.db, pc);
    if snapshot.Some? {
      var s := snapshot.value;
      AtVersion(c, h, s.key, s.head.version);
      var last := h(s.key)[s.head.version - 1];
      assert ValidFact(c, last) by {
        assert Dense(c, s.key, 0, h(s.key));
      }
      assert c.hash(last) != "";
      assert ValidSnapshot(c, s, pc.intent, pc.fact);
    }
    TrueStep(c, h, w, DoSnap(c, w, p, pc.fact, pc.intent, snapshot), p);
  }

  lemma ApplyKeepsTruth(c: Codec, h: History, w: World, step: Step)
    requires NonZero(c) && HistoryOk(c, h) && WorldOk(c, w) && TrueWorld(c, h, w) && Truthful(c, h, w, step)
    ensures TrueWorld(c, h, Apply(c, w, step))
  {
    match step
    case Start(p, fact) => if Proc(w, p).Idle? && Hashable(fact) { StartKeepsTruth(c, h, w, p, fact); }
    case Choose(p) => if Proc(w, p).Loading? { ChooseKeepsTruth(c, h, w, p); }
    case Check(p) => if Proc(w, p).Checking? { CheckKeepsTruth(c, h, w, p); }
    case Begin(p, token) => if Proc(w, p).Reconciling? { BeginKeepsTruth(c, h, w, p, token); }
    case Replay(p, answer) => if Proc(w, p).Awaiting? { ReplayKeepsTruth(c, h, w, p, answer); }
    case Snap(p, snapshot) => if Proc(w, p).WantSnapshot? { SnapKeepsTruth(c, h, w, p, snapshot); }
    case Commit(p) => CommitKeepsTruth(c, h, w, p);
    case Crash(p) => TrueStep(c, h, w, To(w, p, Idle), p);
    case Authorize(a, b) => AuthorizeKeepsTruth(c, h, w, a, b);
  }

  lemma AuthorizeKeepsTruth(c: Codec, h: History, w: World, a: AuthorizationKey, b: Binding)
    requires TrueWorld(c, h, w)
    ensures TrueWorld(c, h, Apply(c, w, Authorize(a, b)))
  {
    var w' := Apply(c, w, Authorize(a, b));
    forall k ensures TrueHead(c, h, k, HeadOf(w'.db, k)) {
      assert TrueHead(c, h, k, HeadOf(w.db, k));
    }
    forall q: nat ensures TruePc(c, h, Proc(w', q)) {
      assert TruePc(c, h, Proc(w, q));
    }
  }

  lemma {:induction false} TruthKept(c: Codec, h: History, steps: seq<Step>)
    requires Faithful(c) && NonZero(c) && HistoryOk(c, h) && TruthfulRun(c, h, steps)
    ensures TrueWorld(c, h, Run(c, steps))
  {
    if steps == [] {
      forall k ensures TrueHead(c, h, k, HeadOf(INITIAL.db, k)) {
        assert h(k)[..0] == [];
      }
    } else {
      var init, last := steps[..|steps| - 1], steps[|steps| - 1];
      forall i | 0 <= i < |init| ensures Truthful(c, h, Run(c, init[..i]), init[i]) {
        assert init[..i] == steps[..i];
      }
      TruthKept(c, h, init);
      RunKeeps(c, init);
      assert Truthful(c, h, Run(c, steps[..|steps| - 1]), steps[|steps| - 1]);
      ApplyKeepsTruth(c, h, Run(c, init), last);
    }
  }

  /** The stored head is always the fold of the history up to its version, and
      no fact of the history is ever poisoned. */
  lemma {:induction false} HeadIsFoldOfHistory(c: Codec, h: History, steps: seq<Step>, k: Key)
    requires Faithful(c) && NonZero(c) && HistoryOk(c, h) && TruthfulRun(c, h, steps)
    ensures var w := Run(c, steps);
            var head := HeadOf(w.db, k);
            && head.version <= |h(k)| && Folded(c, k, EMPTY, h(k)[..head.version]) == Some(head)
            && (forall r :: r in w.replies ==> !r.result.Poisoned?)
            && (forall p :: p in w.db.dlq ==> !p.reason.Divergent?)
  {
    TruthKept(c, h, steps);
    var head := HeadOf(Run(c, steps).db, k);
    AtVersion(c, h, k, head.version);
  }

  predicate ShowsWhileRinging(h: History, db: Db, k: Key, now: int) {
    var v := HeadOf(db, k).version;
    && v <= |h(k)|
    && (Visible(db, k, now) <==> v > 0 && h(k)[v - 1].kind.Ringing? && now < h(k)[v - 1].leaseUntil)
  }

  lemma TrueDbShows(c: Codec, h: History, db: Db, k: Key, now: int)
    requires HistoryOk(c, h) && TrueDb(c, h, db) && now != ZERO_TIME
    ensures ShowsWhileRinging(h, db, k, now)
  {
    AtVersion(c, h, k, HeadOf(db, k).version);
    assert h(k)[..0] == [];
  }

  /** So an interaction shows exactly while its last projected fact rings. */
  lemma {:induction false} VisibleIffRinging(c: Codec, h: History, steps: seq<Step>, k: Key, now: int)
    requires Faithful(c) && NonZero(c) && HistoryOk(c, h) && TruthfulRun(c, h, steps) && now != ZERO_TIME
    ensures ShowsWhileRinging(h, Run(c, steps).db, k, now)
  {
    TruthKept(c, h, steps);
    TrueDbShows(c, h, Run(c, steps).db, k, now);
  }
}
