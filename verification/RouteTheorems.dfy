/** Every run of any number of route projectors. */
module RouteTheorems {
  import opened Ledgers
  import opened RouteProjection
  import opened RouteMachine
  import opened RouteSafety

  // --------------------------------------------------- any router whatever

  /** What a projector carries between its steps. */
  ghost predicate ProcOk(c: Codec, db: Db, pc: Pc) {
    match pc
    case Idle => true
    case Loading(fact, _) => Hashable(fact) && fact.version > 0
    case Checking(fact, loaded) => fact.version == loaded.version + 1
    case Installing(fact, expected, facts, final, _) => Installable(c, db, fact, expected, facts, final)
    case Reconciling(fact, loaded, historical) =>
      Hashable(fact) && fact.version > 0 && (historical <==> fact.version <= loaded.version)
    case Awaiting(fact, loaded, historical, intent) =>
      && Hashable(fact) && fact.version > 0 && (historical <==> fact.version <= loaded.version)
      && intent.key == fact.key && intent.observed == loaded.version
    case WantSnapshot(fact, intent) => intent.key == fact.key
    case Recording(fact, intent, replayed) =>
      && intent.key == fact.key && 0 < fact.version <= intent.observed
      && SlotOf(replayed) == SlotOf(fact) && IdOf(c, replayed) == IdOf(c, fact)
    case Replacing(fact, intent, snapshot) =>
      && intent.key == fact.key && snapshot.head.version > 0 && intent.observed <= snapshot.head.version
      && Vouched(db, intent.key, snapshot.head)
    case Poisoning(_) => true
  }

  predicate ReplyOk(c: Codec, db: Db, r: Reply) {
    && (r.result.Applied? || r.result.Duplicate? ==> Retained(c, db, r.fact))
    && (r.result.AuditedUnknownHistory? ==> Poison(r.fact.key, r.fact.eventId, UnknownHistory) in db.dlq)
  }

  ghost predicate WorldOk(c: Codec, w: World) {
    && TablesOk(w.db)
    && (forall p {:trigger Proc(w, p)} :: ProcOk(c, w.db, Proc(w, p)))
    && (forall r :: r in w.replies ==> ReplyOk(c, w.db, r))
  }

  lemma ProcStable(c: Codec, db: Db, db': Db, pc: Pc)
    requires ProcOk(c, db, pc) && Grows(db, db')
    ensures ProcOk(c, db', pc)
  {
  }

  /** A step by `p` over a database that only grew. */
  lemma StepKeeps(c: Codec, w: World, w': World, p: nat)
    requires WorldOk(c, w) && TablesOk(w'.db) && Grows(w.db, w'.db)
    requires p in w'.procs && w'.procs == w.procs[p := w'.procs[p]] && ProcOk(c, w'.db, w'.procs[p])
    requires forall r :: r in w'.replies && r !in w.replies ==> ReplyOk(c, w'.db, r)
    ensures WorldOk(c, w')
  {
    forall q: nat ensures ProcOk(c, w'.db, Proc(w', q)) {
      if q != p {
        assert ProcOk(c, w.db, Proc(w, q));
        ProcStable(c, w.db, w'.db, Proc(w, q));
        assert Proc(w', q) == Proc(w, q);
      }
    }
    forall r | r in w'.replies ensures ReplyOk(c, w'.db, r) {
      if r in w.replies {
        assert ReplyOk(c, w.db, r);
      }
    }
  }

  lemma GrowsReflexive(db: Db)
    ensures Grows(db, db)
  {
  }

  lemma MoveKeeps(c: Codec, w: World, p: nat, pc: Pc)
    requires WorldOk(c, w) && ProcOk(c, w.db, pc)
    ensures WorldOk(c, To(w, p, pc)) && Grows(w.db, To(w, p, pc).db)
  {
    GrowsReflexive(w.db);
    StepKeeps(c, w, To(w, p, pc), p);
  }

  lemma DoneKeeps(c: Codec, w: World, p: nat, fact: RouteFact, result: Result)
    requires WorldOk(c, w) && ReplyOk(c, w.db, Reply(fact, result))
    ensures WorldOk(c, Done(w, p, fact, result)) && Grows(w.db, Done(w, p, fact, result).db)
  {
    GrowsReflexive(w.db);
    StepKeeps(c, w, Done(w, p, fact, result), p);
  }

  lemma StartKeeps(c: Codec, w: World, p: nat, fact: RouteFact)
    requires WorldOk(c, w) && Hashable(fact)
    ensures WorldOk(c, DoStart(c, w, p, fact)) && Grows(w.db, DoStart(c, w, p, fact).db)
  {
    if !ValidFact(c, fact) {
      DoneKeeps(c, w, p, fact, Poisoned);
    } else {
      MoveKeeps(c, w, p, Loading(fact, HeadOf(w.db, fact.key)));
    }
  }

  lemma ChooseKeeps(c: Codec, w: World, p: nat, fact: RouteFact, loaded: Head)
    requires WorldOk(c, w) && Hashable(fact) && fact.version > 0
    ensures WorldOk(c, DoChoose(c, w, p, fact, loaded)) && Grows(w.db, DoChoose(c, w, p, fact, loaded).db)
  {
    if fact.version <= loaded.version {
      if SlotOf(fact) !in w.db.ledger.versions {
        MoveKeeps(c, w, p, Reconciling(fact, loaded, true));
      } else if Retained(c, w.db, fact) {
        DoneKeeps(c, w, p, fact, Duplicate);
      } else {
        MoveKeeps(c, w, p, Poisoning(fact));
      }
    } else if fact.version > loaded.version + 1 {
      MoveKeeps(c, w, p, Reconciling(fact, loaded, false));
    } else {
      MoveKeeps(c, w, p, Checking(fact, loaded));
    }
  }

  /** A folded batch is ready to install: dense above the loaded version, ending
      in the folded identity, its ringing head bound. */
  lemma {:induction false} FoldedIsInstallable(c: Codec, db: Db, fact: RouteFact, loaded: Head, facts: seq<RouteFact>, i: nat)
    requires Folded(c, fact.key, loaded, facts).Some? && AllBound(db, facts)
    requires i < |facts| && Same(c, facts[i], fact)
    ensures Installable(c, db, fact, loaded.version, facts, Folded(c, fact.key, loaded, facts).value)
  {
    FoldIffDense(c, fact.key, loaded, facts);
    FoldEnds(c, fact.key, loaded, facts);
    var last := facts[|facts| - 1];
    assert ValidFact(c, last) && last.key == fact.key;
    assert facts[i].key == fact.key;
  }

  lemma CheckKeeps(c: Codec, w: World, p: nat, fact: RouteFact, loaded: Head)
    requires WorldOk(c, w)
    ensures WorldOk(c, DoCheck(c, w, p, fact, loaded)) && Grows(w.db, DoCheck(c, w, p, fact, loaded).db)
  {
    if !AllBound(w.db, [fact]) {
      MoveKeeps(c, w, p, Idle);
    } else {
      match Folded(c, fact.key, loaded, [fact])
      case None => DoneKeeps(c, w, p, fact, Poisoned);
      case Some(final) =>
        FoldedIsInstallable(c, w.db, fact, loaded, [fact], 0);
        MoveKeeps(c, w, p, Installing(fact, loaded.version, [fact], final, None));
    }
  }

  lemma BeginStepKeeps(c: Codec, w: World, p: nat, fact: RouteFact, loaded: Head, historical: bool, token: string)
    requires WorldOk(c, w) && ProcOk(c, w.db, Reconciling(fact, loaded, historical))
    ensures WorldOk(c, DoBegin(c, w, p, fact, loaded, historical, token))
    ensures Grows(w.db, DoBegin(c, w, p, fact, loaded, historical, token).db)
  {
    var proposed := Proposed(c, fact, loaded, historical, token);
    BeginKeeps(w.db, proposed);
    var (tx, intent) := BeginTx(w.db, proposed);
    if tx.RolledBack? {
      MoveKeeps(c, w, p, Idle);
    } else {
      StepKeeps(c, w, DoBegin(c, w, p, fact, loaded, historical, token), p);
    }
  }

  lemma ReplayKeeps(c: Codec, w: World, p: nat, pc: Pc, answer: Answer)
    requires Faithful(c) && WorldOk(c, w) && pc.Awaiting? && ProcOk(c, w.db, pc)
    ensures WorldOk(c, DoReplay(c, w, p, pc, answer)) && Grows(w.db, DoReplay(c, w, p, pc, answer).db)
  {
    match answer
    case RouterError => MoveKeeps(c, w, p, Idle);
    case HistoryUnknown => MoveKeeps(c, w, p, WantSnapshot(pc.fact, pc.intent));
    case Facts(facts, routerHead) =>
      if !Representable(facts) {
        GrowsReflexive(w.db);
      } else if pc.historical {
        HistoricalAnswerKeeps(c, w, p, pc, facts);
      } else {
        GapAnswerKeeps(c, w, p, pc, facts, routerHead);
      }
  }

  /** The hash alone ties a replayed historical fact to the held one's interaction. */
  lemma HistoricalAnswerKeeps(c: Codec, w: World, p: nat, pc: Pc, facts: seq<RouteFact>)
    requires Faithful(c) && WorldOk(c, w) && pc.Awaiting? && ProcOk(c, w.db, pc) && pc.historical && Representable(facts)
    ensures var w' := DoHistorical(c, w, p, pc.fact, pc.intent, facts); WorldOk(c, w') && Grows(w.db, w'.db)
  {
    var fact := pc.fact;
    if |facts| != 1 || facts[0].version != fact.version {
      DoneKeeps(c, w, p, fact, Poisoned);
    } else if !Same(c, facts[0], fact) {
      MoveKeeps(c, w, p, Poisoning(fact));
    } else if !AllBound(w.db, facts) {
      MoveKeeps(c, w, p, Idle);
    } else {
      assert facts[0].key == fact.key;
      MoveKeeps(c, w, p, Recording(fact, pc.intent, facts[0]));
    }
  }

  lemma GapAnswerKeeps(c: Codec, w: World, p: nat, pc: Pc, facts: seq<RouteFact>, routerHead: nat)
    requires WorldOk(c, w) && pc.Awaiting? && ProcOk(c, w.db, pc) && !pc.historical
    ensures var w' := DoGap(c, w, p, pc.fact, pc.loaded, pc.intent, facts, routerHead); WorldOk(c, w') && Grows(w.db, w'.db)
  {
    var fact := pc.fact;
    if exists i :: 0 <= i < |facts| && facts[i].key != fact.key {
      DoneKeeps(c, w, p, fact, Poisoned);
    } else if !AllBound(w.db, facts) {
      MoveKeeps(c, w, p, Idle);
    } else {
      match Folded(c, fact.key, pc.loaded, facts)
      case None => DoneKeeps(c, w, p, fact, Poisoned);
      case Some(final) =>
        if !Covers(c, fact, facts, routerHead) {
          DoneKeeps(c, w, p, fact, Poisoned);
        } else {
          var i :| 0 <= i < |facts| && Same(c, facts[i], fact);
          FoldedIsInstallable(c, w.db, fact, pc.loaded, facts, i);
          MoveKeeps(c, w, p, Installing(fact, pc.intent.observed, facts, final, Some(pc.intent.token)));
        }
    }
  }

  lemma SnapKeeps(c: Codec, w: World, p: nat, fact: RouteFact, intent: Intent, snapshot: Option<Snapshot>)
    requires WorldOk(c, w) && intent.key == fact.key
    ensures var w' := DoSnap(c, w, p, fact, intent, snapshot); WorldOk(c, w') && Grows(w.db, w'.db)
  {
    if snapshot.None? {
      MoveKeeps(c, w, p, Idle);
    } else if !ValidSnapshot(c, snapshot.value, intent, fact) {
      DoneKeeps(c, w, p, fact, Poisoned);
    } else if snapshot.value.head.visible && !Bound(w.db, fact.key, snapshot.value.head.authorizationId, snapshot.value.head.receiptId) {
      MoveKeeps(c, w, p, Idle);
    } else {
      MoveKeeps(c, w, p, Replacing(fact, intent, snapshot.value));
    }
  }

  lemma FinishKeeps(c: Codec, w: World, p: nat, fact: RouteFact, tx: Tx<Db>, result: Result)
    requires WorldOk(c, w) && TablesOk(After(w.db, tx)) && Grows(w.db, After(w.db, tx))
    requires tx.Committed? && tx.ok ==> ReplyOk(c, tx.db, Reply(fact, result))
    ensures WorldOk(c, Finish(w, p, fact, tx, result)) && Grows(w.db, Finish(w, p, fact, tx, result).db)
  {
    if tx.RolledBack? {
      MoveKeeps(c, w, p, Idle);
    } else {
      StepKeeps(c, w, Finish(w, p, fact, tx, result), p);
    }
  }

  lemma CommitKeeps(c: Codec, w: World, p: nat, pc: Pc)
    requires WorldOk(c, w) && ProcOk(c, w.db, pc)
    ensures WorldOk(c, DoCommit(c, w, p, pc)) && Grows(w.db, DoCommit(c, w, p, pc).db)
  {
    match pc
    case Installing(fact, expected, facts, final, token) =>
      InstallKeeps(c, w.db, fact, expected, facts, final, token);
      FinishKeeps(c, w, p, fact, InstallBatchTx(c, w.db, fact.key, expected, facts, final, token), Applied);
    case Recording(fact, intent, replayed) =>
      HistoricalKeeps(c, w.db, intent, replayed);
      FinishKeeps(c, w, p, fact, HistoricalTx(c, w.db, intent, replayed), Duplicate);
    case Replacing(fact, intent, snapshot) =>
      SnapshotKeeps(w.db, intent, snapshot, fact);
      FinishKeeps(c, w, p, fact, SnapshotTx(w.db, intent, snapshot, fact), AuditedUnknownHistory);
    case Poisoning(fact) =>
      DlqKeeps(w.db, PoisonTx(w.db, fact));
      StepKeeps(c, w, DoCommit(c, w, p, pc), p);
    case _ => GrowsReflexive(w.db);
  }

  lemma ApplyKeeps(c: Codec, w: World, step: Step)
    requires Faithful(c) && WorldOk(c, w)
    ensures WorldOk(c, Apply(c, w, step)) && Grows(w.db, Apply(c, w, step).db)
  {
    GrowsReflexive(w.db);
    match step
    case Start(p, fact) => if Proc(w, p).Idle? && Hashable(fact) { StartKeeps(c, w, p, fact); }
    case Choose(p) => if Proc(w, p).Loading? { ChooseKeeps(c, w, p, Proc(w, p).fact, Proc(w, p).loaded); }
    case Check(p) => if Proc(w, p).Checking? { CheckKeeps(c, w, p, Proc(w, p).fact, Proc(w, p).loaded); }
    case Begin(p, token) =>
      var pc := Proc(w, p);
      if pc.Reconciling? {
        BeginStepKeeps(c, w, p, pc.fact, pc.loaded, pc.historical, token);
      }
    case Replay(p, answer) => if Proc(w, p).Awaiting? { ReplayKeeps(c, w, p, Proc(w, p), answer); }
    case Snap(p, snapshot) =>
      if Proc(w, p).WantSnapshot? { SnapKeeps(c, w, p, Proc(w, p).fact, Proc(w, p).intent, snapshot); }
    case Commit(p) => CommitKeeps(c, w, p, Proc(w, p));
    case Crash(p) => MoveKeeps(c, w, p, Idle);
    case Authorize(a, b) =>
      if a !in w.db.authorizations {
        AuthorizeKeeps(w.db, a, b);
        AuthorizeStep(c, w, a, b);
      }
  }

  lemma AuthorizeStep(c: Codec, w: World, a: AuthorizationKey, b: Binding)
    requires WorldOk(c, w) && a !in w.db.authorizations
    requires var db' := w.db.(authorizations := w.db.authorizations[a := b]); TablesOk(db') && Grows(w.db, db')
    ensures WorldOk(c, w.(db := w.db.(authorizations := w.db.authorizations[a := b])))
  {
    var w' := w.(db := w.db.(authorizations := w.db.authorizations[a := b]));
    forall q: nat ensures ProcOk(c, w'.db, Proc(w', q)) {
      assert ProcOk(c, w.db, Proc(w, q));
      ProcStable(c, w.db, w'.db, Proc(w, q));
    }
    forall r | r in w'.replies ensures ReplyOk(c, w'.db, r) {
      assert ReplyOk(c, w.db, r);
    }
  }

  lemma {:induction false} RunKeeps(c: Codec, steps: seq<Step>)
    requires Faithful(c)
    ensures WorldOk(c, Run(c, steps))
  {
    if steps == [] {
    } else {
      RunKeeps(c, steps[..|steps| - 1]);
      ApplyKeeps(c, Run(c, steps[..|steps| - 1]), steps[|steps| - 1]);
    }
  }

  /** Whatever the router answers: no ledger row lies above its head, the head's
      own row carries its identity, the two ledgers name each other, and an
      interaction has at most one pending intent. */
  lemma {:induction false} LedgerAgreesWithHead(c: Codec, steps: seq<Step>, k: Key, v: nat)
    requires Faithful(c)
    ensures var db := Run(c, steps).db;
            && (Slot(k, v) in db.ledger.versions ==> 0 < v <= HeadOf(db, k).version)
            && (HeadOf(db, k).version > 0 ==>
                  Holds(db.ledger, Slot(k, HeadOf(db, k).version), Identity(HeadOf(db, k).eventId, HeadOf(db, k).hash)))
            && (forall t, u :: PendingFor(db, k, t) && PendingFor(db, k, u) ==> t == u)
            && Sound(db.ledger)
  {
    RunKeeps(c, steps);
    var db := Run(c, steps).db;
    assert Below(db, Slot(k, v)) && SlotOk(db.ledger, Slot(k, v)) && HeadOk(db, k);
    forall t, u | PendingFor(db, k, t) && PendingFor(db, k, u) ensures t == u {
      assert OnePending(db, t, u);
    }
  }

  /** From any point of a run to any later one: ledger rows are never rewritten,
      an intent leaves pending once, a head changes only upwards. */
  lemma {:induction false} WriteOnce(c: Codec, steps: seq<Step>, more: seq<Step>)
    requires Faithful(c)
    ensures Grows(Run(c, steps).db, Run(c, steps + more).db)
    decreases |more|
  {
    if more == [] {
      assert steps + more == steps;
      GrowsReflexive(Run(c, steps).db);
    } else {
      var all := steps + more;
      var init := more[..|more| - 1];
      assert all[..|all| - 1] == steps + init && all[|all| - 1] == more[|more| - 1];
      WriteOnce(c, steps, init);
      RunKeeps(c, steps + init);
      ApplyKeeps(c, Run(c, steps + init), more[|more| - 1]);
      GrowsTransitive(Run(c, steps).db, Run(c, steps + init).db, Run(c, all).db);
    }
  }

  /** A fact answered applied or duplicate is in the ledger, under its version,
      with its identity; an audited one is in the DLQ. */
  lemma {:induction false} AnsweredIsRetained(c: Codec, steps: seq<Step>, r: Reply)
    requires Faithful(c) && r in Run(c, steps).replies
    ensures ReplyOk(c, Run(c, steps).db, r)
  {
    RunKeeps(c, steps);
  }

  predicate Settled(r: Reply) {
    r.result.Applied? || r.result.Duplicate?
  }

  /** Within a tenant an event id is answered applied or duplicate for one fact only:
      one interaction, one version, one digest. And a version for one event only. */
  lemma {:induction false} OneEventOneFact(c: Codec, steps: seq<Step>, r: Reply, q: Reply)
    requires Faithful(c) && r in Run(c, steps).replies && q in Run(c, steps).replies && Settled(r) && Settled(q)
    requires r.fact.key.tenant == q.fact.key.tenant
    ensures r.fact.eventId == q.fact.eventId <==> SlotOf(r.fact) == SlotOf(q.fact)
    ensures r.fact.eventId == q.fact.eventId ==> c.hash(r.fact) == c.hash(q.fact)
  {
    RunKeeps(c, steps);
    var l := Run(c, steps).db.ledger;
    assert ReplyOk(c, Run(c, steps).db, r) && ReplyOk(c, Run(c, steps).db, q);
    if r.fact.eventId == q.fact.eventId {
      EventOnce(l, SlotOf(r.fact), SlotOf(q.fact));
    }
  }

  /** Projector.Visible on the loaded head and the database clock. */
  function Visible(db: Db, k: Key, now: int): bool {
    var h := HeadOf(db, k);
    h.visible && now != ZERO_TIME && now < h.leaseUntil
  }

  /** Visible only for a head of its own generation, with a lease that has not
      ended, bound to a stored authorization of this interaction and receipt. */
  lemma {:induction false} VisibleIsBound(c: Codec, steps: seq<Step>, k: Key, now: int)
    requires Faithful(c) && Visible(Run(c, steps).db, k, now)
    ensures var db := Run(c, steps).db;
            var h := HeadOf(db, k);
            && h.version > 0 && h.generation == h.version && h.leaseUntil != ZERO_TIME && now < h.leaseUntil
            && Bound(db, k, h.authorizationId, h.receiptId)
  {
    RunKeeps(c, steps);
    assert HeadOk(Run(c, steps).db, k);
  }
}
