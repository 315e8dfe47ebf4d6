/** Any number of route projectors over one database: every transaction is one
    step, router answers arrive between transactions, and a projector may stop
    anywhere. The router's answers are arbitrary. */
module RouteMachine {
  import opened Ledgers
  import opened RouteProjection

  datatype Pc =
    | Idle
    | Loading(fact: RouteFact, loaded: Head)
    | Checking(fact: RouteFact, loaded: Head)
    | Installing(fact: RouteFact, expected: nat, facts: seq<RouteFact>, final: Head, token: Option<string>)
    | Reconciling(fact: RouteFact, loaded: Head, historical: bool)
    | Awaiting(fact: RouteFact, loaded: Head, historical: bool, intent: Intent)
    | WantSnapshot(fact: RouteFact, intent: Intent)
    | Recording(fact: RouteFact, intent: Intent, replayed: RouteFact)
    | Replacing(fact: RouteFact, intent: Intent, snapshot: Snapshot)
    | Poisoning(fact: RouteFact)

  datatype Result = Applied | Duplicate | CompareAndSetLost | Poisoned | AuditedUnknownHistory

  datatype Reply = Reply(fact: RouteFact, result: Result)

  datatype World = World(db: Db, procs: map<nat, Pc>, replies: set<Reply>)

  datatype Answer = Facts(facts: seq<RouteFact>, routerHead: nat) | HistoryUnknown | RouterError

  datatype Step =
    | Start(p: nat, fact: RouteFact)
    | Choose(p: nat)
    | Check(p: nat)
    | Begin(p: nat, token: string)
    | Replay(p: nat, answer: Answer)
    | Snap(p: nat, snapshot: Option<Snapshot>)
    | Commit(p: nat)
    | Crash(p: nat)
    | Authorize(a: AuthorizationKey, b: Binding)

  const INITIAL: World := World(Db(map[], EMPTY_LEDGER, map[], {}, map[]), map[], {})

  function Proc(w: World, p: nat): Pc {
    if p in w.procs then w.procs[p] else Idle
  }

  function To(w: World, p: nat, pc: Pc): World {
    w.(procs := w.procs[p := pc])
  }

  function Done(w: World, p: nat, fact: RouteFact, result: Result): World {
    World(w.db, w.procs[p := Idle], w.replies + {Reply(fact, result)})
  }

  /** Apply: validate, then read the head row. */
  function DoStart(c: Codec, w: World, p: nat, fact: RouteFact): World {
    if !ValidFact(c, fact) then Done(w, p, fact, Poisoned)
    else To(w, p, Loading(fact, HeadOf(w.db, fact.key)))
  }

  /** Read the ledger, a statement later, and choose the path. */
  function DoChoose(c: Codec, w: World, p: nat, fact: RouteFact, loaded: Head): World {
    if fact.version <= loaded.version then
      if SlotOf(fact) !in w.db.ledger.versions then To(w, p, Reconciling(fact, loaded, true))
      else if Retained(c, w.db, fact) then Done(w, p, fact, Duplicate)
      else To(w, p, Poisoning(fact))
    else if fact.version > loaded.version + 1 then To(w, p, Reconciling(fact, loaded, false))
    else To(w, p, Checking(fact, loaded))
  }

  function DoCheck(c: Codec, w: World, p: nat, fact: RouteFact, loaded: Head): World {
    if !AllBound(w.db, [fact]) then To(w, p, Idle)
    else match Folded(c, fact.key, loaded, [fact])
      case None => Done(w, p, fact, Poisoned)
      case Some(final) => To(w, p, Installing(fact, loaded.version, [fact], final, None))
  }

  function Proposed(c: Codec, fact: RouteFact, loaded: Head, historical: bool, token: string): Intent {
    Intent(token, fact.key, loaded.version, if historical then fact.version else loaded.version + 1, fact.version, IdOf(c, fact))
  }

  ghost function DoBegin(c: Codec, w: World, p: nat, fact: RouteFact, loaded: Head, historical: bool, token: string): World {
    var (tx, intent) := BeginTx(w.db, Proposed(c, fact, loaded, historical, token));
    match tx
    case RolledBack => To(w, p, Idle)
    case Committed(db, false) => Done(w.(db := db), p, fact, CompareAndSetLost)
    case Committed(db, true) => To(w.(db := db), p, Awaiting(fact, loaded, historical, intent))
  }

  predicate Same(c: Codec, a: RouteFact, b: RouteFact) {
    a.version == b.version && a.eventId == b.eventId && c.hash(a) == c.hash(b)
  }

  function DoHistorical(c: Codec, w: World, p: nat, fact: RouteFact, intent: Intent, facts: seq<RouteFact>): World {
    if |facts| != 1 || facts[0].version != fact.version then Done(w, p, fact, Poisoned)
    else if !Same(c, facts[0], fact) then To(w, p, Poisoning(fact))
    else if !AllBound(w.db, facts) then To(w, p, Idle)
    else To(w, p, Recording(fact, intent, facts[0]))
  }

  predicate Covers(c: Codec, fact: RouteFact, facts: seq<RouteFact>, routerHead: nat) {
    && facts != [] && fact.version <= facts[|facts| - 1].version <= routerHead
    && exists i :: 0 <= i < |facts| && Same(c, facts[i], fact)
  }

  function DoGap(c: Codec, w: World, p: nat, fact: RouteFact, loaded: Head, intent: Intent, facts: seq<RouteFact>, routerHead: nat): World {
    if exists i :: 0 <= i < |facts| && facts[i].key != fact.key then Done(w, p, fact, Poisoned)
    else if !AllBound(w.db, facts) then To(w, p, Idle)
    else match Folded(c, fact.key, loaded, facts)
      case None => Done(w, p, fact, Poisoned)
      case Some(final) =>
        if !Covers(c, fact, facts, routerHead) then Done(w, p, fact, Poisoned)
        else To(w, p, Installing(fact, intent.observed, facts, final, Some(intent.token)))
  }

  /** Go values: lengths and counters fit 64 bits. */
  predicate Representable(facts: seq<RouteFact>) {
    forall i :: 0 <= i < |facts| ==> Hashable(facts[i])
  }

  function DoReplay(c: Codec, w: World, p: nat, pc: Pc, answer: Answer): World
    requires pc.Awaiting?
  {
    match answer
    case RouterError => To(w, p, Idle)
    case HistoryUnknown => To(w, p, WantSnapshot(pc.fact, pc.intent))
    case Facts(facts, routerHead) =>
      if !Representable(facts) then w
      else if pc.historical then DoHistorical(c, w, p, pc.fact, pc.intent, facts)
      else DoGap(c, w, p, pc.fact, pc.loaded, pc.intent, facts, routerHead)
  }

  function DoSnap(c: Codec, w: World, p: nat, fact: RouteFact, intent: Intent, snapshot: Option<Snapshot>): World {
    if snapshot.None? then To(w, p, Idle)
    else if !ValidSnapshot(c, snapshot.value, intent, fact) then Done(w, p, fact, Poisoned)
    else
      var head := snapshot.value.head;
      if head.visible && !Bound(w.db, fact.key, head.authorizationId, head.receiptId) then To(w, p, Idle)
      else To(w, p, Replacing(fact, intent, snapshot.value))
  }

  function Finish(w: World, p: nat, fact: RouteFact, tx: Tx<Db>, result: Result): World {
    match tx
    case RolledBack => To(w, p, Idle)
    case Committed(db, ok) => Done(w.(db := db), p, fact, if ok then result else CompareAndSetLost)
  }

  function DoCommit(c: Codec, w: World, p: nat, pc: Pc): World {
    match pc
    case Installing(fact, expected, facts, final, token) =>
      Finish(w, p, fact, InstallBatchTx(c, w.db, fact.key, expected, facts, final, token), Applied)
    case Recording(fact, intent, replayed) => Finish(w, p, fact, HistoricalTx(c, w.db, intent, replayed), Duplicate)
    case Replacing(fact, intent, snapshot) =>
      Finish(w, p, fact, SnapshotTx(w.db, intent, snapshot, fact), AuditedUnknownHistory)
    case Poisoning(fact) => Done(w.(db := PoisonTx(w.db, fact)), p, fact, Poisoned)
    case _ => w
  }

  ghost function Apply(c: Codec, w: World, step: Step): World {
    match step
    case Start(p, fact) => if Proc(w, p).Idle? && Hashable(fact) then DoStart(c, w, p, fact) else w
    case Choose(p) => if Proc(w, p).Loading? then DoChoose(c, w, p, Proc(w, p).fact, Proc(w, p).loaded) else w
    case Check(p) => if Proc(w, p).Checking? then DoCheck(c, w, p, Proc(w, p).fact, Proc(w, p).loaded) else w
    case Begin(p, token) =>
      var pc := Proc(w, p);
      if pc.Reconciling? then DoBegin(c, w, p, pc.fact, pc.loaded, pc.historical, token) else w
    case Replay(p, answer) => if Proc(w, p).Awaiting? then DoReplay(c, w, p, Proc(w, p), answer) else w
    case Snap(p, snapshot) =>
      if Proc(w, p).WantSnapshot? then DoSnap(c, w, p, Proc(w, p).fact, Proc(w, p).intent, snapshot) else w
    case Commit(p) => DoCommit(c, w, p, Proc(w, p))
    case Crash(p) => To(w, p, Idle)
    case Authorize(a, b) =>
      if a in w.db.authorizations then w else w.(db := w.db.(authorizations := w.db.authorizations[a := b]))
  }

  ghost function Run(c: Codec, steps: seq<Step>): World {
    if steps == [] then INITIAL else Apply(c, Run(c, steps[..|steps| - 1]), steps[|steps| - 1])
  }

  // ------------------------------------------------------------- invariants

  predicate Retained(c: Codec, db: Db, fact: RouteFact) {
    Holds(db.ledger, SlotOf(fact), IdOf(c, fact))
  }

  predicate Vouched(db: Db, k: Key, h: Head) {
    h.visible ==>
      && h.generation == h.version && h.leaseUntil != ZERO_TIME
      && Bound(db, k, h.authorizationId, h.receiptId)
  }

  predicate HeadOk(db: Db, k: Key) {
    var h := HeadOf(db, k);
    && Vouched(db, k, h)
    && (h.version == 0 ==> !h.visible)
    && (h.version > 0 ==> Holds(db.ledger, Slot(k, h.version), Identity(h.eventId, h.hash)))
  }

  predicate Below(db: Db, s: Slot) {
    s in db.ledger.versions ==> s.version <= HeadOf(db, s.key).version
  }

  predicate IntentOk(db: Db, t: TokenKey) {
    t in db.intents ==> db.intents[t].intent.token == t.token && db.intents[t].intent.key.tenant == t.tenant
  }

  predicate OnePending(db: Db, t: TokenKey, u: TokenKey) {
    t in db.intents ==>
      var k := db.intents[t].intent.key;
      PendingFor(db, k, t) && PendingFor(db, k, u) ==> t == u
  }

  ghost predicate Intents(db: Db) {
    && (forall t {:trigger IntentOk(db, t)} :: IntentOk(db, t))
    && (forall t, u {:trigger OnePending(db, t, u)} :: OnePending(db, t, u))
  }

  ghost predicate TablesOk(db: Db) {
    && Sound(db.ledger) && Intents(db)
    && (forall k {:trigger HeadOk(db, k)} :: HeadOk(db, k))
    && (forall s {:trigger Below(db, s)} :: Below(db, s))
  }

  predicate RowMoves(r: IntentRow, r': IntentRow) {
    r' == r || (r.status.Pending? && !r'.status.Pending? && r'.intent == r.intent)
  }

  predicate HeadMoves(h: Head, h': Head) {
    h' == h || h'.version > h.version
  }

  /** What no step undoes: ledger rows, bindings and DLQ rows stay, a row leaves
      pending once, and a head changes only together with a higher version. */
  ghost predicate Grows(db: Db, db': Db) {
    && Extends(db.ledger, db'.ledger)
    && (forall t :: t in db.intents ==> t in db'.intents && RowMoves(db.intents[t], db'.intents[t]))
    && (forall a :: a in db.authorizations ==> a in db'.authorizations && db'.authorizations[a] == db.authorizations[a])
    && (forall k {:trigger HeadOf(db', k)} :: HeadMoves(HeadOf(db, k), HeadOf(db', k)))
    && db.dlq <= db'.dlq
  }

  lemma GrowsTransitive(a: Db, b: Db, d: Db)
    requires Grows(a, b) && Grows(b, d)
    ensures Grows(a, d)
  {
    forall k ensures HeadMoves(HeadOf(a, k), HeadOf(d, k)) {
      assert HeadMoves(HeadOf(a, k), HeadOf(b, k)) && HeadMoves(HeadOf(b, k), HeadOf(d, k));
    }
    forall t | t in a.intents ensures t in d.intents && RowMoves(a.intents[t], d.intents[t]) {
      assert RowMoves(a.intents[t], b.intents[t]);
    }
  }
}
