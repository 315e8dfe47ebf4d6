/** The route projection: what a projector folds (internal/routeprojection) and
    the table transactions it drives (internal/deliverypg/projection.go). */
module RouteProjection {
  import opened Encoding
  import opened Ledgers

  datatype FactKind = Reserved | Ringing | Terminal | UnknownKind

  /** Times are nanoseconds since 1970; Go's zero time is an instant of its own. */
  const ZERO_TIME: int := -62135596800000000000

  datatype RouteFact = RouteFact(
    key: Key, eventId: string, version: nat, kind: FactKind,
    authorizationId: string, receiptId: string, generation: nat, leaseUntil: int)

  /** The folded state, a head row's columns. The zero digest is "". */
  datatype Head = Head(
    version: nat, eventId: string, hash: string, visible: bool,
    authorizationId: string, receiptId: string, generation: nat, leaseUntil: int)

  const EMPTY: Head := Head(0, "", "", false, "", "", 0, ZERO_TIME)

  // ------------------------------------------------------------ validation

  /** How identifiers are recognised and facts digested; `CODEC` is the code's own. */
  datatype Codec = Codec(uuid: string -> bool, hash: RouteFact -> string)

  predicate ValidFact(c: Codec, fact: RouteFact) {
    && c.uuid(fact.key.tenant) && c.uuid(fact.key.interaction) && c.uuid(fact.eventId)
    && fact.version > 0 && !fact.kind.UnknownKind?
    && (fact.kind.Ringing? ==>
          && c.uuid(fact.authorizationId) && c.uuid(fact.receiptId)
          && fact.generation == fact.version && fact.leaseUntil != ZERO_TIME)
    && (fact.kind.Terminal? ==> 0 < fact.generation < fact.version)
  }

  // --------------------------------------------------------------- hashing

  function KindByte(kind: FactKind): char {
    match kind
    case Reserved => 1 as char
    case Ringing => 2 as char
    case Terminal => 3 as char
    case UnknownKind => 0 as char
  }

  function HashParts(fact: RouteFact): seq<string> {
    [fact.key.tenant, fact.key.interaction, fact.eventId, Word(fact.version), [KindByte(fact.kind)],
     fact.authorizationId, fact.receiptId, Word(fact.generation), Word(Unix64(fact.leaseUntil))]
  }

  /** The digest of a fact, by its preimage. */
  function Preimage(fact: RouteFact): string {
    Frames(HashParts(fact))
  }

  const CODEC: Codec := Codec(UuidV7, Preimage)

  predicate Hashable(fact: RouteFact) {
    && |fact.key.tenant| < UINT64 && |fact.key.interaction| < UINT64 && |fact.eventId| < UINT64
    && |fact.authorizationId| < UINT64 && |fact.receiptId| < UINT64
    && fact.version < UINT64 && fact.generation < UINT64
  }

  /** uint64(t.UnixNano()) */
  function Unix64(t: int): (n: nat)
    ensures n < UINT64
  {
    t % UINT64
  }

  predicate Int64(t: int) {
    -0x8000_0000_0000_0000 <= t < 0x8000_0000_0000_0000
  }

  lemma Unix64Injective(t: int, u: int)
    requires Int64(t) && Int64(u) && Unix64(t) == Unix64(u)
    ensures t == u
  {
    assert (t - u) % UINT64 == 0;
  }

  lemma PartsDetermineFact(a: RouteFact, b: RouteFact)
    requires Hashable(a) && Hashable(b) && HashParts(a) == HashParts(b)
    ensures a == b.(leaseUntil := a.leaseUntil) && Unix64(a.leaseUntil) == Unix64(b.leaseUntil)
  {
    var p, q := HashParts(a), HashParts(b);
    assert p[0] == q[0] && p[1] == q[1] && p[2] == q[2] && p[5] == q[5] && p[6] == q[6];
    assert p[3] == q[3] && p[7] == q[7] && p[8] == q[8];
    assert p[4][0] == q[4][0];
    WordInjective(a.version, b.version);
    WordInjective(a.generation, b.generation);
    WordInjective(Unix64(a.leaseUntil), Unix64(b.leaseUntil));
  }

  /** Equal digests mean equal facts, except that a lease time counts modulo
      2^64 nanoseconds. */
  lemma PreimageDetermines(a: RouteFact, b: RouteFact)
    requires Hashable(a) && Hashable(b) && Preimage(a) == Preimage(b)
    ensures a == b.(leaseUntil := a.leaseUntil) && Unix64(a.leaseUntil) == Unix64(b.leaseUntil)
  {
    assert Addressable(HashParts(a)) && Addressable(HashParts(b));
    FramesInjective(HashParts(a), HashParts(b));
    PartsDetermineFact(a, b);
  }

  /** Exactly when two facts have one digest. */
  lemma PreimageIff(a: RouteFact, b: RouteFact)
    requires Hashable(a) && Hashable(b)
    ensures Preimage(a) == Preimage(b) <==>
            a == b.(leaseUntil := a.leaseUntil) && Unix64(a.leaseUntil) == Unix64(b.leaseUntil)
  {
    if Preimage(a) == Preimage(b) {
      PreimageDetermines(a, b);
    }
    if a == b.(leaseUntil := a.leaseUntil) && Unix64(a.leaseUntil) == Unix64(b.leaseUntil) {
      assert HashParts(a) == HashParts(b);
    }
  }

  /** So facts with lease times that fit int64 are told apart ... */
  lemma PreimageInjective(a: RouteFact, b: RouteFact)
    requires Hashable(a) && Hashable(b) && Int64(a.leaseUntil) && Int64(b.leaseUntil)
    ensures Preimage(a) == Preimage(b) <==> a == b
  {
    if Preimage(a) == Preimage(b) {
      PreimageDetermines(a, b);
      Unix64Injective(a.leaseUntil, b.leaseUntil);
    }
  }

  lemma Unix64Wraps(t: int)
    ensures Unix64(t) == Unix64(t + UINT64)
  {
    assert t == t / UINT64 * UINT64 + t % UINT64;
    assert t + UINT64 == (t / UINT64 + 1) * UINT64 + t % UINT64;
  }

  /** ... and lease times 2^64 nanoseconds apart are not. */
  lemma PreimageWraps(fact: RouteFact)
    ensures Preimage(fact) == Preimage(fact.(leaseUntil := fact.leaseUntil + UINT64))
  {
    Unix64Wraps(fact.leaseUntil);
    assert HashParts(fact) == HashParts(fact.(leaseUntil := fact.leaseUntil + UINT64));
  }

  /** A digest stands for its fact's slot and identity. */
  ghost predicate Faithful(c: Codec) {
    forall a, b :: Hashable(a) && Hashable(b) && c.hash(a) == c.hash(b) ==> a.key == b.key && a.version == b.version
  }

  /** Digests are never all zero. */
  ghost predicate NonZero(c: Codec) {
    forall fact {:trigger c.hash(fact)} :: c.hash(fact) != ""
  }

  /** The code's own digest meets both assumptions. */
  lemma CodecIsFaithful()
    ensures Faithful(CODEC) && NonZero(CODEC)
  {
    forall a, b | Hashable(a) && Hashable(b) && CODEC.hash(a) == CODEC.hash(b)
      ensures a.key == b.key && a.version == b.version
    {
      PreimageDetermines(a, b);
    }
    forall fact ensures CODEC.hash(fact) != "" {
      assert HashParts(fact)[0] == fact.key.tenant;
      assert CODEC.hash(fact) == Preimage(fact);
    }
  }

  function IdOf(c: Codec, fact: RouteFact): Identity {
    Identity(fact.eventId, c.hash(fact))
  }

  // ------------------------------------------------------------------ fold

  function Next(c: Codec, state: Head, fact: RouteFact): Head {
    var hidden := state.(version := fact.version, eventId := fact.eventId, hash := c.hash(fact), visible := false);
    match fact.kind
    case Ringing =>
      Head(fact.version, fact.eventId, c.hash(fact), true,
           fact.authorizationId, fact.receiptId, fact.generation, fact.leaseUntil)
    case Terminal => hidden.(leaseUntil := ZERO_TIME)
    case _ => hidden
  }

  predicate Fits(c: Codec, key: Key, state: Head, fact: RouteFact) {
    ValidFact(c, fact) && fact.version == state.version + 1 && fact.key == key
  }

  function Folded(c: Codec, key: Key, state: Head, facts: seq<RouteFact>): Option<Head>
    decreases |facts|
  {
    if facts == [] then Some(state)
    else if !Fits(c, key, state, facts[0]) then None
    else Folded(c, key, Next(c, state, facts[0]), facts[1..])
  }

  /** Folding is by pieces: a batch may be cut anywhere. */
  lemma {:induction false} FoldSplits(c: Codec, key: Key, state: Head, a: seq<RouteFact>, b: seq<RouteFact>)
    ensures Folded(c, key, state, a + b) ==
            match Folded(c, key, state, a) { case None => None case Some(s) => Folded(c, key, s, b) }
    decreases |a|
  {
    if a == [] {
      assert a + b == b;
    } else {
      assert (a + b)[1..] == a[1..] + b;
      if Fits(c, key, state, a[0]) {
        FoldSplits(c, key, Next(c, state, a[0]), a[1..], b);
      }
    }
  }

  predicate Dense(c: Codec, key: Key, version: nat, facts: seq<RouteFact>) {
    forall i :: 0 <= i < |facts| ==> ValidFact(c, facts[i]) && facts[i].version == version + 1 + i && facts[i].key == key
  }

  /** A batch folds exactly when it continues the state without a gap. */
  lemma {:induction false} FoldIffDense(c: Codec, key: Key, state: Head, facts: seq<RouteFact>)
    ensures Folded(c, key, state, facts).Some? <==> Dense(c, key, state.version, facts)
    ensures Folded(c, key, state, facts).Some? ==> Folded(c, key, state, facts).value.version == state.version + |facts|
    decreases |facts|
  {
    if facts != [] {
      assert Dense(c, key, state.version, facts) ==> Fits(c, key, state, facts[0]);
      if Fits(c, key, state, facts[0]) {
        DenseTail(c, key, state.version, facts);
        FoldIffDense(c, key, Next(c, state, facts[0]), facts[1..]);
      }
    }
  }

  /** Then its last fact alone decides identity and visibility. */
  lemma {:induction false} FoldEnds(c: Codec, key: Key, state: Head, facts: seq<RouteFact>)
    requires facts != [] && Folded(c, key, state, facts).Some?
    ensures Ends(c, Folded(c, key, state, facts).value, facts[|facts| - 1])
  {
    var last := facts[|facts| - 1];
    assert facts == facts[..|facts| - 1] + [last];
    FoldSplits(c, key, state, facts[..|facts| - 1], [last]);
    var before := Folded(c, key, state, facts[..|facts| - 1]).value;
    assert Folded(c, key, Next(c, before, last), []) == Some(Next(c, before, last));
  }

  lemma DenseTail(c: Codec, key: Key, version: nat, facts: seq<RouteFact>)
    requires facts != [] && facts[0].key == key && ValidFact(c, facts[0]) && facts[0].version == version + 1
    ensures Dense(c, key, version, facts) <==> Dense(c, key, version + 1, facts[1..])
  {
    if Dense(c, key, version + 1, facts[1..]) {
      forall i | 0 <= i < |facts|
        ensures ValidFact(c, facts[i]) && facts[i].version == version + 1 + i && facts[i].key == key
      {
        if i > 0 {
          assert facts[i] == facts[1..][i - 1];
        }
      }
    }
    if Dense(c, key, version, facts) {
      forall i | 0 <= i < |facts[1..]|
        ensures ValidFact(c, facts[1..][i]) && facts[1..][i].version == version + 1 + 1 + i && facts[1..][i].key == key
      {
        assert facts[1..][i] == facts[i + 1];
      }
    }
  }

  predicate Ends(c: Codec, state: Head, last: RouteFact) {
    && state.version == last.version && state.eventId == last.eventId && state.hash == c.hash(last)
    && state.visible == last.kind.Ringing?
    && (state.visible ==>
          && state.authorizationId == last.authorizationId && state.receiptId == last.receiptId
          && state.generation == last.generation && state.leaseUntil == last.leaseUntil)
  }

  /** The loop of FoldBatch. A projection without a tenant takes the first fact's. */
  method FoldBatch(c: Codec, projected: Key, state: Head, facts: seq<RouteFact>) returns (r: Option<Head>)
    ensures r == Folded(c, if projected.tenant == "" && facts != [] then facts[0].key else projected, state, facts)
    ensures projected.tenant != "" ==> (r.Some? <==> Dense(c, projected, state.version, facts))
  {
    var key := if projected.tenant == "" && |facts| > 0 then facts[0].key else projected;
    FoldIffDense(c, key, state, facts);
    var acc := state;
    for i := 0 to |facts|
      invariant Folded(c, key, state, facts) == Folded(c, key, acc, facts[i..])
    {
      if !ValidFact(c, facts[i]) || facts[i].version != acc.version + 1 || facts[i].key != key {
        return None;
      }
      assert facts[i..][1..] == facts[i + 1..];
      acc := Next(c, acc, facts[i]);
    }
    return Some(acc);
  }

  // ---------------------------------------------------------------- tables

  datatype Intent = Intent(token: string, key: Key, observed: nat, from: nat, to: nat, held: Identity)

  datatype Status = Pending | Installed | Audited

  datatype IntentRow = IntentRow(intent: Intent, status: Status)

  datatype AuthorizationKey = AuthorizationKey(tenant: string, id: string)

  datatype Binding = Binding(interaction: string, receiptId: string)

  datatype Reason = Divergent | UnknownHistory

  datatype Poison = Poison(key: Key, eventId: string, reason: Reason)

  datatype Db = Db(
    heads: map<Key, Head>,
    ledger: Ledger,
    intents: map<TokenKey, IntentRow>,
    dlq: set<Poison>,
    authorizations: map<AuthorizationKey, Binding>)

  /** A missing head row reads as version 0. */
  function HeadOf(db: Db, k: Key): Head {
    if k in db.heads then db.heads[k] else EMPTY
  }

  function SlotOf(fact: RouteFact): Slot {
    Slot(fact.key, fact.version)
  }

  predicate Bound(db: Db, key: Key, authorizationId: string, receiptId: string) {
    var a := AuthorizationKey(key.tenant, authorizationId);
    a in db.authorizations && db.authorizations[a] == Binding(key.interaction, receiptId)
  }

  predicate AllBound(db: Db, facts: seq<RouteFact>) {
    forall i :: 0 <= i < |facts| && facts[i].kind.Ringing? ==>
                  Bound(db, facts[i].key, facts[i].authorizationId, facts[i].receiptId)
  }

  function InsertFacts(c: Codec, l: Ledger, facts: seq<RouteFact>): Option<Ledger>
    decreases |facts|
  {
    if facts == [] then Some(l)
    else match Insert(l, SlotOf(facts[0]), IdOf(c, facts[0]))
      case None => None
      case Some(l') => InsertFacts(c, l', facts[1..])
  }

  predicate PendingMatches(db: Db, key: Key, token: string, observed: nat) {
    var t := TokenKey(key.tenant, token);
    && t in db.intents && db.intents[t].status.Pending?
    && db.intents[t].intent.key == key && db.intents[t].intent.observed == observed
  }

  function Close(db: Db, key: Key, token: string, status: Status): Db {
    var t := TokenKey(key.tenant, token);
    if t in db.intents then db.(intents := db.intents[t := db.intents[t].(status := status)]) else db
  }

  function InstallBatchTx(c: Codec, db: Db, key: Key, expected: nat, facts: seq<RouteFact>, final: Head, token: Option<string>): Tx<Db> {
    if HeadOf(db, key).version != expected then Committed(db, false)
    else if token.Some? && !PendingMatches(db, key, token.value, expected) then Committed(db, false)
    else match InsertFacts(c, db.ledger, facts)
      case None => RolledBack
      case Some(l) =>
        var db' := db.(ledger := l, heads := db.heads[key := final]);
        Committed(if token.Some? then Close(db', key, token.value, Installed) else db', true)
  }

  predicate PendingFor(db: Db, key: Key, t: TokenKey) {
    t in db.intents && db.intents[t].status.Pending? && db.intents[t].intent.key == key
  }

  ghost predicate SomePending(db: Db, key: Key) {
    exists t :: PendingFor(db, key, t)
  }

  /** Starts an intent, or joins the pending one that asks for the same. */
  ghost function BeginTx(db: Db, proposed: Intent): (Tx<Db>, Intent) {
    var t := TokenKey(proposed.key.tenant, proposed.token);
    if HeadOf(db, proposed.key).version != proposed.observed then (Committed(db, false), proposed)
    else if SomePending(db, proposed.key) then
      var p :| PendingFor(db, proposed.key, p);
      var retained := db.intents[p].intent;
      (Committed(db, retained.(token := proposed.token) == proposed), retained)
    else if t in db.intents then (RolledBack, proposed)
    else (Committed(db.(intents := db.intents[t := IntentRow(proposed, Pending)]), true), proposed)
  }

  function HistoricalTx(c: Codec, db: Db, intent: Intent, fact: RouteFact): Tx<Db> {
    if HeadOf(db, intent.key).version != intent.observed then Committed(db, false)
    else if !PendingMatches(db, intent.key, intent.token, intent.observed) then Committed(db, false)
    else match Insert(db.ledger, SlotOf(fact), IdOf(c, fact))
      case None => RolledBack
      case Some(l) => Committed(Close(db.(ledger := l), intent.key, intent.token, Installed), true)
  }

  datatype Snapshot = Snapshot(key: Key, head: Head, historyFloor: nat, provenance: string)

  predicate ValidSnapshot(c: Codec, s: Snapshot, intent: Intent, held: RouteFact) {
    && s.key == held.key && s.head.version > 0 && intent.observed <= s.head.version
    && 0 < s.historyFloor <= s.head.version && s.provenance != ""
    && c.uuid(s.head.eventId) && s.head.hash != ""
    && (s.head.visible ==>
          && c.uuid(s.head.authorizationId) && c.uuid(s.head.receiptId)
          && s.head.generation == s.head.version && s.head.leaseUntil != ZERO_TIME)
  }

  function SnapshotTx(db: Db, intent: Intent, snapshot: Snapshot, held: RouteFact): Tx<Db> {
    var head := snapshot.head;
    if HeadOf(db, intent.key).version != intent.observed then Committed(db, false)
    else if !PendingMatches(db, intent.key, intent.token, intent.observed) then Committed(db, false)
    else match Insert(db.ledger, Slot(intent.key, head.version), Identity(head.eventId, head.hash))
      case None => RolledBack
      case Some(l) =>
        var db' := db.(ledger := l, heads := db.heads[intent.key := head],
                       dlq := db.dlq + {Poison(intent.key, held.eventId, UnknownHistory)});
        Committed(Close(db', intent.key, intent.token, Audited), true)
  }

  function PoisonTx(db: Db, fact: RouteFact): Db {
    db.(dlq := db.dlq + {Poison(fact.key, fact.eventId, Divergent)})
  }
}
