/** Accepting a delivery authorization and acknowledging it through the outbox
    (internal/delivery/service.go, worker.go, internal/deliverypg/store.go).
    Each store method is one transaction; an error rolls it back. */
module Outbox {
  import opened Encoding

  datatype Authorization = Authorization(
    tenantId: string, authorizationId: string, eventId: string, reservationId: string, interactionId: string,
    targetId: string, fencingToken: string, routeVersion: nat, deadline: int, traceparent: string)

  datatype Receipt = Receipt(
    receiptId: string, authorizationId: string, eventId: string, tenantId: string, reservationId: string,
    interactionId: string, targetId: string, acceptedAt: int, deadline: int, logSequence: nat, issuer: string)

  datatype AckRequest = AckRequest(
    requestId: string, tenantId: string, reservationId: string, interactionId: string,
    expectedRouteVersion: nat, fencingToken: string, receipt: Receipt)

  const ACCEPT_METHOD := "/relaypoint.delivery.v1.DeliveryService/AcceptDelivery"
  const ACK_METHOD := "/kafaconnect.routing.v1.ReservationService/AcknowledgeDelivery"
  const ISSUER := "relaypoint"

  // ------------------------------------------------------- hashes

  /** Deterministic marshalling, represented by an injective field list. */
  function AuthorizationFields(a: Authorization): seq<string> {
    [a.tenantId, a.authorizationId, a.eventId, a.reservationId, a.interactionId, a.targetId,
     a.fencingToken, Decimal(a.routeVersion), Decimal(a.deadline), a.traceparent]
  }

  function ReceiptFields(r: Receipt): seq<string> {
    [r.receiptId, r.authorizationId, r.eventId, r.tenantId, r.reservationId, r.interactionId, r.targetId,
     Decimal(r.acceptedAt), Decimal(r.deadline), Decimal(r.logSequence), r.issuer]
  }

  function AuthorizationHash(a: Authorization): string {
    Frames([ACCEPT_METHOD, a.tenantId, Frames(AuthorizationFields(a))])
  }

  function AckHash(q: AckRequest): string {
    Frames([ACK_METHOD, q.tenantId, q.requestId, q.reservationId, q.interactionId,
            Word(q.expectedRouteVersion), q.fencingToken, Frames(ReceiptFields(q.receipt))])
  }

  /** Lengths and the version fit 64 bits, as Go values do. */
  ghost predicate AckHashable(q: AckRequest) {
    && Addressable([q.tenantId, q.requestId, q.reservationId, q.interactionId, q.fencingToken]) && q.expectedRouteVersion < UINT64
    && Addressable(ReceiptFields(q.receipt)) && |Frames(ReceiptFields(q.receipt))| < UINT64
  }

  ghost predicate Hashable(a: Authorization) {
    Addressable(AuthorizationFields(a)) && |Frames(AuthorizationFields(a))| < UINT64
  }

  /** One request hash, one payload: the idempotency check compares payloads. */
  lemma AuthorizationHashInjective(a: Authorization, b: Authorization)
    requires Hashable(a) && Hashable(b) && AuthorizationHash(a) == AuthorizationHash(b)
    ensures a == b
  {
    var p, q := AuthorizationFields(a), AuthorizationFields(b);
    assert |p[0]| < UINT64 && |q[0]| < UINT64;
    FramesInjective([ACCEPT_METHOD, a.tenantId, Frames(p)], [ACCEPT_METHOD, b.tenantId, Frames(q)]);
    assert [ACCEPT_METHOD, a.tenantId, Frames(p)][2] == [ACCEPT_METHOD, b.tenantId, Frames(q)][2];
    FramesInjective(p, q);
    FieldsDetermineAuthorization(a, b);
  }

  lemma FieldsDetermineAuthorization(a: Authorization, b: Authorization)
    requires AuthorizationFields(a) == AuthorizationFields(b)
    ensures a == b
  {
    var p, q := AuthorizationFields(a), AuthorizationFields(b);
    assert p[0] == q[0] && p[1] == q[1] && p[2] == q[2] && p[3] == q[3] && p[4] == q[4];
    assert p[5] == q[5] && p[6] == q[6] && p[7] == q[7] && p[8] == q[8] && p[9] == q[9];
    DecimalInjective(a.routeVersion, b.routeVersion);
    DecimalInjective(a.deadline, b.deadline);
  }

  /** One acknowledgement hash, one acknowledgement. */
  lemma AckHashInjective(p: AckRequest, q: AckRequest)
    requires AckHashable(p) && AckHashable(q) && AckHash(p) == AckHash(q)
    ensures p == q
  {
    var a := [ACK_METHOD, p.tenantId, p.requestId, p.reservationId, p.interactionId,
              Word(p.expectedRouteVersion), p.fencingToken, Frames(ReceiptFields(p.receipt))];
    var b := [ACK_METHOD, q.tenantId, q.requestId, q.reservationId, q.interactionId,
              Word(q.expectedRouteVersion), q.fencingToken, Frames(ReceiptFields(q.receipt))];
    PartsFit(p, a);
    PartsFit(q, b);
    FramesInjective(a, b);
    assert a[1] == b[1] && a[2] == b[2] && a[3] == b[3] && a[4] == b[4] && a[5] == b[5] && a[6] == b[6] && a[7] == b[7];
    WordInjective(p.expectedRouteVersion, q.expectedRouteVersion);
    FramesInjective(ReceiptFields(p.receipt), ReceiptFields(q.receipt));
    FieldsDetermineReceipt(p.receipt, q.receipt);
  }

  lemma PartsFit(q: AckRequest, parts: seq<string>)
    requires AckHashable(q)
    requires parts == [ACK_METHOD, q.tenantId, q.requestId, q.reservationId, q.interactionId,
                       Word(q.expectedRouteVersion), q.fencingToken, Frames(ReceiptFields(q.receipt))]
    ensures Addressable(parts)
  {
    var five := [q.tenantId, q.requestId, q.reservationId, q.interactionId, q.fencingToken];
    assert |five[0]| < UINT64 && |five[1]| < UINT64 && |five[2]| < UINT64 && |five[3]| < UINT64 && |five[4]| < UINT64;
  }

  lemma FieldsDetermineReceipt(a: Receipt, b: Receipt)
    requires ReceiptFields(a) == ReceiptFields(b)
    ensures a == b
  {
    var p, q := ReceiptFields(a), ReceiptFields(b);
    assert p[0] == q[0] && p[1] == q[1] && p[2] == q[2] && p[3] == q[3] && p[4] == q[4] && p[5] == q[5];
    assert p[6] == q[6] && p[7] == q[7] && p[8] == q[8] && p[9] == q[9] && p[10] == q[10];
    DecimalInjective(a.acceptedAt, b.acceptedAt);
    DecimalInjective(a.deadline, b.deadline);
    DecimalInjective(a.logSequence, b.logSequence);
  }

  // ------------------------------------------------------- rows

  /** A tenant-scoped key; every query names its tenant. */
  datatype Key = Key(tenant: string, id: string)

  datatype AuthRow = AuthRow(auth: Authorization, requestHash: string, receipt: Key, acceptedAt: int, logSequence: nat)

  datatype LogRow = LogRow(key: Key, interactionId: string, receipt: Key, requestHash: string)

  datatype Status = Pending | Claimed | Completed

  datatype OutRow = OutRow(authorization: Key, expectedRouteVersion: nat, fencingToken: string, receipt: Receipt,
                           requestHash: string, status: Status, claimToken: string, claimUntil: int,
                           nextAttemptAt: int, attempts: nat, completions: nat)

  datatype AppendInput = AppendInput(auth: Authorization, receiptId: string, requestHash: string)

  datatype AppendResult = Appended(receiptId: string, acceptedAt: int, logSequence: nat) | IdempotencyConflict | StoreError

  function KeyOf(a: Authorization): Key {
    Key(a.tenantId, a.authorizationId)
  }

  function ResultOf(row: AuthRow): AppendResult {
    Appended(row.receipt.id, row.acceptedAt, row.logSequence)
  }

  function ReceiptOf(row: AuthRow): Receipt {
    var a := row.auth;
    Receipt(row.receipt.id, a.authorizationId, a.eventId, a.tenantId, a.reservationId, a.interactionId,
            a.targetId, row.acceptedAt, a.deadline, row.logSequence, ISSUER)
  }

  /** The acknowledgement Append computes its stored hash from. */
  function AckOf(row: AuthRow): AckRequest {
    AckRequest(row.receipt.id, row.auth.tenantId, row.auth.reservationId, row.auth.interactionId,
               row.auth.routeVersion, row.auth.fencingToken, ReceiptOf(row))
  }

  datatype AckClaim = AckClaim(receipt: Receipt, claimToken: string, expectedRouteVersion: nat,
                               fencingToken: string, requestHash: string)

  /** The acknowledgement a worker builds from a claim. */
  function RequestOf(c: AckClaim): AckRequest {
    AckRequest(c.receipt.receiptId, c.receipt.tenantId, c.receipt.reservationId, c.receipt.interactionId,
               c.expectedRouteVersion, c.fencingToken, c.receipt)
  }

  /** The router's answer; Unspecified stands for every unknown value. */
  datatype Disposition = Unspecified | Applied | AlreadyApplied | TerminalExpired

  datatype Answer = RouterError | Answered(disposition: Disposition)

  datatype Op =
    | DoAccept(principal: Principal, auth: Authorization, wellFormed: bool, newReceipt: string, at: int)
    | DoClaim(r: Key, token: string, now: int, ttl: int)
    | DoComplete(r: Key, token: string)
    | DoRetry(r: Key, token: string, now: int)

  /** The three tables; `latest` is history: the last claim token of each row. */
  datatype Tables = Tables(auths: map<Key, AuthRow>, log: map<nat, LogRow>, outbox: map<Key, OutRow>,
                           nextSequence: nat, latest: map<Key, string>)

  function LogRowOf(k: Key, row: AuthRow): LogRow {
    LogRow(k, row.auth.interactionId, row.receipt, row.requestHash)
  }

  /** An authorization has its log row and its outbox row. */
  ghost predicate AuthOk(db: Tables, k: Key) {
    k in db.auths ==>
      var row := db.auths[k];
      && KeyOf(row.auth) == k && row.receipt.tenant == k.tenant
      && row.logSequence in db.log && db.log[row.logSequence] == LogRowOf(k, row)
      && row.receipt in db.outbox && db.outbox[row.receipt].authorization == k
  }

  ghost predicate LogOk(db: Tables, n: nat) {
    n in db.log ==> n < db.nextSequence && db.log[n].key in db.auths && db.auths[db.log[n].key].logSequence == n
  }

  /** What a row holds is a function of its authorization, whatever happened to it. */
  ghost predicate RowOk(hash: AckRequest -> string, auth: AuthRow, row: OutRow) {
    && row.receipt == ReceiptOf(auth) && row.requestHash == hash(AckOf(auth))
    && row.expectedRouteVersion == auth.auth.routeVersion && row.fencingToken == auth.auth.fencingToken
    && row.completions == (if row.status.Completed? then 1 else 0)
    && (row.status.Claimed? <==> row.claimToken != "")
  }

  ghost predicate OutOk(hash: AckRequest -> string, db: Tables, r: Key) {
    r in db.outbox ==>
      var row := db.outbox[r];
      && row.authorization in db.auths && db.auths[row.authorization].receipt == r
      && RowOk(hash, db.auths[row.authorization], row)
      && (row.claimToken != "" ==> r in db.latest && db.latest[r] == row.claimToken)
  }

  /** Log, authorization and outbox rows name each other, one to one. */
  ghost predicate Consistent(hash: AckRequest -> string, db: Tables) {
    && (forall k {:trigger AuthOk(db, k)} :: AuthOk(db, k))
    && (forall n: nat {:trigger LogOk(db, n)} :: LogOk(db, n))
    && (forall r {:trigger OutOk(hash, db, r)} :: OutOk(hash, db, r))
  }

  /** Replacing a row's progress columns keeps every link and every row. */
  lemma ProgressKeeps(hash: AckRequest -> string, db: Tables, r: Key, row: OutRow, latest': map<Key, string>)
    requires Consistent(hash, db) && r in db.outbox && row.authorization == db.outbox[r].authorization
    requires row.authorization in db.auths && RowOk(hash, db.auths[row.authorization], row)
    requires latest' == db.latest || latest' == db.latest[r := row.claimToken]
    requires row.claimToken != "" ==> r in latest' && latest'[r] == row.claimToken
    ensures Consistent(hash, db.(outbox := db.outbox[r := row], latest := latest'))
  {
    var db' := db.(outbox := db.outbox[r := row], latest := latest');
    forall k ensures AuthOk(db', k) {
      assert AuthOk(db, k);
    }
    forall n: nat ensures LogOk(db', n) {
      assert LogOk(db, n);
    }
    forall q ensures OutOk(hash, db', q) {
      assert OutOk(hash, db, q);
    }
  }

  function Inserted(db: Tables, k: Key, row: AuthRow, out: OutRow): Tables {
    Tables(db.auths[k := row], db.log[row.logSequence := LogRowOf(k, row)], db.outbox[row.receipt := out],
           db.nextSequence, db.latest)
  }

  /** The three rows of a new authorization fit. */
  lemma InsertKeeps(hash: AckRequest -> string, db: Tables, k: Key, row: AuthRow, out: OutRow)
    requires Consistent(hash, db)
    requires k == KeyOf(row.auth) && k !in db.auths && row.receipt !in db.outbox && row.receipt.tenant == k.tenant
    requires row.logSequence !in db.log && row.logSequence < db.nextSequence
    requires out.authorization == k && RowOk(hash, row, out) && out.claimToken == ""
    ensures Consistent(hash, Inserted(db, k, row, out))
  {
    var db' := Inserted(db, k, row, out);
    forall q ensures AuthOk(db', q) {
      assert AuthOk(db, q);
    }
    forall n: nat ensures LogOk(db', n) {
      assert LogOk(db, n);
    }
    forall q ensures OutOk(hash, db', q) {
      assert OutOk(hash, db, q);
    }
  }

  /** A burnt sequence number, from a transaction that rolled back, is harmless. */
  lemma SkipKeeps(hash: AckRequest -> string, db: Tables)
    requires Consistent(hash, db)
    ensures Consistent(hash, db.(nextSequence := db.nextSequence + 1))
    ensures db.nextSequence !in db.log
  {
    var db' := db.(nextSequence := db.nextSequence + 1);
    assert LogOk(db, db.nextSequence);
    forall q ensures AuthOk(db', q) {
      assert AuthOk(db, q);
    }
    forall n: nat ensures LogOk(db', n) {
      assert LogOk(db, n);
    }
    forall q ensures OutOk(hash, db', q) {
      assert OutOk(hash, db, q);
    }
  }

  /** The worker's check compares what it claimed with what was accepted: the hash
      stored with the row matches a request exactly when the request is the row's. */
  lemma HashMatchesIffIntact(db: Tables, r: Key, q: AckRequest)
    requires Consistent(AckHash, db) && r in db.outbox && AckHashable(q)
    requires db.outbox[r].authorization in db.auths ==> AckHashable(AckOf(db.auths[db.outbox[r].authorization]))
    ensures db.outbox[r].authorization in db.auths
    ensures AckHash(q) == db.outbox[r].requestHash <==> q == AckOf(db.auths[db.outbox[r].authorization])
  {
    assert OutOk(AckHash, db, r);
    if AckHash(q) == db.outbox[r].requestHash {
      AckHashInjective(q, AckOf(db.auths[db.outbox[r].authorization]));
    }
  }

  datatype Principal = Principal(serviceId: string, tenantId: string, capabilities: seq<string>)

  datatype Accepted = Accepted(receipt: Receipt) | Unauthenticated | PermissionDenied | Invalid | Conflict | Unavailable

  predicate Entitled(principal: Principal, a: Authorization) {
    && principal.serviceId == "corex" && "corex-delivery-write" in principal.capabilities
    && principal.tenantId != "" && principal.tenantId == a.tenantId
  }

  /** Rows were written by AcceptDelivery. */
  ghost predicate Hashed(db: Tables) {
    forall k :: k in db.auths ==> Hashable(db.auths[k].auth) && db.auths[k].requestHash == AuthorizationHash(db.auths[k].auth)
  }

  predicate Due(db: Tables, r: Key, now: int) {
    && r in db.outbox && db.outbox[r].nextAttemptAt <= now
    && (db.outbox[r].status.Pending? || (db.outbox[r].status.Claimed? && db.outbox[r].claimUntil <= now))
  }

  predicate Holds(db: Tables, r: Key, token: string) {
    r in db.outbox && db.outbox[r].status.Claimed? && db.outbox[r].claimToken == token
  }

  class Store {
    const hash: AckRequest -> string      // the acknowledgement digest
    var db: Tables
    var tokens: set<string>               // claim tokens ever issued (history)

    ghost predicate Valid()
      reads this
    {
      Consistent(hash, db) && forall r :: r in db.latest ==> db.latest[r] in tokens
    }

    /** Every authorization came in through AcceptDelivery. */
    ghost predicate Serving()
      reads this
    {
      Valid() && Hashed(db)
    }

    constructor (hash: AckRequest -> string)
      ensures Serving() && this.hash == hash && db == Tables(map[], map[], map[], 0, map[]) && tokens == {}
    {
      this.hash := hash;
      db, tokens := Tables(map[], map[], map[], 0, map[]), {};
    }

    /** The idempotent append of three rows. A known authorization answers with
        its retained receipt when the payload is the same and conflicts
        otherwise; a unique violation rolls back. */
    method Append(input: AppendInput, now: int) returns (r: AppendResult)
      requires Valid()
      modifies this`db
      ensures Valid() && db.latest == old(db).latest && Settles(old(db), db)
      ensures forall q, token :: Holds(db, q, token) ==> Holds(old(db), q, token)
      ensures r.IdempotencyConflict? <==>
                KeyOf(input.auth) in old(db).auths && old(db).auths[KeyOf(input.auth)].requestHash != input.requestHash
      ensures r.StoreError? ==> KeyOf(input.auth) !in old(db).auths
      ensures !r.Appended? || KeyOf(input.auth) in old(db).auths ==>
                db.auths == old(db).auths && db.log == old(db).log && db.outbox == old(db).outbox
      ensures r.Appended? ==> KeyOf(input.auth) in db.auths && db.auths[KeyOf(input.auth)].requestHash == input.requestHash
      ensures r.Appended? ==> r == ResultOf(db.auths[KeyOf(input.auth)])
      ensures r.Appended? && KeyOf(input.auth) !in old(db).auths ==>
                var row := db.auths[KeyOf(input.auth)];
                && row.auth == input.auth && row.receipt == Key(input.auth.tenantId, input.receiptId)
                && row.receipt !in old(db).outbox && row.receipt in db.outbox
                && db.auths == old(db).auths[KeyOf(input.auth) := row]
                && db.outbox == old(db).outbox[row.receipt := db.outbox[row.receipt]]
    {
      var k := KeyOf(input.auth);
      if k in db.auths {
        return if db.auths[k].requestHash != input.requestHash then IdempotencyConflict else ResultOf(db.auths[k]);
      }
      var sequence := db.nextSequence;
      SkipKeeps(hash, db);
      db := db.(nextSequence := sequence + 1);
      var receipt := Key(k.tenant, input.receiptId);
      if receipt in db.outbox || EventTaken(k.tenant, input.auth.eventId) {
        return StoreError;
      }
      var row := AuthRow(input.auth, input.requestHash, receipt, now, sequence);
      var out := OutRow(k, input.auth.routeVersion, input.auth.fencingToken, ReceiptOf(row), hash(AckOf(row)),
                        Pending, "", 0, now, 0, 0);
      InsertKeeps(hash, db, k, row, out);
      db := Inserted(db, k, row, out);
      return ResultOf(row);
    }

    /** UNIQUE (tenant_id, event_id). */
    predicate EventTaken(tenant: string, eventId: string)
      reads this
    {
      exists k :: k in db.auths && k.tenant == tenant && db.auths[k].auth.eventId == eventId
    }

    /** Claims one due row: pending, or claimed with an expired lease. Which due
        row is taken depends on row locks; `r` names it. Tokens are new. Every
        claim of a row carries the same acknowledgement and its hash. */
    method Claim(r: Key, token: string, now: int, ttl: int) returns (ok: bool, claim: AckClaim)
      requires Valid() && token != "" && token !in tokens
      modifies this`db, this`tokens
      ensures Valid() && tokens == old(tokens) + {token}
      ensures ok <==> Due(old(db), r, now)
      ensures ok ==> db == old(db).(outbox := old(db).outbox[r := old(db).outbox[r].(status := Claimed, claimToken := token, claimUntil := now + ttl)],
                                    latest := old(db).latest[r := token])
      ensures ok ==> old(db).outbox[r].authorization in db.auths
      ensures ok ==> RequestOf(claim) == AckOf(db.auths[old(db).outbox[r].authorization]) && claim.claimToken == token
      ensures ok ==> hash(RequestOf(claim)) == claim.requestHash
      ensures !ok ==> db == old(db)
    {
      tokens := tokens + {token};
      claim := AckClaim(Receipt("", "", "", "", "", "", "", 0, 0, 0, ""), "", 0, "", "");
      ok := Due(db, r, now);
      if ok {
        var row := db.outbox[r];
        assert OutOk(hash, db, r);
        assert AuthOk(db, row.authorization);
        var row' := row.(status := Claimed, claimToken := token, claimUntil := now + ttl);
        ProgressKeeps(hash, db, r, row', db.latest[r := token]);
        db := db.(outbox := db.outbox[r := row'], latest := db.latest[r := token]);
        claim := AckClaim(row.receipt, token, row.expectedRouteVersion, row.fencingToken, row.requestHash);
      }
    }

    /** Only the latest token of a claimed row completes it, and only once. */
    method Complete(r: Key, token: string) returns (ok: bool)
      requires Valid() && token != ""
      modifies this`db
      ensures Valid() && (ok <==> Holds(old(db), r, token))
      ensures ok ==> r in db.latest && db.latest[r] == token && old(db).outbox[r].completions == 0
      ensures ok ==> db == old(db).(outbox := old(db).outbox[r := old(db).outbox[r].(status := Completed, claimToken := "", claimUntil := 0, completions := 1)])
      ensures !ok ==> db == old(db)
    {
      ok := Holds(db, r, token);
      if ok {
        assert OutOk(hash, db, r);
        var row := db.outbox[r].(status := Completed, claimToken := "", claimUntil := 0, completions := db.outbox[r].completions + 1);
        ProgressKeeps(hash, db, r, row, db.latest);
        db := db.(outbox := db.outbox[r := row]);
      }
    }

    /** Only the latest token of a claimed row puts it back. */
    method Retry(r: Key, token: string, now: int) returns (ok: bool)
      requires Valid() && token != ""
      modifies this`db
      ensures Valid() && (ok <==> Holds(old(db), r, token))
      ensures ok ==> r in db.latest && db.latest[r] == token
      ensures ok ==> db == old(db).(outbox := old(db).outbox[r := old(db).outbox[r].(status := Pending, claimToken := "", claimUntil := 0,
                                    nextAttemptAt := now, attempts := old(db).outbox[r].attempts + 1)])
      ensures !ok ==> db == old(db)
    {
      ok := Holds(db, r, token);
      if ok {
        assert OutOk(hash, db, r);
        var row := db.outbox[r].(status := Pending, claimToken := "", claimUntil := 0,
                                 nextAttemptAt := now, attempts := db.outbox[r].attempts + 1);
        ProgressKeeps(hash, db, r, row, db.latest);
        db := db.(outbox := db.outbox[r := row]);
      }
    }
  }

  /** From one state to a later one: what was accepted stays as it was, rows keep
      their authorization, and a completed row is never touched again. */
  ghost predicate Settles(before: Tables, after: Tables) {
    && (forall k :: k in before.auths ==> k in after.auths && after.auths[k] == before.auths[k])
    && (forall r :: r in before.outbox ==> r in after.outbox && after.outbox[r].authorization == before.outbox[r].authorization)
    && (forall r :: r in before.outbox && before.outbox[r].status.Completed? ==> after.outbox[r] == before.outbox[r])
  }

  /** Accepting an authorization: the receipt is the one in the outbox, the same
      for every retry with the same payload; a different payload under a known
      id is refused. `wellFormed` and `newReceipt` stand for the UUIDv7 and
      traceparent checks and for the id generator. */
  method AcceptDelivery(s: Store, principal: Principal, a: Authorization, wellFormed: bool, newReceipt: string, now: int)
    returns (r: Accepted)
    requires s.Serving() && Hashable(a)
    modifies s`db
    ensures s.Serving() && Settles(old(s.db), s.db) && s.db.latest == old(s.db).latest
    ensures forall q, token :: Holds(s.db, q, token) ==> Holds(old(s.db), q, token)
    ensures r.Accepted? ==> KeyOf(a) in s.db.auths && s.db.auths[KeyOf(a)].auth == a && r.receipt == ReceiptOf(s.db.auths[KeyOf(a)])
    ensures r.Accepted? ==> s.db.auths[KeyOf(a)].receipt in s.db.outbox && s.db.outbox[s.db.auths[KeyOf(a)].receipt].receipt == r.receipt
    ensures r.Accepted? && KeyOf(a) in old(s.db).auths ==> s.db.auths[KeyOf(a)] == old(s.db).auths[KeyOf(a)]
    ensures r.Conflict? <==> Entitled(principal, a) && wellFormed && KeyOf(a) in old(s.db).auths && old(s.db).auths[KeyOf(a)].auth != a
    ensures r.Accepted? ==> Entitled(principal, a) && wellFormed
    ensures Entitled(principal, a) && wellFormed && KeyOf(a) in old(s.db).auths && old(s.db).auths[KeyOf(a)].auth == a ==> r.Accepted?
    ensures !r.Accepted? ==> s.db.auths == old(s.db).auths && s.db.outbox == old(s.db).outbox
  {
    if principal.serviceId != "corex" {
      return Unauthenticated;
    }
    if "corex-delivery-write" !in principal.capabilities || principal.tenantId == "" || principal.tenantId != a.tenantId {
      return PermissionDenied;
    }
    if !wellFormed {
      return Invalid;
    }
    var k := KeyOf(a);
    if k in s.db.auths && AuthorizationHash(s.db.auths[k].auth) == AuthorizationHash(a) {
      AuthorizationHashInjective(a, s.db.auths[k].auth);
    }
    var res := s.Append(AppendInput(a, newReceipt, AuthorizationHash(a)), now);
    match res
    case IdempotencyConflict => return Conflict;
    case StoreError => return Unavailable;
    case Appended(receiptId, acceptedAt, logSequence) =>
      assert AuthOk(s.db, k);
      assert OutOk(s.hash, s.db, s.db.auths[k].receipt);
      return Accepted(Receipt(receiptId, a.authorizationId, a.eventId, a.tenantId, a.reservationId, a.interactionId,
                              a.targetId, acceptedAt, a.deadline, logSequence, ISSUER));
  }

  /** A token that did not hold its row never does again. */
  ghost predicate Retires(before: Tables, after: Tables, tokens: set<string>) {
    forall r, token :: token in tokens && !Holds(before, r, token) ==> !Holds(after, r, token)
  }

  method Perform(s: Store, op: Op)
    requires s.Serving() && (op.DoAccept? ==> Hashable(op.auth))
    modifies s
    ensures s.Serving() && Settles(old(s.db), s.db) && old(s.tokens) <= s.tokens
    ensures Retires(old(s.db), s.db, old(s.tokens))
  {
    match op
    case DoAccept(principal, auth, wellFormed, newReceipt, at) =>
      var _ := AcceptDelivery(s, principal, auth, wellFormed, newReceipt, at);
    case DoClaim(r, token, now, ttl) =>
      if token != "" && token !in s.tokens {
        var _, _ := s.Claim(r, token, now, ttl);
      }
    case DoComplete(r, token) => if token != "" { var _ := s.Complete(r, token); }
    case DoRetry(r, token, now) => if token != "" { var _ := s.Retry(r, token, now); }
  }

  /** Any interleaving of acceptances, claims, completions and retries by anyone:
      a token once superseded, completed or put back never wins again. */
  method Interleave(s: Store, ops: seq<Op>)
    requires s.Serving() && forall i :: 0 <= i < |ops| && ops[i].DoAccept? ==> Hashable(ops[i].auth)
    modifies s
    ensures s.Serving() && Settles(old(s.db), s.db) && old(s.tokens) <= s.tokens
    ensures Retires(old(s.db), s.db, old(s.tokens))
  {
    for i := 0 to |ops|
      invariant s.Serving() && Settles(old(s.db), s.db) && old(s.tokens) <= s.tokens
      invariant Retires(old(s.db), s.db, old(s.tokens))
    {
      Perform(s, ops[i]);
    }
  }

  /** Over any schedule, a retry of an accepted authorization is accepted again, with
      the very same receipt. */
  method AcceptAgain(s: Store, principal: Principal, a: Authorization, first: string, at: int, meanwhile: seq<Op>,
                     second: string, later: int) returns (r: Accepted, again: Accepted)
    requires s.Serving() && Hashable(a)
    requires forall i :: 0 <= i < |meanwhile| && meanwhile[i].DoAccept? ==> Hashable(meanwhile[i].auth)
    modifies s
    ensures s.Serving() && Settles(old(s.db), s.db)
    ensures r.Accepted? ==> again == r
  {
    r := AcceptDelivery(s, principal, a, true, first, at);
    Interleave(s, meanwhile);
    again := AcceptDelivery(s, principal, a, true, second, later);
  }

  /** The start of a round: claims the row, if it is due. */
  method Begin(s: Store, r: Key, token: string, now: int, ttl: int) returns (ok: bool, claim: AckClaim)
    requires s.Serving() && token != "" && token !in s.tokens
    modifies s
    ensures s.Serving() && Settles(old(s.db), s.db) && s.tokens == old(s.tokens) + {token} && s.db.auths == old(s.db).auths
    ensures Retires(old(s.db), s.db, old(s.tokens))
    ensures (ok <==> Due(old(s.db), r, now)) && (!ok ==> !Holds(s.db, r, token))
    ensures ok ==> && old(s.db).outbox[r].authorization in s.db.auths && s.hash(RequestOf(claim)) == claim.requestHash
                   && RequestOf(claim) == AckOf(s.db.auths[old(s.db).outbox[r].authorization])
  {
    assert OutOk(s.hash, s.db, r);
    ok, claim := s.Claim(r, token, now, ttl);
  }

  /** The end of a round: completes the row or puts it back, if it is still ours. */
  method Conclude(s: Store, r: Key, token: string, success: bool, later: int) returns (won: bool)
    requires s.Serving() && token != ""
    modifies s`db
    ensures s.Serving() && Settles(old(s.db), s.db) && s.db.auths == old(s.db).auths
    ensures (won <==> Holds(old(s.db), r, token)) && !Holds(s.db, r, token)
    ensures won ==> r in s.db.latest && s.db.latest[r] == token && (success ==> s.db.outbox[r].status.Completed?)
    ensures Retires(old(s.db), s.db, s.tokens)
  {
    if success {
      won := s.Complete(r, token);
    } else {
      won := s.Retry(r, token, later);
    }
  }

  datatype Processed = Nothing | HashMismatch | Retried | CompletedAck | LostClaim

  /** A worker's round, with anything happening while it talks to the router. The
      hash check never fails, the request is the row's one acknowledgement, only a
      round that still holds the latest claim changes the row, and the round's
      token is spent. */
  method ProcessOne(s: Store, r: Key, token: string, now: int, ttl: int,
                    meanwhile: seq<Op>, answer: Answer, later: int) returns (p: Processed, request: AckRequest)
    requires s.Serving() && token != "" && token !in s.tokens
    requires forall i :: 0 <= i < |meanwhile| && meanwhile[i].DoAccept? ==> Hashable(meanwhile[i].auth)
    modifies s
    ensures s.Serving() && Settles(old(s.db), s.db)
    ensures p.Nothing? <==> !Due(old(s.db), r, now)
    ensures !p.HashMismatch?
    ensures !p.Nothing? ==> old(s.db).outbox[r].authorization in s.db.auths
                            && request == AckOf(s.db.auths[old(s.db).outbox[r].authorization])
    ensures p.CompletedAck? || p.Retried? ==> r in s.db.latest && s.db.latest[r] == token
    ensures p.CompletedAck? ==> r in s.db.outbox && s.db.outbox[r].status.Completed?
    ensures token in s.tokens && !Holds(s.db, r, token) && Retires(old(s.db), s.db, old(s.tokens))
  {
    var ok, claim := Begin(s, r, token, now, ttl);
    request := RequestOf(claim);
    if !ok {
      return Nothing, request;
    }
    var intact := s.hash(request) == claim.requestHash;
    if intact {
      Interleave(s, meanwhile);
    }
    var success := intact && answer.Answered? && !answer.disposition.Unspecified?;
    var won := Conclude(s, r, token, success, later);
    p := if !intact then HashMismatch else if !won then LostClaim else if success then CompletedAck else Retried;
  }
}
