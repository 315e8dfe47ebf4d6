/** What the two versioned projections share: keys, identities, and the pair of
    write-once ledgers, one by version and one by event. */
module Ledgers {

  datatype Option<T> = None | Some(value: T)

  datatype Key = Key(tenant: string, interaction: string)

  /** An event and the digest of what it said. */
  datatype Identity = Identity(eventId: string, hash: string)

  datatype Slot = Slot(key: Key, version: nat)

  datatype EventKey = EventKey(tenant: string, eventId: string)

  datatype EventRow = EventRow(slot: Slot, hash: string)

  datatype TokenKey = TokenKey(tenant: string, token: string)

  /** A transaction's end: committed with its answer, or rolled back by a
      constraint or an error. */
  datatype Tx<D> = Committed(db: D, ok: bool) | RolledBack

  function After<D>(db: D, tx: Tx<D>): D {
    if tx.Committed? then tx.db else db
  }

  predicate Hex(c: char) {
    '0' <= c <= '9' || 'a' <= c <= 'f'
  }

  /** The canonical text of a version 7 UUID. */
  predicate UuidV7(s: string) {
    && |s| == 36
    && (forall i :: 0 <= i < 36 ==> if i in {8, 13, 18, 23} then s[i] == '-' else Hex(s[i]))
    && s[14] == '7' && s[19] in "89ab"
  }

  datatype Ledger = Ledger(versions: map<Slot, Identity>, events: map<EventKey, EventRow>)

  const EMPTY_LEDGER: Ledger := Ledger(map[], map[])

  /** Both rows of one identity, or a unique violation. */
  function Insert(l: Ledger, slot: Slot, id: Identity): Option<Ledger> {
    var e := EventKey(slot.key.tenant, id.eventId);
    if slot in l.versions || e in l.events then None
    else Some(Ledger(l.versions[slot := id], l.events[e := EventRow(slot, id.hash)]))
  }

  predicate Holds(l: Ledger, slot: Slot, id: Identity) {
    slot in l.versions && l.versions[slot] == id
  }

  predicate SlotOk(l: Ledger, s: Slot) {
    s in l.versions ==>
      var e := EventKey(s.key.tenant, l.versions[s].eventId);
      s.version > 0 && e in l.events && l.events[e] == EventRow(s, l.versions[s].hash)
  }

  predicate EventOk(l: Ledger, e: EventKey) {
    e in l.events ==>
      var row := l.events[e];
      row.slot.key.tenant == e.tenant && Holds(l, row.slot, Identity(e.eventId, row.hash))
  }

  /** The two ledgers name each other. */
  ghost predicate Sound(l: Ledger) {
    && (forall s {:trigger SlotOk(l, s)} :: SlotOk(l, s))
    && (forall e {:trigger EventOk(l, e)} :: EventOk(l, e))
  }

  ghost predicate Extends(l: Ledger, l': Ledger) {
    forall s :: s in l.versions ==> s in l'.versions && l'.versions[s] == l.versions[s]
  }

  /** The new rows all belong to `key`, up to version `n`. */
  ghost predicate ExtendsBy(l: Ledger, l': Ledger, key: Key, n: nat) {
    && Extends(l, l')
    && forall s :: s in l'.versions && s !in l.versions ==> s.key == key && s.version <= n
  }

  lemma InsertKeeps(l: Ledger, slot: Slot, id: Identity)
    requires Sound(l) && slot.version > 0 && Insert(l, slot, id).Some?
    ensures var l' := Insert(l, slot, id).value;
            Sound(l') && ExtendsBy(l, l', slot.key, slot.version) && Holds(l', slot, id)
  {
    var l' := Insert(l, slot, id).value;
    forall s ensures SlotOk(l', s) {
      assert SlotOk(l, s);
    }
    forall e ensures EventOk(l', e) {
      assert EventOk(l, e);
    }
  }

  /** An event is in the ledger under one version only. */
  lemma EventOnce(l: Ledger, s: Slot, t: Slot)
    requires Sound(l) && s in l.versions && t in l.versions && s.key.tenant == t.key.tenant
    requires l.versions[s].eventId == l.versions[t].eventId
    ensures s == t
  {
    assert SlotOk(l, s) && SlotOk(l, t);
  }

  /** A string that a finite table does not hold, and a bound on its numbers. */
  lemma {:induction false} LengthBound(used: set<string>) returns (n: nat)
    ensures forall s :: s in used ==> |s| <= n
  {
    if used == {} {
      n := 0;
    } else {
      var s :| s in used;
      var m := LengthBound(used - {s});
      n := if |s| > m then |s| else m;
    }
  }

  lemma Unused(used: set<string>) returns (s: string)
    ensures s !in used
  {
    var n := LengthBound(used);
    s := seq(n + 1, _ => 'x');
  }

  lemma {:induction false} VersionBound(used: set<nat>) returns (n: nat)
    ensures forall v: nat :: v in used ==> v <= n
  {
    if used == {} {
      n := 0;
    } else {
      var u: nat :| u in used;
      var m := VersionBound(used - {u});
      n := if u > m then u else m;
      forall v: nat | v in used ensures v <= n {
        assert v == u || v in used - {u};
      }
    }
  }
}
