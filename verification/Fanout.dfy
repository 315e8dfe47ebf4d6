/** The fan-out projector (internal/projector/projector.go): one live instance
    tails the log serially, folds participation, publishes every fact to its
    recipients' feeds through a deduplicating sink, and acknowledges. Crashes,
    takeovers, failed publishes and redeliveries are inputs. */
module Fanout {
  import opened Encoding
  import opened Membership

  /** A delivered log message; Corrupt carries no event. */
  datatype Fact = Corrupt | Fact(tenant: string, iid: string, event: Event)

  datatype Key = Key(tenant: string, iid: string)

  type Views = map<Key, View>

  predicate Projectable(f: Fact) {
    f.Fact? && f.tenant != "" && f.event.eventType != Note("") && f.iid != ""
  }

  function KeyOf(f: Fact): Key
    requires f.Fact?
  {
    Key(f.tenant, f.iid)
  }

  function ViewOf(vs: Views, k: Key): View {
    if k in vs then vs[k] else map[]
  }

  /** state.view(key).ApplyFact(event). */
  function Folded(vs: Views, f: Fact): Views
    requires f.Fact?
  {
    vs[KeyOf(f) := ApplyFact(ViewOf(vs, KeyOf(f)), f.event)]
  }

  // ------------------------------------------------------- the reference fold

  /** The facts of one interaction among the first `n`. */
  function FactsOf(log: seq<Fact>, n: nat, k: Key): seq<Event>
    requires n <= |log|
  {
    if n == 0 then []
    else
      var before := FactsOf(log, n - 1, k);
      if Projectable(log[n - 1]) && KeyOf(log[n - 1]) == k then before + [log[n - 1].event] else before
  }

  /** Its membership after the first `n` facts, folded from the start. */
  function ViewAt(log: seq<Fact>, n: nat, k: Key): View
    requires n <= |log|
  {
    Fold(FactsOf(log, n, k))
  }

  predicate RealKey(k: Key) {
    k.tenant != "" && k.iid != ""
  }

  /** The router's promise: dot-free tokens, sequences rising per interaction. */
  ghost predicate LogOk(log: seq<Fact>) {
    && (forall i :: 0 <= i < |log| && Projectable(log[i]) ==> DotFree(log[i].tenant) && DotFree(log[i].iid))
    && (forall i, j :: 0 <= i < j < |log| && Projectable(log[i]) && Projectable(log[j]) && KeyOf(log[i]) == KeyOf(log[j]) ==>
          log[i].event.sequence < log[j].event.sequence)
  }

  /** A memory agrees with the reference fold on every real interaction. */
  ghost predicate Tracks(vs: Views, log: seq<Fact>, n: nat)
    requires n <= |log|
  {
    forall k :: RealKey(k) ==> ViewOf(vs, k) == ViewAt(log, n, k)
  }

  lemma {:induction false} FactsBelow(log: seq<Fact>, n: nat, k: Key, m: nat)
    requires LogOk(log) && n <= m < |log| && Projectable(log[m]) && KeyOf(log[m]) == k
    ensures var facts := FactsOf(log, n, k);
            && Increasing(facts)
            && forall i :: 0 <= i < |facts| ==> facts[i].sequence < log[m].event.sequence
  {
    if n > 0 {
      FactsBelow(log, n - 1, k, m);
      if Projectable(log[n - 1]) && KeyOf(log[n - 1]) == k {
        FactsBelow(log, n - 1, k, n - 1);
      }
    }
  }

  /** Just before fact `m` of an interaction its view is in order, below `m`. */
  lemma ViewBefore(log: seq<Fact>, m: nat)
    requires LogOk(log) && m < |log| && Projectable(log[m])
    ensures WellFormed(ViewAt(log, m, KeyOf(log[m])), log[m].event.sequence - 1)
    ensures ViewAt(log, m + 1, KeyOf(log[m])) == ApplyFact(ViewAt(log, m, KeyOf(log[m])), log[m].event)
  {
    var k := KeyOf(log[m]);
    var facts := FactsOf(log, m, k);
    FactsBelow(log, m, k, m);
    FoldOrdered(facts, log[m].event.sequence - 1);
    assert FactsOf(log, m + 1, k) == facts + [log[m].event];
    assert (facts + [log[m].event])[..|facts|] == facts;
  }

  /** Folding the next fact keeps the memory on track, */
  lemma FoldTracks(vs: Views, log: seq<Fact>, n: nat)
    requires LogOk(log) && n < |log| && Tracks(vs, log, n)
    ensures Projectable(log[n]) ==> Tracks(Folded(vs, log[n]), log, n + 1)
    ensures !Projectable(log[n]) ==> Tracks(vs, log, n + 1)
  {
    if Projectable(log[n]) {
      ViewBefore(log, n);
    }
  }

  /** and folding it again on redelivery changes nothing. */
  lemma RefoldTracks(vs: Views, log: seq<Fact>, n: nat)
    requires LogOk(log) && n < |log| && Tracks(vs, log, n + 1) && Projectable(log[n])
    ensures Tracks(Folded(vs, log[n]), log, n + 1)
  {
    ViewBefore(log, n);
    var k := KeyOf(log[n]);
    assert RealKey(k);
    ApplyIdempotent(ViewAt(log, n, k), log[n].event, log[n].event.sequence - 1);
  }

  // ------------------------------------------------------- messages

  datatype Message =
    | FactFor(tenant: string, agent: string, iid: string, event: Event)
    | Revoked(tenant: string, agent: string, iid: string, at: int)

  function IdOf(m: Message): string {
    match m
    case FactFor(t, a, i, e) => FeedDedupId(t, a, i, e.sequence, false)
    case Revoked(t, a, i, at) => FeedDedupId(t, a, i, at, true)
  }

  /** The agents whose feeds must receive fact `n`. */
  function Recipients(log: seq<Fact>, n: nat): set<string>
    requires n < |log| && Projectable(log[n])
  {
    CoveredBy(ViewAt(log, n + 1, KeyOf(log[n])), log[n].event.sequence)
  }

  /** They are the members just before it and the members just after it. */
  lemma RecipientsAreMembers(log: seq<Fact>, n: nat)
    requires LogOk(log) && n < |log| && Projectable(log[n])
    ensures Recipients(log, n) == Members(ViewAt(log, n, KeyOf(log[n]))) + Members(ViewAt(log, n + 1, KeyOf(log[n])))
  {
    ViewBefore(log, n);
    RecipientsAreMembersAround(ViewAt(log, n, KeyOf(log[n])), log[n].event, log[n].event.sequence - 1);
  }

  function FeedMessage(f: Fact, agent: string): Message
    requires f.Fact?
  {
    FactFor(f.tenant, agent, f.iid, f.event)
  }

  function Tombstone(f: Fact): Message
    requires f.Fact?
  {
    Revoked(f.tenant, f.event.actor, f.iid, f.event.sequence)
  }

  /** A message that fact `n` calls for. */
  ghost predicate CalledFor(log: seq<Fact>, n: nat, m: Message) {
    && n < |log| && Projectable(log[n])
    && ((exists a :: a in Recipients(log, n) && m == FeedMessage(log[n], a))
        || (log[n].event.eventType.Left? && m == Tombstone(log[n])))
  }

  /** Two called-for messages with one deduplication id are one message. */
  lemma IdsNeverCollide(log: seq<Fact>, n: nat, m: Message, n': nat, m': Message)
    requires LogOk(log) && CalledFor(log, n, m) && CalledFor(log, n', m') && IdOf(m) == IdOf(m')
    ensures n == n' && m == m'
  {
    var s, s' := log[n].event.sequence, log[n'].event.sequence;
    FeedDedupIdInjective(m.tenant, m.agent, m.iid, s, m.Revoked?, m'.tenant, m'.agent, m'.iid, s', m'.Revoked?);
    assert KeyOf(log[n]) == KeyOf(log[n']);
  }

  ghost predicate Sourced(log: seq<Fact>, m: Message, limit: int) {
    exists n: nat :: n <= limit && CalledFor(log, n, m)
  }

  ghost predicate In(stored: seq<Message>, m: Message) {
    m in stored
  }

  /** The feed contents: every message called for by some fact up to `limit`,
      no deduplication id twice. */
  ghost predicate StoredOk(log: seq<Fact>, stored: seq<Message>, limit: int) {
    && (forall i :: 0 <= i < |stored| ==> Sourced(log, stored[i], limit))
    && (forall i, j :: 0 <= i < j < |stored| ==> IdOf(stored[i]) != IdOf(stored[j]))
  }

  ghost predicate Complete(log: seq<Fact>, stored: seq<Message>, n: nat)
    requires n < |log| && Projectable(log[n])
  {
    && (forall a :: a in Recipients(log, n) ==> In(stored, FeedMessage(log[n], a)))
    && (log[n].event.eventType.Left? ==> In(stored, Tombstone(log[n])))
  }

  /** What an acknowledgement of fact `n` must leave behind. */
  ghost predicate Settled(log: seq<Fact>, stored: seq<Message>, dlq: set<nat>, n: nat)
    requires n < |log|
  {
    n in dlq || (Projectable(log[n]) && Complete(log, stored, n))
  }

  ghost predicate SettledUpTo(log: seq<Fact>, stored: seq<Message>, dlq: set<nat>, upto: nat)
    requires upto <= |log|
  {
    forall n: nat :: n < upto ==> Settled(log, stored, dlq, n)
  }

  lemma KnownIdIsTheMessage(log: seq<Fact>, stored: seq<Message>, limit: int, m: Message, n: nat, i: nat)
    requires LogOk(log) && StoredOk(log, stored, limit) && CalledFor(log, n, m)
    requires i < |stored| && IdOf(stored[i]) == IdOf(m)
    ensures In(stored, m)
  {
    assert Sourced(log, stored[i], limit);
    var n': nat :| n' <= limit && CalledFor(log, n', stored[i]);
    IdsNeverCollide(log, n, m, n', stored[i]);
  }

  lemma NewMessageKeepsFeeds(log: seq<Fact>, stored: seq<Message>, limit: int, m: Message)
    requires StoredOk(log, stored, limit) && Sourced(log, m, limit)
    requires forall i :: 0 <= i < |stored| ==> IdOf(stored[i]) != IdOf(m)
    ensures StoredOk(log, stored + [m], limit)
    ensures forall x :: In(stored + [m], x) <==> In(stored, x) || x == m
  {
  }

  // ------------------------------------------------------- the projector

  /** What the sink does with one publish: stored and acked, stored with the
      ack lost, or not stored. */
  datatype Net = Acked | AckLost | Refused

  /** What became of an acknowledgement: answered, arrived with the answer lost, or
      never arrived. The last two are an error to the projector. */
  datatype AckFate = AckAnswered | AnswerLost | AckDropped

  /** How the data loop goes on: to the next fact, to a redelivery of this one, past
      an error under a cancelled context, or not at all. */
  datatype Verdict = AckedFact | Nakked | Resumed | Stopped

  /** What the surroundings do during one delivery. `cancelled`: the fence cancelled
      the data context before the acknowledgement; `fenced`: by the time an error is
      looked at; `save`: a snapshot is due and its store is up. */
  datatype Luck = Luck(cancelled: bool, fenced: bool, dlqUp: bool, nakFails: bool, ack: AckFate, save: bool)

  class Projector {
    const log: seq<Fact>
    const maxDeliver: nat
    const publishRetry: nat

    var acked: nat                // the durable ack floor
    var delivered: nat            // deliveries of the fact after the floor
    var live: bool                // an instance holds the lease and is hydrated
    var views: Views              // its memory
    var saved: map<nat, Views>    // the snapshot store
    var stored: seq<Message>      // the feeds
    var dlq: set<nat>
    ghost var folded: bool        // the memory includes the fact in flight

    ghost predicate Valid()
      reads this
    {
      && LogOk(log)
      && acked <= |log|
      && (live ==> (folded ==> acked < |log|) && Tracks(views, log, if folded then acked + 1 else acked))
      && (forall s :: s in saved ==> s <= acked && Tracks(saved[s], log, s))
      && StoredOk(log, stored, acked)
      && SettledUpTo(log, stored, dlq, acked)
    }

    constructor (log: seq<Fact>, maxDeliver: nat, publishRetry: nat)
      requires LogOk(log)
      ensures Valid() && this.log == log && acked == 0 && stored == [] && dlq == {} && !live
    {
      this.log, this.maxDeliver, this.publishRetry := log, maxDeliver, publishRetry;
      acked, delivered, live, views, saved, stored, dlq, folded := 0, 0, false, map[], map[], [], {}, false;
    }

    /** Crash, lost lease or shutdown. */
    method Stop()
      requires Valid()
      modifies this`live
      ensures Valid() && !live
    {
      live := false;
    }

    /** Takeover: load a snapshot at or below the floor, if the store has one,
        and fold the tail read-only. */
    method Hydrate(choice: nat)
      requires Valid()
      modifies this`live, this`views, this`folded
      ensures Valid() && live && !folded && Tracks(views, log, acked)
    {
      var from := 0;
      views := map[];
      if choice in saved {
        from := choice;
        views := Restored(saved[choice]);
        RestoreTracks(saved[choice], log, choice);
      }
      for i := from to acked
        invariant Tracks(views, log, i)
      {
        FoldTracks(views, log, i);
        if log[i].Fact? {
          FoldOutsideIsQuiet(views, log, i);
          views := Folded(views, log[i]);
        }
      }
      live, folded := true, false;
    }

    /** One publish with retries; success means the message is stored. */
    method PublishWithRetry(m: Message, n: nat, net: nat -> Net) returns (ok: bool)
      requires LogOk(log) && n == acked && CalledFor(log, n, m) && StoredOk(log, stored, acked)
      modifies this`stored
      ensures StoredOk(log, stored, acked)
      ensures old(stored) <= stored && (forall x :: In(stored, x) ==> In(old(stored), x) || x == m)
      ensures ok ==> In(stored, m)
    {
      ok := false;
      var attempt := 0;
      while attempt < publishRetry
        invariant attempt <= publishRetry && !ok
        invariant StoredOk(log, stored, acked)
        invariant old(stored) <= stored && (forall x :: In(stored, x) ==> In(old(stored), x) || x == m)
      {
        if net(attempt) != Refused {
          Store(m, n);
          if net(attempt) == Acked {
            return true;
          }
        }
        attempt := attempt + 1;
      }
    }

    /** The sink: a known deduplication id is acknowledged without storing. */
    method Store(m: Message, n: nat)
      requires LogOk(log) && n <= acked && CalledFor(log, n, m) && StoredOk(log, stored, acked)
      modifies this`stored
      ensures StoredOk(log, stored, acked) && In(stored, m) && old(stored) <= stored
      ensures forall x :: In(stored, x) ==> In(old(stored), x) || x == m
    {
      var at := Lookup(IdOf(m));
      if at >= 0 {
        KnownIdIsTheMessage(log, stored, acked, m, n, at);
        return;
      }
      assert Sourced(log, m, acked);
      NewMessageKeepsFeeds(log, stored, acked, m);
      stored := stored + [m];
    }

    method Lookup(id: string) returns (at: int)
      ensures -1 <= at < |stored|
      ensures at >= 0 ==> IdOf(stored[at]) == id
      ensures at < 0 ==> forall j :: 0 <= j < |stored| ==> IdOf(stored[j]) != id
    {
      for i := 0 to |stored|
        invariant forall j :: 0 <= j < i ==> IdOf(stored[j]) != id
      {
        if IdOf(stored[i]) == id {
          return i;
        }
      }
      return -1;
    }

    /** Publishes fact `n` to every recipient; any of them may fail. */
    method FanOut(n: nat, recipients: set<string>, net: (string, nat) -> Net) returns (ok: bool)
      requires LogOk(log) && n == acked < |log| && Projectable(log[n]) && recipients == Recipients(log, n)
      requires StoredOk(log, stored, acked)
      modifies this`stored
      ensures StoredOk(log, stored, acked) && old(stored) <= stored
      ensures ok ==> forall a :: a in recipients ==> In(stored, FeedMessage(log[n], a))
    {
      ok := true;
      var todo := recipients;
      while todo != {}
        invariant todo <= recipients && StoredOk(log, stored, acked) && old(stored) <= stored
        invariant ok ==> forall a :: a in recipients && a !in todo ==> In(stored, FeedMessage(log[n], a))
        decreases todo
      {
        var a :| a in todo;
        ghost var before := stored;
        assert CalledFor(log, n, FeedMessage(log[n], a));
        var published := PublishWithRetry(FeedMessage(log[n], a), n, (attempt: nat) => net(a, attempt));
        StillIn(before, stored);
        ok := ok && published;
        todo := todo - {a};
      }
    }

    /** Folds the fact in flight, again on a redelivery, and picks recipients. */
    method FoldInFlight() returns (recipients: set<string>)
      requires Valid() && live && acked < |log| && Projectable(log[acked])
      modifies this`views, this`folded
      ensures Valid() && folded && recipients == Recipients(log, acked)
    {
      var f := log[acked];
      if folded {
        RefoldTracks(views, log, acked);
      } else {
        FoldTracks(views, log, acked);
      }
      views := Folded(views, f);
      folded := true;
      assert RealKey(KeyOf(f));
      recipients := CoveredBy(ViewOf(views, KeyOf(f)), f.event.sequence);
    }

    /** All publishes of the fact in flight: the feeds, then a leave's tombstone. */
    method PublishAll(recipients: set<string>, net: (string, nat) -> Net, tombNet: nat -> Net) returns (ok: bool)
      requires Valid() && acked < |log| && Projectable(log[acked]) && recipients == Recipients(log, acked)
      modifies this`stored
      ensures Valid() && old(stored) <= stored
      ensures ok ==> Complete(log, stored, acked)
    {
      var n := acked;
      ok := FanOut(n, recipients, net);
      SettledGrows(log, old(stored), stored, dlq, n);
      if ok && log[n].event.eventType.Left? {
        ghost var mid := stored;
        ok := PublishWithRetry(Tombstone(log[n]), n, tombNet);
        StillIn(mid, stored);
        SettledGrows(log, mid, stored, dlq, n);
      }
    }

    /** One delivery of the fact after the floor. */
    method Process(net: (string, nat) -> Net, tombNet: nat -> Net, luck: Luck) returns (v: Verdict)
      requires Valid() && live && acked < |log|
      modifies this`acked, this`delivered, this`live, this`views, this`saved, this`stored, this`dlq, this`folded
      ensures Valid() && old(acked) <= acked <= old(acked) + 1 && old(stored) <= stored && old(dlq) <= dlq
      ensures v.AckedFact? ==> acked == old(acked) + 1
      ensures v.Nakked? ==> acked == old(acked)
      ensures live <==> !v.Stopped?
    {
      delivered := delivered + 1;
      if !Projectable(log[acked]) {
        v := DlqOrNak(acked, luck);
        return;
      }
      var recipients := FoldInFlight();
      var ok := PublishAll(recipients, net, tombNet);
      if luck.cancelled {
        v := Nakked;
      } else if !ok {
        v := DlqOrNak(acked, luck);
      } else {
        v := AckAndSnapshot(luck);
      }
    }

    /** The end of a fully published fact: acknowledge, then perhaps snapshot. */
    method AckAndSnapshot(luck: Luck) returns (v: Verdict)
      requires Valid() && live && folded && acked < |log| && Projectable(log[acked]) && Complete(log, stored, acked)
      modifies this`acked, this`delivered, this`live, this`saved, this`folded
      ensures Valid() && (live <==> !v.Stopped?) && !v.Nakked?
      ensures acked == if luck.ack.AckDropped? then old(acked) else old(acked) + 1
      ensures v.AckedFact? <==> luck.ack.AckAnswered?
      ensures v.Resumed? <==> !luck.ack.AckAnswered? && luck.fenced
      ensures saved == if luck.ack.AckAnswered? && luck.save then old(saved)[acked := views] else old(saved)
      ensures luck.ack.AckAnswered? && luck.save ==> Tracks(saved[acked], log, acked)
    {
      SettledByFeeds(log, stored, dlq, acked);
      v := Ack(acked, luck);
      if v.AckedFact? && luck.save {
        saved := saved[acked := views];
      }
    }

    /** Nak while redeliveries remain; then dead-letter and acknowledge. */
    method DlqOrNak(n: nat, luck: Luck) returns (v: Verdict)
      requires Valid() && live && n == acked < |log| && (Projectable(log[n]) ==> folded)
      modifies this`acked, this`delivered, this`live, this`dlq, this`folded
      ensures Valid() && old(acked) <= acked <= old(acked) + 1 && old(dlq) <= dlq
      ensures v.AckedFact? ==> acked == old(acked) + 1
      ensures v.Nakked? ==> acked == old(acked)
      ensures live <==> !v.Stopped?
      ensures dlq == if old(delivered) < maxDeliver || !luck.dlqUp then old(dlq) else old(dlq) + {n}
      ensures old(delivered) < maxDeliver || !luck.dlqUp ==> acked == old(acked)
    {
      if delivered < maxDeliver || !luck.dlqUp {
        if luck.nakFails {
          v := OnError(luck.fenced);
        } else {
          v := Nakked;
        }
        return;
      }
      SettledByDlq(log, stored, dlq, n);
      dlq := dlq + {n};
      v := Ack(n, luck);
    }

    /** The data loop looks at an error: under a cancelled context it goes on, the
        fact un-acknowledged or not; otherwise it ends. */
    method OnError(fenced: bool) returns (v: Verdict)
      requires Valid() && live
      modifies this`live
      ensures Valid() && (live <==> fenced)
      ensures v == if fenced then Resumed else Stopped
    {
      if fenced {
        return Resumed;
      }
      live := false;
      return Stopped;
    }

    /** The synchronous acknowledgement. */
    method Ack(n: nat, luck: Luck) returns (v: Verdict)
      requires LogOk(log) && n == acked < |log| && live
      requires Tracks(views, log, if folded then acked + 1 else acked) && (Projectable(log[n]) ==> folded)
      requires forall s :: s in saved ==> s <= acked && Tracks(saved[s], log, s)
      requires StoredOk(log, stored, acked)
      requires SettledUpTo(log, stored, dlq, acked + 1)
      modifies this`acked, this`delivered, this`live, this`folded
      ensures Valid() && (live <==> !v.Stopped?)
      ensures acked == if luck.ack.AckDropped? then old(acked) else old(acked) + 1
      ensures acked > old(acked) ==> !folded
      ensures v == if luck.ack.AckAnswered? then AckedFact else if luck.fenced then Resumed else Stopped
    {
      if !folded {
        FoldTracks(views, log, n);
      }
      StoredStillOk(log, stored, acked);
      if !luck.ack.AckDropped? {
        acked, delivered, folded := acked + 1, 0, false;
      }
      if luck.ack.AckAnswered? {
        return AckedFact;
      }
      v := OnError(luck.fenced);
    }
  }

  /** One event in the life of the deployment. */
  datatype Turn =
    | TakeOver(choice: nat)
    | Die
    | Deliver(net: (string, nat) -> Net, tombNet: nat -> Net, luck: Luck)

  /** Any schedule of crashes, takeovers, failures and redeliveries. */
  method Drive(p: Projector, schedule: seq<Turn>)
    requires p.Valid()
    modifies p
    ensures p.Valid() && old(p.acked) <= p.acked && old(p.stored) <= p.stored
  {
    for i := 0 to |schedule|
      invariant p.Valid() && old(p.acked) <= p.acked && old(p.stored) <= p.stored
    {
      match schedule[i]
      case TakeOver(choice) => p.Hydrate(choice);
      case Die => p.Stop();
      case Deliver(net, tombNet, luck) =>
        if p.live && p.acked < |p.log| {
          var _ := p.Process(net, tombNet, luck);
        }
    }
  }

  ghost predicate OnceIn(stored: seq<Message>, m: Message) {
    exists i :: 0 <= i < |stored| && stored[i] == m && forall j :: 0 <= j < |stored| && stored[j] == m ==> j == i
  }

  /** What a valid state says of an acknowledged fact that was not dead-lettered:
      it is exactly once in the feed of every agent who was a member just before
      or just after it, with exactly one tombstone if it is a leave. */
  lemma AckedFactIsInEveryFeedOnce(log: seq<Fact>, stored: seq<Message>, dlq: set<nat>, acked: nat, n: nat)
    requires LogOk(log) && acked <= |log| && StoredOk(log, stored, acked) && SettledUpTo(log, stored, dlq, acked)
    requires n < acked && n !in dlq
    ensures Projectable(log[n])
    ensures var k := KeyOf(log[n]);
            forall a :: a in Members(ViewAt(log, n, k)) + Members(ViewAt(log, n + 1, k)) ==> OnceIn(stored, FeedMessage(log[n], a))
    ensures log[n].event.eventType.Left? ==> OnceIn(stored, Tombstone(log[n]))
  {
    assert Settled(log, stored, dlq, n);
    RecipientsAreMembers(log, n);
    forall m | In(stored, m) ensures OnceIn(stored, m) {
      var i :| 0 <= i < |stored| && stored[i] == m;
      assert forall j :: 0 <= j < |stored| && stored[j] == m ==> j == i;
    }
  }

  /** Why a feed holds a message: a fact around which its agent was a member, or the
      agent's own leave. */
  ghost predicate Explained(log: seq<Fact>, n: nat, m: Message) {
    && n < |log| && Projectable(log[n])
    && match m
       case FactFor(_, agent, _, _) =>
         m == FeedMessage(log[n], agent)
         && agent in Members(ViewAt(log, n, KeyOf(log[n]))) + Members(ViewAt(log, n + 1, KeyOf(log[n])))
       case Revoked(_, agent, _, _) =>
         m == Tombstone(log[n]) && log[n].event.eventType.Left? && log[n].event.actor == agent
         && agent !in Members(ViewAt(log, n + 1, KeyOf(log[n])))
  }

  /** And every message of every feed, tombstones included, is explained by exactly
      one fact of the log. */
  lemma NoStrayMessage(log: seq<Fact>, stored: seq<Message>, limit: int, i: nat)
    requires LogOk(log) && StoredOk(log, stored, limit) && i < |stored|
    ensures exists n: nat :: n <= limit && Explained(log, n, stored[i])
                             && forall k: nat :: Explained(log, k, stored[i]) ==> k == n
  {
    assert Sourced(log, stored[i], limit);
    var n: nat :| n <= limit && CalledFor(log, n, stored[i]);
    RecipientsAreMembers(log, n);
    if stored[i].Revoked? {
      LeaverIsNoMember(log, n);
    }
    assert Explained(log, n, stored[i]);
    forall k: nat | Explained(log, k, stored[i]) ensures k == n {
      RecipientsAreMembers(log, k);
      assert CalledFor(log, k, stored[i]);
      IdsNeverCollide(log, k, stored[i], n, stored[i]);
    }
  }

  lemma LeaverIsNoMember(log: seq<Fact>, n: nat)
    requires LogOk(log) && n < |log| && Projectable(log[n]) && log[n].event.eventType.Left?
    ensures log[n].event.actor !in Members(ViewAt(log, n + 1, KeyOf(log[n])))
  {
    ViewBefore(log, n);
    FoldOneOpen(FactsOf(log, n, KeyOf(log[n])));
    MemberAfter(ViewAt(log, n, KeyOf(log[n])), log[n].event, log[n].event.actor);
  }

  // ------------------------------------------------------- helpers

  /** restore(snapshot): agents with no intervals are skipped. */
  function Restored(vs: Views): Views {
    map k | k in vs :: map a | a in vs[k] && vs[k][a] != [] :: vs[k][a]
  }

  lemma RestoreTracks(vs: Views, log: seq<Fact>, n: nat)
    requires n <= |log| && Tracks(vs, log, n)
    ensures Tracks(Restored(vs), log, n)
  {
    forall k | RealKey(k) ensures ViewOf(Restored(vs), k) == ViewAt(log, n, k) {
      NoEmptyAgents(FactsOf(log, n, k));
      assert ViewOf(vs, k) == ViewAt(log, n, k);
      if k in vs {
        assert Restored(vs)[k] == vs[k];
      }
    }
  }

  lemma {:induction false} NoEmptyAgents(facts: seq<Event>)
    ensures forall a :: a in Fold(facts) ==> Fold(facts)[a] != []
  {
    if facts != [] {
      var n := |facts| - 1;
      NoEmptyAgents(facts[..n]);
      assert Fold(facts) == ApplyFact(Fold(facts[..n]), facts[n]);
    }
  }

  /** Hydration also folds facts that process would have dead-lettered; they
      touch no real interaction, or change nothing. */
  lemma FoldOutsideIsQuiet(vs: Views, log: seq<Fact>, n: nat)
    requires LogOk(log) && n < |log| && log[n].Fact? && Tracks(vs, log, n)
    ensures Tracks(Folded(vs, log[n]), log, n + 1)
  {
    FoldTracks(vs, log, n);
    if !Projectable(log[n]) {
      forall k | RealKey(k) ensures ViewOf(Folded(vs, log[n]), k) == ViewOf(vs, k) {
      }
    }
  }

  lemma StillIn(a: seq<Message>, b: seq<Message>)
    requires a <= b
    ensures forall m :: In(a, m) ==> In(b, m)
  {
    forall m | In(a, m) ensures In(b, m) {
      var i :| 0 <= i < |a| && a[i] == m;
      assert b[i] == m;
    }
  }

  lemma SettledGrows(log: seq<Fact>, a: seq<Message>, b: seq<Message>, dlq: set<nat>, upto: nat)
    requires a <= b && upto <= |log| && SettledUpTo(log, a, dlq, upto)
    ensures SettledUpTo(log, b, dlq, upto)
  {
    StillIn(a, b);
    forall n: nat | n < upto ensures Settled(log, b, dlq, n) {
      assert Settled(log, a, dlq, n);
    }
  }

  lemma SettledByDlq(log: seq<Fact>, stored: seq<Message>, dlq: set<nat>, n: nat)
    requires n < |log| && SettledUpTo(log, stored, dlq, n)
    ensures SettledUpTo(log, stored, dlq + {n}, n + 1)
  {
    forall k: nat | k < n + 1 ensures Settled(log, stored, dlq + {n}, k) {
      if k < n {
        assert Settled(log, stored, dlq, k);
      }
    }
  }

  lemma SettledByFeeds(log: seq<Fact>, stored: seq<Message>, dlq: set<nat>, n: nat)
    requires n < |log| && SettledUpTo(log, stored, dlq, n) && Projectable(log[n]) && Complete(log, stored, n)
    ensures SettledUpTo(log, stored, dlq, n + 1)
  {
    forall k: nat | k < n + 1 ensures Settled(log, stored, dlq, k) {
      if k < n {
        assert Settled(log, stored, dlq, k);
      }
    }
  }

  lemma StoredStillOk(log: seq<Fact>, stored: seq<Message>, limit: int)
    requires StoredOk(log, stored, limit)
    ensures StoredOk(log, stored, limit + 1)
  {
    forall i | 0 <= i < |stored| ensures Sourced(log, stored[i], limit + 1) {
      assert Sourced(log, stored[i], limit);
      var n: nat :| n <= limit && CalledFor(log, n, stored[i]);
    }
  }
}
