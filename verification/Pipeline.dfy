/** The router's log and the projector that tails it, put together: what the router
    promises of every run is what the projector takes for granted. */
module Pipeline {
  import opened Encoding
  import opened Membership
  import opened Admission
  import opened RouterLog
  import opened RouterMachine
  import opened RouterBase
  import opened RouterSafety
  import opened RouterTheorems
  import Fanout

  /** The stream as the projector is delivered it. */
  function Delivered(stream: Stream): seq<Fanout.Fact> {
    seq(|stream|, i requires 0 <= i < |stream| =>
      Fanout.Fact(stream[i].subject.tenant, stream[i].subject.iid, stream[i].fact))
  }

  function KeyOf(s: Subject): Fanout.Key {
    Fanout.Key(s.tenant, s.iid)
  }

  lemma {:induction false} EntryIsInLog(stream: Stream, i: nat)
    requires i < |stream|
    ensures stream[i].fact in SubjectLog(stream, stream[i].subject)
  {
    var n := |stream| - 1;
    if i < n {
      EntryIsInLog(stream[..n], i);
    }
  }

  /** Sequences that rise in a subject's log rise along the stream. */
  lemma {:induction false} RisesAlong(stream: Stream, s: Subject, i: nat, j: nat)
    requires Increasing(SubjectLog(stream, s)) && i < j < |stream| && stream[i].subject == stream[j].subject == s
    ensures stream[i].fact.sequence < stream[j].fact.sequence
  {
    var n := |stream| - 1;
    var before := SubjectLog(stream[..n], s);
    assert before <= SubjectLog(stream, s);
    if j < n {
      assert Increasing(before) by {
        assert forall k :: 0 <= k < |before| ==> before[k] == SubjectLog(stream, s)[k];
      }
      RisesAlong(stream[..n], s, i, j);
    } else {
      EntryIsInLog(stream[..n], i);
      var k :| 0 <= k < |before| && before[k] == stream[i].fact;
      assert SubjectLog(stream, s)[k] == stream[i].fact && SubjectLog(stream, s)[|before|] == stream[n].fact;
    }
  }

  /** The broker checks concurrency first, or no participation append of the run was
      answered "duplicate". */
  ghost predicate Steady(cfg: Config, w: World) {
    cfg.order.OccFirst? || forall s :: Clear(w.marks, ParticipationDuplicate, s)
  }

  /** Then the run's stream is a log the projector can rely on. */
  lemma {:induction false} RouterLogIsOk(cfg: Config, steps: seq<Step>)
    requires Steady(cfg, Run(cfg, steps))
    ensures Fanout.LogOk(Delivered(Run(cfg, steps).stream))
  {
    var w := Run(cfg, steps);
    BaseAlways(cfg, steps);
    forall i | 0 <= i < |w.stream| ensures DotFree(w.stream[i].subject.tenant) && DotFree(w.stream[i].subject.iid) {
      assert Provenance(w.issued, w.stream[i]);
      var job, k: nat :| job in w.issued && WrittenFor(w.stream[i], job, k);
      assert Sane(job);
    }
    forall i, j | 0 <= i < j < |w.stream| && w.stream[i].subject == w.stream[j].subject
      ensures w.stream[i].fact.sequence < w.stream[j].fact.sequence
    {
      SequencesRise(cfg, steps, w.stream[i].subject);
      RisesAlong(w.stream, w.stream[i].subject, i, j);
    }
  }

  /** The projector's membership of an interaction, after any number of facts, is the
      one the router's own fold of that log gives. */
  lemma {:induction false} SameMembership(stream: Stream, n: nat, s: Subject)
    requires n <= |stream| && s.tenant != "" && s.iid != ""
    ensures Fanout.ViewAt(Delivered(stream), n, KeyOf(s)) == Fold(SubjectLog(stream[..n], s))
  {
    if n > 0 {
      SameMembership(stream, n - 1, s);
      assert stream[..n] == stream[..n - 1] + [stream[n - 1]];
      AppendedLog(stream[..n - 1], stream[n - 1], s);
      NextMembership(stream, n, s);
    }
  }

  lemma {:induction false} NextMembership(stream: Stream, n: nat, s: Subject)
    requires 0 < n <= |stream| && s.tenant != "" && s.iid != ""
    requires Fanout.ViewAt(Delivered(stream), n - 1, KeyOf(s)) == Fold(SubjectLog(stream[..n - 1], s))
    requires SubjectLog(stream[..n], s)
             == SubjectLog(stream[..n - 1], s) + (if stream[n - 1].subject == s then [stream[n - 1].fact] else [])
    ensures Fanout.ViewAt(Delivered(stream), n, KeyOf(s)) == Fold(SubjectLog(stream[..n], s))
  {
    var log, k, e := Delivered(stream), KeyOf(s), stream[n - 1];
    assert log[n - 1] == Fanout.Fact(e.subject.tenant, e.subject.iid, e.fact);
    assert Fanout.KeyOf(log[n - 1]) == k <==> e.subject == s;
    if e.subject == s {
      GrownLog(SubjectLog(stream[..n - 1], s), e.fact);
      GrownLog(Fanout.FactsOf(log, n - 1, k), e.fact);
    } else {
      assert SubjectLog(stream[..n], s) == SubjectLog(stream[..n - 1], s);
    }
  }

  /** Members of `s` by the router's log, just before or just after entry `n`. */
  function MembersAround(stream: Stream, n: nat): set<string>
    requires n < |stream|
  {
    var s := stream[n].subject;
    Members(Fold(SubjectLog(stream[..n], s))) + Members(Fold(SubjectLog(stream[..n + 1], s)))
  }

  /** What the router's log calls for at entry `n`: the fact for each member around it,
      and a tombstone for the agent whose leave it is. */
  ghost predicate CalledFor(stream: Stream, n: nat, m: Fanout.Message)
    requires n < |stream|
  {
    var e := stream[n];
    match m
    case FactFor(tenant, agent, iid, event) =>
      tenant == e.subject.tenant && iid == e.subject.iid && event == e.fact && agent in MembersAround(stream, n)
    case Revoked(tenant, agent, iid, at) =>
      tenant == e.subject.tenant && iid == e.subject.iid && at == e.fact.sequence && agent == e.fact.actor && e.fact.eventType.Left?
  }

  ghost predicate Explained(stream: Stream, limit: int, m: Fanout.Message) {
    exists n: nat :: n < |stream| && n <= limit && CalledFor(stream, n, m)
  }

  /** The projector sees the members the router's log gives. */
  lemma SameMembersAround(stream: Stream, n: nat)
    requires n < |stream| && Fanout.Projectable(Delivered(stream)[n])
    ensures var log := Delivered(stream);
            && Fanout.KeyOf(log[n]) == KeyOf(stream[n].subject)
            && MembersAround(stream, n) == Members(Fanout.ViewAt(log, n, Fanout.KeyOf(log[n])))
                                           + Members(Fanout.ViewAt(log, n + 1, Fanout.KeyOf(log[n])))
  {
    SameMembership(stream, n, stream[n].subject);
    SameMembership(stream, n + 1, stream[n].subject);
  }

  lemma AckedIsDelivered(stream: Stream, stored: seq<Fanout.Message>, dlq: set<nat>, acked: nat, n: nat, m: Fanout.Message)
    requires var log := Delivered(stream);
             && Fanout.LogOk(log) && acked <= |log| && Fanout.StoredOk(log, stored, acked)
             && Fanout.SettledUpTo(log, stored, dlq, acked)
    requires n < acked && n !in dlq && CalledFor(stream, n, m)
    ensures Fanout.OnceIn(stored, m)
  {
    var log := Delivered(stream);
    assert log[n] == Fanout.Fact(stream[n].subject.tenant, stream[n].subject.iid, stream[n].fact);
    Fanout.AckedFactIsInEveryFeedOnce(log, stored, dlq, acked, n);
    SameMembersAround(stream, n);
    match m
    case FactFor(_, agent, _, _) => assert m == Fanout.FeedMessage(log[n], agent);
    case Revoked(_, _, _, _) => assert m == Fanout.Tombstone(log[n]);
  }

  lemma StoredIsCalledFor(stream: Stream, stored: seq<Fanout.Message>, limit: int, i: nat)
    requires Fanout.LogOk(Delivered(stream)) && Fanout.StoredOk(Delivered(stream), stored, limit) && i < |stored|
    ensures Explained(stream, limit, stored[i])
  {
    var log := Delivered(stream);
    Fanout.NoStrayMessage(log, stored, limit, i);
    var n: nat :| n <= limit && Fanout.Explained(log, n, stored[i]);
    assert log[n] == Fanout.Fact(stream[n].subject.tenant, stream[n].subject.iid, stream[n].fact);
    SameMembersAround(stream, n);
    assert CalledFor(stream, n, stored[i]);
  }

  /** End to end: over any run of any number of routers and any schedule of projector
      crashes, takeovers and failures, what the router's log calls for at an
      acknowledged entry is exactly once in the feeds, or the entry is dead-lettered;
      and every message in a feed is one that the router's log calls for. */
  method Project(ghost cfg: Config, ghost steps: seq<Step>, log: seq<Fanout.Fact>, maxDeliver: nat, publishRetry: nat,
                 schedule: seq<Fanout.Turn>) returns (p: Fanout.Projector)
    requires Steady(cfg, Run(cfg, steps)) && log == Delivered(Run(cfg, steps).stream)
    ensures fresh(p) && p.Valid() && p.log == log
    ensures var stream := Run(cfg, steps).stream;
            forall n: nat, m {:trigger CalledFor(stream, n, m)} :: n < p.acked && n !in p.dlq && CalledFor(stream, n, m) ==>
              Fanout.OnceIn(p.stored, m)
    ensures var stream := Run(cfg, steps).stream;
            forall i :: 0 <= i < |p.stored| ==> Explained(stream, p.acked, p.stored[i])
  {
    ghost var stream := Run(cfg, steps).stream;
    RouterLogIsOk(cfg, steps);
    p := new Fanout.Projector(log, maxDeliver, publishRetry);
    Fanout.Drive(p, schedule);
    forall n: nat, m | n < p.acked && n !in p.dlq && CalledFor(stream, n, m) ensures Fanout.OnceIn(p.stored, m) {
      AckedIsDelivered(stream, p.stored, p.dlq, p.acked, n, m);
    }
    forall i | 0 <= i < |p.stored| ensures Explained(stream, p.acked, p.stored[i]) {
      StoredIsCalledFor(stream, p.stored, p.acked, i);
    }
  }
}
