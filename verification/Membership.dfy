/** Facts of the interaction log and the membership intervals folded from them
    (internal/signaling/participation.go). */
module Membership {

  /** The wire event types the core branches on; every other type is a Note. */
  datatype EventType = Started | Ended | Joined | Left | Note(name: string)

  predicate IsParticipationFact(t: EventType) {
    t.Joined? || t.Left?
  }

  datatype Event = Event(
    eventType: EventType, sequence: int, actor: string,
    commandId: string, payloadHash: string, causedBy: string)

  /** Membership over [joinSeq, leftSeq); leftOpen stands for an absent right end. */
  datatype Interval = Interval(joinSeq: int, leftSeq: int, leftOpen: bool)

  type View = map<string, seq<Interval>>

  function Of(v: View, agent: string): seq<Interval> {
    if agent in v then v[agent] else []
  }

  predicate LastOpen(cur: seq<Interval>) {
    |cur| > 0 && cur[|cur| - 1].leftOpen
  }

  predicate IsParticipantNow(v: View, agent: string) {
    LastOpen(Of(v, agent))
  }

  function Members(v: View): set<string> {
    set a | a in v && IsParticipantNow(v, a)
  }

  function Opened(cur: seq<Interval>, at: int): seq<Interval> {
    if LastOpen(cur) then cur else cur + [Interval(at, 0, true)]
  }

  /** Closes the last open interval, if any. */
  function Closed(cur: seq<Interval>, at: int): (r: seq<Interval>)
    ensures |r| == |cur|
  {
    if cur == [] then []
    else
      var n := |cur| - 1;
      if cur[n].leftOpen then cur[n := cur[n].(leftSeq := at, leftOpen := false)]
      else Closed(cur[..n], at) + [cur[n]]
  }

  function ApplyFact(v: View, e: Event): View {
    match e.eventType
    case Joined => v[e.actor := Opened(Of(v, e.actor), e.sequence)]
    case Left => if e.actor in v then v[e.actor := Closed(v[e.actor], e.sequence)] else v
    case _ => v
  }

  function FoldFrom(v: View, facts: seq<Event>): View {
    if facts == [] then v
    else ApplyFact(FoldFrom(v, facts[..|facts| - 1]), facts[|facts| - 1])
  }

  function Fold(facts: seq<Event>): View {
    FoldFrom(map[], facts)
  }

  // ------------------------------------------------------- interval laws

  /** Sorted, pairwise disjoint, only the last possibly open, endpoints at most `hi`. */
  ghost predicate Ordered(cur: seq<Interval>, hi: int) {
    && (forall i :: 0 <= i < |cur| ==>
          && cur[i].joinSeq <= hi
          && (cur[i].leftOpen ==> i == |cur| - 1)
          && (!cur[i].leftOpen ==> cur[i].joinSeq < cur[i].leftSeq <= hi))
    && (forall i, j :: 0 <= i < j < |cur| ==> cur[i].leftSeq < cur[j].joinSeq)
  }

  ghost predicate WellFormed(v: View, hi: int) {
    forall a :: a in v ==> v[a] != [] && Ordered(v[a], hi)
  }

  ghost predicate Increasing(facts: seq<Event>) {
    forall i, j :: 0 <= i < j < |facts| ==> facts[i].sequence < facts[j].sequence
  }

  lemma {:induction false} ClosedOfOrdered(cur: seq<Interval>, s: int)
    requires forall i :: 0 <= i < |cur| && cur[i].leftOpen ==> i == |cur| - 1
    ensures Closed(cur, s) ==
            if LastOpen(cur) then cur[|cur| - 1 := cur[|cur| - 1].(leftSeq := s, leftOpen := false)] else cur
  {
    if |cur| > 0 && !LastOpen(cur) {
      NothingOpen(cur, s);
    }
  }

  lemma {:induction false} NothingOpen(cur: seq<Interval>, s: int)
    requires forall i :: 0 <= i < |cur| ==> !cur[i].leftOpen
    ensures Closed(cur, s) == cur
  {
    if cur != [] {
      NothingOpen(cur[..|cur| - 1], s);
      assert cur == cur[..|cur| - 1] + [cur[|cur| - 1]];
    }
  }

  lemma {:induction false} ClosedAt(cur: seq<Interval>, i: nat, s: int)
    requires i < |cur| && cur[i].leftOpen
    requires forall j :: i < j < |cur| ==> !cur[j].leftOpen
    ensures Closed(cur, s) == cur[i := cur[i].(leftSeq := s, leftOpen := false)]
  {
    if i < |cur| - 1 {
      ClosedAt(cur[..|cur| - 1], i, s);
    }
  }

  /** One fact with a later sequence keeps every agent's intervals in order. */
  lemma ApplyKeepsOrder(v: View, e: Event, hi: int)
    requires WellFormed(v, hi) && hi < e.sequence
    ensures WellFormed(ApplyFact(v, e), e.sequence)
  {
    if e.eventType.Left? && e.actor in v {
      ClosedOfOrdered(v[e.actor], e.sequence);
    }
  }

  /** In a log with increasing sequences every agent's intervals are sorted and
      disjoint, and only the last can be open. */
  lemma {:induction false} FoldOrdered(facts: seq<Event>, hi: int)
    requires Increasing(facts)
    requires forall i :: 0 <= i < |facts| ==> facts[i].sequence <= hi
    ensures WellFormed(Fold(facts), hi)
  {
    if facts != [] {
      var n := |facts| - 1;
      var e := facts[n];
      FoldOrdered(facts[..n], e.sequence - 1);
      ApplyKeepsOrder(Fold(facts[..n]), e, e.sequence - 1);
    }
  }

  /** Redelivery: folding the same fact again changes nothing. */
  lemma ApplyIdempotent(v: View, e: Event, hi: int)
    requires WellFormed(v, hi)
    ensures ApplyFact(ApplyFact(v, e), e) == ApplyFact(v, e)
  {
    var w := ApplyFact(v, e);
    if e.eventType.Left? && e.actor in v {
      ClosedOfOrdered(v[e.actor], e.sequence);
      NothingOpen(w[e.actor], e.sequence);
      assert ApplyFact(w, e) == w;
    } else if e.eventType.Joined? {
      assert ApplyFact(w, e) == w;
    }
  }

  ghost predicate OneOpen(cur: seq<Interval>) {
    forall i :: 0 <= i < |cur| && cur[i].leftOpen ==> i == |cur| - 1
  }

  lemma {:induction false} FoldOneOpen(facts: seq<Event>)
    ensures forall a :: a in Fold(facts) ==> OneOpen(Fold(facts)[a])
  {
    if facts != [] {
      var n := |facts| - 1;
      var v := Fold(facts[..n]);
      FoldOneOpen(facts[..n]);
      ApplyOneOpen(v, facts[n]);
    }
  }

  lemma ApplyOneOpen(v: View, e: Event)
    requires forall a :: a in v ==> OneOpen(v[a])
    ensures forall a :: a in ApplyFact(v, e) ==> OneOpen(ApplyFact(v, e)[a])
  {
    if e.eventType.Left? && e.actor in v {
      ClosedOfOrdered(v[e.actor], e.sequence);
    }
  }

  /** Membership just after a fact, from membership just before it. */
  lemma MemberAfter(v: View, e: Event, agent: string)
    requires forall a :: a in v ==> OneOpen(v[a])
    ensures IsParticipantNow(ApplyFact(v, e), agent) ==
            if agent == e.actor && e.eventType.Joined? then true
            else if agent == e.actor && e.eventType.Left? then false
            else IsParticipantNow(v, agent)
  {
    if e.eventType.Left? && agent == e.actor && agent in v {
      ClosedOfOrdered(v[agent], e.sequence);
    }
  }

  lemma {:induction false} FoldFromSplits(v: View, a: seq<Event>, b: seq<Event>)
    ensures FoldFrom(v, a + b) == FoldFrom(FoldFrom(v, a), b)
  {
    if b == [] {
      assert a + b == a;
    } else {
      var n := |b| - 1;
      FoldFromSplits(v, a, b[..n]);
      assert (a + b)[..|a + b| - 1] == a + b[..n];
    }
  }

  // ------------------------------------------------------- recipients

  predicate Covers(in_: Interval, s: int) {
    in_.joinSeq <= s && (in_.leftOpen || s <= in_.leftSeq)
  }

  /** The projector's recipients of a fact at sequence `s` (coveredBy). */
  function CoveredBy(v: View, s: int): set<string> {
    set a | a in v && exists i :: 0 <= i < |v[a]| && Covers(v[a][i], s)
  }

  lemma CoveredIffOpenOrJustClosed(cur: seq<Interval>, s: int)
    requires cur != [] && Ordered(cur, s)
    ensures (exists i :: 0 <= i < |cur| && Covers(cur[i], s)) <==>
            LastOpen(cur) || cur[|cur| - 1].leftSeq == s
  {
    var n := |cur| - 1;
    if LastOpen(cur) || cur[n].leftSeq == s {
      assert Covers(cur[n], s);
    }
    forall i | 0 <= i < n ensures !Covers(cur[i], s) {
      assert cur[i].leftSeq < cur[n].joinSeq;
    }
  }

  /** A fact goes to exactly the agents who are members just before or just after it. */
  lemma RecipientsAreMembersAround(v: View, e: Event, hi: int)
    requires WellFormed(v, hi) && hi < e.sequence
    ensures CoveredBy(ApplyFact(v, e), e.sequence) == Members(v) + Members(ApplyFact(v, e))
  {
    var w := ApplyFact(v, e);
    ApplyKeepsOrder(v, e, hi);
    forall a ensures a in CoveredBy(w, e.sequence) <==> a in Members(v) || a in Members(w) {
      MemberAfter(v, e, a);
      if a in w {
        CoveredIffOpenOrJustClosed(w[a], e.sequence);
        RecipientStep(v, e, hi, a);
      }
    }
  }

  lemma RecipientStep(v: View, e: Event, hi: int, a: string)
    requires WellFormed(v, hi) && hi < e.sequence
    requires a in ApplyFact(v, e) && ApplyFact(v, e)[a] != []
    ensures var cur := ApplyFact(v, e)[a];
            LastOpen(cur) || cur[|cur| - 1].leftSeq == e.sequence <==>
            IsParticipantNow(v, a) || IsParticipantNow(ApplyFact(v, e), a)
  {
    if e.eventType.Left? && a == e.actor && a in v {
      ClosedOfOrdered(v[a], e.sequence);
    }
  }
}
