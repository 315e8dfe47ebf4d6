/** The in-place membership view: one interval array per agent, overwritten by
    close, with copies handed out to readers and snapshots. */
module ParticipationViews {
  import opened Membership

  method Extended(cur: array<Interval>, last: Interval) returns (grown: array<Interval>)
    ensures fresh(grown) && grown[..] == cur[..] + [last]
  {
    var n := cur.Length;
    grown := new Interval[n + 1];
    for i := 0 to n
      invariant grown[..i] == cur[..i]
    {
      grown[i] := cur[i];
    }
    grown[n] := last;
  }

  class ParticipationView {
    var intervals: map<string, array<Interval>>

    ghost predicate Valid()
      reads this
    {
      forall a, b :: a in intervals && b in intervals && a != b ==> intervals[a] != intervals[b]
    }

    ghost function Contents(): (v: View)
      reads this, intervals.Values
    {
      map a | a in intervals :: intervals[a][..]
    }

    constructor ()
      ensures Valid() && intervals == map[] && Contents() == map[]
    {
      intervals := map[];
    }

    /** Gives one agent an array no other agent holds. */
    method Put(agent: string, a: array<Interval>)
      requires Valid() && a !in intervals.Values
      modifies this
      ensures Valid() && intervals == old(intervals)[agent := a]
      ensures intervals.Values <= old(intervals.Values) + {a}
      ensures Contents() == old(Contents())[agent := a[..]]
    {
      intervals := intervals[agent := a];
      assert forall b :: b in intervals && b != agent ==> intervals[b] in old(intervals.Values);
    }

    method Open(agent: string, at: int)
      requires Valid()
      modifies this
      ensures Valid() && fresh(intervals.Values - old(intervals.Values))
      ensures Contents() == old(Contents())[agent := Opened(Of(old(Contents()), agent), at)]
    {
      ghost var before := Contents();
      var cur := new Interval[0];
      if agent in intervals {
        cur := intervals[agent];
      }
      assert cur[..] == Of(before, agent);
      if cur.Length > 0 && cur[cur.Length - 1].leftOpen {
        assert Contents() == before[agent := Opened(Of(before, agent), at)];
        return;
      }
      var grown := Extended(cur, Interval(at, 0, true));
      Put(agent, grown);
    }

    /** Overwrites the last open interval, scanning from the end. */
    method Close(agent: string, at: int)
      requires Valid()
      modifies intervals.Values
      ensures Valid()
      ensures Contents() == if agent in old(Contents())
                            then old(Contents())[agent := Closed(old(Contents())[agent], at)]
                            else old(Contents())
    {
      if agent !in intervals {
        return;
      }
      var cur := intervals[agent];
      assert cur in intervals.Values;
      ghost var before := cur[..];
      var i := cur.Length;
      while i > 0
        invariant 0 <= i <= cur.Length
        invariant cur[..] == before && Contents() == old(Contents())
        invariant forall j :: i <= j < |before| ==> !before[j].leftOpen
      {
        i := i - 1;
        if cur[i].leftOpen {
          ClosedAt(before, i, at);
          cur[i] := cur[i].(leftSeq := at, leftOpen := false);
          assert forall a :: a in intervals && a != agent ==> intervals[a] != cur;
          return;
        }
      }
      NothingOpen(before, at);
    }

    method ApplyFact(e: Event)
      requires Valid()
      modifies this, intervals.Values
      ensures Valid() && fresh(intervals.Values - old(intervals.Values))
      ensures Contents() == Membership.ApplyFact(old(Contents()), e)
    {
      match e.eventType
      case Joined => Open(e.actor, e.sequence);
      case Left => Close(e.actor, e.sequence);
      case _ =>
    }

    method IsParticipantNow(agent: string) returns (b: bool)
      requires Valid()
      ensures b == Membership.IsParticipantNow(Contents(), agent)
    {
      b := agent in intervals && intervals[agent].Length > 0
        && intervals[agent][intervals[agent].Length - 1].leftOpen;
    }

    /** A copy: the caller's array is not one the view will write to. */
    method Intervals(agent: string) returns (copied: array<Interval>)
      requires Valid()
      ensures fresh(copied) && copied[..] == Of(Contents(), agent)
    {
      var n := if agent in intervals then intervals[agent].Length else 0;
      copied := new Interval[n];
      for i := 0 to n
        invariant copied[..i] == Of(Contents(), agent)[..i]
      {
        copied[i] := intervals[agent][i];
        assert copied[..i + 1] == copied[..i] + [copied[i]];
      }
      assert copied[..] == copied[..n];
    }

    /** Installs a copy of `given`; an empty list leaves the view as it is. */
    method SetIntervals(agent: string, given: array<Interval>)
      requires Valid()
      modifies this
      ensures Valid() && fresh(intervals.Values - old(intervals.Values))
      ensures Contents() == if given.Length == 0 then old(Contents()) else old(Contents())[agent := given[..]]
    {
      if given.Length == 0 {
        return;
      }
      ghost var before := Contents();
      var copied := new Interval[given.Length];
      for i := 0 to given.Length
        invariant copied[..i] == given[..i] && given[..] == old(given[..])
        invariant unchanged(this) && Contents() == before
      {
        copied[i] := given[i];
        assert copied[..i + 1] == copied[..i] + [copied[i]];
      }
      assert copied[..] == copied[..given.Length] && given[..] == given[..given.Length];
      Put(agent, copied);
    }

    /** Folds facts in order. */
    method ApplyAll(facts: seq<Event>)
      requires Valid()
      modifies this, intervals.Values
      ensures Valid() && fresh(intervals.Values - old(intervals.Values))
      ensures Contents() == FoldFrom(old(Contents()), facts)
    {
      for i := 0 to |facts|
        invariant Valid() && fresh(intervals.Values - old(intervals.Values))
        invariant Contents() == FoldFrom(old(Contents()), facts[..i])
      {
        ApplyFact(facts[i]);
        assert facts[..i + 1][..i] == facts[..i];
      }
      assert facts[..|facts|] == facts;
    }

    /** One interaction's part of a projector snapshot: a copy per agent. */
    method Snapshot() returns (saved: map<string, array<Interval>>)
      requires Valid()
      ensures saved.Keys == intervals.Keys
      ensures forall a :: a in saved ==> fresh(saved[a])
      ensures forall a :: a in saved ==> saved[a][..] == intervals[a][..]
    {
      saved := map[];
      var agents := intervals.Keys;
      while agents != {}
        invariant saved.Keys == intervals.Keys - agents && agents <= intervals.Keys
        invariant forall a :: a in saved ==> fresh(saved[a])
        invariant forall a :: a in saved ==> saved[a][..] == intervals[a][..]
        decreases agents
      {
        var a :| a in agents;
        var copied := Intervals(a);
        saved := saved[a := copied];
        agents := agents - {a};
      }
    }

    /** Restores a snapshot into an empty view; an agent without intervals is
        dropped. */
    method Restore(saved: map<string, array<Interval>>)
      requires Valid() && intervals == map[]
      modifies this
      ensures Valid() && fresh(intervals.Values)
      ensures Contents() == map a | a in saved && saved[a].Length > 0 :: saved[a][..]
    {
      var agents := saved.Keys;
      while agents != {}
        invariant Valid() && agents <= saved.Keys
        invariant fresh(intervals.Values)
        invariant Contents() == map a | a in saved && a !in agents && saved[a].Length > 0 :: saved[a][..]
        decreases agents
      {
        var a :| a in agents;
        SetIntervals(a, saved[a]);
        agents := agents - {a};
      }
    }
  }

  method FoldParticipation(facts: seq<Event>) returns (v: ParticipationView)
    ensures fresh(v) && v.Valid() && fresh(v.intervals.Values)
    ensures v.Contents() == Fold(facts)
  {
    v := new ParticipationView();
    v.ApplyAll(facts);
  }

  /** Folding on after a snapshot was taken never alters the snapshot. */
  method SnapshotThenFold(v: ParticipationView, facts: seq<Event>) returns (saved: map<string, array<Interval>>)
    requires v.Valid()
    modifies v, v.intervals.Values
    ensures v.Contents() == FoldFrom(old(v.Contents()), facts)
    ensures (map a | a in saved :: saved[a][..]) == old(v.Contents())
  {
    saved := v.Snapshot();
    ghost var taken := map a | a in saved :: saved[a][..];
    assert taken == v.Contents();
    v.ApplyAll(facts);
    assert forall a :: a in saved ==> saved[a][..] == taken[a];
  }
}
