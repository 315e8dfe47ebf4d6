/** Exactly when only members write. Two things can break it: an append error
    reconciled from the log, which leaves the cached membership stale
    (internal/signaling/router.go:427-441), and an id derived for a join that is
    not kept for it. */
module RouterMembers {
  import opened Encoding
  import opened Membership
  import opened Admission
  import opened ResultCache
  import opened RouterLog
  import opened RouterMachine
  import opened RouterBase
  import opened RouterSafety
  import opened RouterPayload
  import opened RouterOnce
  import opened RouterTheorems
  import opened RouterRuns
  import opened RouterCast
  import opened RouterLimits

  /** The policy covers every id under which an agent that can write may join. */
  ghost predicate AllJoinsKept(kept: string -> bool) {
    forall p, a :: Usable(p, a) && Token(a) ==> kept(SubId(p, FactName(Joined), a))
  }

  /** No other fact bears a kept id under which an agent joins. */
  ghost predicate JoinsKeptFor(issued: seq<Job>, s: Subject, kept: string -> bool) {
    forall j, j', k, k' :: j in issued && j' in issued && j.subject == j'.subject == s && j.participation
                           && 0 <= k < |j.items| && 0 <= k' < |j'.items| && j.items[k].commandId == j'.items[k'].commandId
                           && j.items[k].eventType.Joined? && Token(j.items[k].actor) && kept(j.items[k].commandId) ==>
      j'.items[k'].eventType.Joined? && j'.items[k'].actor == j.items[k].actor
  }

  lemma {:induction false} KeptJoins(cfg: Config, steps: seq<Step>, s: Subject, kept: string -> bool)
    requires AllJoinsKept(kept) && JoinsKeptFor(Run(cfg, steps).issued, s, kept)
    ensures JoinsKept(Run(cfg, steps).issued, s)
  {
    var issued := Run(cfg, steps).issued;
    IssuedAreSealed(cfg, steps);
    forall j, j' | j in issued && j' in issued && j.subject == j'.subject == s && j.participation ensures JoinsApart(j, j') {
      forall k | 0 <= k < |j.items| && j.items[k].eventType.Joined? && Token(j.items[k].actor)
        ensures kept(j.items[k].commandId)
      {
        assert Sealed(j) && SealedItem(j.items[k]) && IsDerived(j, k);
        assert Usable(j.parent, j.items[k].actor);
      }
    }
  }

  /** A fact of `agent`, which had to be a member and was none. */
  ghost predicate Intruded(stream: Stream, s: Subject, agent: string) {
    exists i :: 0 <= i < |stream| && stream[i].subject == s && stream[i].gated && stream[i].fact.actor == agent
                && !IsParticipantNow(Fold(SubjectLog(stream[..i], s)), agent)
  }

  lemma {:induction false} LastIntrudes(stream: Stream, s: Subject, e: Entry, agent: string)
    requires AllOf(stream, s) && e.subject == s && e.gated && e.fact.actor == agent
    requires !IsParticipantNow(Fold(Facts(stream)), agent)
    ensures Intruded(stream + [e], s, agent) && !MembersOnly(stream + [e], s)
  {
    OneSubject(stream, s);
    var n := |stream|;
    assert (stream + [e])[..n] == stream && (stream + [e])[n] == e;
  }

  // ------------------------------------------------------- ids submitted twice

  /** No id but `x` is submitted twice. */
  ghost predicate CollidesOnlyOn(issued: seq<Job>, s: Subject, x: string) {
    forall id :: id != x ==> Once(issued, s, id)
  }

  ghost predicate Single(issued: seq<Job>) {
    forall i :: 0 <= i < |issued| ==> |issued[i].items| == 1
  }

  lemma NewIdIsOnce(issued: seq<Job>, job: Job, s: Subject, x: string)
    requires Single(issued) && |job.items| == 1 && CollidesOnlyOn(issued, s, x)
    requires job.items[0].commandId == x || forall i :: 0 <= i < |issued| ==> issued[i].items[0].commandId != job.items[0].commandId
    ensures Single(issued + [job]) && CollidesOnlyOn(issued + [job], s, x)
  {
    var all := issued + [job];
    forall id | id != x ensures Once(all, s, id) {
      assert Once(issued, s, id);
      forall i, j | 0 <= i < j < |all| && Mentions(all[i], s, id) ensures !Mentions(all[j], s, id) {
        assert all[i] == issued[i];
        if j < |issued| {
          assert all[j] == issued[j];
        }
      }
    }
  }

  /** A move under a parent of its own, or a repeat, keeps parents in agreement. */
  lemma AgreeGrows(issued: seq<Job>, job: Job, s: Subject)
    requires Single(issued) && |job.items| == 1 && ParentsAgree(issued, s)
    requires job.participation ==>
               forall i :: 0 <= i < |issued| && issued[i].participation && issued[i].parent == job.parent ==>
                             issued[i].items[0].commandId == job.items[0].commandId
    ensures ParentsAgree(issued + [job], s)
  {
    var all := issued + [job];
    forall j, j' | j in all && j' in all && j.subject == j'.subject == s && j.participation && j'.participation && j.parent == j'.parent
      ensures SameFacts(j, j')
    {
      assert j in issued || j == job;
      assert j' in issued || j' == job;
    }
  }

  lemma {:induction false} FillIsOnce(c: Cast, issued: seq<Job>, fill: seq<Job>, x: string)
    requires Single(issued) && CollidesOnlyOn(issued, c.s, x) && Fill(c, fill, Started)
    requires forall i :: 0 <= i < |issued| ==> Short(c, issued[i].items[0].commandId)
    ensures Single(issued + fill) && CollidesOnlyOn(issued + fill, c.s, x)
  {
    if fill == [] {
      assert issued + fill == issued;
    } else {
      var n := |fill| - 1;
      FillIsOnce(c, issued, fill[..n], x);
      assert Said(c, fill[n], Filler(c, n), Started, "");
      var before := issued + fill[..n];
      forall i | 0 <= i < |before| ensures before[i].items[0].commandId != fill[n].items[0].commandId {
        if i >= |issued| {
          assert Said(c, fill[i - |issued|], Filler(c, i - |issued|), Started, "");
        }
      }
      NewIdIsOnce(before, fill[n], c.s, x);
      assert before + [fill[n]] == issued + fill;
    }
  }

  // ------------------------------------------------------- a stranger's note

  /** A message under `id`, which refused commands then push out of the cache. */
  lemma NotesAndForgets(cfg: Config, c: Cast, id: string) returns (w: World, start: Job, note: Job, fill: seq<Job>)
    requires CastOk(c) && cfg.maxResults > 0 && Short(c, id) && id != c.start
    ensures Said(c, start, c.start, Started, "") && Said(c, note, id, TypeOf(Message), "") && Fill(c, fill, Started)
    ensures w.stream == [EntryFor(start, 1), EntryFor(note, 2)] && w.issued == [start, note] + fill && w.marks == {}
    ensures 0 in w.objs && Idle(cfg, c, w, 0, Open, 2, Fillers(c, cfg.maxResults)) && w.objs[0].part == map[]
    ensures forall x :: Short(c, x) ==> x !in Fillers(c, cfg.maxResults)
  {
    var w1;
    w1, start := Opens(cfg, c);
    var w2;
    w2, note := Say(cfg, c, w1, 0, id, Message, "", {c.start});
    assert w2.stream == [EntryFor(start, 1), EntryFor(note, 2)] && [start] + [note] == [start, note];
    w, fill := Forgets(cfg, c, w2, {c.start} + {id});
  }

  /** A join answered "duplicate" by that message makes its agent a member of the
      cached view alone, and the agent writes. */
  lemma StrangerWrites(cfg: Config, c: Cast) returns (w: World)
    requires CastOk(c) && Token(c.agent) && cfg.order.OccFirst? && cfg.maxResults > 0
    ensures Reachable(cfg, w) && Clear(w.marks, ErrorReconcile, c.s)
    ensures Intruded(w.stream, c.s, c.agent) && !MembersOnly(w.stream, c.s)
    ensures CollidesOnlyOn(w.issued, c.s, c.join) && OnlyMoves(w.issued, c.join) && ParentsAgree(w.issued, c.s)
  {
    var ids := Fillers(c, cfg.maxResults) + {c.join};
    var w4, start, note, fill, move := JoinsByDuplicate(cfg, c);
    var message;
    w, message := WritesAlone(cfg, c, w4, ids);
    StrangersIds(c, start, note, fill, move, message);
    OnlyMovesAgree(w.issued, c.s, c.join);
  }

  lemma JoinsByDuplicate(cfg: Config, c: Cast) returns (w: World, start: Job, note: Job, fill: seq<Job>, move: Job)
    requires CastOk(c) && cfg.order.OccFirst? && cfg.maxResults > 0
    ensures Said(c, start, c.start, Started, "") && Said(c, note, c.join, TypeOf(Message), "") && Fill(c, fill, Started)
    ensures Moved(c, move, Joined, "") && w.issued == [start, note] + fill + [move]
    ensures w.stream == [EntryFor(start, 1), EntryFor(note, 2)] && w.marks == {Mark(ParticipationDuplicate, c.s, move.items[0])}
    ensures 0 in w.objs && Idle(cfg, c, w, 0, Open, 2, Fillers(c, cfg.maxResults) + {c.join}) && IsParticipantNow(w.objs[0].part, c.agent)
    ensures c.note !in Fillers(c, cfg.maxResults)
  {
    var w3;
    w3, start, note, fill := NotesAndForgets(cfg, c, c.join);
    w, move := MoveAgain(cfg, c, w3, 0, Joined, "", 1, Fillers(c, cfg.maxResults));
    MemberAfter(w3.objs[0].part, EntryFor(move, w3.objs[0].sequence + 1).fact, c.agent);
  }

  /** A message in a log without any join. */
  lemma WritesAlone(cfg: Config, c: Cast, w: World, ids: set<string>) returns (w': World, message: Job)
    requires CastOk(c) && Token(c.agent) && 0 in w.objs && Idle(cfg, c, w, 0, Open, |w.stream|, ids)
    requires IsParticipantNow(w.objs[0].part, c.agent) && c.note !in ids && Lacks(w.stream, c.note)
    requires forall i :: 0 <= i < |w.stream| ==> !IsParticipationFact(w.stream[i].fact.eventType)
    ensures Reachable(cfg, w') && w'.marks == w.marks && w'.issued == w.issued + [message] && Written(c, message, c.note)
    ensures Intruded(w'.stream, c.s, c.agent) && !MembersOnly(w'.stream, c.s)
  {
    w', message := Write(cfg, c, w, 0, c.note, ids);
    StrangerIntrudes(c, w.stream, EntryFor(message, w.objs[0].sequence + 1));
  }

  lemma StrangersIds(c: Cast, start: Job, note: Job, fill: seq<Job>, move: Job, message: Job)
    requires CastOk(c) && Said(c, start, c.start, Started, "") && Said(c, note, c.join, TypeOf(Message), "")
    requires Fill(c, fill, Started) && Moved(c, move, Joined, "") && Written(c, message, c.note)
    ensures var issued := [start, note] + fill + [move] + [message];
            CollidesOnlyOn(issued, c.s, c.join) && OnlyMoves(issued, c.join)
  {
    var x := c.join;
    FillIsOnce(c, [start, note], fill, x);
    NewIdIsOnce([start, note] + fill, move, c.s, x);
    var before := [start, note] + fill + [move];
    forall i | 0 <= i < |before| ensures before[i].items[0].commandId != c.note {
      if 2 <= i < |before| - 1 {
        assert Said(c, fill[i - 2], Filler(c, i - 2), Started, "");
      }
    }
    NewIdIsOnce(before, message, c.s, x);
    MovesGrow([start, note], fill, x);
    MovesGrow([start, note] + fill, [move], x);
    MovesGrow(before, [message], x);
  }

  lemma {:induction false} NobodyJoined(log: seq<Event>)
    requires forall i :: 0 <= i < |log| ==> !IsParticipationFact(log[i].eventType)
    ensures Fold(log) == map[]
  {
    if log != [] {
      NobodyJoined(log[..|log| - 1]);
    }
  }

  lemma StrangerIntrudes(c: Cast, stream: Stream, e: Entry)
    requires AllOf(stream, c.s) && forall i :: 0 <= i < |stream| ==> !IsParticipationFact(stream[i].fact.eventType)
    requires e.subject == c.s && e.gated && e.fact.actor == c.agent
    ensures Intruded(stream + [e], c.s, c.agent) && !MembersOnly(stream + [e], c.s)
  {
    NobodyJoined(Facts(stream));
    LastIntrudes(stream, c.s, e, c.agent);
  }

  /** Whatever the subject, the agent and the assignment: letting one other command
      bear the id derived for that join is enough, with no append error, for the
      agent to write without being a member. */
  lemma OneCollisionIsEnough(cfg: Config, s: Subject, parent: string, agent: string)
    requires Nameable(s) && Usable(parent, agent) && Token(agent) && cfg.order.OccFirst? && cfg.maxResults > 0
    ensures exists w :: Reachable(cfg, w) && Clear(w.marks, ErrorReconcile, s) && Intruded(w.stream, s, agent)
                        && CollidesOnlyOn(w.issued, s, SubId(parent, FactName(Joined), agent)) && ParentsAgree(w.issued, s)
  {
    var w := StrangerWrites(cfg, CastFor(s, parent, agent, Joined));
  }

  /** So no configuration the router can be built with gives the guarantee by itself,
      and what such a run breaks is the care about ids. */
  lemma EveryConfigurationAdmitsAStranger(cfg: Config)
    requires cfg.order.OccFirst? && cfg.maxResults > 0
    ensures exists w, s, agent :: Reachable(cfg, w) && Clear(w.marks, ErrorReconcile, s) && ParentsAgree(w.issued, s)
                                  && Intruded(w.stream, s, agent) && !JoinsKept(w.issued, s)
  {
    var w := StrangerWrites(cfg, CastFor(SAMPLE, "p", "a", Joined));
    var steps :| Run(cfg, steps) == w;
    if JoinsKept(w.issued, SAMPLE) {
      WritersAreMembers(cfg, steps, SAMPLE);
    }
    assert Reachable(cfg, w) && Intruded(w.stream, SAMPLE, "a");
  }

  // ------------------------------------------------------- a departed agent's note

  /** Joined and left through state 0, with state 1 rebuilt between; then a message. */
  lemma LeavesUnseen(cfg: Config, c: Cast) returns (w: World, start: Job, join: Job, leave: Job, note: Job)
    requires CastOk(c)
    ensures Said(c, start, c.start, Started, "") && Moved(c, join, Joined, "") && Moved(c, leave, Left, "")
    ensures Said(c, note, c.note, TypeOf(Message), "")
    ensures w.stream == [EntryFor(start, 1), EntryFor(join, 2), EntryFor(leave, 3), EntryFor(note, 4)]
    ensures w.issued == [start, join, leave, note] && w.marks == {}
    ensures 1 in w.objs && Idle(cfg, c, w, 1, Open, 2, {c.start, c.join}) && IsParticipantNow(w.objs[1].part, c.agent)
  {
    var w3;
    w3, start, join, leave := LeavesBehind(cfg, c);
    w, note := Say(cfg, c, w3, 0, c.note, Message, "", {c.start, c.join, c.left});
    assert [start, join, leave] + [note] == [start, join, leave, note];
    assert w.stream == [EntryFor(start, 1), EntryFor(join, 2), EntryFor(leave, 3), EntryFor(note, 4)];
  }

  lemma LeavesBehind(cfg: Config, d: Cast) returns (w: World, start: Job, join: Job, leave: Job)
    requires CastOk(d)
    ensures Said(d, start, d.start, Started, "") && Moved(d, join, Joined, "") && Moved(d, leave, Left, "")
    ensures w.stream == [EntryFor(start, 1), EntryFor(join, 2), EntryFor(leave, 3)] && w.issued == [start, join, leave] && w.marks == {}
    ensures w.objs.Keys == {0, 1} && Idle(cfg, d, w, 0, Open, 3, {d.start, d.join, d.left}) && w.objs[0].sequence == 3
    ensures Idle(cfg, d, w, 1, Open, 2, {d.start, d.join})
    ensures w.objs[1].part == Fold(Facts(w.stream[..2])) && IsParticipantNow(w.objs[1].part, d.agent)
  {
    var w2;
    w2, start, join := Joins(cfg, d);
    w, leave := MoveAgent(cfg, d, w2, 0, Left, "", {d.start, d.join});
    assert {d.start, d.join} + {d.left} == {d.start, d.join, d.left} && [start, join] + [leave] == [start, join, leave];
    assert w.stream == [EntryFor(start, 1), EntryFor(join, 2), EntryFor(leave, 3)] && w.stream[..2] == w2.stream;
  }

  /** States 0 and 1 both know of the join. */
  lemma Joins(cfg: Config, c: Cast) returns (w: World, start: Job, join: Job)
    requires CastOk(c)
    ensures Said(c, start, c.start, Started, "") && Moved(c, join, Joined, "")
    ensures w.stream == [EntryFor(start, 1), EntryFor(join, 2)] && w.issued == [start, join] && w.marks == {}
    ensures w.objs.Keys == {0, 1}
    ensures forall oid :: oid in w.objs ==>
              Idle(cfg, c, w, oid, Open, 2, {c.start, c.join}) && w.objs[oid].sequence == 2
              && w.objs[oid].part == Fold(Facts(w.stream))
    ensures IsParticipantNow(Fold(Facts(w.stream)), c.agent)
  {
    var w1;
    w1, start, join := JoinsFirst(cfg, c);
    w := LoadsCached(cfg, c, w1, 1);
    assert w1.stream[0].fact.commandId == c.start && w1.stream[1].fact.commandId == c.join;
    assert IdsOf(w1.stream) == {c.start, c.join};
  }

  lemma JoinsFirst(cfg: Config, c: Cast) returns (w: World, start: Job, join: Job)
    requires CastOk(c)
    ensures Said(c, start, c.start, Started, "") && Moved(c, join, Joined, "")
    ensures w.stream == [EntryFor(start, 1), EntryFor(join, 2)] && w.issued == [start, join] && w.marks == {} && w.objs.Keys == {0}
    ensures Idle(cfg, c, w, 0, Open, 2, {c.start, c.join}) && w.objs[0].sequence == 2
    ensures w.objs[0].part == Fold(Facts(w.stream)) && IsParticipantNow(Fold(Facts(w.stream)), c.agent)
    ensures StatusOf(Facts(w.stream)) == Open && MaxSeq(Facts(w.stream)) == 2
  {
    var w0;
    w0, start := Opens(cfg, c);
    w, join := MoveAgent(cfg, c, w0, 0, Joined, "", {c.start});
    assert w.stream == [EntryFor(start, 1), EntryFor(join, 2)] && [start] + [join] == [start, join];
    assert {c.start} + {c.join} == {c.start, c.join};
    FoldOfJoin(EntryFor(start, 1).fact, EntryFor(join, 2).fact);
    assert Facts(w.stream) == [EntryFor(start, 1).fact, EntryFor(join, 2).fact];
  }

  lemma {:induction false} LogOfStart(f: Event)
    requires f.eventType.Started? && f.sequence == 1
    ensures Fold([f]) == map[] && StatusOf([f]) == Open && MaxSeq([f]) == 1
  {
    GrownLog([], f);
    assert [] + [f] == [f];
  }

  lemma {:induction false} FoldOfJoin(f: Event, g: Event)
    requires f.eventType.Started? && g.eventType.Joined? && f.sequence == 1 && g.sequence == 2
    ensures Fold([f, g]) == ApplyFact(map[], g) && IsParticipantNow(Fold([f, g]), g.actor)
    ensures StatusOf([f, g]) == Open && MaxSeq([f, g]) == 2
  {
    LogOfStart(f);
    GrownLog([f], g);
    assert [f] + [g] == [f, g];
    MemberAfter(map[], g, g.actor);
  }

  lemma {:induction false} FoldAfterLeaving(f: Event, g: Event, h: Event)
    requires f.eventType.Started? && g.eventType.Joined? && f.sequence == 1 && g.sequence == 2
    requires h.eventType.Left? && h.actor == g.actor
    ensures !IsParticipantNow(Fold([f, g, h]), g.actor)
  {
    FoldOfJoin(f, g);
    FoldOneOpen([f, g]);
    GrownLog([f, g], h);
    assert [f, g] + [h] == [f, g, h];
    MemberAfter(Fold([f, g]), h, g.actor);
  }

  lemma {:induction false} RebuiltKnowsOnlyLogged(stream: Stream, s: Subject, max: int)
    ensures forall id :: id in Rebuild(stream, s, max).cache.results ==> !Lacks(stream, id)
  {
    RebuildSound(stream, s, max);
    var c := Rebuild(stream, s, max).cache;
    forall id | id in c.results ensures !Lacks(stream, id) {
      assert InLogAs(stream, s, id, c.results[id].payloadHash);
    }
  }

  lemma NewestIsKept(c: Cache, id: string, sr: StoredResult, max: int)
    requires InStep(c) && id !in c.results
    ensures id in Put(c, id, sr, max).results
  {
    PutIsBoundedFifo(c, id, sr, max);
    var order := Put(c, id, sr, max).order;
    assert order[|order| - 1] == id;
  }

  /** The newest command of the log is in every rebuilt cache. */
  lemma {:induction false} NewestIsRemembered(stream: Stream, e: Entry, s: Subject, max: int)
    requires e.subject == s && e.fact.commandId != "" && Lacks(stream, e.fact.commandId)
    ensures e.fact.commandId in Rebuild(stream + [e], s, max).cache.results
  {
    var log := SubjectLog(stream, s);
    AppendedLog(stream, e, s);
    RebuildSound(stream, s, max);
    RebuiltKnowsOnlyLogged(stream, s, max);
    assert (log + [e.fact])[..|log|] == log;
    NewestIsKept(RebuiltCache(log, max), e.fact.commandId, StoredResult(e.fact.payloadHash, true), max);
  }

  /** The same message again through state 1, its publish failing: state 1 takes
      over the log's token, but not who left. */
  lemma ReconcilesStale(cfg: Config, c: Cast) returns (w: World, start: Job, join: Job, leave: Job, note: Job, again: Job)
    requires CastOk(c)
    ensures Said(c, start, c.start, Started, "") && Moved(c, join, Joined, "") && Moved(c, leave, Left, "")
    ensures Said(c, note, c.note, TypeOf(Message), "") && Said(c, again, c.note, TypeOf(Message), "")
    ensures w.stream == [EntryFor(start, 1), EntryFor(join, 2), EntryFor(leave, 3), EntryFor(note, 4)]
    ensures w.issued == [start, join, leave, note] + [again] && w.marks == {Mark(ErrorReconcile, c.s, again.items[0])}
    ensures 1 in w.objs && Idle(cfg, c, w, 1, Open, 4, {c.start, c.join}) && IsParticipantNow(w.objs[1].part, c.agent)
  {
    var w4;
    w4, start, join, leave, note := LeavesUnseen(cfg, c);
    var before := w4.stream[..3];
    assert before + [EntryFor(note, 4)] == w4.stream;
    NewestIsRemembered(before, EntryFor(note, 4), c.s, cfg.maxResults);
    OneSubject(w4.stream, c.s);
    var f, g, more := EntryFor(start, 1).fact, EntryFor(join, 2).fact, [EntryFor(leave, 3).fact, EntryFor(note, 4).fact];
    FoldOfJoin(f, g);
    StatusStaysOpen([f, g], more);
    assert Facts(w4.stream) == [f, g] + more;
    w, again := FailsAndReconciles(cfg, c, w4, 1, "", {c.start, c.join});
  }

  /** The cast's message, its publish failing, found in the log. */
  lemma FailsAndReconciles(cfg: Config, c: Cast, w: World, oid: int, data: string, ids: set<string>) returns (w': World, job: Job)
    requires CastOk(c) && oid in w.objs && Idle(cfg, c, w, oid, Open, w.objs[oid].streamSeq, ids) && c.note !in ids && |data| < UINT64
    requires c.note in Rebuild(w.stream, c.s, cfg.maxResults).cache.results
    ensures Said(c, job, c.note, TypeOf(Message), data) && w'.stream == w.stream && w'.issued == w.issued + [job]
    ensures w'.marks == w.marks + {Mark(ErrorReconcile, c.s, job.items[0])} && Reply(job, true) in w'.replies
    ensures oid in w'.objs && w'.objs[oid].part == w.objs[oid].part
    ensures Idle(cfg, c, w', oid, StatusOf(Facts(w.stream)), |w.stream|, ids)
  {
    SayingIsEmitted(Message);
    SaysIsSendable(cfg, c, c.note, NameOf(Message), data);
    job := Says(c, c.note, NameOf(Message), data).job;
    w' := Reconciles(cfg, w, oid, Says(c, c.note, NameOf(Message), data));
    OneSubject(w.stream, c.s);
  }

  lemma {:induction false} StatusStaysOpen(log: seq<Event>, more: seq<Event>)
    requires StatusOf(log) == Open && forall i :: 0 <= i < |more| ==> !more[i].eventType.Started? && !more[i].eventType.Ended?
    ensures StatusOf(log + more) == Open
  {
    if more == [] {
      assert log + more == log;
    } else {
      var n := |more| - 1;
      StatusStaysOpen(log, more[..n]);
      GrownLog(log + more[..n], more[n]);
      assert log + more[..n] + [more[n]] == log + more;
    }
  }

  /** On any broker and any configuration, with every derived id kept for its fact
      and submitted once, an agent that left writes. */
  lemma DepartedWrites(cfg: Config, c: Cast, kept: string -> bool) returns (w: World)
    requires CastOk(c) && Token(c.agent)
    ensures Reachable(cfg, w) && Intruded(w.stream, c.s, c.agent) && !MembersOnly(w.stream, c.s)
    ensures forall m :: m in w.marks ==> m.hazard.ErrorReconcile?
    ensures CollidesOnlyOn(w.issued, c.s, c.note) && JoinsKeptFor(w.issued, c.s, kept) && OnceFor(w.issued, c.s, kept)
    ensures ParentsAgree(w.issued, c.s)
  {
    var w5, start, join, leave, note, again := ReconcilesStale(cfg, c);
    assert c.other != c.start && c.other != c.note && c.other != c.join && c.other != c.left;
    var message;
    w, message := Intrudes(cfg, c, w5, 1, c.other, {c.start, c.join});
    DepartedIds(c, start, join, leave, note, again, message);
    NoMoveCollides(w.issued, c.s, c.note, kept);
  }

  /** The agent joined, left, and someone else wrote or moved. */
  ghost predicate Gone(d: Cast, stream: Stream) {
    && |stream| == 4 && AllOf(stream, d.s) && stream[0].fact.eventType.Started? && stream[0].fact.sequence == 1
    && stream[1].fact.eventType.Joined? && stream[1].fact.actor == d.agent && stream[1].fact.sequence == 2
    && stream[2].fact.eventType.Left? && stream[2].fact.actor == d.agent
    && (stream[3].fact.eventType.Joined? ==> stream[3].fact.actor != d.agent)
  }

  lemma {:induction false} GoneIntrudes(d: Cast, stream: Stream, e: Entry)
    requires Gone(d, stream) && e.subject == d.s && e.gated && e.fact.actor == d.agent
    ensures Intruded(stream + [e], d.s, d.agent) && !MembersOnly(stream + [e], d.s)
  {
    var f, g, h, m := stream[0].fact, stream[1].fact, stream[2].fact, stream[3].fact;
    FoldAfterLeaving(f, g, h);
    FoldOneOpen([f, g, h]);
    GrownLog([f, g, h], m);
    assert [f, g, h] + [m] == Facts(stream);
    MemberAfter(Fold([f, g, h]), m, d.agent);
    LastIntrudes(stream, d.s, e, d.agent);
  }

  lemma Intrudes(cfg: Config, d: Cast, w: World, oid: int, id: string, ids: set<string>) returns (w': World, message: Job)
    requires CastOk(d) && Token(d.agent) && oid in w.objs && Idle(cfg, d, w, oid, Open, 4, ids) && Gone(d, w.stream)
    requires IsParticipantNow(w.objs[oid].part, d.agent) && id != "" && id !in ids && Lacks(w.stream, id)
    ensures Reachable(cfg, w') && w'.marks == w.marks && w'.issued == w.issued + [message] && Written(d, message, id)
    ensures Intruded(w'.stream, d.s, d.agent) && !MembersOnly(w'.stream, d.s)
  {
    w', message := Write(cfg, d, w, oid, id, ids);
    GoneIntrudes(d, w.stream, EntryFor(message, w.objs[oid].sequence + 1));
  }

  lemma DepartedParents(c: Cast, start: Job, join: Job, leave: Job, note: Job, again: Job, message: Job)
    requires CastOk(c) && Said(c, start, c.start, Started, "") && Moved(c, join, Joined, "") && Moved(c, leave, Left, "")
    requires Said(c, note, c.note, TypeOf(Message), "") && Said(c, again, c.note, TypeOf(Message), "") && Written(c, message, c.other)
    ensures ParentsAgree([start, join, leave, note] + [again] + [message], c.s)
  {
    AgreeGrows([start], join, c.s);
    AgreeGrows([start, join], leave, c.s);
    AgreeGrows([start, join, leave], note, c.s);
    assert [start] + [join] == [start, join] && [start, join] + [leave] == [start, join, leave];
    assert [start, join, leave] + [note] == [start, join, leave, note];
    AgreeGrows([start, join, leave, note], again, c.s);
    AgreeGrows([start, join, leave, note] + [again], message, c.s);
  }

  lemma DepartedIds(c: Cast, start: Job, join: Job, leave: Job, note: Job, again: Job, message: Job)
    requires CastOk(c) && Said(c, start, c.start, Started, "") && Moved(c, join, Joined, "") && Moved(c, leave, Left, "")
    requires Said(c, note, c.note, TypeOf(Message), "") && Said(c, again, c.note, TypeOf(Message), "") && Written(c, message, c.other)
    ensures CollidesOnlyOn([start, join, leave, note] + [again] + [message], c.s, c.note)
    ensures Single([start, join, leave, note] + [again] + [message])
    ensures ParentsAgree([start, join, leave, note] + [again] + [message], c.s)
  {
    DepartedParents(c, start, join, leave, note, again, message);
    NewIdIsOnce([start], join, c.s, c.note);
    assert [start] + [join] == [start, join];
    NewIdIsOnce([start, join], leave, c.s, c.note);
    assert [start, join] + [leave] == [start, join, leave];
    NewIdIsOnce([start, join, leave], note, c.s, c.note);
    assert [start, join, leave] + [note] == [start, join, leave, note];
    NewIdIsOnce([start, join, leave, note], again, c.s, c.note);
    NewIdIsOnce([start, join, leave, note] + [again], message, c.s, c.note);
  }

  /** When no id of a move collides, each is submitted once and kept for its fact. */
  lemma NoMoveCollides(issued: seq<Job>, s: Subject, x: string, kept: string -> bool)
    requires Single(issued) && CollidesOnlyOn(issued, s, x)
    requires kept(x) ==> forall j :: j in issued && j.participation ==> j.items[0].commandId != x
    ensures JoinsKeptFor(issued, s, kept) && OnceFor(issued, s, kept)
  {
    forall j, j' | j in issued && j' in issued && j.subject == j'.subject == s && j.participation
                   && kept(j.items[0].commandId) && j.items[0].commandId == j'.items[0].commandId
      ensures j == j'
    {
      var i :| 0 <= i < |issued| && issued[i] == j;
      var i' :| 0 <= i' < |issued| && issued[i'] == j';
      var id := j.items[0].commandId;
      assert Once(issued, s, id) && Mentions(issued[i], s, id) && Mentions(issued[i'], s, id);
    }
  }

  /** On a broker that checks concurrency first, only members write on the subject
      in every run, if and only if no append error is reconciled and the id derived
      for every join of an agent that can write is kept for that join. */
  lemma {:induction false} MembersIffJoinsKept(cfg: Config, s: Subject, kept: string -> bool, reconciles: bool)
    requires Nameable(s) && cfg.order.OccFirst? && cfg.maxResults > 0
    ensures !reconciles && AllJoinsKept(kept) <==>
            forall w :: Reachable(cfg, w) && ParentsAgree(w.issued, s) && (reconciles || Clear(w.marks, ErrorReconcile, s))
                        && JoinsKeptFor(w.issued, s, kept) ==>
              MembersOnly(w.stream, s)
  {
    if reconciles {
      var w := DepartedWrites(cfg, CastFor(s, "p", "a", Joined), kept);
    } else if AllJoinsKept(kept) {
      forall w | Reachable(cfg, w) && Clear(w.marks, ErrorReconcile, s) && JoinsKeptFor(w.issued, s, kept)
        ensures MembersOnly(w.stream, s)
      {
        var steps :| Run(cfg, steps) == w;
        KeptJoins(cfg, steps, s, kept);
        WritersAreMembers(cfg, steps, s);
      }
    } else {
      var p, a :| Usable(p, a) && Token(a) && !kept(SubId(p, FactName(Joined), a));
      var w := StrangerWrites(cfg, CastFor(s, p, a, Joined));
      assert JoinsKeptFor(w.issued, s, kept);
    }
  }

  // ------------------------------------------------------- a stale state's note

  /** Two agents on one subject whose ids do not meet: `d` and its own cast. */
  predicate Pair(c: Cast, d: Cast, t: EventType) {
    && CastOk(c) && CastOk(d) && c.s == d.s && Token(d.agent) && d.agent != c.agent && IsParticipationFact(t)
    && MoveId(c, t) != d.start && MoveId(c, t) != d.note && MoveId(c, t) != d.join && MoveId(c, t) != d.left
    && ParentOf(c, t) != d.parent && ParentOf(c, t) != d.leaving
  }

  function Partner(c: Cast, t: EventType): (d: Cast)
    requires CastOk(c) && IsParticipationFact(t)
    ensures Pair(c, d, t)
  {
    var d := CastFor(c.s, MoveId(c, t) + "p", if c.agent == "a" then "b" else "a", Joined);
    assert |d.join| > |d.parent| > |MoveId(c, t)| > |ParentOf(c, t)| && |d.left| > |d.leaving| > |d.parent|;
    assert |d.start| > |d.join| && |d.note| > |d.join|;
    d
  }

  /** `d` joined, and left unseen by state 1; then `c` moved. */
  lemma MovesBehind(cfg: Config, c: Cast, d: Cast, t: EventType) returns (w: World, start: Job, join: Job, leave: Job, move: Job)
    requires Pair(c, d, t)
    ensures Said(d, start, d.start, Started, "") && Moved(d, join, Joined, "") && Moved(d, leave, Left, "") && Moved(c, move, t, "")
    ensures w.stream == [EntryFor(start, 1), EntryFor(join, 2), EntryFor(leave, 3), EntryFor(move, 4)]
    ensures Gone(d, w.stream) && Lacks(w.stream, d.note)
    ensures w.issued == [start, join, leave, move] && w.marks == {}
    ensures 1 in w.objs && Idle(cfg, d, w, 1, Open, 2, {d.start, d.join})
    ensures w.objs[1].part == Fold(Facts(w.stream[..2])) && IsParticipantNow(w.objs[1].part, d.agent)
  {
    var w3;
    w3, start, join, leave := LeavesBehind(cfg, d);
    LacksMove(c, d, t, start, join, leave);
    w, move := MoveAgent(cfg, c, w3, 0, t, "", {d.start, d.join, d.left});
    assert [start, join, leave] + [move] == [start, join, leave, move];
    FourEntries(w3.stream, EntryFor(start, 1), EntryFor(join, 2), EntryFor(leave, 3), EntryFor(move, 4));
    GoneBy(c, d, t, start, join, leave, move);
  }

  lemma LacksMove(c: Cast, d: Cast, t: EventType, start: Job, join: Job, leave: Job)
    requires Pair(c, d, t) && Said(d, start, d.start, Started, "") && Moved(d, join, Joined, "") && Moved(d, leave, Left, "")
    ensures Lacks([EntryFor(start, 1), EntryFor(join, 2), EntryFor(leave, 3)], MoveId(c, t))
    ensures MoveId(c, t) !in {d.start, d.join, d.left}
  {
  }

  lemma FourEntries(stream: Stream, a: Entry, b: Entry, e: Entry, f: Entry)
    requires stream == [a, b, e]
    ensures stream + [f] == [a, b, e, f] && [a, b, e, f][..2] == stream[..2]
  {
  }

  lemma GoneBy(c: Cast, d: Cast, t: EventType, start: Job, join: Job, leave: Job, move: Job)
    requires Pair(c, d, t) && Said(d, start, d.start, Started, "")
    requires Moved(d, join, Joined, "") && Moved(d, leave, Left, "") && Moved(c, move, t, "")
    ensures var stream := [EntryFor(start, 1), EntryFor(join, 2), EntryFor(leave, 3), EntryFor(move, 4)];
            Gone(d, stream) && Lacks(stream, d.note)
  {
  }

  /** Where duplicates are looked for first, a move driven again through a stale
      state makes that state pass for current, and `d`, who left, writes. */
  lemma StaleWrites(cfg: Config, c: Cast, d: Cast, t: EventType, kept: string -> bool) returns (w: World)
    requires Pair(c, d, t) && cfg.order.DedupFirst? && !kept(MoveId(c, t))
    ensures Reachable(cfg, w) && Clear(w.marks, ErrorReconcile, c.s)
    ensures CollidesOnlyOn(w.issued, c.s, MoveId(c, t)) && OnceFor(w.issued, c.s, kept) && ParentsAgree(w.issued, c.s)
    ensures Intruded(w.stream, c.s, d.agent) && !MembersOnly(w.stream, c.s)
  {
    var w5, start, join, leave, move, again := PassesForCurrent(cfg, c, d, t);
    var message;
    w, message := Intrudes(cfg, d, w5, 1, d.note, {d.start, d.join} + {MoveId(c, t)});
    StaleIds(c, d, t, start, join, leave, move, again, message);
    NoMoveCollides(w.issued, c.s, MoveId(c, t), kept);
  }

  lemma PassesForCurrent(cfg: Config, c: Cast, d: Cast, t: EventType)
    returns (w: World, start: Job, join: Job, leave: Job, move: Job, again: Job)
    requires Pair(c, d, t) && cfg.order.DedupFirst?
    ensures Said(d, start, d.start, Started, "") && Moved(d, join, Joined, "") && Moved(d, leave, Left, "")
    ensures Moved(c, move, t, "") && Moved(c, again, t, "")
    ensures w.issued == [start, join, leave, move] + [again] && w.marks == {Mark(ParticipationDuplicate, c.s, again.items[0])}
    ensures 1 in w.objs && Idle(cfg, d, w, 1, Open, 4, {d.start, d.join} + {MoveId(c, t)})
    ensures Gone(d, w.stream) && Lacks(w.stream, d.note) && IsParticipantNow(w.objs[1].part, d.agent)
  {
    var w4;
    w4, start, join, leave, move := MovesBehind(cfg, c, d, t);
    w, again := MoveAgain(cfg, c, w4, 1, t, "", 3, {d.start, d.join});
    StillMember(Facts(w4.stream[..2]), EntryFor(again, w4.objs[1].sequence + 1).fact, d.agent);
  }

  lemma StillMember(log: seq<Event>, f: Event, agent: string)
    requires IsParticipantNow(Fold(log), agent) && f.actor != agent
    ensures IsParticipantNow(ApplyFact(Fold(log), f), agent)
  {
    FoldOneOpen(log);
    MemberAfter(Fold(log), f, agent);
  }

  lemma StaleParents(c: Cast, d: Cast, t: EventType, start: Job, join: Job, leave: Job, move: Job, again: Job, message: Job)
    requires Pair(c, d, t)
    requires Said(d, start, d.start, Started, "") && Moved(d, join, Joined, "") && Moved(d, leave, Left, "")
    requires Moved(c, move, t, "") && Moved(c, again, t, "") && Written(d, message, d.note)
    ensures ParentsAgree([start, join, leave, move] + [again] + [message], c.s)
  {
    AgreeGrows([start], join, c.s);
    AgreeGrows([start, join], leave, c.s);
    AgreeGrows([start, join, leave], move, c.s);
    assert [start] + [join] == [start, join] && [start, join] + [leave] == [start, join, leave];
    assert [start, join, leave] + [move] == [start, join, leave, move];
    AgreeGrows([start, join, leave, move], again, c.s);
    AgreeGrows([start, join, leave, move] + [again], message, c.s);
  }

  lemma StaleIds(c: Cast, d: Cast, t: EventType, start: Job, join: Job, leave: Job, move: Job, again: Job, message: Job)
    requires Pair(c, d, t)
    requires Said(d, start, d.start, Started, "") && Moved(d, join, Joined, "") && Moved(d, leave, Left, "")
    requires Moved(c, move, t, "") && Moved(c, again, t, "") && Written(d, message, d.note)
    ensures CollidesOnlyOn([start, join, leave, move] + [again] + [message], c.s, MoveId(c, t))
    ensures Single([start, join, leave, move] + [again] + [message])
    ensures ParentsAgree([start, join, leave, move] + [again] + [message], c.s)
  {
    StaleParents(c, d, t, start, join, leave, move, again, message);
    var x := MoveId(c, t);
    NewIdIsOnce([start], join, c.s, x);
    assert [start] + [join] == [start, join];
    NewIdIsOnce([start, join], leave, c.s, x);
    assert [start, join] + [leave] == [start, join, leave];
    NewIdIsOnce([start, join, leave], move, c.s, x);
    assert [start, join, leave] + [move] == [start, join, leave, move];
    NewIdIsOnce([start, join, leave, move], again, c.s, x);
    NewIdIsOnce([start, join, leave, move] + [again], message, c.s, x);
  }

  /** On a broker that looks for duplicates first, only members write on the subject
      in every run, if and only if no append error is reconciled and every derived
      id is submitted once. */
  lemma {:induction false} MembersIffMovesOnce(cfg: Config, s: Subject, kept: string -> bool, reconciles: bool)
    requires Nameable(s) && cfg.order.DedupFirst?
    ensures !reconciles && AllMovesKept(kept) <==>
            forall w :: Reachable(cfg, w) && ParentsAgree(w.issued, s) && (reconciles || Clear(w.marks, ErrorReconcile, s))
                        && OnceFor(w.issued, s, kept) ==>
              MembersOnly(w.stream, s)
  {
    if reconciles {
      var w := DepartedWrites(cfg, CastFor(s, "p", "a", Joined), kept);
    } else if AllMovesKept(kept) {
      forall w | Reachable(cfg, w) && Clear(w.marks, ErrorReconcile, s) && OnceFor(w.issued, s, kept)
        ensures MembersOnly(w.stream, s)
      {
        var steps :| Run(cfg, steps) == w;
        OnceIsClear(cfg, steps, s, kept);
        WritersAreMembers(cfg, steps, s);
      }
    } else {
      var p, a, t: EventType :| Usable(p, a) && IsParticipationFact(t) && !kept(SubId(p, FactName(t), a));
      var c := CastFor(s, p, a, t);
      var w := StaleWrites(cfg, c, Partner(c, t), t, kept);
    }
  }
}
