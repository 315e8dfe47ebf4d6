/** Exactly when a subject's log keeps its life cycle and its numbering. What can
    break them is one id the router derives for a participation fact, when some
    other command bears it too or it is driven again (internal/signaling/router.go:559-562,
    688-691). So each theorem quantifies over a set `kept` of ids the callers keep
    apart, and says which ids that must be: every derived one. */
module RouterLimits {
  import opened Encoding
  import opened Membership
  import opened Admission
  import opened RouterLog
  import opened RouterMachine
  import opened RouterSafety
  import opened RouterPayload
  import opened RouterOnce
  import opened RouterTheorems
  import opened RouterRuns
  import opened RouterCast

  /** The policy covers every id the router may derive. */
  ghost predicate AllMovesKept(kept: string -> bool) {
    forall p, a, t: EventType :: Usable(p, a) && IsParticipationFact(t) ==> kept(SubId(p, FactName(t), a))
  }

  lemma {:induction false} MoveIsKept(cfg: Config, steps: seq<Step>, kept: string -> bool, job: Job, k: nat)
    requires AllMovesKept(kept) && job in Run(cfg, steps).issued && job.participation && k < |job.items|
    ensures kept(job.items[k].commandId)
  {
    IssuedAreSealed(cfg, steps);
    RouterBase.BaseAlways(cfg, steps);
    assert Sealed(job) && Sane(job);
    assert SealedItem(job.items[k]) && IsDerived(job, k);
    assert Usable(job.parent, job.items[k].actor);
  }

  /** Commands of one parent id stand for the same facts. The router refuses a retry
      that does not, where it still knows the parent (internal/signaling/router.go:570-581).
      The theorems below speak of such callers only, so nothing turns on that check. */
  ghost predicate ParentsAgree(issued: seq<Job>, s: Subject) {
    forall j, j' {:trigger SameFacts(j, j')} ::
      j in issued && j' in issued && j.subject == j'.subject == s && j.participation && j'.participation && j.parent == j'.parent ==>
        SameFacts(j, j')
  }

  ghost predicate SameFacts(j: Job, j': Job) {
    |j.items| == |j'.items| && forall k :: 0 <= k < |j.items| ==> j.items[k].commandId == j'.items[k].commandId
  }

  // ------------------------------------------------------- policies on ids

  /** No end bears a kept id of one of the subject's participation facts. */
  ghost predicate EndsKeptFor(issued: seq<Job>, s: Subject, kept: string -> bool) {
    forall j, j', k, k' :: j in issued && j' in issued && j.subject == j'.subject == s && j.participation
                           && 0 <= k < |j.items| && 0 <= k' < |j'.items| && j.items[k].commandId == j'.items[k'].commandId
                           && kept(j.items[k].commandId) ==>
      !j'.items[k'].eventType.Ended?
  }

  /** A kept id of one of the subject's participation facts is submitted once. */
  ghost predicate OnceFor(issued: seq<Job>, s: Subject, kept: string -> bool) {
    forall j, k :: j in issued && j.subject == s && j.participation && 0 <= k < |j.items| && kept(j.items[k].commandId) ==>
      Once(issued, s, j.items[k].commandId)
  }

  lemma {:induction false} KeptEnds(cfg: Config, steps: seq<Step>, s: Subject, kept: string -> bool)
    requires AllMovesKept(kept) && EndsKeptFor(Run(cfg, steps).issued, s, kept)
    ensures EndsKept(Run(cfg, steps).issued, s)
  {
    var issued := Run(cfg, steps).issued;
    forall j, j' | j in issued && j' in issued && j.subject == j'.subject == s && j.participation ensures EndsApart(j, j') {
      forall k | 0 <= k < |j.items| ensures kept(j.items[k].commandId) {
        MoveIsKept(cfg, steps, kept, j, k);
      }
    }
  }

  /** When no participation fact is submitted twice, none is answered "duplicate". */
  lemma {:induction false} OnceIsClear(cfg: Config, steps: seq<Step>, s: Subject, kept: string -> bool)
    requires AllMovesKept(kept) && OnceFor(Run(cfg, steps).issued, s, kept)
    ensures Clear(Run(cfg, steps).marks, ParticipationDuplicate, s)
  {
    var w := Run(cfg, steps);
    LonelyAlways(cfg, steps);
    forall m | m in w.marks && m.hazard == ParticipationDuplicate ensures m.subject != s {
      assert Repeated(w, m);
      var job :| job in w.issued && job.subject == m.subject && job.participation && m.item in job.items;
      var k :| 0 <= k < |job.items| && job.items[k] == m.item;
      MoveIsKept(cfg, steps, kept, job, k);
    }
  }

  /** The run's participation commands all stand for the one fact `id`. */
  ghost predicate OnlyMoves(issued: seq<Job>, id: string) {
    forall j :: j in issued && j.participation ==> |j.items| == 1 && j.items[0].commandId == id
  }

  lemma MovesUnkept(issued: seq<Job>, s: Subject, kept: string -> bool, id: string)
    requires OnlyMoves(issued, id) && !kept(id)
    ensures EndsKeptFor(issued, s, kept) && OnceFor(issued, s, kept) && ParentsAgree(issued, s)
  {
  }

  lemma OnlyMovesAgree(issued: seq<Job>, s: Subject, id: string)
    requires OnlyMoves(issued, id)
    ensures ParentsAgree(issued, s)
  {
  }

  lemma MovesGrow(issued: seq<Job>, more: seq<Job>, id: string)
    requires OnlyMoves(issued, id) && OnlyMoves(more, id)
    ensures OnlyMoves(issued + more, id)
  {
  }

  // ------------------------------------------------------- a closed log continued

  lemma LoadsAfterStart(cfg: Config, c: Cast, w: World, start: Job) returns (w': World)
    requires CastOk(c) && Said(c, start, c.start, Started, "") && w.stream == [EntryFor(start, 1)] && w.objs.Keys == {0}
    requires Idle(cfg, c, w, 0, Open, 1, {c.start})
    ensures w' == w.(objs := w.objs[1 := Rebuild(w.stream, c.s, cfg.maxResults)])
    ensures Idle(cfg, c, w', 0, Open, 1, {c.start}) && Idle(cfg, c, w', 1, Open, 1, {c.start})
    ensures w'.objs[1].sequence == 1 && w'.objs[1].part == map[]
  {
    w' := LoadsCached(cfg, c, w, 1);
    var f := EntryFor(start, 1).fact;
    assert Facts(w.stream) == [f] == [] + [f];
    GrownLog([], f);
    assert IdsOf(w.stream) == {c.start};
  }

  /** Started, then ended under the derived id. A state cached between takes the
      end's sequence for its own fact's, and writes on. */
  lemma {:induction false} WritesAfterEnd(cfg: Config, c: Cast, t: EventType) returns (w: World)
    requires CastOk(c) && cfg.order.DedupFirst? && IsParticipationFact(t)
    ensures Reachable(cfg, w) && OnlyMoves(w.issued, MoveId(c, t)) && !LifecycleLog(SubjectLog(w.stream, c.s))
  {
    var w3, start, end := EndsUnder(cfg, c, MoveId(c, t));
    var w4, move := MoveAgain(cfg, c, w3, 1, t, "", 1, {c.start});
    var note;
    w, note := Say(cfg, c, w4, 1, c.note, Message, "", {c.start} + {MoveId(c, t)});
    OneSubject(w.stream, c.s);
    assert Facts(w.stream)[1].eventType.Ended?;
    MovesGrow([start, end], [move], MoveId(c, t));
    MovesGrow([start, end] + [move], [note], MoveId(c, t));
  }

  lemma EndsUnder(cfg: Config, c: Cast, id: string) returns (w: World, start: Job, end: Job)
    requires CastOk(c) && id != "" && id != c.start
    ensures Said(c, start, c.start, Started, "") && Said(c, end, id, Ended, "")
    ensures w.stream == [EntryFor(start, 1), EntryFor(end, 2)] && w.issued == [start, end]
    ensures 1 in w.objs && Idle(cfg, c, w, 1, Open, 1, {c.start})
  {
    var w1;
    w1, start := Opens(cfg, c);
    var w2 := LoadsAfterStart(cfg, c, w1, start);
    w, end := Say(cfg, c, w2, 0, id, End, "", {c.start});
    assert [EntryFor(start, 1)] + [EntryFor(end, 2)] == [EntryFor(start, 1), EntryFor(end, 2)] && [start] + [end] == [start, end];
  }

  /** Every run keeps the subject's life cycle if and only if the broker checks
      concurrency first or no end may bear an id the router derives. */
  lemma {:induction false} LifecycleIffEndsKept(cfg: Config, s: Subject, kept: string -> bool)
    requires Nameable(s)
    ensures cfg.order.OccFirst? || AllMovesKept(kept) <==>
            forall w :: Reachable(cfg, w) && ParentsAgree(w.issued, s) && EndsKeptFor(w.issued, s, kept) ==>
              LifecycleLog(SubjectLog(w.stream, s))
  {
    if cfg.order.OccFirst? || AllMovesKept(kept) {
      forall w | Reachable(cfg, w) && EndsKeptFor(w.issued, s, kept) ensures LifecycleLog(SubjectLog(w.stream, s)) {
        var steps :| Run(cfg, steps) == w;
        if AllMovesKept(kept) {
          KeptEnds(cfg, steps, s, kept);
        }
        LogLifecycle(cfg, steps, s);
      }
    } else {
      var p, a, t: EventType :| Usable(p, a) && IsParticipationFact(t) && !kept(SubId(p, FactName(t), a));
      var w := WritesAfterEnd(cfg, CastFor(s, p, a, t), t);
      MovesUnkept(w.issued, s, kept, SubId(p, FactName(t), a));
    }
  }

  const SAMPLE := Subject("t", "i")

  /** With nothing asked of the callers: exactly when the broker checks concurrency
      first, every run of every subject keeps its log's life cycle. */
  lemma {:induction false} LifecycleIffOccFirst(cfg: Config)
    ensures cfg.order.OccFirst? <==> forall w, s :: Reachable(cfg, w) && ParentsAgree(w.issued, s) ==> LifecycleLog(SubjectLog(w.stream, s))
  {
    if cfg.order.OccFirst? {
      forall w, s | Reachable(cfg, w) ensures LifecycleLog(SubjectLog(w.stream, s)) {
        var steps :| Run(cfg, steps) == w;
        LogLifecycle(cfg, steps, s);
      }
    } else {
      var c := CastFor(SAMPLE, "p", "a", Joined);
      var w := WritesAfterEnd(cfg, c, Joined);
      MovesUnkept(w.issued, SAMPLE, _ => false, c.join);
    }
  }

  // ------------------------------------------------------- a number given twice

  /** Started, noted, moved; the same move through a state cached after the start
      takes over the token but counts one fact less: 1, 2, 3, 3. */
  lemma {:induction false} RepeatsASequence(cfg: Config, c: Cast, t: EventType) returns (w: World)
    requires CastOk(c) && cfg.order.DedupFirst? && IsParticipationFact(t)
    ensures Reachable(cfg, w) && OnlyMoves(w.issued, MoveId(c, t)) && !Increasing(SubjectLog(w.stream, c.s))
  {
    var w4, start, note, move := NotesThenMoves(cfg, c, t);
    var w5, again := MoveAgain(cfg, c, w4, 1, t, "", 2, {c.start});
    assert c.other != c.start && c.other != c.note && c.other != MoveId(c, t);
    var last;
    w, last := Say(cfg, c, w5, 1, c.other, Message, "", {c.start} + {MoveId(c, t)});
    OneSubject(w.stream, c.s);
    assert Facts(w.stream)[2].sequence == 3 && Facts(w.stream)[3].sequence == 3;
    MovesGrow([start, note, move], [again], MoveId(c, t));
    MovesGrow([start, note, move] + [again], [last], MoveId(c, t));
  }

  /** Through state 0, with state 1 cached after the start. */
  lemma NotesThenMoves(cfg: Config, c: Cast, t: EventType) returns (w: World, start: Job, note: Job, move: Job)
    requires CastOk(c) && IsParticipationFact(t)
    ensures Said(c, start, c.start, Started, "") && Said(c, note, c.note, TypeOf(Message), "") && Moved(c, move, t, "")
    ensures w.stream == [EntryFor(start, 1), EntryFor(note, 2), EntryFor(move, 3)] && w.issued == [start, note, move]
    ensures 1 in w.objs && Idle(cfg, c, w, 1, Open, 1, {c.start}) && w.objs[1].sequence == 1
  {
    var w3;
    w3, start, note := Notes(cfg, c);
    w, move := MoveAgent(cfg, c, w3, 0, t, "", {c.start, c.note});
    assert [start, note] + [move] == [start, note, move];
    assert w3.stream + [EntryFor(move, 3)] == [EntryFor(start, 1), EntryFor(note, 2), EntryFor(move, 3)];
  }

  lemma Notes(cfg: Config, c: Cast) returns (w: World, start: Job, note: Job)
    requires CastOk(c)
    ensures Said(c, start, c.start, Started, "") && Said(c, note, c.note, TypeOf(Message), "")
    ensures w.stream == [EntryFor(start, 1), EntryFor(note, 2)] && w.issued == [start, note] && w.marks == {}
    ensures w.objs.Keys == {0, 1} && Idle(cfg, c, w, 0, Open, 2, {c.start, c.note}) && Idle(cfg, c, w, 1, Open, 1, {c.start})
    ensures w.objs[0].sequence == 2 && w.objs[0].part == map[] && w.objs[1].sequence == 1 && w.objs[1].part == map[]
  {
    var w1;
    w1, start := Opens(cfg, c);
    var w2 := LoadsAfterStart(cfg, c, w1, start);
    w, note := Say(cfg, c, w2, 0, c.note, Message, "", {c.start});
    assert {c.start} + {c.note} == {c.start, c.note} && [start] + [note] == [start, note];
    assert w2.stream + [EntryFor(note, 2)] == [EntryFor(start, 1), EntryFor(note, 2)];
  }

  /** Every run's numbers strictly increase if and only if the broker checks
      concurrency first or every derived id is submitted once. */
  lemma {:induction false} RisingIffMovesOnce(cfg: Config, s: Subject, kept: string -> bool)
    requires Nameable(s)
    ensures cfg.order.OccFirst? || AllMovesKept(kept) <==>
            forall w :: Reachable(cfg, w) && ParentsAgree(w.issued, s) && OnceFor(w.issued, s, kept) ==>
              Increasing(SubjectLog(w.stream, s))
  {
    if cfg.order.OccFirst? || AllMovesKept(kept) {
      forall w | Reachable(cfg, w) && OnceFor(w.issued, s, kept) ensures Increasing(SubjectLog(w.stream, s)) {
        var steps :| Run(cfg, steps) == w;
        if AllMovesKept(kept) {
          OnceIsClear(cfg, steps, s, kept);
        }
        SequencesRise(cfg, steps, s);
      }
    } else {
      var p, a, t: EventType :| Usable(p, a) && IsParticipationFact(t) && !kept(SubId(p, FactName(t), a));
      var w := RepeatsASequence(cfg, CastFor(s, p, a, t), t);
      MovesUnkept(w.issued, s, kept, SubId(p, FactName(t), a));
    }
  }

  lemma {:induction false} RisingIffOccFirst(cfg: Config)
    ensures cfg.order.OccFirst? <==> forall w, s :: Reachable(cfg, w) && ParentsAgree(w.issued, s) ==> Increasing(SubjectLog(w.stream, s))
  {
    if cfg.order.OccFirst? {
      forall w, s | Reachable(cfg, w) ensures Increasing(SubjectLog(w.stream, s)) {
        var steps :| Run(cfg, steps) == w;
        SequencesRise(cfg, steps, s);
      }
    } else {
      var c := CastFor(SAMPLE, "p", "a", Joined);
      var w := RepeatsASequence(cfg, c, Joined);
      MovesUnkept(w.issued, SAMPLE, _ => false, c.join);
    }
  }

  // ------------------------------------------------------- a number skipped

  /** Moved, forgotten, moved again: the second move is a "duplicate" at the very
      token, but counts as a fact. The next is number 4 at place 3. */
  lemma {:induction false} SkipsASequence(cfg: Config, c: Cast, t: EventType) returns (w: World)
    requires CastOk(c) && cfg.maxResults > 0 && IsParticipationFact(t)
    ensures Reachable(cfg, w) && OnlyMoves(w.issued, MoveId(c, t)) && !Numbered(SubjectLog(w.stream, c.s))
  {
    var w3, start, move, fill := MovesAndForgets(cfg, c, t);
    var w4, again := MoveAgain(cfg, c, w3, 0, t, "", 1, Fillers(c, cfg.maxResults));
    var note;
    w, note := Say(cfg, c, w4, 0, c.note, Message, "", Fillers(c, cfg.maxResults) + {MoveId(c, t)});
    OneSubject(w.stream, c.s);
    assert Facts(w.stream)[2].sequence == 4;
    SkipsIds(c, t, start, move, fill, again, note);
  }

  lemma SkipsIds(c: Cast, t: EventType, start: Job, move: Job, fill: seq<Job>, again: Job, note: Job)
    requires Said(c, start, c.start, Started, "") && Moved(c, move, t, "") && Fill(c, fill, Started)
    requires Moved(c, again, t, "") && Said(c, note, c.note, TypeOf(Message), "")
    ensures OnlyMoves([start, move] + fill + [again] + [note], MoveId(c, t))
  {
    MovesGrow([start, move], fill, MoveId(c, t));
    MovesGrow([start, move] + fill, [again], MoveId(c, t));
    MovesGrow([start, move] + fill + [again], [note], MoveId(c, t));
  }

  lemma MovesAndForgets(cfg: Config, c: Cast, t: EventType) returns (w: World, start: Job, move: Job, fill: seq<Job>)
    requires CastOk(c) && cfg.maxResults > 0 && IsParticipationFact(t)
    ensures Said(c, start, c.start, Started, "") && Moved(c, move, t, "") && Fill(c, fill, Started)
    ensures w.stream == [EntryFor(start, 1), EntryFor(move, 2)] && w.issued == [start, move] + fill && w.marks == {}
    ensures 0 in w.objs && Idle(cfg, c, w, 0, Open, 2, Fillers(c, cfg.maxResults)) && w.objs[0].sequence == 2
    ensures forall id :: Short(c, id) ==> id !in Fillers(c, cfg.maxResults)
  {
    var w1;
    w1, start := Opens(cfg, c);
    var w2;
    w2, move := MoveAgent(cfg, c, w1, 0, t, "", {c.start});
    assert w2.stream == [EntryFor(start, 1), EntryFor(move, 2)] && [start] + [move] == [start, move];
    w, fill := Forgets(cfg, c, w2, {c.start} + {MoveId(c, t)});
  }

  /** Every run's numbers are 1, 2, 3, ... if and only if every derived id is
      submitted once, whichever check the broker does first. */
  lemma {:induction false} DenseIffMovesOnce(cfg: Config, s: Subject, kept: string -> bool)
    requires Nameable(s) && cfg.maxResults > 0
    ensures AllMovesKept(kept) <==>
            forall w :: Reachable(cfg, w) && ParentsAgree(w.issued, s) && OnceFor(w.issued, s, kept) ==>
              Numbered(SubjectLog(w.stream, s))
  {
    if AllMovesKept(kept) {
      forall w | Reachable(cfg, w) && OnceFor(w.issued, s, kept) ensures Numbered(SubjectLog(w.stream, s)) {
        var steps :| Run(cfg, steps) == w;
        OnceIsClear(cfg, steps, s, kept);
        SequencesDense(cfg, steps, s);
      }
    } else {
      var p, a, t: EventType :| Usable(p, a) && IsParticipationFact(t) && !kept(SubId(p, FactName(t), a));
      var w := SkipsASequence(cfg, CastFor(s, p, a, t), t);
      MovesUnkept(w.issued, s, kept, SubId(p, FactName(t), a));
    }
  }

  /** No configuration the router can be built with numbers every log densely. */
  lemma {:induction false} EveryConfigurationSkipsASequence(cfg: Config)
    requires cfg.maxResults > 0
    ensures exists w, s :: Reachable(cfg, w) && ParentsAgree(w.issued, s) && !Numbered(SubjectLog(w.stream, s))
  {
    var c := CastFor(SAMPLE, "p", "a", Joined);
    var w := SkipsASequence(cfg, c, Joined);
    MovesUnkept(w.issued, SAMPLE, _ => false, c.join);
  }
}
