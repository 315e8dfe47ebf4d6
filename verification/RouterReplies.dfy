/** Exactly when an accepting answer vouches for the payload: when none of the four
    paths that do not compare it was taken (internal/signaling/router.go:427-441,
    446-466, 688-693). Each of them alone is enough to accept other contents than
    the logged ones. */
module RouterReplies {
  import opened Encoding
  import opened Membership
  import opened Admission
  import opened ResultCache
  import opened RouterLog
  import opened RouterMachine
  import opened RouterBase
  import opened RouterPayload
  import opened RouterRuns
  import opened RouterCast
  import opened RouterLimits
  import opened RouterMembers

  /** Every fact of every command of `s` answered accepted is logged in full. */
  ghost predicate Vouched(w: World, s: Subject) {
    forall r, k: nat :: r in w.replies && r.accepted && r.job.subject == s && k < |r.job.items| ==>
      LoggedInFull(w.stream, s, r.job.items[k])
  }

  /** On subject `s` the run took no other paths than these. */
  ghost predicate TookOnly(marks: set<Mark>, s: Subject, taken: set<Hazard>) {
    forall m :: m in marks && m.subject == s ==> m.hazard in taken
  }

  /** The log holds the id with another payload, and the command was accepted. */
  lemma NotVouched(cfg: Config, c: Cast, w: World, i: nat, job: Job)
    requires Reachable(cfg, w) && AllOf(w.stream, c.s) && i < |w.stream| && Reply(job, true) in w.replies
    requires |job.items| == 1 && job.subject == c.s && w.stream[i].fact.commandId == job.items[0].commandId
    requires w.stream[i].payload != job.items[0].payload
    ensures !Vouched(w, c.s)
  {
    ReachableIsBase(cfg, w);
    forall j | 0 <= j < |w.stream| && w.stream[j].fact.commandId == job.items[0].commandId ensures j == i {
      assert w.stream[i].dedupId == w.stream[j].dedupId;
    }
    var r := Reply(job, true);
    assert r.accepted && !LoggedInFull(w.stream, c.s, r.job.items[0]);
  }

  // ------------------------------------------------------- one run per path

  lemma AcceptsAfterError(cfg: Config, c: Cast, kept: string -> bool) returns (w: World)
    requires CastOk(c)
    ensures Reachable(cfg, w) && TookOnly(w.marks, c.s, {ErrorReconcile}) && !Vouched(w, c.s) && ParentsAgree(w.issued, c.s)
    ensures !kept(c.note) ==> PayloadsAgreeFor(w.issued, c.s, kept)
  {
    var w1, start, note := Notes(cfg, c);
    var first := EntryFor(start, 1);
    assert [first] + [EntryFor(note, 2)] == w1.stream;
    NewestIsRemembered([first], EntryFor(note, 2), c.s, cfg.maxResults);
    var job;
    w, job := FailsAndReconciles(cfg, c, w1, 1, "x", {c.start});
    NotVouched(cfg, c, w, 1, job);
    if !kept(c.note) {
      OnlyTheNoteDiffers(c, start, note, job, kept);
    }
  }

  lemma AcceptsAfterMove(cfg: Config, c: Cast) returns (w: World)
    requires CastOk(c) && cfg.maxResults > 0
    ensures Reachable(cfg, w) && TookOnly(w.marks, c.s, {ParticipationDuplicate}) && !Vouched(w, c.s) && ParentsAgree(w.issued, c.s)
  {
    var w1, start, move, fill := MovesAndForgets(cfg, c, Joined);
    var job;
    w, job := MoveAgain(cfg, c, w1, 0, Joined, "x", 1, Fillers(c, cfg.maxResults));
    MovesGrow([start, move], fill, c.join);
    MovesGrow([start, move] + fill, [job], c.join);
    OnlyMovesAgree(w.issued, c.s, c.join);
    NotVouched(cfg, c, w, 1, job);
  }

  /** The message once more with other contents, answered "duplicate". */
  lemma IsDuplicate(cfg: Config, c: Cast, w: World, oid: int, ids: set<string>)
    requires CastOk(c) && oid in w.objs && Idle(cfg, c, w, oid, Open, |w.stream|, ids) && c.note !in ids
    requires |w.stream| > 1 && w.stream[1].fact.commandId == c.note
    ensures var l := Says(c, c.note, NameOf(Message), "x");
            && Sendable(cfg, l) && Said(c, l.job, c.note, TypeOf(Message), "x")
            && CheckItem(w.objs[oid], l.job, l.job.items[0], cfg.maxResults).Proceed?
            && Decide(cfg.order, w.stream, NewEntry(w.objs[oid], l.job, l.job.items[0]), w.objs[oid].streamSeq).Duplicate?
  {
    SayingIsEmitted(Message);
    SaysIsSendable(cfg, c, c.note, NameOf(Message), "x");
    AnsweredDuplicate(cfg, c, w, oid, Says(c, c.note, NameOf(Message), "x").job, ids);
  }

  lemma AnsweredDuplicate(cfg: Config, c: Cast, w: World, oid: int, job: Job, ids: set<string>)
    requires oid in w.objs && Idle(cfg, c, w, oid, Open, |w.stream|, ids) && Said(c, job, c.note, TypeOf(Message), "x")
    requires c.note !in ids && |w.stream| > 1 && w.stream[1].fact.commandId == c.note
    ensures CheckItem(w.objs[oid], job, job.items[0], cfg.maxResults).Proceed?
    ensures Decide(cfg.order, w.stream, NewEntry(w.objs[oid], job, job.items[0]), w.objs[oid].streamSeq).Duplicate?
  {
    ReachableIsBase(cfg, w);
    OneSubject(w.stream, c.s);
    FoundAt(c, w, 1);
  }

  lemma AcceptsWithoutReading(cfg: Config, c: Cast) returns (w: World)
    requires CastOk(c) && cfg.maxResults > 0
    ensures Reachable(cfg, w) && TookOnly(w.marks, c.s, {UnreadDuplicate}) && !Vouched(w, c.s) && ParentsAgree(w.issued, c.s)
  {
    var w1, start, note, fill := NotesAndForgets(cfg, c, c.note);
    IsDuplicate(cfg, c, w1, 0, Fillers(c, cfg.maxResults));
    w := AcceptsUnread(cfg, w1, 0, Says(c, c.note, NameOf(Message), "x"));
    NotVouched(cfg, c, w, 1, Says(c, c.note, NameOf(Message), "x").job);
  }

  // ------------------------------------------------------- a log full of fillers

  /** Every id in the log is shorter than the fillers from `k` on. */
  ghost predicate Below(c: Cast, stream: Stream, k: nat) {
    forall i :: 0 <= i < |stream| ==> |stream[i].fact.commandId| < |c.other| + k
  }

  ghost predicate LogFilled(c: Cast, stream: Stream, k: nat, max: int) {
    Below(c, stream, k) && Filled(c, Rebuild(stream, c.s, max).cache, k, max)
  }

  lemma {:induction false} FillsLog(c: Cast, stream: Stream, e: Entry, k: nat, max: int)
    requires LogFilled(c, stream, k, max) && k < max && e.subject == c.s && e.fact.commandId == Filler(c, k) != ""
    ensures LogFilled(c, stream + [e], k + 1, max)
  {
    var log := SubjectLog(stream, c.s);
    AppendedLog(stream, e, c.s);
    assert (log + [e.fact])[..|log|] == log;
    RebuiltKnowsOnlyLogged(stream, c.s, max);
    assert Lacks(stream, Filler(c, k));
    FillsMore(c, RebuiltCache(log, max), k, StoredResult(e.fact.payloadHash, true), max);
  }

  ghost predicate NobodyMoves(issued: seq<Job>) {
    forall j :: j in issued ==> !j.participation
  }

  /** A log that is open and ends in the first `k` fillers. */
  ghost predicate Chatty(cfg: Config, c: Cast, w: World, k: nat, ids: set<string>) {
    && Idle(cfg, c, w, 0, Open, |w.stream|, ids + Fillers(c, k)) && |w.stream| > 1
    && LogFilled(c, w.stream, k, cfg.maxResults) && StatusOf(Facts(w.stream)) == Open && NobodyMoves(w.issued)
  }

  /** As many further messages as the cache holds. */
  lemma Chatters(cfg: Config, c: Cast, w: World, k: nat, ids: set<string>) returns (w': World)
    requires CastOk(c) && k <= cfg.maxResults && Chatty(cfg, c, w, 0, ids) && forall id :: id in ids ==> Short(c, id)
    ensures Chatty(cfg, c, w', k, ids) && w'.marks == w.marks && w'.objs.Keys == w.objs.Keys && w'.stream[1] == w.stream[1]
  {
    w' := w;
    for i := 0 to k
      invariant Chatty(cfg, c, w', i, ids) && w'.marks == w.marks && w'.objs.Keys == w.objs.Keys && w'.stream[1] == w.stream[1]
    {
      w' := ChattersOnce(cfg, c, w', i, ids);
    }
  }

  lemma ChattersOnce(cfg: Config, c: Cast, w: World, k: nat, ids: set<string>) returns (w': World)
    requires CastOk(c) && k < cfg.maxResults && Chatty(cfg, c, w, k, ids) && forall id :: id in ids ==> Short(c, id)
    ensures Chatty(cfg, c, w', k + 1, ids) && w'.marks == w.marks && w'.objs.Keys == w.objs.Keys && w'.stream[1] == w.stream[1]
  {
    var e;
    w', e := SaysFiller(cfg, c, w, k, ids);
    FillsLog(c, w.stream, e, k, cfg.maxResults);
    StaysOpen(w.stream, e);
  }

  lemma SaysFiller(cfg: Config, c: Cast, w: World, k: nat, ids: set<string>) returns (w': World, e: Entry)
    requires CastOk(c) && Idle(cfg, c, w, 0, Open, |w.stream|, ids + Fillers(c, k)) && Below(c, w.stream, k)
    requires forall id :: id in ids ==> Short(c, id)
    ensures Idle(cfg, c, w', 0, Open, |w'.stream|, ids + Fillers(c, k + 1)) && w'.marks == w.marks && w'.objs.Keys == w.objs.Keys
    ensures w'.stream == w.stream + [e] && e.subject == c.s && e.fact.commandId == Filler(c, k) && e.fact.eventType.Note?
    ensures NobodyMoves(w.issued) ==> NobodyMoves(w'.issued)
  {
    FillersGrow(c, k);
    assert Lacks(w.stream, Filler(c, k)) && Filler(c, k) !in ids;
    var job;
    w', job := Say(cfg, c, w, 0, Filler(c, k), Message, "", ids + Fillers(c, k));
    e := EntryFor(job, w.objs[0].sequence + 1);
    assert ids + Fillers(c, k) + {Filler(c, k)} == ids + Fillers(c, k + 1);
  }

  lemma {:induction false} StaysOpen(stream: Stream, e: Entry)
    requires StatusOf(Facts(stream)) == Open && e.fact.eventType.Note?
    ensures StatusOf(Facts(stream + [e])) == Open
  {
    assert Facts(stream + [e]) == Facts(stream) + [e.fact];
    GrownLog(Facts(stream), e.fact);
  }

  lemma NotesAndChatters(cfg: Config, c: Cast) returns (w: World, note: Job)
    requires CastOk(c) && cfg.maxResults > 0
    ensures Said(c, note, c.note, TypeOf(Message), "") && w.marks == {} && 1 in w.objs && NobodyMoves(w.issued)
    ensures Idle(cfg, c, w, 1, Open, |w.stream|, Fillers(c, cfg.maxResults))
    ensures |w.stream| > 1 && w.stream[1] == EntryFor(note, 2)
    ensures c.note !in Fillers(c, cfg.maxResults) && c.note !in Rebuild(w.stream, c.s, cfg.maxResults).cache.results
  {
    var w2;
    w2, note := OpensChat(cfg, c);
    var w3 := Chatters(cfg, c, w2, cfg.maxResults, {c.start, c.note});
    w := LoadsCached(cfg, c, w3, 1);
    OnlyFillers(c, w.objs[1].cache, cfg.maxResults);
    ShortIsNoFiller(c, cfg.maxResults);
  }

  lemma OpensChat(cfg: Config, c: Cast) returns (w: World, note: Job)
    requires CastOk(c)
    ensures Said(c, note, c.note, TypeOf(Message), "") && w.marks == {} && w.objs.Keys == {0}
    ensures Chatty(cfg, c, w, 0, {c.start, c.note}) && w.stream[1] == EntryFor(note, 2)
  {
    var w1, start := Opens(cfg, c);
    w, note := Say(cfg, c, w1, 0, c.note, Message, "", {c.start});
    StartsFilled(c, w.stream, cfg.maxResults);
    OpenedLog(EntryFor(start, 1));
    StaysOpen([EntryFor(start, 1)], EntryFor(note, 2));
    assert {c.start} + {c.note} == {c.start, c.note} == {c.start, c.note} + Fillers(c, 0);
  }

  lemma StartsFilled(c: Cast, stream: Stream, max: int)
    requires forall i :: 0 <= i < |stream| ==> Short(c, stream[i].fact.commandId)
    ensures LogFilled(c, stream, 0, max)
  {
    RebuildSound(stream, c.s, max);
  }

  lemma {:induction false} OpenedLog(e: Entry)
    requires e.fact.eventType.Started?
    ensures StatusOf(Facts([e])) == Open
  {
    assert Facts([e]) == [] + [e.fact];
    GrownLog([], e.fact);
  }

  lemma AcceptsForgottenContents(cfg: Config, c: Cast) returns (w: World)
    requires CastOk(c) && cfg.maxResults > 0
    ensures Reachable(cfg, w) && TookOnly(w.marks, c.s, {ForgottenDuplicate}) && !Vouched(w, c.s) && ParentsAgree(w.issued, c.s)
  {
    var w1, note := NotesAndChatters(cfg, c);
    IsDuplicate(cfg, c, w1, 1, Fillers(c, cfg.maxResults));
    w := AcceptsForgotten(cfg, w1, 1, Says(c, c.note, NameOf(Message), "x"));
    NotVouched(cfg, c, w, 1, Says(c, c.note, NameOf(Message), "x").job);
  }

  // ------------------------------------------------------- the theorem

  /** Whichever path is allowed, a run that takes no other accepts contents that
      are not the logged ones. */
  lemma EachPathAccepts(cfg: Config, s: Subject, h: Hazard) returns (w: World)
    requires Nameable(s) && cfg.maxResults > 0
    ensures Reachable(cfg, w) && TookOnly(w.marks, s, {h}) && !Vouched(w, s) && ParentsAgree(w.issued, s)
  {
    var c := CastFor(s, "p", "a", Joined);
    match h
    case ParticipationDuplicate => w := AcceptsAfterMove(cfg, c);
    case ErrorReconcile => w := AcceptsAfterError(cfg, c, _ => true);
    case UnreadDuplicate => w := AcceptsWithoutReading(cfg, c);
    case ForgottenDuplicate => w := AcceptsForgottenContents(cfg, c);
  }

  /** In every run each accepted command of the subject is logged in full, if and
      only if none of the four paths may be taken on it. */
  lemma {:induction false} VouchedIffNothingSkipped(cfg: Config, s: Subject, taken: set<Hazard>)
    requires Nameable(s) && cfg.maxResults > 0
    ensures taken == {} <==>
            forall w :: Reachable(cfg, w) && ParentsAgree(w.issued, s) && TookOnly(w.marks, s, taken) ==> Vouched(w, s)
  {
    if taken == {} {
      forall w | Reachable(cfg, w) && TookOnly(w.marks, s, taken) ensures Vouched(w, s) {
        var steps :| Run(cfg, steps) == w;
        forall r, k: nat | r in w.replies && r.accepted && r.job.subject == s && k < |r.job.items|
          ensures LoggedInFull(w.stream, s, r.job.items[k])
        {
          AcceptedPayloadIsLogged(cfg, steps, r, k);
        }
      }
    } else {
      var h :| h in taken;
      var w := EachPathAccepts(cfg, s, h);
    }
  }

  // ------------------------------------------------------- the callers' form

  /** Facts of the subject with one kept id say the same. */
  ghost predicate PayloadsAgreeFor(issued: seq<Job>, s: Subject, kept: string -> bool) {
    forall j, j', k, k' :: j in issued && j' in issued && j.subject == j'.subject == s
                           && 0 <= k < |j.items| && 0 <= k' < |j'.items|
                           && j.items[k].commandId == j'.items[k'].commandId && kept(j.items[k].commandId) ==>
      j.items[k].hash == j'.items[k'].hash
  }

  /** Whatever paths were taken: where an id never stands for two contents, an
      accepted command is logged in full. */
  lemma {:induction false} AgreeingIsVouched(cfg: Config, steps: seq<Step>, s: Subject, kept: string -> bool)
    requires (forall id :: id != "" ==> kept(id)) && PayloadsAgreeFor(Run(cfg, steps).issued, s, kept)
    ensures Vouched(Run(cfg, steps), s)
  {
    var w := Run(cfg, steps);
    BaseAlways(cfg, steps);
    IssuedAreSealed(cfg, steps);
    forall r, n: nat | r in w.replies && r.accepted && r.job.subject == s && n < |r.job.items|
      ensures LoggedInFull(w.stream, s, r.job.items[n])
    {
      assert r.job in w.issued && Sane(r.job);
      LoggedUnderHash(w, r.job, n, kept);
      HashLoggedIsPayload(w, r.job, n);
    }
  }

  lemma LoggedUnderHash(w: World, job: Job, n: nat, kept: string -> bool)
    requires Base(w) && job in w.issued && n < |job.items| && FactsLogged(w.stream, job, |job.items|)
    requires (forall id :: id != "" ==> kept(id)) && PayloadsAgreeFor(w.issued, job.subject, kept)
    ensures InLogAs(w.stream, job.subject, job.items[n].commandId, job.items[n].hash)
  {
    assert Sane(job);
    assert InLog(w.stream, job.subject, job.items[n].commandId);
    var i :| 0 <= i < |w.stream| && w.stream[i].subject == job.subject
             && w.stream[i].fact.commandId == job.items[n].commandId;
    assert Provenance(w.issued, w.stream[i]);
    var j, k: nat :| j in w.issued && WrittenFor(w.stream[i], j, k);
    assert j.items[k].commandId == job.items[n].commandId;
  }

  lemma OnlyTheNoteDiffers(c: Cast, start: Job, note: Job, again: Job, kept: string -> bool)
    requires CastOk(c) && Said(c, start, c.start, Started, "") && Said(c, note, c.note, TypeOf(Message), "")
    requires Said(c, again, c.note, TypeOf(Message), "x") && !kept(c.note)
    ensures PayloadsAgreeFor([start, note] + [again], c.s, kept)
  {
  }

  /** Every accepted command of the subject is logged in full in every run, if and
      only if the callers give every id one contents. */
  lemma {:induction false} VouchedIffPayloadsAgree(cfg: Config, s: Subject, kept: string -> bool)
    requires Nameable(s)
    ensures (forall id :: id != "" ==> kept(id)) <==>
            forall w :: Reachable(cfg, w) && ParentsAgree(w.issued, s) && PayloadsAgreeFor(w.issued, s, kept) ==> Vouched(w, s)
  {
    if forall id :: id != "" ==> kept(id) {
      forall w | Reachable(cfg, w) && PayloadsAgreeFor(w.issued, s, kept) ensures Vouched(w, s) {
        var steps :| Run(cfg, steps) == w;
        AgreeingIsVouched(cfg, steps, s, kept);
      }
    } else {
      var id :| id != "" && !kept(id);
      var w := AcceptsAfterError(cfg, CastNoting(s, id), kept);
    }
  }
}
