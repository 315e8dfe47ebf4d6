/** A cast for concrete runs on one subject: a backend, an agent, command ids,
    and the commands they send. */
module RouterCast {
  import opened Encoding
  import opened Membership
  import opened Admission
  import opened ResultCache
  import opened RouterLog
  import opened RouterMachine
  import opened RouterBase
  import opened RouterRuns

  /** The agent is assigned by command `parent` and unassigned by command `leaving`;
      `join` and `left` are the ids the router derives for the two facts. */
  datatype Cast = Cast(s: Subject, backend: string, agent: string, parent: string, leaving: string, join: string, left: string,
                       start: string, note: string, other: string)

  function MoveId(c: Cast, t: EventType): string {
    if t.Joined? then c.join else c.left
  }

  function ParentOf(c: Cast, t: EventType): string {
    if t.Joined? then c.parent else c.leaving
  }

  predicate Short(c: Cast, id: string) {
    id != "" && |id| < |c.other|
  }

  /** A subject a command can be addressed to. */
  predicate Nameable(s: Subject) {
    Token(s.tenant) && Token(s.iid) && |s.tenant| < UINT64
  }

  predicate Usable(parent: string, agent: string) {
    parent != "" && agent != "" && |agent| < UINT64
  }

  predicate Derives(c: Cast) {
    c.join == SubId(c.parent, FactName(Joined), c.agent) && c.left == SubId(c.leaving, FactName(Left), c.agent)
  }

  /** Names the router takes, and ids that differ; `other` is longer than any. */
  predicate CastOk(c: Cast) {
    && Nameable(c.s) && Token(c.backend) && |c.backend| < UINT64 && Usable(c.parent, c.agent) && Derives(c)
    && c.leaving != "" && c.leaving != c.parent
    && Short(c, c.start) && Short(c, c.note) && Short(c, c.join) && Short(c, c.left)
    && c.start != c.note && c.start != c.join && c.start != c.left
    && c.note != c.join && c.note != c.left && c.join != c.left
  }

  /** Whatever the subject, and the parent and agent of a move, the rest can be found
      so that it does not get in the way. */
  function CastFor(s: Subject, parent: string, agent: string, t: EventType): (c: Cast)
    ensures c.s == s && c.agent == agent && ParentOf(c, t) == parent && MoveId(c, t) == SubId(parent, FactName(t), agent)
    ensures Nameable(s) && Usable(parent, agent) ==> CastOk(c)
  {
    var assign, unassign := if t.Joined? then parent else parent + "x", if t.Joined? then parent + "x" else parent;
    var join, left := SubId(assign, FactName(Joined), agent), SubId(unassign, FactName(Left), agent);
    var long := join + left;
    assert |join| != |left| && |assign| != |unassign|;
    assert (long + "s")[|long|] != (long + "n")[|long|];
    Cast(s, "b", agent, assign, unassign, join, left, long + "s", long + "n", long + "zz")
  }

  /** And so for a given id of the message. */
  function CastNoting(s: Subject, id: string): (c: Cast)
    ensures c.s == s && c.note == id && (Nameable(s) && id != "" ==> CastOk(c))
  {
    var join, left := SubId(id, FactName(Joined), "a"), SubId(id + "x", FactName(Left), "a");
    assert |join| > |id| && |left| > |id| && |join| != |left|;
    var long := join + left;
    Cast(s, "b", "a", id, id + "x", join, left, long + "s", id, long + "zz")
  }

  // ------------------------------------------------------- their commands

  function Backend(c: Cast): Identity {
    Identity(c.s.tenant, "", TRUSTED_BACKEND, "")
  }

  function Agent(c: Cast): Identity {
    Identity(c.s.tenant, c.agent, "", AGENT_FEED)
  }

  function At(c: Cast, who: string): string {
    FormatCmdSubject(c.s, who)
  }

  function Plain(c: Cast, id: string, actor: string, typeName: string, data: string): Command {
    Command(id, c.s.tenant, actor, typeName, "", "", data, Malformed)
  }

  function PlainJob(c: Cast, id: string, actor: string, gated: bool, typeName: string, data: string): Job {
    Job(c.s, actor, gated, false, id, [ItemOf(id, PayloadOf(Plain(c, id, actor, typeName, data)))])
  }

  /** The backend's command. */
  function Says(c: Cast, id: string, typeName: string, data: string): Letter {
    Letter(Backend(c), At(c, c.backend), Plain(c, id, c.backend, typeName, data), PlainJob(c, id, c.backend, false, typeName, data))
  }

  /** The agent's own message. */
  function Writes(c: Cast, id: string): Letter {
    Letter(Agent(c), At(c, c.agent), Plain(c, id, c.agent, "message", ""), PlainJob(c, id, c.agent, true, "message", ""))
  }

  function MoveCmd(c: Cast, t: EventType, medium: string): Command {
    Command(ParentOf(c, t), c.s.tenant, "", if t.Joined? then "participant.assign" else "participant.unassign", medium, "", "",
            Decoded(c.agent, ""))
  }

  function MoveJob(c: Cast, t: EventType, medium: string): Job {
    Job(c.s, c.backend, false, true, ParentOf(c, t), [SubItem(c.s, MoveCmd(c, t, medium), FactName(t), c.agent)])
  }

  /** The backend assigns or unassigns the agent. */
  function Moves(c: Cast, t: EventType, medium: string): Letter {
    Letter(Backend(c), At(c, c.backend), MoveCmd(c, t, medium), MoveJob(c, t, medium))
  }

  lemma TypeNames()
    ensures KindOf("interaction.started") == Emit(Started) && EventTypeOf("interaction.started") == Started
    ensures KindOf("interaction.ended") == Emit(Ended) && EventTypeOf("interaction.ended") == Ended
    ensures KindOf("participant.assign") == Assign && EventTypeOf("participant.joined") == Joined
    ensures KindOf("participant.unassign") == Unassign && EventTypeOf("participant.left") == Left
    ensures KindOf("message") == Emit(Note("message")) && EventTypeOf("message") == Note("message")
    ensures |"interaction.started"| < UINT64 && |"interaction.ended"| < UINT64 && |"message"| < UINT64
    ensures |"participant.assign"| < UINT64 && |"participant.unassign"| < UINT64
  {
  }

  lemma SaysIsSendable(cfg: Config, c: Cast, id: string, typeName: string, data: string)
    requires CastOk(c) && id != "" && |typeName| < UINT64 && |data| < UINT64
    requires KindOf(typeName).Emit? && !IsParticipationFact(EventTypeOf(typeName))
    ensures Sendable(cfg, Says(c, id, typeName, data))
  {
    FormatInvertsParse(c.s, c.backend);
  }

  lemma WritesIsSendable(cfg: Config, c: Cast, id: string)
    requires CastOk(c) && id != "" && Token(c.agent)
    ensures Sendable(cfg, Writes(c, id))
  {
    FormatInvertsParse(c.s, c.agent);
    TypeNames();
  }

  lemma MovesIsSendable(cfg: Config, c: Cast, t: EventType, medium: string)
    requires CastOk(c) && IsParticipationFact(t) && |medium| < UINT64
    ensures Sendable(cfg, Moves(c, t, medium))
    ensures MoveJob(c, t, medium).items[0].eventType == t && MoveJob(c, t, medium).items[0].commandId == MoveId(c, t)
  {
    FormatInvertsParse(c.s, c.backend);
    TypeNames();
  }

  // ------------------------------------------------------- a stream of one subject

  function Facts(stream: Stream): seq<Event> {
    seq(|stream|, i requires 0 <= i < |stream| => stream[i].fact)
  }

  ghost predicate AllOf(stream: Stream, s: Subject) {
    forall i :: 0 <= i < |stream| ==> stream[i].subject == s
  }

  lemma {:induction false} OneSubject(stream: Stream, s: Subject)
    requires AllOf(stream, s)
    ensures SubjectLog(stream, s) == Facts(stream) && LastSeq(stream, s) == |stream|
  {
    if stream != [] {
      var n := |stream| - 1;
      OneSubject(stream[..n], s);
      assert Facts(stream) == Facts(stream[..n]) + [stream[n].fact];
    }
  }

  ghost predicate Lacks(stream: Stream, id: string) {
    forall i :: 0 <= i < |stream| ==> stream[i].fact.commandId != id
  }

  lemma {:induction false} NotFound(c: Cast, w: World, id: string)
    requires CastOk(c) && Base(w) && AllOf(w.stream, c.s) && Lacks(w.stream, id)
    ensures Find(w.stream, CommandDedupId(c.s.tenant, c.s.iid, id)) == 0
  {
    var r := Find(w.stream, CommandDedupId(c.s.tenant, c.s.iid, id));
    if r > 0 {
      CommandDedupIdInjective(c.s.tenant, c.s.iid, w.stream[r - 1].fact.commandId, c.s.tenant, c.s.iid, id);
    }
  }

  lemma {:induction false} FoundAt(c: Cast, w: World, i: nat)
    requires Base(w) && AllOf(w.stream, c.s) && i < |w.stream|
    ensures Find(w.stream, CommandDedupId(c.s.tenant, c.s.iid, w.stream[i].fact.commandId)) == i + 1
  {
  }

  // ------------------------------------------------------- cached states

  /** A free state of the cast's subject: results only for `ids`. */
  ghost predicate Cached(c: Cast, o: Obj, status: Status, token: nat, ids: set<string>) {
    && o.subject == c.s && o.owner == -1 && !o.poisoned && o.status == status && o.streamSeq == token
    && InStep(o.cache) && o.cache.results.Keys <= ids
  }

  /** The world between commands, with state `oid` up to date or not. */
  ghost predicate Idle(cfg: Config, c: Cast, w: World, oid: int, status: Status, token: nat, ids: set<string>) {
    && Reachable(cfg, w) && w.procs == map[] && AllOf(w.stream, c.s)
    && oid in w.objs && Cached(c, w.objs[oid], status, token, ids)
  }

  function EntryFor(job: Job, sequence: int): Entry
    requires |job.items| > 0
  {
    var item := job.items[0];
    Entry(job.subject, Event(item.eventType, sequence, item.actor, item.commandId, item.hash, job.parent),
          CommandDedupId(job.subject.tenant, job.subject.iid, item.commandId), job.gated, item.payload)
  }

  /** What the code takes for its own commit changes the state so. */
  lemma Advanced(c: Cast, o: Obj, job: Job, at: nat, max: int, ids: set<string>)
    requires |job.items| == 1 && Cached(c, o, o.status, o.streamSeq, ids)
    ensures var o' := Advance(o, job, job.items[0], at, max);
            && Cached(c, o', ApplyTransition(o.status, job.items[0].eventType), at, ids + {job.items[0].commandId})
            && o'.sequence == o.sequence + 1
            && o'.part == (if job.participation then ApplyFact(o.part, EntryFor(job, o.sequence + 1).fact) else o.part)
            && o'.cache == Put(o.cache, job.items[0].commandId, StoredResult(job.items[0].hash, true), max)
  {
    PutIsBoundedFifo(o.cache, job.items[0].commandId, StoredResult(job.items[0].hash, true), max);
  }

  ghost predicate MayWrite(o: Obj, job: Job)
    requires |job.items| == 1
  {
    LegalTransition(o.status, job.items[0].eventType) && (job.gated ==> IsParticipantNow(o.part, job.suffix))
  }

  /** Sends a command through an up-to-date state. */
  lemma Appends(cfg: Config, c: Cast, w: World, oid: int, l: Letter, ids: set<string>) returns (w': World)
    requires CastOk(c) && Sendable(cfg, l) && l.job.subject == c.s && oid in w.objs
    requires Idle(cfg, c, w, oid, w.objs[oid].status, |w.stream|, ids) && MayWrite(w.objs[oid], l.job)
    requires l.job.items[0].commandId !in ids && Lacks(w.stream, l.job.items[0].commandId)
    ensures w'.stream == w.stream + [EntryFor(l.job, w.objs[oid].sequence + 1)]
    ensures w'.issued == w.issued + [l.job] && w'.marks == w.marks && oid in w'.objs && w'.objs == w.objs[oid := w'.objs[oid]]
    ensures Idle(cfg, c, w', oid, ApplyTransition(w.objs[oid].status, l.job.items[0].eventType), |w'.stream|,
                 ids + {l.job.items[0].commandId})
    ensures w'.objs[oid] == Advance(w.objs[oid], l.job, l.job.items[0], |w'.stream|, cfg.maxResults)
  {
    MayAppend(cfg, c, w, oid, l.job, ids);
    w' := Commits(cfg, w, oid, l);
    Appended(cfg, c, w, oid, l.job, w', ids);
  }

  lemma Appended(cfg: Config, c: Cast, w: World, oid: int, job: Job, w': World, ids: set<string>)
    requires |job.items| == 1 && job.subject == c.s && oid in w.objs && Reachable(cfg, w') && AllOf(w.stream, c.s)
    requires Cached(c, w.objs[oid], w.objs[oid].status, |w.stream|, ids)
    requires w' == Replied(w, oid, job, Advance(w.objs[oid], job, job.items[0], |w.stream| + 1, cfg.maxResults), true,
                           w.stream + [NewEntry(w.objs[oid], job, job.items[0])], w.marks)
    ensures w'.stream == w.stream + [EntryFor(job, w.objs[oid].sequence + 1)]
    ensures Idle(cfg, c, w', oid, ApplyTransition(w.objs[oid].status, job.items[0].eventType), |w'.stream|,
                 ids + {job.items[0].commandId})
  {
    Advanced(c, w.objs[oid], job, |w.stream| + 1, cfg.maxResults, ids);
  }

  lemma MayAppend(cfg: Config, c: Cast, w: World, oid: int, job: Job, ids: set<string>)
    requires CastOk(c) && |job.items| == 1 && job.subject == c.s && oid in w.objs
    requires Idle(cfg, c, w, oid, w.objs[oid].status, |w.stream|, ids) && MayWrite(w.objs[oid], job)
    requires job.items[0].commandId !in ids && Lacks(w.stream, job.items[0].commandId)
    ensures CheckItem(w.objs[oid], job, job.items[0], cfg.maxResults).Proceed?
    ensures Decide(cfg.order, w.stream, NewEntry(w.objs[oid], job, job.items[0]), w.objs[oid].streamSeq).Committed?
  {
    ReachableIsBase(cfg, w);
    OneSubject(w.stream, c.s);
    NotFound(c, w, job.items[0].commandId);
  }

  function IdsOf(stream: Stream): set<string> {
    set i | 0 <= i < |stream| :: stream[i].fact.commandId
  }

  /** Rebuilds a second state of the subject. */
  lemma LoadsCached(cfg: Config, c: Cast, w: World, oid: int) returns (w': World)
    requires Reachable(cfg, w) && w.procs == map[] && AllOf(w.stream, c.s) && oid !in w.objs
    ensures w' == w.(objs := w.objs[oid := Rebuild(w.stream, c.s, cfg.maxResults)])
    ensures Idle(cfg, c, w', oid, StatusOf(Facts(w.stream)), |w.stream|, IdsOf(w.stream))
    ensures w'.objs[oid].sequence == MaxSeq(Facts(w.stream)) && w'.objs[oid].part == Fold(Facts(w.stream))
  {
    w' := Loads(cfg, w, oid, c.s);
    OneSubject(w.stream, c.s);
    RebuildSound(w.stream, c.s, cfg.maxResults);
    var o := w'.objs[oid];
    forall id | id in o.cache.results ensures id in IdsOf(w.stream) {
      assert InLogAs(w.stream, c.s, id, o.cache.results[id].payloadHash);
    }
  }

  // ------------------------------------------------------- sending one command

  /** The backend's fact under `id`. */
  ghost predicate Said(c: Cast, job: Job, id: string, t: EventType, data: string) {
    && job.subject == c.s && !job.gated && !job.participation && |job.items| == 1
    && job.items[0].commandId == id && job.items[0].eventType == t && job.items[0].payload.data == data
  }

  ghost predicate Written(c: Cast, job: Job, id: string) {
    && job.subject == c.s && job.gated && !job.participation && |job.items| == 1 && job.suffix == c.agent
    && job.items[0].commandId == id && job.items[0].actor == c.agent && !IsParticipationFact(job.items[0].eventType)
  }

  ghost predicate Moved(c: Cast, job: Job, t: EventType, medium: string) {
    && job.subject == c.s && !job.gated && job.participation && |job.items| == 1
    && job.items[0].commandId == MoveId(c, t) && job.items[0].eventType == t && job.items[0].actor == c.agent
    && job.items[0].payload.medium == medium && job.parent == ParentOf(c, t)
  }

  datatype Saying = Start | End | Message

  function NameOf(k: Saying): string {
    match k
    case Start => "interaction.started"
    case End => "interaction.ended"
    case Message => "message"
  }

  function TypeOf(k: Saying): EventType {
    match k
    case Start => Started
    case End => Ended
    case Message => Note("message")
  }

  lemma SayingIsEmitted(k: Saying)
    ensures KindOf(NameOf(k)) == Emit(TypeOf(k)) && EventTypeOf(NameOf(k)) == TypeOf(k)
    ensures |NameOf(k)| < UINT64 && !IsParticipationFact(TypeOf(k))
  {
    TypeNames();
  }

  /** The world after a command went through the up-to-date state `oid`. */
  ghost predicate Sent(cfg: Config, c: Cast, w: World, oid: int, job: Job, ids: set<string>, w': World)
    requires |job.items| == 1 && oid in w.objs
  {
    && w'.stream == w.stream + [EntryFor(job, w.objs[oid].sequence + 1)]
    && w'.issued == w.issued + [job] && w'.marks == w.marks && oid in w'.objs && w'.objs == w.objs[oid := w'.objs[oid]]
    && Idle(cfg, c, w', oid, ApplyTransition(w.objs[oid].status, job.items[0].eventType), |w'.stream|, ids + {job.items[0].commandId})
    && w'.objs[oid].sequence == w.objs[oid].sequence + 1
    && w'.objs[oid].part == (if job.participation then ApplyFact(w.objs[oid].part, EntryFor(job, w.objs[oid].sequence + 1).fact)
                             else w.objs[oid].part)
  }

  lemma Say(cfg: Config, c: Cast, w: World, oid: int, id: string, k: Saying, data: string, ids: set<string>)
    returns (w': World, job: Job)
    requires CastOk(c) && id != "" && |data| < UINT64 && oid in w.objs && Idle(cfg, c, w, oid, w.objs[oid].status, |w.stream|, ids)
    requires LegalTransition(w.objs[oid].status, TypeOf(k)) && id !in ids && Lacks(w.stream, id)
    ensures Said(c, job, id, TypeOf(k), data) && Sent(cfg, c, w, oid, job, ids, w')
  {
    SayingIsEmitted(k);
    SaysIsSendable(cfg, c, id, NameOf(k), data);
    job := Says(c, id, NameOf(k), data).job;
    w' := Appends(cfg, c, w, oid, Says(c, id, NameOf(k), data), ids);
  }

  lemma Write(cfg: Config, c: Cast, w: World, oid: int, id: string, ids: set<string>) returns (w': World, job: Job)
    requires CastOk(c) && id != "" && oid in w.objs && Idle(cfg, c, w, oid, Open, |w.stream|, ids)
    requires Token(c.agent) && IsParticipantNow(w.objs[oid].part, c.agent) && id !in ids && Lacks(w.stream, id)
    ensures Written(c, job, id) && Sent(cfg, c, w, oid, job, ids, w')
  {
    TypeNames();
    WritesIsSendable(cfg, c, id);
    job := Writes(c, id).job;
    w' := Appends(cfg, c, w, oid, Writes(c, id), ids);
  }

  lemma MoveAgent(cfg: Config, c: Cast, w: World, oid: int, t: EventType, medium: string, ids: set<string>)
    returns (w': World, job: Job)
    requires CastOk(c) && |medium| < UINT64 && oid in w.objs && Idle(cfg, c, w, oid, Open, |w.stream|, ids)
    requires IsParticipationFact(t) && MoveId(c, t) !in ids && Lacks(w.stream, MoveId(c, t))
    ensures Moved(c, job, t, medium) && Sent(cfg, c, w, oid, job, ids, w')
  {
    MovesIsSendable(cfg, c, t, medium);
    job := Moves(c, t, medium).job;
    w' := Appends(cfg, c, w, oid, Moves(c, t, medium), ids);
  }

  /** Moves the agent under an id the log already holds at `i`. */
  lemma MoveAgain(cfg: Config, c: Cast, w: World, oid: int, t: EventType, medium: string, i: nat, ids: set<string>)
    returns (w': World, job: Job)
    requires CastOk(c) && IsParticipationFact(t) && |medium| < UINT64 && oid in w.objs
    requires Idle(cfg, c, w, oid, Open, w.objs[oid].streamSeq, ids) && MoveId(c, t) !in ids
    requires i < |w.stream| && w.stream[i].fact.commandId == MoveId(c, t)
    requires cfg.order.OccFirst? ==> w.objs[oid].streamSeq == |w.stream|
    ensures Moved(c, job, t, medium)
    ensures w'.stream == w.stream && oid in w'.objs && w'.objs == w.objs[oid := w'.objs[oid]]
    ensures w'.issued == w.issued + [job] && Reply(job, true) in w'.replies
    ensures w'.marks == w.marks + {Mark(ParticipationDuplicate, c.s, job.items[0])}
    ensures Idle(cfg, c, w', oid, Open, i + 1, ids + {MoveId(c, t)})
    ensures w'.objs[oid].sequence == w.objs[oid].sequence + 1
    ensures w'.objs[oid].part == ApplyFact(w.objs[oid].part, EntryFor(job, w.objs[oid].sequence + 1).fact)
  {
    ReachableIsBase(cfg, w);
    OneSubject(w.stream, c.s);
    FoundAt(c, w, i);
    MovesIsSendable(cfg, c, t, medium);
    job := Moves(c, t, medium).job;
    w' := Repeats(cfg, w, oid, Moves(c, t, medium), i + 1);
    Advanced(c, w.objs[oid], job, i + 1, cfg.maxResults, ids);
  }

  /** The interaction started, through state 0. */
  lemma Opens(cfg: Config, c: Cast) returns (w: World, job: Job)
    requires CastOk(c)
    ensures Said(c, job, c.start, Started, "") && w.stream == [EntryFor(job, 1)] && w.issued == [job] && w.marks == {}
    ensures w.objs.Keys == {0} && Idle(cfg, c, w, 0, Open, 1, {c.start}) && w.objs[0].part == map[] && w.objs[0].sequence == 1
  {
    NothingYet(cfg);
    var w0 := LoadsCached(cfg, c, EMPTY, 0);
    w, job := Say(cfg, c, w0, 0, c.start, Start, "", {});
    assert [] + [EntryFor(job, 1)] == [EntryFor(job, 1)] && [] + [job] == [job] && {} + {c.start} == {c.start};
  }

  // ------------------------------------------------------- filling the cache

  function Filler(c: Cast, k: nat): (id: string)
    ensures |id| == |c.other| + k
  {
    c.other + seq(k, _ => 'x')
  }

  function Fillers(c: Cast, k: nat): set<string> {
    set j: nat | 0 <= j < k :: Filler(c, j)
  }

  lemma FillersGrow(c: Cast, k: nat)
    ensures Fillers(c, k) + {Filler(c, k)} == Fillers(c, k + 1) && Filler(c, k) !in Fillers(c, k)
  {
  }

  lemma ShortIsNoFiller(c: Cast, k: nat)
    ensures forall id :: Short(c, id) ==> id !in Fillers(c, k)
  {
  }

  /** The queue ends in the first `k` fillers. */
  ghost predicate Tail(c: Cast, order: seq<string>, k: nat) {
    k <= |order| && forall j :: 0 <= j < k ==> order[|order| - k + j] == Filler(c, j)
  }

  lemma TailGrows(c: Cast, order: seq<string>, k: nat, max: int)
    requires Tail(c, order, k) && k < max
    ensures Tail(c, Newest(order + [Filler(c, k)], max), k + 1) && |Newest(order + [Filler(c, k)], max)| <= max
  {
  }

  ghost predicate Filled(c: Cast, cache: Cache, k: nat, max: int) {
    InStep(cache) && Tail(c, cache.order, k) && (k > 0 ==> |cache.order| <= max)
  }

  lemma FillsMore(c: Cast, cache: Cache, k: nat, sr: StoredResult, max: int)
    requires Filled(c, cache, k, max) && k < max && Filler(c, k) !in cache.results
    ensures Filled(c, Put(cache, Filler(c, k), sr, max), k + 1, max)
  {
    TailGrows(c, cache.order, k, max);
    PutIsBoundedFifo(cache, Filler(c, k), sr, max);
  }

  /** A full queue of fillers remembers nothing else. */
  lemma OnlyFillers(c: Cast, cache: Cache, max: nat)
    requires Filled(c, cache, max, max) && max > 0
    ensures cache.results.Keys <= Fillers(c, max)
  {
    forall id | id in cache.results ensures id in Fillers(c, max) {
      assert id in cache.order;
      var j :| 0 <= j < |cache.order| && cache.order[j] == id;
      assert cache.order[|cache.order| - max + j] == Filler(c, j);
    }
  }

  /** Commands with the first filler ids, in order. */
  ghost predicate Fill(c: Cast, jobs: seq<Job>, t: EventType) {
    forall i :: 0 <= i < |jobs| ==> Said(c, jobs[i], Filler(c, i), t, "")
  }

  /** From `w` to `w'` only refusals happened, of the first `k` fillers. */
  ghost predicate Refusing(cfg: Config, c: Cast, w: World, w': World, jobs: seq<Job>, k: nat, ids: set<string>)
    requires 0 in w.objs
  {
    && w'.stream == w.stream && w'.marks == w.marks && w'.issued == w.issued + jobs && Fill(c, jobs, Started) && |jobs| == k
    && w'.objs.Keys == w.objs.Keys && Idle(cfg, c, w', 0, Open, w.objs[0].streamSeq, ids + Fillers(c, k))
    && w'.objs[0].part == w.objs[0].part && w'.objs[0].sequence == w.objs[0].sequence
    && Filled(c, w'.objs[0].cache, k, cfg.maxResults)
  }

  /** Refusing as many second starts as the cache holds makes it forget the rest. */
  lemma Refuses(cfg: Config, c: Cast, w: World, k: nat, ids: set<string>) returns (w': World, jobs: seq<Job>)
    requires CastOk(c) && 0 in w.objs && k <= cfg.maxResults
    requires Idle(cfg, c, w, 0, Open, w.objs[0].streamSeq, ids) && forall id :: id in ids ==> Short(c, id)
    ensures Refusing(cfg, c, w, w', jobs, k, ids)
  {
    w', jobs := w, [];
    assert w.issued + [] == w.issued;
    for i := 0 to k
      invariant Refusing(cfg, c, w, w', jobs, i, ids)
    {
      w', jobs := RefusesNext(cfg, c, w, w', jobs, i, ids);
    }
  }

  lemma RefusesNext(cfg: Config, c: Cast, w: World, w1: World, jobs: seq<Job>, k: nat, ids: set<string>)
    returns (w': World, jobs': seq<Job>)
    requires CastOk(c) && 0 in w.objs && k < cfg.maxResults && forall id :: id in ids ==> Short(c, id)
    requires Refusing(cfg, c, w, w1, jobs, k, ids)
    ensures Refusing(cfg, c, w, w', jobs', k + 1, ids)
  {
    var job;
    w', job := RefusesOne(cfg, c, w1, k, ids);
    jobs' := jobs + [job];
    assert w.issued + jobs + [job] == w.issued + jobs';
    FillGrows(c, jobs, job, Started);
  }

  lemma FillGrows(c: Cast, jobs: seq<Job>, job: Job, t: EventType)
    requires Fill(c, jobs, t) && Said(c, job, Filler(c, |jobs|), t, "")
    ensures Fill(c, jobs + [job], t)
  {
    var all := jobs + [job];
    forall i | 0 <= i < |all| ensures Said(c, all[i], Filler(c, i), t, "") {
      if i < |jobs| {
        assert all[i] == jobs[i];
      }
    }
  }

  lemma RefusesOne(cfg: Config, c: Cast, w: World, k: nat, ids: set<string>) returns (w': World, job: Job)
    requires CastOk(c) && 0 in w.objs && k < cfg.maxResults && Filled(c, w.objs[0].cache, k, cfg.maxResults)
    requires Idle(cfg, c, w, 0, Open, w.objs[0].streamSeq, ids + Fillers(c, k)) && forall id :: id in ids ==> Short(c, id)
    ensures w'.stream == w.stream && w'.marks == w.marks
    ensures w'.issued == w.issued + [job] && Said(c, job, Filler(c, k), Started, "")
    ensures w'.objs.Keys == w.objs.Keys && 0 in w'.objs && Idle(cfg, c, w', 0, Open, w.objs[0].streamSeq, ids + Fillers(c, k + 1))
    ensures w'.objs[0].part == w.objs[0].part && w'.objs[0].sequence == w.objs[0].sequence
    ensures Filled(c, w'.objs[0].cache, k + 1, cfg.maxResults)
  {
    FillersGrow(c, k);
    SayingIsEmitted(Start);
    var l := Says(c, Filler(c, k), NameOf(Start), "");
    SaysIsSendable(cfg, c, Filler(c, k), NameOf(Start), "");
    job := l.job;
    w' := Refused(cfg, w, 0, l);
    FillsMore(c, w.objs[0].cache, k, StoredResult(l.job.items[0].hash, false), cfg.maxResults);
    PutIsBoundedFifo(w.objs[0].cache, Filler(c, k), StoredResult(l.job.items[0].hash, false), cfg.maxResults);
  }

  /** Through state 0, which then remembers fillers only. */
  lemma Forgets(cfg: Config, c: Cast, w: World, ids: set<string>) returns (w': World, jobs: seq<Job>)
    requires CastOk(c) && 0 in w.objs && cfg.maxResults > 0
    requires Idle(cfg, c, w, 0, Open, w.objs[0].streamSeq, ids) && forall id :: id in ids ==> Short(c, id)
    ensures w'.stream == w.stream && w'.marks == w.marks
    ensures w'.issued == w.issued + jobs && Fill(c, jobs, Started)
    ensures w'.objs.Keys == w.objs.Keys && 0 in w'.objs
    ensures Idle(cfg, c, w', 0, Open, w.objs[0].streamSeq, Fillers(c, cfg.maxResults))
    ensures w'.objs[0].part == w.objs[0].part && w'.objs[0].sequence == w.objs[0].sequence
    ensures forall id :: Short(c, id) ==> id !in Fillers(c, cfg.maxResults)
  {
    w', jobs := Refuses(cfg, c, w, cfg.maxResults, ids);
    OnlyFillers(c, w'.objs[0].cache, cfg.maxResults);
    ShortIsNoFiller(c, cfg.maxResults);
  }
}
