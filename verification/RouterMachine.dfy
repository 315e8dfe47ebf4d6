/** Any number of routers over one shared stream, as a state machine. One step
    is one broker exchange together with the local work around it; commands,
    rebuilds, evictions and crashes of all routers interleave freely.
    A command may use any unlocked cached state of its subject or a new rebuild,
    so every content of every router's cache is covered. */
module RouterMachine {
  import opened Encoding
  import opened Membership
  import opened Admission
  import opened ResultCache
  import opened RouterLog

  datatype Config = Config(order: CheckOrder, maxResults: int, maxRefold: nat, devMode: bool)

  datatype Pc = Acquiring | Ready | Refolding | ReconcilingError | ReconcilingDuplicate

  /** A command in flight, at fact `idx` of its job, holding state `obj`
      except while acquiring one. */
  datatype Proc = Proc(job: Job, idx: nat, obj: int, pc: Pc, attempt: nat)

  datatype Reply = Reply(job: Job, accepted: bool)

  /** Paths on which the code takes less care: a participation append answered
      "duplicate", an append error reconciled from the log, a duplicate whose log
      could not be read, a duplicate whose result had been evicted. */
  datatype Hazard = ParticipationDuplicate | ErrorReconcile | UnreadDuplicate | ForgottenDuplicate

  /** A run records which it took, for which fact of which subject. */
  datatype Mark = Mark(hazard: Hazard, subject: Subject, item: Item)

  /** `issued`, `replies` and `marks` are history; `issued` lists the admitted
      commands in order, repeats included. */
  datatype World = World(stream: Stream, objs: map<int, Obj>, procs: map<int, Proc>,
                         issued: seq<Job>, replies: set<Reply>, marks: set<Mark>)

  const EMPTY := World([], map[], map[], [], {}, {})

  /** Delivered: the broker's answer arrives. Lost: the broker acted, the answer
      did not arrive. Unsent: the publish never reached the broker. */
  datatype Ack = Delivered | Lost | Unsent

  datatype Step =
    | Submit(pid: int, identity: Identity, subject: string, cmd: Command)
    | Load(oid: int, of: Subject)
    | Take(pid: int, oid: int)
    | Attempt(pid: int, ack: Ack)
    | Refold(pid: int, replayed: bool)
    | ReconcileError(pid: int, replayed: bool)
    | ReconcileDuplicate(pid: int, replayed: bool)
    | Evict(oid: int)
    | Crash(pid: int)

  // ------------------------------------------------------- local checks

  datatype Check = Proceed | Answer(accepted: bool, obj: Obj)

  /** The checks at the top of HandleCommand's append loop. */
  function CheckCommand(o: Obj, job: Job, item: Item, max: int): Check {
    var rejected := StoredResult(item.hash, false);
    if item.commandId in o.cache.results && o.cache.results[item.commandId].payloadHash == "" then
      Answer(o.cache.results[item.commandId].accepted, o)
    else if item.commandId in o.cache.results && o.cache.results[item.commandId].payloadHash != item.hash then
      Answer(false, o)
    else if item.commandId in o.cache.results && o.cache.results[item.commandId].accepted then
      Answer(true, o)
    else if job.gated && !IsParticipantNow(o.part, job.suffix) then
      Answer(false, o)
    else if !LegalTransition(o.status, item.eventType) then
      Answer(false, o.(cache := Put(o.cache, item.commandId, rejected, max)))
    else Proceed
  }

  /** The checks at the top of appendParticipationFact's loop. */
  function CheckFact(o: Obj, item: Item): Check {
    if item.commandId in o.cache.results && o.cache.results[item.commandId].payloadHash != ""
       && o.cache.results[item.commandId].payloadHash != item.hash then Answer(false, o)
    else if item.commandId in o.cache.results && o.cache.results[item.commandId].accepted then Answer(true, o)
    else if !LegalTransition(o.status, item.eventType) then Answer(false, o)
    else Proceed
  }

  function CheckItem(o: Obj, job: Job, item: Item, max: int): Check {
    if job.participation then CheckFact(o, item) else CheckCommand(o, job, item, max)
  }

  function NewFact(o: Obj, job: Job, item: Item): Event {
    Event(item.eventType, o.sequence + 1, item.actor, item.commandId, item.hash, job.parent)
  }

  function NewEntry(o: Obj, job: Job, item: Item): Entry {
    Entry(job.subject, NewFact(o, job, item),
          CommandDedupId(job.subject.tenant, job.subject.iid, item.commandId), job.gated, item.payload)
  }

  /** The state after an append the code takes as committed at `at`. */
  function Advance(o: Obj, job: Job, item: Item, at: nat, max: int): Obj {
    var part := if job.participation then ApplyFact(o.part, NewFact(o, job, item)) else o.part;
    o.(sequence := o.sequence + 1, streamSeq := at, status := ApplyTransition(o.status, item.eventType), part := part,
       cache := Put(o.cache, item.commandId, StoredResult(item.hash, true), max))
  }

  /** Re-fold: take over everything the log says, keep older results. */
  function Adopt(o: Obj, rebuilt: Obj, max: int): Obj {
    o.(sequence := rebuilt.sequence, streamSeq := rebuilt.streamSeq, status := rebuilt.status, part := rebuilt.part,
       cache := CopyMissing(o.cache, rebuilt.cache, rebuilt.cache.order, max))
  }

  // ------------------------------------------------------- steps

  /** Unlocks the state and either answers the command or moves to its next fact. */
  function Finish(w: World, pid: int, o: Obj, accepted: bool): World
    requires pid in w.procs
  {
    var p := w.procs[pid];
    var released := w.(objs := w.objs[p.obj := o.(owner := -1)]);
    if accepted && p.idx + 1 < |p.job.items| then
      released.(procs := w.procs[pid := p.(idx := p.idx + 1, pc := Acquiring, attempt := 0)])
    else
      released.(procs := w.procs - {pid}, replies := w.replies + {Reply(p.job, accepted)})
  }

  function Move(w: World, pid: int, pc: Pc): World
    requires pid in w.procs
  {
    w.(procs := w.procs[pid := w.procs[pid].(pc := pc)])
  }

  function Noting(w: World, h: Hazard, s: Subject, item: Item): World {
    w.(marks := w.marks + {Mark(h, s, item)})
  }

  function OnError(w: World, pid: int): World
    requires pid in w.procs && w.procs[pid].obj in w.objs
  {
    var p := w.procs[pid];
    if p.job.participation then Finish(w, pid, w.objs[p.obj].(poisoned := true), false)
    else Move(w, pid, ReconcilingError)
  }

  function OnAnswer(cfg: Config, w: World, pid: int, item: Item, outcome: Outcome): World
    requires pid in w.procs && w.procs[pid].obj in w.objs
  {
    var p := w.procs[pid];
    var o := w.objs[p.obj];
    match outcome
    case Conflict => Move(w, pid, Refolding)
    case Committed(at) => Finish(w, pid, Advance(o, p.job, item, at, cfg.maxResults), true)
    case Duplicate(at) =>
      if p.job.participation
      then Finish(Noting(w, ParticipationDuplicate, p.job.subject, item), pid, Advance(o, p.job, item, at, cfg.maxResults), true)
      else Move(w, pid, ReconcilingDuplicate)
  }

  function TryAppend(cfg: Config, w: World, pid: int, ack: Ack): World
    requires pid in w.procs && w.procs[pid].obj in w.objs && w.procs[pid].idx < |w.procs[pid].job.items|
  {
    var p := w.procs[pid];
    var o, item := w.objs[p.obj], p.job.items[p.idx];
    var e := NewEntry(o, p.job, item);
    var w' := w.(stream := AfterAppend(cfg.order, w.stream, e, o.streamSeq));
    match ack
    case Delivered => OnAnswer(cfg, w', pid, item, Decide(cfg.order, w.stream, e, o.streamSeq))
    case Lost => OnError(w', pid)
    case Unsent => OnError(w, pid)
  }

  function DoAttempt(cfg: Config, w: World, pid: int, ack: Ack): World
    requires pid in w.procs && w.procs[pid].obj in w.objs && w.procs[pid].idx < |w.procs[pid].job.items|
  {
    var p := w.procs[pid];
    match CheckItem(w.objs[p.obj], p.job, p.job.items[p.idx], cfg.maxResults)
    case Answer(accepted, o) => Finish(w, pid, o, accepted)
    case Proceed => TryAppend(cfg, w, pid, ack)
  }

  /** The holder replaces its state and tries again. */
  function Replace(w: World, pid: int, o: Obj): World
    requires pid in w.procs
  {
    var p := w.procs[pid];
    w.(objs := w.objs[p.obj := o], procs := w.procs[pid := p.(pc := Ready, attempt := p.attempt + 1)])
  }

  function DoRefold(cfg: Config, w: World, pid: int, replayed: bool): World
    requires pid in w.procs && w.procs[pid].obj in w.objs
  {
    var p := w.procs[pid];
    var o := w.objs[p.obj];
    if !replayed || p.attempt >= cfg.maxRefold then Finish(w, pid, o.(poisoned := true), false)
    else Replace(w, pid, Adopt(o, Rebuild(w.stream, o.subject, cfg.maxResults), cfg.maxResults))
  }

  /** The lost-ack path: sequence, token and status are refreshed, membership
      and results are not, and the payload is not compared. */
  function DoReconcileError(cfg: Config, w: World, pid: int, replayed: bool): World
    requires pid in w.procs && w.procs[pid].obj in w.objs && w.procs[pid].idx < |w.procs[pid].job.items|
  {
    var p := w.procs[pid];
    var o, item := w.objs[p.obj], p.job.items[p.idx];
    var r := Rebuild(w.stream, o.subject, cfg.maxResults);
    if replayed && item.commandId in r.cache.results then
      Finish(Noting(w, ErrorReconcile, p.job.subject, item), pid, o.(sequence := r.sequence, streamSeq := r.streamSeq, status := r.status), true)
    else Finish(w, pid, o.(poisoned := true), false)
  }

  /** What a re-folded state says of a command the store already had. */
  function Resolve(cfg: Config, w: World, pid: int, o: Obj, item: Item): World
    requires pid in w.procs
  {
    if item.commandId in o.cache.results then
      var found := o.cache.results[item.commandId];
      Finish(w, pid, o, (found.payloadHash == "" || found.payloadHash == item.hash) && found.accepted)
    else
      Finish(Noting(w, ForgottenDuplicate, w.procs[pid].job.subject, item), pid,
             o.(cache := Put(o.cache, item.commandId, StoredResult(item.hash, true), cfg.maxResults)), true)
  }

  function DoReconcileDuplicate(cfg: Config, w: World, pid: int, replayed: bool): World
    requires pid in w.procs && w.procs[pid].obj in w.objs && w.procs[pid].idx < |w.procs[pid].job.items|
  {
    var p := w.procs[pid];
    var o, item := w.objs[p.obj], p.job.items[p.idx];
    if !replayed then Finish(Noting(w, UnreadDuplicate, p.job.subject, item), pid, o.(poisoned := true), true)
    else Resolve(cfg, w, pid, Adopt(o, Rebuild(w.stream, o.subject, cfg.maxResults), cfg.maxResults), item)
  }

  function DoSubmit(cfg: Config, w: World, pid: int, id: Identity, subject: string, cmd: Command): World {
    var verdict := Admit(cfg.devMode, id, subject, cmd);
    if pid in w.procs || verdict.Rejected? || !Representable(cmd) then w
    else w.(procs := w.procs[pid := Proc(verdict.job, 0, 0, Acquiring, 0)], issued := w.issued + [verdict.job])
  }

  function DoTake(w: World, pid: int, oid: int): World
    requires pid in w.procs && oid in w.objs
  {
    var p := w.procs[pid];
    if w.objs[oid].poisoned then
      w.(procs := w.procs - {pid}, replies := w.replies + {Reply(p.job, false)})
    else
      w.(objs := w.objs[oid := w.objs[oid].(owner := pid)],
         procs := w.procs[pid := p.(obj := oid, pc := Ready, attempt := 0)])
  }

  predicate Holds(w: World, pid: int, pc: Pc) {
    pid in w.procs && w.procs[pid].pc == pc && w.procs[pid].obj in w.objs
    && w.procs[pid].idx < |w.procs[pid].job.items|
  }

  /** A step that is not enabled leaves the world as it is. */
  function Apply(cfg: Config, w: World, step: Step): World {
    match step
    case Submit(pid, id, subject, cmd) => if pid >= 0 then DoSubmit(cfg, w, pid, id, subject, cmd) else w
    case Load(oid, s) => if oid in w.objs then w else w.(objs := w.objs[oid := Rebuild(w.stream, s, cfg.maxResults)])
    case Take(pid, oid) =>
      if pid in w.procs && w.procs[pid].pc.Acquiring? && oid in w.objs && w.objs[oid].owner == -1
         && w.objs[oid].subject == w.procs[pid].job.subject
      then DoTake(w, pid, oid) else w
    case Attempt(pid, ack) => if Holds(w, pid, Ready) then DoAttempt(cfg, w, pid, ack) else w
    case Refold(pid, replayed) => if Holds(w, pid, Refolding) then DoRefold(cfg, w, pid, replayed) else w
    case ReconcileError(pid, replayed) =>
      if Holds(w, pid, ReconcilingError) then DoReconcileError(cfg, w, pid, replayed) else w
    case ReconcileDuplicate(pid, replayed) =>
      if Holds(w, pid, ReconcilingDuplicate) then DoReconcileDuplicate(cfg, w, pid, replayed) else w
    case Evict(oid) => if oid in w.objs && w.objs[oid].owner == -1 then w.(objs := w.objs - {oid}) else w
    case Crash(pid) =>
      if pid in w.procs then
        w.(procs := w.procs - {pid}, objs := if w.procs[pid].pc.Acquiring? then w.objs else w.objs - {w.procs[pid].obj})
      else w
  }

  function Run(cfg: Config, steps: seq<Step>): World {
    if steps == [] then EMPTY
    else Apply(cfg, Run(cfg, steps[..|steps| - 1]), steps[|steps| - 1])
  }
}
