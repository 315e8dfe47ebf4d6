/** What a command must pass before it may touch the log: the subject grammar,
    the identity checks, and the facts a command stands for
    (internal/signaling/router.go, HandleCommand and handleParticipation). */
module Admission {
  import opened Encoding
  import opened Membership

  datatype Subject = Subject(tenant: string, iid: string)

  // ------------------------------------------------------- subjects

  /** strings.Split(s, "."). */
  function SplitDots(s: string): (parts: seq<string>)
    ensures parts != []
    ensures forall i :: 0 <= i < |parts| ==> DotFree(parts[i])
  {
    if s == "" then [""]
    else
      var rest := SplitDots(s[1..]);
      if s[0] == '.' then [""] + rest else [[s[0]] + rest[0]] + rest[1..]
  }

  function JoinDots(parts: seq<string>): string
    requires parts != []
  {
    if |parts| == 1 then parts[0] else parts[0] + "." + JoinDots(parts[1..])
  }

  lemma {:induction false} JoinOfSplit(s: string)
    ensures JoinDots(SplitDots(s)) == s
  {
    if s != "" {
      var rest := SplitDots(s[1..]);
      JoinOfSplit(s[1..]);
      if s[0] == '.' {
        assert ([""] + rest)[1..] == rest;
      } else {
        var parts := [[s[0]] + rest[0]] + rest[1..];
        assert parts[1..] == rest[1..];
        if |rest| > 1 {
          assert JoinDots(parts) == [s[0]] + (rest[0] + "." + JoinDots(rest[1..]));
        }
      }
    }
  }

  datatype Parsed = BadSubject | Parsed(subject: Subject, identity: string)

  function ParseCmdSubject(s: string): Parsed {
    var p := SplitDots(s);
    if |p| != 6 || p[0] != "tenant" || p[2] != "interaction" || p[4] != "cmd" then BadSubject
    else if p[1] == "" || p[3] == "" || p[5] == "" then BadSubject
    else Parsed(Subject(p[1], p[3]), p[5])
  }

  function FormatCmdSubject(s: Subject, identity: string): string {
    "tenant." + s.tenant + ".interaction." + s.iid + ".cmd." + identity
  }

  /** Parsing inverts formatting, so a subject names its tokens in one way, and
      tenant and interaction are dot-free. */
  lemma ParseInvertsFormat(s: string)
    requires ParseCmdSubject(s).Parsed?
    ensures var p := ParseCmdSubject(s);
            && FormatCmdSubject(p.subject, p.identity) == s
            && DotFree(p.subject.tenant) && DotFree(p.subject.iid) && DotFree(p.identity)
  {
    JoinOfSplit(s);
    var p := SplitDots(s);
    calc {
      JoinDots(p);
      p[0] + "." + JoinDots(p[1..]);
      { assert p[1..][1..] == p[2..]; }
      p[0] + "." + (p[1] + "." + JoinDots(p[2..]));
      { assert p[2..][1..] == p[3..]; }
      p[0] + "." + (p[1] + "." + (p[2] + "." + JoinDots(p[3..])));
      { assert p[3..][1..] == p[4..]; }
      p[0] + "." + (p[1] + "." + (p[2] + "." + (p[3] + "." + JoinDots(p[4..]))));
      { assert p[4..][1..] == p[5..]; }
      p[0] + "." + (p[1] + "." + (p[2] + "." + (p[3] + "." + (p[4] + "." + p[5]))));
    }
  }

  lemma {:induction false} SplitOfJoin(a: string, rest: string)
    requires DotFree(a)
    ensures SplitDots(a + "." + rest) == [a] + SplitDots(rest)
  {
    var s := a + "." + rest;
    if a == "" {
      assert s[1..] == rest;
    } else {
      assert s[1..] == a[1..] + "." + rest;
      assert s[0] == a[0] && a[0] != '.';
      SplitOfJoin(a[1..], rest);
      assert [a[0]] + a[1..] == a;
      assert ([a[1..]] + SplitDots(rest))[1..] == SplitDots(rest);
    }
  }

  lemma {:induction false} SplitOfToken(a: string)
    requires DotFree(a)
    ensures SplitDots(a) == [a]
  {
    if a != "" {
      assert a[0] != '.';
      SplitOfToken(a[1..]);
      assert [a[0]] + a[1..] == a;
    }
  }

  predicate Token(s: string) {
    s != "" && DotFree(s)
  }

  lemma {:induction false} SplitOfSix(p0: string, p1: string, p2: string, p3: string, p4: string, p5: string)
    requires DotFree(p0) && DotFree(p1) && DotFree(p2) && DotFree(p3) && DotFree(p4) && DotFree(p5)
    ensures SplitDots(p0 + "." + (p1 + "." + (p2 + "." + (p3 + "." + (p4 + "." + p5))))) == [p0, p1, p2, p3, p4, p5]
  {
    SplitOfJoin(p0, p1 + "." + (p2 + "." + (p3 + "." + (p4 + "." + p5))));
    SplitOfJoin(p1, p2 + "." + (p3 + "." + (p4 + "." + p5)));
    SplitOfJoin(p2, p3 + "." + (p4 + "." + p5));
    SplitOfJoin(p3, p4 + "." + p5);
    SplitOfJoin(p4, p5);
    SplitOfToken(p5);
  }

  lemma FormatIsSix(s: Subject, identity: string)
    ensures FormatCmdSubject(s, identity) ==
            "tenant" + "." + (s.tenant + "." + ("interaction" + "." + (s.iid + "." + ("cmd" + "." + identity))))
  {
    assert "tenant." == "tenant" + "." && ".interaction." == "." + "interaction" + "." && ".cmd." == "." + "cmd" + ".";
  }

  /** And formatting inverts parsing: every token triple has its subject. */
  lemma FormatInvertsParse(s: Subject, identity: string)
    requires Token(s.tenant) && Token(s.iid) && Token(identity)
    ensures ParseCmdSubject(FormatCmdSubject(s, identity)) == Parsed(s, identity)
  {
    var p0, p2, p4 := "tenant", "interaction", "cmd";
    SplitOfSix(p0, s.tenant, p2, s.iid, p4, identity);
    FormatIsSix(s, identity);
  }

  // ------------------------------------------------------- commands

  const TRUSTED_BACKEND := "trusted-backend"
  const AGENT_FEED := "agent-feed"
  const AGENT_FEED_OBSERVER := "agent-feed-admin-operation-observer"

  datatype Identity = Identity(tenantId: string, userId: string, role: string, capability: string)

  predicate IsAuthenticated(id: Identity) {
    id.userId != "" || id.role != "" || id.capability != ""
  }

  predicate IsSubscriberCapability(capability: string) {
    capability == AGENT_FEED || capability == AGENT_FEED_OBSERVER
  }

  datatype CommandKind = Assign | Unassign | Transfer | Emit(eventType: EventType)

  function EventTypeOf(name: string): EventType {
    if name == "interaction.started" then Started
    else if name == "interaction.ended" then Ended
    else if name == "participant.joined" then Joined
    else if name == "participant.left" then Left
    else Note(name)
  }

  function KindOf(name: string): CommandKind {
    if name == "participant.assign" then Assign
    else if name == "participant.unassign" then Unassign
    else if name == "participant.transfer" then Transfer
    else Emit(EventTypeOf(name))
  }

  /** `participation` is the decoded JSON of `data`, when it decodes. */
  datatype Decoded = Malformed | Decoded(agent: string, from: string)

  datatype Command = Command(
    commandId: string, tenantId: string, actorId: string, typeName: string,
    medium: string, refId: string, data: string, participation: Decoded)

  /** What a command says, apart from its id. */
  datatype Payload = Payload(tenant: string, actor: string, typeName: string, medium: string, refId: string, data: string)

  function PayloadOf(cmd: Command): Payload {
    Payload(cmd.tenantId, cmd.actorId, cmd.typeName, cmd.medium, cmd.refId, cmd.data)
  }

  /** The digest of a payload, represented by its preimage. */
  function HashPayload(p: Payload): string {
    Frames([p.tenant, p.actor, p.typeName, p.medium, p.refId, p.data])
  }

  lemma HashPayloadNonempty(p: Payload)
    ensures HashPayload(p) != ""
  {
  }

  /** A Go value: lengths fit 64 bits. */
  predicate Fits(p: Payload) {
    && |p.tenant| < UINT64 && |p.actor| < UINT64 && |p.typeName| < UINT64
    && |p.medium| < UINT64 && |p.refId| < UINT64 && |p.data| < UINT64
  }

  /** Equal hashes mean equal payloads, field by field. */
  lemma HashPayloadInjective(p: Payload, q: Payload)
    requires Fits(p) && Fits(q) && HashPayload(p) == HashPayload(q)
    ensures p == q
  {
    var a := [p.tenant, p.actor, p.typeName, p.medium, p.refId, p.data];
    var b := [q.tenant, q.actor, q.typeName, q.medium, q.refId, q.data];
    FramesInjective(a, b);
    assert a[0] == b[0] && a[1] == b[1] && a[2] == b[2] && a[3] == b[3] && a[4] == b[4] && a[5] == b[5];
  }

  /** One fact to append; a plain command has one, a transfer two. */
  datatype Item = Item(commandId: string, eventType: EventType, actor: string, hash: string, payload: Payload)

  function ItemOf(commandId: string, p: Payload): Item {
    Item(commandId, EventTypeOf(p.typeName), p.actor, HashPayload(p), p)
  }

  /** An admitted command. `gated` marks an authenticated caller other than the
      trusted backend, writing anything but the start. */
  datatype Job = Job(subject: Subject, suffix: string, gated: bool, participation: bool,
                     parent: string, items: seq<Item>)

  datatype Verdict = Rejected(reason: string) | Admitted(job: Job)

  function SubId(parent: string, typeName: string, agent: string): string {
    parent + ":" + typeName + ":" + agent
  }

  function SubItem(subject: Subject, cmd: Command, typeName: string, agent: string): Item {
    ItemOf(SubId(cmd.commandId, typeName, agent), Payload(subject.tenant, agent, typeName, cmd.medium, "", ""))
  }

  function AdmitParticipation(id: Identity, subject: Subject, suffix: string, cmd: Command): Verdict {
    if id.role != TRUSTED_BACKEND then Rejected("privileged command requires trusted-backend actor")
    else if cmd.participation.Malformed? then Rejected("bad participation payload")
    else
      var agent, from := cmd.participation.agent, cmd.participation.from;
      var kind := KindOf(cmd.typeName);
      if kind.Transfer? then
        if agent == "" || from == "" then Rejected("missing from/agent")
        else Admitted(Job(subject, suffix, false, true, cmd.commandId,
          [SubItem(subject, cmd, "participant.joined", agent), SubItem(subject, cmd, "participant.left", from)]))
      else if agent == "" then Rejected("missing agent")
      else Admitted(Job(subject, suffix, false, true, cmd.commandId,
        [SubItem(subject, cmd, if kind.Assign? then "participant.joined" else "participant.left", agent)]))
  }

  function Admit(devMode: bool, id: Identity, subject: string, cmd: Command): Verdict {
    var parsed := ParseCmdSubject(subject);
    if parsed.BadSubject? then Rejected("bad subject")
    else if !IsAuthenticated(id) && !devMode then Rejected("unauthenticated")
    else
      var tenant, suffix := parsed.subject.tenant, parsed.identity;
      var authTenant := if id.tenantId == "" then tenant else id.tenantId;
      var backend := id.role == TRUSTED_BACKEND;
      if cmd.commandId == "" then Rejected("missing command_id")
      else if tenant != authTenant then Rejected("subject tenant != authenticated tenant")
      else if cmd.tenantId != authTenant then Rejected("payload tenant_id != authenticated tenant")
      else if !backend && cmd.actorId == "" then Rejected("missing actor_id")
      else if !backend && cmd.actorId != suffix then Rejected("actor_mismatch")
      else if !backend && id.userId != "" && suffix != id.userId then Rejected("actor_id != authenticated user")
      else if !KindOf(cmd.typeName).Emit? then AdmitParticipation(id, parsed.subject, suffix, cmd)
      else
        var t := KindOf(cmd.typeName).eventType;
        if IsParticipationFact(t) then Rejected("participation fact requires a privileged command")
        else if IsAuthenticated(id) && !backend && !IsSubscriberCapability(id.capability) then Rejected("capability_denied")
        else Admitted(Job(parsed.subject, suffix, IsAuthenticated(id) && !backend && !t.Started?, false, cmd.commandId,
          [ItemOf(cmd.commandId, PayloadOf(cmd))]))
  }

  /** What the protocol relies on from an admitted command. */
  ghost predicate Sane(job: Job) {
    && DotFree(job.subject.tenant) && DotFree(job.subject.iid)
    && 1 <= |job.items| <= 2
    && (forall i :: 0 <= i < |job.items| ==> job.items[i].hash != "" && job.items[i].commandId != "")
    && (!job.participation ==>
          && |job.items| == 1
          && !IsParticipationFact(job.items[0].eventType)
          && (job.gated ==> job.items[0].actor == job.suffix && Token(job.suffix)))
    && (job.participation ==>
          && !job.gated
          && (forall i :: 0 <= i < |job.items| ==> IsParticipationFact(job.items[i].eventType))
          && (|job.items| == 2 ==> job.items[0].eventType.Joined? && job.items[1].eventType.Left?
                                   && job.items[0].commandId != job.items[1].commandId))
  }

  /** The job of a participation command. */
  lemma ParticipationIsSane(id: Identity, s: Subject, suffix: string, cmd: Command)
    requires AdmitParticipation(id, s, suffix, cmd).Admitted? && DotFree(s.tenant) && DotFree(s.iid)
    ensures var job := AdmitParticipation(id, s, suffix, cmd).job;
            Sane(job) && job.participation && !job.gated && id.role == TRUSTED_BACKEND
  {
    var agent, from := cmd.participation.agent, cmd.participation.from;
    FactIsSane(s, cmd, "participant.joined", agent);
    FactIsSane(s, cmd, "participant.left", agent);
    FactIsSane(s, cmd, "participant.left", from);
    SubIdsDiffer(cmd.commandId, agent, from);
  }

  lemma FactIsSane(s: Subject, cmd: Command, typeName: string, agent: string)
    ensures var item := SubItem(s, cmd, typeName, agent);
            item.hash != "" && item.commandId != "" && item.eventType == EventTypeOf(typeName)
  {
    HashPayloadNonempty(Payload(s.tenant, agent, typeName, cmd.medium, "", ""));
  }

  /** The job of any other command. */
  lemma PlainIsSane(s: Subject, suffix: string, gated: bool, cmd: Command)
    requires DotFree(s.tenant) && DotFree(s.iid) && cmd.commandId != "" && !IsParticipationFact(EventTypeOf(cmd.typeName))
    requires gated ==> cmd.actorId == suffix && Token(suffix)
    ensures Sane(Job(s, suffix, gated, false, cmd.commandId, [ItemOf(cmd.commandId, PayloadOf(cmd))]))
  {
    HashPayloadNonempty(PayloadOf(cmd));
  }

  /** Admission lets a participation fact through only for the trusted backend,
      binds a gated writer to its own authenticated name, and never produces a
      job the append protocol could not carry. */
  lemma AdmittedIsSane(devMode: bool, id: Identity, subject: string, cmd: Command)
    requires Admit(devMode, id, subject, cmd).Admitted?
    ensures var job := Admit(devMode, id, subject, cmd).job;
            && Sane(job)
            && (job.participation ==> id.role == TRUSTED_BACKEND)
            && (job.gated <==> IsAuthenticated(id) && id.role != TRUSTED_BACKEND
                               && KindOf(cmd.typeName) != Emit(Started))
            && (job.gated && id.userId != "" ==> job.suffix == id.userId)
  {
    ParseInvertsFormat(subject);
    var p := ParseCmdSubject(subject);
    if KindOf(cmd.typeName).Emit? {
      PlainIsSane(p.subject, p.identity, Admit(devMode, id, subject, cmd).job.gated, cmd);
    } else {
      ParticipationIsSane(id, p.subject, p.identity, cmd);
    }
  }

  lemma SubIdsDiffer(parent: string, a: string, b: string)
    ensures SubId(parent, "participant.joined", a) != SubId(parent, "participant.left", b)
  {
    var k := |parent| + 1 + |"participant."|;
    assert SubId(parent, "participant.joined", a)[k] == 'j';
    assert SubId(parent, "participant.left", b)[k] == 'l';
  }

  /** Lengths that a Go string can have. */
  predicate Representable(cmd: Command) {
    && Fits(PayloadOf(cmd))
    && (cmd.participation.Decoded? ==> |cmd.participation.agent| < UINT64 && |cmd.participation.from| < UINT64)
  }

  function FactName(t: EventType): string {
    if t.Joined? then "participant.joined" else "participant.left"
  }

  /** A participation fact carries the id derived from parent, type and agent. */
  predicate IsDerived(job: Job, k: nat)
    requires k < |job.items|
  {
    && job.parent != "" && job.items[k].actor != ""
    && job.items[k].commandId == SubId(job.parent, FactName(job.items[k].eventType), job.items[k].actor)
  }

  lemma ParticipationItems(id: Identity, s: Subject, suffix: string, cmd: Command, k: nat)
    requires AdmitParticipation(id, s, suffix, cmd).Admitted? && cmd.commandId != "" && s.tenant == cmd.tenantId && Representable(cmd)
    requires k < |AdmitParticipation(id, s, suffix, cmd).job.items|
    ensures var job := AdmitParticipation(id, s, suffix, cmd).job;
            && job.items[k].hash == HashPayload(job.items[k].payload) && Fits(job.items[k].payload)
            && job.items[k].actor == job.items[k].payload.actor && IsDerived(job, k)
  {
  }

  /** The items of an admitted command carry its payload and its hash. */
  lemma AdmittedItems(devMode: bool, id: Identity, subject: string, cmd: Command, k: nat)
    requires Admit(devMode, id, subject, cmd).Admitted? && Representable(cmd)
    requires k < |Admit(devMode, id, subject, cmd).job.items|
    ensures var job := Admit(devMode, id, subject, cmd).job;
            && job.items[k].hash == HashPayload(job.items[k].payload) && Fits(job.items[k].payload)
            && job.items[k].actor == job.items[k].payload.actor
            && (!job.participation ==> job.items[k].payload == PayloadOf(cmd))
            && (job.participation ==> IsDerived(job, k))
  {
    if !KindOf(cmd.typeName).Emit? {
      var p := ParseCmdSubject(subject);
      ParticipationItems(id, p.subject, p.identity, cmd, k);
    }
  }
}
