/** What the claims mean for the logs, replies and transfers of any run. */
module RouterTheorems {
  import opened Encoding
  import opened Membership
  import opened Admission
  import opened ResultCache
  import opened RouterLog
  import opened RouterMachine
  import opened RouterBase
  import opened RouterSafety

  // ------------------------------------------------------- logs

  /** Begins with its only start; nothing follows an end. */
  ghost predicate LifecycleLog(log: seq<Event>) {
    forall i :: 0 <= i < |log| ==>
      && (log[i].eventType.Started? <==> i == 0)
      && (log[i].eventType.Ended? ==> i == |log| - 1)
  }

  lemma {:induction false} LegalEntriesGiveLifecycle(stream: Stream, s: Subject)
    requires EntriesGood(Lifecycle, s, stream)
    ensures var log := SubjectLog(stream, s);
            && LifecycleLog(log)
            && (StatusOf(log).Fresh? <==> log == [])
            && (StatusOf(log).Closed? <==> log != [] && log[|log| - 1].eventType.Ended?)
  {
    if stream != [] {
      var n := |stream| - 1;
      PrefixGood(Lifecycle, s, stream);
      LegalEntriesGiveLifecycle(stream[..n], s);
      if stream[n].subject == s {
        assert EntryGood(Lifecycle, stream[..n], stream[n]);
        GrownLog(SubjectLog(stream[..n], s), stream[n].fact);
      }
    }
  }

  /** In every run of any number of routers a subject's log begins with its only
      interaction.started and nothing follows an interaction.ended. */
  lemma {:induction false} LogLifecycle(cfg: Config, steps: seq<Step>, s: Subject)
    requires Assumes(Lifecycle, cfg, s, Run(cfg, steps))
    ensures LifecycleLog(SubjectLog(Run(cfg, steps).stream, s))
  {
    ClaimAlways(Lifecycle, cfg, s, steps);
    LegalEntriesGiveLifecycle(Run(cfg, steps).stream, s);
  }

  ghost predicate Numbered(log: seq<Event>) {
    forall k :: 0 <= k < |log| ==> log[k].sequence == k + 1
  }

  /** A subject's sequences are exactly 1, 2, 3, ... unless one of its own
      participation appends was answered "duplicate". */
  lemma {:induction false} SequencesDense(cfg: Config, steps: seq<Step>, s: Subject)
    requires Clear(Run(cfg, steps).marks, ParticipationDuplicate, s)
    ensures Numbered(SubjectLog(Run(cfg, steps).stream, s))
  {
    ClaimAlways(Dense, cfg, s, steps);
    DenseLog(Run(cfg, steps).stream, s);
  }

  /** Positive, rising, and bounded by the greatest. */
  ghost predicate RisingLog(log: seq<Event>) {
    Increasing(log) && forall k :: 0 <= k < |log| ==> 0 < log[k].sequence <= MaxSeq(log)
  }

  lemma {:induction false} RisesOn(log: seq<Event>, f: Event)
    requires RisingLog(log) && f.sequence > MaxSeq(log)
    ensures RisingLog(log + [f])
  {
    GrownLog(log, f);
    MaxSeqNatural(log);
  }

  lemma {:induction false} MaxSeqNatural(log: seq<Event>)
    ensures MaxSeq(log) >= 0
  {
    if log != [] {
      MaxSeqNatural(log[..|log| - 1]);
    }
  }

  lemma {:induction false} RisingEntries(stream: Stream, s: Subject)
    requires EntriesGood(Rising, s, stream)
    ensures RisingLog(SubjectLog(stream, s))
  {
    if stream != [] {
      var n := |stream| - 1;
      PrefixGood(Rising, s, stream);
      RisingEntries(stream[..n], s);
      if stream[n].subject == s {
        assert EntryGood(Rising, stream[..n], stream[n]);
        RisesOn(SubjectLog(stream[..n], s), stream[n].fact);
      }
    }
  }

  /** On a broker that checks concurrency before duplicates a subject's sequences
      strictly increase in every run; on the other, unless one of its own
      participation appends was answered "duplicate". */
  lemma {:induction false} SequencesRise(cfg: Config, steps: seq<Step>, s: Subject)
    requires cfg.order.OccFirst? || Clear(Run(cfg, steps).marks, ParticipationDuplicate, s)
    ensures Increasing(SubjectLog(Run(cfg, steps).stream, s))
  {
    ClaimAlways(Rising, cfg, s, steps);
    RisingEntries(Run(cfg, steps).stream, s);
  }

  /** Every gated fact of subject `s` sits where its actor has an open interval. */
  ghost predicate MembersOnly(stream: Stream, s: Subject) {
    forall i :: 0 <= i < |stream| && stream[i].subject == s && stream[i].gated ==>
      IsParticipantNow(Fold(SubjectLog(stream[..i], s)), stream[i].fact.actor)
  }

  /** Every fact written for an authenticated caller other than the trusted
      backend, except a start, sits where its actor has an open interval. */
  lemma {:induction false} WritersAreMembers(cfg: Config, steps: seq<Step>, s: Subject)
    requires Assumes(Gate, cfg, s, Run(cfg, steps))
    ensures MembersOnly(Run(cfg, steps).stream, s)
  {
    ClaimAlways(Gate, cfg, s, steps);
    var stream := Run(cfg, steps).stream;
    forall i | 0 <= i < |stream| && stream[i].subject == s && stream[i].gated
      ensures IsParticipantNow(Fold(SubjectLog(stream[..i], s)), stream[i].fact.actor)
    {
      assert EntryGood(Gate, stream[..i], stream[i]);
    }
  }

  // ------------------------------------------------------- replies

  ghost predicate AtMostOnce(stream: Stream, s: Subject, id: string) {
    forall i, j :: 0 <= i < j < |stream| && stream[i].subject == stream[j].subject == s ==>
                     stream[i].fact.commandId != id || stream[j].fact.commandId != id
  }

  /** Whatever is answered accepted is in the log: every fact of it, once. */
  lemma {:induction false} NoPhantomAcceptance(cfg: Config, steps: seq<Step>, r: Reply)
    requires r in Run(cfg, steps).replies && r.accepted
    ensures var stream := Run(cfg, steps).stream;
            forall k :: 0 <= k < |r.job.items| ==>
              InLog(stream, r.job.subject, r.job.items[k].commandId)
              && AtMostOnce(stream, r.job.subject, r.job.items[k].commandId)
  {
    BaseAlways(cfg, steps);
    var w := Run(cfg, steps);
    forall id ensures AtMostOnce(w.stream, r.job.subject, id) {
      forall i, j | 0 <= i < j < |w.stream| && w.stream[i].subject == w.stream[j].subject
        ensures w.stream[i].fact.commandId != w.stream[j].fact.commandId
      {
        assert w.stream[i].dedupId != w.stream[j].dedupId;
      }
    }
  }

  // ------------------------------------------------------- transfers

  ghost predicate SharesId(j: Job, t: Job) {
    exists k, k' :: 0 <= k < |j.items| && 0 <= k' < |t.items| && j.items[k].commandId == t.items[k'].commandId
  }

  /** The ids of transfer `t` are used for nothing but `t`, driven any number of times. */
  ghost predicate Exclusive(issued: seq<Job>, t: Job) {
    && |t.items| == 2 && t.items[0].commandId != t.items[1].commandId
    && forall j :: j in issued && j.subject == t.subject && SharesId(j, t) ==> j.items == t.items
  }

  ghost predicate IsFact(stream: Stream, i: int, t: Job, k: nat)
    requires k < |t.items|
  {
    0 <= i < |stream| && stream[i].subject == t.subject && stream[i].fact.commandId == t.items[k].commandId
  }

  ghost predicate LeftAfterJoined(stream: Stream, t: Job)
    requires |t.items| == 2
  {
    forall j :: IsFact(stream, j, t, 1) ==> exists i :: i < j && IsFact(stream, i, t, 0)
  }

  lemma StreamStep(cfg: Config, w: World, step: Step)
    ensures var stream' := Apply(cfg, w, step).stream;
            || stream' == w.stream
            || (step.Attempt? && Holds(w, step.pid, Ready)
                && stream' == w.stream + [NewEntry(w.objs[w.procs[step.pid].obj], w.procs[step.pid].job,
                                                   w.procs[step.pid].job.items[w.procs[step.pid].idx])])
  {
  }

  lemma AppendKeepsOrder(w: World, t: Job, pid: int, e: Entry)
    requires Base(w) && Exclusive(w.issued, t) && LeftAfterJoined(w.stream, t) && Holds(w, pid, Ready)
    requires var p := w.procs[pid]; e == NewEntry(w.objs[p.obj], p.job, p.job.items[p.idx])
    ensures LeftAfterJoined(w.stream + [e], t)
  {
    var stream' := w.stream + [e];
    var p := w.procs[pid];
    assert ProcOk(w, pid);
    forall j | IsFact(stream', j, t, 1) ensures exists i :: i < j && IsFact(stream', i, t, 0) {
      if j < |w.stream| {
        assert IsFact(w.stream, j, t, 1);
        var i :| i < j && IsFact(w.stream, i, t, 0);
        assert IsFact(stream', i, t, 0);
      } else {
        assert p.job.items[p.idx].commandId == t.items[1].commandId;
        assert SharesId(p.job, t);
        assert InLog(w.stream, p.job.subject, p.job.items[0].commandId);
        var i :| 0 <= i < |w.stream| && w.stream[i].subject == t.subject
                 && w.stream[i].fact.commandId == t.items[0].commandId;
        assert IsFact(stream', i, t, 0);
      }
    }
  }

  lemma {:induction false} OrderAlways(cfg: Config, steps: seq<Step>, t: Job)
    requires Exclusive(Run(cfg, steps).issued, t)
    ensures LeftAfterJoined(Run(cfg, steps).stream, t)
  {
    if steps != [] {
      var before, last := steps[..|steps| - 1], steps[|steps| - 1];
      var w := Run(cfg, before);
      HistoryGrows(cfg, w, last);
      OrderAlways(cfg, before, t);
      BaseAlways(cfg, before);
      StreamStep(cfg, w, last);
      if Apply(cfg, w, last).stream != w.stream {
        AppendKeepsOrder(w, t, last.pid, NewEntry(w.objs[w.procs[last.pid].obj], w.procs[last.pid].job,
                                                  w.procs[last.pid].job.items[w.procs[last.pid].idx]));
      }
    }
  }

  /** A transfer, re-driven any number of times, yields at most one joined(new)
      and one left(old), the join earlier. */
  lemma {:induction false} TransferOnceInOrder(cfg: Config, steps: seq<Step>, t: Job)
    requires t in Run(cfg, steps).issued && t.participation
    requires Exclusive(Run(cfg, steps).issued, t)
    ensures var stream := Run(cfg, steps).stream;
            && LeftAfterJoined(stream, t)
            && (forall i, j, k: nat :: k < 2 && IsFact(stream, i, t, k) && IsFact(stream, j, t, k) ==> i == j)
            && (forall i :: IsFact(stream, i, t, 0) ==> stream[i].fact.eventType.Joined? && stream[i].fact.actor == t.items[0].actor)
            && (forall i :: IsFact(stream, i, t, 1) ==> stream[i].fact.eventType.Left? && stream[i].fact.actor == t.items[1].actor)
  {
    var w := Run(cfg, steps);
    OrderAlways(cfg, steps, t);
    BaseAlways(cfg, steps);
    forall i, j, k: nat | k < 2 && IsFact(w.stream, i, t, k) && IsFact(w.stream, j, t, k) ensures i == j {
      assert w.stream[i].dedupId == w.stream[j].dedupId;
    }
    forall i, k: nat | k < 2 && IsFact(w.stream, i, t, k)
      ensures w.stream[i].fact.eventType == t.items[k].eventType && w.stream[i].fact.actor == t.items[k].actor
    {
      TransferFact(w, t, i, k);
    }
    assert Sane(t);
  }

  lemma TransferFact(w: World, t: Job, i: int, k: nat)
    requires Base(w) && Exclusive(w.issued, t) && k < 2 && IsFact(w.stream, i, t, k)
    ensures w.stream[i].fact.eventType == t.items[k].eventType && w.stream[i].fact.actor == t.items[k].actor
  {
    assert Provenance(w.issued, w.stream[i]);
    var job, n: nat :| job in w.issued && WrittenFor(w.stream[i], job, n);
    assert job.items[n].commandId == t.items[k].commandId;
    assert SharesId(job, t);
  }
}
