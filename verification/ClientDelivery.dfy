/** The client's ordered, gap-healing delivery (clients/typescript/src/delivery.ts
    and mailbox.ts). JavaScript runs one turn at a time, so each method is one
    turn; `recover` is cut at its await points, and `co` says where it waits. */
module ClientDelivery {

  // ------------------------------------------------------- mailbox

  datatype Pull<T> = Item(value: T) | End | Threw | Waits | Busy

  class Mailbox<T> {
    var queue: seq<T>
    var waiting: bool          // the consumer's promise is pending
    var stopping: bool         // the consumer asked to stop while it is
    var done: bool
    var failed: bool
    var iterating: bool
    var received: seq<T>       // what consumers have been handed, one after another
    ghost var accepted: seq<T> // what was pushed before the end

    /** Nothing is lost, repeated or reordered between push and the consumers. */
    ghost predicate Valid()
      reads this
    {
      && received + queue == accepted
      && (waiting ==> queue == [] && !done && iterating)
      && (stopping ==> waiting)
      && (failed ==> done)
    }

    constructor ()
      ensures Valid() && accepted == [] && received == [] && !done && !waiting && !iterating && !failed
    {
      queue, waiting, stopping, done, failed, iterating := [], false, false, false, false, false;
      received, accepted := [], [];
    }

    /** A waiting consumer is handed the item, and stops then if it asked to. */
    method Push(item: T)
      requires Valid()
      modifies this
      ensures Valid() && done == old(done) && failed == old(failed)
      ensures accepted == if old(done) then old(accepted) else old(accepted) + [item]
      ensures old(received) <= received
      ensures old(waiting) ==> received == accepted && !waiting && iterating == !old(stopping)
      ensures !old(waiting) ==> received == old(received) && iterating == old(iterating)
    {
      if done {
        return;
      }
      accepted := accepted + [item];
      if waiting {
        received := received + [item];
        iterating := !stopping;
        waiting, stopping := false, false;
      } else {
        queue := queue + [item];
      }
    }

    /** A waiting consumer, who by then has everything, sees the error and is gone. */
    method Error()
      requires Valid()
      modifies this
      ensures Valid() && done && !waiting && accepted == old(accepted) && received == old(received)
      ensures failed == (old(failed) || !old(done))
      ensures old(waiting) ==> received == accepted
      ensures iterating == (old(iterating) && !old(waiting))
    {
      if done {
        return;
      }
      failed := true;
      Finish();
    }

    method Close()
      requires Valid()
      modifies this
      ensures Valid() && done && !waiting && accepted == old(accepted) && received == old(received)
      ensures failed == old(failed)
      ensures old(waiting) ==> received == accepted
      ensures iterating == (old(iterating) && !old(waiting))
    {
      if done {
        return;
      }
      Finish();
    }

    method Finish()
      requires !done && (waiting ==> iterating)
      modifies this`done, this`waiting, this`stopping, this`iterating
      ensures done && !waiting && !stopping && iterating == (old(iterating) && !old(waiting))
    {
      done, iterating := true, iterating && !waiting;
      waiting, stopping := false, false;
    }

    /** A second consumer is refused; the first holds the stream until it stops. */
    method Start() returns (r: Pull<T>)
      requires Valid()
      modifies this`iterating
      ensures Valid() && iterating
      ensures r.Busy? <==> old(iterating)
    {
      if iterating {
        return Busy;
      }
      iterating := true;
      r := Waits;
    }

    /** One turn of the iterator. It ends or throws only after everything that
        was accepted has been handed out. */
    method Next() returns (r: Pull<T>)
      requires Valid() && iterating && !waiting
      modifies this
      ensures Valid() && accepted == old(accepted) && done == old(done) && failed == old(failed)
      ensures r.Item? ==> received == old(received) + [r.value] && iterating
      ensures r.End? || r.Threw? ==> received == accepted && done && (r.Threw? <==> failed) && !iterating
      ensures r.Waits? ==> waiting && received == accepted && iterating
      ensures !r.Item? ==> received == old(received)
      ensures !r.Busy?
    {
      if queue != [] {
        r := Item(queue[0]);
        received, queue := received + [queue[0]], queue[1..];
      } else if done {
        iterating := false;
        r := if failed then Threw else End;
      } else {
        waiting := true;
        r := Waits;
      }
    }

    /** The consumer breaks off: at once between two items, after the next one if its
        promise is pending. What it was not handed stays for the next consumer. */
    method Stop()
      requires Valid()
      modifies this`stopping, this`iterating
      ensures Valid()
      ensures iterating == (old(iterating) && waiting) && stopping == waiting
    {
      if waiting {
        stopping := true;
      } else {
        iterating := false;
      }
    }
  }

  // ------------------------------------------------------- delivery

  datatype LogEvent = LogEvent(sequence: int, body: string)

  datatype State = Live | Replaying | Degraded | Failed

  /** Where the recovery coroutine is suspended. */
  datatype Co = Idle | InReplay(attempt: nat, needPass: bool) | InWait(attempt: nat, needPass: bool)

  ghost predicate Numbered(events: seq<LogEvent>) {
    forall i :: 0 <= i < |events| ==> events[i].sequence == i + 1
  }

  class Delivery {
    const out: Mailbox<LogEvent>
    const backoff: nat               // length of the backoff list
    ghost const truth: seq<LogEvent> // a log the sources may be honest about
    var pending: map<int, LogEvent>
    var applied: int
    var state: State
    var recovering: bool
    var closed: bool
    var co: Co
    var passes: nat                  // replay passes begun by this recovery
    ghost var honest: bool           // every event given so far is truth's

    ghost predicate FromTruth(ev: LogEvent) {
      1 <= ev.sequence <= |truth| && ev == truth[ev.sequence - 1]
    }

    /** The parts a turn may rely on midway. */
    ghost predicate Core()
      reads this, out
    {
      && out.Valid() && 0 <= applied == |out.accepted| && Numbered(out.accepted)
      && (forall k :: k in pending ==> k > applied && pending[k].sequence == k)
      && (recovering <==> !co.Idle?)
      && (recovering ==> !state.Live?)
      && (co.InWait? ==> co.attempt + 1 < backoff)
      && (out.done <==> closed || state.Failed?)
      && (state.Failed? ==> co.Idle?)
      && (!co.Idle? ==> co.attempt < MaxPasses() && passes == co.attempt + 1)
      && passes <= MaxPasses()
      && (honest ==> applied <= |truth| && out.accepted == truth[..applied] && forall k :: k in pending ==> FromTruth(pending[k]))
    }

    ghost predicate Valid()
      reads this, out
    {
      && Core()
      && applied + 1 !in pending
      && (pending != map[] ==> recovering || closed || state.Failed?)
      && (state.Live? && !closed ==> pending == map[])
    }

    ghost function MaxPasses(): nat {
      if backoff == 0 then 1 else backoff
    }

    constructor (backoff: nat, ghost truth: seq<LogEvent>)
      ensures Valid() && fresh(out) && applied == 0 && !closed && state.Live? && honest && this.truth == truth
    {
      this.backoff, this.truth := backoff, truth;
      out := new Mailbox<LogEvent>();
      pending, applied, state, recovering, closed, co, passes, honest := map[], 0, Live, false, false, Idle, 0, true;
    }

    /** Hands over every contiguous pending event. */
    method DrainContiguous()
      requires Core() && !closed && !state.Failed?
      modifies this`pending, this`applied, out
      ensures Core() && applied + 1 !in pending
      ensures old(out.accepted) <= out.accepted && old(out.received) <= out.received
      ensures forall k :: k in pending ==> k in old(pending)
      ensures forall k :: k in old(pending) ==> k in pending || k <= applied
    {
      while applied + 1 in pending
        invariant Core() && !closed && !state.Failed?
        invariant old(out.accepted) <= out.accepted && old(out.received) <= out.received
        invariant forall k :: k in pending ==> k in old(pending)
        invariant forall k :: k in old(pending) ==> k in pending || k <= applied
        decreases |pending|
      {
        HandOver();
      }
    }

    /** Hands over the next event. */
    method HandOver()
      requires Core() && !closed && !state.Failed? && applied + 1 in pending
      modifies this`pending, this`applied, out
      ensures Core() && applied == old(applied) + 1 && pending == old(pending) - {applied} && |pending| < |old(pending)|
      ensures out.accepted == old(out.accepted) + [old(pending)[applied]] && old(out.received) <= out.received
    {
      var next := pending[applied + 1];
      assert (pending - {next.sequence}).Keys == pending.Keys - {next.sequence};
      assert |pending - {next.sequence}| == |(pending - {next.sequence}).Keys| == |pending.Keys| - 1;
      pending := pending - {next.sequence};
      applied := next.sequence;
      out.Push(next);
    }

    /** A live event. */
    method Offer(ev: LogEvent)
      requires Valid()
      modifies this, out
      ensures Valid() && old(out.accepted) <= out.accepted && old(out.received) <= out.received && closed == old(closed)
      ensures honest == (old(honest) && (FromTruth(ev) || old(closed) || old(state).Failed? || ev.sequence <= old(applied)))
      ensures old(closed) || old(state).Failed? ==> out.accepted == old(out.accepted) && state == old(state)
      ensures !closed && !state.Failed? ==> ev.sequence <= applied || (ev.sequence in pending && recovering)
    {
      if closed || state.Failed? || ev.sequence <= applied {
        return;
      }
      Keep(ev);
      if pending != map[] && !recovering {
        Recover(false);
      }
    }

    /** Takes a new event in and hands over what has become contiguous. */
    method Keep(ev: LogEvent)
      requires Valid() && !closed && !state.Failed? && ev.sequence > applied
      modifies this`pending, this`applied, this`honest, out
      ensures Core() && applied + 1 !in pending && honest == (old(honest) && FromTruth(ev))
      ensures old(out.accepted) <= out.accepted && old(out.received) <= out.received
      ensures ev.sequence <= applied || ev.sequence in pending
    {
      honest := honest && FromTruth(ev);
      pending := pending[ev.sequence := ev];
      DrainContiguous();
      assert ev.sequence <= applied || ev.sequence in pending;
    }

    /** Loads history once on open and after a reconnect. */
    method Prime()
      requires Valid()
      modifies this
      ensures Valid() && closed == old(closed) && honest == old(honest)
      ensures !closed && !state.Failed? ==> recovering
      ensures old(state).Failed? ==> state.Failed?
    {
      if !recovering && !closed && !state.Failed? {
        Recover(true);
      }
    }

    method Close()
      requires Valid()
      modifies this`closed, out
      ensures Valid() && closed && out.accepted == old(out.accepted) && out.received == old(out.received)
    {
      if closed {
        return;
      }
      closed := true;
      out.Close();
    }

    /** The first stretch of recover: up to its first replay pass. */
    method Recover(initial: bool)
      requires Core() && !recovering && !closed && !state.Failed? && applied + 1 !in pending
      requires initial || pending != map[]
      modifies this`recovering, this`state, this`co, this`passes
      ensures Valid() && recovering && state.Replaying? && co == InReplay(0, initial) && passes == 1
    {
      recovering, state := true, Replaying;
      co, passes := InReplay(0, initial), 1;
    }

    /** An event arrives from the replay in progress. */
    method ReplayEvent(ev: LogEvent)
      requires Valid() && co.InReplay?
      modifies this, out
      ensures Valid() && closed == old(closed) && old(out.accepted) <= out.accepted && old(out.received) <= out.received
      ensures honest == (old(honest) && (FromTruth(ev) || old(closed) || ev.sequence <= old(applied)))
      ensures closed ==> out.accepted == old(out.accepted)
    {
      if closed {
        AfterPass();
        return;
      }
      if ev.sequence <= applied {
        return;
      }
      Keep(ev);
    }

    /** The replay in progress ends without an error. */
    method ReplayDone()
      requires Valid() && co.InReplay?
      modifies this, out
      ensures Valid() && closed == old(closed) && honest == old(honest)
      ensures out.accepted == old(out.accepted) && out.received == old(out.received)
      ensures old(pending) == map[] ==> co.Idle? && !recovering
    {
      AfterPass();
    }

    /** The replay in progress throws. */
    method ReplayError()
      requires Valid() && co.InReplay?
      modifies this, out
      ensures Valid() && closed == old(closed) && honest == old(honest)
      ensures out.accepted == old(out.accepted) && out.received == old(out.received)
      ensures state.Failed? <==> old(co).attempt + 1 >= backoff
    {
      state := Degraded;
      if co.attempt + 1 >= backoff {
        FailClosed();
      } else {
        co := InWait(co.attempt, co.needPass);
      }
    }

    /** The backoff wait is over. */
    method WaitDone()
      requires Valid() && co.InWait?
      modifies this, out
      ensures Valid() && closed == old(closed) && honest == old(honest)
      ensures out.accepted == old(out.accepted) && out.received == old(out.received)
      ensures co.Idle? || (co.InReplay? && passes == old(passes) + 1)
    {
      if (co.needPass || pending != map[]) && !closed {
        co, passes := InReplay(co.attempt + 1, co.needPass), passes + 1;
      } else {
        EndRecovery();
      }
    }

    method AfterPass()
      requires Valid() && co.InReplay?
      modifies this, out
      ensures Valid() && closed == old(closed) && honest == old(honest)
      ensures out.accepted == old(out.accepted) && out.received == old(out.received)
      ensures old(pending) == map[] ==> co.Idle? && !recovering
    {
      if pending == map[] {
        EndRecovery();
      } else if co.attempt + 1 >= backoff {
        FailClosed();
      } else {
        state, co := Degraded, InWait(co.attempt, false);
      }
    }

    /** Terminal: the gap could not be filled. Nothing past it is delivered. */
    method FailClosed()
      requires Core() && applied + 1 !in pending && !co.Idle?
      modifies this`recovering, this`state, this`co, out
      ensures Valid() && state.Failed? && out.done && closed == old(closed)
      ensures out.accepted == old(out.accepted) && out.received == old(out.received)
    {
      recovering, state, co := false, Failed, Idle;
      out.Error();
    }

    /** The end of recover. The loop ends with nothing pending unless closed, so
        the final drain of the source finds nothing and the state turns live. */
    method EndRecovery()
      requires Valid() && !co.Idle? && (pending == map[] || closed)
      modifies this, out
      ensures Valid() && closed == old(closed) && honest == old(honest)
      ensures out.accepted == old(out.accepted) && out.received == old(out.received)
      ensures co.Idle? && !recovering && pending == old(pending)
    {
      recovering, co := false, Idle;
      if !closed && !state.Failed? {
        state := Live;
      }
    }
  }

  // ------------------------------------------------------- any interleaving

  datatype Turn =
    | LiveEvent(ev: LogEvent) | Primed | Replayed(ev: LogEvent) | PassEnds | PassThrows | Waited | Closes
    | Starts | Pulls | Stops

  /** A source that gives the client an event of the log, if any. */
  ghost predicate Honest(d: Delivery, turn: Turn) {
    turn.LiveEvent? || turn.Replayed? ==> d.FromTruth(turn.ev)
  }

  /** One turn; one that is not possible now does nothing. */
  method Take(d: Delivery, turn: Turn)
    requires d.Valid()
    modifies d, d.out
    ensures d.Valid() && old(d.out.accepted) <= d.out.accepted && old(d.out.received) <= d.out.received
    ensures (old(d.closed) ==> d.closed) && (old(d.state).Failed? ==> d.state.Failed?)
    ensures old(d.closed) || old(d.state).Failed? ==> d.out.accepted == old(d.out.accepted)
    ensures old(d.honest) && Honest(d, turn) ==> d.honest
  {
    match turn
    case LiveEvent(ev) => d.Offer(ev);
    case Primed => d.Prime();
    case Replayed(ev) => if d.co.InReplay? { d.ReplayEvent(ev); }
    case PassEnds => if d.co.InReplay? { d.ReplayDone(); }
    case PassThrows => if d.co.InReplay? { d.ReplayError(); }
    case Waited => if d.co.InWait? { d.WaitDone(); }
    case Closes => d.Close();
    case Starts => var _ := d.out.Start();
    case Pulls => if d.out.iterating && !d.out.waiting { var _ := d.out.Next(); }
    case Stops => d.out.Stop();
  }

  /** Any interleaving of live events, opens, replays, errors, waits and close with
      the turns of consumers that come, pull and break off: what they are handed, one
      after another, is exactly 1, 2, 3, ..., a prefix of truth when every source is
      honest, and the stream does not move once the client failed or closed. */
  method Interleave(d: Delivery, turns: seq<Turn>)
    requires d.Valid()
    modifies d, d.out
    ensures d.Valid() && Numbered(d.out.accepted) && old(d.out.accepted) <= d.out.accepted
    ensures Numbered(d.out.received) && old(d.out.received) <= d.out.received <= d.out.accepted
    ensures old(d.honest) && (forall i :: 0 <= i < |turns| ==> Honest(d, turns[i])) ==>
              d.honest && d.out.accepted == d.truth[..d.applied] && d.out.received <= d.truth
    ensures old(d.closed) || old(d.state).Failed? ==> d.out.accepted == old(d.out.accepted)
    ensures d.pending != map[] && !d.closed && !d.state.Failed? ==> d.recovering
    ensures d.passes <= d.MaxPasses()
  {
    for i := 0 to |turns|
      invariant d.Valid() && old(d.out.accepted) <= d.out.accepted && old(d.out.received) <= d.out.received
      invariant old(d.closed) ==> d.closed
      invariant old(d.state).Failed? ==> d.state.Failed?
      invariant old(d.closed) || old(d.state).Failed? ==> d.out.accepted == old(d.out.accepted)
      invariant old(d.honest) && (forall j :: 0 <= j < i ==> Honest(d, turns[j])) ==> d.honest
    {
      Take(d, turns[i]);
    }
    assert d.out.received == d.out.accepted[..|d.out.received|];
  }

  /** A client's whole life on a log that every source is honest about: its consumers
      are handed a prefix of that log. */
  method Session(backoff: nat, ghost log: seq<LogEvent>, turns: seq<Turn>) returns (d: Delivery)
    requires forall i :: 0 <= i < |turns| && (turns[i].LiveEvent? || turns[i].Replayed?) ==>
               1 <= turns[i].ev.sequence <= |log| && turns[i].ev == log[turns[i].ev.sequence - 1]
    ensures fresh(d) && d.Valid() && d.out.received <= d.out.accepted <= log
    ensures d.pending != map[] && !d.closed && !d.state.Failed? ==> d.recovering
  {
    d := new Delivery(backoff, log);
    Interleave(d, turns);
  }
}
