/** The lease discipline of the projector (internal/projector/projector.go): the
    fence that gates the data loop, and the time budget of a renewal round. */
module Lease {

  // ------------------------------------------------------- int64 durations

  const MAX: int := 0x7FFF_FFFF_FFFF_FFFF
  const TWO64: int := 0x1_0000_0000_0000_0000

  predicate Int64(x: int) {
    -MAX - 1 <= x <= MAX
  }

  /** The int64 a product wraps to. */
  function Wrap(x: int): (r: int)
    ensures Int64(r)
    ensures Int64(x) ==> r == x
  {
    var m := x % TWO64;
    if m > MAX then m - TWO64 else m
  }

  /** Go's division, truncating toward zero. */
  function Quo(a: int, b: int): (r: int)
    requires b > 0
    ensures a >= 0 ==> r == a / b
    ensures a < 0 ==> r == -((-a) / b)
  {
    if a >= 0 then a / b else -((-a) / b)
  }

  const MILLISECOND: int := 1_000_000
  const SECOND: int := 1_000_000_000
  const RENEW_ATTEMPTS: int := 3
  const RENEW_BACKOFF: int := 300 * MILLISECOND

  datatype Config = Config(leaseRenew: int, leaseTTL: int)

  function WithDefaults(c: Config): Config {
    var renew := if c.leaseRenew <= 0 then 2 * SECOND else c.leaseRenew;
    var ttl := if c.leaseTTL <= 0 then 5 * SECOND else c.leaseTTL;
    Config(if renew >= ttl then ttl / 2 else renew, ttl)
  }

  datatype Budget = Budget(perAttempt: int, attempts: int, backoff: int)

  function RenewBudget(ttl: int, renewInterval: int): Budget {
    var slack := ttl - renewInterval;
    if slack <= 0 then Budget(MILLISECOND, 1, 0)
    else
      var budget := Quo(Wrap(slack * 9), 10);
      var backoff :=
        if (RENEW_ATTEMPTS - 1) * RENEW_BACKOFF >= budget
        then Quo(Quo(budget, RENEW_ATTEMPTS), 2) else RENEW_BACKOFF;
      var perAttempt := Quo(budget - (RENEW_ATTEMPTS - 1) * backoff, RENEW_ATTEMPTS);
      if perAttempt <= 0 then Budget(budget, 1, 0) else Budget(perAttempt, RENEW_ATTEMPTS, backoff)
  }

  /** How long one attempt may take: a context with a deadline in the past is done
      at once. */
  function Allowed(b: Budget): (r: int)
    ensures r >= 0
  {
    if b.perAttempt > 0 then b.perAttempt else 0
  }

  function RoundTime(b: Budget): int {
    b.attempts * Allowed(b) + (b.attempts - 1) * b.backoff
  }

  lemma DefaultsLeaveSlack(c: Config)
    requires Int64(c.leaseRenew) && Int64(c.leaseTTL)
    ensures var d := WithDefaults(c);
            0 <= d.leaseRenew < d.leaseTTL <= MAX && (d.leaseTTL > 1 ==> d.leaseRenew > 0)
  {
  }

  lemma WrappedBudgetBelowSlack(slack: int)
    requires 0 < slack <= MAX
    ensures Quo(Wrap(slack * 9), 10) < slack
  {
    if slack * 9 > MAX {
      assert Wrap(slack * 9) <= MAX;
    }
  }

  /** Whatever the configuration, even where the product wraps, a round that
      keeps to its deadlines takes strictly less than the fencing slack; and an
      attempt gets time exactly when nine tenths of the slack, as computed in
      int64, is positive. */
  lemma RoundFitsSlack(c: Config)
    requires Int64(c.leaseRenew) && Int64(c.leaseTTL)
    ensures var d := WithDefaults(c);
            var b := RenewBudget(d.leaseTTL, d.leaseRenew);
            var slack := d.leaseTTL - d.leaseRenew;
            && RoundTime(b) < slack && b.attempts >= 1 && 0 <= b.backoff
            && (b.perAttempt > 0 <==> Quo(Wrap(slack * 9), 10) > 0)
            && (slack >= 2 && slack * 9 <= MAX ==> b.perAttempt > 0)
  {
    DefaultsLeaveSlack(c);
    var d := WithDefaults(c);
    var slack := d.leaseTTL - d.leaseRenew;
    WrappedBudgetBelowSlack(slack);
    BudgetWithin(Quo(Wrap(slack * 9), 10));
  }

  lemma BudgetWithin(budget: int)
    ensures var backoff := if (RENEW_ATTEMPTS - 1) * RENEW_BACKOFF >= budget then Quo(Quo(budget, RENEW_ATTEMPTS), 2) else RENEW_BACKOFF;
            var perAttempt := Quo(budget - (RENEW_ATTEMPTS - 1) * backoff, RENEW_ATTEMPTS);
            && (perAttempt > 0 ==> budget > 0 && 0 <= backoff && 3 * perAttempt + 2 * backoff <= budget)
  {
  }

  // ------------------------------------------------------- the fence

  datatype Begin = Begun(ctx: nat) | Exit | Blocked(wake: nat)

  /** What others do to the fence during a renewal round: the data loop takes its
      next turn, or the parent context is cancelled. */
  datatype Act = Begins | ShutsDown

  /** Contexts and wakeup channels are numbered in order of creation. */
  class Fence {
    var parentDone: bool
    var paused: bool
    var lost: bool
    var current: int              // the context f.cancel would cancel, or -1
    var wakeup: nat
    var issued: nat               // contexts handed out so far
    var cancelled: set<nat>
    var channels: nat             // channels made so far
    var closed: set<nat>
    ghost var waiting: set<nat>   // channels captured by a begin that blocked

    /** The contexts under which data work may still run. */
    ghost function Running(): set<nat>
      reads this
    {
      set c | 0 <= c < issued && c !in cancelled && !parentDone
    }

    ghost predicate Valid()
      reads this
    {
      && -1 <= current < issued
      && wakeup < channels && wakeup !in closed
      && (forall c :: 0 <= c < issued && c !in cancelled ==> c == current && !paused && !lost)
      && (forall ch :: ch in waiting ==> ch in closed || (ch == wakeup && paused && !lost))
      && (forall ch :: ch in closed ==> ch < channels)
      && (forall c :: c in cancelled ==> c < issued)
    }

    constructor ()
      ensures Valid() && !paused && !lost && !parentDone && issued == 0 && waiting == {}
    {
      parentDone, paused, lost, current, wakeup, issued, cancelled, channels, closed, waiting :=
        false, false, false, -1, 0, 0, {}, 1, {}, {};
    }

    /** At most one context runs, and none while paused or lost. */
    lemma AtMostOneRuns()
      requires Valid()
      ensures forall c, d :: c in Running() && d in Running() ==> c == d
      ensures paused || lost ==> Running() == {}
    {
    }

    method Cancel()
      modifies this`cancelled
      ensures cancelled == if current >= 0 then old(cancelled) + {current as nat} else old(cancelled)
    {
      if current >= 0 {
        cancelled := cancelled + {current as nat};
      }
    }

    /** One turn of begin's loop: exit, a new data context in place of the last,
        or a wakeup channel to wait on. */
    method BeginOnce() returns (r: Begin)
      requires Valid()
      modifies this`current, this`issued, this`cancelled, this`waiting
      ensures Valid()
      ensures r.Exit? <==> lost || parentDone
      ensures r.Begun? <==> !lost && !parentDone && !paused
      ensures r.Begun? ==> r.ctx in Running() && Running() == {r.ctx}
      ensures r.Blocked? ==> r.wake !in closed
      ensures waiting == if r.Blocked? then old(waiting) + {r.wake} else old(waiting)
      ensures !r.Begun? ==> issued == old(issued) && cancelled == old(cancelled)
    {
      if lost || parentDone {
        return Exit;
      }
      if !paused {
        Cancel();
        current := issued;
        issued := issued + 1;
        return Begun(current as nat);
      }
      waiting := waiting + {wakeup};
      return Blocked(wakeup);
    }

    method Pause()
      requires Valid()
      modifies this`paused, this`cancelled
      ensures Valid() && (paused || lost) && Running() == {}
    {
      if paused || lost {
        return;
      }
      paused := true;
      Cancel();
    }

    /** Every begin blocked on a captured channel is released. */
    method Resume()
      requires Valid()
      modifies this`paused, this`wakeup, this`channels, this`closed
      ensures Valid() && waiting <= closed && old(closed) <= closed
      ensures paused <==> old(paused) && lost
    {
      if !paused || lost {
        return;
      }
      paused := false;
      CloseWakeup();
    }

    method Fail()
      requires Valid()
      modifies this`lost, this`cancelled, this`wakeup, this`channels, this`closed
      ensures Valid() && lost && Running() == {} && waiting <= closed && old(closed) <= closed
    {
      if lost {
        return;
      }
      lost := true;
      Cancel();
      CloseWakeup();
    }

    method CloseWakeup()
      modifies this`wakeup, this`channels, this`closed
      ensures closed == old(closed) + {old(wakeup)} && wakeup == old(channels) && channels == old(channels) + 1
    {
      closed := closed + {wakeup};
      wakeup, channels := channels, channels + 1;
    }

    /** The parent context is cancelled: every context under it ends, and every
        blocked begin wakes. */
    method ShutDown()
      requires Valid()
      modifies this`parentDone
      ensures Valid() && parentDone && Running() == {}
    {
      parentDone := true;
    }

    /** Any turns of the data loop, and a shutdown, in any order. While paused no
        turn starts work. */
    method Meanwhile(acts: seq<Act>)
      requires Valid()
      modifies this`parentDone, this`current, this`issued, this`cancelled, this`waiting
      ensures Valid() && (old(parentDone) ==> parentDone) && old(waiting) <= waiting
      ensures paused || lost || parentDone ==> Running() == {}
      ensures !paused || lost || old(parentDone) ==> waiting == old(waiting)
    {
      for i := 0 to |acts|
        invariant Valid() && (old(parentDone) ==> parentDone) && old(waiting) <= waiting
        invariant !paused || lost || old(parentDone) ==> waiting == old(waiting)
      {
        match acts[i]
        case Begins => var _ := BeginOnce();
        case ShutsDown => ShutDown();
      }
    }

    /** Every begin that blocked can go on. */
    ghost predicate Released()
      reads this
    {
      parentDone || waiting <= closed
    }

    /** One renewal round: `renews` and `took` say how each Renew call went, `acts`
        what the others did before and during it. A failed attempt pauses the data
        loop; the round resumes it, reports, or stops at a shutdown. */
    method RenewWithRetry(ttl: int, renew: int, renews: nat -> bool, took: nat -> int, acts: nat -> seq<Act>)
      returns (ok: bool, elapsed: int)
      requires Valid()
      requires forall k: nat :: took(k) <= Allowed(RenewBudget(ttl, renew))
      modifies this
      ensures Valid() && lost == old(lost) && (old(parentDone) ==> parentDone) && old(waiting) <= waiting
      ensures ok && !lost ==> !paused && Released()
      ensures !ok ==> Running() == {}
      ensures ok ==> exists k: nat :: k < RenewBudget(ttl, renew).attempts && renews(k)
      ensures !ok && !parentDone ==> forall k: nat :: k < RenewBudget(ttl, renew).attempts ==> !renews(k)
      ensures elapsed <= RoundTime(RenewBudget(ttl, renew))
    {
      BudgetSane(ttl, renew);
      var b := RenewBudget(ttl, renew);
      ok, elapsed := false, 0;
      var attempt: nat := 0;
      while attempt < b.attempts
        invariant Valid() && attempt <= b.attempts && !ok
        invariant lost == old(lost) && (old(parentDone) ==> parentDone) && old(waiting) <= waiting
        invariant attempt > 0 ==> paused || lost
        invariant forall k: nat :: k < attempt ==> !renews(k)
        invariant elapsed <= Spent(attempt, b)
      {
        Meanwhile(acts(2 * attempt));
        if attempt > 0 && parentDone {
          SpentWithin(attempt, b);
          return false, elapsed;
        }
        if attempt > 0 {
          elapsed := elapsed + b.backoff;
        }
        Meanwhile(acts(2 * attempt + 1));
        elapsed := elapsed + took(attempt);
        SpentGrows(attempt, b);
        if renews(attempt) {
          Resume();
          SpentWithin(attempt + 1, b);
          return true, elapsed;
        }
        Pause();
        attempt := attempt + 1;
      }
      SpentWithin(attempt, b);
    }

    /** One tick of the renew loop: the round ends with the data loop running
        again, a shutdown, or the lease declared lost, strictly within one TTL of the
        return of the last successful renew. A shutdown is no loss. */
    method Tick(c: Config, sinceLast: int, renews: nat -> bool, took: nat -> int, acts: nat -> seq<Act>) returns (elapsed: int)
      requires Valid() && Int64(c.leaseRenew) && Int64(c.leaseTTL)
      requires sinceLast <= WithDefaults(c).leaseRenew
      requires var d := WithDefaults(c); forall k: nat :: took(k) <= Allowed(RenewBudget(d.leaseTTL, d.leaseRenew))
      modifies this
      ensures Valid() && (old(lost) ==> lost) && (old(parentDone) ==> parentDone) && old(waiting) <= waiting
      ensures lost || parentDone || !paused
      ensures lost && !old(lost) ==> !parentDone && forall k: nat ::
                k < RenewBudget(WithDefaults(c).leaseTTL, WithDefaults(c).leaseRenew).attempts ==> !renews(k)
      ensures !old(lost) ==> Released()
      ensures sinceLast + elapsed < WithDefaults(c).leaseTTL
    {
      var d := WithDefaults(c);
      RoundFitsSlack(c);
      var ok: bool;
      ok, elapsed := RenewWithRetry(d.leaseTTL, d.leaseRenew, renews, took, acts);
      if !ok && !parentDone {
        Fail();
      }
    }

    /** The renew loop over any number of ticks. It ends early only at a shutdown or a
        loss, every round ended in time, and it never leaves the data loop paused
        with nobody to wake it. `acts(k, 0)` are the turns between two ticks. */
    method RenewLoop(c: Config, ticks: nat, since: nat -> int, renews: nat -> nat -> bool, took: nat -> nat -> int,
                     acts: nat -> nat -> seq<Act>) returns (rounds: seq<int>)
      requires Valid() && !paused && !lost && waiting <= closed && Int64(c.leaseRenew) && Int64(c.leaseTTL)
      requires forall k: nat :: since(k) <= WithDefaults(c).leaseRenew
      requires var d := WithDefaults(c); forall k: nat, n: nat :: took(k)(n) <= Allowed(RenewBudget(d.leaseTTL, d.leaseRenew))
      modifies this
      ensures Valid() && |rounds| <= ticks && (|rounds| < ticks ==> lost || parentDone)
      ensures forall k :: 0 <= k < |rounds| ==> since(k) + rounds[k] < WithDefaults(c).leaseTTL
      ensures paused ==> lost || parentDone
      ensures Released()
    {
      rounds := [];
      while |rounds| < ticks && !lost && !parentDone
        invariant Valid() && |rounds| <= ticks && Released() && (paused ==> lost || parentDone)
        invariant forall k :: 0 <= k < |rounds| ==> since(k) + rounds[k] < WithDefaults(c).leaseTTL
        decreases ticks - |rounds|
      {
        var k := |rounds|;
        Meanwhile(acts(k)(0));
        if parentDone {
          return;
        }
        var elapsed := Tick(c, since(k), renews(k), took(k), (n: nat) => acts(k)(n + 1));
        rounds := rounds + [elapsed];
      }
    }
  }

  lemma BudgetSane(ttl: int, renew: int)
    ensures var b := RenewBudget(ttl, renew); b.attempts >= 1 && b.backoff >= 0
  {
    var slack := ttl - renew;
    if slack > 0 {
      BudgetWithin(Quo(Wrap(slack * 9), 10));
    }
  }

  /** The longest that `n` attempts and the pauses between them may take. */
  function Spent(n: nat, b: Budget): int {
    if n == 0 then 0 else n * Allowed(b) + (n - 1) * b.backoff
  }

  lemma SpentGrows(n: nat, b: Budget)
    ensures Spent(n + 1, b) == Spent(n, b) + Allowed(b) + if n > 0 then b.backoff else 0
  {
    assert (n + 1) * Allowed(b) == n * Allowed(b) + Allowed(b);
    assert n * b.backoff == (n - 1) * b.backoff + b.backoff;
  }

  lemma SpentWithin(n: nat, b: Budget)
    requires 1 <= n <= b.attempts && b.backoff >= 0
    ensures Spent(n, b) <= RoundTime(b)
  {
    var k, most := b.attempts - n, Allowed(b);
    assert b.attempts * most == n * most + k * most;
    assert (b.attempts - 1) * b.backoff == (n - 1) * b.backoff + k * b.backoff;
    assert k * most >= 0 && k * b.backoff >= 0;
  }
}
