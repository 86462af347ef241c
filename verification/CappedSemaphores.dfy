/** `CappedSemaphore`: two semaphores, each operation releasing one and then acquiring the other. */
module CappedSemaphores {
  import opened S = Semaphores

  /** `lower` is what `acquire` takes from, `upper` what `release` takes from. */
  datatype Capped = Capped(lower: Sem, upper: Sem)

  datatype Op =
    | Acquire(g: Greenlet, blocking: bool)
    | Release(g: Greenlet, blocking: bool)
    | ThrowAcquire(g: Greenlet)
    | ThrowRelease(g: Greenlet)
    | SpuriousAcquire(g: Greenlet)
    | SpuriousRelease(g: Greenlet)
    | WakeLower
    | WakeUpper

  datatype Attempted = Attempted(capped: Capped, outcome: Outcome)

  function Init(count: nat, limit: nat): Capped
    requires count <= limit
  {
    Capped(Sem(count, [], 0), Sem(limit - count, [], 0))
  }

  /** Exchanges the roles of the two semaphores, and so of `acquire` and `release`. */
  function Flip(c: Capped): Capped {
    Capped(c.upper, c.lower)
  }

  function AcquireCapped(c: Capped, g: Greenlet, blocking: bool): Attempted {
    if !blocking && Locked(c.lower) then Attempted(c, Refused)
    else
      var a := AcquireStart(c.lower, g, false);
      Attempted(Capped(a.sem, S.Release(c.upper)), a.outcome)
  }

  /** The handler of `acquire` takes back its half of the operation. */
  function ThrownCapped(c: Capped, g: Greenlet): Capped {
    Capped(Thrown(c.lower, g), c.upper.(counter := c.upper.counter - 1))
  }

  predicate Idle(c: Capped, g: Greenlet) {
    g !in c.lower.waiters && g !in c.upper.waiters
  }

  predicate Enabled(c: Capped, op: Op) {
    match op
    case Acquire(g, _) => Idle(c, g)
    case Release(g, _) => Idle(c, g)
    case ThrowAcquire(g) => g in c.lower.waiters
    case ThrowRelease(g) => g in c.upper.waiters
    case SpuriousAcquire(g) => g in c.lower.waiters
    case SpuriousRelease(g) => g in c.upper.waiters
    case WakeLower => c.lower.wakeups > 0
    case WakeUpper => c.upper.wakeups > 0
  }

  function Step(c: Capped, op: Op): Capped
    requires Enabled(c, op)
  {
    match op
    case Acquire(g, blocking) => AcquireCapped(c, g, blocking).capped
    case Release(g, blocking) => Flip(AcquireCapped(Flip(c), g, blocking).capped)
    case ThrowAcquire(g) => ThrownCapped(c, g)
    case ThrowRelease(g) => Flip(ThrownCapped(Flip(c), g))
    case SpuriousAcquire(g) => c.(lower := Resumed(c.lower, g).sem)
    case SpuriousRelease(g) => c.(upper := Resumed(c.upper, g).sem)
    case WakeLower => c.(lower := DoAcquire(c.lower))
    case WakeUpper => c.(upper := DoAcquire(c.upper))
  }

  /** The operations that have done their first half only. */
  function InFlight(c: Capped): nat {
    |c.lower.waiters| + |c.upper.waiters|
  }

  ghost predicate Inv(c: Capped, limit: int) {
    && c.lower.counter + c.upper.counter == limit + InFlight(c)
    && Awake(c.lower) && Awake(c.upper)
    && NoDuplicates(c.lower.waiters) && NoDuplicates(c.upper.waiters)
  }

  lemma StepKeepsInv(c: Capped, limit: int, op: Op)
    requires Inv(c, limit) && Enabled(c, op)
    ensures Inv(Step(c, op), limit)
  {
    match op
    case ThrowAcquire(g) => WithoutOne(c.lower.waiters, g);
    case ThrowRelease(g) => WithoutOne(c.upper.waiters, g);
    case SpuriousAcquire(g) => WithoutOne(c.lower.waiters, g);
    case SpuriousRelease(g) => WithoutOne(c.upper.waiters, g);
    case WakeLower => if WakesOne(c.lower) { WithoutOne(c.lower.waiters[1..], c.lower.waiters[0]); }
    case WakeUpper => if WakesOne(c.upper) { WithoutOne(c.upper.waiters[1..], c.upper.waiters[0]); }
    case _ =>
  }

  ghost predicate Legal(c: Capped, ops: seq<Op>)
    decreases |ops|
  {
    ops == [] || (Enabled(c, ops[0]) && Legal(Step(c, ops[0]), ops[1..]))
  }

  ghost function Run(c: Capped, ops: seq<Op>): Capped
    requires Legal(c, ops)
    decreases |ops|
  {
    if ops == [] then c else Run(Step(c, ops[0]), ops[1..])
  }

  lemma {:induction false} RunKeepsInv(c: Capped, limit: int, ops: seq<Op>)
    requires Inv(c, limit) && Legal(c, ops)
    ensures Inv(Run(c, ops), limit)
    decreases |ops|
  {
    if ops != [] {
      StepKeepsInv(c, limit, ops[0]);
      RunKeepsInv(Step(c, ops[0]), limit, ops[1..]);
    }
  }

  /** In every run the two counters add up to the limit plus the operations in flight, also after rollbacks, and
      neither side ever has a waiter beside a free unit with no wake-up under way. */
  lemma Conserved(count: nat, limit: nat, ops: seq<Op>)
    requires count <= limit && Legal(Init(count, limit), ops)
    ensures var c := Run(Init(count, limit), ops);
      && c.lower.counter + c.upper.counter == limit + InFlight(c)
      && Balance(c.lower) + Balance(c.upper) == limit
      && (c.lower.waiters != [] && c.lower.counter > 0 ==> c.lower.wakeups > 0)
      && (c.upper.waiters != [] && c.upper.counter > 0 ==> c.upper.wakeups > 0)
  {
    RunKeepsInv(Init(count, limit), limit, ops);
  }

  /** `acquire(blocking=False)` is documented never to block. It does exactly when a unit is free while others
      are still queued for it. */
  lemma NonBlockingAcquireBlocks(c: Capped, g: Greenlet)
    ensures AcquireCapped(c, g, false).outcome.Blocked? <==> c.lower.counter > 0 && c.lower.waiters != []
  {
  }

  /** Such a state is reached: one greenthread blocks in `acquire`, another releases, a third one tries. */
  lemma NonBlockingAcquireBlocksInRun()
    ensures var ops := [Op.Acquire(1, true), Op.Release(2, true)];
      Legal(Init(0, 1), ops) && AcquireCapped(Run(Init(0, 1), ops), 3, false).outcome.Blocked?
  {
    var s0 := Init(0, 1);
    var s1 := Step(s0, Op.Acquire(1, true));
    assert [Op.Acquire(1, true), Op.Release(2, true)][1..] == [Op.Release(2, true)];
    assert s1 == Capped(Sem(0, [1], 0), Sem(2, [], 0));
    var s2 := Step(s1, Op.Release(2, true));
    assert s2 == Capped(Sem(1, [1], 1), Sem(1, [], 0));
    assert Run(s1, [Op.Release(2, true)]) == s2;
  }

  class CappedSemaphore {
    const lower: Semaphore
    const upper: Semaphore

    ghost predicate Valid()
      reads this
    {
      lower != upper && lower.kind == Plain && upper.kind == Plain
    }

    function State(): Capped
      reads this, lower, upper
    {
      Capped(lower.State(), upper.State())
    }

    constructor (count: nat, limit: nat)
      requires count <= limit
      ensures Valid() && fresh(lower) && fresh(upper) && State() == Init(count, limit)
    {
      lower := new Semaphore(Plain, count);
      upper := new Semaphore(Plain, limit - count);
    }

    method AcquireUnit(g: Greenlet, blocking: bool) returns (r: Outcome)
      requires Valid() && Idle(State(), g)
      modifies lower, upper
      ensures Attempted(State(), r) == AcquireCapped(old(State()), g, blocking)
      ensures r.Refused? <==> !blocking && old(lower.counter) <= 0
      ensures r.Acquired? <==> old(lower.counter) > 0 && old(lower.waiters) == []
      ensures lower.counter == old(lower.counter) - (if r.Acquired? then 1 else 0)
      ensures lower.waiters == old(lower.waiters) + (if r.Blocked? then [g] else [])
      ensures upper.counter == old(upper.counter) + (if r.Refused? then 0 else 1) && upper.waiters == old(upper.waiters)
    {
      if !blocking && lower.counter <= 0 {
        return Refused;
      }
      var _ := upper.ReleaseUnit();
      r := lower.Acquire(g, false);
    }

    method ReleaseUnit(g: Greenlet, blocking: bool) returns (r: Outcome)
      requires Valid() && Idle(State(), g)
      modifies lower, upper
      ensures Attempted(Flip(State()), r) == AcquireCapped(Flip(old(State())), g, blocking)
      ensures r.Refused? <==> !blocking && old(upper.counter) <= 0
      ensures r.Acquired? <==> old(upper.counter) > 0 && old(upper.waiters) == []
      ensures upper.counter == old(upper.counter) - (if r.Acquired? then 1 else 0)
      ensures upper.waiters == old(upper.waiters) + (if r.Blocked? then [g] else [])
      ensures lower.counter == old(lower.counter) + (if r.Refused? then 0 else 1) && lower.waiters == old(lower.waiters)
    {
      if !blocking && upper.counter <= 0 {
        return Refused;
      }
      var _ := lower.ReleaseUnit();
      r := upper.Acquire(g, false);
    }

    method ThrowAcquire(g: Greenlet)
      requires Valid() && g in lower.waiters
      modifies lower, upper
      ensures State() == ThrownCapped(old(State()), g)
      ensures lower.counter == old(lower.counter) && upper.counter == old(upper.counter) - 1
      ensures upper.waiters == old(upper.waiters)
    {
      lower.Throw(g);
      upper.counter := upper.counter - 1;
    }

    method ThrowRelease(g: Greenlet)
      requires Valid() && g in upper.waiters
      modifies lower, upper
      ensures State() == Flip(ThrownCapped(Flip(old(State())), g))
      ensures upper.counter == old(upper.counter) && lower.counter == old(lower.counter) - 1
      ensures lower.waiters == old(lower.waiters)
    {
      upper.Throw(g);
      lower.counter := lower.counter - 1;
    }
  }
}
