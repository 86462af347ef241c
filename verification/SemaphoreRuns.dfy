/** Runs of one semaphore, with the greenthreads that hold its units. */
module SemaphoreRuns {
  import opened Semaphores

  datatype Op =
    | Acquire(g: Greenlet, timed: bool)
    | TryAcquire(g: Greenlet)
    | Spurious(g: Greenlet)
    | Throw(g: Greenlet)
    | ReleaseBy(g: Greenlet)
    | Wake

  datatype State = State(sem: Sem, holders: multiset<Greenlet>)

  predicate Enabled(s: State, op: Op) {
    match op
    case Acquire(g, _) => g !in s.sem.waiters
    case TryAcquire(g) => g !in s.sem.waiters
    case Spurious(g) => g in s.sem.waiters
    case Throw(g) => g in s.sem.waiters
    case ReleaseBy(g) => g !in s.sem.waiters
    case Wake => s.sem.wakeups > 0
  }

  function Took(s: State, a: Attempt, g: Greenlet): State {
    State(a.sem, if a.outcome.Acquired? then s.holders + multiset{g} else s.holders)
  }

  function Step(kind: Kind, s: State, op: Op): State
    requires Enabled(s, op)
  {
    match op
    case Acquire(g, timed) => Took(s, AcquireStart(s.sem, g, timed), g)
    case TryAcquire(g) => Took(s, AcquireNow(s.sem, g), g)
    case Spurious(g) => Took(s, Resumed(s.sem, g), g)
    case Throw(g) => s.(sem := Thrown(s.sem, g))
    case ReleaseBy(g) =>
      if MayRelease(kind, s.sem) then State(Release(s.sem), s.holders - multiset{g}) else s
    case Wake => State(DoAcquire(s.sem), if WakesOne(s.sem) then s.holders + multiset{s.sem.waiters[0]} else s.holders)
  }

  ghost predicate Inv(kind: Kind, s: State) {
    && s.sem.counter >= 0 && Awake(s.sem) && NoDuplicates(s.sem.waiters)
    && (kind.Bounded? ==> s.sem.counter <= kind.limit)
  }

  lemma StepKeepsInv(kind: Kind, s: State, op: Op)
    requires Inv(kind, s) && Enabled(s, op)
    ensures Inv(kind, Step(kind, s, op))
  {
    match op
    case Spurious(g) => WithoutOne(s.sem.waiters, g);
    case Throw(g) => WithoutOne(s.sem.waiters, g);
    case Wake => if WakesOne(s.sem) { WithoutOne(s.sem.waiters[1..], s.sem.waiters[0]); }
    case _ =>
  }

  /** Whoever has to wait comes last, and the first one is woken first; the others keep their order when one of them
      leaves. */
  lemma WaitersInOrder(kind: Kind, s: State, op: Op)
    requires Inv(kind, s) && Enabled(s, op)
    ensures var q, q' := s.sem.waiters, Step(kind, s, op).sem.waiters;
      match op
      case Acquire(g, timed) => q' == if s.sem.counter > 0 && (timed || q == []) then q else q + [g]
      case Wake => q' == if s.sem.counter > 0 && q != [] then q[1..] else q
      case Spurious(g) => if s.sem.counter > 0 then LeavesOut(q, q', g) else q' == q
      case Throw(g) => LeavesOut(q, q', g)
      case _ => q' == q
  {
    match op
    case Spurious(g) => var _ := WithoutFirst(s.sem.waiters, g);
    case Throw(g) => var _ := WithoutFirst(s.sem.waiters, g);
    case _ =>
  }

  ghost predicate LeavesOut(q: seq<Greenlet>, q': seq<Greenlet>, g: Greenlet) {
    exists i :: 0 <= i < |q| && q[i] == g && q' == q[..i] + q[i + 1..]
  }

  /** Who holds a unit after a step. */
  lemma HoldersAfter(kind: Kind, s: State, op: Op)
    requires Inv(kind, s) && Enabled(s, op)
    ensures var free := s.sem.counter > 0;
      Step(kind, s, op).holders == match op
        case Acquire(g, timed) => if free && (timed || s.sem.waiters == []) then s.holders + multiset{g} else s.holders
        case TryAcquire(g) => if free then s.holders + multiset{g} else s.holders
        case Spurious(g) => if free then s.holders + multiset{g} else s.holders
        case Wake => if free && s.sem.waiters != [] then s.holders + multiset{s.sem.waiters[0]} else s.holders
        case Throw(_) => s.holders
        case ReleaseBy(g) =>
          if kind.Bounded? && s.sem.counter >= kind.limit then s.holders else s.holders - multiset{g}
  {
  }

  ghost predicate Legal(kind: Kind, s: State, ops: seq<Op>)
    decreases |ops|
  {
    ops == [] || (Enabled(s, ops[0]) && Legal(kind, Step(kind, s, ops[0]), ops[1..]))
  }

  ghost function Run(kind: Kind, s: State, ops: seq<Op>): State
    requires Legal(kind, s, ops)
    decreases |ops|
  {
    if ops == [] then s else Run(kind, Step(kind, s, ops[0]), ops[1..])
  }

  /** In every run, with any timeouts, kills and stray switches and whoever releases: the counter stays
      non-negative (and within the limit), and making the scheduled calls serves the waiters in order until
      the units or the waiters run out. */
  lemma {:induction false} EveryRun(kind: Kind, s: State, ops: seq<Op>)
    requires Inv(kind, s) && Legal(kind, s, ops)
    ensures var r := Run(kind, s, ops).sem;
      && r.counter >= 0 && (kind.Bounded? ==> r.counter <= kind.limit)
      && (r.waiters != [] && r.counter > 0 ==> r.wakeups > 0)
      && (var n := if r.counter <= |r.waiters| then r.counter else |r.waiters|;
          DoAll(r) == Sem(r.counter - n, r.waiters[n..], 0))
    decreases |ops|
  {
    if ops == [] {
      WakeupsSuffice(s.sem);
    } else {
      StepKeepsInv(kind, s, ops[0]);
      EveryRun(kind, Step(kind, s, ops[0]), ops[1..]);
    }
  }

  ghost predicate HoldersRelease(kind: Kind, s: State, ops: seq<Op>)
    requires Legal(kind, s, ops)
    decreases |ops|
  {
    ops == [] ||
    ((ops[0].ReleaseBy? ==> ops[0].g in s.holders) && HoldersRelease(kind, Step(kind, s, ops[0]), ops[1..]))
  }

  /** If only holders release, free units and holders always add up to the initial value. */
  lemma {:induction false} UnitsConserved(kind: Kind, s: State, ops: seq<Op>)
    requires Legal(kind, s, ops) && HoldersRelease(kind, s, ops)
    ensures var r := Run(kind, s, ops); r.sem.counter + |r.holders| == s.sem.counter + |s.holders|
    decreases |ops|
  {
    if ops != [] {
      UnitsConserved(kind, Step(kind, s, ops[0]), ops[1..]);
    }
  }
}
