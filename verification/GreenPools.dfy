/** `GreenPool`: a semaphore bounds the greenthreads running, an event reports that none is left. */
module GreenPools {
  import opened Semaphores

  /** `sent` and `onEvent` are the state and the waiters of `no_coros_running`; `released` are the `waitall`
      callers whose event has been sent since they called, `stranded` those whose event was replaced before it was
      sent. The greenthreads blocked in `spawn` are the waiters of `sem`. */
  datatype Pool = Pool(size: int, sem: Sem, running: set<Greenlet>, sent: bool, onEvent: set<Greenlet>,
                       released: set<Greenlet>, stranded: set<Greenlet>)

  datatype Op =
    | Spawn(caller: Greenlet, child: Greenlet)
    | WakeSpawner(child: Greenlet)
    | SpuriousSpawner(caller: Greenlet, child: Greenlet)
    | ThrowSpawner(caller: Greenlet)
    | Done(child: Greenlet)
    | Resize(size: int)
    | WaitAll(caller: Greenlet)
    | ThrowWaiter(caller: Greenlet)

  datatype SpawnResult = Inline | Spawned | Waiting

  function Init(size: nat): Pool {
    Pool(size, Sem(size, [], 0), {}, false, {}, {}, {})
  }

  /** `spawn` after its `acquire`. */
  function Started(p: Pool, child: Greenlet): Pool {
    if p.running == {} then
      p.(running := {child}, sent := false, onEvent := {},
         stranded := p.stranded + if p.sent then {} else p.onEvent)
    else p.(running := p.running + {child})
  }

  function Took(p: Pool, a: Attempt, child: Greenlet): Pool {
    if a.outcome.Acquired? then Started(p.(sem := a.sem), child) else p.(sem := a.sem)
  }

  /** A greenthread of a full pool runs the function itself instead of spawning it. */
  predicate RunsInline(p: Pool, caller: Greenlet) {
    Locked(p.sem) && caller in p.running
  }

  function SpawnBy(p: Pool, caller: Greenlet, child: Greenlet): Pool {
    if RunsInline(p, caller) then p else Took(p, AcquireStart(p.sem, caller, false), child)
  }

  /** `Event.send` */
  function Sent(p: Pool): Pool {
    p.(sent := true, released := p.released + p.onEvent, onEvent := {})
  }

  function Waits(p: Pool, g: Greenlet): Pool {
    p.(onEvent := p.onEvent + {g}, released := p.released - {g})
  }

  function SpawnDone(p: Pool, child: Greenlet): Pool {
    var q := p.(sem := Release(p.sem), running := p.running - {child});
    if Balance(q.sem) == q.size then Sent(q) else q
  }

  /** Blocked in `spawn` or in `waitall`. */
  predicate Suspended(p: Pool, g: Greenlet) {
    g in p.sem.waiters || g in p.onEvent || g in p.stranded
  }

  predicate Enabled(p: Pool, op: Op) {
    match op
    case Spawn(g, child) => !Suspended(p, g) && child !in p.running
    case WakeSpawner(child) => p.sem.wakeups > 0 && child !in p.running
    case SpuriousSpawner(g, child) => g in p.sem.waiters && child !in p.running
    case ThrowSpawner(g) => g in p.sem.waiters
    case Done(child) => child in p.running
    case Resize(_) => true
    case WaitAll(g) => !Suspended(p, g) && g !in p.running
    case ThrowWaiter(g) => g in p.onEvent || g in p.stranded
  }

  function Step(p: Pool, op: Op): Pool
    requires Enabled(p, op)
  {
    match op
    case Spawn(g, child) => SpawnBy(p, g, child)
    case WakeSpawner(child) =>
      var q := p.(sem := DoAcquire(p.sem));
      if WakesOne(p.sem) then Started(q, child) else q
    case SpuriousSpawner(g, child) => Took(p, Resumed(p.sem, g), child)
    case ThrowSpawner(g) => p.(sem := Thrown(p.sem, g))
    case Done(child) => SpawnDone(p, child)
    case Resize(n) => p.(sem := p.sem.(counter := p.sem.counter + (n - p.size)), size := n)
    case WaitAll(g) => if p.running != {} then Waits(p, g) else p
    case ThrowWaiter(g) => p.(onEvent := p.onEvent - {g}, stranded := p.stranded - {g})
  }

  /** The free units and the greenthreads running add up to the size, and the event is unsent while any runs. */
  ghost predicate Inv(p: Pool) {
    && p.sem.counter + |p.running| == p.size
    && (p.running != {} ==> !p.sent)
    && (p.sent ==> p.onEvent == {})
    && NoDuplicates(p.sem.waiters)
    && p.onEvent !! p.stranded && p.released !! p.onEvent + p.stranded
  }

  /** What `spawn` comes to: the function is run at once by a greenthread of a full pool, a greenthread is started if a
      unit is free and nobody waits, and otherwise the caller waits, behind all others. */
  lemma SpawnDoes(p: Pool, caller: Greenlet, child: Greenlet)
    requires Enabled(p, Spawn(caller, child))
    ensures var q := Step(p, Spawn(caller, child));
      if p.sem.counter <= 0 && caller in p.running then q == p
      else if p.sem.counter > 0 && p.sem.waiters == [] then
        && q.running == p.running + {child} && q.sem == p.sem.(counter := p.sem.counter - 1)
        && (p.running == {} ==> !q.sent && q.onEvent == {})
        && (p.running != {} ==> q.sent == p.sent && q.onEvent == p.onEvent)
      else q == p.(sem := p.sem.(waiters := p.sem.waiters + [caller]))
  {
  }

  /** A wake-up starts the greenthread of the first spawner that waits, if a unit is free. */
  lemma WakeDoes(p: Pool, child: Greenlet)
    requires Inv(p) && Enabled(p, WakeSpawner(child))
    ensures var q := Step(p, WakeSpawner(child));
      && q.sem.wakeups == p.sem.wakeups - 1
      && if p.sem.waiters != [] && p.sem.counter > 0 then
           && q.running == p.running + {child} && q.sem.counter == p.sem.counter - 1
           && q.sem.waiters == p.sem.waiters[1..]
         else q == p.(sem := p.sem.(wakeups := p.sem.wakeups - 1))
  {
    if p.sem.waiters != [] && p.sem.counter > 0 {
      assert p.sem.waiters[0] !in p.sem.waiters[1..];
    }
  }

  /** A spawner that has acquired a unit, but not yet started its greenthread, holds the accounts one short. */
  lemma StartedKeepsInv(p: Pool, child: Greenlet)
    requires p.sem.counter + |p.running| + 1 == p.size && child !in p.running
    requires (p.running != {} ==> !p.sent) && (p.sent ==> p.onEvent == {}) && NoDuplicates(p.sem.waiters)
    requires p.onEvent !! p.stranded && p.released !! p.onEvent + p.stranded
    ensures Inv(Started(p, child))
  {
    assert |p.running + {child}| == |p.running| + 1;
  }

  lemma WakeKeepsInv(p: Pool, child: Greenlet)
    requires Inv(p) && Enabled(p, WakeSpawner(child))
    ensures Inv(Step(p, WakeSpawner(child)))
  {
    if WakesOne(p.sem) {
      var rest := p.sem.waiters[1..];
      assert p.sem.waiters[0] !in rest && Without(rest, p.sem.waiters[0]) == rest;
      StartedKeepsInv(p.(sem := DoAcquire(p.sem)), child);
    }
  }

  lemma DoneKeepsInv(p: Pool, child: Greenlet)
    requires Inv(p) && child in p.running
    ensures Inv(SpawnDone(p, child))
  {
    var rest := p.running - {child};
    assert |p.running| == |rest| + 1;
    if Balance(Release(p.sem)) == p.size {
      assert |rest| == 0;
    }
  }

  lemma StepKeepsInv(p: Pool, op: Op)
    requires Inv(p) && Enabled(p, op)
    ensures Inv(Step(p, op))
  {
    match op
    case Spawn(g, child) =>
      if AcquireStart(p.sem, g, false).outcome.Acquired? {
        StartedKeepsInv(p.(sem := AcquireStart(p.sem, g, false).sem), child);
      }
    case SpuriousSpawner(g, child) =>
      WithoutOne(p.sem.waiters, g);
      if p.sem.counter > 0 {
        StartedKeepsInv(p.(sem := Resumed(p.sem, g).sem), child);
      }
    case ThrowSpawner(g) => WithoutOne(p.sem.waiters, g);
    case WakeSpawner(child) => WakeKeepsInv(p, child);
    case Done(child) => DoneKeepsInv(p, child);
    case _ =>
  }

  ghost predicate Legal(p: Pool, ops: seq<Op>)
    decreases |ops|
  {
    ops == [] || (Enabled(p, ops[0]) && Legal(Step(p, ops[0]), ops[1..]))
  }

  ghost function Run(p: Pool, ops: seq<Op>): Pool
    requires Legal(p, ops)
    decreases |ops|
  {
    if ops == [] then p else Run(Step(p, ops[0]), ops[1..])
  }

  lemma {:induction false} RunKeepsInv(p: Pool, ops: seq<Op>)
    requires Inv(p) && Legal(p, ops)
    ensures Inv(Run(p, ops))
    decreases |ops|
  {
    if ops != [] {
      StepKeepsInv(p, ops[0]);
      RunKeepsInv(Step(p, ops[0]), ops[1..]);
    }
  }

  /** At every switch of every run, resizes and kills included, the accounts hold; the event is unsent whenever a
      greenthread can finish, so that `Event.send` never finds it sent. */
  lemma Accounts(size: nat, ops: seq<Op>)
    requires Legal(Init(size), ops)
    ensures var p := Run(Init(size), ops);
      p.sem.counter + |p.running| == p.size && forall child :: Enabled(p, Done(child)) ==> !p.sent
  {
    RunKeepsInv(Init(size), ops);
  }

  /** `_spawn_done` sends the event exactly if now nothing runs and nobody is blocked in `spawn`. */
  lemma DoneSends(p: Pool, child: Greenlet)
    requires Inv(p) && child in p.running
    ensures !p.sent
    ensures SpawnDone(p, child).sent <==> p.running == {child} && p.sem.waiters == []
  {
    assert p.running == (p.running - {child}) + {child};
    if p.running != {child} {
      var other :| other in p.running && other != child;
      assert other in p.running - {child};
    }
  }

  // --- `waitall` ---

  /** So `waitall` callers are released when the pool empties, except if a spawner is blocked at that moment. */
  lemma LastDoneReleases(p: Pool, child: Greenlet)
    requires Inv(p) && p.running == {child}
    ensures var q := SpawnDone(p, child);
      if p.sem.waiters == [] then q.onEvent == {} && p.onEvent <= q.released
      else q.onEvent == p.onEvent && q.released == p.released
  {
    DoneSends(p, child);
  }

  predicate IsSpawner(op: Op) {
    op.Spawn? || op.WakeSpawner? || op.SpuriousSpawner?
  }

  lemma StartStrands(p: Pool, op: Op)
    requires Inv(p) && Enabled(p, op) && IsSpawner(op)
    ensures Step(p, op).stranded ==
      if p.running == {} && Step(p, op).running != {} then p.stranded + p.onEvent else p.stranded
  {
  }

  lemma OtherStrands(p: Pool, op: Op)
    requires Inv(p) && Enabled(p, op) && !IsSpawner(op)
    ensures p.running == {} ==> Step(p, op).running == {}
    ensures Step(p, op).stranded == if op.ThrowWaiter? then p.stranded - {op.caller} else p.stranded
  {
  }

  /** A step strands `waitall` callers exactly if it starts a greenthread in an empty pool whose event, unsent,
      has them as waiters. */
  lemma Strands(p: Pool, op: Op)
    requires Inv(p) && Enabled(p, op)
    ensures Step(p, op).stranded ==
      if p.running == {} && Step(p, op).running != {} then p.stranded + p.onEvent
      else if op.ThrowWaiter? then p.stranded - {op.caller}
      else p.stranded
  {
    if IsSpawner(op) {
      StartStrands(p, op);
    } else {
      OtherStrands(p, op);
    }
  }

  /** The callers of `waitall` that nothing is going to wake: nothing runs that could send their event, or another
      event has taken its place. */
  function Forgotten(p: Pool): set<Greenlet> {
    p.stranded + if p.running == {} then p.onEvent else {}
  }

  /** The last greenthread ends while a spawner is blocked and somebody waits for the pool to run empty. */
  predicate EmptiesBesideSpawner(p: Pool, op: Op) {
    op.Done? && p.running == {op.child} && p.sem.waiters != [] && p.onEvent != {}
  }

  /** That forgets exactly the callers of `waitall`, and no other step forgets anybody. */
  lemma StepForgets(p: Pool, op: Op)
    requires Inv(p) && Enabled(p, op)
    ensures Forgotten(Step(p, op)) ==
      if EmptiesBesideSpawner(p, op) then Forgotten(p) + p.onEvent
      else if op.ThrowWaiter? then Forgotten(p) - {op.caller}
      else Forgotten(p)
  {
    Strands(p, op);
    if op.Done? {
      DoneForgets(p, op.child);
    } else {
      EventKept(p, op);
    }
  }

  lemma DoneForgets(p: Pool, child: Greenlet)
    requires Inv(p) && child in p.running
    ensures Forgotten(SpawnDone(p, child)) ==
      Forgotten(p) + if EmptiesBesideSpawner(p, Done(child)) then p.onEvent else {}
  {
    DoneSends(p, child);
    assert p.running == {child} <==> p.running - {child} == {};
  }

  /** Who waits for the event, unless the pool begins to run or a greenthread ends. */
  lemma EventKept(p: Pool, op: Op)
    requires Inv(p) && Enabled(p, op) && !op.Done?
    ensures var q := Step(p, op);
      && (q.running == {} ==> q.onEvent == if op.ThrowWaiter? then p.onEvent - {op.caller} else p.onEvent)
      && (p.running != {} ==> q.running != {})
  {
  }

  /** Whoever has been forgotten remains so, and is never released, as long as nothing is thrown into it. */
  lemma {:induction false} ForgottenForEver(p: Pool, ops: seq<Op>, g: Greenlet)
    requires Inv(p) && Legal(p, ops) && g in Forgotten(p)
    requires forall i :: 0 <= i < |ops| && ops[i].ThrowWaiter? ==> ops[i].caller != g
    ensures Inv(Run(p, ops)) && g in Forgotten(Run(p, ops)) && g !in Run(p, ops).released
    decreases |ops|
  {
    if ops != [] {
      StepKeepsInv(p, ops[0]);
      StepForgets(p, ops[0]);
      ForgottenForEver(Step(p, ops[0]), ops[1..], g);
    }
  }

  /** Nobody is forgotten at any time in the run. */
  ghost predicate NobodyForgotten(p: Pool, ops: seq<Op>)
    requires Legal(p, ops)
    decreases |ops|
  {
    Forgotten(p) == {} && (ops == [] || NobodyForgotten(Step(p, ops[0]), ops[1..]))
  }

  ghost predicate NeverEmptiesBesideSpawner(p: Pool, ops: seq<Op>)
    requires Legal(p, ops)
    decreases |ops|
  {
    ops == [] || (!EmptiesBesideSpawner(p, ops[0]) && NeverEmptiesBesideSpawner(Step(p, ops[0]), ops[1..]))
  }

  /** `waitall` forgets none of its callers in a run, exactly if the pool never runs empty while a spawner is blocked
      and somebody waits in `waitall`. */
  lemma {:induction false} WaitAllReturns(p: Pool, ops: seq<Op>)
    requires Inv(p) && Forgotten(p) == {} && Legal(p, ops)
    ensures NobodyForgotten(p, ops) <==> NeverEmptiesBesideSpawner(p, ops)
    decreases |ops|
  {
    if ops != [] {
      StepKeepsInv(p, ops[0]);
      StepForgets(p, ops[0]);
      if EmptiesBesideSpawner(p, ops[0]) {
        assert Forgotten(Step(p, ops[0])) != {};
      } else {
        WaitAllReturns(Step(p, ops[0]), ops[1..]);
      }
    }
  }

  /** A pool of size 1 whose only greenthread has ended while 9 is blocked in `spawn` and 8 in `waitall`. */
  const HANGING := Pool(1, Sem(1, [9], 1), {}, false, {8}, {}, {})

  lemma LeadsToHanging()
    ensures var ops := [Spawn(9, 1), Spawn(9, 2)] + [WaitAll(8), Done(1)];
      Legal(Init(1), ops) && Run(Init(1), ops) == HANGING
  {
    var p1 := Pool(1, Sem(0, [], 0), {1}, false, {}, {}, {});
    var p2 := p1.(sem := Sem(0, [9], 0));
    var p3 := p2.(onEvent := {8});
    assert Step(Init(1), Spawn(9, 1)) == p1;
    assert Step(p1, Spawn(9, 2)) == p2;
    assert Step(p2, WaitAll(8)) == p3;
    assert Step(p3, Done(1)) == HANGING;
    RunTwo(p2, WaitAll(8), Done(1));
    RunTwo(Init(1), Spawn(9, 1), Spawn(9, 2));
    RunAppend(Init(1), [Spawn(9, 1), Spawn(9, 2)], [WaitAll(8), Done(1)]);
  }

  /** With a spawner blocked it may: then 9 spawns 2, and 2 ends. */
  lemma WaitAllMayHang()
    ensures var ops := [Spawn(9, 1), Spawn(9, 2)] + [WaitAll(8), Done(1)] + [WakeSpawner(2), Done(2)];
      Legal(Init(1), ops) && var p := Run(Init(1), ops);
      p.running == {} && p.sem.waiters == [] && 8 in p.stranded && 8 !in p.released
  {
    var p5 := HANGING.(sem := Sem(0, [], 0), running := {2}, onEvent := {}, stranded := {8});
    var p6 := p5.(sem := Sem(1, [], 0), running := {}, sent := true);
    assert Step(HANGING, WakeSpawner(2)) == p5;
    assert Step(p5, Done(2)) == p6;
    RunTwo(HANGING, WakeSpawner(2), Done(2));
    LeadsToHanging();
    RunAppend(Init(1), [Spawn(9, 1), Spawn(9, 2)] + [WaitAll(8), Done(1)], [WakeSpawner(2), Done(2)]);
  }

  lemma RunTwo(p: Pool, a: Op, b: Op)
    requires Enabled(p, a) && Enabled(Step(p, a), b)
    ensures Legal(p, [a, b]) && Run(p, [a, b]) == Step(Step(p, a), b)
  {
    assert [a, b][1..] == [b] && [b][1..] == [];
    var q := Step(p, a);
    assert Run(Step(q, b), []) == Step(q, b);
    assert Run(q, [b]) == Run(Step(q, b), [b][1..]);
    assert Run(p, [a, b]) == Run(q, [a, b][1..]);
  }

  lemma {:induction false} RunAppend(p: Pool, xs: seq<Op>, ys: seq<Op>)
    requires Legal(p, xs) && Legal(Run(p, xs), ys)
    ensures Legal(p, xs + ys) && Run(p, xs + ys) == Run(Run(p, xs), ys)
    decreases |xs|
  {
    if xs == [] {
      assert xs + ys == ys;
    } else {
      RunAppend(Step(p, xs[0]), xs[1..], ys);
      assert (xs + ys)[1..] == xs[1..] + ys;
    }
  }

  // --- `resize` ---

  /** Every step but `resize` keeps a wake-up under way for every unit that a blocked spawner could have;
      `resize` does exactly if nobody is blocked or the units it leaves free are covered already. */
  lemma StepKeepsAwake(p: Pool, op: Op)
    requires Awake(p.sem) && NoDuplicates(p.sem.waiters) && Enabled(p, op)
    ensures Awake(Step(p, op).sem) <==>
      (op.Resize? ==> p.sem.waiters == [] || op.size - p.size <= p.sem.wakeups - p.sem.counter)
  {
    match op
    case SpuriousSpawner(g, _) => WithoutOne(p.sem.waiters, g);
    case ThrowSpawner(g) => WithoutOne(p.sem.waiters, g);
    case WakeSpawner(_) => if WakesOne(p.sem) { WithoutOne(p.sem.waiters[1..], p.sem.waiters[0]); }
    case _ =>
  }

  /** Growing a pool of size 0 on which a spawner waits leaves it waiting beside a free slot. */
  lemma ResizeMayForgetSpawner()
    ensures var ops := [Spawn(9, 1), Resize(1)]; Legal(Init(0), ops) && var p := Run(Init(0), ops);
      p.sem.waiters == [9] && p.sem.counter == 1 && p.sem.wakeups == 0
  {
    RunTwo(Init(0), Spawn(9, 1), Resize(1));
  }

  /** When no wake-up is under way and nothing runs that could release a unit, the spawners that wait go on waiting and
      every later one joins them, however many units are free, until an exception or a stray switch reaches one. */
  lemma {:induction false} ForgottenSpawnersWait(p: Pool, ops: seq<Op>)
    requires p.running == {} && p.sem.wakeups == 0 && p.sem.waiters != [] && Legal(p, ops)
    requires forall i :: 0 <= i < |ops| ==> !ops[i].ThrowSpawner? && !ops[i].SpuriousSpawner?
    ensures var q := Run(p, ops); q.running == {} && q.sem.wakeups == 0 && p.sem.waiters <= q.sem.waiters
    decreases |ops|
  {
    if ops != [] {
      ForgottenSpawnersWait(Step(p, ops[0]), ops[1..]);
    }
  }

  lemma StepBounded(p: Pool, op: Op)
    requires p.sem.counter >= 0 && Enabled(p, op) && !op.Resize?
    ensures Step(p, op).sem.counter >= 0 && Step(p, op).size == p.size
  {
  }

  /** Unless the pool is resized, at most `size` greenthreads run at a time. */
  lemma {:induction false} Bounded(p: Pool, ops: seq<Op>)
    requires Inv(p) && p.sem.counter >= 0 && Legal(p, ops)
    requires forall i :: 0 <= i < |ops| ==> !ops[i].Resize?
    ensures |Run(p, ops).running| <= Run(p, ops).size == p.size
    decreases |ops|
  {
    if ops != [] {
      StepKeepsInv(p, ops[0]);
      StepBounded(p, ops[0]);
      Bounded(Step(p, ops[0]), ops[1..]);
    }
  }

  class GreenPool {
    var size: int
    var running: set<Greenlet>
    const sem: Semaphore
    var sent: bool
    var onEvent: set<Greenlet>
    ghost var released: set<Greenlet>
    ghost var stranded: set<Greenlet>

    ghost function State(): Pool
      reads this, sem
    {
      Pool(size, sem.State(), running, sent, onEvent, released, stranded)
    }

    ghost predicate Valid()
      reads this, sem
    {
      sem.kind == Plain && Inv(State())
    }

    constructor (size: nat)
      ensures Valid() && fresh(sem) && State() == Init(size)
    {
      this.size, running, sent, onEvent := size, {}, false, {};
      sem := new Semaphore(Plain, size);
      released, stranded := {}, {};
    }

    method ResizeTo(newSize: int)
      requires Valid()
      modifies this, sem
      ensures Valid() && State() == Step(old(State()), Resize(newSize))
      ensures size == newSize && sem.counter == old(sem.counter) + newSize - old(size)
      ensures sem.waiters == old(sem.waiters) && sem.wakeups == old(sem.wakeups) && running == old(running)
    {
      var delta := newSize - size;
      sem.counter := sem.counter + delta;
      size := newSize;
    }

    /** `spawn` and `spawn_n`, up to their return or their first switch. */
    method SpawnChild(caller: Greenlet, child: Greenlet) returns (r: SpawnResult)
      requires Valid() && Enabled(State(), Spawn(caller, child))
      modifies this, sem
      ensures Valid() && State() == Step(old(State()), Spawn(caller, child))
      ensures r.Inline? <==> old(sem.counter) <= 0 && caller in old(running)
      ensures r.Inline? ==> State() == old(State())
      ensures r.Spawned? <==> old(sem.counter) > 0 && old(sem.waiters) == []
      ensures r.Spawned? ==> running == old(running) + {child} && sem.counter == old(sem.counter) - 1 && sem.waiters == []
      ensures r.Spawned? && old(running) == {} ==> !sent && onEvent == {}
      ensures r.Waiting? ==> sem.waiters == old(sem.waiters) + [caller] && sem.counter == old(sem.counter)
      ensures r.Waiting? ==> running == old(running) && onEvent == old(onEvent)
    {
      StepKeepsInv(State(), Spawn(caller, child));
      if sem.counter <= 0 && caller in running {
        return Inline;
      }
      var a := sem.Acquire(caller, false);
      if a.Blocked? {
        return Waiting;
      }
      Start(child);
      return Spawned;
    }

    method Start(child: Greenlet)
      modifies this`running, this`sent, this`onEvent, this`stranded
      ensures State() == Started(old(State()), child)
    {
      if running == {} {
        stranded := stranded + if sent then {} else onEvent;
        sent, onEvent := false, {};
      }
      running := running + {child};
    }

    /** The hub makes a scheduled `_do_acquire` call of the semaphore; a spawner it wakes goes on to spawn. */
    method WakeBlockedSpawner(child: Greenlet)
      requires Valid() && Enabled(State(), WakeSpawner(child))
      modifies this, sem
      ensures Valid() && State() == Step(old(State()), WakeSpawner(child))
      ensures sem.wakeups == old(sem.wakeups) - 1
      ensures if old(sem.waiters) != [] && old(sem.counter) > 0
        then running == old(running) + {child} && sem.counter == old(sem.counter) - 1 && sem.waiters == old(sem.waiters)[1..]
        else running == old(running) && sem.counter == old(sem.counter) && sem.waiters == old(sem.waiters)
    {
      StepKeepsInv(State(), WakeSpawner(child));
      var woken := sem.DoScheduledAcquire();
      if woken != [] {
        Start(child);
      }
    }

    method FinishChild(child: Greenlet)
      requires Valid() && child in running
      modifies this, sem
      ensures Valid() && State() == Step(old(State()), Done(child))
      ensures running == old(running) - {child} && sem.counter == old(sem.counter) + 1 && sem.waiters == old(sem.waiters)
      ensures sem.wakeups == old(sem.wakeups) + if sem.waiters == [] then 0 else 1
      ensures if running == {} && sem.waiters == [] then sent && released == old(released) + old(onEvent) && onEvent == {}
              else !sent && released == old(released) && onEvent == old(onEvent)
    {
      StepKeepsInv(State(), Done(child));
      var _ := sem.ReleaseUnit();
      running := running - {child};
      if sem.counter - |sem.waiters| == size {
        SendEvent();
      }
    }

    /** `no_coros_running.send`, with its assertion as precondition. */
    method SendEvent()
      requires !sent
      modifies this`sent, this`onEvent, this`released
      ensures State() == Sent(old(State()))
      ensures sent && released == old(released) + old(onEvent) && onEvent == {}
    {
      sent := true;
      released, onEvent := released + onEvent, {};
    }

    /** Not `blocked` is an immediate return. */
    method WaitForAll(caller: Greenlet) returns (blocked: bool)
      requires Valid() && Enabled(State(), WaitAll(caller))
      modifies this
      ensures Valid() && State() == Step(old(State()), WaitAll(caller)) && blocked == (running != {})
      ensures onEvent == old(onEvent) + (if blocked then {caller} else {}) && running == old(running) && sent == old(sent)
    {
      blocked := running != {};
      if blocked {
        onEvent, released := onEvent + {caller}, released - {caller};
      }
    }
  }
}
