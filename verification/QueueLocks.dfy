/** `_QueueLock` of the green ZeroMQ sockets: a reentrant lock that is handed over in the order of the requests. */
module QueueLocks {
  import opened Options

  type Greenlet = nat

  /** `scheduled` are the switches that the hub has been asked for, `blocked` the greenthreads that are suspended in
      `acquire`, and `dead` those that were killed there. `requests` and `grants` remember who asked for the lock
      without holding it, and who got it; `depth` is how often each greenthread has acquired the lock and not released
      it. */
  datatype Lock = Lock(waiters: seq<Greenlet>, count: nat, holder: Option<Greenlet>, scheduled: seq<Greenlet>,
                       blocked: set<Greenlet>, dead: set<Greenlet>, requests: seq<Greenlet>, grants: seq<Greenlet>,
                       depth: map<Greenlet, nat>)

  datatype Op =
    | Acquire(g: Greenlet)
    | Wake
    | Release(g: Greenlet)
    | Kill(g: Greenlet)

  function Init(): Lock {
    Lock([], 0, None, [], {}, {}, [], [], map[])
  }

  function Depth(s: Lock, g: Greenlet): nat {
    if g in s.depth then s.depth[g] else 0
  }

  predicate MustWait(s: Lock, g: Greenlet) {
    (s.waiters != [] || s.count > 0) && s.holder != Some(g)
  }

  /** The end of `acquire`. */
  function Granted(s: Lock, g: Greenlet): Lock {
    s.(holder := Some(g), count := s.count + 1, depth := s.depth[g := Depth(s, g) + 1],
       grants := if s.holder == Some(g) then s.grants else s.grants + [g])
  }

  function AcquireBy(s: Lock, g: Greenlet): Lock {
    var t := if s.holder == Some(g) then s else s.(requests := s.requests + [g]);
    if MustWait(s, g) then t.(waiters := t.waiters + [g], blocked := t.blocked + {g}) else Granted(t, g)
  }

  /** A switch that the hub makes; one to a greenthread that is not there any more does nothing. */
  function Woken(s: Lock): Lock
    requires s.scheduled != []
  {
    var g := s.scheduled[0];
    var t := s.(scheduled := s.scheduled[1..]);
    if g !in s.blocked || s.waiters == [] then t
    else Granted(t.(waiters := t.waiters[1..], blocked := t.blocked - {g}), g)
  }

  /** `release`; nothing happens but `LockReleaseError` if nobody has the lock. */
  function Released(s: Lock, g: Greenlet): Lock {
    if s.count == 0 then s
    else
      var t := s.(count := s.count - 1, depth := s.depth[g := if Depth(s, g) > 0 then Depth(s, g) - 1 else 0]);
      if t.count > 0 then t
      else t.(holder := None, scheduled := if t.waiters == [] then t.scheduled else t.scheduled + [t.waiters[0]])
  }

  /** Neither suspended nor dead. */
  predicate Runs(s: Lock, g: Greenlet) {
    g !in s.blocked && g !in s.dead
  }

  predicate Enabled(s: Lock, op: Op) {
    match op
    case Acquire(g) => Runs(s, g)
    case Wake => s.scheduled != []
    case Release(g) => Runs(s, g)
    case Kill(g) => g in s.blocked
  }

  /** An exception thrown into a waiter leaves it in the queue. */
  function Step(s: Lock, op: Op): Lock
    requires Enabled(s, op)
  {
    match op
    case Acquire(g) => AcquireBy(s, g)
    case Wake => Woken(s)
    case Release(g) => Released(s, g)
    case Kill(g) => s.(blocked := s.blocked - {g}, dead := s.dead + {g})
  }

  // --- The invariant ---

  ghost predicate Distinct(gs: seq<Greenlet>) {
    forall i, j :: 0 <= i < j < |gs| ==> gs[i] != gs[j]
  }

  /** At most one switch is pending, to the first waiter of a free lock. Requests have been granted in their order, and
      whoever waits is suspended or was killed while it was. */
  ghost predicate Inv(s: Lock) {
    && (s.count > 0 <==> s.holder.Some?)
    && (s.scheduled != [] ==> s.count == 0 && s.waiters != [] && s.scheduled == [s.waiters[0]])
    && Distinct(s.waiters) && s.blocked !! s.dead && (forall g :: g in s.blocked ==> g in s.waiters)
    && (forall g :: g in s.waiters ==> !Runs(s, g))
    && s.requests == s.grants + s.waiters
    && (s.holder.Some? ==> s.holder.value !in s.waiters)
  }

  /** Somebody waits for a free lock, and nobody is going to be woken. */
  predicate Stuck(s: Lock) {
    s.count == 0 && s.waiters != [] && s.scheduled == []
  }

  /** Nobody but the holder has acquired the lock without releasing it. */
  ghost predicate Exclusive(s: Lock) {
    forall g: Greenlet :: Depth(s, g) == if s.holder == Some(g) then s.count else 0
  }

  /** The two assertions of `acquire`, when the switch comes. */
  predicate AssertsHold(s: Lock) {
    s.scheduled != [] && s.scheduled[0] in s.blocked ==> s.waiters != [] && s.waiters[0] == s.scheduled[0] && s.count == 0
  }

  /** The assertions hold before every step. */
  lemma AssertionsHold(s: Lock)
    requires Inv(s)
    ensures AssertsHold(s) && |s.scheduled| <= 1
  {
  }

  lemma AcquireKeeps(s: Lock, g: Greenlet)
    requires Inv(s) && Runs(s, g)
    ensures Inv(AcquireBy(s, g))
  {
    if MustWait(s, g) {
      assert s.grants + (s.waiters + [g]) == s.grants + s.waiters + [g];
    } else {
      assert s.holder != Some(g) ==> s.requests + [g] == s.grants + [g] + s.waiters;
    }
  }

  lemma WakeKeeps(s: Lock)
    requires Inv(s) && s.scheduled != []
    ensures Inv(Woken(s))
    ensures if s.scheduled[0] in s.blocked then Woken(s).holder == Some(s.waiters[0]) else Woken(s) == s.(scheduled := [])
  {
    var g := s.waiters[0];
    assert s.scheduled[1..] == [];
    if g in s.blocked {
      var rest := s.waiters[1..];
      RestOfWaiters(s.waiters);
      assert s.grants + [g] + rest == s.grants + s.waiters;
      assert Woken(s) == Granted(s.(scheduled := [], waiters := rest, blocked := s.blocked - {g}), g);
    }
  }

  lemma RestOfWaiters(waiters: seq<Greenlet>)
    requires waiters != [] && Distinct(waiters)
    ensures waiters[0] !in waiters[1..] && Distinct(waiters[1..])
    ensures forall h :: h in waiters[1..] <==> h in waiters && h != waiters[0]
    ensures [waiters[0]] + waiters[1..] == waiters
  {
    forall h | h in waiters && h != waiters[0]
      ensures h in waiters[1..]
    {
      assert waiters == [waiters[0]] + waiters[1..];
    }
  }

  lemma StepKeepsInv(s: Lock, op: Op)
    requires Inv(s) && Enabled(s, op)
    ensures Inv(Step(s, op))
  {
    match op
    case Acquire(g) => AcquireKeeps(s, g);
    case Wake => WakeKeeps(s);
    case _ =>
  }

  /** As long as only the holder releases the lock, only the holder has it. */
  lemma StepKeepsExclusive(s: Lock, op: Op)
    requires Inv(s) && Exclusive(s) && Enabled(s, op)
    requires op.Release? && s.count > 0 ==> s.holder == Some(op.g)
    ensures Exclusive(Step(s, op))
  {
    forall g: Greenlet
      ensures Depth(Step(s, op), g) == if Step(s, op).holder == Some(g) then Step(s, op).count else 0
    {
      assert Depth(s, g) == if s.holder == Some(g) then s.count else 0;
    }
  }

  // --- When the lock is lost ---

  /** The switch that is pending is to a waiter that has been killed. */
  predicate WakesDead(s: Lock, op: Op) {
    op.Wake? && s.scheduled != [] && s.scheduled[0] !in s.blocked
  }

  /** A step leaves the lock stuck exactly if it is such a switch. */
  lemma StuckByDead(s: Lock, op: Op)
    requires Inv(s) && !Stuck(s) && Enabled(s, op)
    ensures Stuck(Step(s, op)) <==> WakesDead(s, op)
  {
    if op.Wake? {
      WakeKeeps(s);
    }
  }

  /** A lock that is stuck remains so: nobody gets it any more, whoever asks for it. */
  lemma {:induction false} StuckForEver(s: Lock, ops: seq<Op>)
    requires Stuck(s) && s.holder == None && Legal(s, ops)
    ensures var t := Run(s, ops); Stuck(t) && t.holder == None && t.grants == s.grants && s.waiters <= t.waiters
    decreases |ops|
  {
    if ops != [] {
      StuckForEver(Step(s, ops[0]), ops[1..]);
    }
  }

  /** A killed waiter has been woken in the run. */
  ghost predicate WokeDead(s: Lock, ops: seq<Op>)
    requires Legal(s, ops)
    decreases |ops|
  {
    ops != [] && (WakesDead(s, ops[0]) || WokeDead(Step(s, ops[0]), ops[1..]))
  }

  /** After any run, whatever is killed and whoever releases, the lock is stuck exactly if a killed waiter has been
      woken; otherwise whoever waits while the lock is free is about to be woken. */
  lemma {:induction false} StuckExactly(s: Lock, ops: seq<Op>)
    requires Inv(s) && !Stuck(s) && Legal(s, ops)
    ensures Inv(Run(s, ops)) && AssertsHold(Run(s, ops))
    ensures Stuck(Run(s, ops)) <==> WokeDead(s, ops)
    decreases |ops|
  {
    if ops == [] {
      AssertionsHold(s);
    } else {
      var t := Step(s, ops[0]);
      StepKeepsInv(s, ops[0]);
      StuckByDead(s, ops[0]);
      if Stuck(t) {
        StuckForEver(t, ops[1..]);
        RunKeepsInv(t, ops[1..]);
        AssertionsHold(Run(t, ops[1..]));
      } else {
        StuckExactly(t, ops[1..]);
      }
    }
  }

  // --- Runs ---

  ghost predicate Legal(s: Lock, ops: seq<Op>)
    decreases |ops|
  {
    ops == [] || (Enabled(s, ops[0]) && Legal(Step(s, ops[0]), ops[1..]))
  }

  ghost function Run(s: Lock, ops: seq<Op>): Lock
    requires Legal(s, ops)
    decreases |ops|
  {
    if ops == [] then s else Run(Step(s, ops[0]), ops[1..])
  }

  lemma {:induction false} RunKeepsInv(s: Lock, ops: seq<Op>)
    requires Inv(s) && Legal(s, ops)
    ensures Inv(Run(s, ops))
    decreases |ops|
  {
    if ops != [] {
      StepKeepsInv(s, ops[0]);
      RunKeepsInv(Step(s, ops[0]), ops[1..]);
    }
  }

  /** Only the holder has released the lock. */
  ghost predicate HoldersRelease(s: Lock, ops: seq<Op>)
    requires Legal(s, ops)
    decreases |ops|
  {
    ops == [] || ((ops[0].Release? && s.count > 0 ==> s.holder == Some(ops[0].g))
                  && HoldersRelease(Step(s, ops[0]), ops[1..]))
  }

  /** In every such run nobody but the holder has the lock. */
  lemma {:induction false} RunKeepsExclusive(s: Lock, ops: seq<Op>)
    requires Inv(s) && Exclusive(s) && Legal(s, ops) && HoldersRelease(s, ops)
    ensures Exclusive(Run(s, ops))
    decreases |ops|
  {
    if ops != [] {
      StepKeepsInv(s, ops[0]);
      StepKeepsExclusive(s, ops[0]);
      RunKeepsExclusive(Step(s, ops[0]), ops[1..]);
    }
  }

  lemma InitKeeps()
    ensures Inv(Init()) && Exclusive(Init()) && !Stuck(Init())
  {
  }

  lemma {:induction false} NobodyDies(s: Lock, ops: seq<Op>)
    requires Inv(s) && s.dead == {} && Legal(s, ops) && forall i :: 0 <= i < |ops| ==> !ops[i].Kill?
    ensures !WokeDead(s, ops)
    decreases |ops|
  {
    if ops != [] {
      StepKeepsInv(s, ops[0]);
      assert s.scheduled != [] ==> s.scheduled[0] in s.waiters;
      NobodyDies(Step(s, ops[0]), ops[1..]);
    }
  }

  /** In every run from a new lock in which nobody is killed both assertions hold, the lock is handed over in the order
      of the requests, and whoever waits while it is free is about to be woken. */
  lemma KillFreeRuns(ops: seq<Op>)
    requires Legal(Init(), ops) && forall i :: 0 <= i < |ops| ==> !ops[i].Kill?
    ensures var s := Run(Init(), ops); Inv(s) && AssertsHold(s) && !Stuck(s)
  {
    InitKeeps();
    NobodyDies(Init(), ops);
    StuckExactly(Init(), ops);
  }

  /** A lock that 1 has, with 2 and 3 waiting. */
  const CONTENDED :=
    Lock([2, 3], 1, Some(1), [], {2, 3}, {}, [1, 2, 3], [1], map[1 := 1])

  lemma Contends(ops: seq<Op>)
    requires Legal(CONTENDED, ops)
    ensures var all := [Acquire(1)] + ([Acquire(2)] + ([Acquire(3)] + ops));
      Legal(Init(), all) && Run(Init(), all) == Run(CONTENDED, ops)
  {
    var s1 := Lock([], 1, Some(1), [], {}, {}, [1], [1], map[1 := 1]);
    var s2 := s1.(waiters := [2], blocked := {2}, requests := [1, 2]);
    assert Step(Init(), Acquire(1)) == s1;
    assert Step(s1, Acquire(2)) == s2;
    assert Step(s2, Acquire(3)) == CONTENDED;
    RunOne(s2, Acquire(3), ops);
    RunOne(s1, Acquire(2), [Acquire(3)] + ops);
    RunOne(Init(), Acquire(1), [Acquire(2)] + ([Acquire(3)] + ops));
  }

  /** The lock may be lost: 1 has it, 2 and 3 wait, 2 is killed, 1 releases, and 3 is not woken. */
  lemma KillLosesLock()
    ensures var ops := [Acquire(1)] + ([Acquire(2)] + ([Acquire(3)] + ([Kill(2)] + ([Release(1)] + ([Wake] + [])))));
      Legal(Init(), ops) && var s := Run(Init(), ops);
      Stuck(s) && s.holder == None && s.waiters == [2, 3] && s.blocked == {3}
  {
    var s4 := CONTENDED.(blocked := {3}, dead := {2});
    var s5 := s4.(count := 0, holder := None, scheduled := [2], depth := map[1 := 0]);
    var s6 := s5.(scheduled := []);
    assert Step(CONTENDED, Kill(2)) == s4;
    assert Step(s4, Release(1)) == s5;
    assert Step(s5, Wake) == s6;
    RunOne(s5, Wake, []);
    RunOne(s4, Release(1), [Wake] + []);
    RunOne(CONTENDED, Kill(2), [Release(1)] + ([Wake] + []));
    Contends([Kill(2)] + ([Release(1)] + ([Wake] + [])));
  }

  lemma RunOne(s: Lock, op: Op, ops: seq<Op>)
    requires Enabled(s, op) && Legal(Step(s, op), ops)
    ensures Legal(s, [op] + ops) && Run(s, [op] + ops) == Run(Step(s, op), ops)
  {
    assert ([op] + ops)[1..] == ops;
  }

  // --- The object ---

  class QueueLock {
    var waiters: seq<Greenlet>
    var count: nat
    var holder: Option<Greenlet>
    var scheduled: seq<Greenlet>
    ghost var blocked: set<Greenlet>
    ghost var dead: set<Greenlet>
    ghost var requests: seq<Greenlet>
    ghost var grants: seq<Greenlet>
    ghost var depth: map<Greenlet, nat>

    ghost function State(): Lock
      reads this
    {
      Lock(waiters, count, holder, scheduled, blocked, dead, requests, grants, depth)
    }

    constructor ()
      ensures State() == Init()
    {
      waiters, count, holder, scheduled := [], 0, None, [];
      blocked, dead, requests, grants, depth := {}, {}, [], [], map[];
    }

    /** `acquire` up to its `switch`, or to its end if it does not block. */
    method Acquire(current: Greenlet) returns (done: bool)
      modifies this
      ensures State() == AcquireBy(old(State()), current)
      ensures done <==> old(holder) == Some(current) || (old(waiters) == [] && old(count) == 0)
      ensures if done then holder == Some(current) && count == old(count) + 1 && waiters == old(waiters)
              else holder == old(holder) && count == old(count) && waiters == old(waiters) + [current]
      ensures scheduled == old(scheduled)
    {
      ghost var s := State();
      if holder != Some(current) {
        requests := requests + [current];
      }
      if (waiters != [] || count > 0) && holder != Some(current) {
        waiters := waiters + [current];
        blocked := blocked + {current};
        return false;
      }
      Take(current);
      return true;
    }

    method Take(current: Greenlet)
      modifies this
      ensures State() == Granted(old(State()), current)
    {
      grants := if holder == Some(current) then grants else grants + [current];
      depth := depth[current := (if current in depth then depth[current] else 0) + 1];
      holder, count := Some(current), count + 1;
    }

    /** `acquire` after its `switch`. */
    method Resume(current: Greenlet) returns (w: Greenlet, free: bool)
      requires Inv(State()) && scheduled != [] && scheduled[0] == current && current in blocked
      modifies this
      ensures State() == Woken(old(State())) && Inv(State())
      ensures w == current && free && holder == Some(current) && count == 1
      ensures old(waiters) == [current] + waiters && scheduled == []
    {
      WakeKeeps(State());
      scheduled, blocked := scheduled[1..], blocked - {current};
      w, waiters := waiters[0], waiters[1..];
      assert w == current;
      free := count == 0;
      Take(current);
    }

    /** The pending switch, if it is to a greenthread that has been killed. */
    method SwitchToDead()
      requires scheduled != [] && scheduled[0] !in blocked
      modifies this`scheduled
      ensures State() == Woken(old(State()))
    {
      scheduled := scheduled[1..];
    }

    ghost method Killed(g: Greenlet)
      requires g in blocked
      modifies this`blocked, this`dead
      ensures State() == Step(old(State()), Kill(g))
    {
      blocked, dead := blocked - {g}, dead + {g};
    }

    /** Not `ok` is `LockReleaseError`. */
    method Release(ghost current: Greenlet) returns (ok: bool)
      modifies this
      ensures State() == Released(old(State()), current) && waiters == old(waiters)
      ensures ok <==> old(count) > 0
      ensures ok ==> count == old(count) - 1 && holder == if count == 0 then None else old(holder)
      ensures scheduled == old(scheduled) + if old(count) == 1 && waiters != [] then [waiters[0]] else []
    {
      if count == 0 {
        return false;
      }
      count := count - 1;
      depth := depth[current := if current in depth && depth[current] > 0 then depth[current] - 1 else 0];
      if count == 0 {
        holder := None;
        if waiters != [] {
          scheduled := scheduled + [waiters[0]];
        }
      }
      return true;
    }
  }
}
