/** `eventlet.semaphore` and `eventlet.lock`, as the atomic segments between two switches. */
module Semaphores {

  type Greenlet = nat

  /** `wakeups` is how many `_do_acquire` calls the hub still has to make. */
  datatype Sem = Sem(counter: int, waiters: seq<Greenlet>, wakeups: nat)

  datatype Outcome = Acquired | Refused | Blocked

  datatype Attempt = Attempt(sem: Sem, outcome: Outcome)

  function Locked(s: Sem): bool {
    s.counter <= 0
  }

  function Balance(s: Sem): int {
    s.counter - |s.waiters|
  }

  /** `deque.remove`, the absent element being passed over. */
  function Without(q: seq<Greenlet>, g: Greenlet): (r: seq<Greenlet>)
    ensures g !in q ==> r == q
  {
    if q == [] then [] else if q[0] == g then q[1..] else [q[0]] + Without(q[1..], g)
  }

  /** `acquire()` up to its return or its first switch; with a timeout it does not queue behind the waiters. */
  function AcquireStart(s: Sem, g: Greenlet, timed: bool): Attempt {
    if s.counter > 0 && (timed || s.waiters == []) then Attempt(s.(counter := s.counter - 1), Acquired)
    else Attempt(s.(waiters := s.waiters + [g]), Blocked)
  }

  /** `acquire(blocking=False)`, which runs with a timeout of zero. */
  function AcquireNow(s: Sem, g: Greenlet): Attempt {
    if Locked(s) then Attempt(s, Refused) else AcquireStart(s, g, true)
  }

  /** What a greenthread blocked in `acquire` does when something switches into it. */
  function Resumed(s: Sem, g: Greenlet): Attempt {
    if s.counter > 0 then Attempt(s.(counter := s.counter - 1, waiters := Without(s.waiters, g)), Acquired)
    else Attempt(s, Blocked)
  }

  /** A timeout or a kill reaches a greenthread blocked in `acquire`. */
  function Thrown(s: Sem, g: Greenlet): Sem {
    s.(waiters := Without(s.waiters, g))
  }

  function Release(s: Sem): Sem {
    s.(counter := s.counter + 1, wakeups := if s.waiters != [] then s.wakeups + 1 else s.wakeups)
  }

  /** The greenthread that the next `_do_acquire` call will switch into. */
  predicate WakesOne(s: Sem) {
    s.waiters != [] && s.counter > 0
  }

  /** The hub makes one scheduled `_do_acquire` call, together with the segment of the greenthread it wakes. */
  function DoAcquire(s: Sem): Sem
    requires s.wakeups > 0
  {
    var t := s.(wakeups := s.wakeups - 1);
    if WakesOne(s) then Resumed(t.(waiters := t.waiters[1..]), t.waiters[0]).sem else t
  }

  /** Exactly the first occurrence is taken out, and the others keep their order. */
  lemma {:induction false} WithoutFirst(q: seq<Greenlet>, g: Greenlet) returns (i: nat)
    requires g in q
    ensures i < |q| && q[i] == g && g !in q[..i] && Without(q, g) == q[..i] + q[i + 1..]
  {
    if q[0] == g {
      i := 0;
    } else {
      var j := WithoutFirst(q[1..], g);
      i := j + 1;
      assert q[..i] == [q[0]] + q[1..][..j];
    }
  }

  // --- No wake-up is lost ---

  ghost predicate NoDuplicates(q: seq<Greenlet>) {
    forall i, j :: 0 <= i < j < |q| ==> q[i] != q[j]
  }

  /** While anyone waits, there is a wake-up under way for every free unit. */
  predicate Awake(s: Sem) {
    s.waiters != [] ==> s.counter <= s.wakeups
  }

  lemma {:induction false} WithoutOne(q: seq<Greenlet>, g: Greenlet)
    requires NoDuplicates(q)
    ensures NoDuplicates(Without(q, g)) && g !in Without(q, g)
    ensures forall h :: h != g ==> (h in Without(q, g) <==> h in q)
    ensures |Without(q, g)| == if g in q then |q| - 1 else |q|
  {
    if q != [] {
      WithoutOne(q[1..], g);
      if q[0] == g {
        assert g !in q[1..];
      } else {
        assert q[0] !in q[1..] && q[0] !in Without(q[1..], g);
      }
      assert q == [q[0]] + q[1..];
    }
  }

  /** The scheduled `_do_acquire` calls, with nothing else happening in between. */
  function DoAll(s: Sem): Sem
    decreases s.wakeups
  {
    if s.wakeups == 0 then s else DoAll(DoAcquire(s))
  }

  /** Once they have been made, the first waiters have acquired all the free units or nobody waits any more. */
  lemma {:induction false} WakeupsSuffice(s: Sem)
    requires Awake(s) && s.counter >= 0 && NoDuplicates(s.waiters)
    ensures var n := if s.counter <= |s.waiters| then s.counter else |s.waiters|;
      DoAll(s) == Sem(s.counter - n, s.waiters[n..], 0)
    decreases s.wakeups
  {
    if s.wakeups > 0 {
      var n := if s.counter <= |s.waiters| then s.counter else |s.waiters|;
      if WakesOne(s) {
        var t := s.waiters[1..];
        assert s.waiters[0] !in t;
        assert DoAcquire(s) == Sem(s.counter - 1, t, s.wakeups - 1);
        assert t[n - 1..] == s.waiters[n..];
      }
      WakeupsSuffice(DoAcquire(s));
    }
  }

  /** `Plain` is `Semaphore`; `Bounded(n)` refuses to release beyond `n`, as `BoundedSemaphore` does with its
      initial value and `Lock` with 1. */
  datatype Kind = Plain | Bounded(limit: int)

  predicate MayRelease(kind: Kind, s: Sem) {
    kind.Bounded? ==> s.counter < kind.limit
  }

  class Semaphore {
    const kind: Kind
    var counter: int
    var waiters: seq<Greenlet>
    var wakeups: nat

    function State(): Sem
      reads this
    {
      Sem(counter, waiters, wakeups)
    }

    constructor (kind: Kind, value: int)
      requires value >= 0
      ensures this.kind == kind && State() == Sem(value, [], 0)
    {
      this.kind, counter, waiters, wakeups := kind, value, [], 0;
    }

    method Acquire(g: Greenlet, timed: bool) returns (r: Outcome)
      requires g !in waiters
      modifies this
      ensures Attempt(State(), r) == AcquireStart(old(State()), g, timed)
      ensures wakeups == old(wakeups)
      ensures if old(counter) > 0 && (timed || old(waiters) == [])
        then r.Acquired? && counter == old(counter) - 1 && waiters == old(waiters)
        else r.Blocked? && counter == old(counter) && waiters == old(waiters) + [g]
    {
      if counter <= 0 || waiters != [] {
        waiters := waiters + [g];
        if !timed || counter <= 0 {
          return Blocked;
        }
        assert waiters == old(waiters) + [g];
        RemoveLast(old(waiters), g);
        waiters := Without(waiters, g);
      }
      counter := counter - 1;
      return Acquired;
    }

    method TryAcquire(g: Greenlet) returns (r: Outcome)
      requires g !in waiters
      modifies this
      ensures Attempt(State(), r) == AcquireNow(old(State()), g) && !r.Blocked?
      ensures r.Acquired? <==> old(counter) > 0
      ensures counter == old(counter) - (if r.Acquired? then 1 else 0) && waiters == old(waiters) && wakeups == old(wakeups)
    {
      if counter <= 0 {
        return Refused;
      }
      r := Acquire(g, true);
    }

    method Resume(g: Greenlet) returns (r: Outcome)
      modifies this
      ensures Attempt(State(), r) == Resumed(old(State()), g)
      ensures if old(counter) > 0 then r.Acquired? && counter == old(counter) - 1
              else r.Blocked? && counter == old(counter) && waiters == old(waiters)
      ensures wakeups == old(wakeups) && (g !in old(waiters) ==> waiters == old(waiters))
    {
      if counter <= 0 {
        return Blocked;
      }
      waiters := Without(waiters, g);
      counter := counter - 1;
      return Acquired;
    }

    method Throw(g: Greenlet)
      modifies this
      ensures State() == Thrown(old(State()), g)
      ensures counter == old(counter) && wakeups == old(wakeups)
    {
      waiters := Without(waiters, g);
    }

    /** Not `ok` is the error that `Lock` and `BoundedSemaphore` raise. */
    method ReleaseUnit() returns (ok: bool)
      modifies this
      ensures ok == MayRelease(kind, old(State()))
      ensures State() == if ok then Release(old(State())) else old(State())
      ensures ok <==> match kind case Plain => true case Bounded(limit) => old(counter) < limit
      ensures counter == old(counter) + (if ok then 1 else 0) && waiters == old(waiters)
      ensures wakeups == old(wakeups) + (if ok && waiters != [] then 1 else 0)
    {
      if kind.Bounded? && counter >= kind.limit {
        return false;
      }
      counter := counter + 1;
      if waiters != [] {
        wakeups := wakeups + 1;
      }
      return true;
    }

    method DoScheduledAcquire() returns (woken: seq<Greenlet>)
      requires wakeups > 0
      modifies this
      ensures State() == DoAcquire(old(State()))
      ensures woken == if WakesOne(old(State())) then [old(waiters)[0]] else []
      ensures woken == if old(waiters) != [] && old(counter) > 0 then [old(waiters)[0]] else []
      ensures counter == old(counter) - |woken| && wakeups == old(wakeups) - 1
      ensures woken == [] ==> waiters == old(waiters)
      ensures woken != [] && woken[0] !in old(waiters)[1..] ==> waiters == old(waiters)[1..]
    {
      wakeups := wakeups - 1;
      woken := [];
      if waiters != [] && counter > 0 {
        var waiter := waiters[0];
        waiters := waiters[1..];
        var r := Resume(waiter);
        woken := [waiter];
      }
    }
  }

  lemma {:induction false} RemoveLast(q: seq<Greenlet>, g: Greenlet)
    requires g !in q
    ensures Without(q + [g], g) == q
  {
    if q == [] {
    } else {
      assert (q + [g])[1..] == q[1..] + [g];
      RemoveLast(q[1..], g);
    }
  }
}
