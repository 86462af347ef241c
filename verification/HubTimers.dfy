/** The timer side of `BaseHub`: lazy deletion, the dead-entry counter, compaction, and firing. */
module HubTimers {
  import opened Options
  import opened TimerHeap

  /** How a timer was used up: its callback ran while the hub fired timers for time `at`, or it was cancelled. */
  datatype Outcome = Fired(timer: Timer, at: real) | Canceled(timer: Timer)

  /** What happens between two passes of the hub's loop, or one pass. */
  datatype Turn = Outside(script: seq<Action>) | Iteration(now: real)

  const COMPACTION_THRESHOLD := 1000

  /** What the hub holds, against what has happened: `entries` are those of `timers` and `next_timers`,
      `held` their timers, `due` the deadlines of all timers ever added, `done` the timers used up. */
  datatype Books = Books(entries: multiset<Entry>, held: set<Timer>, canceled: int,
                         due: map<Timer, real>, done: set<Timer>, log: seq<Outcome>)

  ghost predicate HoldsEach(entries: multiset<Entry>, held: set<Timer>, due: map<Timer, real>) {
    && held <= due.Keys
    && (forall e :: e in entries ==> entries[e] == 1 && e.timer in held && e.when == due[e.timer])
    && (forall t :: t in held ==> Entry(due[t], t) in entries)
  }

  ghost function UsedUp(log: seq<Outcome>): set<Timer> {
    set i | 0 <= i < |log| :: log[i].timer
  }

  /** Each timer is used up at most once, and only if it was added; no callback runs before its deadline. */
  ghost predicate GoodLog(log: seq<Outcome>, due: map<Timer, real>, done: set<Timer>) {
    && done <= due.Keys
    && (forall i, j :: 0 <= i < j < |log| ==> log[i].timer != log[j].timer)
    && done == UsedUp(log)
    && (forall i :: 0 <= i < |log| && log[i].Fired? ==> due[log[i].timer] <= log[i].at)
  }

  ghost predicate Balanced(b: Books) {
    && HoldsEach(b.entries, b.held, b.due)
    && b.due.Keys <= b.held + b.done
    && b.canceled <= |b.held * b.done|
    && GoodLog(b.log, b.due, b.done)
  }

  /** The books after each operation of the hub. */
  ghost function Added(b: Books, t: Timer, when: real): Books {
    b.(entries := b.entries + multiset{Entry(when, t)}, held := b.held + {t}, due := b.due[t := when])
  }

  ghost function CountedCancel(b: Books, t: Timer): Books {
    b.(canceled := b.canceled + 1, done := b.done + {t}, log := b.log + [Canceled(t)])
  }

  ghost function Compacted(b: Books, live: multiset<Entry>): Books {
    b.(entries := live, held := b.held - b.done, canceled := 0)
  }

  ghost function Dropped(b: Books, e: Entry): Books {
    b.(entries := b.entries - multiset{e}, held := b.held - {e.timer})
  }

  ghost function Uncounted(b: Books): Books {
    b.(canceled := b.canceled - 1)
  }

  ghost function Ran(b: Books, t: Timer, at: real): Books {
    b.(done := b.done + {t}, log := b.log + [Fired(t, at)])
  }

  ghost predicate OnlyCancels(log: seq<Outcome>, log': seq<Outcome>) {
    log <= log' && forall i :: |log| <= i < |log'| ==> log'[i].Canceled?
  }

  /** Deadlines are only ever added. */
  ghost predicate Later(due: map<Timer, real>, due': map<Timer, real>) {
    forall t :: t in due ==> t in due' && due'[t] == due[t]
  }

  lemma LaterAdded(due: map<Timer, real>, t: Timer, when: real)
    requires t !in due
    ensures Later(due, due[t := when])
  {
  }

  lemma OneMoreCancel(log: seq<Outcome>, t: Timer)
    ensures OnlyCancels(log, log + [Canceled(t)])
  {
  }

  function Entries(heap: seq<Entry>, next: seq<Entry>): multiset<Entry> {
    multiset(heap) + multiset(next)
  }

  lemma HeapifiedEntries(list: seq<Entry>, heap: seq<Entry>, next: seq<Entry>)
    requires multiset(heap) == multiset(list)
    ensures Entries(heap, next) == Entries(list, next)
  {
  }

  lemma EntriesAppend(heap: seq<Entry>, next: seq<Entry>, e: Entry)
    ensures Entries(heap, next + [e]) == Entries(heap, next) + multiset{e}
  {
  }

  lemma HeldInWorld(heap: seq<Entry>, next: seq<Entry>, b: Books)
    requires b.entries == Entries(heap, next) && HoldsEach(b.entries, b.held, b.due)
    ensures forall i :: 0 <= i < |heap| ==> heap[i].timer in b.due && b.due[heap[i].timer] == heap[i].when
    ensures forall i :: 0 <= i < |next| ==> next[i].timer in b.due
  {
    forall i | 0 <= i < |heap| ensures heap[i].timer in b.due && b.due[heap[i].timer] == heap[i].when {
      assert heap[i] in b.entries;
    }
    forall i | 0 <= i < |next| ensures next[i].timer in b.due {
      assert next[i] in b.entries;
    }
  }

  lemma EntriesFirst(heap: seq<Entry>, next: seq<Entry>)
    requires next != []
    ensures next[0] in Entries(heap, next)
    ensures Entries(heap, next) - multiset{next[0]} == Entries(heap, next[1..])
  {
    assert next == [next[0]] + next[1..];
  }

  lemma DeadRootLeaves(heap: seq<Entry>, rest: seq<Entry>, next: seq<Entry>, b: Books)
    requires Balanced(b) && b.entries == Entries(heap, next) && heap != [] && heap[0].timer in b.done
    requires multiset(heap) == multiset(rest) + multiset{heap[0]}
    ensures Balanced(Uncounted(Dropped(b, heap[0]))) && Dropped(b, heap[0]).entries == Entries(rest, next)
  {
    EntriesLess(heap, rest, next, heap[0]);
    DeadDroppedBalances(b, heap[0]);
  }

  lemma LiveRootLeaves(heap: seq<Entry>, rest: seq<Entry>, next: seq<Entry>, b: Books, when: real)
    requires Balanced(b) && b.entries == Entries(heap, next) && heap != []
    requires heap[0].timer !in b.done && heap[0].when <= when
    requires multiset(heap) == multiset(rest) + multiset{heap[0]}
    ensures Balanced(Ran(Dropped(b, heap[0]), heap[0].timer, when))
    ensures Ran(Dropped(b, heap[0]), heap[0].timer, when).entries == Entries(rest, next)
  {
    EntriesLess(heap, rest, next, heap[0]);
    FiredBalances(b, heap[0], when);
  }

  // --- What scripts do ---

  ghost predicate SchedulesBefore(script: seq<Action>, n: nat, t: Timer)
    requires n <= |script|
  {
    exists j :: 0 <= j < n && script[j].Schedule? && script[j].timer == t
  }

  ghost predicate CancelsBefore(script: seq<Action>, n: nat, t: Timer)
    requires n <= |script|
  {
    exists j :: 0 <= j < n && script[j] == Cancel(t)
  }

  /** The action cancels a timer that has been scheduled, if those in `due` were when the script began. */
  ghost predicate Cancels(script: seq<Action>, i: nat, due: map<Timer, real>)
    requires i < |script|
  {
    script[i].Cancel? && (script[i].timer in due || SchedulesBefore(script, i, script[i].timer))
  }

  ghost predicate ActionDone(script: seq<Action>, i: nat, b: Books, b': Books)
    requires i < |script|
  {
    && (script[i].Schedule? ==> script[i].timer in b'.due)
    && (script[i].Schedule? && script[i].timer !in b.due && !SchedulesBefore(script, i, script[i].timer) ==>
          b'.due[script[i].timer] == script[i].now + script[i].timer.seconds)
    && (Cancels(script, i, b.due) ==> script[i].timer in b'.done)
  }

  /** What the first `n` actions of a script make of the books: whatever is scheduled has its deadline, unless it had one
      before, and whatever is cancelled is used up; nothing else happens. */
  ghost predicate Did(script: seq<Action>, n: nat, b: Books, b': Books)
    requires n <= |script|
  {
    && Later(b.due, b'.due) && b.done <= b'.done && OnlyCancels(b.log, b'.log)
    && (forall i :: 0 <= i < n ==> ActionDone(script, i, b, b'))
    && (forall t :: t in b'.due ==> t in b.due || SchedulesBefore(script, n, t))
    && (forall t :: t in b'.done ==> t in b.done || CancelsBefore(script, n, t))
  }

  /** What one action does. */
  ghost predicate DidOne(a: Action, b: Books, b': Books) {
    && OnlyCancels(b.log, b'.log)
    && (if a.Schedule? && a.timer !in b.due then b'.due == b.due[a.timer := a.now + a.timer.seconds] else b'.due == b.due)
    && (if a.Cancel? && a.timer in b.due then b'.done == b.done + {a.timer} else b'.done == b.done)
  }

  lemma DidNothing(script: seq<Action>, b: Books)
    ensures Did(script, 0, b, b)
  {
  }

  lemma OneMoreScheduled(script: seq<Action>, n: nat, t: Timer)
    requires n < |script|
    ensures SchedulesBefore(script, n + 1, t) <==>
      SchedulesBefore(script, n, t) || (script[n].Schedule? && script[n].timer == t)
  {
    if script[n].Schedule? && script[n].timer == t {
      assert 0 <= n < n + 1;
    }
  }

  lemma DidOneMore(script: seq<Action>, n: nat, b: Books, b': Books, b'': Books)
    requires n < |script| && Did(script, n, b, b') && DidOne(script[n], b', b'')
    ensures Did(script, n + 1, b, b'')
  {
    forall t | t in b''.done
      ensures t in b.done || CancelsBefore(script, n + 1, t)
    {
      if t !in b'.done {
        assert script[n] == Cancel(t);
      }
    }
    forall t | t in b''.due
      ensures t in b.due || SchedulesBefore(script, n + 1, t)
    {
      OneMoreScheduled(script, n, t);
    }
    forall i | 0 <= i < n + 1
      ensures ActionDone(script, i, b, b'')
    {
      if i == n {
        LastDone(script, n, b, b', b'');
      } else {
        assert ActionDone(script, i, b, b');
      }
    }
  }

  lemma LastDone(script: seq<Action>, n: nat, b: Books, b': Books, b'': Books)
    requires n < |script| && Did(script, n, b, b') && DidOne(script[n], b', b'')
    ensures ActionDone(script, n, b, b'')
  {
    var t := script[n].timer;
    if SchedulesBefore(script, n, t) {
      var j :| 0 <= j < n && script[j].Schedule? && script[j].timer == t;
      assert ActionDone(script, j, b, b');
    }
  }

  /** The actions of the script lead from each of these books to the next. */
  ghost predicate ActedAlong(script: seq<Action>, trail: seq<Books>) {
    0 < |trail| <= |script| + 1 && forall k :: 0 <= k < |trail| - 1 ==> DidAt(script, trail, k)
  }

  ghost predicate DidAt(script: seq<Action>, trail: seq<Books>, k: nat)
    requires k < |script| && k + 1 < |trail|
  {
    DidOne(script[k], trail[k], trail[k + 1])
  }

  lemma ActedOnce(script: seq<Action>, trail: seq<Books>, b: Books)
    requires ActedAlong(script, trail) && |trail| <= |script| && DidOne(script[|trail| - 1], trail[|trail| - 1], b)
    ensures ActedAlong(script, trail + [b])
  {
    forall k | 0 <= k < |trail|
      ensures DidAt(script, trail + [b], k)
    {
      assert k < |trail| - 1 ==> DidAt(script, trail, k);
    }
  }

  lemma {:induction false} DidAll(script: seq<Action>, trail: seq<Books>, n: nat)
    requires ActedAlong(script, trail) && n < |trail|
    ensures Did(script, n, trail[0], trail[n])
  {
    if n == 0 {
      DidNothing(script, trail[0]);
    } else {
      DidAll(script, trail, n - 1);
      assert DidAt(script, trail, n - 1);
      DidOneMore(script, n - 1, trail[0], trail[n - 1], trail[n]);
    }
  }

  // --- What callbacks have done ---

  ghost predicate SetsDeadline(o: Outcome, t: Timer, when: real) {
    o.Fired? && exists m :: 0 <= m < |o.timer.script| && Sets(o.timer.script[m], t, when)
  }

  predicate Sets(a: Action, t: Timer, when: real) {
    a.Schedule? && a.timer == t && a.now + t.seconds == when
  }

  ghost predicate Orders(o: Outcome, a: Action) {
    o.Fired? && a in o.timer.script
  }

  ghost predicate NotFiredFrom(log: seq<Outcome>, mark: int, t: Timer) {
    forall j :: 0 <= j < |log| && mark <= j && log[j].Fired? ==> log[j].timer != t
  }

  /** The action of a script that ran when the log had length `mark` has had its effect: what it cancelled does not run any
      more, and what it scheduled is. `due` are the deadlines at first. */
  ghost predicate Lasts(script: seq<Action>, m: nat, due: map<Timer, real>, mark: int, b: Books)
    requires m < |script|
  {
    && (Cancels(script, m, due) ==> script[m].timer in b.done && NotFiredFrom(b.log, mark, script[m].timer))
    && (script[m].Schedule? ==> script[m].timer in b.due)
  }

  ghost predicate AllLast(script: seq<Action>, due: map<Timer, real>, mark: int, b: Books) {
    forall m :: 0 <= m < |script| ==> Lasts(script, m, due, mark, b)
  }

  /** The callback in the log at `i` has had its effect, if `b0` were the books at first. */
  ghost predicate Effective(b0: Books, b: Books, i: nat)
    requires i < |b.log|
  {
    b.log[i].Fired? ==> AllLast(b.log[i].timer.script, b0.due, i + 1, b)
  }

  ghost predicate AllEffective(b0: Books, b: Books) {
    forall i :: |b0.log| <= i < |b.log| ==> Effective(b0, b, i)
  }

  ghost predicate WasOrdered(b0: Books, b: Books, i: nat)
    requires i < |b.log|
  {
    exists k :: |b0.log| <= k < i && Orders(b.log[k], Cancel(b.log[i].timer))
  }

  /** Whatever was cancelled, a callback that had run before cancelled it. */
  ghost predicate AllOrdered(b0: Books, b: Books) {
    forall i :: |b0.log| <= i < |b.log| && b.log[i].Canceled? ==> WasOrdered(b0, b, i)
  }

  ghost predicate WasSet(b0: Books, b: Books, t: Timer, when: real) {
    exists k :: |b0.log| <= k < |b.log| && SetsDeadline(b.log[k], t, when)
  }

  /** Whatever was scheduled, a callback that has run set its deadline. */
  ghost predicate AllScheduled(b0: Books, b: Books) {
    forall t :: t in b.due && t !in b0.due ==> WasSet(b0, b, t, b.due[t])
  }

  /** All callbacks that have run since `b0` have had their effects, and nothing else has been cancelled or scheduled. */
  ghost predicate Obeyed(b0: Books, b: Books) {
    Grown(b0, b) && AllEffective(b0, b) && AllOrdered(b0, b) && AllScheduled(b0, b)
  }

  ghost predicate Grown(b0: Books, b: Books) {
    b0.log <= b.log && Later(b0.due, b.due) && b0.done <= b.done
  }

  lemma NothingObeyed(b: Books)
    ensures Obeyed(b, b)
  {
  }

  /** A timer that has been used up does not run again. */
  lemma UsedUpOnce(log: seq<Outcome>, log': seq<Outcome>, due: map<Timer, real>, done: set<Timer>, t: Timer)
    requires GoodLog(log', due, done) && log <= log' && t in UsedUp(log)
    ensures forall j :: |log| <= j < |log'| ==> log'[j].timer != t
  {
    var i :| 0 <= i < |log| && log[i].timer == t;
    assert log'[i].timer == t;
  }

  /** The callback of `timer` runs between `b`, in which the timer is alive, and `b'`. */
  ghost predicate RunsBetween(b: Books, timer: Timer, when: real, b': Books) {
    && timer !in b.done && b.log + [Fired(timer, when)] <= b'.log && b.done + {timer} <= b'.done
    && GoodLog(b.log, b.due, b.done) && GoodLog(b'.log, b'.due, b'.done)
    && Did(timer.script, |timer.script|, Ran(b, timer, when), b')
  }

  /** What has been used up does not run any more. */
  lemma NeverAgain(b: Books, b': Books, mark: int, t: Timer)
    requires b.log <= b'.log && GoodLog(b.log, b.due, b.done) && GoodLog(b'.log, b'.due, b'.done)
    requires t in b.done && mark <= |b.log| && NotFiredFrom(b.log, mark, t)
    ensures NotFiredFrom(b'.log, mark, t)
  {
    UsedUpOnce(b.log, b'.log, b'.due, b'.done, t);
    assert forall j :: 0 <= j < |b.log| ==> b'.log[j] == b.log[j];
  }

  lemma StillLasts(script: seq<Action>, due: map<Timer, real>, mark: int, b: Books, b': Books)
    requires AllLast(script, due, mark, b) && Grown(b, b') && mark <= |b.log|
    requires GoodLog(b.log, b.due, b.done) && GoodLog(b'.log, b'.due, b'.done)
    ensures AllLast(script, due, mark, b')
  {
    forall m | 0 <= m < |script|
      ensures Lasts(script, m, due, mark, b')
    {
      assert Lasts(script, m, due, mark, b);
      if Cancels(script, m, due) {
        NeverAgain(b, b', mark, script[m].timer);
      }
    }
  }

  lemma LastsFromNow(script: seq<Action>, due: map<Timer, real>, b: Books, b': Books, mark: int)
    requires Did(script, |script|, b, b') && Later(due, b.due) && |b.log| <= mark
    ensures AllLast(script, due, mark, b')
  {
    forall m | 0 <= m < |script|
      ensures Lasts(script, m, due, mark, b')
    {
      assert ActionDone(script, m, b, b');
      assert Cancels(script, m, due) ==> Cancels(script, m, b.due);
    }
  }

  lemma OldEffective(b0: Books, b: Books, b': Books, i: nat)
    requires i < |b.log| && Effective(b0, b, i) && Grown(b, b')
    requires GoodLog(b.log, b.due, b.done) && GoodLog(b'.log, b'.due, b'.done)
    ensures b'.log[i] == b.log[i] && Effective(b0, b', i)
  {
    if b.log[i].Fired? {
      StillLasts(b.log[i].timer.script, b0.due, i + 1, b, b');
    }
  }

  lemma NewEffective(b0: Books, b: Books, timer: Timer, when: real, b': Books, i: nat)
    requires RunsBetween(b, timer, when, b') && Later(b0.due, b.due) && |b.log| <= i < |b'.log|
    ensures Effective(b0, b', i)
  {
    assert b'.log[|b.log|] == Fired(timer, when);
    if i == |b.log| {
      LastsFromNow(timer.script, b0.due, Ran(b, timer, when), b', i + 1);
    }
  }

  lemma NewCancelOrdered(b: Books, timer: Timer, when: real, b': Books, i: nat)
    requires RunsBetween(b, timer, when, b') && |b.log| < i < |b'.log|
    ensures b'.log[|b.log|] == Fired(timer, when) && Cancel(b'.log[i].timer) in timer.script
  {
    var t := b'.log[i].timer;
    assert t in UsedUp(b'.log);
    if t in b.done + {timer} {
      LogsBefore(b, timer, when, b', t, i);
    }
  }

  lemma LogsBefore(b: Books, timer: Timer, when: real, b': Books, t: Timer, i: nat)
    requires RunsBetween(b, timer, when, b') && t in b.done + {timer} && |b.log| < i < |b'.log|
    ensures b'.log[i].timer != t
  {
    assert b'.log[|b.log|] == Fired(timer, when);
    if t != timer {
      var k :| 0 <= k < |b.log| && b.log[k].timer == t;
      assert b'.log[k] == b.log[k];
    }
  }

  lemma {:induction false} FirstSchedule(script: seq<Action>, n: nat, t: Timer) returns (j: nat)
    requires n <= |script| && SchedulesBefore(script, n, t)
    ensures j < n && script[j].Schedule? && script[j].timer == t && !SchedulesBefore(script, j, t)
  {
    j :| 0 <= j < n && script[j].Schedule? && script[j].timer == t;
    if SchedulesBefore(script, j, t) {
      j := FirstSchedule(script, j, t);
    }
  }

  lemma NewDeadline(b: Books, timer: Timer, when: real, b': Books, t: Timer)
    requires RunsBetween(b, timer, when, b') && t in b'.due && t !in b.due
    ensures b'.log[|b.log|] == Fired(timer, when) && SetsDeadline(Fired(timer, when), t, b'.due[t])
  {
    var j := FirstSchedule(timer.script, |timer.script|, t);
    assert ActionDone(timer.script, j, Ran(b, timer, when), b');
  }

  lemma EffectiveOn(b0: Books, b: Books, timer: Timer, when: real, b': Books)
    requires AllEffective(b0, b) && Later(b0.due, b.due) && |b0.log| <= |b.log| && RunsBetween(b, timer, when, b')
    ensures AllEffective(b0, b')
  {
    forall i | |b0.log| <= i < |b'.log|
      ensures Effective(b0, b', i)
    {
      if i < |b.log| {
        assert Effective(b0, b, i);
        OldEffective(b0, b, b', i);
      } else {
        NewEffective(b0, b, timer, when, b', i);
      }
    }
  }

  lemma OrderedOn(b0: Books, b: Books, timer: Timer, when: real, b': Books)
    requires AllOrdered(b0, b) && |b0.log| <= |b.log| && RunsBetween(b, timer, when, b')
    ensures AllOrdered(b0, b')
  {
    forall i | |b0.log| <= i < |b'.log| && b'.log[i].Canceled?
      ensures WasOrdered(b0, b', i)
    {
      if i < |b.log| {
        assert b'.log[i] == b.log[i];
        var k :| |b0.log| <= k < i && Orders(b.log[k], Cancel(b.log[i].timer));
        assert b'.log[k] == b.log[k];
      } else {
        assert b'.log[|b.log|] == Fired(timer, when);
        NewCancelOrdered(b, timer, when, b', i);
      }
    }
  }

  lemma ScheduledOn(b0: Books, b: Books, timer: Timer, when: real, b': Books)
    requires AllScheduled(b0, b) && |b0.log| <= |b.log| && RunsBetween(b, timer, when, b')
    ensures AllScheduled(b0, b')
  {
    forall t | t in b'.due && t !in b0.due
      ensures WasSet(b0, b', t, b'.due[t])
    {
      if t in b.due {
        OldDeadline(b0, b, b', t);
      } else {
        NewDeadline(b, timer, when, b', t);
      }
    }
  }

  lemma OldDeadline(b0: Books, b: Books, b': Books, t: Timer)
    requires AllScheduled(b0, b) && b.log <= b'.log && Later(b.due, b'.due) && t in b.due && t !in b0.due
    ensures WasSet(b0, b', t, b'.due[t])
  {
    var k :| |b0.log| <= k < |b.log| && SetsDeadline(b.log[k], t, b.due[t]);
    assert b'.log[k] == b.log[k];
  }

  /** One more callback. */
  lemma ObeyedOn(b0: Books, b: Books, timer: Timer, when: real, b': Books)
    requires Obeyed(b0, b) && RunsBetween(b, timer, when, b')
    ensures Obeyed(b0, b')
  {
    EffectiveOn(b0, b, timer, when, b');
    OrderedOn(b0, b, timer, when, b');
    ScheduledOn(b0, b, timer, when, b');
    GrowsOn(b0, b, timer, when, b');
  }

  lemma GrowsOn(b0: Books, b: Books, timer: Timer, when: real, b': Books)
    requires Grown(b0, b) && RunsBetween(b, timer, when, b')
    ensures Grown(b0, b')
  {
    LaterTwice(b0.due, b.due, b'.due);
  }

  lemma LaterTwice(due: map<Timer, real>, due': map<Timer, real>, due'': map<Timer, real>)
    requires Later(due, due') && Later(due', due'')
    ensures Later(due, due'')
  {
  }

  /** Every timer that has been used up meanwhile has run, unless a callback that ran before it cancelled it. */
  lemma RunsUnlessCanceled(b0: Books, b: Books, t: Timer) returns (i: nat)
    requires Obeyed(b0, b) && GoodLog(b0.log, b0.due, b0.done) && GoodLog(b.log, b.due, b.done)
    requires t in b.done && t !in b0.done
    ensures |b0.log| <= i < |b.log| && b.log[i].timer == t && (b.log[i].Fired? || WasOrdered(b0, b, i))
  {
    i :| 0 <= i < |b.log| && b.log[i].timer == t;
    assert forall k :: 0 <= k < |b0.log| ==> b0.log[k].timer in UsedUp(b0.log);
  }

  /** Nothing of this depends on what is held. */
  ghost predicate SameHistory(b: Books, b': Books) {
    b'.log == b.log && b'.done == b.done && b'.due == b.due
  }

  lemma SameObeyed(b0: Books, b0': Books, b: Books, b': Books)
    requires Obeyed(b0, b) && SameHistory(b0, b0') && SameHistory(b, b')
    ensures Obeyed(b0', b')
  {
    forall i | |b0'.log| <= i < |b'.log|
      ensures Effective(b0', b', i)
    {
      assert Effective(b0, b, i);
      if b.log[i].Fired? {
        SameLast(b.log[i].timer.script, b0.due, i + 1, b, b');
      }
    }
  }

  lemma SameLast(script: seq<Action>, due: map<Timer, real>, mark: int, b: Books, b': Books)
    requires AllLast(script, due, mark, b) && SameHistory(b, b')
    ensures AllLast(script, due, mark, b')
  {
    forall m | 0 <= m < |script|
      ensures Lasts(script, m, due, mark, b')
    {
      assert Lasts(script, m, due, mark, b);
    }
  }

  lemma SameDid(script: seq<Action>, b: Books, b1: Books, b': Books)
    requires Did(script, |script|, b, b') && SameHistory(b, b1)
    ensures Did(script, |script|, b1, b')
  {
    forall i | 0 <= i < |script|
      ensures ActionDone(script, i, b1, b')
    {
      assert ActionDone(script, i, b, b');
    }
  }

  /** The callbacks since `b0` ran for the time `now`, and were those of timers whose deadlines had passed. */
  ghost predicate Passed(b0: Books, b: Books, now: real) {
    forall j :: |b0.log| <= j < |b.log| && b.log[j].Fired? ==>
      b.log[j].at == now && b.log[j].timer in b0.due && b0.due[b.log[j].timer] <= now
  }

  lemma FiredPassed(b0: Books, b: Books, start: seq<Entry>, now: real)
    requires FiredExactly(b0.log, b, start, now) && Later(b0.due, b.due) && GoodLog(b.log, b.due, b.done)
    requires forall i :: 0 <= i < |start| ==> start[i].timer in b0.due && b0.due[start[i].timer] == start[i].when
    ensures Passed(b0, b, now)
  {
    forall j | |b0.log| <= j < |b.log| && b.log[j].Fired?
      ensures b.log[j].at == now && b.log[j].timer in b0.due && b0.due[b.log[j].timer] <= now
    {
      assert FiredFrom(b.log[j], b.due, start, now);
      var i :| 0 <= i < |start| && start[i] == Entry(b.due[b.log[j].timer], b.log[j].timer);
    }
  }

  // --- Runs of the hub ---

  /** What a script between two passes cancelled does not run any more after it, and what it scheduled is. */
  ghost predicate TurnDone(turn: Turn, mark: int, b0: Books, b: Books) {
    turn.Outside? ==> 0 <= mark <= |b.log| && AllLast(turn.script, b0.due, mark, b)
  }

  ghost predicate TurnsDone(turns: seq<Turn>, marks: seq<int>, b0: Books, b: Books) {
    |marks| <= |turns| && forall i :: 0 <= i < |marks| ==> TurnDone(turns[i], marks[i], b0, b)
  }

  lemma TurnStays(turn: Turn, mark: int, b0: Books, b: Books, b': Books)
    requires TurnDone(turn, mark, b0, b) && Grown(b, b')
    requires GoodLog(b.log, b.due, b.done) && GoodLog(b'.log, b'.due, b'.done)
    ensures TurnDone(turn, mark, b0, b')
  {
    if turn.Outside? {
      StillLasts(turn.script, b0.due, mark, b, b');
    }
  }

  lemma TurnsGoOn(turns: seq<Turn>, marks: seq<int>, b0: Books, b: Books, b': Books)
    requires TurnsDone(turns, marks, b0, b) && |marks| < |turns| && Grown(b, b') && Later(b0.due, b.due)
    requires GoodLog(b.log, b.due, b.done) && GoodLog(b'.log, b'.due, b'.done)
    requires turns[|marks|].Outside? ==> Did(turns[|marks|].script, |turns[|marks|].script|, b, b')
    ensures TurnsDone(turns, marks + [|b'.log|], b0, b')
  {
    forall i | 0 <= i < |marks| + 1
      ensures TurnDone(turns[i], (marks + [|b'.log|])[i], b0, b')
    {
      if i < |marks| {
        assert TurnDone(turns[i], marks[i], b0, b);
        TurnStays(turns[i], marks[i], b0, b, b');
      } else if turns[i].Outside? {
        LastsFromNow(turns[i].script, b0.due, b, b', |b'.log|);
      }
    }
  }

  ghost predicate TurnSets(turn: Turn, t: Timer, when: real) {
    turn.Outside? && exists m :: 0 <= m < |turn.script| && Sets(turn.script[m], t, when)
  }

  ghost predicate SetInRun(turns: seq<Turn>, n: nat, b0: Books, b: Books, t: Timer, when: real)
    requires n <= |turns|
  {
    WasSet(b0, b, t, when) || exists i :: 0 <= i < n && TurnSets(turns[i], t, when)
  }

  /** Whatever has been scheduled in the first `n` turns, one of their scripts or a callback set its deadline. */
  ghost predicate AllSet(turns: seq<Turn>, n: nat, b0: Books, b: Books)
    requires n <= |turns|
  {
    forall t :: t in b.due && t !in b0.due ==> SetInRun(turns, n, b0, b, t, b.due[t])
  }

  ghost predicate AskedInRun(turns: seq<Turn>, n: nat, b0: Books, b: Books, i: nat)
    requires n <= |turns| && i < |b.log|
  {
    WasOrdered(b0, b, i) || exists j :: 0 <= j < n && turns[j].Outside? && Cancel(b.log[i].timer) in turns[j].script
  }

  /** Whatever has been cancelled in the first `n` turns, one of their scripts or an earlier callback cancelled it. */
  ghost predicate AllAsked(turns: seq<Turn>, n: nat, b0: Books, b: Books)
    requires n <= |turns|
  {
    forall i :: |b0.log| <= i < |b.log| && b.log[i].Canceled? ==> AskedInRun(turns, n, b0, b, i)
  }

  /** What one turn does. */
  ghost predicate Took(turn: Turn, b: Books, b': Books) {
    && Grown(b, b') && AllEffective(b, b')
    && (if turn.Outside? then Did(turn.script, |turn.script|, b, b') else Obeyed(b, b') && Passed(b, b', turn.now))
  }

  lemma SetInTurn(turn: Turn, b: Books, b': Books, t: Timer)
    requires Took(turn, b, b') && t in b'.due && t !in b.due
    ensures TurnSets(turn, t, b'.due[t]) || WasSet(b, b', t, b'.due[t])
  {
    if turn.Outside? {
      var j := FirstSchedule(turn.script, |turn.script|, t);
      assert ActionDone(turn.script, j, b, b') && Sets(turn.script[j], t, b'.due[t]);
    }
  }

  lemma SetOn(turns: seq<Turn>, n: nat, b0: Books, b: Books, b': Books)
    requires n < |turns| && AllSet(turns, n, b0, b) && Grown(b0, b) && Took(turns[n], b, b')
    ensures AllSet(turns, n + 1, b0, b')
  {
    forall t | t in b'.due && t !in b0.due
      ensures SetInRun(turns, n + 1, b0, b', t, b'.due[t])
    {
      if t in b.due {
        assert SetInRun(turns, n, b0, b, t, b'.due[t]);
        assert forall k :: 0 <= k < |b.log| ==> b'.log[k] == b.log[k];
      } else {
        SetInTurn(turns[n], b, b', t);
      }
    }
  }

  lemma AskedInTurn(turn: Turn, b: Books, b': Books, i: nat)
    requires Took(turn, b, b') && |b.log| <= i < |b'.log| && b'.log[i].Canceled?
    requires GoodLog(b.log, b.due, b.done) && GoodLog(b'.log, b'.due, b'.done)
    ensures (turn.Outside? && Cancel(b'.log[i].timer) in turn.script) || WasOrdered(b, b', i)
  {
    if turn.Outside? {
      var t := b'.log[i].timer;
      assert t in UsedUp(b'.log);
      if t in b.done {
        UsedUpOnce(b.log, b'.log, b'.due, b'.done, t);
      }
    }
  }

  lemma AskedOn(turns: seq<Turn>, n: nat, b0: Books, b: Books, b': Books)
    requires n < |turns| && AllAsked(turns, n, b0, b) && Grown(b0, b) && Took(turns[n], b, b')
    requires GoodLog(b.log, b.due, b.done) && GoodLog(b'.log, b'.due, b'.done)
    ensures AllAsked(turns, n + 1, b0, b')
  {
    forall i | |b0.log| <= i < |b'.log| && b'.log[i].Canceled?
      ensures AskedInRun(turns, n + 1, b0, b', i)
    {
      if i < |b.log| {
        assert AskedInRun(turns, n, b0, b, i);
        assert forall k :: 0 <= k <= i ==> b'.log[k] == b.log[k];
      } else {
        AskedInTurn(turns[n], b, b', i);
      }
    }
  }

  /** How long the log was before the turn, if it was that of `b0` at first. */
  ghost function Mark(marks: seq<int>, b0: Books, i: nat): int
    requires i <= |marks|
  {
    if i == 0 then |b0.log| else marks[i - 1]
  }

  /** In this part of the log are callbacks that ran for the time of the pass, or none. */
  ghost predicate InTurn(turn: Turn, from: int, to: int, log: seq<Outcome>) {
    && 0 <= from <= to <= |log|
    && forall j :: from <= j < to && log[j].Fired? ==> turn.Iteration? && log[j].at == turn.now
  }

  /** The log consists of the parts of the turns. */
  ghost predicate Parted(turns: seq<Turn>, marks: seq<int>, b0: Books, b: Books) {
    && |marks| <= |turns| && Mark(marks, b0, |marks|) == |b.log|
    && forall i :: 0 <= i < |marks| ==> InTurn(turns[i], Mark(marks, b0, i), marks[i], b.log)
  }

  lemma PartedOn(turns: seq<Turn>, marks: seq<int>, b0: Books, b: Books, b': Books)
    requires Parted(turns, marks, b0, b) && |marks| < |turns| && Took(turns[|marks|], b, b')
    ensures Parted(turns, marks + [|b'.log|], b0, b')
  {
    var marks' := marks + [|b'.log|];
    forall i | 0 <= i < |marks'|
      ensures InTurn(turns[i], Mark(marks', b0, i), marks'[i], b'.log)
    {
      assert Mark(marks', b0, i) == Mark(marks, b0, i);
      if i < |marks| {
        assert InTurn(turns[i], Mark(marks, b0, i), marks[i], b.log);
      } else {
        LastPart(turns[i], b, b');
      }
    }
  }

  lemma LastPart(turn: Turn, b: Books, b': Books)
    requires Took(turn, b, b')
    ensures InTurn(turn, |b.log|, |b'.log|, b'.log)
  {
    if turn.Outside? {
      assert OnlyCancels(b.log, b'.log);
    }
  }

  /** What a run of the hub's loop owes, `marks` being how long the log was after each turn. */
  ghost predicate Owed(turns: seq<Turn>, marks: seq<int>, b0: Books, b: Books) {
    && Parted(turns, marks, b0, b) && Grown(b0, b) && AllEffective(b0, b) && TurnsDone(turns, marks, b0, b)
    && AllSet(turns, |marks|, b0, b) && AllAsked(turns, |marks|, b0, b)
  }

  lemma RunsOn(turns: seq<Turn>, marks: seq<int>, b0: Books, b: Books, b': Books)
    requires Owed(turns, marks, b0, b) && |marks| < |turns| && Took(turns[|marks|], b, b')
    requires GoodLog(b.log, b.due, b.done) && GoodLog(b'.log, b'.due, b'.done)
    ensures Owed(turns, marks + [|b'.log|], b0, b')
  {
    TurnsGoOn(turns, marks, b0, b, b');
    EffectiveAcross(b0, b, b');
    LaterTwice(b0.due, b.due, b'.due);
    SetOn(turns, |marks|, b0, b, b');
    AskedOn(turns, |marks|, b0, b, b');
    PartedOn(turns, marks, b0, b, b');
  }

  lemma EffectiveAcross(b0: Books, b: Books, b': Books)
    requires AllEffective(b0, b) && AllEffective(b, b') && Grown(b0, b) && Grown(b, b')
    requires GoodLog(b.log, b.due, b.done) && GoodLog(b'.log, b'.due, b'.done)
    ensures AllEffective(b0, b')
  {
    forall i | |b0.log| <= i < |b'.log|
      ensures Effective(b0, b', i)
    {
      if i < |b.log| {
        assert Effective(b0, b, i);
        OldEffective(b0, b, b', i);
      } else {
        EffectiveEarlier(b0, b, b', i);
      }
    }
  }

  lemma EffectiveEarlier(b0: Books, b: Books, b': Books, i: nat)
    requires i < |b'.log| && Effective(b, b', i) && Later(b0.due, b.due)
    ensures Effective(b0, b', i)
  {
    if b'.log[i].Fired? {
      LastEarlier(b'.log[i].timer.script, b0.due, b.due, i + 1, b');
    }
  }

  lemma LastEarlier(script: seq<Action>, due0: map<Timer, real>, due: map<Timer, real>, mark: int, b: Books)
    requires AllLast(script, due, mark, b) && Later(due0, due)
    ensures AllLast(script, due0, mark, b)
  {
    forall m | 0 <= m < |script|
      ensures Lasts(script, m, due0, mark, b)
    {
      assert Lasts(script, m, due, mark, b);
    }
  }

  lemma ScriptFiresNothing(script: seq<Action>, b: Books, b': Books)
    requires Did(script, |script|, b, b')
    ensures Grown(b, b') && AllEffective(b, b')
  {
  }

  // --- The drain ---

  /** While `fire_timers(when)` drains the list that held `start` and now holds `rest`: whatever has left the
      list was due and is used up, and the callbacks that ran since `base` ran in order of their deadlines. */
  ghost predicate Firing(base: seq<Outcome>, b: Books, start: seq<Entry>, rest: seq<Entry>, when: real) {
    && base <= b.log
    && IsHeap(rest)
    && (forall e :: e in rest ==> e in start && e.timer in b.due && b.due[e.timer] == e.when)
    && (forall e :: e in start ==> e in rest || (e.when <= when && e.timer in b.done))
    && (forall i :: |base| <= i < |b.log| && b.log[i].Fired? ==> FiredFrom(b.log[i], b.due, start, when))
    && (forall i, e :: |base| <= i < |b.log| && b.log[i].Fired? && e in rest ==> b.due[b.log[i].timer] <= e.when)
    && InOrder(base, b.log, b.due)
  }

  /** What `fire_timers(when)` owes to the heap `start` it found: every due entry is used up, and the callbacks
      that ran since `base` are those of due entries of `start`, in order of their deadlines. */
  ghost predicate FiredExactly(base: seq<Outcome>, b: Books, start: seq<Entry>, when: real) {
    && base <= b.log
    && (forall e :: e in start && e.when <= when ==> e.timer in b.done)
    && (forall i :: |base| <= i < |b.log| && b.log[i].Fired? ==> FiredFrom(b.log[i], b.due, start, when))
    && InOrder(base, b.log, b.due)
  }

  lemma FiringEnds(base: seq<Outcome>, b: Books, start: seq<Entry>, rest: seq<Entry>, when: real)
    requires Firing(base, b, start, rest, when) && (rest != [] ==> when < rest[0].when)
    ensures FiredExactly(base, b, start, when)
  {
    forall e | e in rest
      ensures when < e.when
    {
      var i :| 0 <= i < |rest| && rest[i] == e;
      RootIsLeast(rest, i);
    }
  }

  ghost predicate FiredFrom(o: Outcome, due: map<Timer, real>, start: seq<Entry>, when: real)
    requires o.Fired?
  {
    o.at == when && o.timer in due && Entry(due[o.timer], o.timer) in start
  }

  ghost predicate InOrder(base: seq<Outcome>, log: seq<Outcome>, due: map<Timer, real>) {
    forall i, j :: |base| <= i < j < |log| && log[i].Fired? && log[j].Fired? ==>
      log[i].timer in due && log[j].timer in due ==>
      due[log[i].timer] <= due[log[j].timer]
  }

  ghost predicate Calls(b: Books, timer: Timer, when: real, b': Books) {
    Did(timer.script, |timer.script|, Ran(b, timer, when), b')
  }

  /** The root leaves the list and, unless its timer was used up, runs. */
  ghost predicate Fires(b: Books, b': Books, rest: seq<Entry>, rest': seq<Entry>, when: real)
    requires rest != []
  {
    && Popped(rest, rest')
    && (if rest[0].timer in b.done then SameHistory(b, b') else Calls(b, rest[0].timer, when, b'))
  }

  ghost predicate Popped(heap: seq<Entry>, heap': seq<Entry>)
    requires heap != []
  {
    IsHeap(heap') && multiset(heap) == multiset(heap') + multiset{heap[0]} && |heap'| == |heap| - 1
  }

  /** One step of the drain: the root `e` leaves the list and, unless it was dead, runs. */
  lemma FiringPops(base: seq<Outcome>, b: Books, start: seq<Entry>, rest: seq<Entry>, rest': seq<Entry>, when: real)
    requires Firing(base, b, start, rest, when) && rest != [] && Popped(rest, rest') && rest[0].when <= when
    requires rest[0].timer in b.done
    ensures Firing(base, b, start, rest', when)
  {
    forall e | e in rest'
      ensures e in rest
    {
      assert e in multiset(rest') && e in multiset(rest);
    }
    forall e | e in rest && e != rest[0]
      ensures e in rest'
    {
      assert e in multiset(rest);
    }
  }

  lemma FiringCalls(base: seq<Outcome>, b: Books, b': Books, start: seq<Entry>, rest: seq<Entry>, when: real)
    requires Firing(base, b, start, rest, when) && rest != []
    requires b'.log == b.log + [Fired(rest[0].timer, when)] && b'.done == b.done + {rest[0].timer} && b'.due == b.due
    ensures Firing(base, b', start, rest, when)
  {
    forall e | e in rest
      ensures rest[0].when <= e.when
    {
      var i :| 0 <= i < |rest| && rest[i] == e;
      RootIsLeast(rest, i);
    }
  }

  lemma FiringSurvivesScript(base: seq<Outcome>, b: Books, b': Books, start: seq<Entry>, rest: seq<Entry>, when: real)
    requires Firing(base, b, start, rest, when)
    requires b.done <= b'.done && OnlyCancels(b.log, b'.log) && Later(b.due, b'.due)
    ensures Firing(base, b', start, rest, when)
  {
    forall i | |base| <= i < |b'.log| && b'.log[i].Fired?
      ensures i < |b.log| && b'.log[i] == b.log[i] && b.log[i].timer in b.due
    {
    }
  }

  /** One step of the drain keeps what it owes, and all callbacks have their effects. */
  lemma DrainGoesOn(b0: Books, b: Books, b': Books, start: seq<Entry>, rest: seq<Entry>, rest': seq<Entry>, when: real)
    requires Firing(b0.log, b, start, rest, when) && Obeyed(b0, b) && Balanced(b) && Balanced(b')
    requires rest != [] && rest[0].when <= when && Fires(b, b', rest, rest', when)
    ensures Firing(b0.log, b', start, rest', when) && Obeyed(b0, b')
  {
    var timer := rest[0].timer;
    if timer in b.done {
      FiringPops(b0.log, b, start, rest, rest', when);
      FiringSurvivesScript(b0.log, b, b', start, rest', when);
      SameObeyed(b0, b0, b, b');
    } else {
      var b1 := Ran(b, timer, when);
      FiringCalls(b0.log, b, b1, start, rest, when);
      FiringPops(b0.log, b1, start, rest, rest', when);
      FiringSurvivesScript(b0.log, b1, b', start, rest', when);
      ObeyedOn(b0, b, timer, when, b');
    }
  }

  lemma AllLater(heap: seq<Entry>)
    requires IsHeap(heap) && heap != []
    ensures forall e :: e in heap ==> heap[0].when <= e.when
  {
    forall e | e in heap
      ensures heap[0].when <= e.when
    {
      var i :| 0 <= i < |heap| && heap[i] == e;
      RootIsLeast(heap, i);
    }
  }

  lemma AliveInHeap(heap: seq<Entry>, b: Books)
    requires Balanced(b) && IsHeap(heap) && b.entries == Entries(heap, [])
    ensures forall t :: t in b.due && t !in b.done ==> Entry(b.due[t], t) in heap && heap[0].when <= b.due[t]
  {
    forall t | t in b.due && t !in b.done
      ensures Entry(b.due[t], t) in heap && heap[0].when <= b.due[t]
    {
      assert Entry(b.due[t], t) in b.entries;
      var i :| 0 <= i < |heap| && heap[i] == Entry(b.due[t], t);
      RootIsLeast(heap, i);
    }
  }

  lemma DueServed(before: Books, b: Books, start: seq<Entry>, now: real)
    requires forall t :: t in before.due && t !in before.done ==> Entry(before.due[t], t) in start
    requires before.done <= b.done && FiredExactly(before.log, b, start, now)
    ensures forall t :: t in before.due && before.due[t] <= now ==> t in b.done
  {
  }

  lemma EntriesMore(heap: seq<Entry>, heap': seq<Entry>, rest: seq<Entry>, e: Entry)
    requires multiset(heap') == multiset(heap) + multiset{e}
    ensures Entries(heap', rest) == Entries(heap, [e] + rest)
  {
    assert multiset([e] + rest) == multiset{e} + multiset(rest);
  }

  lemma EntriesLess(heap: seq<Entry>, heap': seq<Entry>, next: seq<Entry>, e: Entry)
    requires multiset(heap) == multiset(heap') + multiset{e}
    ensures e in Entries(heap, next) && Entries(heap, next) - multiset{e} == Entries(heap', next)
  {
  }

  lemma {:induction false} EntriesCount(entries: multiset<Entry>, held: set<Timer>, due: map<Timer, real>)
    requires HoldsEach(entries, held, due)
    ensures |entries| == |held|
    decreases held
  {
    if held == {} {
      assert entries == multiset{};
    } else {
      var t :| t in held;
      var e := Entry(due[t], t);
      EntriesCount(entries - multiset{e}, held - {t}, due);
      assert entries == (entries - multiset{e}) + multiset{e};
    }
  }

  lemma LogExtends(log: seq<Outcome>, due: map<Timer, real>, done: set<Timer>, o: Outcome)
    requires GoodLog(log, due, done)
    requires o.timer in due && o.timer !in done && (o.Fired? ==> due[o.timer] <= o.at)
    ensures GoodLog(log + [o], due, done + {o.timer})
  {
    var l := log + [o];
    assert l[|log|] == o;
    forall t | t in UsedUp(log)
      ensures t in UsedUp(l)
    {
      var i :| 0 <= i < |log| && log[i].timer == t;
      assert l[i].timer == t;
    }
    assert UsedUp(l) == UsedUp(log) + {o.timer};
  }

  lemma AddedBalances(b: Books, t: Timer, when: real)
    requires Balanced(b) && t !in b.due
    ensures Balanced(Added(b, t, when))
  {
    AddedHolds(b.entries, b.held, b.due, t, when);
    assert (b.held + {t}) * b.done == b.held * b.done;
    assert GoodLog(b.log, b.due[t := when], b.done);
  }

  lemma NextAdded(heap: seq<Entry>, next: seq<Entry>, b: Books, t: Timer, when: real) returns (b': Books)
    requires Balanced(b) && b.entries == Entries(heap, next) && t !in b.due
    ensures Balanced(b') && b'.entries == Entries(heap, next + [Entry(when, t)])
    ensures b'.due == b.due[t := when] && b'.done == b.done && b'.log == b.log && b'.canceled == b.canceled
  {
    EntriesAppend(heap, next, Entry(when, t));
    AddedBalances(b, t, when);
    b' := Added(b, t, when);
  }

  lemma AddedHolds(entries: multiset<Entry>, held: set<Timer>, due: map<Timer, real>, t: Timer, when: real)
    requires HoldsEach(entries, held, due) && t !in due
    ensures HoldsEach(entries + multiset{Entry(when, t)}, held + {t}, due[t := when])
  {
    var entries' := entries + multiset{Entry(when, t)};
    forall e | e in entries'
      ensures entries'[e] == 1 && e.timer in held + {t} && e.when == due[t := when][e.timer]
    {
      if e in entries {
        assert e.timer in held;
      }
    }
  }

  lemma CanceledBalances(b: Books, t: Timer)
    requires Balanced(b) && t in b.due && t !in b.done
    ensures Balanced(CountedCancel(b, t))
  {
    LogExtends(b.log, b.due, b.done, Canceled(t));
    assert b.held * (b.done + {t}) == b.held * b.done + {t};
  }

  /** Compaction loses no live timer, and what remains is at most half if the counter had reached half. */
  lemma CompactedBalances(b: Books, live: multiset<Entry>)
    requires Balanced(b)
    requires forall e :: live[e] == if e.timer in b.done then 0 else b.entries[e]
    ensures Balanced(Compacted(b, live))
    ensures |b.entries| <= 2 * b.canceled ==> 2 * |live| <= |b.entries|
  {
    EntriesCount(b.entries, b.held, b.due);
    EntriesCount(live, b.held - b.done, b.due);
    assert b.held == (b.held - b.done) + b.held * b.done;
  }

  ghost function Live(s: seq<Entry>, done: set<Timer>): seq<Entry> {
    if s == [] then [] else (if s[0].timer in done then [] else [s[0]]) + Live(s[1..], done)
  }

  lemma {:induction false} LiveKeeps(s: seq<Entry>, done: set<Timer>, e: Entry)
    ensures multiset(Live(s, done))[e] == if e.timer in done then 0 else multiset(s)[e]
  {
    if s != [] {
      LiveKeeps(s[1..], done, e);
      assert s == [s[0]] + s[1..];
    }
  }

  lemma CompactionHalves(heap: seq<Entry>, next: seq<Entry>, b: Books)
    requires Balanced(b) && b.entries == Entries(heap, next) && |heap| + |next| <= 2 * b.canceled
    ensures Balanced(Compacted(b, Entries(Live(heap, b.done), Live(next, b.done))))
    ensures 2 * (|Live(heap, b.done)| + |Live(next, b.done)|) <= |heap| + |next|
  {
    var live := Entries(Live(heap, b.done), Live(next, b.done));
    forall e ensures live[e] == if e.timer in b.done then 0 else b.entries[e] {
      LiveKeeps(heap, b.done, e);
      LiveKeeps(next, b.done, e);
    }
    CompactedBalances(b, live);
    EntriesSize(heap, next);
    EntriesSize(Live(heap, b.done), Live(next, b.done));
  }

  lemma EntriesSize(heap: seq<Entry>, next: seq<Entry>)
    ensures |Entries(heap, next)| == |heap| + |next|
  {
  }

  lemma DeadDroppedBalances(b: Books, e: Entry)
    requires Balanced(b) && e in b.entries && e.timer in b.done
    ensures Balanced(Uncounted(Dropped(b, e)))
  {
    assert (b.held - {e.timer}) * b.done == b.held * b.done - {e.timer};
  }

  lemma FiredBalances(b: Books, e: Entry, at: real)
    requires Balanced(b) && e in b.entries && e.timer !in b.done && e.when <= at
    ensures Balanced(Ran(Dropped(b, e), e.timer, at))
  {
    LogExtends(b.log, b.due, b.done, Fired(e.timer, at));
    assert (b.held - {e.timer}) * (b.done + {e.timer}) == b.held * b.done;
  }

  /** Firing from a list that compaction has replaced leaves a dead entry in the new one. */
  lemma FiredFromReplacedBalances(b: Books, t: Timer, at: real)
    requires Balanced(b) && t in b.due && t !in b.done && b.due[t] <= at
    ensures Balanced(Ran(b, t, at))
  {
    LogExtends(b.log, b.due, b.done, Fired(t, at));
    assert b.held * (b.done + {t}) == b.held * b.done + {t};
  }

  class Hub {
    var timers: TimerList
    var nextTimers: seq<Entry>
    var timersCanceled: int
    var due: map<Timer, real>

    ghost const world: set<Timer>
    ghost var books: Books

    /** The fields agree with the books, except that `k` cancellations are not yet counted. */
    ghost predicate Agrees(k: int)
      reads this, timers, world
    {
      && IsHeap(timers.items)
      && books.entries == Entries(timers.items, nextTimers)
      && books.canceled == timersCanceled + k && books.due == due
      && due.Keys <= world
      && (forall t :: t in world ==> (t.called <==> t in books.done))
    }

    ghost predicate Valid()
      reads this, timers, world
    {
      Agrees(0) && Balanced(books)
    }

    constructor (ghost world: set<Timer>)
      requires forall t :: t in world ==> !t.called
      ensures Valid() && fresh(timers) && due == map[] && books.log == [] && this.world == world
    {
      timers := new TimerList([]);
      nextTimers, timersCanceled, due := [], 0, map[];
      this.world, books := world, Books(multiset{}, {}, 0, map[], {}, []);
    }

    method AddTimer(timer: Timer, now: real)
      requires Valid() && timer in world && timer !in due
      modifies this`nextTimers, this`due, this`books
      ensures Valid() && due == old(due)[timer := now + timer.seconds]
      ensures nextTimers == old(nextTimers) + [Entry(now + timer.seconds, timer)]
      ensures books.done == old(books.done) && books.log == old(books.log)
    {
      var scheduledTime := now + timer.seconds;
      ghost var b := NextAdded(timers.items, nextTimers, books, timer, scheduledTime);
      Enter(timer, scheduledTime, b);
    }

    method Enter(timer: Timer, when: real, ghost b: Books)
      requires Agrees(0) && timer in world && b.entries == Entries(timers.items, nextTimers + [Entry(when, timer)])
      requires b.due == books.due[timer := when] && b.done == books.done && b.canceled == books.canceled
      modifies this`nextTimers, this`due, this`books
      ensures Agrees(0) && books == b && due == old(due)[timer := when]
      ensures nextTimers == old(nextTimers) + [Entry(when, timer)]
    {
      nextTimers, due, books := nextTimers + [Entry(when, timer)], due[timer := when], b;
    }

    /** `Timer.cancel`, which reports to the hub. */
    method Cancel(timer: Timer)
      requires Valid() && timer in due
      modifies this`timers, this`nextTimers, this`timersCanceled, this`books, timer
      ensures Valid() && (timers == old(timers) || fresh(timers))
      ensures books.done == old(books.done) + {timer}
      ensures books.log == if timer in old(books.done) then old(books.log) else old(books.log) + [Canceled(timer)]
      ensures !old(timer.called) ==> FewDead()
    {
      if !timer.called {
        MarkCalled(timer);
        TimerCanceled();
      }
    }

    method MarkCalled(timer: Timer)
      requires Valid() && timer in due && !timer.called
      modifies this`books, timer
      ensures Agrees(1) && Balanced(books)
      ensures books.done == old(books.done) + {timer} && books.log == old(books.log) + [Canceled(timer)]
    {
      CanceledBalances(books, timer);
      timer.called := true;
      books := CountedCancel(books, timer);
    }

    /** Few entries are held, or the dead ones that are counted are fewer than half of them. */
    predicate FewDead()
      reads this, timers
    {
      |timers.items| + |nextTimers| <= COMPACTION_THRESHOLD || 2 * timersCanceled < |timers.items| + |nextTimers|
    }

    /** Counts one more dead entry, and drops all dead entries once they may be half of the many held. */
    method TimerCanceled()
      requires Agrees(1) && Balanced(books)
      modifies this`timers, this`nextTimers, this`timersCanceled, this`books
      ensures Valid() && (timers == old(timers) || fresh(timers))
      ensures books.done == old(books.done) && books.log == old(books.log)
      ensures timers != old(timers) ==>
        2 * (|timers.items| + |nextTimers|) <= |old(timers.items)| + |old(nextTimers)|
      ensures FewDead()
    {
      CountOne();
      var lenTimers := |timers.items| + |nextTimers|;
      if lenTimers > COMPACTION_THRESHOLD && lenTimers <= 2 * timersCanceled {
        Compact();
      }
    }

    method CountOne()
      requires Agrees(1) && Balanced(books)
      modifies this`timersCanceled
      ensures Valid()
    {
      timersCanceled := timersCanceled + 1;
    }

    method Compact()
      requires Valid() && |timers.items| + |nextTimers| <= 2 * timersCanceled
      modifies this`timers, this`nextTimers, this`timersCanceled, this`books
      ensures Valid() && fresh(timers) && FewDead()
      ensures books.done == old(books.done) && books.log == old(books.log)
      ensures 2 * (|timers.items| + |nextTimers|) <= |old(timers.items)| + |old(nextTimers)|
    {
      HeldInWorld(timers.items, nextTimers, books);
      CompactionHalves(timers.items, nextTimers, books);
      var live := WithoutCalled(timers.items);
      var nextLive := WithoutCalled(nextTimers);
      Install(live, nextLive, Compacted(books, Entries(live, nextLive)));
    }

    method Install(list: seq<Entry>, next: seq<Entry>, ghost b: Books)
      requires due.Keys <= world && forall t :: t in world ==> (t.called <==> t in b.done)
      requires b.entries == Entries(list, next) && b.canceled == 0 && b.due == due
      modifies this`timers, this`nextTimers, this`timersCanceled, this`books
      ensures Agrees(0) && fresh(timers) && books == b
      ensures |timers.items| == |list| && nextTimers == next && timersCanceled == 0
    {
      var heap := Heapify(list);
      HeapifiedEntries(list, heap, next);
      var l := new TimerList(heap);
      timers, nextTimers, timersCanceled, books := l, next, 0, b;
    }

    method WithoutCalled(s: seq<Entry>) returns (r: seq<Entry>)
      requires forall t :: t in world ==> (t.called <==> t in books.done)
      requires forall i :: 0 <= i < |s| ==> s[i].timer in world
      ensures r == Live(s, books.done)
    {
      r := [];
      for i := 0 to |s|
        invariant r + Live(s[i..], books.done) == Live(s, books.done)
      {
        if !s[i].timer.called {
          r := r + [s[i]];
        }
      }
    }

    method Commit(heap: seq<Entry>, next: seq<Entry>, canceled: int, ghost b: Books)
      requires IsHeap(heap) && due.Keys <= world && forall t :: t in world ==> (t.called <==> t in b.done)
      requires b.entries == Entries(heap, next) && b.canceled == canceled && b.due == due
      modifies this`nextTimers, this`timersCanceled, this`books, timers
      ensures Agrees(0) && timers.items == heap && nextTimers == next && books == b
    {
      timers.items, nextTimers, timersCanceled, books := heap, next, canceled, b;
    }

    method PrepareTimers()
      requires Valid()
      modifies this`nextTimers, this`timersCanceled, this`books, timers
      ensures Valid() && nextTimers == []
      ensures books.done == old(books.done) && books.log == old(books.log)
    {
      while nextTimers != []
        invariant Valid() && timers == old(timers)
        invariant books.done == old(books.done) && books.log == old(books.log)
        decreases |nextTimers|
      {
        PrepareOne();
      }
    }

    method PrepareOne()
      requires Valid() && nextTimers != []
      modifies this`nextTimers, this`timersCanceled, this`books, timers
      ensures Valid() && nextTimers == old(nextTimers)[1..]
      ensures books.done == old(books.done) && books.log == old(books.log)
    {
      HeldInWorld(timers.items, nextTimers, books);
      if nextTimers[0].timer.called {
        DropNext();
      } else {
        PushNext();
      }
    }

    method DropNext()
      requires Valid() && nextTimers != [] && nextTimers[0].timer in world && nextTimers[0].timer.called
      modifies this`nextTimers, this`timersCanceled, this`books, timers
      ensures Valid() && nextTimers == old(nextTimers)[1..]
      ensures books.done == old(books.done) && books.log == old(books.log)
    {
      EntriesFirst(timers.items, nextTimers);
      DeadDroppedBalances(books, nextTimers[0]);
      Commit(timers.items, nextTimers[1..], timersCanceled - 1, Uncounted(Dropped(books, nextTimers[0])));
    }

    method PushNext()
      requires Valid() && nextTimers != []
      modifies this`nextTimers, this`timersCanceled, this`books, timers
      ensures Valid() && nextTimers == old(nextTimers)[1..]
      ensures books.done == old(books.done) && books.log == old(books.log)
    {
      var item := nextTimers[0];
      var heap := HeapPush(timers.items, item);
      assert nextTimers == [item] + nextTimers[1..];
      EntriesMore(timers.items, heap, nextTimers[1..], item);
      Commit(heap, nextTimers[1..], timersCanceled, books);
    }

    /** The earliest deadline in the heap. */
    function SleepUntil(): (r: Option<real>)
      requires IsHeap(timers.items)
      reads this, timers
      ensures r.None? <==> timers.items == []
      ensures r.Some? ==> exists e :: e in timers.items && e.when == r.value
      ensures r.Some? ==> forall e :: e in timers.items ==> r.value <= e.when
    {
      if timers.items == [] then None
      else
        AllLater(timers.items);
        assert timers.items[0] in timers.items;
        Some(timers.items[0].when)
    }

    /** What the running callback of a timer does to the hub. */
    method RunScript(script: seq<Action>)
      requires Valid() && forall i :: 0 <= i < |script| ==> script[i].timer in world
      modifies this`timers, this`nextTimers, this`timersCanceled, this`due, this`books, world
      ensures Valid() && (timers == old(timers) || fresh(timers))
      ensures Did(script, |script|, old(books), books)
    {
      ghost var trail := [books];
      for i := 0 to |script|
        invariant Valid() && (timers == old(timers) || fresh(timers))
        invariant |trail| == i + 1 && trail[0] == old(books) && trail[i] == books
        invariant ActedAlong(script, trail)
      {
        Act(script[i]);
        ActedOnce(script, trail, books);
        trail := trail + [books];
      }
      DidAll(script, trail, |script|);
    }

    /** Runs the callback of a timer, which has just been entered in the log. */
    method Callback(timer: Timer, ghost b: Books)
      requires Valid() && forall i :: 0 <= i < |timer.script| ==> timer.script[i].timer in world
      requires SameHistory(b, books)
      modifies this`timers, this`nextTimers, this`timersCanceled, this`due, this`books, world
      ensures Valid() && (timers == old(timers) || fresh(timers))
      ensures Did(timer.script, |timer.script|, b, books)
    {
      ghost var b1 := books;
      RunScript(timer.script);
      SameDid(timer.script, b1, b, books);
    }

    method Act(a: Action)
      requires Valid() && a.timer in world
      modifies this`timers, this`nextTimers, this`timersCanceled, this`due, this`books, world
      ensures Valid() && (timers == old(timers) || fresh(timers))
      ensures DidOne(a, old(books), books)
    {
      if a.Schedule? && a.timer !in due {
        ActSchedule(a.timer, a.now);
      } else if a.Cancel? && a.timer in due {
        ActCancel(a.timer);
      }
    }

    method ActSchedule(timer: Timer, now: real)
      requires Valid() && timer in world && timer !in due
      modifies this`nextTimers, this`due, this`books
      ensures Valid() && DidOne(Schedule(timer, now), old(books), books)
    {
      AddTimer(timer, now);
    }

    method ActCancel(timer: Timer)
      requires Valid() && timer in due
      modifies this`timers, this`nextTimers, this`timersCanceled, this`books, timer
      ensures Valid() && (timers == old(timers) || fresh(timers))
      ensures DidOne(Action.Cancel(timer), old(books), books)
    {
      OneMoreCancel(books.log, timer);
      Cancel(timer);
    }

    /** Removes the called timer at the root of the current list. */
    method DropRoot()
      requires Valid() && timers.items != [] && timers.items[0].timer.called && timers.items[0].timer in world
      modifies this`nextTimers, this`timersCanceled, this`books, timers
      ensures Valid() && Popped(old(timers.items), timers.items)
      ensures SameHistory(old(books), books)
    {
      var e := timers.items[0];
      var rest := HeapPop(timers.items);
      DeadRootLeaves(timers.items, rest, nextTimers, books);
      Commit(rest, nextTimers, timersCanceled - 1, Uncounted(Dropped(books, e)));
    }

    /** Removes the timer at the root of the current list, which is about to run. */
    method CallRoot(when: real)
      requires Valid() && timers.items != [] && timers.items[0].when <= when
      requires !timers.items[0].timer.called && timers.items[0].timer in world
      modifies this`nextTimers, this`timersCanceled, this`books, timers, timers.items[0].timer
      ensures Valid() && Popped(old(timers.items), timers.items)
      ensures SameHistory(Ran(old(books), old(timers.items)[0].timer, when), books)
    {
      var e := timers.items[0];
      var rest := HeapPop(timers.items);
      LiveRootLeaves(timers.items, rest, nextTimers, books, when);
      CommitCall(rest, e.timer, Ran(Dropped(books, e), e.timer, when));
    }

    method CommitCall(heap: seq<Entry>, timer: Timer, ghost b: Books)
      requires IsHeap(heap) && due.Keys <= world && forall t :: t in world ==> (t.called <==> t in books.done)
      requires b.entries == Entries(heap, nextTimers) && b.canceled == timersCanceled && b.due == due
      requires b.done == books.done + {timer}
      modifies this`books, timers, timer
      ensures Agrees(0) && timers.items == heap && books == b
    {
      timers.items, timer.called, books := heap, true, b;
    }

    /** The same for a list that compaction has replaced meanwhile. */
    method DropReplacedRoot(t: TimerList)
      requires Valid() && t != timers && IsHeap(t.items) && t.items != []
      modifies this`timersCanceled, this`books, t
      ensures Valid() && Popped(old(t.items), t.items)
      ensures SameHistory(old(books), books)
    {
      var rest := HeapPop(t.items);
      CommitReplacedDrop(t, rest);
    }

    method CommitReplacedDrop(t: TimerList, heap: seq<Entry>)
      requires Agrees(0) && t != timers
      modifies this`timersCanceled, this`books, t
      ensures Agrees(0) && t.items == heap && books == Uncounted(old(books))
    {
      t.items, timersCanceled, books := heap, timersCanceled - 1, Uncounted(books);
    }

    method CallReplacedRoot(t: TimerList, when: real)
      requires Valid() && t != timers && IsHeap(t.items) && t.items != [] && t.items[0].when <= when
      requires t.items[0].timer in due && due[t.items[0].timer] == t.items[0].when && !t.items[0].timer.called
      modifies this`books, t, t.items[0].timer
      ensures Valid() && Popped(old(t.items), t.items)
      ensures SameHistory(Ran(old(books), old(t.items)[0].timer, when), books)
    {
      var e := t.items[0];
      var rest := HeapPop(t.items);
      FiredFromReplacedBalances(books, e.timer, when);
      CommitReplacedCall(t, rest, e.timer, Ran(books, e.timer, when));
    }

    method CommitReplacedCall(t: TimerList, heap: seq<Entry>, timer: Timer, ghost b: Books)
      requires Agrees(0) && t != timers && timer in world
      requires b.entries == books.entries && b.canceled == books.canceled && b.due == books.due
      requires b.done == books.done + {timer}
      modifies this`books, t, timer
      ensures Agrees(0) && t.items == heap && books == b
    {
      t.items, timer.called, books := heap, true, b;
    }

    method FireTimers(when: real)
      requires Valid() && Closed()
      modifies this`timers, this`nextTimers, this`timersCanceled, this`due, this`books, timers, world
      ensures Valid() && (timers == old(timers) || fresh(timers))
      ensures FiredExactly(old(books.log), books, old(timers.items), when)
      ensures Obeyed(old(books), books) && Passed(old(books), books, when)
    {
      var t := timers;
      ghost var b0, start := books, t.items;
      HeldInWorld(timers.items, nextTimers, books);
      NothingObeyed(books);
      while t.items != [] && t.items[0].when <= when
        invariant Valid() && (timers == t || fresh(timers))
        invariant Firing(b0.log, books, start, t.items, when) && Obeyed(b0, books)
        decreases |t.items|
      {
        ghost var b, rest := books, t.items;
        FireRoot(t, when);
        DrainGoesOn(b0, b, books, start, rest, t.items, when);
      }
      FiringEnds(b0.log, books, start, t.items, when);
      FiredPassed(b0, books, start, when);
    }

    /** Every callback acts only on timers of `world`. */
    ghost predicate Closed() {
      forall t :: t in world ==> forall i :: 0 <= i < |t.script| ==> t.script[i].timer in world
    }

    /** The body of the loop in `fire_timers`, which drains `t` even after `timers` refers to another list. */
    method FireRoot(t: TimerList, when: real)
      requires Valid() && Closed() && IsHeap(t.items) && Due(t, when)
      modifies this`timers, this`nextTimers, this`timersCanceled, this`due, this`books, t, world
      ensures Valid() && (timers == old(timers) || fresh(timers))
      ensures Fires(old(books), books, old(t.items), t.items, when)
    {
      if t.items[0].timer.called {
        TakeDead(t);
      } else {
        FireLive(t, when);
      }
    }

    method FireLive(t: TimerList, when: real)
      requires Valid() && Closed() && IsHeap(t.items) && Due(t, when) && !t.items[0].timer.called
      modifies this`timers, this`nextTimers, this`timersCanceled, this`due, this`books, t, world
      ensures Valid() && (timers == old(timers) || fresh(timers))
      ensures Popped(old(t.items), t.items)
      ensures Calls(old(books), old(t.items)[0].timer, when, books)
    {
      var timer := t.items[0].timer;
      ghost var b := books;
      TakeRoot(t, when);
      Callback(timer, Ran(b, timer, when));
    }

    /** The first entry of `t` is due. */
    ghost predicate Due(t: TimerList, when: real)
      reads this, t
    {
      && t.items != [] && t.items[0].when <= when
      && t.items[0].timer in world && t.items[0].timer in due && due[t.items[0].timer] == t.items[0].when
    }

    method TakeDead(t: TimerList)
      requires Valid() && IsHeap(t.items) && t.items != [] && t.items[0].timer in world && t.items[0].timer.called
      modifies this`nextTimers, this`timersCanceled, this`books, t
      ensures Valid() && Popped(old(t.items), t.items) && SameHistory(old(books), books)
    {
      if t == timers {
        DropRoot();
      } else {
        DropReplacedRoot(t);
      }
    }

    method TakeRoot(t: TimerList, when: real)
      requires Valid() && IsHeap(t.items) && Due(t, when) && !t.items[0].timer.called
      modifies this`nextTimers, this`timersCanceled, this`books, t, t.items[0].timer
      ensures Valid() && Popped(old(t.items), t.items)
      ensures SameHistory(Ran(old(books), old(t.items)[0].timer, when), books)
    {
      if t == timers {
        CallRoot(when);
      } else {
        CallReplacedRoot(t, when);
      }
    }

    /** One pass of `BaseHub.run`: no timer whose deadline has passed stays unserved, every callback has its effect, and the
        hub does not sleep beyond the deadline of any timer still alive. */
    method Iterate(now: real) returns (wakeup: Option<real>)
      requires Valid() && Closed()
      modifies this`timers, this`nextTimers, this`timersCanceled, this`due, this`books, timers, world
      ensures Valid() && (timers == old(timers) || fresh(timers))
      ensures forall t :: t in old(due) && old(due)[t] <= now ==> t in books.done
      ensures Obeyed(old(books), books) && Passed(old(books), books, now)
      ensures forall t :: t in due && t !in books.done ==> wakeup.Some? && wakeup.value <= due[t]
    {
      ghost var b0 := books;
      Serve(now);
      ghost var b := books;
      wakeup := Settle();
      SameObeyed(b0, b0, b, books);
    }

    method Serve(now: real)
      requires Valid() && Closed()
      modifies this`timers, this`nextTimers, this`timersCanceled, this`due, this`books, timers, world
      ensures Valid() && (timers == old(timers) || fresh(timers))
      ensures forall t :: t in old(due) && old(due)[t] <= now ==> t in books.done
      ensures Obeyed(old(books), books) && Passed(old(books), books, now)
    {
      ghost var b0 := books;
      PrepareTimers();
      AliveInHeap(timers.items, books);
      ghost var before, start := books, timers.items;
      FireTimers(now);
      DueServed(before, books, start, now);
      SameObeyed(before, b0, books, books);
    }

    method Settle() returns (wakeup: Option<real>)
      requires Valid()
      modifies this`nextTimers, this`timersCanceled, this`books, timers
      ensures Valid() && SameHistory(old(books), books) && timers == old(timers)
      ensures forall t :: t in due && t !in books.done ==> wakeup.Some? && wakeup.value <= due[t]
    {
      PrepareTimers();
      AliveInHeap(timers.items, books);
      wakeup := SleepUntil();
    }

    /** Any sequence of passes, with any scripts of scheduling and cancelling in between. `marks` is how long the log was
        after each turn. */
    method Run(turns: seq<Turn>) returns (ghost marks: seq<int>)
      requires Valid() && Closed()
      requires forall i, j :: 0 <= i < |turns| && turns[i].Outside? && 0 <= j < |turns[i].script| ==>
        turns[i].script[j].timer in world
      modifies this`timers, this`nextTimers, this`timersCanceled, this`due, this`books, timers, world
      ensures Valid() && GoodLog(books.log, due, books.done)
      ensures forall t :: t in due && !t.called ==> Entry(due[t], t) in Entries(timers.items, nextTimers)
      ensures |marks| == |turns| && Owed(turns, marks, old(books), books)
    {
      ghost var b0 := books;
      marks := [];
      for i := 0 to |turns|
        invariant Valid() && (timers == old(timers) || fresh(timers))
        invariant |marks| == i && Owed(turns, marks, b0, books)
      {
        ghost var b := books;
        TakeTurn(turns[i]);
        RunsOn(turns, marks, b0, b, books);
        marks := marks + [|books.log|];
      }
    }

    method TakeTurn(turn: Turn)
      requires Valid() && Closed()
      requires turn.Outside? ==> forall j :: 0 <= j < |turn.script| ==> turn.script[j].timer in world
      modifies this`timers, this`nextTimers, this`timersCanceled, this`due, this`books, timers, world
      ensures Valid() && (timers == old(timers) || fresh(timers))
      ensures Took(turn, old(books), books)
    {
      ghost var b := books;
      match turn
      case Outside(script) =>
        RunScript(script);
        ScriptFiresNothing(script, b, books);
      case Iteration(now) =>
        var _ := Iterate(now);
    }
  }
}
