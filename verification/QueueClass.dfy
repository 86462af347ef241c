/** The queue as the object the program mutates, refining the segments of module `Queues`. */
module QueueClass {
  import opened Options
  import opened Queues

  datatype PutResult = Stored | PutBlocked | Full
  datatype GetResult = Got(entry: Entry) | GetBlocked | Empty

  class Queue {
    var maxsize: Option<int>
    var queue: seq<Entry>
    var getters: set<Call>
    var putters: set<Putter>
    var gone: set<Putter>
    var eventUnlock: bool
    var unfinishedTasks: int
    var condReady: bool

    /** The same, with the suspended calls and the history that the program itself does not record. */
    var state: State
    ghost const initialSize: Option<int>
    ghost var trace: seq<Op>

    /** The fields are those of the state reached by the segments run so far, so that all that is proved of runs
        in module `Queues` holds of them. */
    ghost predicate Valid()
      reads this
    {
      Shows(state) && Reaches(Init(initialSize), trace, state)
    }

    ghost predicate Shows(s: State)
      reads this
    {
      && maxsize == s.maxsize && queue == s.queue && getters == s.getters && putters == s.putters && gone == s.gone
      && eventUnlock == s.eventUnlock && unfinishedTasks == s.unfinishedTasks && condReady == s.condReady
    }

    constructor (maxsize: Option<int>)
      ensures Valid() && state == Init(maxsize) && initialSize == maxsize && trace == []
    {
      var s := Init(maxsize);
      this.maxsize, queue, getters, putters, gone := s.maxsize, s.queue, s.getters, s.putters, s.gone;
      eventUnlock, unfinishedTasks, condReady := s.eventUnlock, s.unfinishedTasks, s.condReady;
      initialSize, trace, state := maxsize, [], s;
    }

    method Did(op: Op)
      requires Enabled(state, op) && Reaches(Init(initialSize), trace, state)
      modifies this`trace, this`state
      ensures state == Step(old(state), op) && trace == old(trace) + [op]
      ensures Reaches(Init(initialSize), trace, state)
    {
      ReachesOneMore(Init(initialSize), trace, state, op);
      trace, state := trace + [op], Step(state, op);
    }

    method ScheduleUnlock()
      modifies this`eventUnlock
      ensures eventUnlock
    {
      if !eventUnlock {
        eventUnlock := true;
      }
    }

    /** `Queue._put` and `_put_bookkeeping`. */
    method PutItem(e: Entry)
      modifies this`queue, this`unfinishedTasks, this`condReady
      ensures queue == old(queue) + [e] && unfinishedTasks == old(unfinishedTasks) + 1 && !condReady
    {
      queue := queue + [e];
      unfinishedTasks := unfinishedTasks + 1;
      if condReady {
        condReady := false;
      }
    }

    method GetItem() returns (e: Entry)
      requires queue != []
      modifies this`queue
      ensures e == old(queue[0]) && queue == old(queue[1..])
    {
      e, queue := queue[0], queue[1..];
    }

    /** `put`, up to its return or its first switch. */
    method Put(e: Entry, block: bool) returns (r: PutResult)
      requires Valid() && Enabled(state, Op.Put(e, block))
      modifies this
      ensures Valid() && trace == old(trace) + [Op.Put(e, block)] && state.phase == old(state.phase)
      ensures r.Stored? ==> e.call in state.returned
      ensures r.PutBlocked? ==> Putter(e, block) in putters
      ensures r.Full? ==> e.call in state.refused
      ensures (r.Stored? <==> HasSpace(old(state))) && (r.PutBlocked? ==> block || old(getters) != {})
      ensures r.Stored? <==> old(maxsize.None? || |queue| < maxsize.value)
      ensures queue == (if r.Stored? then old(queue) + [e] else old(queue)) && getters == old(getters)
      ensures putters == (if r.PutBlocked? then old(putters) + {Putter(e, block)} else old(putters))
      ensures unfinishedTasks == old(unfinishedTasks) + (if r.Stored? then 1 else 0) && (r.Stored? ==> !condReady)
      ensures r.Full? ==> !block && old(getters) == {}
    {
      r := PutHere(e, block);
      Did(Op.Put(e, block));
    }

    method PutHere(e: Entry, block: bool) returns (r: PutResult)
      requires Shows(state)
      modifies this`queue, this`putters, this`eventUnlock, this`unfinishedTasks, this`condReady
      ensures Shows(PutStart(state, e, block))
      ensures r.Stored? ==> e.call in PutStart(state, e, block).returned
      ensures r.PutBlocked? ==> Putter(e, block) in putters
      ensures r.Full? ==> e.call in PutStart(state, e, block).refused
      ensures (r.Stored? <==> HasSpace(state)) && (r.PutBlocked? ==> block || old(getters) != {})
      ensures r.Stored? <==> old(maxsize.None? || |queue| < maxsize.value)
      ensures queue == (if r.Stored? then old(queue) + [e] else old(queue))
      ensures putters == (if r.PutBlocked? then old(putters) + {Putter(e, block)} else old(putters))
      ensures unfinishedTasks == old(unfinishedTasks) + (if r.Stored? then 1 else 0) && (r.Stored? ==> !condReady)
      ensures r.Full? ==> !block && old(getters) == {}
    {
      if maxsize.None? || |queue| < maxsize.value {
        PutItem(e);
        if getters != {} {
          ScheduleUnlock();
        }
        r := Stored;
      } else if block {
        putters := putters + {Putter(e, block)};
        if getters != {} {
          ScheduleUnlock();
        }
        r := PutBlocked;
      } else if getters != {} {
        putters := putters + {Putter(e, block)};
        ScheduleUnlock();
        r := PutBlocked;
      } else {
        r := Full;
      }
    }

    /** `get`, up to its return or its first switch. */
    method Get(c: Call, block: bool) returns (r: GetResult)
      requires Valid() && Enabled(state, Op.Get(c, block))
      modifies this
      ensures Valid() && trace == old(trace) + [Op.Get(c, block)] && state.phase == old(state.phase)
      ensures state.taken == old(state.taken) + if r.Got? then [Taken(r.entry, c)] else []
      ensures getters == (if r.GetBlocked? then old(getters) + {c} else old(getters)) && putters == old(putters)
      ensures (r.Got? <==> old(queue) != []) && (r.GetBlocked? ==> block && c in getters) && (r.Empty? ==> !block)
      ensures if r.Got? then r.entry == old(queue)[0] && queue == old(queue)[1..] else queue == old(queue)
    {
      if queue != [] {
        if putters != {} {
          ScheduleUnlock();
        }
        var e := GetItem();
        r := Got(e);
      } else if block {
        getters := getters + {c};
        if putters != {} {
          ScheduleUnlock();
        }
        r := GetBlocked;
      } else {
        r := Empty;
      }
      Did(Op.Get(c, block));
    }

    /** A timeout or a kill reaches the greenthread blocked in `get`, whose handlers then run. */
    method ThrowGetter(c: Call)
      requires Valid() && c in getters
      modifies this
      ensures Valid() && trace == old(trace) + [Op.ThrowGetter(c)] && state.phase == old(state.phase)
      ensures getters == old(getters) - {c} && eventUnlock && queue == old(queue) && putters == old(putters)
    {
      ScheduleUnlock();
      getters := getters - {c};
      Did(Op.ThrowGetter(c));
    }

    /** The same for `put`, where one that does not block has no handler. */
    method ThrowPutter(p: Putter)
      requires Valid() && Enabled(state, Op.ThrowPutter(p))
      modifies this
      ensures Valid() && trace == old(trace) + [Op.ThrowPutter(p)] && SamePhase(old(state.phase), state.phase)
      ensures putters == (if p.block then old(putters) - {p} else old(putters)) && queue == old(queue)
      ensures gone == (if p in old(putters) && !p.block then old(gone) + {p} else old(gone))
    {
      if p in putters {
        if p.block {
          putters := putters - {p};
        } else {
          gone := gone + {p};
        }
      }
      Did(Op.ThrowPutter(p));
    }

    /** The hub throws `Full` into a non-blocking `put`, as `_unlock` has arranged. */
    method ThrowFull(p: Putter)
      requires Valid() && p in state.doomed
      modifies this
      ensures Valid() && trace == old(trace) + [Op.ThrowFull(p)] && p.entry.call in state.refused
      ensures state.phase == old(state.phase)
    {
      Did(Op.ThrowFull(p));
    }

    method Resize(size: Option<int>)
      requires Valid()
      modifies this
      ensures Valid() && trace == old(trace) + [Op.Resize(size)] && state.phase == old(state.phase)
      ensures maxsize == size && queue == old(queue) && getters == old(getters) && putters == old(putters)
      ensures old(maxsize).Some? && (size.None? || size.value > old(maxsize).value) ==> eventUnlock
    {
      if maxsize.Some? && (size.None? || size.value > maxsize.value) {
        ScheduleUnlock();
      }
      maxsize := size;
      Did(Op.Resize(size));
    }

    /** `task_done`; not `ok` is the `ValueError`. A positive count means `_cond` is unsent, as `send` asserts. */
    method TaskDone() returns (ok: bool)
      requires Valid()
      modifies this
      ensures Valid() && trace == old(trace) + [Op.TaskDone] && state.phase == old(state.phase)
      ensures ok <==> old(|state.entered| > state.tasksDone)
      ensures unfinishedTasks == old(unfinishedTasks) - (if ok then 1 else 0)
      ensures condReady == (old(condReady) || (ok && unfinishedTasks == 0)) && queue == old(queue)
    {
      InitInv(initialSize);
      RunKeepsInv(Init(initialSize), trace);
      if unfinishedTasks <= 0 {
        ok := false;
      } else {
        ok := true;
        unfinishedTasks := unfinishedTasks - 1;
        if unfinishedTasks == 0 {
          assert !condReady;
          condReady := true;
        }
      }
      Did(Op.TaskDone);
    }

    method ClientPut(e: Entry, block: bool)
      requires Valid()
      modifies this
      ensures Valid() && state.phase == old(state.phase)
      ensures old(trace) <= trace
    {
      if e.call !in state.calls {
        var _ := Put(e, block);
      }
    }

    method ClientGet(c: Call, block: bool)
      requires Valid()
      modifies this
      ensures Valid() && state.phase == old(state.phase)
      ensures old(trace) <= trace
    {
      if c !in state.calls {
        var _ := Get(c, block);
      }
    }

    method ClientThrow(op: Op)
      requires Valid() && (op.ThrowGetter? || op.ThrowPutter? || op.ThrowFull?)
      modifies this
      ensures Valid() && SamePhase(old(state.phase), state.phase)
      ensures old(trace) <= trace
    {
      if Enabled(state, op) {
        match op
        case ThrowGetter(c) => ThrowGetter(c);
        case ThrowPutter(p) => ThrowPutter(p);
        case ThrowFull(p) => ThrowFull(p);
      }
    }

    /** One thing a greenthread, a timeout or a kill may do; what is not possible now is passed over. */
    method Client(op: Op)
      requires Valid()
      modifies this
      ensures Valid() && SamePhase(old(state.phase), state.phase)
      ensures old(trace) <= trace
    {
      match op
      case Put(e, block) => ClientPut(e, block);
      case Get(c, block) => ClientGet(c, block);
      case Resize(size) => Resize(size);
      case TaskDone => var _ := TaskDone();
      case ThrowGetter(_) => ClientThrow(op);
      case ThrowPutter(_) => ClientThrow(op);
      case ThrowFull(_) => ClientThrow(op);
      case _ =>
    }

    method Clients(ops: seq<Op>)
      requires Valid()
      modifies this
      ensures Valid() && SamePhase(old(state.phase), state.phase)
      ensures old(trace) <= trace
    {
      for i := 0 to |ops|
        invariant Valid() && SamePhase(old(state.phase), state.phase) && old(trace) <= trace
      {
        Client(ops[i]);
      }
    }

    /** The hub fires the timer of `_schedule_unlock`. Between the switches of the loop the greenthreads switched
        into do what `script` says, one batch for each switch. When `_unlock` ends, nothing is left for it to do, unless
        it has been `broken` off by a putter that is gone. */
    method Unlock(script: seq<seq<Op>>) returns (broken: bool)
      requires Valid() && state.phase.Idle? && eventUnlock
      modifies this
      ensures Valid() && state.phase.Idle? && !eventUnlock && (!broken ==> !WorkFor(state, putters))
    {
      Did(Op.FireUnlock);
      var batches, more := script, true;
      broken := false;
      while more
        invariant Valid() && (more ==> state.phase.Looping?) && (broken ==> !more)
        invariant broken ==> state.phase.Idle? && !eventUnlock
        invariant !more && !broken ==> state.phase.Looping? && !WorkFor(state, putters)
        decreases more, |batches|, |getters| + |putters|
      {
        batches, more, broken := UnlockPass(batches);
      }
      if !broken {
        Finally();
        Did(Op.Finish);
      }
    }

    /** The `finally` of `_unlock`. */
    method Finally()
      modifies this`eventUnlock
      ensures !eventUnlock
    {
      eventUnlock := false;
    }

    /** The body of the loop in `_unlock`; not `more` is its `break`, or an exception if `broken`. */
    method UnlockPass(batches: seq<seq<Op>>) returns (rest: seq<seq<Op>>, more: bool, broken: bool)
      requires Valid() && state.phase.Looping?
      modifies this
      ensures Valid() && (broken ==> !more && state.phase.Idle? && !eventUnlock) && (!broken ==> state.phase.Looping?)
      ensures !more && !broken ==> !WorkFor(state, putters)
      ensures more ==>
        |rest| < |batches| || (|rest| == |batches| && |getters| + |putters| < old(|getters| + |putters|))
    {
      rest, more, broken := batches, true, false;
      if queue != [] && getters != {} {
        ServeGetter();
        rest := Switched(rest);
      } else if putters != {} && getters != {} {
        rest := PutterForGetter(rest);
      } else if putters != {} && (getters != {} || maxsize.None? || |queue| < maxsize.value) {
        rest := PutterForSpace(rest);
      } else if putters != {} && getters == {} {
        if NonBlocking(putters) == {} {
          more := false;
        } else {
          broken := RejectPutters();
          more := !broken;
        }
      } else {
        more := false;
      }
    }

    method PutterForGetter(batches: seq<seq<Op>>) returns (rest: seq<seq<Op>>)
      requires Valid() && state.phase.Looping? && queue == [] && getters != {} && putters != {}
      modifies this
      ensures Valid() && state.phase.Looping?
      ensures |rest| < |batches| || (|rest| == |batches| && |getters| + |putters| < old(|getters| + |putters|))
    {
      var p :| p in putters;
      if p in gone {
        DropPutter(p);
        rest := batches;
      } else {
        rest := HandOverPass(p, batches);
      }
    }

    method PutterForSpace(batches: seq<seq<Op>>) returns (rest: seq<seq<Op>>)
      requires Valid() && state.phase.Looping? && getters == {} && putters != {} && HasSpace(state)
      modifies this
      ensures Valid() && state.phase.Looping?
      ensures |rest| < |batches| || (|rest| == |batches| && |getters| + |putters| < old(|getters| + |putters|))
    {
      var p :| p in putters;
      rest := batches;
      if p in gone {
        DropPutter(p);
      } else {
        AdmitPutter(p);
        rest := Switched(rest);
      }
    }

    /** A putter that is gone is popped, and switching into it does nothing. */
    method DropPutter(p: Putter)
      requires Valid() && Enabled(state, Op.DropGone(p)) && p in putters
      modifies this
      ensures Valid() && state.phase.Looping? && |getters| + |putters| < old(|getters| + |putters|)
    {
      putters, gone := putters - {p}, gone - {p};
      Did(Op.DropGone(p));
    }

    method HandOverPass(p: Putter, batches: seq<seq<Op>>) returns (rest: seq<seq<Op>>)
      requires Valid() && state.phase.Looping? && queue == [] && getters != {} && p in putters && p !in gone
      modifies this
      ensures Valid() && state.phase.Looping?
      ensures |rest| < |batches| || (|rest| == |batches| && |getters| + |putters| < old(|getters| + |putters|))
    {
      HandOverItem(p);
      rest := Switched(batches);
      ResumePutter();
      rest := Switched(rest);
    }

    /** A switch into a greenthread: the next batch of `batches` happens before the hub runs again. */
    method Switched(batches: seq<seq<Op>>) returns (rest: seq<seq<Op>>)
      requires Valid()
      modifies this
      ensures Valid() && SamePhase(old(state.phase), state.phase)
      ensures old(trace) <= trace
      ensures batches == [] ==> rest == [] && getters == old(getters) && putters == old(putters)
      ensures batches != [] ==> rest == batches[1..]
    {
      rest := batches;
      if batches != [] {
        Clients(batches[0]);
        rest := batches[1..];
      }
    }

    method ServeGetter()
      requires Valid() && state.phase.Looping? && queue != [] && getters != {}
      modifies this
      ensures Valid() && state.phase.Looping? && |getters| + |putters| < old(|getters| + |putters|)
    {
      var g :| g in getters;
      getters := getters - {g};
      var e := GetItem();
      Did(Op.Serve(g));
    }

    method HandOverItem(p: Putter)
      requires Valid() && state.phase.Looping? && queue == [] && getters != {} && p in putters && p !in gone
      modifies this
      ensures Valid() && state.phase.Handed? && |getters| + |putters| < old(|getters| + |putters|)
    {
      var g :| g in getters;
      MoveItem(p, g);
      Did(Op.HandOver(p, g));
    }

    method MoveItem(p: Putter, g: Call)
      requires Shows(state) && Enabled(state, Op.HandOver(p, g))
      modifies this`putters, this`getters, this`queue, this`unfinishedTasks, this`condReady
      ensures Shows(Step(state, Op.HandOver(p, g)))
    {
      putters, getters := putters - {p}, getters - {g};
      PutItem(p.entry);
      var e := GetItem();
    }

    /** `putter.switch(putter)`, which does nothing if that greenthread has been killed meanwhile. */
    method ResumePutter()
      requires Valid() && (state.phase.Handed? || state.phase.Looping?)
      modifies this
      ensures Valid() && state.phase.Looping? && getters == old(getters) && putters == old(putters)
    {
      if state.phase.Handed? {
        Did(Op.ResumeHanded);
      }
    }

    method AdmitPutter(p: Putter)
      requires Valid() && state.phase.Looping? && getters == {} && p in putters && p !in gone && HasSpace(state)
      modifies this
      ensures Valid() && state.phase.Looping? && |getters| + |putters| < old(|getters| + |putters|)
    {
      LetPutterIn(p);
      Did(Op.Admit(p));
    }

    /** The putter is popped, and its greenthread switched into. */
    method LetPutterIn(p: Putter)
      requires Shows(state) && p in putters && p !in gone
      modifies this`putters, this`queue, this`unfinishedTasks, this`condReady
      ensures Shows(Admitted(state, p))
    {
      putters := putters - {p};
      if p.block {
        PutItem(p.entry);
      }
    }

    /** The loop that arranges for `Full` to be thrown; it is `broken` off by a putter with no greenthread to throw
        into. */
    method RejectPutters() returns (broken: bool)
      requires Valid() && state.phase.Looping? && getters == {} && !HasSpace(state) && NonBlocking(putters) != {}
      modifies this
      ensures Valid() && (broken ==> state.phase.Idle? && !eventUnlock)
      ensures !broken ==> state.phase.Looping? && |getters| + |putters| < old(|getters| + |putters|)
    {
      var done, stale := DiscardFull();
      if stale.Some? {
        BreakOff(done, stale.value);
        return true;
      }
      EndReject(done);
      return false;
    }

    /** The loop itself, which stops at a putter with no greenthread to throw into. */
    method DiscardFull() returns (done: set<Putter>, stale: Option<Putter>)
      modifies this`putters
      ensures done <= NonBlocking(old(putters)) && done !! gone && putters == old(putters) - done
      ensures if stale.None? then done == NonBlocking(old(putters)) else stale.value in gone
    {
      var full := NonBlocking(putters);
      done, stale := {}, None;
      while full != {} && stale == None
        invariant full + done == NonBlocking(old(putters)) && full !! done && done !! gone
        invariant putters == old(putters) - done && (stale.Some? ==> stale.value in gone)
        decreases full, stale == None
      {
        var p :| p in full;
        if p in gone {
          stale := Some(p);
        } else {
          full, done := full - {p}, done + {p};
          putters := putters - {p};
        }
      }
    }

    method EndReject(done: set<Putter>)
      requires Shows(state.(putters := putters)) && Reaches(Init(initialSize), trace, state) && Rejects(state)
      requires done == NonBlocking(state.putters) && done !! gone && putters == state.putters - done
      modifies this
      ensures Valid() && state.phase.Looping? && |getters| + |putters| < |getters| + |old(state.putters)|
      ensures getters == old(getters)
    {
      NobodyGone(initialSize, trace, state, done);
      assert done <= state.putters;
      Did(Op.Reject);
    }

    /** The exception, with `done` already discarded. */
    method BreakOff(done: set<Putter>, p: Putter)
      requires Shows(state.(putters := putters)) && Reaches(Init(initialSize), trace, state)
      requires Enabled(state, Op.Break(done, p)) && putters == state.putters - done
      modifies this
      ensures Valid() && state.phase.Idle? && !eventUnlock
    {
      putters, gone := putters - {p}, gone - {p};
      Finally();
      Did(Op.Break(done, p));
    }

    // --- From the hub's own greenlet ---

    /** `put` with `block` false in the mainloop: it cannot wait, but may serve a getter. */
    method PutInHub(e: Entry, batches: seq<seq<Op>>) returns (r: PutResult, rest: seq<seq<Op>>)
      requires Valid() && state.phase.Idle? && e.call !in state.calls
      modifies this
      ensures Valid() && state.phase.Idle? && !r.PutBlocked?
      ensures r.Full? <==> old(getters) == {} && !old(maxsize.None? || |queue| < maxsize.value)
      ensures r.Full? ==> e.call in state.refused && queue == old(queue)
      ensures r.Stored? ==> if old(maxsize.None? || |queue| < maxsize.value) then queue == old(queue) + [e]
        else exists g :: g in old(getters) && old(trace) + [Op.PutFromHub(e, g)] <= trace
    {
      rest := batches;
      if HasSpace(state) || getters == {} {
        r := Put(e, false);
      } else {
        var g := HandFromHub(e);
        assert old(trace) + [Op.PutFromHub(e, g)] == trace;
        rest := Switched(rest);
        r := Stored;
      }
    }

    method HandFromHub(e: Entry) returns (g: Call)
      requires Valid() && state.phase.Idle? && e.call !in state.calls && !HasSpace(state) && getters != {}
      modifies this
      ensures Valid() && state.phase.Idle? && e.call in state.returned
      ensures g in old(getters) && getters == old(getters) - {g} && trace == old(trace) + [Op.PutFromHub(e, g)]
    {
      g :| g in getters;
      GiveItem(e, g);
      Did(Op.PutFromHub(e, g));
    }

    method GiveItem(e: Entry, g: Call)
      requires Shows(state) && Enabled(state, Op.PutFromHub(e, g))
      modifies this`getters, this`queue, this`unfinishedTasks, this`condReady
      ensures Shows(Step(state, Op.PutFromHub(e, g)))
    {
      getters := getters - {g};
      PutItem(e);
      var item := GetItem();
    }

    /** `get` with `block` false in the mainloop: it lets in putters, one after another, until there is an item. */
    method GetInHub(c: Call, batches: seq<seq<Op>>) returns (r: GetResult, rest: seq<seq<Op>>)
      requires Valid() && state.phase.Idle? && c !in state.calls
      modifies this
      ensures Valid() && state.phase.Idle? && !r.GetBlocked? && (r.Empty? ==> putters == {} && queue == [])
      ensures r.Got? ==> state.taken != [] && state.taken[|state.taken| - 1].entry == r.entry
      ensures old(queue) != [] ==> r == Got(old(queue)[0]) && queue == old(queue)[1..]
    {
      rest := batches;
      if queue != [] {
        r := Get(c, false);
        return;
      }
      while putters != {}
        invariant Valid() && queue == [] && (state.phase.Idle? || state.phase.Borrowing?)
        decreases |rest|, |putters|
      {
        rest := LetIn(rest);
        if queue != [] {
          r := TakeInHub();
          return;
        }
      }
      r := Empty;
      if state.phase.Borrowing? {
        Did(Op.EndFromHub);
      }
    }

    method LetIn(batches: seq<seq<Op>>) returns (rest: seq<seq<Op>>)
      requires Valid() && queue == [] && putters != {} && (state.phase.Idle? || state.phase.Borrowing?)
      modifies this
      ensures Valid() && (state.phase.Borrowing? || (state.phase.Idle? && queue == []))
      ensures |rest| < |batches| || (|rest| == |batches| && |putters| < old(|putters|))
    {
      var p :| p in putters;
      var waits := p !in gone;
      rest := batches;
      SwitchInHub(p);
      if waits {
        rest := Switched(rest);
      }
    }

    method SwitchInHub(p: Putter)
      requires Valid() && Enabled(state, Op.AdmitFromHub(p))
      modifies this
      ensures Valid() && (p !in old(gone) ==> state.phase.Borrowing?)
      ensures p in old(gone) ==> state.phase == old(state.phase) && queue == []
      ensures putters == old(putters) - {p}
    {
      if p in gone {
        putters, gone := putters - {p}, gone - {p};
      } else {
        LetPutterIn(p);
      }
      Did(Op.AdmitFromHub(p));
    }

    method TakeInHub() returns (r: GetResult)
      requires Valid() && state.phase.Borrowing? && queue != []
      modifies this
      ensures Valid() && state.phase.Idle? && r == Got(old(queue)[0]) && queue == old(queue)[1..]
      ensures state.taken != [] && state.taken[|state.taken| - 1].entry == r.entry
    {
      var e := GetItem();
      r := Got(e);
      assert NewCall(state.calls) !in state.calls;
      var c: Call :| c !in state.calls;
      Did(Op.TakeFromHub(c));
    }
  }

  ghost function NewCall(calls: set<Call>): (r: Call)
    ensures forall c :: c in calls ==> c < r
  {
    if calls == {} then 0
    else
      var c :| c in calls;
      var r := NewCall(calls - {c});
      assert forall d :: d in calls ==> d == c || d in calls - {c};
      if c < r then r else c + 1
  }

  lemma NobodyGone(maxsize: Option<int>, trace: seq<Op>, s: State, done: set<Putter>)
    requires Reaches(Init(maxsize), trace, s) && done == NonBlocking(s.putters) && done !! s.gone
    ensures s.gone == {}
  {
    InitInv(maxsize);
    RunKeepsInv(Init(maxsize), trace);
    assert PuttersPending(s);
  }

  /** Nothing but `_unlock` moves `_unlock`, except that killing a served putter leaves it nothing to switch to. */
  predicate SamePhase(p: Phase, q: Phase) {
    q == p || (p.Handed? && q.Looping?)
  }
}
