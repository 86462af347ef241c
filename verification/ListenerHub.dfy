/** The poll and epoll hubs and the kernel, against the tables of `Listeners`. */
module ListenerHub {
  import opened Listeners

  /** What a call to the kernel answers: `Refused` is an `OSError` or a `KeyError`. */
  datatype Answer = Fine | Refused

  /** `select.poll` or `select.epoll`; only the latter refuses to register a file twice. */
  class Poll {
    const epoll: bool
    var interest: map<int, set<Flag>>

    constructor (epoll: bool)
      ensures this.epoll == epoll && interest == map[]
    {
      this.epoll, interest := epoll, map[];
    }

    method Register(fileno: int, mask: set<Flag>) returns (a: Answer)
      modifies this
      ensures if epoll && fileno in old(interest) then a == Refused && interest == old(interest)
              else a == Fine && interest == old(interest)[fileno := mask]
    {
      if epoll && fileno in interest {
        return Refused;
      }
      interest := interest[fileno := mask];
      return Fine;
    }

    method Modify(fileno: int, mask: set<Flag>) returns (a: Answer)
      modifies this
      ensures if fileno !in old(interest) then a == Refused && interest == old(interest)
              else a == Fine && interest == old(interest)[fileno := mask]
    {
      if fileno !in interest {
        return Refused;
      }
      interest := interest[fileno := mask];
      return Fine;
    }

    method Unregister(fileno: int) returns (a: Answer)
      modifies this
      ensures interest == old(interest) - {fileno}
      ensures a == if fileno in old(interest) then Fine else Refused
    {
      a := if fileno in interest then Fine else Refused;
      interest := interest - {fileno};
    }
  }

  /** The hub of `poll.py`, or of `epolls.py` if its poll object is an `epoll`. */
  class Hub {
    const poll: Poll
    const preventMultipleReaders: bool
    var listeners: map<Slot, FdListener>
    var secondaries: map<Slot, seq<FdListener>>
    var closed: seq<FdListener>

    constructor (epoll: bool, preventMultipleReaders: bool)
      ensures fresh(poll) && poll.epoll == epoll && this.preventMultipleReaders == preventMultipleReaders
      ensures Is(Init()) && Refines(Init(), []) && KernelInStep(Init())
    {
      poll := new Poll(epoll);
      this.preventMultipleReaders := preventMultipleReaders;
      listeners, secondaries, closed := map[], map[], [];
    }

    /** `s` describes the hub. What is in `spent` and `dropped` is not written down in it. */
    ghost predicate Is(s: Tables)
      reads this, poll
    {
      listeners == s.listeners && secondaries == s.secondaries && closed == s.closed && poll.interest == s.kernel
    }

    /** `register`; with `new` the kernel must not know the file, if it is an epoll. */
    method Register(fileno: int, anew: bool, ghost s: Tables) returns (a: Answer, ghost t: Tables)
      requires Is(s)
      modifies poll
      ensures t == (if a.Fine? then Registered(s, fileno) else s) && Is(t)
      ensures a.Refused? <==> anew && poll.epoll && fileno in s.kernel && Mask(s.listeners, fileno) != {}
    {
      var mask := {};
      if Slot(READ, fileno) in listeners {
        mask := mask + READ_MASK + EXC_MASK;
      }
      if Slot(WRITE, fileno) in listeners {
        mask := mask + WRITE_MASK + EXC_MASK;
      }
      MaskParts(s.listeners, fileno);
      if mask != {} {
        if anew {
          a := poll.Register(fileno, mask);
        } else {
          a := poll.Modify(fileno, mask);
          if a.Refused? {
            a := poll.Register(fileno, mask);
          }
        }
      } else {
        var _ := poll.Unregister(fileno);
        a := Fine;
      }
      t := if a.Fine? then Registered(s, fileno) else s;
    }

    /** `add` of the base class. */
    method AddToTables(l: FdListener, ghost s: Tables) returns (r: Outcome, ghost t: Tables)
      requires Is(s)
      modifies this
      ensures Is(t) && t == (if r.Done? then Added(s, l) else s)
      ensures r == if l.slot in s.listeners && preventMultipleReaders then RuntimeError else Done
    {
      t := s;
      if l.slot in listeners {
        if preventMultipleReaders {
          return RuntimeError, t;
        }
        var bucket := if l.slot in secondaries then secondaries[l.slot] else [];
        secondaries := secondaries[l.slot := bucket + [l]];
      } else {
        listeners := listeners[l.slot := l];
      }
      return Done, Added(s, l);
    }

    /** `add`: a second listener for a slot is refused, or waits behind the first; the kernel is never asked to register
        a file that it knows. */
    method Add(slot: Slot, ghost s: Tables, ghost live: seq<FdListener>)
      returns (r: Outcome, l: FdListener, ghost t: Tables)
      requires Is(s) && Refines(s, live) && KernelInStep(s)
      modifies this, poll
      ensures fresh(l) && l.slot == slot && !l.spent && Is(t) && KernelInStep(t)
      ensures r == if slot in s.listeners && preventMultipleReaders then RuntimeError else Done
      ensures if r.Done? then t == Registered(Added(s, l), slot.fileno) && Refines(t, live + [l]) else t == s
    {
      var oldListeners := Slot(READ, slot.fileno) in listeners || Slot(WRITE, slot.fileno) in listeners;
      var anew := !(poll.epoll && oldListeners);
      l := new FdListener(slot);
      r, t := AddToTables(l, s);
      if r.Done? {
        ghost var u := t;
        AddRefines(s, live, l);
        AddInStep(s, l);
        KnownHasListeners(s, slot.fileno);
        var a;
        a, t := Register(slot.fileno, anew, u);
      }
    }

    /** `remove` of the base class, for a listener that is not spent. */
    method RemoveFromTables(l: FdListener, ghost s: Tables) returns (r: Outcome, ghost t: Tables)
      requires Is(s)
      modifies this
      ensures r == Check(s, l) && t == (if r.Done? then Removed(s, l) else s) && Is(t)
    {
      t := s;
      if l.slot !in listeners {
        return KeyError, t;
      }
      if l == listeners[l.slot] {
        t := Removed(s, l);
        Promote(l.slot);
      } else if l.slot !in secondaries {
        return KeyError, t;
      } else if l !in secondaries[l.slot] {
        return ValueError, t;
      } else {
        t := Removed(s, l);
        SetSecondary(l.slot, Without(secondaries[l.slot], l));
      }
      return Done, t;
    }

    method Promote(slot: Slot)
      requires slot in listeners
      modifies this`listeners, this`secondaries
      ensures slot !in old(secondaries) ==> listeners == old(listeners) - {slot} && secondaries == old(secondaries)
      ensures slot in old(secondaries) ==> var sec := old(secondaries)[slot];
        if sec == [] then listeners == old(listeners) - {slot} && secondaries == old(secondaries) - {slot}
        else listeners == old(listeners)[slot := sec[0]] && secondaries == PutSecondary(old(secondaries), slot, sec[1..])
    {
      listeners := listeners - {slot};
      if slot in secondaries {
        var sec := secondaries[slot];
        if sec != [] {
          listeners := listeners[slot := sec[0]];
          sec := sec[1..];
        }
        SetSecondary(slot, sec);
      }
    }

    method SetSecondary(slot: Slot, ls: seq<FdListener>)
      modifies this`secondaries
      ensures secondaries == PutSecondary(old(secondaries), slot, ls)
    {
      secondaries := if ls == [] then secondaries - {slot} else secondaries[slot := ls];
    }

    /** `remove`: a live listener leaves its slot, and what has been made obsolete can be removed without harm. */
    method Remove(l: FdListener, ghost s: Tables, ghost live: seq<FdListener>) returns (r: Outcome, ghost t: Tables)
      requires Is(s) && Refines(s, live) && KernelInStep(s) && (l in live ==> !l.spent)
      modifies this, poll
      ensures Is(t) && KernelInStep(t)
      ensures if l.spent then r.Done? && t == Registered(s, l.slot.fileno) else (r.Done? <==> l in live)
      ensures Refines(t, if !l.spent && r.Done? then Kept(live, {l}) else live)
    {
      r, t := Done, s;
      if !l.spent {
        r, t := RemoveLive(l, s, live);
      } else {
        RegisteredInStep(s, s, l.slot.fileno);
      }
      if r.Done? {
        ghost var u := t;
        var a;
        a, t := Register(l.slot.fileno, false, u);
      }
    }

    method RemoveLive(l: FdListener, ghost s: Tables, ghost live: seq<FdListener>) returns (r: Outcome, ghost t: Tables)
      requires Is(s) && Refines(s, live) && KernelInStep(s)
      modifies this
      ensures Is(t) && (r.Done? <==> l in live)
      ensures if r.Done? then KernelInStep(Registered(t, l.slot.fileno)) && Refines(t, Kept(live, {l})) else t == s
    {
      RemovableIfLive(s, live, l);
      r, t := RemoveFromTables(l, s);
      if r.Done? {
        RemoveRefines(s, live, l);
        RemoveInStep(s, l);
      }
    }

    /** Puts listeners on `closed` and defangs them. */
    method Close(ls: seq<FdListener>, ghost s: Tables) returns (ghost t: Tables)
      requires Is(s)
      modifies this`closed, (set l | l in ls)`spent
      ensures t == Closed(s, ls) && Is(t) && forall l :: l in ls ==> l.spent
    {
      for i := 0 to |ls|
        invariant closed == s.closed + ls[..i]
        invariant listeners == s.listeners && secondaries == s.secondaries && poll.interest == s.kernel
        invariant forall k :: 0 <= k < i ==> ls[k].spent
      {
        closed := closed + [ls[i]];
        ls[i].spent := true;
      }
      assert ls[..|ls|] == ls;
      t := Closed(s, ls);
    }

    method CloseSecondaries(slot: Slot, ghost s: Tables) returns (found: bool, ghost t: Tables)
      requires Is(s)
      modifies this, (set l | l in Secondary(s, slot))`spent
      ensures t == SecondariesObsolete(s, slot) && Is(t) && (found <==> Secondary(s, slot) != [])
      ensures forall l :: l in Secondary(s, slot) ==> l.spent
    {
      found, t := false, SecondariesObsolete(s, slot);
      if slot in secondaries {
        var bucket := secondaries[slot];
        found := bucket != [];
        var _ := Close(bucket, s);
        secondaries := secondaries - {slot};
      }
    }

    method ClosePrimary(slot: Slot, ghost s: Tables) returns (found: bool, ghost t: Tables)
      requires Is(s) && (slot in s.listeners ==> s.listeners[slot].slot == slot && !s.listeners[slot].spent)
      modifies this, poll, (set l | l in Primary(s, slot))`spent
      ensures t == PrimaryObsolete(s, slot) && Is(t) && (found <==> slot in s.listeners)
      ensures forall l :: l in Primary(s, slot) ==> l.spent
    {
      found, t := slot in listeners, s;
      if found {
        var l := listeners[slot];
        var r, a;
        r, t := RemoveFromTables(l, s);
        ghost var u := t;
        a, t := Register(slot.fileno, false, u);
        ghost var v := t;
        t := Close([l], v);
      }
    }

    /** The first loop of `_obsolete`. */
    method CloseAllSecondaries(fileno: int, ghost s: Tables) returns (found: bool, ghost t: Tables)
      requires Is(s)
      modifies this, (set l | l in Secondary(s, Slot(READ, fileno)) + Secondary(s, Slot(WRITE, fileno)))`spent
      ensures t == SecondariesGone(s, fileno) && Is(t)
      ensures found <==> Secondary(s, Slot(READ, fileno)) != [] || Secondary(s, Slot(WRITE, fileno)) != []
      ensures forall l :: l in Secondary(s, Slot(READ, fileno)) + Secondary(s, Slot(WRITE, fileno)) ==> l.spent
    {
      var more;
      found, t := CloseSecondaries(Slot(READ, fileno), s);
      ghost var u := t;
      more, t := CloseSecondaries(Slot(WRITE, fileno), u);
      found := found || more;
    }

    /** The second loop of `_obsolete`. */
    method CloseAllPrimaries(fileno: int, ghost s: Tables) returns (found: bool, ghost t: Tables)
      requires Is(s) && Slot(READ, fileno) !in s.secondaries && Slot(WRITE, fileno) !in s.secondaries
      requires forall l :: l in Primary(s, Slot(READ, fileno)) ==> l.slot == Slot(READ, fileno) && !l.spent
      requires forall l :: l in Primary(s, Slot(WRITE, fileno)) ==> l.slot == Slot(WRITE, fileno) && !l.spent
      modifies this, poll, (set l | l in Primary(s, Slot(READ, fileno)) + Primary(s, Slot(WRITE, fileno)))`spent
      ensures t == PrimaryObsolete(PrimaryObsolete(s, Slot(READ, fileno)), Slot(WRITE, fileno)) && Is(t)
      ensures found <==> Slot(READ, fileno) in s.listeners || Slot(WRITE, fileno) in s.listeners
      ensures forall l :: l in Primary(s, Slot(READ, fileno)) + Primary(s, Slot(WRITE, fileno)) ==> l.spent
    {
      var more;
      found, t := ClosePrimary(Slot(READ, fileno), s);
      ghost var u := t;
      more, t := ClosePrimary(Slot(WRITE, fileno), u);
      found := found || more;
    }

    /** `_obsolete`: every live listener of the file, and no other, has been defanged and is queued on `closed`. */
    method Obsolete(fileno: int, ghost s: Tables, ghost live: seq<FdListener>) returns (found: bool, ghost t: Tables)
      requires Is(s) && Refines(s, live) && KernelInStep(s) && forall l :: l in live ==> !l.spent
      modifies this, poll, (set l | l in live)`spent
      ensures Is(t) && Refines(t, Kept(live, OfFileNow(live, fileno))) && KernelInStep(t)
      ensures t.closed == s.closed + OfFile(s, fileno) && (found <==> OfFile(s, fileno) != [])
      ensures forall l :: l in live ==> (l.spent <==> l.slot.fileno == fileno)
    {
      ObsoleteRefines(s, live, fileno);
      ObsoleteInStep(s, live, fileno);
      found, t := CloseAll(fileno, s, live);
    }

    method CloseAll(fileno: int, ghost s: Tables, ghost live: seq<FdListener>) returns (found: bool, ghost t: Tables)
      requires Is(s) && Refines(s, live) && forall l :: l in live ==> !l.spent
      modifies this, poll, (set l | l in live)`spent
      ensures Is(t) && t == Listeners.Obsolete(s, fileno) && (found <==> OfFile(s, fileno) != [])
      ensures forall l :: l in live ==> (l.spent <==> l.slot.fileno == fileno)
    {
      AllOfFile(s, live, fileno);
      PartsOfFile(s, live, fileno);
      var more;
      found, t := CloseAllSecondaries(fileno, s);
      ghost var u := t;
      more, t := CloseAllPrimaries(fileno, u);
      found := found || more;
    }

    /** `close_one`: takes a listener off `closed`, and throws `IOClosed` into its greenlet unless that has ended. */
    method CloseOne(ghost s: Tables, ghost live: seq<FdListener>) returns (l: FdListener, ghost t: Tables)
      requires Is(s) && Refines(s, live) && KernelInStep(s) && closed != []
      modifies this`closed, (set l | l in closed)`closings
      ensures Is(t) && Refines(t, live) && KernelInStep(t) && s.closed == t.closed + [l]
      ensures l.closings == old(closed[|closed| - 1].closings) + if l.dead then 0 else 1
      ensures forall k :: k in s.closed && k != l ==> k.closings == old(k.closings)
    {
      l := closed[|closed| - 1];
      closed := closed[..|closed| - 1];
      if !l.dead {
        l.closings := l.closings + 1;
      }
      t := s.(closed := closed);
      ClosedInStep(s, t);
      assert forall slot :: Fifo(t, slot) == Fifo(s, slot);
    }
  }

  lemma AllOfSlot(s: Tables, live: seq<FdListener>, slot: Slot)
    requires Refines(s, live)
    ensures forall l :: l in Primary(s, slot) + Secondary(s, slot) <==> l in live && l.slot == slot
    ensures forall l :: l in Primary(s, slot) ==> l !in Secondary(s, slot)
  {
    OwnSlot(s, live, slot);
    OfSlotMembers(live, slot);
    assert Primary(s, slot) + Secondary(s, slot) == Fifo(s, slot);
  }

  lemma AllOfFile(s: Tables, live: seq<FdListener>, fileno: int)
    requires Refines(s, live)
    ensures forall l :: l in live ==> (l in OfFile(s, fileno) <==> l.slot.fileno == fileno)
  {
    var r, w := Slot(READ, fileno), Slot(WRITE, fileno);
    AllOfSlot(s, live, r);
    AllOfSlot(s, live, w);
    forall l | l in live
      ensures l in OfFile(s, fileno) <==> l.slot.fileno == fileno
    {
      ReadOrWrite(l.slot);
      assert l in OfFile(s, fileno) <==> l in Primary(s, r) + Secondary(s, r) || l in Primary(s, w) + Secondary(s, w);
    }
  }

  lemma PartsOfFile(s: Tables, live: seq<FdListener>, fileno: int)
    requires Refines(s, live)
    ensures var r, w := Slot(READ, fileno), Slot(WRITE, fileno);
      var secs := Secondary(s, r) + Secondary(s, w);
      && (forall l :: l in Primary(s, r) ==> l.slot == r && l in live && l !in secs)
      && (forall l :: l in Primary(s, w) ==> l.slot == w && l in live && l !in secs)
      && (forall l :: l in secs ==> l in live)
  {
    AllOfSlot(s, live, Slot(READ, fileno));
    AllOfSlot(s, live, Slot(WRITE, fileno));
  }

  /** The mask that `register` puts together. */
  lemma MaskParts(listeners: map<Slot, FdListener>, fileno: int)
    ensures var r := if Slot(READ, fileno) in listeners then {} + READ_MASK + EXC_MASK else {};
      Mask(listeners, fileno) == if Slot(WRITE, fileno) in listeners then r + WRITE_MASK + EXC_MASK else r
    ensures Mask(listeners, fileno) == {} <==> Slot(READ, fileno) !in listeners && Slot(WRITE, fileno) !in listeners
  {
    assert POLLERR in EXC_MASK;
  }

  /** So the epoll hub registers a file anew only if the kernel does not know it: there is no `EEXIST`. */
  lemma KnownHasListeners(s: Tables, fileno: int)
    requires KernelInStep(s)
    ensures fileno in s.kernel ==> Slot(READ, fileno) in s.listeners || Slot(WRITE, fileno) in s.listeners
  {
    assert InStep(s, fileno);
  }
}
