/** The listener tables of the hub, and the interest masks that the poll and epoll hubs keep in the kernel. */
module Listeners {
  datatype Event = READ | WRITE

  datatype Slot = Slot(evtype: Event, fileno: int)

  /** `dead` is whether its greenlet has ended, and `closings` how often an `IOClosed` has been thrown into that. */
  class FdListener {
    const slot: Slot
    var spent: bool
    var dead: bool
    var closings: nat

    constructor (slot: Slot)
      ensures this.slot == slot && !spent && !dead && closings == 0
    {
      this.slot, spent, dead, closings := slot, false, false, 0;
    }
  }

  datatype Flag = POLLIN | POLLPRI | POLLOUT | POLLERR | POLLHUP

  const EXC_MASK: set<Flag> := {POLLERR, POLLHUP}
  const READ_MASK: set<Flag> := {POLLIN, POLLPRI}
  const WRITE_MASK: set<Flag> := {POLLOUT}

  /** `spent` are the listeners that have been defanged, in the order in which they were put on `closed`, from which
      `close_one` takes them. `kernel` is what the poll object knows, and `dropped` are the files that it has forgotten
      by itself, since they were closed. */
  datatype Tables = Tables(listeners: map<Slot, FdListener>, secondaries: map<Slot, seq<FdListener>>,
                           closed: seq<FdListener>, spent: seq<FdListener>, kernel: map<int, set<Flag>>, dropped: set<int>)

  function Init(): Tables {
    Tables(map[], map[], [], [], map[], {})
  }

  // --- The tables against the arrivals ---

  function Secondary(s: Tables, slot: Slot): seq<FdListener> {
    if slot in s.secondaries then s.secondaries[slot] else []
  }

  /** The primary listener and those that wait behind it. */
  function Fifo(s: Tables, slot: Slot): seq<FdListener> {
    (if slot in s.listeners then [s.listeners[slot]] else []) + Secondary(s, slot)
  }

  function OfSlot(live: seq<FdListener>, slot: Slot): seq<FdListener> {
    if live == [] then []
    else (if live[0].slot == slot then [live[0]] else []) + OfSlot(live[1..], slot)
  }

  /** What is left of `live`, in the same order, without `gone`. */
  function Kept(live: seq<FdListener>, gone: set<FdListener>): seq<FdListener> {
    if live == [] then []
    else (if live[0] in gone then [] else [live[0]]) + Kept(live[1..], gone)
  }

  ghost predicate Distinct(ls: seq<FdListener>) {
    forall i, j :: 0 <= i < j < |ls| ==> ls[i] != ls[j]
  }

  function SetOf(ls: seq<FdListener>): set<FdListener> {
    set l | l in ls
  }

  /** `live` are the listeners added and neither removed nor made obsolete, in the order of their arrival: every slot
      holds its share of them in that order. */
  ghost predicate Refines(s: Tables, live: seq<FdListener>) {
    && (forall slot :: Fifo(s, slot) == OfSlot(live, slot))
    && (forall slot :: slot in s.secondaries ==> slot in s.listeners && s.secondaries[slot] != [])
    && Distinct(live) && Distinct(s.spent) && SetOf(live) !! SetOf(s.spent)
    && (forall l :: l in s.closed ==> l in s.spent) && Distinct(s.closed)
  }

  /** The mask that the primary listeners ask for. */
  function Mask(listeners: map<Slot, FdListener>, fileno: int): set<Flag> {
    (if Slot(READ, fileno) in listeners then READ_MASK + EXC_MASK else {})
      + (if Slot(WRITE, fileno) in listeners then WRITE_MASK + EXC_MASK else {})
  }

  /** The kernel knows the right mask of each file that has listeners, but for files it has forgotten, and no others. */
  ghost predicate InStep(s: Tables, fileno: int) {
    if fileno in s.kernel then s.kernel[fileno] == Mask(s.listeners, fileno) != {}
    else Mask(s.listeners, fileno) == {} || fileno in s.dropped
  }

  ghost predicate KernelInStep(s: Tables) {
    forall fileno :: InStep(s, fileno)
  }

  // --- Lists ---

  lemma {:induction false} OfSlotAppend(live: seq<FdListener>, l: FdListener, slot: Slot)
    ensures OfSlot(live + [l], slot) == OfSlot(live, slot) + if l.slot == slot then [l] else []
  {
    if live == [] {
      assert live + [l] == [l];
    } else {
      assert (live + [l])[1..] == live[1..] + [l];
      OfSlotAppend(live[1..], l, slot);
    }
  }

  lemma {:induction false} OfSlotKept(live: seq<FdListener>, gone: set<FdListener>, slot: Slot)
    ensures OfSlot(Kept(live, gone), slot) == Kept(OfSlot(live, slot), gone)
  {
    if live != [] {
      OfSlotKept(live[1..], gone, slot);
      if live[0] !in gone {
        assert ([live[0]] + Kept(live[1..], gone))[1..] == Kept(live[1..], gone);
      } else {
        assert [] + Kept(live[1..], gone) == Kept(live[1..], gone);
      }
      if live[0].slot == slot {
        assert ([live[0]] + OfSlot(live[1..], slot))[1..] == OfSlot(live[1..], slot);
      } else {
        assert [] + OfSlot(live[1..], slot) == OfSlot(live[1..], slot);
      }
    }
  }

  lemma {:induction false} OfSlotMembers(live: seq<FdListener>, slot: Slot)
    ensures forall l :: l in OfSlot(live, slot) <==> l in live && l.slot == slot
    ensures Distinct(live) ==> Distinct(OfSlot(live, slot))
  {
    if live != [] {
      OfSlotMembers(live[1..], slot);
      assert forall l :: l in live <==> l == live[0] || l in live[1..];
      if Distinct(live) {
        DistinctTail(live);
      }
    }
  }

  lemma DistinctTail(ls: seq<FdListener>)
    requires ls != [] && Distinct(ls)
    ensures Distinct(ls[1..]) && ls[0] !in ls[1..]
  {
  }

  lemma {:induction false} KeptMembers(live: seq<FdListener>, gone: set<FdListener>)
    ensures forall l :: l in Kept(live, gone) <==> l in live && l !in gone
    ensures Distinct(live) ==> Distinct(Kept(live, gone))
  {
    if live != [] {
      KeptMembers(live[1..], gone);
      assert forall l :: l in live <==> l == live[0] || l in live[1..];
      if Distinct(live) {
        DistinctTail(live);
      }
    }
  }

  lemma {:induction false} KeptAll(live: seq<FdListener>, gone: set<FdListener>)
    requires forall l :: l in live ==> l !in gone
    ensures Kept(live, gone) == live
  {
    if live != [] {
      KeptAll(live[1..], gone);
    }
  }

  lemma {:induction false} KeptNone(live: seq<FdListener>, gone: set<FdListener>)
    requires forall l :: l in live ==> l in gone
    ensures Kept(live, gone) == []
  {
    if live != [] {
      KeptNone(live[1..], gone);
    }
  }

  lemma {:induction false} KeptTwice(live: seq<FdListener>, a: set<FdListener>, b: set<FdListener>)
    ensures Kept(Kept(live, a), b) == Kept(live, a + b)
  {
    if live != [] {
      KeptTwice(live[1..], a, b);
      if live[0] !in a {
        assert ([live[0]] + Kept(live[1..], a))[1..] == Kept(live[1..], a);
      } else {
        assert [] + Kept(live[1..], a) == Kept(live[1..], a);
      }
    }
  }

  /** `list.remove` takes out the only occurrence. */
  function Without(ls: seq<FdListener>, l: FdListener): seq<FdListener> {
    if ls == [] then [] else if ls[0] == l then ls[1..] else [ls[0]] + Without(ls[1..], l)
  }

  lemma {:induction false} WithoutKeeps(ls: seq<FdListener>, l: FdListener)
    requires Distinct(ls)
    ensures Without(ls, l) == Kept(ls, {l})
  {
    if ls != [] {
      DistinctTail(ls);
      if ls[0] == l {
        KeptAll(ls[1..], {l});
      } else {
        WithoutKeeps(ls[1..], l);
      }
    }
  }

  // --- The operations on the tables ---

  function Added(s: Tables, l: FdListener): Tables {
    if l.slot in s.listeners then s.(secondaries := s.secondaries[l.slot := Secondary(s, l.slot) + [l]])
    else s.(listeners := s.listeners[l.slot := l])
  }

  datatype Outcome = Done | RuntimeError | KeyError | ValueError

  /** What `remove` does with a listener that is not spent. */
  function Check(s: Tables, l: FdListener): Outcome {
    if l.slot !in s.listeners then KeyError
    else if s.listeners[l.slot] == l then Done
    else if l.slot !in s.secondaries then KeyError
    else if l !in s.secondaries[l.slot] then ValueError
    else Done
  }

  function PutSecondary(m: map<Slot, seq<FdListener>>, slot: Slot, ls: seq<FdListener>): map<Slot, seq<FdListener>> {
    if ls == [] then m - {slot} else m[slot := ls]
  }

  function Removed(s: Tables, l: FdListener): Tables
    requires Check(s, l).Done?
  {
    var sec := Secondary(s, l.slot);
    if s.listeners[l.slot] != l then s.(secondaries := PutSecondary(s.secondaries, l.slot, Without(sec, l)))
    else if l.slot !in s.secondaries then s.(listeners := s.listeners - {l.slot})
    else if sec == [] then s.(listeners := s.listeners - {l.slot}, secondaries := s.secondaries - {l.slot})
    else s.(listeners := s.listeners[l.slot := sec[0]], secondaries := PutSecondary(s.secondaries, l.slot, sec[1..]))
  }

  /** `register`, as it leaves the kernel whatever that knew before. */
  function Registered(s: Tables, fileno: int): Tables {
    var mask := Mask(s.listeners, fileno);
    s.(kernel := if mask == {} then s.kernel - {fileno} else s.kernel[fileno := mask], dropped := s.dropped - {fileno})
  }

  /** Defanging `ls` and putting them on `closed`. */
  function Closed(s: Tables, ls: seq<FdListener>): Tables {
    s.(closed := s.closed + ls, spent := s.spent + ls)
  }

  function SecondariesObsolete(s: Tables, slot: Slot): Tables {
    Closed(s, Secondary(s, slot)).(secondaries := s.secondaries - {slot})
  }

  function PrimaryObsolete(s: Tables, slot: Slot): Tables {
    if slot !in s.listeners then s
    else
      var l := s.listeners[slot];
      if l.slot == slot then Closed(Registered(Removed(s, l), slot.fileno), [l]) else s
  }

  function SecondariesGone(s: Tables, fileno: int): Tables {
    SecondariesObsolete(SecondariesObsolete(s, Slot(READ, fileno)), Slot(WRITE, fileno))
  }

  /** `_obsolete` */
  function Obsolete(s: Tables, fileno: int): Tables {
    PrimaryObsolete(PrimaryObsolete(SecondariesGone(s, fileno), Slot(READ, fileno)), Slot(WRITE, fileno))
  }

  // --- Refinement ---

  lemma OwnSlot(s: Tables, live: seq<FdListener>, slot: Slot)
    requires Refines(s, live)
    ensures forall l :: l in Fifo(s, slot) ==> l.slot == slot && l in live
    ensures Distinct(Fifo(s, slot))
    ensures slot in s.listeners ==> s.listeners[slot] == Fifo(s, slot)[0] && Secondary(s, slot) == Fifo(s, slot)[1..]
  {
    OfSlotMembers(live, slot);
  }

  /** A new listener comes last in its slot. */
  lemma AddRefines(s: Tables, live: seq<FdListener>, l: FdListener)
    requires Refines(s, live) && l !in live && l !in s.spent
    ensures Refines(Added(s, l), live + [l])
  {
    var t := Added(s, l);
    forall slot
      ensures Fifo(t, slot) == OfSlot(live + [l], slot)
    {
      OfSlotAppend(live, l, slot);
      assert Fifo(s, slot) == OfSlot(live, slot);
    }
  }

  /** A listener that has not been spent can be removed exactly if it is live. */
  lemma RemovableIfLive(s: Tables, live: seq<FdListener>, l: FdListener)
    requires Refines(s, live)
    ensures Check(s, l).Done? <==> l in live
  {
    OwnSlot(s, live, l.slot);
    OfSlotMembers(live, l.slot);
    assert Fifo(s, l.slot) == OfSlot(live, l.slot);
  }

  lemma RemovedFifo(s: Tables, live: seq<FdListener>, l: FdListener, slot: Slot)
    requires Refines(s, live) && Check(s, l).Done?
    ensures Fifo(Removed(s, l), slot) == Kept(Fifo(s, slot), {l})
  {
    OwnSlot(s, live, slot);
    if slot != l.slot {
      KeptAll(Fifo(s, slot), {l});
    } else {
      var p, sec := s.listeners[slot], Secondary(s, slot);
      assert Fifo(s, slot) == [p] + sec;
      DistinctTail(Fifo(s, slot));
      if p == l {
        KeptAll(sec, {l});
        assert sec != [] ==> [sec[0]] + sec[1..] == sec;
      } else {
        WithoutKeeps(sec, l);
      }
    }
  }

  /** The others keep their order, and the first of them becomes the primary listener. */
  lemma RemoveRefines(s: Tables, live: seq<FdListener>, l: FdListener)
    requires Refines(s, live) && l in live && Check(s, l).Done?
    ensures Refines(Removed(s, l), Kept(live, {l}))
  {
    var t := Removed(s, l);
    forall slot
      ensures Fifo(t, slot) == OfSlot(Kept(live, {l}), slot)
    {
      RemovedFifo(s, live, l, slot);
      OfSlotKept(live, {l}, slot);
      assert Fifo(s, slot) == OfSlot(live, slot);
    }
    KeptMembers(live, {l});
  }

  /** Listeners taken out of the tables and put on `closed`. */
  lemma ClosedRefines(s: Tables, t: Tables, live: seq<FdListener>, ls: seq<FdListener>)
    requires Refines(s, live) && Distinct(ls) && SetOf(ls) <= SetOf(live)
    requires t.closed == s.closed + ls && t.spent == s.spent + ls
    requires forall slot :: slot in t.secondaries ==> slot in t.listeners && t.secondaries[slot] != []
    requires forall slot :: Fifo(t, slot) == Kept(Fifo(s, slot), SetOf(ls))
    ensures Refines(t, Kept(live, SetOf(ls)))
  {
    forall slot
      ensures Fifo(t, slot) == OfSlot(Kept(live, SetOf(ls)), slot)
    {
      OfSlotKept(live, SetOf(ls), slot);
      assert Fifo(s, slot) == OfSlot(live, slot);
    }
    ClosedDistinct(s, live, ls);
  }

  lemma ClosedDistinct(s: Tables, live: seq<FdListener>, ls: seq<FdListener>)
    requires Distinct(live) && Distinct(s.spent) && SetOf(live) !! SetOf(s.spent)
    requires Distinct(s.closed) && forall l :: l in s.closed ==> l in s.spent
    requires Distinct(ls) && SetOf(ls) <= SetOf(live)
    ensures Distinct(s.closed + ls) && Distinct(s.spent + ls)
    ensures Distinct(Kept(live, SetOf(ls))) && SetOf(Kept(live, SetOf(ls))) !! SetOf(s.spent + ls)
  {
    var gone := SetOf(ls);
    KeptMembers(live, gone);
    forall l | l in ls
      ensures l !in s.spent && l !in s.closed
    {
      assert l in SetOf(ls) && l !in SetOf(s.spent);
    }
    DistinctAppend(s.spent, ls);
    DistinctAppend(s.closed, ls);
    assert forall l :: l in live ==> l in SetOf(live);
    assert forall l :: l in s.spent ==> l in SetOf(s.spent);
    assert forall l :: l in ls ==> l in gone;
  }

  lemma DistinctAppend(a: seq<FdListener>, b: seq<FdListener>)
    requires Distinct(a) && Distinct(b) && forall l :: l in b ==> l !in a
    ensures Distinct(a + b)
  {
    forall i, j | 0 <= i < j < |a + b|
      ensures (a + b)[i] != (a + b)[j]
    {
      if i < |a| <= j {
        assert b[j - |a|] in b;
      }
    }
  }

  lemma SecondariesRefine(s: Tables, live: seq<FdListener>, slot: Slot)
    requires Refines(s, live)
    ensures Refines(SecondariesObsolete(s, slot), Kept(live, SetOf(Secondary(s, slot))))
  {
    var t, ls := SecondariesObsolete(s, slot), Secondary(s, slot);
    OwnSlot(s, live, slot);
    forall other
      ensures Fifo(t, other) == Kept(Fifo(s, other), SetOf(ls))
    {
      OwnSlot(s, live, other);
      SecondariesFifo(s, slot, other);
    }
    ClosedRefines(s, t, live, ls);
  }

  lemma SecondariesFifo(s: Tables, slot: Slot, other: Slot)
    requires slot in s.secondaries ==> slot in s.listeners
    requires Distinct(Fifo(s, slot))
    requires forall l :: l in Fifo(s, slot) ==> l.slot == slot
    requires forall l :: l in Fifo(s, other) ==> l.slot == other
    ensures Fifo(SecondariesObsolete(s, slot), other) == Kept(Fifo(s, other), SetOf(Secondary(s, slot)))
  {
    var ls := Secondary(s, slot);
    if other != slot {
      assert forall l :: l in ls ==> l in Fifo(s, slot);
      KeptAll(Fifo(s, other), SetOf(ls));
    } else if slot in s.listeners {
      DistinctTail(Fifo(s, slot));
      KeptNone(ls, SetOf(ls));
    } else {
      KeptNone(ls, SetOf(ls));
    }
  }

  lemma PrimaryRefines(s: Tables, live: seq<FdListener>, slot: Slot)
    requires Refines(s, live) && slot !in s.secondaries
    ensures Refines(PrimaryObsolete(s, slot), Kept(live, SetOf(Fifo(s, slot))))
    ensures PrimaryObsolete(s, slot).closed == s.closed + Fifo(s, slot)
    ensures slot !in PrimaryObsolete(s, slot).listeners
    ensures forall other :: other != slot ==> Fifo(PrimaryObsolete(s, slot), other) == Fifo(s, other)
    ensures PrimaryObsolete(s, slot).secondaries == s.secondaries
  {
    OwnSlot(s, live, slot);
    if slot in s.listeners {
      PrimaryLeaves(s, live, s.listeners[slot]);
    } else {
      assert Fifo(s, slot) == [] && SetOf([]) == {};
      KeptAll(live, {});
    }
  }

  lemma PrimaryLeaves(s: Tables, live: seq<FdListener>, l: FdListener)
    requires Refines(s, live) && l.slot !in s.secondaries && l.slot in s.listeners && s.listeners[l.slot] == l
    ensures Refines(PrimaryObsolete(s, l.slot), Kept(live, SetOf(Fifo(s, l.slot)))) && Fifo(s, l.slot) == [l]
  {
    OwnSlot(s, live, l.slot);
    var t := Removed(s, l);
    assert Fifo(s, l.slot) == [l] && SetOf([l]) == {l};
    forall other
      ensures Fifo(t, other) == Kept(Fifo(s, other), {l})
    {
      RemovedFifo(s, live, l, other);
    }
    ClosedRefines(s, PrimaryObsolete(s, l.slot), live, [l]);
  }

  /** The listeners of a file, as `_obsolete` puts them on `closed`. */
  function OfFile(s: Tables, fileno: int): seq<FdListener> {
    var r, w := Slot(READ, fileno), Slot(WRITE, fileno);
    Secondary(s, r) + Secondary(s, w) + (Primary(s, r) + Primary(s, w))
  }

  function Primary(s: Tables, slot: Slot): seq<FdListener> {
    if slot in s.listeners then [s.listeners[slot]] else []
  }

  predicate Apart(gone: set<FdListener>, fileno: int) {
    forall l :: l in gone ==> l.slot.fileno == fileno
  }

  lemma SecondariesRefined(s: Tables, live: seq<FdListener>, fileno: int) returns (gone: set<FdListener>)
    requires Refines(s, live)
    ensures var t := SecondariesGone(s, fileno);
      && Refines(t, Kept(live, gone)) && Apart(gone, fileno) && t.listeners == s.listeners
      && Slot(READ, fileno) !in t.secondaries && Slot(WRITE, fileno) !in t.secondaries
      && t.closed == s.closed + (Secondary(s, Slot(READ, fileno)) + Secondary(s, Slot(WRITE, fileno)))
  {
    var r, w := Slot(READ, fileno), Slot(WRITE, fileno);
    SecondariesRefine(s, live, r);
    var s1, live1 := SecondariesObsolete(s, r), Kept(live, SetOf(Secondary(s, r)));
    SecondariesRefine(s1, live1, w);
    KeptTwice(live, SetOf(Secondary(s, r)), SetOf(Secondary(s1, w)));
    gone := SetOf(Secondary(s, r)) + SetOf(Secondary(s1, w));
    SecondaryApart(s, live, r);
    SecondaryApart(s1, live1, w);
    Associative(s.closed, Secondary(s, r), Secondary(s, w));
  }

  lemma SecondaryApart(s: Tables, live: seq<FdListener>, slot: Slot)
    requires Refines(s, live)
    ensures Apart(SetOf(Secondary(s, slot)), slot.fileno)
  {
    OwnSlot(s, live, slot);
  }

  lemma PrimariesRefined(s: Tables, live: seq<FdListener>, fileno: int) returns (gone: set<FdListener>)
    requires Refines(s, live) && Slot(READ, fileno) !in s.secondaries && Slot(WRITE, fileno) !in s.secondaries
    ensures var r, w := Slot(READ, fileno), Slot(WRITE, fileno);
      var t := PrimaryObsolete(PrimaryObsolete(s, r), w);
      && Refines(t, Kept(live, gone)) && Apart(gone, fileno) && Fifo(t, r) == [] && Fifo(t, w) == []
      && t.closed == s.closed + (Primary(s, r) + Primary(s, w))
  {
    var r, w := Slot(READ, fileno), Slot(WRITE, fileno);
    PrimaryRefines(s, live, r);
    var s1, live1 := PrimaryObsolete(s, r), Kept(live, SetOf(Fifo(s, r)));
    assert Fifo(s1, r) == [];
    PrimaryRefines(s1, live1, w);
    KeptTwice(live, SetOf(Fifo(s, r)), SetOf(Fifo(s1, w)));
    gone := SetOf(Fifo(s, r)) + SetOf(Fifo(s1, w));
    FifoApart(s, live, r);
    FifoApart(s1, live1, w);
    PrimariesQueued(s, live, fileno);
  }

  lemma FifoApart(s: Tables, live: seq<FdListener>, slot: Slot)
    requires Refines(s, live)
    ensures Apart(SetOf(Fifo(s, slot)), slot.fileno)
  {
    OwnSlot(s, live, slot);
  }

  lemma PrimariesQueued(s: Tables, live: seq<FdListener>, fileno: int)
    requires Refines(s, live) && Slot(READ, fileno) !in s.secondaries && Slot(WRITE, fileno) !in s.secondaries
    ensures var r, w := Slot(READ, fileno), Slot(WRITE, fileno);
      PrimaryObsolete(PrimaryObsolete(s, r), w).closed == s.closed + (Primary(s, r) + Primary(s, w))
  {
    var r, w := Slot(READ, fileno), Slot(WRITE, fileno);
    PrimaryRefines(s, live, r);
    PrimaryRefines(PrimaryObsolete(s, r), Kept(live, SetOf(Fifo(s, r))), w);
    PrimaryAlone(s, r);
    PrimaryAlone(s, w);
    Associative(s.closed, Primary(s, r), Primary(s, w));
  }

  lemma PrimaryAlone(s: Tables, slot: Slot)
    requires slot !in s.secondaries
    ensures Fifo(s, slot) == Primary(s, slot)
  {
  }

  lemma Associative(a: seq<FdListener>, b: seq<FdListener>, c: seq<FdListener>)
    ensures a + b + c == a + (b + c)
  {
  }

  /** A file that is opened anew makes each listener of the old one obsolete exactly once, and no others. */
  lemma ObsoleteRefines(s: Tables, live: seq<FdListener>, fileno: int)
    requires Refines(s, live)
    ensures Refines(Obsolete(s, fileno), Kept(live, OfFileNow(live, fileno)))
    ensures Obsolete(s, fileno).closed == s.closed + OfFile(s, fileno)
  {
    var a := SecondariesRefined(s, live, fileno);
    var s2 := SecondariesGone(s, fileno);
    var b := PrimariesRefined(s2, Kept(live, a), fileno);
    Associative(s.closed, Secondary(s, Slot(READ, fileno)) + Secondary(s, Slot(WRITE, fileno)),
                Primary(s, Slot(READ, fileno)) + Primary(s, Slot(WRITE, fileno)));
    KeptTwice(live, a, b);
    FileGone(Obsolete(s, fileno), live, fileno, a + b);
  }

  function OfFileNow(live: seq<FdListener>, fileno: int): set<FdListener> {
    set l | l in live && l.slot.fileno == fileno
  }

  lemma FileGone(t: Tables, live: seq<FdListener>, fileno: int, gone: set<FdListener>)
    requires Refines(t, Kept(live, gone)) && Apart(gone, fileno)
    requires Fifo(t, Slot(READ, fileno)) == [] && Fifo(t, Slot(WRITE, fileno)) == []
    ensures Kept(live, gone) == Kept(live, OfFileNow(live, fileno))
  {
    NobodyLeft(t, Kept(live, gone), fileno);
    KeptMembers(live, gone);
    KeptSame(live, gone, OfFileNow(live, fileno));
  }

  lemma ReadOrWrite(slot: Slot)
    ensures slot == Slot(READ, slot.fileno) || slot == Slot(WRITE, slot.fileno)
  {
    match slot.evtype
    case READ =>
    case WRITE =>
  }

  lemma NobodyLeft(t: Tables, left: seq<FdListener>, fileno: int)
    requires Refines(t, left) && Fifo(t, Slot(READ, fileno)) == [] && Fifo(t, Slot(WRITE, fileno)) == []
    ensures forall l :: l in left ==> l.slot.fileno != fileno
  {
    forall l | l in left
      ensures l.slot.fileno != fileno
    {
      OfSlotMembers(left, l.slot);
      assert Fifo(t, l.slot) == OfSlot(left, l.slot);
      ReadOrWrite(l.slot);
    }
  }

  lemma {:induction false} KeptSame(live: seq<FdListener>, a: set<FdListener>, b: set<FdListener>)
    requires forall l :: l in live ==> (l in a <==> l in b)
    ensures Kept(live, a) == Kept(live, b)
  {
    if live != [] {
      KeptSame(live[1..], a, b);
    }
  }

  // --- The kernel ---

  /** Adding or removing a listener changes no mask but that of its file, and `register` brings that one in step. */
  lemma RegisteredInStep(s: Tables, t: Tables, fileno: int)
    requires KernelInStep(s) && t.kernel == s.kernel && t.dropped == s.dropped
    requires forall f :: f != fileno ==> Mask(t.listeners, f) == Mask(s.listeners, f)
    ensures KernelInStep(Registered(t, fileno))
    ensures fileno !in Registered(t, fileno).dropped
  {
    forall f
      ensures InStep(Registered(t, fileno), f)
    {
      assert InStep(s, f);
    }
  }

  lemma AddInStep(s: Tables, l: FdListener)
    requires KernelInStep(s)
    ensures KernelInStep(Registered(Added(s, l), l.slot.fileno))
  {
    RegisteredInStep(s, Added(s, l), l.slot.fileno);
  }

  lemma RemoveInStep(s: Tables, l: FdListener)
    requires KernelInStep(s) && Check(s, l).Done?
    ensures KernelInStep(Registered(Removed(s, l), l.slot.fileno))
  {
    RegisteredInStep(s, Removed(s, l), l.slot.fileno);
  }

  lemma ClosedInStep(s: Tables, t: Tables)
    requires KernelInStep(s) && t.kernel == s.kernel && t.dropped == s.dropped && t.listeners == s.listeners
    ensures KernelInStep(t)
  {
    forall f
      ensures InStep(t, f)
    {
      assert InStep(s, f);
    }
  }

  lemma PrimaryInStep(s: Tables, slot: Slot)
    requires KernelInStep(s) && (slot in s.listeners ==> s.listeners[slot].slot == slot)
    ensures KernelInStep(PrimaryObsolete(s, slot))
  {
    if slot in s.listeners {
      var l := s.listeners[slot];
      RemoveInStep(s, l);
      ClosedInStep(Registered(Removed(s, l), slot.fileno), PrimaryObsolete(s, slot));
    }
  }

  lemma ObsoleteInStep(s: Tables, live: seq<FdListener>, fileno: int)
    requires Refines(s, live) && KernelInStep(s)
    ensures KernelInStep(Obsolete(s, fileno))
  {
    var r, w := Slot(READ, fileno), Slot(WRITE, fileno);
    var s2 := SecondariesGone(s, fileno);
    ClosedInStep(s, s2);
    var a := SecondariesRefined(s, live, fileno);
    OwnSlot(s2, Kept(live, a), r);
    PrimaryInStep(s2, r);
    PrimaryRefines(s2, Kept(live, a), r);
    OwnSlot(PrimaryObsolete(s2, r), Kept(Kept(live, a), SetOf(Fifo(s2, r))), w);
    PrimaryInStep(PrimaryObsolete(s2, r), w);
  }

  ghost predicate Waits(live: seq<FdListener>, slot: Slot) {
    exists l :: l in live && l.slot == slot
  }

  lemma PrimaryIfWaits(s: Tables, live: seq<FdListener>, slot: Slot)
    requires Refines(s, live)
    ensures slot in s.listeners <==> Waits(live, slot)
  {
    OfSlotMembers(live, slot);
    assert Fifo(s, slot) == OfSlot(live, slot);
    if slot in s.listeners {
      assert s.listeners[slot] in Fifo(s, slot);
    }
  }

  /** Of a file that it has not forgotten the kernel reports input, urgent data and output exactly if a listener waits
      for them, and errors and the end if any does. */
  lemma KernelReports(s: Tables, live: seq<FdListener>, fileno: int)
    requires Refines(s, live) && KernelInStep(s) && fileno !in s.dropped
    ensures fileno in s.kernel <==> Waits(live, Slot(READ, fileno)) || Waits(live, Slot(WRITE, fileno))
    ensures fileno in s.kernel ==>
      && (POLLIN in s.kernel[fileno] <==> Waits(live, Slot(READ, fileno)))
      && (POLLPRI in s.kernel[fileno] <==> Waits(live, Slot(READ, fileno)))
      && (POLLOUT in s.kernel[fileno] <==> Waits(live, Slot(WRITE, fileno)))
      && POLLERR in s.kernel[fileno] && POLLHUP in s.kernel[fileno]
  {
    PrimaryIfWaits(s, live, Slot(READ, fileno));
    PrimaryIfWaits(s, live, Slot(WRITE, fileno));
    assert InStep(s, fileno);
    assert POLLERR in EXC_MASK;
  }

  // --- Runs ---

  /** `Forgotten` is a file closed by the operating system, which takes it out of an epoll. */
  datatype Op = Add(l: FdListener) | Remove(l: FdListener) | Reopened(fileno: int) | CloseOne | Forgotten(fileno: int)

  ghost predicate Enabled(s: Tables, live: seq<FdListener>, op: Op) {
    match op
    case Add(l) => l !in live && l !in s.spent
    case Remove(l) => l in live || l in s.spent
    case CloseOne => s.closed != []
    case _ => true
  }

  function Step(s: Tables, op: Op): Tables {
    match op
    case Add(l) => Registered(Added(s, l), l.slot.fileno)
    case Remove(l) => Registered(if l !in s.spent && Check(s, l).Done? then Removed(s, l) else s, l.slot.fileno)
    case Reopened(fileno) => Obsolete(s, fileno)
    case CloseOne => if s.closed == [] then s else s.(closed := s.closed[..|s.closed| - 1])
    case Forgotten(fileno) => s.(kernel := s.kernel - {fileno}, dropped := s.dropped + {fileno})
  }

  /** What the run makes of the listeners in the order of their arrival. */
  function StepLive(live: seq<FdListener>, op: Op): seq<FdListener> {
    match op
    case Add(l) => live + [l]
    case Remove(l) => Kept(live, {l})
    case Reopened(fileno) => Kept(live, OfFileNow(live, fileno))
    case _ => live
  }

  lemma StepRefines(s: Tables, live: seq<FdListener>, op: Op)
    requires Refines(s, live) && KernelInStep(s) && Enabled(s, live, op)
    ensures Refines(Step(s, op), StepLive(live, op)) && KernelInStep(Step(s, op))
  {
    match op {
      case Add(l) => AddRefines(s, live, l); AddInStep(s, l);
      case Remove(l) => RemoveStep(s, live, l);
      case Reopened(fileno) => ObsoleteRefines(s, live, fileno); ObsoleteInStep(s, live, fileno);
      case CloseOne =>
        ClosedInStep(s, Step(s, op));
        assert forall slot :: Fifo(Step(s, op), slot) == Fifo(s, slot);
      case Forgotten(fileno) =>
        assert forall slot :: Fifo(Step(s, op), slot) == Fifo(s, slot);
        assert forall f :: InStep(s, f) ==> InStep(Step(s, op), f);
    }
  }

  lemma RemoveStep(s: Tables, live: seq<FdListener>, l: FdListener)
    requires Refines(s, live) && KernelInStep(s) && (l in live || l in s.spent)
    ensures Refines(Step(s, Op.Remove(l)), Kept(live, {l})) && KernelInStep(Step(s, Op.Remove(l)))
  {
    assert l in live ==> l in SetOf(live);
    assert l in s.spent ==> l in SetOf(s.spent);
    if l in s.spent {
      KeptAll(live, {l});
      RegisteredInStep(s, s, l.slot.fileno);
    } else {
      RemovableIfLive(s, live, l);
      RemoveRefines(s, live, l);
      RemoveInStep(s, l);
    }
  }

  ghost predicate Legal(s: Tables, live: seq<FdListener>, ops: seq<Op>)
    decreases |ops|
  {
    ops == [] || (Enabled(s, live, ops[0]) && Legal(Step(s, ops[0]), StepLive(live, ops[0]), ops[1..]))
  }

  function Run(s: Tables, ops: seq<Op>): Tables
    decreases |ops|
  {
    if ops == [] then s else Run(Step(s, ops[0]), ops[1..])
  }

  function RunLive(live: seq<FdListener>, ops: seq<Op>): seq<FdListener>
    decreases |ops|
  {
    if ops == [] then live else RunLive(StepLive(live, ops[0]), ops[1..])
  }

  /** After every run each slot holds its live listeners in the order of their arrival, and the kernel waits for what
      the primary listeners ask for, wherever it has not forgotten a file. */
  lemma {:induction false} RunRefines(s: Tables, live: seq<FdListener>, ops: seq<Op>)
    requires Refines(s, live) && KernelInStep(s) && Legal(s, live, ops)
    ensures Refines(Run(s, ops), RunLive(live, ops)) && KernelInStep(Run(s, ops))
    decreases |ops|
  {
    if ops != [] {
      StepRefines(s, live, ops[0]);
      RunRefines(Step(s, ops[0]), StepLive(live, ops[0]), ops[1..]);
    }
  }
}
