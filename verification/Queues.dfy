/** `eventlet.queue`: `LightQueue` and the task counting of `Queue`, as the atomic segments that run between
    two switches. */
module Queues {
  import opened Options

  /** A call of `put` or `get`; every call has its own number. */
  type Call = nat

  /** An item together with the `put` call that brought it. */
  datatype Entry = Entry(call: Call, item: int)

  /** An `ItemWaiter` in the `putters` set. */
  datatype Putter = Putter(entry: Entry, block: bool)

  /** An item that left the queue, and the `get` call that returned it. */
  datatype Taken = Taken(entry: Entry, getter: Call)

  /** What the hub is doing here: nothing, `_unlock` at the top of its loop, or about to switch into a putter whose item
      it has already handed over, or a `get` of the hub's own that lets putters in. */
  datatype Phase = Idle | Looping | Handed(putter: Putter) | Borrowing

  /** `gone` are the putters whose greenthread has left them: an exception has been thrown into a `put` that does not
      block, which has no handler. `doomed` are those into which the hub is going to throw `Full`. Of the calls,
      `returned` and `refused` are those of `put`, and `gets` those of `get`, of which `thrown` have been ended by an
      exception thrown into them, and `empty` by `Empty` at once. */
  datatype State = State(
    maxsize: Option<int>, queue: seq<Entry>, getters: set<Call>, putters: set<Putter>, gone: set<Putter>,
    eventUnlock: bool,
    unfinishedTasks: int, condReady: bool,
    phase: Phase, doomed: set<Putter>,
    entered: seq<Entry>, taken: seq<Taken>, tasksDone: nat,
    calls: set<Call>, returned: set<Call>, refused: set<Call>,
    gets: set<Call>, thrown: set<Call>, empty: set<Call>)

  /** One atomic segment. `Throw…` is a timeout or a kill; `Serve` to `Finish` are the branches of `_unlock`, `Break`
      being its end by an exception, after it has dealt with `done`. `…FromHub` are calls made from the hub's greenlet,
      which cannot wait. */
  datatype Op =
    | Put(entry: Entry, block: bool)
    | Get(call: Call, block: bool)
    | ThrowGetter(call: Call)
    | ThrowPutter(putter: Putter)
    | ThrowFull(putter: Putter)
    | Resize(size: Option<int>)
    | TaskDone
    | FireUnlock
    | Serve(getter: Call)
    | HandOver(putter: Putter, getter: Call)
    | ResumeHanded
    | Admit(putter: Putter)
    | DropGone(putter: Putter)
    | Reject
    | Break(done: set<Putter>, putter: Putter)
    | Finish
    | PutFromHub(entry: Entry, getter: Call)
    | AdmitFromHub(putter: Putter)
    | TakeFromHub(call: Call)
    | EndFromHub

  function Init(maxsize: Option<int>): State {
    var m := if maxsize.Some? && maxsize.value < 0 then None else maxsize;
    State(m, [], {}, {}, {}, false, 0, false, Idle, {}, [], [], 0, {}, {}, {}, {}, {}, {})
  }

  /** The `put` call `c` returns, or raises without having put anything. */
  function Returned(s: State, c: Call): State {
    s.(returned := s.returned + {c})
  }

  function Refused(s: State, c: Call): State {
    s.(refused := s.refused + {c})
  }

  predicate HasSpace(s: State) {
    s.maxsize.None? || |s.queue| < s.maxsize.value
  }

  function Scheduled(s: State): State {
    s.(eventUnlock := true)
  }

  /** `Queue._put`, with its bookkeeping. */
  function Enter(s: State, e: Entry): State {
    s.(queue := s.queue + [e], entered := s.entered + [e], unfinishedTasks := s.unfinishedTasks + 1, condReady := false)
  }

  /** `_get`, on behalf of `getter`. */
  function Leave(s: State, getter: Call): State
    requires s.queue != []
  {
    s.(queue := s.queue[1..], taken := s.taken + [Taken(s.queue[0], getter)])
  }

  function NonBlocking(putters: set<Putter>): set<Putter> {
    set p | p in putters && !p.block
  }

  /** The putters whose greenthreads wait. */
  function Waiting(s: State): set<Putter> {
    s.putters - s.gone
  }

  predicate WorkFor(s: State, putters: set<Putter>) {
    || (s.queue != [] && s.getters != {})
    || (putters != {} && (s.getters != {} || HasSpace(s)))
    || NonBlocking(putters) != {}
  }

  /** Somebody waits for what `_unlock` could do. */
  predicate Work(s: State) {
    WorkFor(s, Waiting(s))
  }

  predicate Enabled(s: State, op: Op) {
    match op
    case Put(e, _) => e.call !in s.calls
    case Get(c, _) => c !in s.calls
    case ThrowGetter(c) => c in s.getters
    case ThrowPutter(p) => p in Waiting(s) || s.phase == Handed(p)
    case ThrowFull(p) => p in s.doomed
    case Resize(_) => true
    case TaskDone => true
    case FireUnlock => s.phase.Idle? && s.eventUnlock
    case Serve(g) => s.phase.Looping? && s.queue != [] && g in s.getters
    case HandOver(p, g) => s.phase.Looping? && s.queue == [] && p in Waiting(s) && g in s.getters
    case ResumeHanded => s.phase.Handed?
    case Admit(p) => s.phase.Looping? && s.getters == {} && p in Waiting(s) && HasSpace(s)
    case DropGone(p) =>
      && s.phase.Looping? && p in s.gone && (s.queue == [] || s.getters == {})
      && (s.getters != {} || HasSpace(s))
    case Reject => Rejects(s) && s.gone == {}
    case Break(done, p) => Rejects(s) && p in s.gone && done <= NonBlocking(Waiting(s))
    case Finish => s.phase.Looping? && !WorkFor(s, s.putters)
    case PutFromHub(e, g) => s.phase.Idle? && e.call !in s.calls && !HasSpace(s) && g in s.getters
    case AdmitFromHub(p) => (s.phase.Idle? || s.phase.Borrowing?) && s.queue == [] && p in s.putters
    case TakeFromHub(c) => s.phase.Borrowing? && c !in s.calls && s.queue != []
    case EndFromHub => s.phase.Borrowing? && s.queue == [] && s.putters == {}
  }

  predicate Rejects(s: State) {
    s.phase.Looping? && s.getters == {} && !HasSpace(s) && NonBlocking(s.putters) != {}
  }

  function PutStart(s: State, e: Entry, block: bool): State {
    var s := s.(calls := s.calls + {e.call});
    if HasSpace(s) then
      var s' := Returned(Enter(s, e), e.call);
      if s.getters != {} then Scheduled(s') else s'
    else if block || s.getters != {} then
      var s' := s.(putters := s.putters + {Putter(e, block)});
      if s.getters != {} then Scheduled(s') else s'
    else Refused(s, e.call)
  }

  function GetStart(s: State, c: Call, block: bool): State {
    var s := s.(calls := s.calls + {c}, gets := s.gets + {c});
    if s.queue != [] then
      Leave(if s.putters != {} then Scheduled(s) else s, c)
    else if block then
      var s' := s.(getters := s.getters + {c});
      if s.putters != {} then Scheduled(s') else s'
    else s.(empty := s.empty + {c})
  }

  function ResizeTo(s: State, size: Option<int>): State {
    var grows := s.maxsize.Some? && (size.None? || size.value > s.maxsize.value);
    (if grows then Scheduled(s) else s).(maxsize := size)
  }

  function TaskDoneOnce(s: State): State {
    if s.unfinishedTasks <= 0 then s
    else s.(unfinishedTasks := s.unfinishedTasks - 1, tasksDone := s.tasksDone + 1,
            condReady := s.condReady || s.unfinishedTasks == 1)
  }

  function Step(s: State, op: Op): State
    requires Enabled(s, op)
  {
    match op
    case Put(e, block) => PutStart(s, e, block)
    case Get(c, block) => GetStart(s, c, block)
    case ThrowGetter(c) => Scheduled(s.(getters := s.getters - {c}, thrown := s.thrown + {c}))
    case ThrowPutter(p) => if p in s.putters then PutterThrown(s, p) else s.(phase := Looping)
    case ThrowFull(p) => Refused(s.(doomed := s.doomed - {p}), p.entry.call)
    case Resize(size) => ResizeTo(s, size)
    case TaskDone => TaskDoneOnce(s)
    case FireUnlock => s.(phase := Looping)
    case Serve(g) => Leave(s.(getters := s.getters - {g}), g)
    case HandOver(p, g) =>
      Leave(Enter(s.(putters := s.putters - {p}, getters := s.getters - {g}, phase := Handed(p)), p.entry), g)
    case ResumeHanded => Returned(s.(phase := Looping), s.phase.putter.entry.call)
    case Admit(p) => Admitted(s, p)
    case DropGone(p) => s.(putters := s.putters - {p}, gone := s.gone - {p})
    case Reject => s.(putters := s.putters - NonBlocking(s.putters), doomed := s.doomed + NonBlocking(s.putters))
    case Break(done, p) =>
      s.(putters := s.putters - done - {p}, gone := s.gone - {p}, doomed := s.doomed + done,
         phase := Idle, eventUnlock := false)
    case Finish => s.(phase := Idle, eventUnlock := false)
    case PutFromHub(e, g) =>
      Returned(Leave(Enter(s.(calls := s.calls + {e.call}, getters := s.getters - {g}), e), g), e.call)
    case AdmitFromHub(p) =>
      if p in s.gone then s.(putters := s.putters - {p}, gone := s.gone - {p})
      else Admitted(s, p).(phase := Borrowing)
    case TakeFromHub(c) => Leave(s.(calls := s.calls + {c}, gets := s.gets + {c}, phase := Idle), c)
    case EndFromHub => s.(phase := Idle)
  }

  /** The putter is switched into: one that blocks puts its item, any other raises `Full`. */
  function Admitted(s: State, p: Putter): State {
    var s' := s.(putters := s.putters - {p});
    if p.block then Returned(Enter(s', p.entry), p.entry.call) else Refused(s', p.entry.call)
  }

  /** The handler of a `put` that blocks takes the putter out of the set. */
  function PutterThrown(s: State, p: Putter): State {
    Refused(if p.block then s.(putters := s.putters - {p}) else s.(gone := s.gone + {p}), p.entry.call)
  }

  // --- What each step does ---

  /** The calls of `put` and `get`, and what else the greenthreads do. */
  predicate IsCall(op: Op) {
    op.Put? || op.Get? || op.ThrowGetter? || op.ThrowPutter? || op.ThrowFull? || op.Resize? || op.TaskDone?
  }

  predicate IsUnlock(op: Op) {
    op.FireUnlock? || op.Serve? || op.HandOver? || op.ResumeHanded? || op.Admit? || op.DropGone? || op.Reject? || op.Break?
    || op.Finish?
  }

  /** Which item enters, which leaves and for whom, and what becomes of the bound and of the tasks. */
  ghost predicate ItemsFollow(s: State, op: Op, t: State)
    requires Enabled(s, op)
  {
    && t.entered == s.entered + (
         match op
         case Put(e, _) => if s.maxsize.None? || |s.queue| < s.maxsize.value then [e] else []
         case HandOver(p, _) => [p.entry]
         case Admit(p) => if p.block then [p.entry] else []
         case PutFromHub(e, _) => [e]
         case AdmitFromHub(p) => if p.block && p !in s.gone then [p.entry] else []
         case _ => [])
    && t.taken == s.taken + (
         match op
         case Get(c, _) => if s.queue != [] then [Taken(s.queue[0], c)] else []
         case Serve(g) => [Taken(s.queue[0], g)]
         case HandOver(p, g) => [Taken(p.entry, g)]
         case PutFromHub(e, g) => [Taken(if s.queue == [] then e else s.queue[0], g)]
         case TakeFromHub(c) => [Taken(s.queue[0], c)]
         case _ => [])
    && t.maxsize == (if op.Resize? then op.size else s.maxsize)
    && t.tasksDone == s.tasksDone + if op.TaskDone? && s.unfinishedTasks > 0 then 1 else 0
  }

  /** Who begins to wait, and who does no longer. */
  ghost predicate WaitersFollow(s: State, op: Op, t: State) {
    && t.getters == (
         match op
         case Get(c, block) => if s.queue == [] && block then s.getters + {c} else s.getters
         case ThrowGetter(c) => s.getters - {c}
         case Serve(g) => s.getters - {g}
         case HandOver(_, g) => s.getters - {g}
         case PutFromHub(_, g) => s.getters - {g}
         case _ => s.getters)
    && t.putters == (
         match op
         case Put(e, block) =>
           if (s.maxsize.Some? && |s.queue| >= s.maxsize.value) && (block || s.getters != {})
           then s.putters + {Putter(e, block)} else s.putters
         case ThrowPutter(p) => if p.block then s.putters - {p} else s.putters
         case HandOver(p, _) => s.putters - {p}
         case Admit(p) => s.putters - {p}
         case DropGone(p) => s.putters - {p}
         case Reject => set p | p in s.putters && p.block
         case Break(done, p) => s.putters - done - {p}
         case AdmitFromHub(p) => s.putters - {p}
         case _ => s.putters)
    && t.gone == (
         match op
         case ThrowPutter(p) => if p in s.putters && !p.block then s.gone + {p} else s.gone
         case DropGone(p) => s.gone - {p}
         case Break(_, p) => s.gone - {p}
         case AdmitFromHub(p) => s.gone - {p}
         case _ => s.gone)
  }

  /** Which calls of `get` have been made, and have ended by an exception thrown into them or by `Empty`. */
  ghost predicate GetsFollow(s: State, op: Op, t: State) {
    && t.gets == (if op.Get? || op.TakeFromHub? then s.gets + {op.call} else s.gets)
    && t.thrown == (if op.ThrowGetter? then s.thrown + {op.call} else s.thrown)
    && t.empty == if op.Get? && s.queue == [] && !op.block then s.empty + {op.call} else s.empty
  }

  lemma AfterPut(s: State, e: Entry, block: bool)
    requires Enabled(s, Put(e, block))
    ensures var t := Step(s, Put(e, block));
      ItemsFollow(s, Put(e, block), t) && WaitersFollow(s, Put(e, block), t) && GetsFollow(s, Put(e, block), t)
  {
  }

  lemma AfterGet(s: State, c: Call, block: bool)
    requires Enabled(s, Get(c, block))
    ensures var t := Step(s, Get(c, block));
      ItemsFollow(s, Get(c, block), t) && WaitersFollow(s, Get(c, block), t) && GetsFollow(s, Get(c, block), t)
  {
  }

  lemma AfterCall(s: State, op: Op)
    requires Enabled(s, op) && IsCall(op) && !op.Put? && !op.Get?
    ensures var t := Step(s, op); ItemsFollow(s, op, t) && WaitersFollow(s, op, t) && GetsFollow(s, op, t)
  {
    if op.ThrowPutter? && op.putter !in s.putters {
      assert s.putters - {op.putter} == s.putters;
    }
  }

  lemma AfterUnlock(s: State, op: Op)
    requires Enabled(s, op) && IsUnlock(op)
    ensures var t := Step(s, op); ItemsFollow(s, op, t) && WaitersFollow(s, op, t) && GetsFollow(s, op, t)
  {
    if op.Reject? {
      assert s.putters - NonBlocking(s.putters) == set p | p in s.putters && p.block;
    } else if op.HandOver? {
      assert (s.queue + [op.putter.entry])[0] == op.putter.entry;
    }
  }

  lemma AfterHub(s: State, op: Op)
    requires Enabled(s, op) && !IsCall(op) && !IsUnlock(op)
    ensures var t := Step(s, op); ItemsFollow(s, op, t) && WaitersFollow(s, op, t) && GetsFollow(s, op, t)
  {
    if op.AdmitFromHub? && op.putter !in s.gone {
      assert s.gone - {op.putter} == s.gone;
    }
  }

  /** What each step does to the items, to those who wait, and to the calls of `get`. */
  lemma StepFollows(s: State, op: Op)
    requires Enabled(s, op)
    ensures var t := Step(s, op); ItemsFollow(s, op, t) && WaitersFollow(s, op, t) && GetsFollow(s, op, t)
  {
    match op
    case Put(e, block) => AfterPut(s, e, block);
    case Get(c, block) => AfterGet(s, c, block);
    case _ => if IsCall(op) { AfterCall(s, op); } else if IsUnlock(op) { AfterUnlock(s, op); } else { AfterHub(s, op); }
  }

  /** Which calls of `put` have ended by an exception thrown into them or by `Full`. */
  lemma RefusedAfter(s: State, op: Op)
    requires Enabled(s, op)
    ensures Step(s, op).refused == match op
      case Put(e, block) =>
        if s.maxsize.Some? && |s.queue| >= s.maxsize.value && !block && s.getters == {} then s.refused + {e.call}
        else s.refused
      case ThrowPutter(p) => if p in s.putters then s.refused + {p.entry.call} else s.refused
      case ThrowFull(p) => s.refused + {p.entry.call}
      case Admit(p) => if p.block then s.refused else s.refused + {p.entry.call}
      case AdmitFromHub(p) => if p.block || p in s.gone then s.refused else s.refused + {p.entry.call}
      case _ => s.refused
  {
  }

  // --- No wake-up is lost ---

  /** `_unlock` runs or is scheduled, or nobody waits for it. */
  predicate Awake(s: State) {
    s.eventUnlock || (!Work(s) && (s.phase.Idle? || (s.phase.Borrowing? && s.maxsize.Some? && s.maxsize.value <= 0)))
  }

  /** `_unlock` breaks off on a putter that is gone, and leaves a `put` behind that does not block but waits. */
  predicate BreaksOff(s: State, op: Op) {
    op.Break? && NonBlocking(Waiting(s)) - op.done != {}
  }

  /** That is the only step that loses a wake-up, and it does. */
  lemma StepStaysAwake(s: State, op: Op)
    requires Awake(s) && Enabled(s, op)
    ensures Awake(Step(s, op)) <==> !BreaksOff(s, op)
  {
    match op {
      case Break(done, p) => BreakLeaves(s, done, p);
      case Finish => WaitingWork(s);
      case AdmitFromHub(p) => AdmitFromHubAwake(s, p);
      case ThrowPutter(p) => ThrowPutterAwake(s, p);
      case _ =>
    }
  }

  lemma WaitingWork(s: State)
    ensures Work(s) ==> WorkFor(s, s.putters)
  {
    forall p | p in NonBlocking(Waiting(s))
      ensures p in NonBlocking(s.putters)
    {
    }
  }

  lemma AdmitFromHubAwake(s: State, p: Putter)
    requires Awake(s) && Enabled(s, AdmitFromHub(p))
    ensures Awake(Step(s, AdmitFromHub(p)))
  {
    if !s.eventUnlock && p !in s.gone {
      assert p in Waiting(s);
      assert !p.block ==> p in NonBlocking(Waiting(s));
    }
    FewerWaiting(s, Step(s, AdmitFromHub(p)));
  }

  lemma ThrowPutterAwake(s: State, p: Putter)
    requires Awake(s) && Enabled(s, ThrowPutter(p))
    ensures Awake(Step(s, ThrowPutter(p)))
  {
    FewerWaiting(s, Step(s, ThrowPutter(p)));
  }

  lemma FewerWaiting(s: State, t: State)
    requires t.putters - t.gone <= s.putters - s.gone
    ensures Waiting(t) <= Waiting(s) && NonBlocking(Waiting(t)) <= NonBlocking(Waiting(s))
  {
  }

  lemma BreakLeaves(s: State, done: set<Putter>, p: Putter)
    requires Enabled(s, Break(done, p))
    ensures NonBlocking(Waiting(Step(s, Break(done, p)))) == NonBlocking(Waiting(s)) - done
    ensures Work(Step(s, Break(done, p))) <==> NonBlocking(Waiting(s)) - done != {}
  {
  }

  // --- Every item is delivered once ---

  function Entries(taken: seq<Taken>): seq<Entry> {
    seq(|taken|, i requires 0 <= i < |taken| => taken[i].entry)
  }

  ghost predicate Distinct<T>(s: seq<T>) {
    forall i, j :: 0 <= i < j < |s| ==> s[i] != s[j]
  }

  ghost function Calls(entered: seq<Entry>): set<Call> {
    set i | 0 <= i < |entered| :: entered[i].call
  }

  ghost function Getters(taken: seq<Taken>): set<Call> {
    set i | 0 <= i < |taken| :: taken[i].getter
  }

  ghost predicate EachOnce(entered: seq<Entry>) {
    forall i, j :: 0 <= i < j < |entered| ==> entered[i].call != entered[j].call
  }

  ghost predicate EachGetterOnce(taken: seq<Taken>) {
    forall i, j :: 0 <= i < j < |taken| ==> taken[i].getter != taken[j].getter
  }

  /** The items that entered are, in order, those taken and then those in the queue. */
  ghost predicate Conserved(s: State) {
    s.entered == Entries(s.taken) + s.queue
  }

  /** A blocked or doomed `put` call has entered nothing, and no two of them are the same call. */
  ghost predicate PuttersPending(s: State) {
    && s.putters !! s.doomed && s.gone <= NonBlocking(s.putters)
    && (forall p :: p in Waiting(s) + s.doomed ==> p.entry.call in s.calls - Calls(s.entered) - s.refused)
    && (forall p, q :: p in s.putters + s.doomed && q in s.putters + s.doomed && p.entry.call == q.entry.call ==> p == q)
    && (forall p :: p in s.gone ==> p.entry.call in s.refused)
  }

  /** No `put` call enters its item twice; it has entered it when it returns, and has not when it is refused. */
  ghost predicate PutOnce(s: State) {
    && EachOnce(s.entered)
    && Calls(s.entered) <= s.calls && s.refused <= s.calls
    && s.returned <= Calls(s.entered) && s.refused !! Calls(s.entered)
    && (s.phase.Handed? ==> s.phase.putter.entry.call in Calls(s.entered))
    && PuttersPending(s)
  }

  /** Each `get` call waits, or has taken one item, or has ended without any. */
  ghost predicate GetOnce(s: State) {
    && EachGetterOnce(s.taken) && s.gets <= s.calls
    && s.gets == s.getters + Getters(s.taken) + s.thrown + s.empty
    && s.getters !! Getters(s.taken) !! s.thrown !! s.empty
  }

  /** The same, but for the call `g`, which is being served. */
  ghost predicate GetOnceBut(s: State, g: Call) {
    && EachGetterOnce(s.taken) && s.gets <= s.calls
    && s.gets == s.getters + Getters(s.taken) + s.thrown + s.empty + {g}
    && s.getters !! Getters(s.taken) !! s.thrown !! s.empty !! {g}
  }

  /** The task count is what entered less what was reported done, and `join` waits while it is positive. */
  ghost predicate TasksCounted(s: State) {
    s.unfinishedTasks == |s.entered| - s.tasksDone && (s.unfinishedTasks > 0 ==> !s.condReady)
  }

  ghost predicate Inv(s: State) {
    Conserved(s) && PutOnce(s) && GetOnce(s) && TasksCounted(s)
  }

  lemma EnterCalls(s: State, e: Entry)
    requires EachOnce(s.entered) && e.call !in Calls(s.entered)
    ensures EachOnce(Enter(s, e).entered) && Calls(Enter(s, e).entered) == Calls(s.entered) + {e.call}
  {
    var l := s.entered + [e];
    assert l[|s.entered|] == e;
    forall c | c in Calls(s.entered) ensures c in Calls(l) {
      var i :| 0 <= i < |s.entered| && s.entered[i].call == c;
      assert l[i].call == c;
    }
  }

  lemma LeaveGetters(s: State, g: Call)
    requires s.queue != [] && EachGetterOnce(s.taken) && g !in Getters(s.taken)
    ensures EachGetterOnce(Leave(s, g).taken) && Getters(Leave(s, g).taken) == Getters(s.taken) + {g}
  {
    var l := Leave(s, g).taken;
    assert l[|s.taken|].getter == g;
    forall c | c in Getters(s.taken) ensures c in Getters(l) {
      var i :| 0 <= i < |s.taken| && s.taken[i].getter == c;
      assert l[i].getter == c;
    }
  }

  lemma LeaveConserves(s: State, g: Call)
    requires s.queue != [] && Conserved(s)
    ensures Conserved(Leave(s, g))
  {
    assert Entries(Leave(s, g).taken) == Entries(s.taken) + [s.queue[0]];
  }

  lemma EnterConserves(s: State, e: Entry)
    requires Conserved(s)
    ensures Conserved(Enter(s, e))
  {
  }

  lemma StepConserves(s: State, op: Op)
    requires Conserved(s) && Enabled(s, op)
    ensures Conserved(Step(s, op))
  {
    match op
    case Put(e, _) => EnterConserves(s, e);
    case Get(c, _) => if s.queue != [] { LeaveConserves(s, c); }
    case Serve(g) => LeaveConserves(s, g);
    case HandOver(p, g) => EnterConserves(s, p.entry); LeaveConserves(Enter(s, p.entry), g);
    case Admit(p) => EnterConserves(s, p.entry);
    case PutFromHub(e, g) => EnterConserves(s, e); LeaveConserves(Enter(s, e), g);
    case AdmitFromHub(p) => EnterConserves(s, p.entry);
    case TakeFromHub(c) => LeaveConserves(s, c);
    case _ =>
  }

  /** An item enters for a call that has not entered or refused anything, and that nobody else waits for. */
  lemma EnterPutsOnce(s: State, e: Entry)
    requires PutOnce(s) && e.call in s.calls - Calls(s.entered) - s.refused
    requires forall p :: p in s.putters + s.doomed ==> p.entry.call != e.call
    ensures PutOnce(Enter(s, e)) && PutOnce(Returned(Enter(s, e), e.call))
    ensures e.call in Calls(Enter(s, e).entered)
  {
    EnterCalls(s, e);
  }

  lemma CallKeeps(s: State, c: Call)
    requires PutOnce(s) && c !in s.calls
    ensures PutOnce(s.(calls := s.calls + {c}))
    ensures c !in Calls(s.entered) && c !in s.refused && forall p :: p in s.putters + s.doomed ==> p.entry.call != c
  {
    forall p | p in s.putters + s.doomed
      ensures p.entry.call != c
    {
      assert p in Waiting(s) + s.doomed || p in s.gone;
    }
  }

  lemma PutStartPutsOnce(s: State, e: Entry, block: bool)
    requires PutOnce(s) && e.call !in s.calls
    ensures PutOnce(PutStart(s, e, block))
  {
    CallKeeps(s, e.call);
    var t := s.(calls := s.calls + {e.call});
    if HasSpace(s) {
      EnterPutsOnce(t, e);
    } else {
      QueuedPutsOnce(t, Putter(e, block));
    }
  }

  lemma QueuedPutsOnce(s: State, p: Putter)
    requires PutOnce(s) && p.entry.call in s.calls - Calls(s.entered) - s.refused
    requires forall q :: q in s.putters + s.doomed ==> q.entry.call != p.entry.call
    ensures PutOnce(s.(putters := s.putters + {p})) && PutOnce(Refused(s, p.entry.call))
  {
    assert p !in s.putters && p !in s.doomed;
    assert s.gone <= s.putters;
  }

  /** A putter leaves the set. */
  lemma LessPutters(s: State, p: Putter)
    requires PutOnce(s) && p in s.putters
    ensures var t := s.(putters := s.putters - {p}, gone := s.gone - {p});
      PutOnce(t) && forall q :: q in t.putters + t.doomed ==> q.entry.call != p.entry.call
  {
  }

  lemma HandOverPutsOnce(s: State, p: Putter, g: Call)
    requires PutOnce(s) && Enabled(s, HandOver(p, g))
    ensures PutOnce(Step(s, HandOver(p, g)))
  {
    LessPutters(s, p);
    assert s.gone - {p} == s.gone;
    EnterPutsOnce(s.(putters := s.putters - {p}), p.entry);
  }

  lemma AdmittedPutsOnce(s: State, p: Putter)
    requires PutOnce(s) && p in Waiting(s)
    ensures PutOnce(Admitted(s, p))
  {
    LessPutters(s, p);
    assert s.gone - {p} == s.gone;
    var t := s.(putters := s.putters - {p});
    if p.block {
      EnterPutsOnce(t, p.entry);
    } else {
      QueuedPutsOnce(t, p);
    }
  }

  lemma ThrownPutsOnce(s: State, p: Putter)
    requires PutOnce(s) && p in Waiting(s)
    ensures PutOnce(PutterThrown(s, p))
  {
    if p.block {
      LessPutters(s, p);
      assert s.gone - {p} == s.gone;
      QueuedPutsOnce(s.(putters := s.putters - {p}), p);
    }
  }

  lemma RejectPutsOnce(s: State, op: Op)
    requires PutOnce(s) && Enabled(s, op) && (op.Reject? || op.Break?)
    ensures PutOnce(Step(s, op))
  {
  }

  lemma HubPutsOnce(s: State, op: Op)
    requires PutOnce(s) && Enabled(s, op) && (op.PutFromHub? || op.AdmitFromHub?)
    ensures PutOnce(Step(s, op))
  {
    match op
    case PutFromHub(e, _) =>
      CallKeeps(s, e.call);
      EnterPutsOnce(s.(calls := s.calls + {e.call}), e);
    case AdmitFromHub(p) => if p in s.gone { LessPutters(s, p); } else { AdmittedPutsOnce(s, p); }
  }

  lemma StepPutsOnce(s: State, op: Op)
    requires PutOnce(s) && Enabled(s, op)
    ensures PutOnce(Step(s, op))
  {
    match op {
      case Put(e, block) => PutStartPutsOnce(s, e, block);
      case HandOver(p, g) => HandOverPutsOnce(s, p, g);
      case Admit(p) => AdmittedPutsOnce(s, p);
      case ThrowPutter(p) => if p in s.putters { ThrownPutsOnce(s, p); }
      case ThrowFull(p) => DoomedPutsOnce(s, p);
      case DropGone(p) => LessPutters(s, p);
      case Reject => RejectPutsOnce(s, op);
      case Break(_, _) => RejectPutsOnce(s, op);
      case PutFromHub(_, _) => HubPutsOnce(s, op);
      case AdmitFromHub(_) => HubPutsOnce(s, op);
      case _ => OtherPutsOnce(s, op);
    }
  }

  lemma DoomedPutsOnce(s: State, p: Putter)
    requires PutOnce(s) && p in s.doomed
    ensures PutOnce(Refused(s.(doomed := s.doomed - {p}), p.entry.call))
  {
  }

  lemma OtherPutsOnce(s: State, op: Op)
    requires PutOnce(s) && Enabled(s, op)
    requires op.Get? || op.ThrowGetter? || op.Resize? || op.TaskDone? || op.FireUnlock? || op.Serve? || op.ResumeHanded?
      || op.Finish? || op.TakeFromHub? || op.EndFromHub?
    ensures PutOnce(Step(s, op))
  {
    if IsCall(op) {
      CallsPutNothing(s, op);
    } else {
      HubPutsNothing(s, op);
    }
  }

  lemma CallsPutNothing(s: State, op: Op)
    requires PutOnce(s) && Enabled(s, op) && (op.Get? || op.ThrowGetter? || op.Resize? || op.TaskDone?)
    ensures PutOnce(Step(s, op))
  {
    PutsUntouched(s, Step(s, op));
  }

  lemma HubPutsNothing(s: State, op: Op)
    requires PutOnce(s) && Enabled(s, op)
    requires op.FireUnlock? || op.Serve? || op.ResumeHanded? || op.Finish? || op.TakeFromHub? || op.EndFromHub?
    ensures PutOnce(Step(s, op))
  {
    PutsUntouched(if op.ResumeHanded? then Returned(s, s.phase.putter.entry.call) else s, Step(s, op));
  }

  lemma PutsUntouched(s: State, t: State)
    requires PutOnce(s) && t.entered == s.entered && s.calls <= t.calls && t.refused == s.refused
    requires t.returned == s.returned && t.putters == s.putters && t.gone == s.gone && t.doomed == s.doomed
    requires t.phase.Handed? ==> t.phase == s.phase
    ensures PutOnce(t)
  {
  }

  lemma CalledGetsOnce(s: State, c: Call)
    requires GetOnce(s) && c !in s.calls
    ensures GetOnceBut(s.(calls := s.calls + {c}, gets := s.gets + {c}), c)
  {
    assert c !in s.gets;
  }

  lemma ServedGetsOnce(s: State, g: Call)
    requires GetOnce(s) && g in s.getters
    ensures GetOnceBut(s.(getters := s.getters - {g}), g)
  {
  }

  lemma LeaveGetsOnce(s: State, g: Call)
    requires GetOnceBut(s, g) && s.queue != []
    ensures GetOnce(Leave(s, g))
  {
    LeaveGetters(s, g);
  }

  /** Or the call waits, or ends. */
  lemma EndsGetsOnce(s: State, g: Call)
    requires GetOnceBut(s, g)
    ensures GetOnce(s.(getters := s.getters + {g})) && GetOnce(s.(empty := s.empty + {g}))
    ensures GetOnce(s.(thrown := s.thrown + {g}))
  {
  }

  /** An item enters while a getter is served. */
  lemma HandedGetsOnce(s: State, e: Entry, g: Call)
    requires GetOnce(s) && g in s.getters
    ensures GetOnce(Leave(Enter(s.(getters := s.getters - {g}), e), g))
  {
    ServedGetsOnce(s, g);
    LeaveGetsOnce(Enter(s.(getters := s.getters - {g}), e), g);
  }

  lemma GetStartGetsOnce(s: State, c: Call, block: bool)
    requires GetOnce(s) && c !in s.calls
    ensures GetOnce(GetStart(s, c, block))
  {
    CalledGetsOnce(s, c);
    var t := s.(calls := s.calls + {c}, gets := s.gets + {c});
    if s.queue != [] {
      LeaveGetsOnce(t, c);
    } else {
      EndsGetsOnce(t, c);
    }
  }

  lemma ThrowGetterGetsOnce(s: State, c: Call)
    requires GetOnce(s) && c in s.getters
    ensures GetOnce(s.(getters := s.getters - {c}, thrown := s.thrown + {c}))
  {
    ServedGetsOnce(s, c);
    EndsGetsOnce(s.(getters := s.getters - {c}), c);
  }

  lemma TakeFromHubGetsOnce(s: State, c: Call)
    requires GetOnce(s) && c !in s.calls && s.queue != []
    ensures GetOnce(Leave(s.(calls := s.calls + {c}, gets := s.gets + {c}, phase := Idle), c))
  {
    CalledGetsOnce(s, c);
    LeaveGetsOnce(s.(calls := s.calls + {c}, gets := s.gets + {c}), c);
  }

  lemma StepGetsOnce(s: State, op: Op)
    requires GetOnce(s) && Enabled(s, op)
    ensures GetOnce(Step(s, op))
  {
    match op {
      case Get(c, block) => GetStartGetsOnce(s, c, block);
      case ThrowGetter(c) => ThrowGetterGetsOnce(s, c);
      case Serve(g) => ServedGetsOnce(s, g); LeaveGetsOnce(s.(getters := s.getters - {g}), g);
      case HandOver(p, g) => HandedGetsOnce(s, p.entry, g);
      case PutFromHub(e, g) => HandedGetsOnce(s, e, g);
      case TakeFromHub(c) => TakeFromHubGetsOnce(s, c);
      case _ => OtherGetsOnce(s, op);
    }
  }

  lemma OtherGetsOnce(s: State, op: Op)
    requires GetOnce(s) && Enabled(s, op)
    requires !op.Get? && !op.ThrowGetter? && !op.Serve? && !op.HandOver? && !op.PutFromHub? && !op.TakeFromHub?
    ensures GetOnce(Step(s, op))
  {
    StepFollows(s, op);
    CallsGrow(s, op);
    assert Step(s, op).taken == s.taken;
    GetsUntouched(s, Step(s, op));
  }

  lemma CallsGrow(s: State, op: Op)
    requires Enabled(s, op)
    ensures s.calls <= Step(s, op).calls
  {
  }

  lemma GetsUntouched(s: State, t: State)
    requires GetOnce(s) && t.taken == s.taken && t.getters == s.getters && s.calls <= t.calls
    requires t.gets == s.gets && t.thrown == s.thrown && t.empty == s.empty
    ensures GetOnce(t)
  {
  }

  lemma CallCountsTasks(s: State, op: Op)
    requires TasksCounted(s) && Enabled(s, op) && IsCall(op)
    ensures TasksCounted(Step(s, op))
  {
  }

  lemma HubCountsTasks(s: State, op: Op)
    requires TasksCounted(s) && Enabled(s, op) && !IsCall(op)
    ensures TasksCounted(Step(s, op))
  {
  }

  lemma StepCountsTasks(s: State, op: Op)
    requires TasksCounted(s) && Enabled(s, op)
    ensures TasksCounted(Step(s, op))
  {
    if IsCall(op) {
      CallCountsTasks(s, op);
    } else {
      HubCountsTasks(s, op);
    }
  }

  lemma StepKeepsInv(s: State, op: Op)
    requires Inv(s) && Enabled(s, op)
    ensures Inv(Step(s, op))
  {
    StepConserves(s, op);
    StepPutsOnce(s, op);
    StepGetsOnce(s, op);
    StepCountsTasks(s, op);
  }

  // --- Runs ---

  ghost predicate Legal(s: State, ops: seq<Op>)
    decreases |ops|
  {
    ops == [] || (Enabled(s, ops[0]) && Legal(Step(s, ops[0]), ops[1..]))
  }

  ghost function Run(s: State, ops: seq<Op>): State
    requires Legal(s, ops)
    decreases |ops|
  {
    if ops == [] then s else Run(Step(s, ops[0]), ops[1..])
  }

  lemma {:induction false} RunKeepsInv(s: State, ops: seq<Op>)
    requires Inv(s) && Legal(s, ops)
    ensures Inv(Run(s, ops))
    decreases |ops|
  {
    if ops != [] {
      StepKeepsInv(s, ops[0]);
      RunKeepsInv(Step(s, ops[0]), ops[1..]);
    }
  }

  ghost predicate Reaches(s: State, ops: seq<Op>, t: State) {
    Legal(s, ops) && Run(s, ops) == t
  }

  lemma {:induction false} ReachesOneMore(s: State, ops: seq<Op>, t: State, op: Op)
    requires Reaches(s, ops, t) && Enabled(t, op)
    ensures Reaches(s, ops + [op], Step(t, op))
    decreases |ops|
  {
    if ops == [] {
      assert [op][1..] == [];
    } else {
      ReachesOneMore(Step(s, ops[0]), ops[1..], t, op);
      assert (ops + [op])[1..] == ops[1..] + [op];
    }
  }

  lemma InitInv(maxsize: Option<int>)
    ensures Inv(Init(maxsize))
  {
    assert Entries([]) == [];
  }

  /** No step of the run breaks off `_unlock` and leaves a waiting `put` behind. */
  ghost predicate NeverBreaksOff(s: State, ops: seq<Op>)
    requires Legal(s, ops)
    decreases |ops|
  {
    ops == [] || (!BreaksOff(s, ops[0]) && NeverBreaksOff(Step(s, ops[0]), ops[1..]))
  }

  ghost predicate AlwaysAwake(s: State, ops: seq<Op>)
    requires Legal(s, ops)
    decreases |ops|
  {
    Awake(s) && (ops == [] || AlwaysAwake(Step(s, ops[0]), ops[1..]))
  }

  /** A run loses no wake-up at any time, exactly if none of its steps does that. */
  lemma {:induction false} WakeupsLost(s: State, ops: seq<Op>)
    requires Awake(s) && Legal(s, ops)
    ensures AlwaysAwake(s, ops) <==> NeverBreaksOff(s, ops)
    ensures NeverBreaksOff(s, ops) ==> Awake(Run(s, ops))
    decreases |ops|
  {
    if ops != [] {
      var t := Step(s, ops[0]);
      StepStaysAwake(s, ops[0]);
      if Awake(t) {
        WakeupsLost(t, ops[1..]);
      } else {
        assert !AlwaysAwake(t, ops[1..]);
      }
    }
  }

  /** No exception is thrown into a `put` that waits although it does not block. */
  predicate SparesNonBlocking(op: Op) {
    op.ThrowPutter? ==> op.putter.block
  }

  lemma {:induction false} SparedRunsOn(s: State, ops: seq<Op>)
    requires s.gone == {} && Legal(s, ops) && forall i :: 0 <= i < |ops| ==> SparesNonBlocking(ops[i])
    ensures NeverBreaksOff(s, ops) && Run(s, ops).gone == {}
    decreases |ops|
  {
    if ops != [] {
      assert Step(s, ops[0]).gone == {};
      SparedRunsOn(Step(s, ops[0]), ops[1..]);
    }
  }

  /** In every run of a new queue that does not throw into a waiting `put` that does not block, when `_unlock` is neither
      running nor scheduled, and no `get` of the hub's own is under way, no item waits beside a getter, no putter beside
      a getter or a free slot, and no non-blocking putter waits at all. */
  lemma NoLostWakeup(maxsize: Option<int>, ops: seq<Op>)
    requires Legal(Init(maxsize), ops) && forall i :: 0 <= i < |ops| ==> SparesNonBlocking(ops[i])
    ensures var s := Run(Init(maxsize), ops);
      s.eventUnlock || s.phase.Borrowing? ||
      ( && (s.queue == [] || s.getters == {})
        && (s.putters == {} || (s.getters == {} && s.maxsize.Some? && s.maxsize.value <= |s.queue|))
        && (forall p :: p in s.putters ==> p.block))
  {
    SparedRunsOn(Init(maxsize), ops);
    WakeupsLost(Init(maxsize), ops);
    var s := Run(Init(maxsize), ops);
    assert Waiting(s) == s.putters;
    forall p | p in s.putters && !p.block
      ensures p in NonBlocking(s.putters)
    {
    }
  }

  /** A channel on which 1 waits to get and 2 and 3 have tried to put without blocking; the getter has been killed, and
      so has 2. */
  const BROKEN :=
    State(Some(0), [], {}, {Putter(Entry(2, 0), false), Putter(Entry(3, 0), false)}, {Putter(Entry(2, 0), false)},
          true, 0, false, Idle, {}, [], [], 0, {1, 2, 3}, {}, {2}, {1}, {1}, {})

  lemma LeadsToBroken() returns (ops: seq<Op>)
    ensures Reaches(Init(Some(0)), ops, BROKEN)
  {
    var s := Init(Some(0));
    var p, q := Putter(Entry(2, 0), false), Putter(Entry(3, 0), false);
    assert Reaches(s, [], s);
    ops := Onward(s, [], s, Get(1, true));
    var s1 := s.(calls := {1}, gets := {1}, getters := {1});
    ops := Onward(s, ops, s1, Put(p.entry, false));
    var s2 := s1.(calls := {1, 2}, putters := {p}, eventUnlock := true);
    ops := Onward(s, ops, s2, Put(q.entry, false));
    var s3 := s2.(calls := {1, 2, 3}, putters := {p, q});
    ops := Onward(s, ops, s3, ThrowGetter(1));
    var s4 := s3.(getters := {}, thrown := {1});
    ops := Onward(s, ops, s4, ThrowPutter(p));
  }

  lemma Onward(s: State, ops: seq<Op>, t: State, op: Op) returns (more: seq<Op>)
    requires Reaches(s, ops, t) && Enabled(t, op)
    ensures Reaches(s, more, Step(t, op))
  {
    ReachesOneMore(s, ops, t, op);
    more := ops + [op];
  }

  /** `_unlock` comes upon the putter that is gone first, and 3 waits on, with nothing scheduled. */
  lemma WakeupMayBeLost() returns (ops: seq<Op>, t: State)
    ensures Reaches(Init(Some(0)), ops, t)
    ensures !t.eventUnlock && t.phase.Idle? && Waiting(t) == {Putter(Entry(3, 0), false)}
  {
    var p := Putter(Entry(2, 0), false);
    ops := LeadsToBroken();
    ops := Onward(Init(Some(0)), ops, BROKEN, FireUnlock);
    var s := BROKEN.(phase := Looping);
    assert p in NonBlocking(s.putters);
    ops := Onward(Init(Some(0)), ops, s, Break({}, p));
    t := Step(s, Break({}, p));
  }

  /** In every run, the items that entered are those taken, each by its own `get` call, which has not raised, followed by
      those still queued; every `put` call enters at most once, and not if it has raised. */
  lemma NothingLostOrDoubled(maxsize: Option<int>, ops: seq<Op>)
    requires Legal(Init(maxsize), ops)
    ensures var s := Run(Init(maxsize), ops);
      && s.entered == Entries(s.taken) + s.queue
      && (forall i, j :: 0 <= i < j < |s.entered| ==> s.entered[i].call != s.entered[j].call)
      && (forall i, j :: 0 <= i < j < |s.taken| ==> s.taken[i].getter != s.taken[j].getter)
      && (forall i :: 0 <= i < |s.taken| ==> s.taken[i].getter in Gets(ops) && s.taken[i].getter !in ThrownInto(ops))
      && (forall i :: 0 <= i < |s.taken| ==> s.taken[i].getter !in s.getters && s.taken[i].getter !in s.empty)
      && (forall c :: c in s.returned ==> exists i :: 0 <= i < |s.entered| && s.entered[i].call == c)
      && (forall i :: 0 <= i < |s.entered| ==> s.entered[i].call !in s.refused)
      && s.unfinishedTasks == |s.entered| - s.tasksDone
  {
    InitInv(maxsize);
    RunKeepsInv(Init(maxsize), ops);
    GetsEndOnce(maxsize, ops);
    var s := Run(Init(maxsize), ops);
    forall i | 0 <= i < |s.entered|
      ensures s.entered[i].call !in s.refused
    {
      assert s.entered[i].call in Calls(s.entered);
    }
    forall i | 0 <= i < |s.taken|
      ensures s.taken[i].getter in Gets(ops) && s.taken[i].getter !in ThrownInto(ops)
      ensures s.taken[i].getter !in s.getters && s.taken[i].getter !in s.empty
    {
      assert s.taken[i].getter in Getters(s.taken);
    }
  }

  /** The calls of `get` that the run throws into. */
  function ThrownInto(ops: seq<Op>): set<Call> {
    if ops == [] then {} else (if ops[0].ThrowGetter? then {ops[0].call} else {}) + ThrownInto(ops[1..])
  }

  /** The calls of `get` that the run makes. */
  function Gets(ops: seq<Op>): set<Call> {
    if ops == [] then {}
    else (if ops[0].Get? || ops[0].TakeFromHub? then {ops[0].call} else {}) + Gets(ops[1..])
  }

  lemma {:induction false} GetsRecorded(s: State, ops: seq<Op>)
    requires Legal(s, ops)
    ensures Run(s, ops).thrown == s.thrown + ThrownInto(ops) && Run(s, ops).gets == s.gets + Gets(ops)
    decreases |ops|
  {
    if ops != [] {
      StepFollows(s, ops[0]);
      GetsRecorded(Step(s, ops[0]), ops[1..]);
    }
  }

  /** In every run, each `get` call does exactly one of these: it waits still, it has taken one item, an exception has been
      thrown into it, or it has found the queue empty. So no item goes to a call that has raised. */
  lemma GetsEndOnce(maxsize: Option<int>, ops: seq<Op>)
    requires Legal(Init(maxsize), ops)
    ensures var s := Run(Init(maxsize), ops); var served := set i | 0 <= i < |s.taken| :: s.taken[i].getter;
      && s.thrown == ThrownInto(ops)
      && Gets(ops) == s.getters + served + ThrownInto(ops) + s.empty
      && s.getters !! served !! ThrownInto(ops) !! s.empty
  {
    InitInv(maxsize);
    RunKeepsInv(Init(maxsize), ops);
    GetsRecorded(Init(maxsize), ops);
  }

  ghost predicate WithinMaxsize(s: State) {
    s.maxsize.Some? ==> |s.queue| <= s.maxsize.value
  }

  /** The step leaves more items than `maxsize`: the queue shrinks below what it holds, or the hub lets in a putter of a
      channel. */
  predicate Overfills(s: State, op: Op) {
    match op
    case Resize(size) => size.Some? && size.value < |s.queue|
    case AdmitFromHub(p) => p in Waiting(s) && p.block && !HasSpace(s)
    case _ => false
  }

  lemma StepWithinMaxsize(s: State, op: Op)
    requires WithinMaxsize(s) && Enabled(s, op)
    ensures WithinMaxsize(Step(s, op)) <==> !Overfills(s, op)
  {
  }

  /** Unless the queue is resized, or read from the hub's own greenlet, it never holds more than `maxsize` items. */
  lemma {:induction false} CapacityKept(s: State, ops: seq<Op>)
    requires WithinMaxsize(s) && Legal(s, ops)
    requires forall i :: 0 <= i < |ops| ==> !ops[i].Resize? && !ops[i].AdmitFromHub?
    ensures WithinMaxsize(Run(s, ops))
    decreases |ops|
  {
    if ops != [] {
      StepWithinMaxsize(s, ops[0]);
      CapacityKept(Step(s, ops[0]), ops[1..]);
    }
  }

  // --- One producer ---

  /** The `put` call that the step begins. */
  function Begins(op: Op): Option<Call> {
    match op
    case Put(e, _) => Some(e.call)
    case PutFromHub(e, _) => Some(e.call)
    case _ => None
  }

  /** `put` is called only when no earlier `put` is pending, with growing call numbers. */
  ghost predicate OneProducer(s: State, op: Op) {
    Begins(op).Some? ==> Waiting(s) == {} && s.doomed == {} && Later(s.entered, Begins(op).value)
  }

  ghost predicate Later(entered: seq<Entry>, c: Call) {
    forall i :: 0 <= i < |entered| ==> entered[i].call < c
  }

  ghost predicate OneProducerRun(s: State, ops: seq<Op>)
    requires Legal(s, ops)
    decreases |ops|
  {
    ops == [] || (OneProducer(s, ops[0]) && OneProducerRun(Step(s, ops[0]), ops[1..]))
  }

  ghost predicate InCallOrder(s: State) {
    && (forall i, j :: 0 <= i < j < |s.entered| ==> s.entered[i].call < s.entered[j].call)
    && (forall p :: p in Waiting(s) ==> Later(s.entered, p.entry.call))
    && (forall p, q :: p in Waiting(s) && q in Waiting(s) ==> p == q)
  }

  lemma EnterInOrder(s: State, e: Entry)
    requires InCallOrder(s) && Later(s.entered, e.call) && Waiting(s) == {}
    ensures InCallOrder(Enter(s, e))
  {
  }

  lemma FewerInOrder(s: State, t: State)
    requires InCallOrder(s) && t.entered == s.entered && Waiting(t) <= Waiting(s)
    ensures InCallOrder(t)
  {
  }

  lemma OneWaitsInOrder(s: State, p: Putter)
    requires InCallOrder(s) && Later(s.entered, p.entry.call) && Waiting(s) == {}
    ensures InCallOrder(s.(putters := s.putters + {p}))
  {
    assert Waiting(s.(putters := s.putters + {p})) <= {p};
  }

  /** A putter that waited comes in. */
  lemma AdmittedInOrder(s: State, p: Putter)
    requires InCallOrder(s) && p in Waiting(s)
    ensures InCallOrder(Enter(s.(putters := s.putters - {p}), p.entry)) && InCallOrder(Admitted(s, p))
  {
    var t := s.(putters := s.putters - {p});
    forall q
      ensures q !in Waiting(t)
    {
      assert q in Waiting(t) ==> q in Waiting(s);
    }
    EnterInOrder(t, p.entry);
  }

  lemma PutStartInOrder(s: State, e: Entry, block: bool)
    requires InCallOrder(s) && Later(s.entered, e.call) && Waiting(s) == {}
    ensures InCallOrder(PutStart(s, e, block))
  {
    EnterInOrder(s, e);
    OneWaitsInOrder(s, Putter(e, block));
  }

  lemma PutFromHubInOrder(s: State, e: Entry, g: Call)
    requires InCallOrder(s) && Enabled(s, PutFromHub(e, g)) && Later(s.entered, e.call) && Waiting(s) == {}
    ensures InCallOrder(Step(s, PutFromHub(e, g)))
  {
    EnterInOrder(s, e);
  }

  lemma HandOverInOrder(s: State, p: Putter, g: Call)
    requires InCallOrder(s) && Enabled(s, HandOver(p, g))
    ensures InCallOrder(Step(s, HandOver(p, g)))
  {
    AdmittedInOrder(s, p);
  }

  lemma StepInCallOrder(s: State, op: Op)
    requires InCallOrder(s) && Enabled(s, op) && OneProducer(s, op)
    ensures InCallOrder(Step(s, op))
  {
    match op {
      case Put(e, block) => PutStartInOrder(s, e, block);
      case PutFromHub(e, g) => PutFromHubInOrder(s, e, g);
      case HandOver(p, g) => HandOverInOrder(s, p, g);
      case Admit(p) => AdmittedInOrder(s, p);
      case AdmitFromHub(p) => if p in s.gone { FewerInOrder(s, Step(s, op)); } else { AdmittedInOrder(s, p); }
      case _ => OtherInOrder(s, op);
    }
  }

  lemma OtherInOrder(s: State, op: Op)
    requires InCallOrder(s) && Enabled(s, op) && Begins(op) == None
    requires !op.HandOver? && !op.Admit? && !op.AdmitFromHub?
    ensures InCallOrder(Step(s, op))
  {
    FewerInOrder(s, Step(s, op));
  }

  lemma {:induction false} RunInCallOrder(s: State, ops: seq<Op>)
    requires InCallOrder(s) && Legal(s, ops) && OneProducerRun(s, ops)
    ensures InCallOrder(Run(s, ops))
    decreases |ops|
  {
    if ops != [] {
      StepInCallOrder(s, ops[0]);
      RunInCallOrder(Step(s, ops[0]), ops[1..]);
    }
  }

  /** With a single producer the items come out of a new queue in the order of the `put` calls. */
  lemma OneProducerIsFifo(maxsize: Option<int>, ops: seq<Op>)
    requires Legal(Init(maxsize), ops) && OneProducerRun(Init(maxsize), ops)
    ensures var s := Run(Init(maxsize), ops);
      forall i, j :: 0 <= i < j < |s.taken| ==> s.taken[i].entry.call < s.taken[j].entry.call
  {
    InitInv(maxsize);
    RunKeepsInv(Init(maxsize), ops);
    RunInCallOrder(Init(maxsize), ops);
    var s := Run(Init(maxsize), ops);
    forall i | 0 <= i < |s.taken|
      ensures s.taken[i].entry == s.entered[i]
    {
      assert s.entered[i] == Entries(s.taken)[i];
    }
  }
}
