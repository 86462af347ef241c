/** `GreenMap`: one greenthread spawns a greenthread for each input and queues it, another takes the results in turn. */
module GreenMaps {
  import opened Options
  import Queues

  /** What a call of the mapped function does; the last greenthread spawned returns a `StopIteration`. */
  datatype Outcome = Returns(value: int) | Raises(error: int) | ReturnsStopIteration | RaisesStopIteration

  /** Where `_do_map` stands: between two calls of `spawn`, in one before its `put`, or in the `put` itself. */
  datatype Producer = Ready | HasThread | Puts(call: Queues.Call)

  /** `outcomes` are those of the function on each of the inputs; an item of the queue is the number of the greenthread
      that it stands for, in the order in which they were spawned. */
  datatype Map = Map(q: Queues.State, size: nat, outcomes: seq<Outcome>, spawned: nat, producer: Producer)

  datatype Op =
    | Spawn
    | Put(call: Queues.Call)
    | PutReturns
    | Other(op: Queues.Op)

  function Init(size: nat, outcomes: seq<Outcome>): Map {
    Map(Queues.Init(Some(size)), size, outcomes, 0, Ready)
  }

  /** The producer is the only one to call `put`, nobody throws anything into it or resizes the pool's queue, and the
      hub's own greenlet does not consume. */
  predicate Elsewhere(op: Queues.Op) {
    !op.Put? && !op.ThrowPutter? && !op.ThrowFull? && !op.Resize? && !op.PutFromHub? && !op.AdmitFromHub?
  }

  function PutOf(m: Map, call: Queues.Call): Queues.Op {
    Queues.Put(Queues.Entry(call, m.spawned - 1), true)
  }

  /** The producer spawns a greenthread for each input, and one more for the end. */
  predicate Enabled(m: Map, op: Op) {
    match op
    case Spawn => m.producer.Ready? && m.spawned <= |m.outcomes|
    case Put(c) => m.producer.HasThread? && forall d :: d in m.q.calls ==> d < c
    case PutReturns => m.producer.Puts? && m.producer.call in m.q.returned
    case Other(o) => Elsewhere(o) && Queues.Enabled(m.q, o)
  }

  lemma PutEnabled(m: Map, c: Queues.Call)
    requires Enabled(m, Put(c))
    ensures Queues.Enabled(m.q, PutOf(m, c))
  {
  }

  function Step(m: Map, op: Op): Map
    requires Enabled(m, op)
  {
    match op
    case Spawn => m.(spawned := m.spawned + 1, producer := HasThread)
    case Put(c) =>
      PutEnabled(m, c);
      m.(q := Queues.Step(m.q, PutOf(m, c)), producer := Puts(c))
    case PutReturns => m.(producer := Ready)
    case Other(o) => m.(q := Queues.Step(m.q, o))
  }

  // --- The invariant ---

  ghost predicate Numbered(q: Queues.State) {
    forall i :: 0 <= i < |q.entered| ==> q.entered[i].item == i
  }

  /** All greenthreads spawned have entered the queue, but for the last, which the producer may still hold. */
  ghost predicate InStep(m: Map) {
    match m.producer
    case Ready => |m.q.entered| == m.spawned && NobodyPuts(m.q)
    case HasThread => |m.q.entered| + 1 == m.spawned && NobodyPuts(m.q)
    case Puts(c) =>
      if c in m.q.returned then |m.q.entered| == m.spawned && NobodyPuts(m.q)
      else if m.q.phase.Handed? then
        |m.q.entered| == m.spawned && m.q.putters == {} && m.q.phase.putter.entry.call == c
      else
        |m.q.entered| + 1 == m.spawned && m.q.putters == {Queues.Putter(Queues.Entry(c, m.spawned - 1), true)}
  }

  predicate NobodyPuts(q: Queues.State) {
    q.putters == {} && !q.phase.Handed?
  }

  ghost predicate Sized(q: Queues.State, size: nat) {
    Queues.WithinMaxsize(q) && q.maxsize == Some(size) && q.doomed == {} && q.gone == {} && !q.phase.Borrowing?
  }

  ghost predicate Inv(m: Map) {
    && Queues.Inv(m.q) && Queues.Awake(m.q) && Sized(m.q, m.size)
    && Numbered(m.q) && InStep(m) && m.spawned <= |m.outcomes| + 1
    && (m.producer.HasThread? ==> m.spawned > 0)
  }

  lemma InitInv(size: nat, outcomes: seq<Outcome>)
    ensures Inv(Init(size, outcomes))
  {
    Queues.InitInv(Some(size));
  }

  lemma FreshCall(q: Queues.State, c: Queues.Call)
    requires Queues.Inv(q) && forall d :: d in q.calls ==> d < c
    ensures c !in q.calls && c !in q.returned
  {
  }

  lemma PutKeeps(m: Map, c: Queues.Call)
    requires Inv(m) && Enabled(m, Put(c))
    ensures Numbered(Step(m, Put(c)).q) && InStep(Step(m, Put(c)))
  {
    FreshCall(m.q, c);
    var t := Step(m, Put(c));
    assert forall i :: 0 <= i < |m.q.entered| ==> t.q.entered[i] == m.q.entered[i];
  }

  lemma OtherKeeps(m: Map, o: Queues.Op)
    requires Inv(m) && Enabled(m, Other(o))
    ensures Numbered(Step(m, Other(o)).q) && InStep(Step(m, Other(o)))
  {
  }

  lemma SpawnKeeps(m: Map, op: Op)
    requires Inv(m) && Enabled(m, op) && (op.Spawn? || op.PutReturns?)
    ensures Inv(Step(m, op))
  {
  }

  lemma SizedKept(m: Map, o: Queues.Op)
    requires Inv(m) && Queues.Enabled(m.q, o) && (Elsewhere(o) || exists c :: o == PutOf(m, c))
    ensures Sized(Queues.Step(m.q, o), m.size)
  {
  }

  /** Every step of the producer, the consumer and the queue keeps the invariant. */
  lemma StepKeepsInv(m: Map, op: Op)
    requires Inv(m) && Enabled(m, op)
    ensures Inv(Step(m, op))
  {
    match op {
      case Put(c) =>
        PutEnabled(m, c);
        Queues.StepKeepsInv(m.q, PutOf(m, c));
        Queues.StepStaysAwake(m.q, PutOf(m, c));
        PutKeeps(m, c);
        SizedKept(m, PutOf(m, c));
      case Other(o) =>
        Queues.StepKeepsInv(m.q, o);
        Queues.StepStaysAwake(m.q, o);
        OtherKeeps(m, o);
        SizedKept(m, o);
      case _ => SpawnKeeps(m, op);
    }
  }

  // --- What the consumer gets ---

  /** The results in the order of the inputs, with the mark of the end. */
  function Expected(m: Map): seq<Outcome> {
    m.outcomes + [ReturnsStopIteration]
  }

  /** What the greenthreads taken have returned or raised, in the order in which they were taken. */
  function Given(m: Map): seq<Outcome>
    requires Inv(m)
  {
    seq(|m.q.taken|, k requires 0 <= k < |m.q.taken| => TakenAt(m, k); Expected(m)[m.q.taken[k].entry.item])
  }

  lemma TakenAt(m: Map, k: nat)
    requires Inv(m) && k < |m.q.taken|
    ensures m.q.taken[k].entry.item == k && |m.q.taken| <= |Expected(m)|
  {
    assert m.q.entered[k] == Queues.Entries(m.q.taken)[k];
  }

  /** The consumer gets the result of the first input first and then one after another, the end once and last, and no
      more than `size + 1` greenthreads have been spawned that it has not yet taken. */
  lemma InOrder(m: Map)
    requires Inv(m)
    ensures |m.q.taken| <= |Expected(m)| && Given(m) == Expected(m)[..|m.q.taken|]
    ensures |m.q.taken| <= m.spawned <= |m.q.taken| + m.size + 1
  {
    if m.q.taken != [] {
      TakenAt(m, 0);
    }
    forall k | 0 <= k < |m.q.taken|
      ensures Given(m)[k] == Expected(m)[k]
    {
      TakenAt(m, k);
    }
    assert |m.q.entered| == |m.q.taken| + |m.q.queue|;
  }

  datatype End = Going | Stopped | Failed(error: int)

  datatype List = List(values: seq<int>, end: End)

  /** What `list(pool.imap(...))` collects from the results given to it. */
  function Collect(given: seq<Outcome>): List {
    if given == [] then List([], Going)
    else
      match given[0]
      case Returns(v) => var rest := Collect(given[1..]); rest.(values := [v] + rest.values)
      case Raises(e) => List([], Failed(e))
      case ReturnsStopIteration => List([], Stopped)
      case RaisesStopIteration => List([], Stopped)
  }

  predicate EndsAt(o: Outcome, end: End) {
    match o
    case Returns(_) => false
    case Raises(e) => end == Failed(e)
    case _ => end == Stopped
  }

  /** The list is complete if and only if the function returned each time, and never a `StopIteration`; a `StopIteration`
      that it returns or raises ends the list early as if it were complete. */
  lemma {:induction false} CollectsAll(outcomes: seq<Outcome>)
    ensures var list := Collect(outcomes + [ReturnsStopIteration]);
      && (list.end.Stopped? && |list.values| == |outcomes| <==> forall i :: 0 <= i < |outcomes| ==> outcomes[i].Returns?)
      && |list.values| <= |outcomes|
      && (forall i :: 0 <= i < |list.values| ==> outcomes[i] == Returns(list.values[i]))
      && (|list.values| < |outcomes| ==> EndsAt(outcomes[|list.values|], list.end))
  {
    if outcomes == [] {
      assert outcomes + [ReturnsStopIteration] == [ReturnsStopIteration];
    } else {
      assert (outcomes + [ReturnsStopIteration])[1..] == outcomes[1..] + [ReturnsStopIteration];
      CollectsAll(outcomes[1..]);
      assert (forall i :: 0 <= i < |outcomes| ==> outcomes[i].Returns?) <==>
        outcomes[0].Returns? && forall i :: 0 <= i < |outcomes[1..]| ==> outcomes[1..][i].Returns?;
    }
  }

  /** A consumer that waits for a greenthread is served as soon as there is one: unless `_unlock` is about to run, the
      queue is empty and the producer is not blocked in its `put`. */
  lemma ConsumerServed(m: Map)
    requires Inv(m) && m.q.getters != {} && !m.q.eventUnlock
    ensures m.q.queue == [] && (m.producer.Puts? ==> m.producer.call in m.q.returned)
  {
    assert Queues.Awake(m.q);
  }

  /** And so does a producer that is blocked, when the queue has room. */
  lemma ProducerServed(m: Map)
    requires Inv(m) && m.producer.Puts? && m.producer.call !in m.q.returned && !m.q.eventUnlock
    ensures |m.q.queue| == m.size && m.q.getters == {}
  {
    assert Queues.Awake(m.q);
    assert m.q.putters != {};
  }

  // --- Runs ---

  ghost predicate Legal(m: Map, ops: seq<Op>)
    decreases |ops|
  {
    ops == [] || (Enabled(m, ops[0]) && Legal(Step(m, ops[0]), ops[1..]))
  }

  ghost function Run(m: Map, ops: seq<Op>): Map
    requires Legal(m, ops)
    decreases |ops|
  {
    if ops == [] then m else Run(Step(m, ops[0]), ops[1..])
  }

  lemma {:induction false} RunKeeps(m: Map, ops: seq<Op>)
    requires Inv(m) && Legal(m, ops)
    ensures Inv(Run(m, ops)) && Run(m, ops).outcomes == m.outcomes && Run(m, ops).size == m.size
    decreases |ops|
  {
    if ops != [] {
      StepKeepsInv(m, ops[0]);
      RunKeeps(Step(m, ops[0]), ops[1..]);
    }
  }

  /** In every run of a map over inputs with these outcomes. */
  lemma MapsInOrder(size: nat, outcomes: seq<Outcome>, ops: seq<Op>)
    requires Legal(Init(size, outcomes), ops)
    ensures var m := Run(Init(size, outcomes), ops);
      && Inv(m) && |m.q.taken| <= |outcomes| + 1 && Given(m) == (outcomes + [ReturnsStopIteration])[..|m.q.taken|]
      && m.spawned <= |m.q.taken| + size + 1
  {
    InitInv(size, outcomes);
    RunKeeps(Init(size, outcomes), ops);
    InOrder(Run(Init(size, outcomes), ops));
  }
}
