/** `DAGPool`: greenthreads that wait for the values of other keys. */
module DagPools {
  import opened Options

  type Key = nat

  /** `Propagate` is a `PropagateError`, posted for a function that raised. */
  datatype Value = Plain(result: int) | Propagate(key: Key)

  /** The greenthread spawned for a key, or another that called `wait_each`. */
  datatype Thread = Coro(key: Key) | Outside(id: nat)

  /** Where a greenthread is. In `Has` its function has control, or has switched elsewhere if `asleep`, while the
      generator of results has not begun, or stands at a `yield` with `rest` left of its copy of `pending`. In
      `Looking` the generator is in that loop, and in `Through` it has ended, or has raised a `PropagateError`. */
  datatype Phase =
    | Scheduled
    | Has(rest: Option<set<Key>>, asleep: bool)
    | Looking(todo: set<Key>)
    | Waiting(event: nat, woken: bool)
    | Through(raised: bool, asleep: bool)
    | Ended

  /** `got` are the keys whose values have been delivered; `raw` is a generator that does not raise. */
  datatype Strand = Strand(phase: Phase, depends: set<Key>, pending: set<Key>, got: seq<Key>, raw: bool)

  /** `event` counts the events that the pool has gone through; `running` is `None` while the hub, or a greenthread
      that waits for no key, has control. */
  datatype State = State(values: map<Key, Value>, coros: set<Key>, event: nat, strands: map<Thread, Strand>,
                         running: Option<Thread>)

  datatype Op =
    | Spawn(key: Key, depends: set<Key>)
    | Post(key: Key, value: Value, replace: bool)
    | WaitEach(id: nat, keys: Option<set<Key>>, raw: bool)
    | Begin(t: Thread)
    | Sleep(t: Thread)
    | Rise(t: Thread)
    | Next(t: Thread)
    | Look(t: Thread, key: Key)
    | Turn(t: Thread)
    | Wake(t: Thread)
    | Finish(t: Thread, value: Value)

  function Init(preload: map<Key, Value>): State {
    State(preload, {}, 0, map[], None)
  }

  function Fresh(phase: Phase, depends: set<Key>, raw: bool): Strand {
    Strand(phase, depends, depends, [], raw)
  }

  function At(s: State, t: Thread, strand: Strand, running: Option<Thread>): State {
    s.(strands := s.strands[t := strand], running := running)
  }

  function Moved(s: State, t: Thread, phase: Phase, running: Option<Thread>): State
    requires t in s.strands
  {
    At(s, t, s.strands[t].(phase := phase), running)
  }

  // --- The operations ---

  /** `Event.send` schedules every waiter of the current event. */
  function Roused(strand: Strand, event: nat): Strand {
    if strand.phase == Waiting(event, false) then strand.(phase := Waiting(event, true)) else strand
  }

  function Posted(s: State, key: Key, value: Value): State {
    s.(values := s.values[key := value], event := s.event + 1,
       strands := map t | t in s.strands :: Roused(s.strands[t], s.event))
  }

  predicate Collides(s: State, key: Key, replace: bool) {
    (key in s.coros && s.running != Some(Coro(key))) || (key in s.values && !replace)
  }

  function Looked(s: State, t: Thread, key: Key): State
    requires t in s.strands && s.strands[t].phase.Looking?
  {
    var g := s.strands[t];
    var todo := g.phase.todo - {key};
    if key !in s.values then Moved(s, t, Looking(todo), s.running)
    else
      var phase := if s.values[key].Propagate? && !g.raw then Through(true, false) else Has(Some(todo), false);
      At(s, t, g.(phase := phase, pending := g.pending - {key}, got := g.got + [key]), s.running)
  }

  /** What `_wrapper` does when the function has returned or raised. */
  function Finished(s: State, t: Thread, value: Value): State
    requires t in s.strands
  {
    var u := Moved(s, t, Ended, None);
    match t
    case Outside(_) => u
    case Coro(key) =>
      var v := u.(coros := u.coros - {key});
      if key in v.values then v else Posted(v, key, value)
  }

  /** The code that has control is not inside the generator. */
  predicate Outer(s: State) {
    s.running.Some? ==> s.running.value in s.strands && InBody(s.strands[s.running.value].phase)
  }

  predicate InBody(p: Phase) {
    (p.Has? || p.Through?) && !p.asleep
  }

  predicate Runs(s: State, t: Thread) {
    s.running == Some(t) && t in s.strands
  }

  predicate Enabled(s: State, op: Op) {
    match op
    case Spawn(_, _) => Outer(s)
    case Post(_, _, _) => Outer(s)
    case WaitEach(id, _, _) => s.running == None && Outside(id) !in s.strands
    case Begin(t) => s.running == None && t in s.strands && s.strands[t].phase == Scheduled
    case Sleep(t) => Runs(s, t) && InBody(s.strands[t].phase)
    case Rise(t) => s.running == None && t in s.strands && IsAsleep(s.strands[t].phase)
    case Next(t) => Runs(s, t) && s.strands[t].phase.Has? && !s.strands[t].phase.asleep
    case Look(t, key) => Runs(s, t) && s.strands[t].phase.Looking? && key in s.strands[t].phase.todo
    case Turn(t) => Runs(s, t) && s.strands[t].phase == Looking({})
    case Wake(t) => s.running == None && t in s.strands && s.strands[t].phase.Waiting? && s.strands[t].phase.woken
    case Finish(t, _) => Runs(s, t) && InBody(s.strands[t].phase)
  }

  predicate IsAsleep(p: Phase) {
    (p.Has? || p.Through?) && p.asleep
  }

  function Slept(p: Phase, asleep: bool): Phase {
    if p.Has? || p.Through? then p.(asleep := asleep) else p
  }

  function Step(s: State, op: Op): State
    requires Enabled(s, op)
  {
    match op
    case Spawn(key, depends) =>
      if key in s.coros || key in s.values then s
      else At(s, Coro(key), Fresh(Scheduled, depends, false), s.running).(coros := s.coros + {key})
    case Post(key, value, replace) => if Collides(s, key, replace) then s else Posted(s, key, value)
    case WaitEach(id, keys, raw) =>
      var depends := if keys.Some? then keys.value else s.coros + s.values.Keys;
      At(s, Outside(id), Fresh(Has(None, false), depends, raw), Some(Outside(id)))
    case Begin(t) => Moved(s, t, Has(None, false), Some(t))
    case Sleep(t) => Moved(s, t, Slept(s.strands[t].phase, true), None)
    case Rise(t) => Moved(s, t, Slept(s.strands[t].phase, false), Some(t))
    case Next(t) =>
      var rest := s.strands[t].phase.rest;
      Moved(s, t, Looking(if rest.Some? then rest.value else s.strands[t].pending), s.running)
    case Look(t, key) => Looked(s, t, key)
    case Turn(t) =>
      if s.strands[t].pending == {} then Moved(s, t, Through(false, false), s.running)
      else Moved(s, t, Waiting(s.event, false), None)
    case Wake(t) => Moved(s, t, Looking(s.strands[t].pending), Some(t))
    case Finish(t, value) => Finished(s, t, value)
  }

  /** What a new greenthread waits for: the dependencies that it was spawned with, or the keys that `wait_each` was
      given, which are all known ones if it was given none. */
  lemma NewStrand(s: State, op: Op)
    requires Enabled(s, op) && (op.Spawn? || op.WaitEach?)
    ensures op.Spawn? && op.key !in s.coros && op.key !in s.values ==>
      var u := Step(s, op);
      Coro(op.key) in u.strands && op.key in u.coros && u.strands[Coro(op.key)].phase == Scheduled
      && u.strands[Coro(op.key)].depends == u.strands[Coro(op.key)].pending == op.depends
    ensures op.WaitEach? ==>
      var u := Step(s, op);
      Outside(op.id) in u.strands && u.strands[Outside(op.id)].depends == u.strands[Outside(op.id)].pending
      && u.strands[Outside(op.id)].depends == match op.keys case Some(keys) => keys case None => s.coros + s.values.Keys
  {
  }

  // --- The invariant ---

  ghost predicate StrandInv(g: Strand, values: map<Key, Value>, event: nat) {
    && multiset(g.got) + multiset(g.pending) == multiset(g.depends)
    && (forall k :: k in g.got ==> k in values)
    && match g.phase
       case Has(rest, _) => rest.Some? ==> rest.value <= g.pending
       case Looking(todo) => todo <= g.pending
       case Waiting(e, woken) => if woken then e < event else e == event
       case Through(raised, _) => !raised ==> g.pending == {}
       case _ => true
  }

  /** `t` is in a phase in which it has control. */
  predicate InControl(p: Phase) {
    InBody(p) || p.Looking?
  }

  ghost predicate ThreadInv(s: State, t: Thread)
    requires t in s.strands
  {
    && StrandInv(s.strands[t], s.values, s.event)
    && (InControl(s.strands[t].phase) <==> s.running == Some(t))
    && (t.Coro? ==> if s.strands[t].phase.Ended? then t.key in s.values && t.key !in s.coros else t.key in s.coros)
  }

  ghost predicate Inv(s: State) {
    && (forall t :: t in s.strands ==> ThreadInv(s, t))
    && (forall k :: k in s.coros ==> Coro(k) in s.strands)
    && (s.running.Some? ==> s.running.value in s.strands)
  }

  /** The greenthread has not missed a value that it waits for. */
  ghost predicate Watchful(g: Strand, values: map<Key, Value>) {
    match g.phase
    case Has(rest, _) => rest.Some? ==> forall k :: k in g.pending && k !in rest.value ==> k !in values
    case Looking(todo) => forall k :: k in g.pending && k !in todo ==> k !in values
    case Waiting(_, woken) => !woken ==> g.pending != {} && forall k :: k in g.pending ==> k !in values
    case _ => true
  }

  ghost predicate Attentive(s: State) {
    forall t :: t in s.strands ==> Watchful(s.strands[t], s.values)
  }

  /** The key that the step gives a value to. */
  function Gives(s: State, op: Op): Option<Key> {
    match op
    case Post(key, _, replace) => if Collides(s, key, replace) then None else Some(key)
    case Finish(Coro(key), _) => if key in s.values then None else Some(key)
    case _ => None
  }

  /** Each step leaves the values as they are, but for the one that it gives. */
  lemma ValuesAfter(s: State, op: Op)
    requires Inv(s) && Enabled(s, op)
    ensures Step(s, op).values ==
      if Gives(s, op).Some? then s.values[Gives(s, op).value := op.value] else s.values
  {
  }

  /** What gives a key its value: a `post` that does not collide, and the end of a function whose key has none. */
  lemma GivesExactly(s: State, op: Op, key: Key)
    requires Inv(s) && Enabled(s, op)
    ensures Gives(s, op) == Some(key) <==>
      || (op.Post? && op.key == key && (key in s.coros ==> s.running == Some(Coro(key))) && (key in s.values ==> op.replace))
      || (op.Finish? && op.t == Coro(key) && key !in s.values)
  {
  }

  /** The greenthread stands at a `yield` and has already looked for `k` in vain. */
  predicate Past(g: Strand, k: Key) {
    g.phase.Has? && g.phase.rest.Some? && k in g.pending && k !in g.phase.rest.value
  }

  /** The step gives a value to a key that a greenthread standing at a `yield` has already looked for in vain. */
  ghost predicate Distracts(s: State, op: Op) {
    Gives(s, op).Some? && exists t :: t in s.strands && Past(s.strands[t], Gives(s, op).value) && !IsFinish(op, t)
  }

  predicate IsFinish(op: Op, t: Thread) {
    op.Finish? && op.t == t
  }

  lemma InitKeeps(preload: map<Key, Value>)
    ensures Inv(Init(preload)) && Attentive(Init(preload))
  {
  }

  lemma PostedKeeps(s: State, key: Key, value: Value)
    requires forall t :: t in s.strands ==> StrandInv(s.strands[t], s.values, s.event)
    ensures forall t :: t in s.strands ==> StrandInv(Posted(s, key, value).strands[t], s.values[key := value], s.event + 1)
  {
  }

  lemma LookedKeeps(s: State, t: Thread, key: Key)
    requires Inv(s) && Enabled(s, Look(t, key))
    ensures Inv(Looked(s, t, key))
  {
    var g := s.strands[t];
    var u := Looked(s, t, key);
    assert ThreadInv(s, t);
    if key in s.values {
      assert multiset(g.pending - {key}) == multiset(g.pending) - multiset{key};
      assert multiset(g.got + [key]) == multiset(g.got) + multiset{key};
      assert StrandInv(u.strands[t], u.values, u.event);
    }
    forall o | o in u.strands
      ensures ThreadInv(u, o)
    {
      assert ThreadInv(s, o);
    }
  }

  lemma FinishedKeeps(s: State, t: Thread, value: Value)
    requires Inv(s) && Enabled(s, Finish(t, value))
    ensures Inv(Finished(s, t, value))
  {
    var u := Finished(s, t, value);
    forall o | o in u.strands
      ensures ThreadInv(u, o)
    {
      FinishedThread(s, t, value, o);
    }
  }

  lemma FinishedThread(s: State, t: Thread, value: Value, o: Thread)
    requires Inv(s) && Enabled(s, Finish(t, value)) && o in s.strands
    ensures ThreadInv(Finished(s, t, value), o)
  {
    assert ThreadInv(s, o);
    if o != t {
      assert o.Coro? && t.Coro? ==> o.key != t.key;
    }
  }

  lemma FreshStrand(phase: Phase, depends: set<Key>, raw: bool, values: map<Key, Value>, event: nat)
    requires phase == Scheduled || phase == Has(None, false)
    ensures StrandInv(Fresh(phase, depends, raw), values, event)
  {
    assert multiset([]) + multiset(depends) == multiset(depends);
  }

  /** Every step of every greenthread keeps the invariant. */
  lemma StepKeepsInv(s: State, op: Op)
    requires Inv(s) && Enabled(s, op)
    ensures Inv(Step(s, op))
  {
    match op {
      case Look(t, key) => LookedKeeps(s, t, key);
      case Finish(t, value) => FinishedKeeps(s, t, value);
      case Post(_, _, _) => PostKeeps(s, op);
      case Spawn(_, _) => EntryKeeps(s, op);
      case WaitEach(_, _, _) => EntryKeeps(s, op);
      case _ => MoveKeeps(s, op);
    }
  }

  lemma PostKeeps(s: State, op: Op)
    requires Inv(s) && op.Post? && Enabled(s, op)
    ensures Inv(Step(s, op))
  {
    PostedKeeps(s, op.key, op.value);
    var u := Step(s, op);
    forall o | o in u.strands
      ensures ThreadInv(u, o)
    {
      assert ThreadInv(s, o);
    }
  }

  lemma EntryKeeps(s: State, op: Op)
    requires Inv(s) && Enabled(s, op) && (op.Spawn? || op.WaitEach?)
    ensures Inv(Step(s, op))
  {
    var u := Step(s, op);
    if op.Spawn? {
      FreshStrand(Scheduled, op.depends, false, s.values, s.event);
    } else {
      var depends := if op.keys.Some? then op.keys.value else s.coros + s.values.Keys;
      FreshStrand(Has(None, false), depends, op.raw, s.values, s.event);
    }
    forall o | o in u.strands
      ensures ThreadInv(u, o)
    {
      assert o in s.strands ==> ThreadInv(s, o);
    }
  }

  lemma MoveKeeps(s: State, op: Op)
    requires Inv(s) && Enabled(s, op) && !op.Look? && !op.Finish? && !op.Post? && !op.Spawn? && !op.WaitEach?
    ensures Inv(Step(s, op))
  {
    var u := Step(s, op);
    forall o | o in u.strands
      ensures ThreadInv(u, o)
    {
      assert ThreadInv(s, o);
    }
  }

  /** As long as no step distracts a greenthread, none misses a value, and the first step that distracts one does make
      it miss a value. */
  lemma AttentiveStays(s: State, op: Op)
    requires Inv(s) && Attentive(s) && Enabled(s, op)
    ensures Attentive(Step(s, op)) <==> !Distracts(s, op)
  {
    var u := Step(s, op);
    if Distracts(s, op) {
      var k := Gives(s, op).value;
      var t :| t in s.strands && Past(s.strands[t], k) && !IsFinish(op, t);
      assert !Watchful(u.strands[t], u.values);
    } else {
      forall t | t in u.strands
        ensures Watchful(u.strands[t], u.values)
      {
        WatchfulStays(s, op, t);
      }
    }
  }

  lemma WatchfulStays(s: State, op: Op, t: Thread)
    requires Inv(s) && Attentive(s) && Enabled(s, op) && !Distracts(s, op) && t in Step(s, op).strands
    ensures Watchful(Step(s, op).strands[t], Step(s, op).values)
  {
    if t in s.strands {
      assert ThreadInv(s, t) && Watchful(s.strands[t], s.values);
      if Gives(s, op).Some? {
        assert !Past(s.strands[t], Gives(s, op).value) || IsFinish(op, t);
      }
    }
  }

  // --- Runs ---

  ghost predicate Legal(s: State, ops: seq<Op>)
    decreases |ops|
  {
    ops == [] || (Enabled(s, ops[0]) && Legal(Step(s, ops[0]), ops[1..]))
  }

  ghost function Run(s: State, ops: seq<Op>): State
    requires Legal(s, ops)
    decreases |ops|
  {
    if ops == [] then s else Run(Step(s, ops[0]), ops[1..])
  }

  ghost predicate Reaches(s: State, ops: seq<Op>, t: State) {
    Legal(s, ops) && Run(s, ops) == t
  }

  lemma {:induction false} ReachesOneMore(s: State, ops: seq<Op>, t: State, op: Op)
    requires Reaches(s, ops, t) && Enabled(t, op)
    ensures Reaches(s, ops + [op], Step(t, op))
    decreases |ops|
  {
    if ops == [] {
      assert [op][1..] == [];
    } else {
      ReachesOneMore(Step(s, ops[0]), ops[1..], t, op);
      assert (ops + [op])[1..] == ops[1..] + [op];
    }
  }

  /** No step of the run distracts a greenthread. */
  ghost predicate Undistracted(s: State, ops: seq<Op>)
    requires Legal(s, ops)
    decreases |ops|
  {
    ops == [] || (!Distracts(s, ops[0]) && Undistracted(Step(s, ops[0]), ops[1..]))
  }

  lemma {:induction false} RunKeeps(s: State, ops: seq<Op>)
    requires Inv(s) && Legal(s, ops)
    ensures Inv(Run(s, ops))
    ensures Attentive(s) && Undistracted(s, ops) ==> Attentive(Run(s, ops))
    decreases |ops|
  {
    if ops != [] {
      StepKeepsInv(s, ops[0]);
      if Attentive(s) {
        AttentiveStays(s, ops[0]);
      }
      RunKeeps(Step(s, ops[0]), ops[1..]);
    }
  }

  /** A greenthread that never switches between two results, nor posts a value for a key that it waits for itself, is
      not distracted. */
  lemma SwitchingDistracts(s: State, op: Op)
    requires Inv(s) && Enabled(s, op)
    requires forall t :: t in s.strands ==>
      s.strands[t].phase.Has? && s.strands[t].phase.rest.Some? ==> !s.strands[t].phase.asleep
    requires op.Post? && s.running.Some? ==> op.key !in s.strands[s.running.value].pending
    ensures !Distracts(s, op)
  {
    forall t | t in s.strands && Gives(s, op).Some?
      ensures !Past(s.strands[t], Gives(s, op).value) || IsFinish(op, t)
    {
      assert ThreadInv(s, t);
    }
  }

  /** The value that the key was given last in the run, if it was given one. */
  ghost function Given(s: State, ops: seq<Op>, key: Key): Option<Value>
    requires Legal(s, ops)
    decreases |ops|
  {
    if ops == [] then None
    else
      var later := Given(Step(s, ops[0]), ops[1..], key);
      if later.Some? then later else if Gives(s, ops[0]) == Some(key) then Some(ops[0].value) else None
  }

  /** After a run a key has the value that it was given last, or else the one that it had. */
  lemma {:induction false} ValueIsLastGiven(s: State, ops: seq<Op>, key: Key)
    requires Inv(s) && Legal(s, ops)
    ensures var t := Run(s, ops); var given := Given(s, ops, key);
      if given.Some? then key in t.values && t.values[key] == given.value
      else (key in t.values <==> key in s.values) && (key in s.values ==> t.values[key] == s.values[key])
    decreases |ops|
  {
    if ops != [] {
      ValuesAfter(s, ops[0]);
      StepKeepsInv(s, ops[0]);
      ValueIsLastGiven(Step(s, ops[0]), ops[1..], key);
    }
  }

  // --- No deadlock ---

  /** The hub, or the greenthread itself, can go on with it. */
  predicate CanGo(s: State, t: Thread) {
    t in s.strands && match s.strands[t].phase
      case Waiting(_, woken) => woken
      case Ended => false
      case _ => true
  }

  predicate Known(s: State, k: Key) {
    k in s.values || k in s.coros
  }

  /** `rank` shows that no greenthread depends on itself, and every dependency is spawned or has a value. */
  ghost predicate Acyclic(s: State, rank: map<Key, nat>) {
    forall k, d :: k in s.coros && Coro(k) in s.strands && d in s.strands[Coro(k)].depends ==>
      Known(s, d) && k in rank && d in rank && rank[d] < rank[k]
  }

  lemma MissesOne(s: State, t: Thread) returns (d: Key)
    requires Inv(s) && Attentive(s) && t in s.strands && !s.strands[t].phase.Ended? && !CanGo(s, t)
    ensures d in s.strands[t].pending && d in s.strands[t].depends && d !in s.values
  {
    var g := s.strands[t];
    assert ThreadInv(s, t) && Watchful(g, s.values);
    d :| d in g.pending;
    assert d in multiset(g.got) + multiset(g.pending);
  }

  /** As long as a spawned greenthread has not ended, some greenthread can go on. */
  lemma {:induction false} SomeoneGoes(s: State, rank: map<Key, nat>, k: Key) returns (t: Thread)
    requires Inv(s) && Attentive(s) && Acyclic(s, rank) && k in s.coros
    ensures CanGo(s, t)
    decreases if k in rank then rank[k] else 0
  {
    t := Coro(k);
    assert ThreadInv(s, t);
    if !CanGo(s, t) {
      var d := MissesOne(s, t);
      t := SomeoneGoes(s, rank, d);
    }
  }

  /** When nobody can go on every key spawned has its value, and so does every greenthread that waits for known keys. */
  lemma NoDeadlock(s: State, rank: map<Key, nat>)
    requires Inv(s) && Attentive(s) && Acyclic(s, rank) && forall t :: !CanGo(s, t)
    ensures forall k :: Coro(k) in s.strands ==> k in s.values && s.strands[Coro(k)].phase.Ended?
    ensures forall t :: t in s.strands && (forall d :: d in s.strands[t].depends ==> Known(s, d)) ==>
      s.strands[t].phase.Ended?
  {
    if k :| k in s.coros {
      var t := SomeoneGoes(s, rank, k);
    }
    forall t | t in s.strands
      ensures t.Coro? ==> t.key in s.values && s.strands[t].phase.Ended?
      ensures (forall d :: d in s.strands[t].depends ==> Known(s, d)) ==> s.strands[t].phase.Ended?
    {
      assert ThreadInv(s, t);
      if !s.strands[t].phase.Ended? {
        var d := MissesOne(s, t);
      }
    }
  }

  /** In every run from a new pool that distracts nobody, with acyclic dependencies, whatever the functions return or
      raise, some greenthread can go on until all the keys spawned have values. */
  lemma RunsToTheEnd(preload: map<Key, Value>, ops: seq<Op>, rank: map<Key, nat>)
    requires Legal(Init(preload), ops) && Undistracted(Init(preload), ops)
    requires var s := Run(Init(preload), ops); Acyclic(s, rank) && forall t :: !CanGo(s, t)
    ensures var s := Run(Init(preload), ops);
      forall k :: Coro(k) in s.strands ==> k in s.values && s.strands[Coro(k)].phase.Ended?
  {
    InitKeeps(preload);
    RunKeeps(Init(preload), ops);
    NoDeadlock(Run(Init(preload), ops), rank);
  }

  /** Nobody switches away between two results, and nobody posts a value for a key that it waits for itself. */
  predicate Steady(s: State, op: Op) {
    match op
    case Sleep(t) => t in s.strands && s.strands[t].phase.Has? ==> s.strands[t].phase.rest == None
    case Post(key, _, _) =>
      s.running.Some? && s.running.value in s.strands ==> key !in s.strands[s.running.value].pending
    case _ => true
  }

  ghost predicate SteadyRun(s: State, ops: seq<Op>)
    requires Legal(s, ops)
    decreases |ops|
  {
    ops == [] || (Steady(s, ops[0]) && SteadyRun(Step(s, ops[0]), ops[1..]))
  }

  predicate SleepsBetween(g: Strand) {
    g.phase.Has? && g.phase.rest.Some? && g.phase.asleep
  }

  lemma SteadyStep(s: State, op: Op)
    requires Inv(s) && Enabled(s, op) && Steady(s, op) && forall t :: t in s.strands ==> !SleepsBetween(s.strands[t])
    ensures !Distracts(s, op)
    ensures forall t :: t in Step(s, op).strands ==> !SleepsBetween(Step(s, op).strands[t])
  {
    SwitchingDistracts(s, op);
  }

  lemma {:induction false} SteadyIsUndistracted(s: State, ops: seq<Op>)
    requires Inv(s) && Legal(s, ops) && SteadyRun(s, ops) && forall t :: t in s.strands ==> !SleepsBetween(s.strands[t])
    ensures Undistracted(s, ops)
    decreases |ops|
  {
    if ops != [] {
      StepKeepsInv(s, ops[0]);
      SteadyStep(s, ops[0]);
      SteadyIsUndistracted(Step(s, ops[0]), ops[1..]);
    }
  }

  /** So greenthreads that do not switch between two results never deadlock on acyclic dependencies: in every such run
      somebody can go on until all the keys spawned have values. */
  lemma SteadyRunsToTheEnd(preload: map<Key, Value>, ops: seq<Op>, rank: map<Key, nat>)
    requires Legal(Init(preload), ops) && SteadyRun(Init(preload), ops)
    requires Acyclic(Run(Init(preload), ops), rank)
    ensures var s := Run(Init(preload), ops);
      (forall t :: !CanGo(s, t)) ==> forall k :: Coro(k) in s.strands ==> k in s.values && s.strands[Coro(k)].phase.Ended?
  {
    InitKeeps(preload);
    SteadyIsUndistracted(Init(preload), ops);
    if forall t :: !CanGo(Run(Init(preload), ops), t) {
      RunsToTheEnd(preload, ops, rank);
    }
  }

  /** A generator that has run to its end has delivered each dependency exactly once, with a value. */
  lemma EachDeliveredOnce(s: State, t: Thread)
    requires Inv(s) && t in s.strands && s.strands[t].phase.Through? && !s.strands[t].phase.raised
    ensures multiset(s.strands[t].got) == multiset(s.strands[t].depends)
    ensures forall k :: k in s.strands[t].got ==> k in s.values
  {
    assert ThreadInv(s, t);
  }

  // --- A value missed ---

  /** A pool in which a greenthread for key 0 depends on 1 and 2. */
  function OneWaiter(values: map<Key, Value>, event: nat, phase: Phase, pending: set<Key>, got: seq<Key>, runs: bool): State
  {
    var running := if runs then Some(Coro(0)) else None;
    State(values, {0}, event, map[Coro(0) := Strand(phase, {1, 2}, pending, got, false)], running)
  }

  /** It looks for 2 in vain and gets the value of 1. */
  lemma LooksInVain() returns (ops: seq<Op>)
    ensures Reaches(Init(map[1 := Plain(0)]), ops,
      OneWaiter(map[1 := Plain(0)], 0, Has(Some({}), false), {2}, [1], true))
  {
    var one, t := map[1 := Plain(0)], Coro(0);
    ops := LooksOnce();
    assert {1, 2} - {1} == {2} && {1} - {1} == {} && [] + [1] == [1];
    ops := Onward(Init(one), ops, OneWaiter(one, 0, Looking({1}), {1, 2}, [], true), Look(t, 1));
  }

  lemma LooksOnce() returns (ops: seq<Op>)
    ensures Reaches(Init(map[1 := Plain(0)]), ops, OneWaiter(map[1 := Plain(0)], 0, Looking({1}), {1, 2}, [], true))
  {
    var one, t := map[1 := Plain(0)], Coro(0);
    var s := Init(one);
    assert Reaches(s, [], s);
    ops := Onward(s, [], s, Spawn(0, {1, 2}));
    ops := Onward(s, ops, OneWaiter(one, 0, Scheduled, {1, 2}, [], false), Begin(t));
    ops := Onward(s, ops, OneWaiter(one, 0, Has(None, false), {1, 2}, [], true), Next(t));
    assert {1, 2} - {2} == {1};
    ops := Onward(s, ops, OneWaiter(one, 0, Looking({1, 2}), {1, 2}, [], true), Look(t, 2));
  }

  /** It switches away, and 2 is posted. */
  lemma MissesWhileAsleep() returns (ops: seq<Op>)
    ensures var one := map[1 := Plain(0)];
      Reaches(Init(one), ops, OneWaiter(one[2 := Plain(0)], 1, Has(Some({}), true), {2}, [1], false))
  {
    var one, t := map[1 := Plain(0)], Coro(0);
    ops := LooksInVain();
    ops := Onward(Init(one), ops, OneWaiter(one, 0, Has(Some({}), false), {2}, [1], true), Sleep(t));
    ops := Onward(Init(one), ops, OneWaiter(one, 0, Has(Some({}), true), {2}, [1], false), Post(2, Plain(0), false));
  }

  lemma Onward(s: State, ops: seq<Op>, t: State, op: Op) returns (more: seq<Op>)
    requires Reaches(s, ops, t) && Enabled(t, op)
    ensures Reaches(s, more, Step(t, op))
  {
    ReachesOneMore(s, ops, t, op);
    more := ops + [op];
  }

  lemma WaitsAgain() returns (ops: seq<Op>)
    ensures Reaches(Init(map[1 := Plain(0)]), ops,
      OneWaiter(map[1 := Plain(0), 2 := Plain(0)], 1, Waiting(1, false), {2}, [1], false))
  {
    var one, t := map[1 := Plain(0)], Coro(0);
    var both := one[2 := Plain(0)];
    ops := MissesWhileAsleep();
    ops := Onward(Init(one), ops, OneWaiter(both, 1, Has(Some({}), true), {2}, [1], false), Rise(t));
    ops := Onward(Init(one), ops, OneWaiter(both, 1, Has(Some({}), false), {2}, [1], true), Next(t));
    ops := Onward(Init(one), ops, OneWaiter(both, 1, Looking({}), {2}, [1], true), Turn(t));
  }

  /** It then waits for 2 for ever, though 2 has a value and nobody has anything left to do. */
  lemma ValueMayBeMissed() returns (ops: seq<Op>, u: State)
    ensures Reaches(Init(map[1 := Plain(0)]), ops, u) && !Undistracted(Init(map[1 := Plain(0)]), ops)
    ensures u == OneWaiter(map[1 := Plain(0), 2 := Plain(0)], 1, Waiting(1, false), {2}, [1], false)
    ensures forall t :: !CanGo(u, t)
  {
    ops := WaitsAgain();
    u := OneWaiter(map[1 := Plain(0), 2 := Plain(0)], 1, Waiting(1, false), {2}, [1], false);
    assert !Watchful(u.strands[Coro(0)], u.values);
    InitKeeps(map[1 := Plain(0)]);
    RunKeeps(Init(map[1 := Plain(0)]), ops);
  }

  /** And so does every greenthread that waits for the current event, until a value is given to some key. */
  lemma {:induction false} WaitsUntilPost(s: State, ops: seq<Op>, t: Thread)
    requires Inv(s) && Legal(s, ops) && t in s.strands && s.strands[t].phase == Waiting(s.event, false)
    requires GivesNothing(s, ops)
    ensures var u := Run(s, ops); t in u.strands && u.strands[t] == s.strands[t] && u.event == s.event
    decreases |ops|
  {
    if ops != [] {
      StepKeepsInv(s, ops[0]);
      WaitsOn(s, ops[0], t);
      WaitsUntilPost(Step(s, ops[0]), ops[1..], t);
    }
  }

  ghost predicate GivesNothing(s: State, ops: seq<Op>)
    requires Legal(s, ops)
    decreases |ops|
  {
    ops == [] || (Gives(s, ops[0]) == None && GivesNothing(Step(s, ops[0]), ops[1..]))
  }

  lemma WaitsOn(s: State, op: Op, t: Thread)
    requires Inv(s) && Enabled(s, op) && Gives(s, op) == None
    requires t in s.strands && s.strands[t].phase == Waiting(s.event, false)
    ensures var u := Step(s, op); t in u.strands && u.strands[t] == s.strands[t] && u.event == s.event
  {
    assert ThreadInv(s, t);
  }

  // --- The object ---

  datatype Answer = Item(key: Key, value: Value) | Raises(key: Key) | Stop | Blocked

  class DAGPool {
    var values: map<Key, Value>
    var coros: set<Key>
    var event: nat
    var strands: map<Thread, Strand>
    var running: Option<Thread>

    function View(): State
      reads this
    {
      State(values, coros, event, strands, running)
    }

    constructor (preload: map<Key, Value>)
      ensures View() == Init(preload)
    {
      values, coros, event, strands, running := preload, {}, 0, map[], None;
    }

    /** Not `ok` is a `Collision`. */
    method Spawn(key: Key, depends: set<Key>) returns (ok: bool)
      requires Enabled(View(), Op.Spawn(key, depends))
      modifies this
      ensures View() == Step(old(View()), Op.Spawn(key, depends))
      ensures ok <==> key !in old(coros) && key !in old(values)
      ensures ok ==> coros == old(coros) + {key}
      ensures ok ==> strands == old(strands)[Coro(key) := Strand(Scheduled, depends, depends, [], false)]
      ensures values == old(values) && event == old(event) && running == old(running)
      ensures !ok ==> coros == old(coros) && strands == old(strands)
    {
      if key in coros || key in values {
        return false;
      }
      strands := strands[Coro(key) := Fresh(Scheduled, depends, false)];
      coros := coros + {key};
      return true;
    }

    /** Not `ok` is a `Collision`. */
    method Post(key: Key, value: Value, replace: bool) returns (ok: bool)
      modifies this
      ensures ok <==> !Collides(old(View()), key, replace)
      ensures View() == if ok then Posted(old(View()), key, value) else old(View())
      ensures ok <==> (key in old(coros) ==> old(running) == Some(Coro(key))) && (key in old(values) ==> replace)
      ensures values == (if ok then old(values)[key := value] else old(values)) && coros == old(coros)
      ensures event == (if ok then old(event) + 1 else old(event)) && running == old(running)
      ensures ok ==> forall t :: t in old(strands) && old(strands)[t].phase == Waiting(old(event), false) ==>
        t in strands && strands[t].phase == Waiting(old(event), true)
    {
      if key in coros && running != Some(Coro(key)) {
        return false;
      }
      if key in values && !replace {
        return false;
      }
      values := values[key := value];
      SendEvent();
      return true;
    }

    /** `event.send()`, which schedules the waiters of the event, and a new event. */
    method SendEvent()
      modifies this`strands, this`event
      ensures event == old(event) + 1
      ensures strands == map t | t in old(strands) :: Roused(old(strands)[t], old(event))
    {
      strands := map t | t in strands :: Roused(strands[t], event);
      event := event + 1;
    }

    /** The end of `_wrapper`, after the function has returned or raised. */
    method Finish(key: Key, result: Value)
      requires Enabled(View(), Op.Finish(Coro(key), result))
      modifies this
      ensures View() == Step(old(View()), Op.Finish(Coro(key), result))
      ensures coros == old(coros) - {key} && running == None
      ensures values == if key in old(values) then old(values) else old(values)[key := result]
    {
      strands := strands[Coro(key) := strands[Coro(key)].(phase := Ended)];
      coros := coros - {key};
      running := None;
      var _ := Post(key, result, false);
    }

    /** The generator of results, asked for the next one. */
    method Next(t: Thread) returns (r: Answer, ghost ops: seq<Op>)
      requires Inv(View()) && Enabled(View(), Op.Next(t))
      modifies this
      ensures Reaches(old(View()), ops, View()) && Answers(old(View()), View(), t, r)
      ensures values == old(values) && t in strands
      ensures r.Item? || r.Raises? ==> r.key in old(strands[t].pending) && r.key in values
      ensures r.Item? || r.Raises? ==> strands[t].pending == old(strands[t].pending) - {r.key}
      ensures r.Item? ==> r.value == values[r.key] && (r.value.Propagate? ==> old(strands[t].raw))
      ensures r.Raises? ==> values[r.key].Propagate? && !old(strands[t].raw)
      ensures r.Stop? ==> old(strands[t].pending) == {}
      ensures r.Blocked? ==> old(strands[t].pending) != {} && strands[t].phase == Waiting(event, false)
    {
      var rest := strands[t].phase.rest;
      ghost var s := View();
      assert Reaches(s, [], s);
      StepKeepsInv(s, Op.Next(t));
      ops := Onward(s, [], s, Op.Next(t));
      strands := strands[t := strands[t].(phase := Looking(if rest.Some? then rest.value else strands[t].pending))];
      r, ops := Generate(t, s, ops);
    }

    /** The generator, woken by the event that it waited for. */
    method Wake(t: Thread) returns (r: Answer, ghost ops: seq<Op>)
      requires Inv(View()) && Enabled(View(), Op.Wake(t))
      modifies this
      ensures Reaches(old(View()), ops, View()) && Answers(old(View()), View(), t, r)
      ensures values == old(values) && t in strands
      ensures r.Item? || r.Raises? ==> r.key in old(strands[t].pending) && r.key in values
      ensures r.Item? || r.Raises? ==> strands[t].pending == old(strands[t].pending) - {r.key}
      ensures r.Item? ==> r.value == values[r.key] && (r.value.Propagate? ==> old(strands[t].raw))
      ensures r.Raises? ==> values[r.key].Propagate? && !old(strands[t].raw)
      ensures r.Stop? ==> old(strands[t].pending) == {}
      ensures r.Blocked? ==> old(strands[t].pending) != {} && strands[t].phase == Waiting(event, false)
    {
      ghost var s := View();
      assert Reaches(s, [], s);
      StepKeepsInv(s, Op.Wake(t));
      ops := Onward(s, [], s, Op.Wake(t));
      running := Some(t);
      strands := strands[t := strands[t].(phase := Looking(strands[t].pending))];
      r, ops := Generate(t, s, ops);
    }

    /** The loop over the copy of `pending`, up to a `yield` or to the wait that follows the loop. */
    method Generate(t: Thread, ghost s: State, ghost before: seq<Op>) returns (r: Answer, ghost ops: seq<Op>)
      requires Inv(View()) && Runs(View(), t) && strands[t].phase.Looking? && Reaches(s, before, View())
      requires SameFor(t, s, View())
      modifies this
      ensures Reaches(s, ops, View()) && Answers(s, View(), t, r)
    {
      ops := before;
      while strands[t].phase.todo != {}
        invariant Inv(View()) && Runs(View(), t) && strands[t].phase.Looking? && Reaches(s, ops, View())
        invariant SameFor(t, s, View())
        decreases strands[t].phase.todo
      {
        var key :| key in strands[t].phase.todo;
        ghost var u := View();
        LookedKeeps(u, t, key);
        ops := Onward(s, ops, u, Look(t, key));
        r := LookAt(t, key);
        if key in values {
          AnswersFrom(s, u, View(), t, r);
          return;
        }
      }
      ghost var u := View();
      ops := Onward(s, ops, u, Turn(t));
      r := Await(t);
      AnswersFrom(s, u, View(), t, r);
    }

    /** One turn of the loop; the answer matters only if the key has a value. */
    method LookAt(t: Thread, key: Key) returns (r: Answer)
      requires Inv(View()) && Enabled(View(), Look(t, key))
      modifies this
      ensures View() == Looked(old(View()), t, key)
      ensures key in values ==> Answers(old(View()), View(), t, r)
    {
      var g := strands[t];
      assert ThreadInv(View(), t);
      var todo := g.phase.todo - {key};
      r := Blocked;
      if key !in values {
        strands := strands[t := g.(phase := Looking(todo))];
      } else {
        var raised := values[key].Propagate? && !g.raw;
        r := if raised then Raises(key) else Item(key, values[key]);
        strands := strands[t := g.(phase := if raised then Through(true, false) else Has(Some(todo), false),
                                   pending := g.pending - {key}, got := g.got + [key])];
      }
    }

    method Await(t: Thread) returns (r: Answer)
      requires Enabled(View(), Turn(t))
      modifies this
      ensures View() == Step(old(View()), Turn(t)) && Answers(old(View()), View(), t, r)
    {
      if strands[t].pending == {} {
        strands := strands[t := strands[t].(phase := Through(false, false))];
        return Stop;
      }
      strands := strands[t := strands[t].(phase := Waiting(event, false))];
      running := None;
      return Blocked;
    }
  }

  /** Nothing that an answer to `t` is about has changed. */
  predicate SameFor(t: Thread, s: State, u: State) {
    && t in s.strands && t in u.strands && u.values == s.values && u.event == s.event
    && u.strands[t].pending == s.strands[t].pending && u.strands[t].raw == s.strands[t].raw
  }

  lemma AnswersFrom(s: State, u: State, v: State, t: Thread, r: Answer)
    requires SameFor(t, s, u) && Answers(u, v, t, r)
    ensures Answers(s, v, t, r)
  {
  }

  /** What the generator answered, from its waiting for `s.strands[t].pending` on. */
  predicate Answers(s: State, u: State, t: Thread, r: Answer) {
    && t in s.strands && t in u.strands && u.values == s.values && u.event == s.event
    && var pending := s.strands[t].pending;
       match r
       case Item(key, value) =>
         && key in pending && key in s.values && value == s.values[key] && (s.strands[t].raw || value.Plain?)
         && u.strands[t].pending == pending - {key} && u.strands[t].phase.Has?
       case Raises(key) =>
         && key in pending && key in s.values && s.values[key].Propagate? && !s.strands[t].raw
         && u.strands[t].pending == pending - {key} && u.strands[t].phase == Through(true, false)
       case Stop => pending == {} && u.strands[t].pending == {} && u.strands[t].phase == Through(false, false)
       case Blocked => pending != {} && u.strands[t].pending == pending && u.strands[t].phase == Waiting(s.event, false)
  }
}
