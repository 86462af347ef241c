/** The thread pool: native threads work on requests, and a greenthread hands their responses to the callers. */
module Tpools {
  /** What Python sees of a value that a method returns, or of `sys.exc_info()`. */
  datatype Value = Plain(n: int) | ExcInfo(exc: int)

  /** A method returns, raises one of `EXC_CLASSES`, or raises one of `SYS_EXCS`, which ends the thread. */
  datatype Outcome = Returns(value: Value) | Raises(exc: int)

  /** Requests are told apart by their `Event`. */
  type Id = nat

  datatype Response = Response(id: Id, value: Value)

  /** Where a thread stands in `tworker`: at `_reqq.get`, in the method, before `_rspq.put`, before `sendall`. */
  datatype Worker = Idle | Calls(id: Id) | Puts(response: Response) | Signals | Dead

  /** Where `tpool_trampoline` stands. */
  datatype Trampoline = Receives | Tests | Gets | Sends(response: Response)

  /** `unread` are the bytes in the socket. `issued` requests have been made; `outcomes` remembers what the methods
      did, `sent` what each `Event` was sent, and `lost` the requests whose thread died. */
  datatype State = State(reqq: seq<Id>, workers: seq<Worker>, rspq: seq<Response>, unread: nat, trampoline: Trampoline,
                         issued: nat, outcomes: map<Id, Outcome>, sent: map<Id, Value>, lost: set<Id>)

  datatype Op =
    | Request
    | Take(w: nat)
    | Call(w: nat, outcome: Outcome)
    | Die(w: nat)
    | Put(w: nat)
    | Signal(w: nat)
    | Receive
    | Test
    | Get
    | Send

  function Init(threads: nat): State {
    State([], seq(threads, _ => Idle), [], 0, Receives, 0, map[], map[], {})
  }

  function ResponseValue(o: Outcome): Value {
    match o
    case Returns(v) => v
    case Raises(e) => ExcInfo(e)
  }

  /** How `execute` ends once its event has been sent `v`. */
  function Executed(v: Value): Outcome {
    match v
    case Plain(_) => Returns(v)
    case ExcInfo(e) => Raises(e)
  }

  /** The socket holds at most this many bytes; `sendall` waits for room. */
  const CAPACITY := 65536

  predicate Enabled(s: State, op: Op) {
    match op
    case Request => s.trampoline == Receives
    case Take(w) => w < |s.workers| && s.workers[w].Idle? && s.reqq != []
    case Call(w, _) => w < |s.workers| && s.workers[w].Calls?
    case Die(w) => w < |s.workers| && s.workers[w].Calls?
    case Put(w) => w < |s.workers| && s.workers[w].Puts?
    case Signal(w) => w < |s.workers| && s.workers[w].Signals? && s.unread < CAPACITY
    case Receive => s.trampoline == Receives && s.unread > 0
    case Test => s.trampoline == Tests
    case Get => s.trampoline == Gets
    case Send => s.trampoline.Sends?
  }

  /** `Get` with `_rspq` empty is the `Empty` exception, and goes back to the test of the loop. */
  function Step(s: State, op: Op): State
    requires Enabled(s, op)
  {
    match op
    case Request => s.(reqq := s.reqq + [s.issued], issued := s.issued + 1)
    case Take(w) => s.(reqq := s.reqq[1..], workers := s.workers[w := Calls(s.reqq[0])])
    case Call(w, outcome) =>
      var id := s.workers[w].id;
      s.(workers := s.workers[w := Puts(Response(id, ResponseValue(outcome)))], outcomes := s.outcomes[id := outcome])
    case Die(w) => s.(workers := s.workers[w := Dead], lost := s.lost + {s.workers[w].id})
    case Put(w) => s.(workers := s.workers[w := Signals], rspq := s.rspq + [s.workers[w].response])
    case Signal(w) => s.(workers := s.workers[w := Idle], unread := s.unread + 1)
    case Receive => s.(unread := s.unread - 1, trampoline := Tests)
    case Test => s.(trampoline := if s.rspq == [] then Receives else Gets)
    case Get =>
      if s.rspq == [] then s.(trampoline := Tests)
      else s.(rspq := s.rspq[1..], trampoline := Sends(s.rspq[0]))
    case Send =>
      var r := s.trampoline.response;
      s.(trampoline := Tests, sent := s.sent[r.id := r.value])
  }

  // --- Where the requests are ---

  /** 1 if it is so. */
  function One(b: bool): nat {
    if b then 1 else 0
  }

  predicate HasJob(w: Worker, id: Id) {
    match w
    case Calls(i) => i == id
    case Puts(r) => r.id == id
    case _ => false
  }

  function Requested(reqq: seq<Id>, id: Id): nat {
    if reqq == [] then 0 else One(reqq[0] == id) + Requested(reqq[1..], id)
  }

  function Worked(workers: seq<Worker>, id: Id): nat {
    if workers == [] then 0 else One(HasJob(workers[0], id)) + Worked(workers[1..], id)
  }

  function Queued(rspq: seq<Response>, id: Id): nat {
    if rspq == [] then 0 else One(rspq[0].id == id) + Queued(rspq[1..], id)
  }

  /** The threads between their `put` and their `sendall`. */
  function Signalling(workers: seq<Worker>): nat {
    if workers == [] then 0 else One(workers[0].Signals?) + Signalling(workers[1..])
  }

  /** In how many places a request is before it has been answered. */
  function Underway(s: State, id: Id): nat {
    Requested(s.reqq, id) + Worked(s.workers, id) + Queued(s.rspq, id)
      + One(s.trampoline.Sends? && s.trampoline.response.id == id)
  }

  /** Every request is in exactly one place, or answered, or lost. */
  ghost predicate InOnePlace(s: State, id: Id) {
    Underway(s, id) + One(id in s.sent) + One(id in s.lost) == One(id < s.issued)
  }

  ghost predicate Own(s: State, r: Response) {
    r.id in s.outcomes && r.value == ResponseValue(s.outcomes[r.id])
  }

  ghost predicate OwnResults(s: State) {
    && (forall w :: 0 <= w < |s.workers| && s.workers[w].Puts? ==> Own(s, s.workers[w].response))
    && (forall i :: 0 <= i < |s.rspq| ==> Own(s, s.rspq[i]))
    && (s.trampoline.Sends? ==> Own(s, s.trampoline.response))
    && (forall id: Id :: id in s.sent ==> Own(s, Response(id, s.sent[id])))
  }

  /** While the trampoline is at `recv`, every response queued has its byte, or a thread about to send it. */
  ghost predicate Signalled(s: State) {
    s.trampoline.Receives? ==> |s.rspq| <= s.unread + Signalling(s.workers)
  }

  ghost predicate Inv(s: State) {
    (forall id: Id :: InOnePlace(s, id)) && OwnResults(s) && Signalled(s) && (s.trampoline.Gets? ==> s.rspq != [])
  }

  lemma {:induction false} WorkedUpdate(workers: seq<Worker>, i: nat, w: Worker, id: Id)
    requires i < |workers|
    ensures Worked(workers[i := w], id) + One(HasJob(workers[i], id)) == Worked(workers, id) + One(HasJob(w, id))
  {
    if i == 0 {
      assert workers[i := w][1..] == workers[1..];
    } else {
      assert workers[i := w][1..] == workers[1..][i - 1 := w];
      WorkedUpdate(workers[1..], i - 1, w, id);
    }
  }

  lemma {:induction false} SignallingUpdate(workers: seq<Worker>, i: nat, w: Worker)
    requires i < |workers|
    ensures Signalling(workers[i := w]) + One(workers[i].Signals?) == Signalling(workers) + One(w.Signals?)
  {
    if i == 0 {
      assert workers[i := w][1..] == workers[1..];
    } else {
      assert workers[i := w][1..] == workers[1..][i - 1 := w];
      SignallingUpdate(workers[1..], i - 1, w);
    }
  }

  lemma {:induction false} QueuedAppend(rspq: seq<Response>, r: Response, id: Id)
    ensures Queued(rspq + [r], id) == Queued(rspq, id) + One(r.id == id)
  {
    if rspq == [] {
      assert rspq + [r] == [r];
    } else {
      assert (rspq + [r])[1..] == rspq[1..] + [r];
      QueuedAppend(rspq[1..], r, id);
    }
  }

  lemma {:induction false} RequestedAppend(reqq: seq<Id>, i: Id, id: Id)
    ensures Requested(reqq + [i], id) == Requested(reqq, id) + One(i == id)
  {
    if reqq == [] {
      assert reqq + [i] == [i];
    } else {
      assert (reqq + [i])[1..] == reqq[1..] + [i];
      RequestedAppend(reqq[1..], i, id);
    }
  }

  lemma {:induction false} AllIdle(workers: seq<Worker>, id: Id)
    requires forall i :: 0 <= i < |workers| ==> workers[i] == Idle
    ensures Worked(workers, id) == 0
  {
    if workers != [] {
      AllIdle(workers[1..], id);
    }
  }

  lemma InitInv(threads: nat)
    ensures Inv(Init(threads))
  {
    forall id: Id
      ensures InOnePlace(Init(threads), id)
    {
      AllIdle(Init(threads).workers, id);
    }
  }

  lemma {:induction false} AtWork(workers: seq<Worker>, w: nat, id: Id)
    requires w < |workers| && HasJob(workers[w], id)
    ensures Worked(workers, id) > 0
  {
    if w > 0 {
      AtWork(workers[1..], w - 1, id);
    }
  }

  lemma {:induction false} InQueue(rspq: seq<Response>, i: nat)
    requires i < |rspq|
    ensures Queued(rspq, rspq[i].id) > 0
  {
    if i > 0 {
      InQueue(rspq[1..], i - 1);
    }
  }

  lemma StaysInOnePlace(s: State, op: Op, id: Id)
    requires Inv(s) && Enabled(s, op)
    ensures InOnePlace(Step(s, op), id)
  {
    var t := Step(s, op);
    assert InOnePlace(s, id);
    match op {
      case Request => RequestedAppend(s.reqq, s.issued, id);
      case Take(w) => WorkedUpdate(s.workers, w, t.workers[w], id);
      case Call(w, _) => WorkedUpdate(s.workers, w, t.workers[w], id);
      case Die(w) => WorkedUpdate(s.workers, w, t.workers[w], id); AtWork(s.workers, w, s.workers[w].id);
      case Put(w) =>
        WorkedUpdate(s.workers, w, t.workers[w], id);
        QueuedAppend(s.rspq, s.workers[w].response, id);
      case Signal(w) => WorkedUpdate(s.workers, w, t.workers[w], id);
      case _ =>
    }
  }

  /** The method of a request runs once: nothing holds a response to it before. */
  lemma CallKeepsOwn(s: State, w: nat, outcome: Outcome)
    requires Inv(s) && Enabled(s, Call(w, outcome))
    ensures OwnResults(Step(s, Call(w, outcome)))
  {
    var id := s.workers[w].id;
    var t := Step(s, Call(w, outcome));
    assert InOnePlace(s, id);
    AtWork(s.workers, w, id);
    forall v | 0 <= v < |s.workers| && v != w && s.workers[v].Puts?
      ensures Own(t, s.workers[v].response)
    {
      if s.workers[v].response.id == id {
        TwoAtWork(s.workers, w, v, id);
      }
    }
    forall i | 0 <= i < |s.rspq|
      ensures Own(t, s.rspq[i])
    {
      InQueue(s.rspq, i);
    }
  }

  lemma TwoAtWork(workers: seq<Worker>, v: nat, w: nat, id: Id)
    requires v < |workers| && w < |workers| && v != w && HasJob(workers[v], id) && HasJob(workers[w], id)
    ensures Worked(workers, id) > 1
  {
    WorkedUpdate(workers, v, Idle, id);
    AtWork(workers[v := Idle], w, id);
  }

  lemma OwnResultsKept(s: State, op: Op)
    requires Inv(s) && Enabled(s, op)
    ensures OwnResults(Step(s, op))
  {
    if op.Call? {
      CallKeepsOwn(s, op.w, op.outcome);
    }
  }

  lemma StaysSignalled(s: State, op: Op)
    requires Inv(s) && Enabled(s, op)
    ensures Signalled(Step(s, op)) && (Step(s, op).trampoline.Gets? ==> Step(s, op).rspq != [])
  {
    var t := Step(s, op);
    match op {
      case Take(w) => SignallingUpdate(s.workers, w, t.workers[w]);
      case Call(w, _) => SignallingUpdate(s.workers, w, t.workers[w]);
      case Die(w) => SignallingUpdate(s.workers, w, t.workers[w]);
      case Put(w) => SignallingUpdate(s.workers, w, t.workers[w]);
      case Signal(w) => SignallingUpdate(s.workers, w, t.workers[w]);
      case _ =>
    }
  }

  /** Every step of every thread keeps the invariant. */
  lemma StepKeepsInv(s: State, op: Op)
    requires Inv(s) && Enabled(s, op)
    ensures Inv(Step(s, op))
  {
    forall id: Id
      ensures InOnePlace(Step(s, op), id)
    {
      StaysInOnePlace(s, op, id);
    }
    OwnResultsKept(s, op);
    StaysSignalled(s, op);
  }

  /** Each `Event` is sent once at most: the assertion in `Event.send` holds. */
  lemma SentOnce(s: State)
    requires Inv(s) && Enabled(s, Send)
    ensures s.trampoline.response.id !in s.sent
  {
    assert InOnePlace(s, s.trampoline.response.id);
  }

  /** What a caller of `execute` gets is what its own method did, unless the method returned what `sys.exc_info()`
      returns, which the caller raises. */
  lemma OwnResult(s: State, id: Id)
    requires Inv(s) && id in s.sent
    ensures id in s.outcomes
    ensures Executed(s.sent[id]) == s.outcomes[id] <==> !(s.outcomes[id].Returns? && s.outcomes[id].value.ExcInfo?)
  {
    assert Own(s, Response(id, s.sent[id]));
  }

  // --- Runs ---

  ghost predicate Legal(s: State, ops: seq<Op>)
    decreases |ops|
  {
    ops == [] || (Enabled(s, ops[0]) && Legal(Step(s, ops[0]), ops[1..]))
  }

  ghost function Run(s: State, ops: seq<Op>): State
    requires Legal(s, ops)
    decreases |ops|
  {
    if ops == [] then s else Run(Step(s, ops[0]), ops[1..])
  }

  lemma {:induction false} RunKeepsInv(s: State, ops: seq<Op>)
    requires Inv(s) && Legal(s, ops)
    ensures Inv(Run(s, ops))
    decreases |ops|
  {
    if ops != [] {
      StepKeepsInv(s, ops[0]);
      RunKeepsInv(Step(s, ops[0]), ops[1..]);
    }
  }

  // --- Queues and results over runs ---

  ghost function IssuedBy(s: State, ops: seq<Op>): seq<Id>
    requires Legal(s, ops)
    decreases |ops|
  {
    if ops == [] then []
    else (if ops[0].Request? then [s.issued] else []) + IssuedBy(Step(s, ops[0]), ops[1..])
  }

  /** The requests that threads have begun to work on, in turn. */
  ghost function TakenBy(s: State, ops: seq<Op>): seq<Id>
    requires Legal(s, ops)
    decreases |ops|
  {
    if ops == [] then []
    else
      var t := Step(s, ops[0]);
      (match ops[0]
       case Take(w) => if w < |t.workers| && t.workers[w].Calls? then [t.workers[w].id] else []
       case _ => []) + TakenBy(t, ops[1..])
  }

  ghost function PutBy(s: State, ops: seq<Op>): seq<Response>
    requires Legal(s, ops)
    decreases |ops|
  {
    if ops == [] then []
    else (if ops[0].Put? then [s.workers[ops[0].w].response] else []) + PutBy(Step(s, ops[0]), ops[1..])
  }

  /** The responses that the trampoline has fetched, in turn. */
  ghost function FetchedBy(s: State, ops: seq<Op>): seq<Response>
    requires Legal(s, ops)
    decreases |ops|
  {
    if ops == [] then []
    else
      var t := Step(s, ops[0]);
      (if ops[0].Get? && t.trampoline.Sends? then [t.trampoline.response] else []) + FetchedBy(t, ops[1..])
  }

  lemma Regroup<T>(a: seq<T>, b: seq<T>, c: seq<T>)
    ensures a + (b + c) == a + b + c
  {
  }

  lemma HeadQueued<T>(s: seq<T>)
    requires s != []
    ensures [s[0]] + s[1..] == s
  {
  }

  /** Requests are worked on in the order in which they were made, however the threads interleave. */
  lemma {:induction false} RequestsInOrder(s: State, ops: seq<Op>)
    requires Legal(s, ops)
    ensures s.reqq + IssuedBy(s, ops) == TakenBy(s, ops) + Run(s, ops).reqq
    decreases |ops|
  {
    if ops != [] {
      var t := Step(s, ops[0]);
      var issued, taken := IssuedBy(t, ops[1..]), TakenBy(t, ops[1..]);
      RequestsInOrder(t, ops[1..]);
      assert [] + issued == issued && [] + taken == taken;
      if ops[0].Request? {
        Regroup(s.reqq, [s.issued], issued);
      } else if ops[0].Take? {
        HeadQueued(s.reqq);
        Regroup([s.reqq[0]], t.reqq, issued);
        Regroup([s.reqq[0]], taken, Run(s, ops).reqq);
      }
    }
  }

  /** Responses are fetched in the order in which threads put them. */
  lemma {:induction false} ResponsesInOrder(s: State, ops: seq<Op>)
    requires Legal(s, ops)
    ensures s.rspq + PutBy(s, ops) == FetchedBy(s, ops) + Run(s, ops).rspq
    decreases |ops|
  {
    if ops != [] {
      var t := Step(s, ops[0]);
      var put, fetched := PutBy(t, ops[1..]), FetchedBy(t, ops[1..]);
      ResponsesInOrder(t, ops[1..]);
      assert [] + put == put && [] + fetched == fetched;
      if ops[0].Put? {
        Regroup(s.rspq, [s.workers[ops[0].w].response], put);
      } else if ops[0].Get? && s.rspq != [] {
        HeadQueued(s.rspq);
        Regroup([s.rspq[0]], t.rspq, put);
        Regroup([s.rspq[0]], fetched, Run(s, ops).rspq);
      }
    }
  }

  /** How often one of the steps is made. */
  function Count(ops: seq<Op>, op: Op -> bool): nat {
    if ops == [] then 0 else One(op(ops[0])) + Count(ops[1..], op)
  }

  /** No byte is lost or read twice. */
  lemma {:induction false} BytesConserved(s: State, ops: seq<Op>)
    requires Legal(s, ops)
    ensures Run(s, ops).unread + Count(ops, (op: Op) => op.Receive?) == s.unread + Count(ops, (op: Op) => op.Signal?)
    decreases |ops|
  {
    if ops != [] {
      BytesConserved(Step(s, ops[0]), ops[1..]);
    }
  }

  /** In the run a thread that works on the request makes this step. */
  ghost predicate CalledWith(s: State, ops: seq<Op>, id: Id, outcome: Outcome)
    requires Legal(s, ops)
    decreases |ops|
  {
    ops != [] && (
      (ops[0].Call? && s.workers[ops[0].w].id == id && ops[0].outcome == outcome)
      || CalledWith(Step(s, ops[0]), ops[1..], id, outcome))
  }

  lemma StepRemembers(s: State, op: Op, id: Id)
    requires Inv(s) && Enabled(s, op)
    ensures id in Step(s, op).outcomes <==> id in s.outcomes || (op.Call? && s.workers[op.w].id == id)
    ensures id in Step(s, op).outcomes ==>
      Step(s, op).outcomes[id] == if op.Call? && s.workers[op.w].id == id then op.outcome else s.outcomes[id]
  {
  }

  lemma {:induction false} OutcomeCalled(s: State, ops: seq<Op>, id: Id)
    requires Inv(s) && Legal(s, ops) && id in Run(s, ops).outcomes
    ensures (id in s.outcomes && s.outcomes[id] == Run(s, ops).outcomes[id])
      || CalledWith(s, ops, id, Run(s, ops).outcomes[id])
    decreases |ops|
  {
    if ops != [] {
      StepKeepsInv(s, ops[0]);
      OutcomeCalled(Step(s, ops[0]), ops[1..], id);
      StepRemembers(s, ops[0], id);
    }
  }

  /** Over any run from the start, what a caller has been sent is what a thread that worked on its request came to. */
  lemma AnsweredWithOwn(threads: nat, ops: seq<Op>, id: Id)
    requires Legal(Init(threads), ops) && id in Run(Init(threads), ops).sent
    ensures exists outcome ::
      && CalledWith(Init(threads), ops, id, outcome)
      && (Executed(Run(Init(threads), ops).sent[id]) == outcome <==> !(outcome.Returns? && outcome.value.ExcInfo?))
  {
    InitInv(threads);
    RunKeepsInv(Init(threads), ops);
    var t := Run(Init(threads), ops);
    OwnResult(t, id);
    OutcomeCalled(Init(threads), ops, id);
    assert CalledWith(Init(threads), ops, id, t.outcomes[id]);
  }

  // --- Rest ---

  /** Nothing can happen but another request, or bytes left without a response. */
  ghost predicate Quiescent(s: State) {
    forall op :: Enabled(s, op) ==> op.Request?
  }

  predicate SomeoneLives(s: State) {
    exists w :: 0 <= w < |s.workers| && !s.workers[w].Dead?
  }

  /** When nothing more happens, every request has been answered, or its thread has died of it. */
  lemma NothingLost(s: State, id: Id)
    requires Inv(s) && Quiescent(s) && id < s.issued && SomeoneLives(s)
    ensures id in s.sent || id in s.lost
  {
    assert InOnePlace(s, id);
    TrampolineRests(s);
    WorkersRest(s);
    NobodySignals(s.workers);
    NobodyWorks(s.workers, id);
  }

  lemma TrampolineRests(s: State)
    requires Quiescent(s)
    ensures s.trampoline == Receives && s.unread == 0
  {
    assert !Enabled(s, Test) && !Enabled(s, Get) && !Enabled(s, Send) && !Enabled(s, Receive);
  }

  lemma WorkersRest(s: State)
    requires Quiescent(s) && SomeoneLives(s)
    ensures s.reqq == [] && forall w :: 0 <= w < |s.workers| ==> s.workers[w].Idle? || s.workers[w].Dead?
  {
    TrampolineRests(s);
    forall w | 0 <= w < |s.workers|
      ensures s.workers[w].Dead? || (s.workers[w].Idle? && s.reqq == [])
    {
      assert !Enabled(s, Take(w)) && !Enabled(s, Die(w)) && !Enabled(s, Put(w)) && !Enabled(s, Signal(w));
    }
  }

  lemma {:induction false} NobodySignals(workers: seq<Worker>)
    requires forall w :: 0 <= w < |workers| ==> workers[w].Idle? || workers[w].Dead?
    ensures Signalling(workers) == 0
  {
    if workers != [] {
      NobodySignals(workers[1..]);
    }
  }

  lemma {:induction false} NobodyWorks(workers: seq<Worker>, id: Id)
    requires forall w :: 0 <= w < |workers| ==> workers[w].Idle? || workers[w].Dead?
    ensures Worked(workers, id) == 0
  {
    if workers != [] {
      NobodyWorks(workers[1..], id);
    }
  }

  // --- Every run ends ---

  function WorkerMeasure(w: Worker): nat {
    match w
    case Calls(_) => 10
    case Puts(_) => 9
    case Signals => 4
    case _ => 0
  }

  function WorkersMeasure(workers: seq<Worker>): nat {
    if workers == [] then 0 else WorkerMeasure(workers[0]) + WorkersMeasure(workers[1..])
  }

  /** An upper bound of the steps that can be made without a new request. */
  function Measure(s: State): nat {
    11 * |s.reqq| + WorkersMeasure(s.workers) + 4 * |s.rspq| + 3 * s.unread
      + match s.trampoline
        case Receives => 0
        case Tests => 2
        case Gets => 1
        case Sends(_) => 3
  }

  lemma {:induction false} MeasureUpdate(workers: seq<Worker>, i: nat, w: Worker)
    requires i < |workers|
    ensures WorkersMeasure(workers[i := w]) + WorkerMeasure(workers[i]) == WorkersMeasure(workers) + WorkerMeasure(w)
  {
    if i == 0 {
      assert workers[i := w][1..] == workers[1..];
    } else {
      assert workers[i := w][1..] == workers[1..][i - 1 := w];
      MeasureUpdate(workers[1..], i - 1, w);
    }
  }

  lemma StepsDown(s: State, op: Op)
    requires Inv(s) && Enabled(s, op) && !op.Request?
    ensures Measure(Step(s, op)) < Measure(s)
  {
    var t := Step(s, op);
    match op {
      case Take(w) => MeasureUpdate(s.workers, w, t.workers[w]);
      case Call(w, _) => MeasureUpdate(s.workers, w, t.workers[w]);
      case Die(w) => MeasureUpdate(s.workers, w, t.workers[w]);
      case Put(w) => MeasureUpdate(s.workers, w, t.workers[w]);
      case Signal(w) => MeasureUpdate(s.workers, w, t.workers[w]);
      case _ =>
    }
  }

  /** However the threads interleave, they come to rest a bounded number of steps after the last request, and then
      each request has been answered with its own result, if no method killed its thread. */
  lemma {:induction false} RunsEnd(s: State, ops: seq<Op>)
    requires Inv(s) && Legal(s, ops) && forall i :: 0 <= i < |ops| ==> !ops[i].Request?
    ensures |ops| <= Measure(s) && Inv(Run(s, ops))
    ensures Quiescent(Run(s, ops)) && SomeoneLives(Run(s, ops)) ==>
      forall id: Id :: id < s.issued ==> id in Run(s, ops).sent || id in Run(s, ops).lost
    decreases |ops|
  {
    if ops == [] {
      if Quiescent(s) && SomeoneLives(s) {
        forall id: Id | id < s.issued
          ensures id in s.sent || id in s.lost
        {
          NothingLost(s, id);
        }
      }
    } else {
      StepKeepsInv(s, ops[0]);
      StepsDown(s, ops[0]);
      RunsEnd(Step(s, ops[0]), ops[1..]);
    }
  }
}
