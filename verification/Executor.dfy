/** The nested forwarding executor: a call walks its plan step by step, and a hop to another
    worker thread queues the rest of the call there and blocks the thread it comes from
    until the result is back. Worker threads take one job at a time, in order.

    A thread inside an asynchronous job blocks on it just as it does on a synchronous one,
    so one walk stands for both. A result is a number: what a handler computes is up to it,
    and the executor only hands it on. */
module Executor {

  type Name = string

  datatype Hop = Rpc(server: Name) | Thread(worker: Name)

  datatype Location = Client | AtRpc(server: Name) | AtThread(worker: Name)

  type Plan = seq<Hop>

  function LocationOf(h: Hop): Location {
    match h
    case Rpc(server) => AtRpc(server)
    case Thread(worker) => AtThread(worker)
  }

  // ----- the walk over one plan

  // The worker threads a call enters from step `index` on; hops to where it is are elided.
  function Entered(loc: Location, plan: Plan, index: nat): seq<Name>
    requires index <= |plan|
    decreases |plan| - index
  {
    if index >= |plan| then []
    else
      var next := LocationOf(plan[index]);
      if next == loc || plan[index].Rpc? then Entered(next, plan, index + 1)
      else [plan[index].worker] + Entered(next, plan, index + 1)
  }

  // Where a call ends up.
  function Destination(plan: Plan): Location {
    if plan == [] then Client else LocationOf(plan[|plan| - 1])
  }

  // ----- the system

  // A call on its way back, and one that has returned, has a result.
  datatype Status = Active | Queued(t: Name) | Unwinding(x: int) | Done(x: int)

  datatype Call = Call(
    plan: Plan,
    index: nat,           // the next step
    loc: Location,
    stack: seq<Name>,     // the worker threads blocked or running on its behalf, outermost first
    status: Status)

  type Cid = nat

  // The handler of a call was run somewhere, with some result.
  datatype HandlerRun = HandlerRun(c: Cid, at: Location, x: int)

  datatype State = State(
    workers: set<Name>,             // the registered worker threads and remote sites
    servers: set<Name>,
    calls: seq<Call>,
    queue: map<Name, seq<Cid>>,     // jobs sent to a worker and not yet taken
    busy: map<Name, Cid>,           // the call whose job a worker is in
    log: seq<HandlerRun>)

  function Initial(workers: set<Name>, servers: set<Name>): State {
    State(workers, servers, [], map t | t in workers :: [], map[], [])
  }

  // `x` is what the handler answers, if the call gets to it.
  datatype Action = Start(plan: Plan) | Advance(c: Cid, x: int) | Take(t: Name) | Return(c: Cid)

  // The names the registry has to know, or the program stops.
  predicate Known(s: State, plan: Plan) {
    forall k :: 0 <= k < |plan| ==> if plan[k].Thread? then plan[k].worker in s.workers else plan[k].server in s.servers
  }

  predicate Enabled(s: State, a: Action) {
    match a
    case Start(plan) => Known(s, plan)
    case Advance(c, _) => c < |s.calls| && s.calls[c].status.Active? && s.calls[c].index <= |s.calls[c].plan|
    case Take(t) => t in s.queue && s.queue[t] != [] && s.queue[t][0] < |s.calls| && t !in s.busy
    case Return(c) => c < |s.calls| && s.calls[c].status.Unwinding?
  }

  function StartCall(s: State, plan: Plan): State {
    s.(calls := s.calls + [Call(plan, 0, Client, [], Active)])
  }

  function Jobs(s: State, t: Name): seq<Cid> { if t in s.queue then s.queue[t] else [] }

  // One level of the recursion over the plan.
  function AdvanceCall(s: State, c: Cid, x: int): State
    requires Enabled(s, Advance(c, x))
  {
    var call := s.calls[c];
    if call.index == |call.plan| then
      s.(calls := s.calls[c := call.(status := Unwinding(x))], log := s.log + [HandlerRun(c, call.loc, x)])
    else
      var next := LocationOf(call.plan[call.index]);
      if next == call.loc || next.AtRpc? then
        s.(calls := s.calls[c := call.(index := call.index + 1, loc := next)])
      else
        s.(calls := s.calls[c := call.(index := call.index + 1, status := Queued(next.worker))],
           queue := s.queue[next.worker := Jobs(s, next.worker) + [c]])
  }

  function TakeJob(s: State, t: Name): State
    requires Enabled(s, Take(t))
  {
    var c := s.queue[t][0];
    var call := s.calls[c];
    s.(calls := s.calls[c := call.(status := Active, loc := AtThread(t), stack := call.stack + [t])],
       queue := s.queue[t := s.queue[t][1..]],
       busy := s.busy[t := c])
  }

  // The innermost thread hands the result to the one that waits for it.
  function ReturnCall(s: State, c: Cid): State
    requires Enabled(s, Return(c))
  {
    var call := s.calls[c];
    if call.stack == [] then s.(calls := s.calls[c := call.(status := Done(call.status.x))])
    else
      var n := |call.stack| - 1;
      s.(calls := s.calls[c := call.(stack := call.stack[..n])], busy := s.busy - {call.stack[n]})
  }

  // An action that is not enabled leaves the state unchanged.
  function Step(s: State, a: Action): State {
    if !Enabled(s, a) then s
    else
      match a
      case Start(plan) => StartCall(s, plan)
      case Advance(c, x) => AdvanceCall(s, c, x)
      case Take(t) => TakeJob(s, t)
      case Return(c) => ReturnCall(s, c)
  }

  function Run(s: State, acts: seq<Action>): State {
    if acts == [] then s else Step(Run(s, acts[..|acts| - 1]), acts[|acts| - 1])
  }

  // ----- what every run keeps

  predicate NoRepeats<T(==)>(xs: seq<T>) { forall i, j :: 0 <= i < j < |xs| ==> xs[i] != xs[j] }

  // The workers entered so far, and those still to be entered, are those of the plan.
  predicate OnItsWay(call: Call) {
    && call.index <= |call.plan|
    && Entered(Client, call.plan, 0) ==
       (match call.status
        case Active => call.stack + Entered(call.loc, call.plan, call.index)
        case Queued(t) => call.stack + [t] + Entered(AtThread(t), call.plan, call.index)
        case _ => Entered(Client, call.plan, 0))
    && (call.status.Active? && call.index == |call.plan| ==> call.loc == Destination(call.plan))
    && (call.status.Queued? && call.index == |call.plan| ==> AtThread(call.status.t) == Destination(call.plan))
    && (call.index == 0 ==> !call.status.Queued? && call.loc == Client)
  }

  predicate CallOk(s: State, c: Cid)
    requires c < |s.calls|
  {
    var call := s.calls[c];
    && OnItsWay(call)
    && NoRepeats(call.stack)
    && (forall k :: 0 <= k < |call.stack| ==> call.stack[k] in s.busy && s.busy[call.stack[k]] == c)
    && (call.status.Queued? ==> c in Jobs(s, call.status.t))
    && (call.status.Done? ==> call.stack == [])
    && Known(s, call.plan)
  }

  predicate WorkerOk(s: State, t: Name) {
    && (t in s.busy ==> s.busy[t] < |s.calls| && t in s.calls[s.busy[t]].stack)
    && NoRepeats(Jobs(s, t))
    && (forall c :: c in Jobs(s, t) ==> c < |s.calls| && s.calls[c].status == Queued(t))
  }

  predicate Ran(s: State, c: Cid)
    requires c < |s.calls|
  {
    s.calls[c].status.Unwinding? || s.calls[c].status.Done?
  }

  // The one run there has to have been of the handler of a call that has a result.
  function RunOf(s: State, c: Cid): HandlerRun
    requires c < |s.calls| && Ran(s, c)
  {
    HandlerRun(c, Destination(s.calls[c].plan), s.calls[c].status.x)
  }

  // Each handler that was run was run once, at the destination of its plan, and its result
  // is the one the call has.
  predicate LogOk(s: State) {
    && (forall k :: 0 <= k < |s.log| ==>
          s.log[k].c < |s.calls| && Ran(s, s.log[k].c) && s.log[k] == RunOf(s, s.log[k].c))
    && (forall j, k :: 0 <= j < k < |s.log| ==> s.log[j].c != s.log[k].c)
    && (forall c :: 0 <= c < |s.calls| && Ran(s, c) ==> RunOf(s, c) in s.log)
  }

  ghost predicate Inv(s: State) {
    && (forall c :: 0 <= c < |s.calls| ==> CallOk(s, c))
    && (forall t :: WorkerOk(s, t))
    && LogOk(s)
  }

  // ----- steps

  lemma StartKeeps(s: State, plan: Plan, t: State)
    requires Inv(s) && Enabled(s, Start(plan)) && t == StartCall(s, plan)
    ensures Inv(t)
  {
    var n := |s.calls|;
    forall c | 0 <= c < |t.calls| ensures CallOk(t, c) {
      if c < n {
        assert CallOk(s, c) && t.calls[c] == s.calls[c];
      } else if plan == [] { }
    }
    forall w: Name ensures WorkerOk(t, w) {
      assert WorkerOk(s, w);
    }
    forall c | 0 <= c < |t.calls| && Ran(t, c) ensures RunOf(t, c) in t.log {
      assert Ran(s, c) && RunOf(t, c) == RunOf(s, c);
    }
  }

  // Call `c` moves; every other call keeps its threads and its place in a queue.
  ghost predicate MovesOnly(s: State, t: State, c: Cid) {
    && c < |s.calls| == |t.calls| && t.workers == s.workers && t.servers == s.servers
    && t.calls[c].plan == s.calls[c].plan
    && (forall d :: 0 <= d < |s.calls| && d != c ==> t.calls[d] == s.calls[d])
    && (forall w :: w in s.busy && s.busy[w] != c ==> w in t.busy && t.busy[w] == s.busy[w])
    && (forall w: Name, d :: d in Jobs(s, w) && d != c ==> d in Jobs(t, w))
  }

  lemma OthersKept(s: State, t: State, c: Cid)
    requires Inv(s) && MovesOnly(s, t, c)
    ensures forall d :: 0 <= d < |t.calls| && d != c ==> CallOk(t, d)
  {
    forall d | 0 <= d < |t.calls| && d != c ensures CallOk(t, d) {
      assert CallOk(s, d);
    }
  }

  lemma LogKept(s: State, t: State, c: Cid)
    requires LogOk(s) && MovesOnly(s, t, c) && t.log == s.log
    requires Ran(t, c) == Ran(s, c) && (Ran(s, c) ==> t.calls[c].status.x == s.calls[c].status.x)
    ensures LogOk(t)
  {
    forall d | 0 <= d < |t.calls| && Ran(t, d) ensures Ran(s, d) && RunOf(t, d) == RunOf(s, d) { }
  }

  lemma LogExtended(s: State, t: State, c: Cid)
    requires LogOk(s) && MovesOnly(s, t, c) && !Ran(s, c) && Ran(t, c)
    requires t.log == s.log + [RunOf(t, c)]
    ensures LogOk(t)
  {
    assert t.log[|s.log|] == RunOf(t, c);
    forall d | 0 <= d < |t.calls| && Ran(t, d) ensures RunOf(t, d) in t.log {
      if d != c {
        assert Ran(s, d) && RunOf(t, d) == RunOf(s, d);
        assert RunOf(s, d) in s.log;
      }
    }
  }

  lemma SameWorkers(s: State, t: State, c: Cid)
    requires Inv(s) && MovesOnly(s, t, c) && t.busy == s.busy && t.queue == s.queue
    requires t.calls[c].stack == s.calls[c].stack && !s.calls[c].status.Queued?
    ensures forall w: Name :: WorkerOk(t, w)
  {
    forall w: Name ensures WorkerOk(t, w) {
      assert WorkerOk(s, w);
    }
  }

  lemma WalkOnItsWay(call: Call, next: Call)
    requires OnItsWay(call) && call.status.Active? && call.index < |call.plan|
    requires LocationOf(call.plan[call.index]) == call.loc || call.plan[call.index].Rpc?
    requires next == call.(index := call.index + 1, loc := LocationOf(call.plan[call.index]))
    ensures OnItsWay(next)
  {
  }

  // The call moves on inside its thread.
  lemma WalkKeeps(s: State, c: Cid, x: int, t: State)
    requires Inv(s) && Enabled(s, Advance(c, x)) && t == AdvanceCall(s, c, x)
    requires s.calls[c].index < |s.calls[c].plan| && !t.calls[c].status.Queued?
    ensures Inv(t)
  {
    assert MovesOnly(s, t, c);
    assert CallOk(t, c) by {
      assert CallOk(s, c);
      WalkOnItsWay(s.calls[c], t.calls[c]);
    }
    OthersKept(s, t, c);
    LogKept(s, t, c);
    SameWorkers(s, t, c);
  }

  lemma HandlerKeeps(s: State, c: Cid, x: int, t: State)
    requires Inv(s) && Enabled(s, Advance(c, x)) && t == AdvanceCall(s, c, x)
    requires s.calls[c].index == |s.calls[c].plan|
    ensures Inv(t)
  {
    assert CallOk(s, c);
    OthersKept(s, t, c);
    LogExtended(s, t, c);
    SameWorkers(s, t, c);
  }

  lemma HopOnItsWay(call: Call, w: Name, next: Call)
    requires OnItsWay(call) && call.status.Active? && call.index < |call.plan| && call.plan[call.index] == Thread(w)
    requires call.loc != AtThread(w) && next == call.(index := call.index + 1, status := Queued(w))
    ensures OnItsWay(next)
  {
    var rest := Entered(AtThread(w), call.plan, call.index + 1);
    assert call.stack + ([w] + rest) == call.stack + [w] + rest;
  }

  lemma HopWorkers(s: State, c: Cid, w0: Name, t: State, w: Name)
    requires WorkerOk(s, w) && c < |s.calls| && s.calls[c].status.Active? && MovesOnly(s, t, c)
    requires t.calls[c].status == Queued(w0) && t.calls[c].stack == s.calls[c].stack && t.busy == s.busy
    requires Jobs(t, w) == if w == w0 then Jobs(s, w) + [c] else Jobs(s, w)
    ensures WorkerOk(t, w)
  {
    assert c !in Jobs(s, w);
  }

  lemma HopCall(s: State, c: Cid, w0: Name, t: State)
    requires c < |s.calls| == |t.calls| && CallOk(s, c) && s.calls[c].status.Active?
    requires s.calls[c].index < |s.calls[c].plan| && s.calls[c].plan[s.calls[c].index] == Thread(w0)
    requires s.calls[c].loc != AtThread(w0)
    requires t.calls[c] == s.calls[c].(index := s.calls[c].index + 1, status := Queued(w0))
    requires t.busy == s.busy && c in Jobs(t, w0) && t.workers == s.workers && t.servers == s.servers
    ensures CallOk(t, c)
  {
    HopOnItsWay(s.calls[c], w0, t.calls[c]);
  }

  lemma HopMoves(s: State, c: Cid, x: int, w0: Name, t: State)
    requires Enabled(s, Advance(c, x)) && t == AdvanceCall(s, c, x)
    requires s.calls[c].index < |s.calls[c].plan| && t.calls[c].status == Queued(w0)
    ensures MovesOnly(s, t, c) && c in Jobs(t, w0)
  {
    assert t.queue[w0][|Jobs(s, w0)|] == c;
  }

  lemma HopKeeps(s: State, c: Cid, x: int, t: State)
    requires Inv(s) && Enabled(s, Advance(c, x)) && t == AdvanceCall(s, c, x)
    requires s.calls[c].index < |s.calls[c].plan| && t.calls[c].status.Queued?
    ensures Inv(t)
  {
    var w0 := t.calls[c].status.t;
    HopMoves(s, c, x, w0, t);
    HopCall(s, c, w0, t);
    OthersKept(s, t, c);
    LogKept(s, t, c);
    forall w: Name ensures WorkerOk(t, w) {
      HopWorkers(s, c, w0, t, w);
    }
  }

  lemma TakeWorkers(s: State, c: Cid, w0: Name, t: State, w: Name)
    requires WorkerOk(s, w) && c < |s.calls| && s.calls[c].status == Queued(w0) && MovesOnly(s, t, c)
    requires t.calls[c].status.Active? && t.calls[c].stack == s.calls[c].stack + [w0] && t.busy == s.busy[w0 := c]
    requires if w == w0 then Jobs(s, w) == [c] + Jobs(t, w) else Jobs(t, w) == Jobs(s, w)
    ensures WorkerOk(t, w)
  {
    var js := Jobs(s, w);
    if w == w0 {
      assert forall k :: 0 <= k < |Jobs(t, w)| ==> Jobs(t, w)[k] == js[k + 1];
      forall d | d in Jobs(t, w) ensures d in js && d != c {
        var k :| 0 <= k < |Jobs(t, w)| && Jobs(t, w)[k] == d;
        assert js[k + 1] == d && js[0] == c;
      }
    } else {
      assert c !in js;
    }
  }

  lemma TakeKeeps(s: State, w0: Name, t: State)
    requires Inv(s) && Enabled(s, Take(w0)) && t == TakeJob(s, w0)
    ensures Inv(t)
  {
    var c := s.queue[w0][0];
    assert s.calls[c].status == Queued(w0) by {
      assert WorkerOk(s, w0) && c in Jobs(s, w0);
    }
    assert s.queue[w0] == [c] + t.queue[w0];
    assert MovesOnly(s, t, c);
    assert CallOk(t, c) by { assert CallOk(s, c); }
    OthersKept(s, t, c);
    LogKept(s, t, c);
    forall w: Name ensures WorkerOk(t, w) {
      TakeWorkers(s, c, w0, t, w);
    }
  }

  lemma ReturnKeeps(s: State, c: Cid, t: State)
    requires Inv(s) && Enabled(s, Return(c)) && t == ReturnCall(s, c)
    ensures Inv(t)
  {
    assert CallOk(s, c);
    assert CallOk(t, c);
    OthersKept(s, t, c);
    LogKept(s, t, c);
    forall w: Name ensures WorkerOk(t, w) {
      assert WorkerOk(s, w);
    }
  }

  lemma StepKeeps(s: State, a: Action)
    requires Inv(s)
    ensures Inv(Step(s, a))
  {
    if Enabled(s, a) {
      match a {
        case Start(plan) => StartKeeps(s, plan, StartCall(s, plan));
        case Advance(c, x) =>
          var t := AdvanceCall(s, c, x);
          if s.calls[c].index == |s.calls[c].plan| { HandlerKeeps(s, c, x, t); }
          else if t.calls[c].status.Queued? { HopKeeps(s, c, x, t); }
          else { WalkKeeps(s, c, x, t); }
        case Take(w) => TakeKeeps(s, w, TakeJob(s, w));
        case Return(c) => ReturnKeeps(s, c, ReturnCall(s, c));
      }
    }
  }

  lemma {:induction false} RunKeeps(s: State, acts: seq<Action>)
    requires Inv(s)
    ensures Inv(Run(s, acts))
  {
    if acts != [] {
      RunKeeps(s, acts[..|acts| - 1]);
      StepKeeps(Run(s, acts[..|acts| - 1]), acts[|acts| - 1]);
    }
  }
}
