/** The executor as the program runs it: worker threads take jobs off their queues and the
    calls move on in place, whenever something can move. Which of the things that can move
    moves next is up to `order`, which stands for the scheduling of the threads. */
module ExecutorCode {
  import opened Executor
  import opened Forwarding

  class Runtime {
    const workers: set<Name>
    const servers: set<Name>
    var calls: seq<Call>
    var queue: map<Name, seq<Cid>>
    var busy: map<Name, Cid>
    var log: seq<HandlerRun>

    function Abs(): State
      reads this
    {
      State(workers, servers, calls, queue, busy, log)
    }

    ghost predicate Valid()
      reads this
    {
      Inv(Abs())
    }

    constructor (workers: set<Name>, servers: set<Name>)
      ensures Valid() && this.workers == workers && this.servers == servers && calls == [] && log == []
    {
      this.workers, this.servers := workers, servers;
      calls, queue, busy, log := [], map t | t in workers :: [], map[], [];
      new;
      assert forall t: Name :: Jobs(Abs(), t) == [];
      assert forall t: Name :: WorkerOk(Abs(), t);
    }

    // A call from outside, with a plan whose names are registered.
    method Execute(plan: Plan) returns (c: Cid)
      requires Valid() && Known(Abs(), plan)
      modifies this`calls
      ensures Valid() && Abs() == StartCall(old(Abs()), plan) && c == |old(calls)|
    {
      StartKeeps(Abs(), plan, StartCall(Abs(), plan));
      c := |calls|;
      calls := calls + [Call(plan, 0, Client, [], Active)];
    }

    // One level of the recursion of call `c` over its plan.
    method ExecCursor(c: Cid, handler: Cid -> int)
      requires Valid() && Enabled(Abs(), Advance(c, handler(c)))
      modifies this`calls, this`queue, this`log
      ensures Valid() && Abs() == AdvanceCall(old(Abs()), c, handler(c))
    {
      StepKeeps(Abs(), Advance(c, handler(c)));
      var call := calls[c];
      if call.index >= |call.plan| {
        var x := handler(c);
        log := log + [HandlerRun(c, call.loc, x)];
        calls := calls[c := call.(status := Unwinding(x))];
        return;
      }
      match call.plan[call.index] {
        case Rpc(server) =>
          calls := calls[c := call.(index := call.index + 1, loc := AtRpc(server))];
        case Thread(worker) =>
          if call.loc == AtThread(worker) {
            calls := calls[c := call.(index := call.index + 1)];
          } else {
            queue := queue[worker := (if worker in queue then queue[worker] else []) + [c]];
            calls := calls[c := call.(index := call.index + 1, status := Queued(worker))];
          }
      }
    }

    // The worker takes the next command off its queue.
    method TakeCommand(t: Name)
      requires Valid() && Enabled(Abs(), Take(t))
      modifies this`calls, this`queue, this`busy
      ensures Valid() && Abs() == TakeJob(old(Abs()), t)
      ensures t in busy && t in queue && old(queue)[t] == [busy[t]] + queue[t]
    {
      StepKeeps(Abs(), Take(t));
      var c := queue[t][0];
      var call := calls[c];
      calls := calls[c := call.(status := Active, loc := AtThread(t), stack := call.stack + [t])];
      queue, busy := queue[t := queue[t][1..]], busy[t := c];
    }

    // The job at the top of the stack of `c` ends and hands over its result.
    method SendResult(c: Cid)
      requires Valid() && Enabled(Abs(), Return(c))
      modifies this`calls, this`busy
      ensures Valid() && Abs() == ReturnCall(old(Abs()), c)
      ensures var ts := old(calls)[c].stack;
              if ts == [] then calls[c].status.Done?
              else
                && ts[|ts| - 1] !in busy
                && forall k :: 0 <= k < |ts| - 1 ==> ts[k] in busy && busy[ts[k]] == c
    {
      StepKeeps(Abs(), Return(c));
      assert CallOk(Abs(), c);
      var call := calls[c];
      if call.stack == [] {
        calls := calls[c := call.(status := Done(call.status.x))];
      } else {
        var n := |call.stack| - 1;
        calls, busy := calls[c := call.(stack := call.stack[..n])], busy - {call.stack[n]};
      }
    }

    method Move(a: Action, handler: Cid -> int)
      requires Valid() && Moves(Abs(), a) && (a.Advance? ==> a.x == handler(a.c))
      modifies this`calls, this`queue, this`busy, this`log
      ensures Valid() && Abs() == Step(old(Abs()), a)
    {
      match a {
        case Advance(c, _) => ExecCursor(c, handler);
        case Take(t) => TakeCommand(t);
        case Return(c) => SendResult(c);
      }
    }

    // Looks for something that can move.
    method Pick(handler: Cid -> int) returns (a: Action)
      requires Valid()
      ensures a.Advance? ==> a.x == handler(a.c)
      ensures a.Start? <==> forall b :: !Moves(Abs(), b)
      ensures !a.Start? ==> Moves(Abs(), a)
    {
      var c := 0;
      while c < |calls|
        invariant 0 <= c <= |calls|
        invariant forall d :: 0 <= d < c ==>
                    calls[d].status.Done? || (calls[d].status.Queued? && calls[d].status.t in busy)
      {
        assert CallOk(Abs(), c);
        match calls[c].status {
          case Active =>
            a := Advance(c, handler(c));
            assert Moves(Abs(), a);
            return;
          case Unwinding(_) =>
            a := Return(c);
            assert Moves(Abs(), a);
            return;
          case Queued(t) =>
            assert WorkerOk(Abs(), t);
            if t !in busy {
              assert queue[t][0] in Jobs(Abs(), t);
              a := Take(t);
              assert Moves(Abs(), a);
              return;
            }
          case Done(_) =>
        }
        c := c + 1;
      }
      forall b ensures !Moves(Abs(), b) {
        match b {
          case Take(t) =>
            assert WorkerOk(Abs(), t);
            if t in queue && queue[t] != [] { assert queue[t][0] in Jobs(Abs(), t); }
          case _ =>
        }
      }
      return Start([]);
    }

    // What moves at turn `k`: what the order says, if that can move, or else something that can.
    method Next(handler: Cid -> int, order: nat -> Action, k: nat) returns (a: Action)
      requires Valid()
      ensures a.Advance? ==> a.x == handler(a.c)
      ensures a.Start? <==> forall b :: !Moves(Abs(), b)
      ensures !a.Start? ==> Moves(Abs(), a)
    {
      a := order(k);
      if a.Advance? { a := Advance(a.c, handler(a.c)); }
      if a.Start? || !Enabled(Abs(), a) {
        a := Pick(handler);
      } else {
        assert Moves(Abs(), a);
      }
    }

    /** Runs the calls, in any order, until nothing moves any more, which happens after a bounded
        number of moves; with ordered plans, all calls have then returned, each with what its handler
        answered. */
    method Drive(handler: Cid -> int, order: nat -> Action, ghost rank: Name -> int)
      requires Valid()
      modifies this`calls, this`queue, this`busy, this`log
      ensures Valid() && |calls| == |old(calls)|
      ensures forall a :: !Moves(Abs(), a)
      ensures forall c :: 0 <= c < |calls| ==> calls[c].plan == old(calls)[c].plan
      ensures AllOrdered(rank, old(Abs())) ==>
                AllReturned(Abs()) && forall c :: 0 <= c < |calls| ==> RunOf(Abs(), c) in log
      ensures AllOrdered(rank, old(Abs())) ==>
                forall c :: 0 <= c < |calls| && !Ran(old(Abs()), c) ==> calls[c].status == Done(handler(c))
    {
      ghost var acts, s := [], Abs();
      IndexedAlways(s);
      var a := Next(handler, order, 0);
      var k := 1;
      while !a.Start?
        invariant Valid() && Indexed(Abs()) && Drove(handler, s, acts, Abs())
        invariant a.Start? <==> forall b :: !Moves(Abs(), b)
        invariant !a.Start? ==> Moves(Abs(), a) && (a.Advance? ==> a.x == handler(a.c))
        decreases TotalWork(calls)
      {
        DrivesOn(handler, s, acts, Abs(), a);
        acts := acts + [a];
        Move(a, handler);
        a := Next(handler, order, k);
        k := k + 1;
      }
      if AllOrdered(rank, s) {
        AllCallsReturn(rank, s, acts);
        HandlersAnswer(handler, s, acts, Abs());
      }
    }

    /** A call from outside, up to its result: together with the calls already under way, all
        with ordered plans, it returns what its own handler answers. */
    method ExecuteSync(plan: Plan, handler: Cid -> int, order: nat -> Action, ghost rank: Name -> int) returns (x: int)
      requires Valid() && Known(Abs(), plan) && AllOrdered(rank, Abs()) && Ordered(rank, plan)
      modifies this`calls, this`queue, this`busy, this`log
      ensures Valid() && AllReturned(Abs()) && |calls| == |old(calls)| + 1
      ensures x == handler(|old(calls)|) && HandlerRun(|old(calls)|, Destination(plan), x) in log
    {
      var c := Execute(plan);
      Drive(handler, order, rank);
      assert RunOf(Abs(), c) in log;
      x := calls[c].status.x;
    }
  }

  // `t` is what moves have made of `s`; the handlers run meanwhile have answered as they do.
  ghost predicate Drove(handler: Cid -> int, s: State, acts: seq<Action>, t: State) {
    && EachMoves(s, acts) && t == Run(s, acts)
    && |t.calls| == |s.calls| && (forall c :: 0 <= c < |s.calls| ==> t.calls[c].plan == s.calls[c].plan)
    && s.log <= t.log && (forall k :: |s.log| <= k < |t.log| ==> t.log[k].x == handler(t.log[k].c))
  }

  lemma DrivesOn(handler: Cid -> int, s: State, acts: seq<Action>, t: State, a: Action)
    requires Drove(handler, s, acts, t) && Inv(t) && Moves(t, a) && (a.Advance? ==> a.x == handler(a.c))
    ensures Indexed(t) && Indexed(Step(t, a)) && TotalWork(Step(t, a).calls) < TotalWork(t.calls)
    ensures Drove(handler, s, acts + [a], Step(t, a))
  {
    MoveWorks(t, a);
    PlansStay(t, a);
    Appended(s, acts, a);
  }

  lemma HandlersAnswer(handler: Cid -> int, s: State, acts: seq<Action>, t: State)
    requires Inv(s) && Inv(t) && Drove(handler, s, acts, t) && AllReturned(t)
    ensures forall c :: 0 <= c < |t.calls| && !Ran(s, c) ==> t.calls[c].status == Done(handler(c))
  {
    forall c | 0 <= c < |t.calls| && !Ran(s, c) ensures t.calls[c].status == Done(handler(c)) {
      assert Ran(t, c);
      var k :| 0 <= k < |t.log| && t.log[k] == RunOf(t, c);
    }
  }
}
