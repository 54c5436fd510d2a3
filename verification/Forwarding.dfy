/** What the nested forwarding executor promises: handlers run once and at their destination,
    no deadlock when all plans enter the workers in one order, and a bound on the work. */
module Forwarding {
  import opened Executor

  lemma {:induction false} Always(workers: set<Name>, servers: set<Name>, acts: seq<Action>)
    ensures Inv(Run(Initial(workers, servers), acts))
  {
    var s := Initial(workers, servers);
    forall t: Name ensures WorkerOk(s, t) {
      assert Jobs(s, t) == [];
    }
    RunKeeps(s, acts);
  }

  /** In every run a handler runs at most once for each call and only where its plan leads; a
      call that has returned has run it, and returns what the handler answered. */
  lemma {:induction false} HandlersRunOnce(workers: set<Name>, servers: set<Name>, acts: seq<Action>, c: Cid)
    requires c < |Run(Initial(workers, servers), acts).calls|
    ensures var s := Run(Initial(workers, servers), acts);
            (forall j, k :: 0 <= j < k < |s.log| ==> s.log[j].c != s.log[k].c) &&
            (forall h :: h in s.log && h.c == c ==> h.at == Destination(s.calls[c].plan)) &&
            (s.calls[c].status.Done? ==> RunOf(s, c) in s.log) &&
            (forall h :: h in s.log && h.c == c && s.calls[c].status.Done? ==> s.calls[c].status.x == h.x)
  {
    Always(workers, servers, acts);
    assert Ran(Run(Initial(workers, servers), acts), c) || !Ran(Run(Initial(workers, servers), acts), c);
  }

  // ----- waiting

  // Call `c` waits for a worker that is in call `d`.
  predicate WaitsFor(s: State, c: Cid, d: Cid) {
    && c < |s.calls| && d < |s.calls| && s.calls[c].status.Queued?
    && s.calls[c].status.t in s.busy && s.busy[s.calls[c].status.t] == d
  }

  // Plans enter the workers in strictly increasing order.
  predicate Ordered(rank: Name -> int, plan: Plan) {
    var e := Entered(Client, plan, 0);
    forall i, j :: 0 <= i < j < |e| ==> rank(e[i]) < rank(e[j])
  }

  predicate AllOrdered(rank: Name -> int, s: State) {
    forall c :: 0 <= c < |s.calls| ==> Ordered(rank, s.calls[c].plan)
  }

  // Whoever is in a worker another call waits for, and waits itself, waits for a higher one.
  lemma WaitsUpward(rank: Name -> int, s: State, c: Cid)
    requires Inv(s) && AllOrdered(rank, s) && c < |s.calls| && s.calls[c].status.Queued?
    ensures forall k :: 0 <= k < |s.calls[c].stack| ==> rank(s.calls[c].stack[k]) < rank(s.calls[c].status.t)
  {
    var call := s.calls[c];
    assert CallOk(s, c) && Ordered(rank, call.plan);
    var e := Entered(Client, call.plan, 0);
    forall k | 0 <= k < |call.stack| ensures rank(call.stack[k]) < rank(call.status.t) {
      assert e[k] == call.stack[k] && e[|call.stack|] == call.status.t;
    }
  }

  lemma NextIsHigher(rank: Name -> int, s: State, c: Cid, d: Cid)
    requires Inv(s) && AllOrdered(rank, s) && WaitsFor(s, c, d) && s.calls[d].status.Queued?
    ensures rank(s.calls[c].status.t) < rank(s.calls[d].status.t)
  {
    assert WorkerOk(s, s.calls[c].status.t);
    WaitsUpward(rank, s, d);
  }

  // Calls of which each waits for the next.
  predicate Chain(s: State, cs: seq<Cid>) {
    forall k :: 0 <= k < |cs| - 1 ==> WaitsFor(s, cs[k], cs[k + 1])
  }

  lemma {:induction false} ChainsClimb(rank: Name -> int, s: State, cs: seq<Cid>)
    requires Inv(s) && AllOrdered(rank, s) && Chain(s, cs) && |cs| >= 2
    requires cs[|cs| - 1] < |s.calls| && s.calls[cs[|cs| - 1]].status.Queued?
    ensures WaitsFor(s, cs[0], cs[1]) && rank(s.calls[cs[0]].status.t) < rank(s.calls[cs[|cs| - 1]].status.t)
  {
    assert WaitsFor(s, cs[0], cs[1]);
    if |cs| == 2 {
      NextIsHigher(rank, s, cs[0], cs[1]);
    } else {
      assert WaitsFor(s, cs[1], cs[2]);
      NextIsHigher(rank, s, cs[0], cs[1]);
      assert Chain(s, cs[1..]) by {
        forall k | 0 <= k < |cs[1..]| - 1 ensures WaitsFor(s, cs[1..][k], cs[1..][k + 1]) {
          assert WaitsFor(s, cs[k + 1], cs[k + 2]);
        }
      }
      ChainsClimb(rank, s, cs[1..]);
    }
  }

  /** The wait-for graph is acyclic in every run whose plans are ordered. */
  lemma {:induction false} NoCycle(rank: Name -> int, workers: set<Name>, servers: set<Name>, acts: seq<Action>,
                                   cs: seq<Cid>)
    requires var s := Run(Initial(workers, servers), acts); AllOrdered(rank, s) && |cs| >= 2 && Chain(s, cs)
    ensures cs[0] != cs[|cs| - 1]
  {
    var s := Run(Initial(workers, servers), acts);
    Always(workers, servers, acts);
    assert WaitsFor(s, cs[0], cs[1]);
    if cs[0] == cs[|cs| - 1] { ChainsClimb(rank, s, cs); }
  }

  // ----- progress

  // An action other than the start of a call.
  predicate Moves(s: State, a: Action) { !a.Start? && Enabled(s, a) }

  function Above(rank: Name -> int, s: State, t: Name): set<Name> {
    set u | u in s.busy && rank(t) <= rank(u)
  }

  // Follows the calls that wait for each other up to one that can go on.
  lemma {:induction false} Unblocks(rank: Name -> int, s: State, c: Cid) returns (a: Action)
    requires Inv(s) && AllOrdered(rank, s) && c < |s.calls| && s.calls[c].status.Queued?
    ensures Moves(s, a)
    decreases Above(rank, s, s.calls[c].status.t)
  {
    assert CallOk(s, c);
    var t := s.calls[c].status.t;
    assert WorkerOk(s, t);
    if t !in s.busy {
      assert s.queue[t][0] in Jobs(s, t);
      a := Take(t);
    } else {
      var d := s.busy[t];
      assert CallOk(s, d);
      match s.calls[d].status {
        case Active => a := Advance(d, 0);
        case Unwinding(_) => a := Return(d);
        case Done(_) => assert false;
        case Queued(u) =>
          NextIsHigher(rank, s, c, d);
          assert t in Above(rank, s, t) && t !in Above(rank, s, u);
          assert Above(rank, s, u) <= Above(rank, s, t);
          a := Unblocks(rank, s, d);
      }
    }
  }

  /** No deadlock: as long as some call has not returned, some call can go on. */
  lemma {:induction false} NoDeadlock(rank: Name -> int, workers: set<Name>, servers: set<Name>, acts: seq<Action>,
                                      c: Cid)
    requires var s := Run(Initial(workers, servers), acts);
             AllOrdered(rank, s) && c < |s.calls| && !s.calls[c].status.Done?
    ensures exists a :: Moves(Run(Initial(workers, servers), acts), a)
  {
    var s := Run(Initial(workers, servers), acts);
    Always(workers, servers, acts);
    assert CallOk(s, c);
    var a;
    match s.calls[c].status {
      case Active => a := Advance(c, 0);
      case Unwinding(_) => a := Return(c);
      case Queued(_) => a := Unblocks(rank, s, c);
    }
    assert Moves(s, a);
  }

  // ----- how long it takes

  // The actions a call still needs.
  function Work(call: Call): nat
    requires call.index <= |call.plan|
  {
    match call.status
    case Active => 4 * (|call.plan| - call.index) + |call.stack| + 2
    case Queued(_) => 4 * (|call.plan| - call.index) + |call.stack| + 4
    case Unwinding(_) => |call.stack| + 1
    case Done(_) => 0
  }

  function TotalWork(calls: seq<Call>): nat
    requires forall c :: 0 <= c < |calls| ==> calls[c].index <= |calls[c].plan|
  {
    if calls == [] then 0 else TotalWork(calls[..|calls| - 1]) + Work(calls[|calls| - 1])
  }

  lemma {:induction false} LessWork(calls: seq<Call>, c: Cid, call: Call)
    requires forall d :: 0 <= d < |calls| ==> calls[d].index <= |calls[d].plan|
    requires c < |calls| && call.index <= |call.plan| && Work(call) < Work(calls[c])
    ensures TotalWork(calls[c := call]) < TotalWork(calls)
  {
    var n := |calls| - 1;
    if c < n {
      LessWork(calls[..n], c, call);
      assert calls[c := call][..n] == calls[..n][c := call];
    } else {
      assert calls[c := call][..n] == calls[..n];
    }
  }

  predicate Indexed(s: State) {
    forall c :: 0 <= c < |s.calls| ==> s.calls[c].index <= |s.calls[c].plan|
  }

  lemma IndexedAlways(s: State)
    requires Inv(s)
    ensures Indexed(s)
  {
    forall c | 0 <= c < |s.calls| ensures s.calls[c].index <= |s.calls[c].plan| {
      assert CallOk(s, c);
    }
  }

  lemma MoveWorks(s: State, a: Action)
    requires Inv(s) && Moves(s, a)
    ensures Indexed(s) && Indexed(Step(s, a))
    ensures TotalWork(Step(s, a).calls) < TotalWork(s.calls) && |Step(s, a).calls| == |s.calls|
  {
    IndexedAlways(s);
    StepKeeps(s, a);
    IndexedAlways(Step(s, a));
    var c := match a case Take(t) => s.queue[t][0] case Advance(c, _) => c case Return(c) => c case _ => 0;
    if a.Take? { assert WorkerOk(s, a.t) && c in Jobs(s, a.t); }
    LessWork(s.calls, c, Step(s, a).calls[c]);
  }

  // A run in which every action moves some call.
  predicate EachMoves(s: State, acts: seq<Action>) {
    acts == [] ||
    var n := |acts| - 1;
    EachMoves(s, acts[..n]) && Moves(Run(s, acts[..n]), acts[n])
  }

  lemma {:induction false} Appended(s: State, acts: seq<Action>, a: Action)
    requires EachMoves(s, acts) && Moves(Run(s, acts), a)
    ensures EachMoves(s, acts + [a]) && Run(s, acts + [a]) == Step(Run(s, acts), a)
  {
    assert (acts + [a])[..|acts|] == acts;
  }

  /** The work is bounded: whatever the order of the actions, calls with plans of n steps
      need no more than 4n + 2 each. */
  lemma {:induction false} WorkIsBounded(s: State, acts: seq<Action>)
    requires Inv(s) && EachMoves(s, acts)
    ensures Indexed(s) && Indexed(Run(s, acts))
    ensures |acts| + TotalWork(Run(s, acts).calls) <= TotalWork(s.calls)
  {
    IndexedAlways(s);
    if acts != [] {
      var n := |acts| - 1;
      WorkIsBounded(s, acts[..n]);
      RunKeeps(s, acts[..n]);
      MoveWorks(Run(s, acts[..n]), acts[n]);
    }
  }

  lemma PlansStay(s: State, a: Action)
    ensures var t := Step(s, a);
            |s.calls| <= |t.calls| && forall c :: 0 <= c < |s.calls| ==> t.calls[c].plan == s.calls[c].plan
  {
  }

  lemma MoveOrdered(rank: Name -> int, s: State, a: Action)
    requires Inv(s) && AllOrdered(rank, s) && Moves(s, a)
    ensures AllOrdered(rank, Step(s, a)) && |Step(s, a).calls| == |s.calls|
  {
    PlansStay(s, a);
    MoveWorks(s, a);
    forall c | 0 <= c < |Step(s, a).calls| ensures Ordered(rank, Step(s, a).calls[c].plan) {
      assert Ordered(rank, s.calls[c].plan);
    }
  }

  predicate AllReturned(s: State) { forall c :: 0 <= c < |s.calls| ==> s.calls[c].status.Done? }

  /** With ordered plans every run that goes on as long as it can returns all calls: each
      handler has then run once, at the destination of its plan, and its call has returned
      what it answered. */
  lemma {:induction false} AllCallsReturn(rank: Name -> int, s: State, acts: seq<Action>)
    requires Inv(s) && AllOrdered(rank, s) && EachMoves(s, acts)
    requires forall a :: !Moves(Run(s, acts), a)
    ensures AllReturned(Run(s, acts))
    ensures var t := Run(s, acts);
            forall c :: 0 <= c < |t.calls| ==> RunOf(t, c) in t.log
  {
    OrderedAlong(rank, s, acts);
    RunKeeps(s, acts);
    var t := Run(s, acts);
    forall c | 0 <= c < |t.calls| ensures t.calls[c].status.Done? {
      if t.calls[c].status.Queued? {
        var a := Unblocks(rank, t, c);
      } else {
        assert CallOk(t, c) && !Moves(t, Advance(c, 0)) && !Moves(t, Return(c));
      }
    }
    forall c | 0 <= c < |t.calls| ensures RunOf(t, c) in t.log {
      assert Ran(t, c);
    }
  }

  lemma {:induction false} OrderedAlong(rank: Name -> int, s: State, acts: seq<Action>)
    requires Inv(s) && AllOrdered(rank, s) && EachMoves(s, acts)
    ensures AllOrdered(rank, Run(s, acts))
  {
    if acts != [] {
      var n := |acts| - 1;
      OrderedAlong(rank, s, acts[..n]);
      RunKeeps(s, acts[..n]);
      MoveOrdered(rank, Run(s, acts[..n]), acts[n]);
    }
  }

  // ----- which calls can return at all

  predicate Repeats(plan: Plan) { !NoRepeats(Entered(Client, plan, 0)) }

  predicate NoneRepeatsAndRan(s: State) {
    forall c :: 0 <= c < |s.calls| && Ran(s, c) ==> !Repeats(s.calls[c].plan)
  }

  lemma StepRepeats(s: State, a: Action)
    requires Inv(s) && NoneRepeatsAndRan(s)
    ensures NoneRepeatsAndRan(Step(s, a))
  {
    var t := Step(s, a);
    PlansStay(s, a);
    forall c | 0 <= c < |t.calls| && Ran(t, c) ensures !Repeats(t.calls[c].plan) {
      assert c < |s.calls|;
      if !Ran(s, c) {
        assert CallOk(s, c);
        var call := s.calls[c];
        assert call.status.Active? && call.index == |call.plan|;
        assert call.stack + [] == call.stack;
      }
    }
  }

  /** A call whose plan enters some worker twice never runs its handler, in any run and
      whatever else goes on: it ends up waiting for a thread that waits for itself. */
  lemma {:induction false} RepeatsNeverReturn(s: State, acts: seq<Action>)
    requires Inv(s) && NoneRepeatsAndRan(s)
    ensures NoneRepeatsAndRan(Run(s, acts)) && |s.calls| <= |Run(s, acts).calls|
    ensures forall c :: 0 <= c < |s.calls| ==> Run(s, acts).calls[c].plan == s.calls[c].plan
  {
    if acts != [] {
      var n := |acts| - 1;
      RepeatsNeverReturn(s, acts[..n]);
      RunKeeps(s, acts[..n]);
      StepRepeats(Run(s, acts[..n]), acts[n]);
      PlansStay(Run(s, acts[..n]), acts[n]);
    }
  }

  // Coming back to a worker by way of a remote site is enough.
  lemma SelfDeadlock(a: Name, x: Name)
    ensures Repeats([Thread(a), Rpc(x), Thread(a)])
  {
    var plan := [Thread(a), Rpc(x), Thread(a)];
    assert Entered(AtThread(a), plan, 3) == [];
    assert Entered(AtRpc(x), plan, 2) == [a];
    assert Entered(AtThread(a), plan, 1) == [a];
    var e := Entered(Client, plan, 0);
    assert e == [a, a] && e[0] == e[1];
  }

  function Position(e: seq<Name>, t: Name): nat {
    if e == [] then 0 else if e[0] == t then 0 else 1 + Position(e[1..], t)
  }

  lemma {:induction false} PositionOf(e: seq<Name>, k: nat)
    requires NoRepeats(e) && k < |e|
    ensures Position(e, e[k]) == k
  {
    if k > 0 {
      assert e[1..][k - 1] == e[k] && e[0] != e[k];
      PositionOf(e[1..], k - 1);
    }
  }

  lemma DistinctIsOrdered(plan: Plan)
    requires !Repeats(plan)
    ensures Ordered(t => Position(Entered(Client, plan, 0), t), plan)
  {
    var e := Entered(Client, plan, 0);
    forall i, j | 0 <= i < j < |e| ensures Position(e, e[i]) < Position(e, e[j]) {
      PositionOf(e, i);
      PositionOf(e, j);
    }
  }

  // A run in which all calls return.
  lemma {:induction false} RunsToTheEnd(rank: Name -> int, s: State) returns (acts: seq<Action>)
    requires Inv(s) && AllOrdered(rank, s) && Indexed(s)
    ensures EachMoves(s, acts) && AllReturned(Run(s, acts)) && |Run(s, acts).calls| == |s.calls|
    decreases TotalWork(s.calls)
  {
    if AllReturned(s) {
      acts := [];
    } else {
      var c :| 0 <= c < |s.calls| && !s.calls[c].status.Done?;
      assert CallOk(s, c);
      var a := if s.calls[c].status.Active? then Advance(c, 0) else Return(c);
      if s.calls[c].status.Queued? { a := Unblocks(rank, s, c); }
      MoveWorks(s, a);
      MoveOrdered(rank, s, a);
      StepKeeps(s, a);
      var rest := RunsToTheEnd(rank, Step(s, a));
      acts := [a] + rest;
      Prepended(s, a, rest);
    }
  }

  lemma {:induction false} Prepended(s: State, a: Action, acts: seq<Action>)
    requires Moves(s, a) && EachMoves(Step(s, a), acts)
    ensures EachMoves(s, [a] + acts) && Run(s, [a] + acts) == Run(Step(s, a), acts)
  {
    var all := [a] + acts;
    if acts == [] {
      assert all == [a] && all[..0] == [];
    } else {
      var n := |acts| - 1;
      Prepended(s, a, acts[..n]);
      assert all[..n + 1] == [a] + acts[..n];
    }
  }

  /** A single call on its own returns if and only if the worker threads its plan enters,
      once hops to the current location are elided, are pairwise distinct. */
  lemma ReturnsIff(workers: set<Name>, servers: set<Name>, plan: Plan)
    requires Known(Initial(workers, servers), plan)
    ensures var s := StartCall(Initial(workers, servers), plan);
            (exists acts :: EachMoves(s, acts) && AllReturned(Run(s, acts))) <==> !Repeats(plan)
  {
    var s := StartCall(Initial(workers, servers), plan);
    Always(workers, servers, []);
    StartKeeps(Initial(workers, servers), plan, s);
    IndexedAlways(s);
    if !Repeats(plan) {
      DistinctIsOrdered(plan);
      var rank := t => Position(Entered(Client, plan, 0), t);
      assert AllOrdered(rank, s);
      var acts := RunsToTheEnd(rank, s);
      assert EachMoves(s, acts) && AllReturned(Run(s, acts));
    }
    forall acts | EachMoves(s, acts) && AllReturned(Run(s, acts)) ensures !Repeats(plan) {
      RepeatsNeverReturn(s, acts);
      assert Ran(Run(s, acts), 0);
    }
  }
}
