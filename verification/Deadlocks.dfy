/** When two forwarded calls can block each other for ever. A call holds the workers it has
    entered, outermost first, and waits for the next one; so it is the order in which the two
    plans enter their workers that decides. */
module Deadlocks {
  import opened Executor
  import opened Forwarding

  function Workers(plan: Plan): seq<Name> { Entered(Client, plan, 0) }

  predicate Disjoint(xs: seq<Name>, ys: seq<Name>) { forall x :: x in xs ==> x !in ys }

  // The first call can come to wait for `e[i]` while the second one waits for `f[j]`.
  predicate CrossesAt(e: seq<Name>, f: seq<Name>, i: nat, j: nat) {
    i < |e| && j < |f| && e[i] in f[..j] && f[j] in e[..i] && Disjoint(e[..i], f[..j])
  }

  // Some worker of each comes later in the other, and what they hold by then is not shared:
  // a worker both enter before that lets only one of them get so far.
  predicate Crosses(p: Plan, q: Plan) {
    var e, f := Workers(p), Workers(q);
    exists i, j :: 0 <= i < |e| && 0 <= j < |f| && CrossesAt(e, f, i, j)
  }

  // Some call has not returned, and none can go on.
  ghost predicate Stuck(s: State) { !AllReturned(s) && forall a :: !Moves(s, a) }

  // The moves lead into such a state.
  ghost predicate LeadsToStuck(s: State, acts: seq<Action>) { EachMoves(s, acts) && Stuck(Run(s, acts)) }

  function Pair(workers: set<Name>, servers: set<Name>, p: Plan, q: Plan): State {
    StartCall(StartCall(Initial(workers, servers), p), q)
  }

  // ----- who waits in a stuck state

  lemma StuckCallWaits(s: State, c: Cid)
    requires Inv(s) && Stuck(s) && c < |s.calls| && !s.calls[c].status.Done?
    ensures s.calls[c].status.Queued? && s.calls[c].status.t in s.busy
    ensures var d := s.busy[s.calls[c].status.t];
            d < |s.calls| && s.calls[c].status.t in s.calls[d].stack && !s.calls[d].status.Done?
  {
    assert CallOk(s, c) && !Moves(s, Advance(c, 0)) && !Moves(s, Return(c));
    var t := s.calls[c].status.t;
    assert WorkerOk(s, t) && c in Jobs(s, t);
    assert s.queue[t][0] in Jobs(s, t) && !Moves(s, Take(t));
    assert CallOk(s, s.busy[t]);
  }

  // Where a waiting call is in the order of its workers.
  lemma WaitsAt(s: State, c: Cid) returns (i: nat)
    requires Inv(s) && c < |s.calls| && s.calls[c].status.Queued?
    ensures var e := Workers(s.calls[c].plan);
            i < |e| && e[i] == s.calls[c].status.t && e[..i] == s.calls[c].stack
  {
    assert CallOk(s, c);
    i := |s.calls[c].stack|;
  }

  lemma HoldsNoOther(s: State, c: Cid)
    requires Inv(s) && Stuck(s) && c < |s.calls| && s.calls[c].status.Queued? && !Repeats(s.calls[c].plan)
    ensures s.calls[c].status.t !in s.calls[c].stack
  {
    var i := WaitsAt(s, c);
    var e := Workers(s.calls[c].plan);
    forall k | 0 <= k < |s.calls[c].stack| ensures s.calls[c].stack[k] != s.calls[c].status.t {
      assert e[k] == s.calls[c].stack[k] && e[k] != e[i];
    }
  }

  lemma StacksDisjoint(s: State, c: Cid, d: Cid)
    requires Inv(s) && c < |s.calls| && d < |s.calls| && c != d
    ensures Disjoint(s.calls[c].stack, s.calls[d].stack)
  {
    assert CallOk(s, c) && CallOk(s, d);
  }

  lemma StuckCrosses(s: State)
    requires Inv(s) && Stuck(s) && |s.calls| == 2 && !Repeats(s.calls[0].plan) && !Repeats(s.calls[1].plan)
    ensures Crosses(s.calls[0].plan, s.calls[1].plan)
  {
    var c: Cid :| c < 2 && !s.calls[c].status.Done?;
    StuckCallWaits(s, c);
    HoldsNoOther(s, c);
    StuckCallWaits(s, 1 - c);
    HoldsNoOther(s, 1 - c);
    var i := WaitsAt(s, 0);
    var j := WaitsAt(s, 1);
    StacksDisjoint(s, 0, 1);
    assert CrossesAt(Workers(s.calls[0].plan), Workers(s.calls[1].plan), i, j);
  }

  // ----- the way into a stuck state

  // Call `c` holds the first `k` of its workers and goes on.
  predicate Holding(s: State, c: Cid, k: nat) {
    && c < |s.calls| && s.calls[c].status.Active?
    && k <= |Workers(s.calls[c].plan)| && s.calls[c].stack == Workers(s.calls[c].plan)[..k]
  }

  // Nothing is queued anywhere.
  ghost predicate Quiet(s: State) { forall t: Name :: Jobs(s, t) == [] }

  lemma ToGo(s: State, c: Cid, k: nat)
    requires Inv(s) && Holding(s, c, k) && k < |Workers(s.calls[c].plan)|
    ensures var call := s.calls[c];
            call.index < |call.plan| && Entered(call.loc, call.plan, call.index) == Workers(call.plan)[k..]
  {
    assert CallOk(s, c);
    var call := s.calls[c];
    var rest := Entered(call.loc, call.plan, call.index);
    assert Workers(call.plan) == call.stack + rest;
    assert rest == Workers(call.plan)[k..];
  }

  // `t` is what moves of call `c` have made of `s`.
  predicate MovedAlone(s: State, t: State, c: Cid) {
    && c < |s.calls| == |t.calls| && t.calls[c].plan == s.calls[c].plan
    && forall d :: 0 <= d < |s.calls| && d != c ==> t.calls[d] == s.calls[d]
  }

  lemma {:induction false} RunsJoined(s: State, a: seq<Action>, b: seq<Action>)
    requires EachMoves(s, a) && EachMoves(Run(s, a), b)
    ensures EachMoves(s, a + b) && Run(s, a + b) == Run(Run(s, a), b)
  {
    if b == [] {
      assert a + b == a;
    } else {
      var n := |b| - 1;
      RunsJoined(s, a, b[..n]);
      assert (a + b)[..|a + b| - 1] == a + b[..n];
    }
  }

  lemma OneMove(s: State, a: Action)
    requires Moves(s, a)
    ensures EachMoves(s, [a]) && Run(s, [a]) == Step(s, a)
  {
    assert [a][..0] == [] && EachMoves(s, []) && Run(s, []) == s;
  }

  // The call waits in the queue of its next worker.
  predicate WaitingFor(s: State, c: Cid, k: nat) {
    && c < |s.calls| && k < |Workers(s.calls[c].plan)|
    && s.calls[c].stack == Workers(s.calls[c].plan)[..k]
    && s.calls[c].status == Queued(Workers(s.calls[c].plan)[k])
  }

  ghost predicate QueuesUp(s: State, t: State, c: Cid, w0: Name) {
    t.busy == s.busy && forall w: Name :: Jobs(t, w) == Jobs(s, w) + (if w == w0 then [c] else [])
  }

  // One step of a call that holds `k` workers and has more to enter.
  lemma StepOn(s: State, c: Cid, k: nat, t: State)
    requires Inv(s) && Holding(s, c, k) && k < |Workers(s.calls[c].plan)| && t == Step(s, Advance(c, 0))
    ensures Moves(s, Advance(c, 0)) && MovedAlone(s, t, c) && t.calls[c].index == s.calls[c].index + 1
    ensures if t.calls[c].status.Active? then Holding(t, c, k) && t.busy == s.busy && t.queue == s.queue
            else WaitingFor(t, c, k) && QueuesUp(s, t, c, Workers(s.calls[c].plan)[k])
  {
    ToGo(s, c, k);
    var call := s.calls[c];
    var rest := Entered(call.loc, call.plan, call.index);
    if !t.calls[c].status.Active? {
      var w0 := call.plan[call.index].worker;
      assert rest[0] == w0;
    }
  }

  // A call that holds `k` workers can go on until it waits for the next one.
  lemma {:induction false} GoesToWait(s: State, c: Cid, k: nat) returns (acts: seq<Action>)
    requires Inv(s) && Holding(s, c, k) && k < |Workers(s.calls[c].plan)|
    ensures var t := Run(s, acts);
            && EachMoves(s, acts) && Inv(t) && MovedAlone(s, t, c) && WaitingFor(t, c, k)
            && QueuesUp(s, t, c, Workers(s.calls[c].plan)[k])
    decreases if c < |s.calls| then |s.calls[c].plan| - s.calls[c].index else 0
  {
    var a := Advance(c, 0);
    var t := Step(s, a);
    ToGo(s, c, k);
    StepOn(s, c, k, t);
    OneMove(s, a);
    StepKeeps(s, a);
    acts := [a];
    if t.calls[c].status.Active? {
      var more := GoesToWait(t, c, k);
      RunsJoined(s, [a], more);
      acts := [a] + more;
      assert forall w: Name :: Jobs(t, w) == Jobs(s, w);
    }
  }

  lemma Enters(s: State, c: Cid, k: nat, t: State)
    requires Inv(s) && WaitingFor(s, c, k)
    requires var w := Workers(s.calls[c].plan)[k]; w !in s.busy && Jobs(s, w) == [c] && t == Step(s, Take(w))
    ensures var w := Workers(s.calls[c].plan)[k];
            && Moves(s, Take(w)) && MovedAlone(s, t, c) && Holding(t, c, k + 1)
            && t.busy == s.busy[w := c] && Jobs(t, w) == []
            && forall u: Name :: u != w ==> Jobs(t, u) == Jobs(s, u)
  {
    var e := Workers(s.calls[c].plan);
    assert e[..k] + [e[k]] == e[..k + 1];
  }

  // With its workers free, a call can go on until it holds `m` of them.
  lemma {:induction false} Climbs(s: State, c: Cid, k: nat, m: nat) returns (acts: seq<Action>)
    requires Inv(s) && Quiet(s) && Holding(s, c, k) && !Repeats(s.calls[c].plan)
    requires k <= m <= |Workers(s.calls[c].plan)|
    requires forall l :: k <= l < m ==> Workers(s.calls[c].plan)[l] !in s.busy
    ensures var t := Run(s, acts);
            && EachMoves(s, acts) && Inv(t) && Quiet(t) && MovedAlone(s, t, c) && Holding(t, c, m)
            && forall w :: w in t.busy ==> w in s.busy || w in Workers(s.calls[c].plan)[..m]
    decreases m - k
  {
    if k == m {
      acts := [];
    } else {
      var e := Workers(s.calls[c].plan);
      var first := GoesToWait(s, c, k);
      var u := Run(s, first);
      assert Jobs(s, e[k]) == [];
      var a := Take(e[k]);
      var t := Step(u, a);
      Enters(u, c, k, t);
      OneMove(u, a);
      StepKeeps(u, a);
      RunsJoined(s, first, [a]);
      assert Quiet(t);
      var more := Climbs(t, c, k + 1, m);
      RunsJoined(s, first + [a], more);
      acts := first + [a] + more;
      assert e[k] in e[..m];
    }
  }

  lemma QueuedBehind(s: State, t: Name)
    requires WorkerOk(s, t) && forall c :: 0 <= c < |s.calls| && s.calls[c].status == Queued(t) ==> t in s.busy
    ensures !Moves(s, Take(t))
  {
    if t in s.queue && s.queue[t] != [] { assert s.queue[t][0] in Jobs(s, t); }
  }

  // Two waiting calls, each for a worker the other one holds.
  lemma Blocked(s: State, i: nat, j: nat)
    requires Inv(s) && |s.calls| == 2 && WaitingFor(s, 0, i) && WaitingFor(s, 1, j)
    requires CrossesAt(Workers(s.calls[0].plan), Workers(s.calls[1].plan), i, j)
    ensures Stuck(s)
  {
    assert CallOk(s, 0) && CallOk(s, 1);
    assert s.calls[0].status.t in s.busy && s.calls[1].status.t in s.busy;
    forall t: Name ensures !Moves(s, Take(t)) {
      QueuedBehind(s, t);
    }
    assert !s.calls[0].status.Done?;
  }

  lemma PairStarts(workers: set<Name>, servers: set<Name>, p: Plan, q: Plan)
    requires Known(Initial(workers, servers), p) && Known(Initial(workers, servers), q)
    ensures var s := Pair(workers, servers, p, q);
            && Inv(s) && Quiet(s) && s.busy == map[] && |s.calls| == 2
            && s.calls[0].plan == p && s.calls[1].plan == q && Holding(s, 0, 0) && Holding(s, 1, 0)
  {
    var s := Initial(workers, servers);
    Always(workers, servers, []);
    StartKeeps(s, p, StartCall(s, p));
    StartKeeps(StartCall(s, p), q, Pair(workers, servers, p, q));
  }

  lemma CrossedGetStuck(s: State, i: nat, j: nat) returns (acts: seq<Action>)
    requires Inv(s) && Quiet(s) && s.busy == map[] && |s.calls| == 2 && Holding(s, 0, 0) && Holding(s, 1, 0)
    requires !Repeats(s.calls[0].plan) && !Repeats(s.calls[1].plan)
    requires CrossesAt(Workers(s.calls[0].plan), Workers(s.calls[1].plan), i, j)
    ensures LeadsToStuck(s, acts)
  {
    var a := Climbs(s, 0, 0, i);
    var s1 := Run(s, a);
    var b := Climbs(s1, 1, 0, j);
    var s2 := Run(s1, b);
    RunsJoined(s, a, b);
    var x := GoesToWait(s2, 0, i);
    var s3 := Run(s2, x);
    RunsJoined(s, a + b, x);
    var y := GoesToWait(s3, 1, j);
    RunsJoined(s, a + b + x, y);
    acts := a + b + x + y;
    Blocked(Run(s, acts), i, j);
  }

  // ----- runs that go on as long as they can

  lemma {:induction false} RunsOut(s: State) returns (acts: seq<Action>)
    requires Inv(s) && Indexed(s)
    ensures EachMoves(s, acts) && forall a :: !Moves(Run(s, acts), a)
    decreases TotalWork(s.calls)
  {
    if a :| Moves(s, a) {
      MoveWorks(s, a);
      StepKeeps(s, a);
      var more := RunsOut(Step(s, a));
      OneMove(s, a);
      RunsJoined(s, [a], more);
      acts := [a] + more;
    } else {
      acts := [];
    }
  }

  lemma RepeaterGetsStuck(s: State, c: Cid) returns (acts: seq<Action>)
    requires Inv(s) && c < |s.calls| && Repeats(s.calls[c].plan) && forall d :: 0 <= d < |s.calls| ==> !Ran(s, d)
    ensures LeadsToStuck(s, acts)
  {
    IndexedAlways(s);
    acts := RunsOut(s);
    RepeatsNeverReturn(s, acts);
    var t := Run(s, acts);
    assert !Ran(t, c) && !t.calls[c].status.Done?;
  }

  lemma {:induction false} SameCalls(s: State, acts: seq<Action>)
    requires Inv(s) && EachMoves(s, acts)
    ensures Inv(Run(s, acts)) && |Run(s, acts).calls| == |s.calls|
    ensures forall c :: 0 <= c < |s.calls| ==> Run(s, acts).calls[c].plan == s.calls[c].plan
  {
    if acts != [] {
      var n := |acts| - 1;
      SameCalls(s, acts[..n]);
      MoveWorks(Run(s, acts[..n]), acts[n]);
      PlansStay(Run(s, acts[..n]), acts[n]);
      StepKeeps(Run(s, acts[..n]), acts[n]);
    }
  }

  lemma PairGetsStuck(s: State) returns (acts: seq<Action>)
    requires Inv(s) && Quiet(s) && s.busy == map[] && |s.calls| == 2 && Holding(s, 0, 0) && Holding(s, 1, 0)
    requires var p, q := s.calls[0].plan, s.calls[1].plan; Repeats(p) || Repeats(q) || Crosses(p, q)
    ensures LeadsToStuck(s, acts)
  {
    var p, q := s.calls[0].plan, s.calls[1].plan;
    if Repeats(p) {
      acts := RepeaterGetsStuck(s, 0);
    } else if Repeats(q) {
      acts := RepeaterGetsStuck(s, 1);
    } else {
      var i, j :| 0 <= i < |Workers(p)| && 0 <= j < |Workers(q)| && CrossesAt(Workers(p), Workers(q), i, j);
      acts := CrossedGetStuck(s, i, j);
    }
  }

  /** Two calls can block each other for ever if and only if one of them enters a worker twice,
      or their plans cross: each waits for a worker the other one holds, and they hold none in
      common. Otherwise both return, whatever the order of the steps. */
  lemma PairDeadlocksIff(workers: set<Name>, servers: set<Name>, p: Plan, q: Plan)
    requires Known(Initial(workers, servers), p) && Known(Initial(workers, servers), q)
    ensures var s := Pair(workers, servers, p, q);
            (exists acts :: LeadsToStuck(s, acts)) <==> Repeats(p) || Repeats(q) || Crosses(p, q)
  {
    var s := Pair(workers, servers, p, q);
    PairStarts(workers, servers, p, q);
    forall acts | LeadsToStuck(s, acts) ensures Repeats(p) || Repeats(q) || Crosses(p, q) {
      SameCalls(s, acts);
      if !Repeats(p) && !Repeats(q) { StuckCrosses(Run(s, acts)); }
    }
    if Repeats(p) || Repeats(q) || Crosses(p, q) {
      var acts := PairGetsStuck(s);
      assert LeadsToStuck(s, acts);
    }
  }

  // Two workers in opposite orders are enough.
  lemma OppositeOrders(a: Name, b: Name)
    requires a != b
    ensures Crosses([Thread(a), Thread(b)], [Thread(b), Thread(a)])
    ensures !Repeats([Thread(a), Thread(b)]) && !Repeats([Thread(b), Thread(a)])
  {
    TwoWorkers(a, b);
    TwoWorkers(b, a);
    assert CrossesAt([a, b], [b, a], 1, 1);
  }

  lemma TwoWorkers(a: Name, b: Name)
    requires a != b
    ensures Workers([Thread(a), Thread(b)]) == [a, b]
  {
    var plan := [Thread(a), Thread(b)];
    assert Entered(AtThread(b), plan, 2) == [];
    assert Entered(AtThread(a), plan, 1) == [b];
  }
}
