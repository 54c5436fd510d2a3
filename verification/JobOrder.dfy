/** In which order the worker threads serve their calls. A worker takes the jobs in the order
    in which they were sent to it, and the workers a call blocks are freed innermost first.
    What was sent and taken is read off the calls, not off the queues. */
module JobOrder {
  import opened Executor
  import opened Forwarding

  // ----- which workers a plan enters

  /** The worker threads of a plan, hop by hop from its end: a hop to a thread enters it unless
      the hop before it went to the same thread. */
  function ThreadsOf(plan: Plan): seq<Name> {
    if plan == [] then []
    else
      var n := |plan| - 1;
      ThreadsOf(plan[..n]) +
      (if plan[n].Thread? && (n == 0 || plan[n - 1] != plan[n]) then [plan[n].worker] else [])
  }

  // Where a call is when its first `k` hops are done.
  function Reached(plan: Plan, k: nat): Location
    requires k <= |plan|
  {
    if k == 0 then Client else LocationOf(plan[k - 1])
  }

  lemma {:induction false} EnteredFrom(plan: Plan, k: nat)
    requires k <= |plan|
    ensures ThreadsOf(plan[..k]) + Entered(Reached(plan, k), plan, k) == ThreadsOf(plan)
    decreases |plan| - k
  {
    if k == |plan| {
      assert plan[..k] == plan;
    } else {
      EnteredFrom(plan, k + 1);
      assert plan[..k + 1][..k] == plan[..k];
      var next := Entered(LocationOf(plan[k]), plan, k + 1);
      if plan[k].Thread? && !(k > 0 && plan[k - 1] == plan[k]) {
        var w := plan[k].worker;
        assert Reached(plan, k) != LocationOf(plan[k]);
        assert ThreadsOf(plan[..k]) + ([w] + next) == ThreadsOf(plan[..k]) + [w] + next;
      } else {
        assert ThreadsOf(plan[..k + 1]) == ThreadsOf(plan[..k]) + [] == ThreadsOf(plan[..k]);
      }
    }
  }

  /** The walk from the front enters exactly these, in this order: only repeated hops to one
      thread are elided. */
  lemma EntersItsThreads(plan: Plan)
    ensures Entered(Client, plan, 0) == ThreadsOf(plan)
  {
    EnteredFrom(plan, 0);
    assert plan[..0] == [] && [] + Entered(Client, plan, 0) == Entered(Client, plan, 0);
  }

  // ----- jobs, as the calls show them

  predicate IsQueued(s: State, c: Cid, t: Name) { c < |s.calls| && s.calls[c].status == Queued(t) }

  // The calls among the first `n` that come to wait for `t` between two states.
  function Joining(s: State, u: State, t: Name, n: nat): seq<Cid> {
    if n == 0 then []
    else Joining(s, u, t, n - 1) + (if !IsQueued(s, n - 1, t) && IsQueued(u, n - 1, t) then [n - 1] else [])
  }

  // And those that go on from waiting for it.
  function Leaving(s: State, u: State, t: Name, n: nat): seq<Cid> {
    if n == 0 then []
    else
      Leaving(s, u, t, n - 1) +
      (if IsQueued(s, n - 1, t) && n <= |u.calls| && u.calls[n - 1].status.Active? then [n - 1] else [])
  }

  // The calls sent to `t` in a run, in the order in which they were.
  function Sent(s: State, acts: seq<Action>, t: Name): seq<Cid> {
    if acts == [] then []
    else
      var n := |acts| - 1;
      var u, x := Run(s, acts[..n]), Run(s, acts);
      Sent(s, acts[..n], t) + Joining(u, x, t, |x.calls|)
  }

  // The calls it took.
  function Taken(s: State, acts: seq<Action>, t: Name): seq<Cid> {
    if acts == [] then []
    else
      var n := |acts| - 1;
      var u, x := Run(s, acts[..n]), Run(s, acts);
      Taken(s, acts[..n], t) + Leaving(u, x, t, |x.calls|)
  }

  lemma {:induction false} NobodyJoins(s: State, u: State, t: Name, n: nat)
    requires forall c :: 0 <= c < n && IsQueued(u, c, t) ==> IsQueued(s, c, t)
    ensures Joining(s, u, t, n) == []
  {
    if n > 0 { NobodyJoins(s, u, t, n - 1); }
  }

  lemma {:induction false} NobodyLeaves(s: State, u: State, t: Name, n: nat)
    requires forall c :: 0 <= c < n && IsQueued(s, c, t) ==> IsQueued(u, c, t)
    ensures Leaving(s, u, t, n) == []
  {
    if n > 0 { NobodyLeaves(s, u, t, n - 1); }
  }

  lemma {:induction false} OneJoins(s: State, u: State, t: Name, n: nat, c: Cid)
    requires c < n && !IsQueued(s, c, t) && IsQueued(u, c, t)
    requires forall d :: 0 <= d < n && d != c && IsQueued(u, d, t) ==> IsQueued(s, d, t)
    ensures Joining(s, u, t, n) == [c]
  {
    if c == n - 1 { NobodyJoins(s, u, t, n - 1); } else { OneJoins(s, u, t, n - 1, c); }
  }

  lemma {:induction false} OneLeaves(s: State, u: State, t: Name, n: nat, c: Cid)
    requires c < n && IsQueued(s, c, t) && c < |u.calls| && u.calls[c].status.Active?
    requires forall d :: 0 <= d < n && d != c && IsQueued(s, d, t) ==> IsQueued(u, d, t)
    ensures Leaving(s, u, t, n) == [c]
  {
    if c == n - 1 { NobodyLeaves(s, u, t, n - 1); } else { OneLeaves(s, u, t, n - 1, c); }
  }

  // What one action does to the queue of `t`.
  predicate InOrder(s: State, u: State, t: Name) {
    Leaving(s, u, t, |u.calls|) + Jobs(u, t) == Jobs(s, t) + Joining(s, u, t, |u.calls|)
  }

  lemma SameQueue(s: State, u: State, t: Name)
    requires Jobs(u, t) == Jobs(s, t)
    requires forall c :: 0 <= c < |u.calls| ==> (IsQueued(u, c, t) <==> IsQueued(s, c, t))
    ensures InOrder(s, u, t)
  {
    NobodyJoins(s, u, t, |u.calls|);
    NobodyLeaves(s, u, t, |u.calls|);
    assert [] + Jobs(u, t) == Jobs(s, t) + [];
  }

  lemma HopInOrder(s: State, c: Cid, x: int, u: State, t: Name)
    requires Inv(s) && Enabled(s, Advance(c, x)) && u == AdvanceCall(s, c, x)
    ensures InOrder(s, u, t)
  {
    if u.calls[c].status == Queued(t) {
      OneJoins(s, u, t, |u.calls|, c);
      NobodyLeaves(s, u, t, |u.calls|);
      assert [] + Jobs(u, t) == Jobs(s, t) + [c];
    } else {
      SameQueue(s, u, t);
    }
  }

  lemma TakeInOrder(s: State, w: Name, u: State, t: Name)
    requires Inv(s) && Enabled(s, Take(w)) && u == TakeJob(s, w)
    ensures InOrder(s, u, t)
  {
    var c := s.queue[w][0];
    assert s.calls[c].status == Queued(w) by {
      assert WorkerOk(s, w) && c in Jobs(s, w);
    }
    if t == w {
      OneLeaves(s, u, t, |u.calls|, c);
      NobodyJoins(s, u, t, |u.calls|);
      assert [c] + Jobs(u, t) == Jobs(s, t) + [];
    } else {
      SameQueue(s, u, t);
    }
  }

  lemma StepInOrder(s: State, a: Action, t: Name)
    requires Inv(s)
    ensures InOrder(s, Step(s, a), t)
  {
    var u := Step(s, a);
    if !Enabled(s, a) {
      SameQueue(s, u, t);
    } else {
      match a {
        case Start(plan) => SameQueue(s, u, t);
        case Advance(c, x) => HopInOrder(s, c, x, u, t);
        case Take(w) => TakeInOrder(s, w, u, t);
        case Return(c) => SameQueue(s, u, t);
      }
    }
  }

  lemma Chained(a: seq<Cid>, b: seq<Cid>, q: seq<Cid>, l: seq<Cid>, j: seq<Cid>, r: seq<Cid>)
    requires a + q == b && l + r == q + j
    ensures (a + l) + r == b + j
  {
    assert (a + l) + r == a + (l + r) == a + (q + j) == (a + q) + j;
  }

  /** Each worker takes its jobs in the order in which they were sent to it: in every run the
      calls it has taken, followed by those still in its queue, are the calls that were sent. */
  lemma {:induction false} FirstComeFirstServed(workers: set<Name>, servers: set<Name>, acts: seq<Action>, t: Name)
    ensures var s := Initial(workers, servers);
            Taken(s, acts, t) + Jobs(Run(s, acts), t) == Sent(s, acts, t)
  {
    var s := Initial(workers, servers);
    if acts == [] {
      assert Jobs(s, t) == [];
    } else {
      var n := |acts| - 1;
      var u := Run(s, acts[..n]);
      FirstComeFirstServed(workers, servers, acts[..n], t);
      Always(workers, servers, acts[..n]);
      StepInOrder(u, acts[n], t);
      var x := Run(s, acts);
      Chained(Taken(s, acts[..n], t), Sent(s, acts[..n], t), Jobs(u, t),
              Leaving(u, x, t, |x.calls|), Joining(u, x, t, |x.calls|), Jobs(x, t));
    }
  }

  // ----- which workers are busy on behalf of a call

  // The first `|stack|` workers of its plan.
  predicate Nested(call: Call) {
    |call.stack| <= |ThreadsOf(call.plan)| && call.stack == ThreadsOf(call.plan)[..|call.stack|]
  }

  lemma StepNested(s: State, a: Action, c: Cid)
    requires Inv(s) && c < |s.calls| && Nested(s.calls[c])
    ensures Nested(Step(s, a).calls[c])
  {
    var u := Step(s, a);
    PlansStay(s, a);
    if u.calls[c].stack != s.calls[c].stack && a.Take? {
      assert WorkerOk(s, a.t) && s.queue[a.t][0] in Jobs(s, a.t);
      assert CallOk(s, c);
      EntersItsThreads(s.calls[c].plan);
      var e := ThreadsOf(s.calls[c].plan);
      assert e[|s.calls[c].stack|] == a.t;
    }
  }

  lemma {:induction false} AlwaysNested(workers: set<Name>, servers: set<Name>, acts: seq<Action>, c: Cid)
    requires c < |Run(Initial(workers, servers), acts).calls|
    ensures Nested(Run(Initial(workers, servers), acts).calls[c])
  {
    var n := |acts| - 1;
    var s := Run(Initial(workers, servers), acts[..n]);
    Always(workers, servers, acts[..n]);
    if c < |s.calls| {
      AlwaysNested(workers, servers, acts[..n], c);
      StepNested(s, acts[n], c);
    }
  }

  // The first `n` workers its plan enters, and no others, are in call `c`.
  ghost predicate BusyWithFirst(s: State, c: Cid, n: nat)
    requires c < |s.calls| && n <= |ThreadsOf(s.calls[c].plan)|
  {
    forall t: Name :: t in s.busy && s.busy[t] == c <==> t in ThreadsOf(s.calls[c].plan)[..n]
  }

  /** The workers that are in a call are at any moment the first ones its plan enters, up to some
      number: a worker is not free of it before every worker entered after it is. */
  lemma {:induction false} FreedInnermostFirst(workers: set<Name>, servers: set<Name>, acts: seq<Action>, c: Cid)
    requires c < |Run(Initial(workers, servers), acts).calls|
    ensures var s := Run(Initial(workers, servers), acts);
            exists n :: 0 <= n <= |ThreadsOf(s.calls[c].plan)| && BusyWithFirst(s, c, n)
  {
    var s := Run(Initial(workers, servers), acts);
    Always(workers, servers, acts);
    AlwaysNested(workers, servers, acts, c);
    assert CallOk(s, c);
    var e, n := ThreadsOf(s.calls[c].plan), |s.calls[c].stack|;
    forall t: Name ensures t in s.busy && s.busy[t] == c <==> t in e[..n] {
      assert WorkerOk(s, t);
    }
    assert BusyWithFirst(s, c, n);
  }

  /** A step of a call frees at most one worker, the one it entered last of those it is in. */
  lemma FreesOne(s: State, a: Action, t: Name)
    requires Inv(s) && t in s.busy && t !in Step(s, a).busy
    ensures a.Return? && a.c == s.busy[t] && s.calls[a.c].stack != []
    ensures t == s.calls[a.c].stack[|s.calls[a.c].stack| - 1]
    ensures forall u :: u in s.busy && u != t ==> u in Step(s, a).busy && Step(s, a).busy[u] == s.busy[u]
  {
    if a.Return? && Enabled(s, a) { assert CallOk(s, a.c); }
  }
}
