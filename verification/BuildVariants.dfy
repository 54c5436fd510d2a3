/** The channel built without the `async` feature is the asynchronous one that nobody polls. */
module BuildVariants {
  import opened Words
  import opened Memory
  import opened Channel
  import opened Invariant
  import Reachable

  function WithoutPolls(acts: seq<Action>): seq<Action> {
    if acts == [] then []
    else
      var before := WithoutPolls(acts[..|acts| - 1]);
      if acts[|acts| - 1].StartPoll? then before else before + [acts[|acts| - 1]]
  }

  lemma SenderSame(s: State, ok: bool, i: nat)
    requires Control(s) && EntryOk(s, s.snd.v.seen) && s.g.polls == 0
    ensures SenderStep(SyncOnly, s, ok, i) == SenderStep(WithAsync, s, ok, i)
    ensures SenderStep(WithAsync, s, ok, i).g.polls == s.g.polls
  {
    if s.snd.pc.SCas? && ok && Last(s.m) == s.snd.cur {
      assert ReadySetup(SyncOnly, s.snd.cur) == ReadySetup(WithAsync, s.snd.cur);
    }
  }

  lemma ReceiverSame(s: State, ok: bool, i: nat)
    requires ReceiverOk(s) && EntryOk(s, s.own.v.seen) && s.g.polls == 0
    ensures ReceiverStep(SyncOnly, s, ok, i) == ReceiverStep(WithAsync, s, ok, i)
    ensures ReceiverStep(WithAsync, s, ok, i).g.polls == s.g.polls
  {
  }

  lemma RecvSame(s: State, r: Rid, ok: bool, i: nat)
    requires r in s.rcv && RecvOk(s, r) && EntryOk(s, s.rcv[r].v.seen) && s.g.polls == 0
    ensures RecvStep(SyncOnly, s, r, ok, i) == RecvStep(WithAsync, s, r, ok, i)
    ensures RecvStep(WithAsync, s, r, ok, i).g.polls == s.g.polls
  {
  }

  lemma StepSame(s: State, a: Action)
    requires Inv(s) && s.g.polls == 0 && !a.StartPoll?
    ensures Step(SyncOnly, s, a) == Step(WithAsync, s, a)
    ensures Step(WithAsync, s, a).g.polls == 0
  {
    assert EntryOk(s, s.snd.v.seen) && EntryOk(s, s.own.v.seen);
    match a {
      case StepSender(ok, i) => SenderSame(s, ok, i);
      case StepReceiver(ok, i) => ReceiverSame(s, ok, i);
      case StepRecv(r, ok, i) =>
        if r in s.rcv {
          assert RecvOk(s, r);
          assert EntryOk(s, s.rcv[r].v.seen);
          RecvSame(s, r, ok, i);
        }
      case _ =>
    }
  }

  /** Every run of the synchronous build is, state for state, the run of the asynchronous
      build in which the polls are left out. */
  lemma {:induction false} SyncIsAsyncWithoutPolls(acts: seq<Action>)
    ensures Run(SyncOnly, INITIAL, acts) == Run(WithAsync, INITIAL, WithoutPolls(acts))
    ensures Run(SyncOnly, INITIAL, acts).g.polls == 0
  {
    if acts != [] {
      var n := |acts| - 1;
      var before := WithoutPolls(acts[..n]);
      var s := Run(WithAsync, INITIAL, before);
      SyncIsAsyncWithoutPolls(acts[..n]);
      assert Run(SyncOnly, INITIAL, acts) == Step(SyncOnly, s, acts[n]);
      if !acts[n].StartPoll? {
        Reachable.Always(before);
        StepSame(s, acts[n]);
        RunLast(before, acts[n]);
      }
    }
  }

  lemma {:induction false} RunLast(acts: seq<Action>, a: Action)
    ensures Run(WithAsync, INITIAL, acts + [a]) == Step(WithAsync, Run(WithAsync, INITIAL, acts), a)
  {
    assert (acts + [a])[..|acts + [a]| - 1] == acts;
  }

  /** The safety of the synchronous build follows. */
  lemma {:induction false} SyncIsSafe(acts: seq<Action>)
    ensures Run(SyncOnly, INITIAL, acts).m.faults == {}
    ensures Inv(Run(SyncOnly, INITIAL, acts))
  {
    SyncIsAsyncWithoutPolls(acts);
    Reachable.Always(WithoutPolls(acts));
  }
}
