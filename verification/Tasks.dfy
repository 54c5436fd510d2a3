/** Whom the channel notifies. A poll may be made for another task than the poll before it,
    with the clone of the earlier one still in the cell; what it leaves there when it answers
    Pending, and what is woken later, belongs to the task that polled last. */
module Tasks {
  import opened Wrappers
  import opened Words
  import opened Memory
  import opened Channel
  import opened Invariant
  import Accesses
  import Progress
  import Reachable

  // The clone a poll is about to leave in the cell, the clone the last poll left there, and
  // what was woken of it are of the task that polled last.
  predicate TasksOk(s: State) {
    && (s.own.pc.OPUnset? && s.m.waker.Some? ==> s.m.waker.value.task == s.own.task)
    && (s.g.parked.Some? && s.m.waker.Some? && s.m.waker.value.id == s.g.parked.value ==>
          s.m.waker.value.task == s.own.task)
    && (s.g.parked.Some? && s.g.parked.value in s.m.fates && s.m.fates[s.g.parked.value].Woken? ==>
          s.m.fates[s.g.parked.value].task == s.own.task)
  }

  // The waker cell is left alone, or its clone is taken out and woken or dropped.
  predicate TakesOnly(m: Mem, n: Mem) {
    if n.waker == m.waker then n.fates == m.fates
    else
      && m.waker.Some? && n.waker.None?
      && exists use :: n.fates == m.fates[m.waker.value.id := FateOf(m.waker.value, use)]
  }

  lemma EffectTakesOnly(a: Accesses.Access, m: Mem, v: View, ok: bool, i: nat, inside: bool)
    requires !a.InitClone? && !a.RefreshClone?
    ensures TakesOnly(m, Accesses.Effect(a, m, v, ok, i, inside))
  {
    match a {
      case TakeClone(use) =>
        if m.waker.Some? {
          assert TakeWaker(m, v, use).fates == m.fates[m.waker.value.id := FateOf(m.waker.value, use)];
        }
      case _ =>
    }
  }

  // ----- steps of the sender and of threads inside recv

  // Another thread than the one that polls has moved.
  predicate LeavesPoll(s: State, t: State) {
    t.own == s.own && (t.g.parked == s.g.parked || t.g.parked.None?) && TakesOnly(s.m, t.m)
  }

  lemma LeavesPollKeeps(s: State, t: State)
    requires TasksOk(s) && LeavesPoll(s, t)
    ensures TasksOk(t)
  {
  }

  lemma DropSenderLoopParks(s: State, ok: bool, i: nat)
    ensures DropSenderLoop(WithAsync, s, ok, i).g.parked == s.g.parked
  {
  }

  lemma SenderParks(s: State, ok: bool, i: nat)
    ensures SenderStep(WithAsync, s, ok, i).g.parked == s.g.parked
  {
    match s.snd.pc {
      case SDLoop => DropSenderLoopParks(s, ok, i);
      case _ =>
    }
  }

  lemma SenderLeavesPoll(s: State, ok: bool, i: nat)
    ensures LeavesPoll(s, SenderStep(WithAsync, s, ok, i))
  {
    Progress.SenderFrame(s, ok, i);
    SenderParks(s, ok, i);
    Accesses.SenderAccess(s, ok, i);
    EffectTakesOnly(Accesses.SenderNext(s.snd), s.m, s.snd.v, ok, i, Inside(s));
  }

  lemma RecvParks(s: State, r: Rid, ok: bool, i: nat)
    ensures RecvStep(WithAsync, s, r, ok, i).g.parked == s.g.parked
  {
  }

  lemma RecvLeavesPoll(s: State, r: Rid, ok: bool, i: nat)
    ensures LeavesPoll(s, RecvStep(WithAsync, s, r, ok, i))
  {
    if r in s.rcv {
      Progress.RecvFrame(s, r, ok, i);
      RecvParks(s, r, ok, i);
      Accesses.RecvAccess(s, r, ok, i);
      EffectTakesOnly(Accesses.RecvNext(s.rcv[r]), s.m, s.rcv[r].v, ok, i, Inside(s));
    }
  }

  // ----- steps of the receiver

  lemma UnsetTasks(s: State, ok: bool, i: nat)
    requires TasksOk(s) && WakerOk(s) && s.g.parked.None? && s.own.pc.OPUnset?
    ensures TasksOk(PollUnset(s, ok, i))
  {
  }

  // A poll that parks nothing in this step, or a drop.
  lemma LoopTasks(s: State, ok: bool, i: nat)
    requires s.g.parked.None? && (s.own.pc.OPLoop? || s.own.pc.ODLoop?)
    ensures TasksOk(ReceiverStep(WithAsync, s, ok, i))
  {
    if s.own.pc.OPLoop? {
      assert ReceiverStep(WithAsync, s, ok, i) == PollLoop(s, ok, i);
    } else {
      assert ReceiverStep(WithAsync, s, ok, i) == DropReceiverLoop(WithAsync, s, ok, i);
    }
  }

  // The new clone, or the one that was kept, is of the polling task.
  lemma CloneTasks(s: State, ok: bool, i: nat)
    requires s.g.parked.None? && (s.own.pc.OPInit? || s.own.pc.OPRefresh?)
    ensures TasksOk(ReceiverStep(WithAsync, s, ok, i))
  {
  }

  lemma ReceiverTasks(s: State, ok: bool, i: nat)
    requires TasksOk(s) && WakerOk(s) && (s.g.parked.Some? ==> s.own.pc.OIdle?)
    ensures TasksOk(ReceiverStep(WithAsync, s, ok, i))
  {
    match s.own.pc {
      case OIdle =>
      case OPLoop => LoopTasks(s, ok, i);
      case ODLoop => LoopTasks(s, ok, i);
      case OPInit => CloneTasks(s, ok, i);
      case OPRefresh => CloneTasks(s, ok, i);
      case OPUnset => UnsetTasks(s, ok, i);
      case _ =>
    }
  }

  // ----- runs

  lemma StepKeeps(s: State, a: Action)
    requires Inv(s) && TasksOk(s)
    ensures TasksOk(Step(WithAsync, s, a))
  {
    match a {
      case StepSender(ok, i) =>
        SenderLeavesPoll(s, ok, i);
        LeavesPollKeeps(s, SenderStep(WithAsync, s, ok, i));
      case StepReceiver(ok, i) => ReceiverTasks(s, ok, i);
      case StepRecv(r, ok, i) =>
        RecvLeavesPoll(s, r, ok, i);
        LeavesPollKeeps(s, RecvStep(WithAsync, s, r, ok, i));
      case StartRecv(r) => LeavesPollKeeps(s, BeginRecv(s, r));
      case _ =>
    }
  }

  // The task of the last poll that was begun.
  function LastPolled(acts: seq<Action>): nat {
    if acts == [] then 0
    else
      var n := |acts| - 1;
      var s := Run(WithAsync, INITIAL, acts[..n]);
      if acts[n].StartPoll? && s.own.pc.OIdle? && !Inside(s) then acts[n].task else LastPolled(acts[..n])
  }

  lemma TaskKept(s: State, a: Action)
    ensures Step(WithAsync, s, a).own.task ==
            if a.StartPoll? && s.own.pc.OIdle? && !Inside(s) then a.task else s.own.task
  {
    match a {
      case StepSender(ok, i) => Progress.SenderFrame(s, ok, i);
      case StepReceiver(ok, i) => ReceiverTaskKept(s, ok, i);
      case StepRecv(r, ok, i) => Progress.RecvFrame(s, r, ok, i);
      case _ =>
    }
  }

  lemma ReceiverTaskKept(s: State, ok: bool, i: nat)
    ensures ReceiverStep(WithAsync, s, ok, i).own.task == s.own.task
  {
    match s.own.pc {
      case OPLoop => assert ReceiverStep(WithAsync, s, ok, i) == PollLoop(s, ok, i);
      case ODLoop => assert ReceiverStep(WithAsync, s, ok, i) == DropReceiverLoop(WithAsync, s, ok, i);
      case OPUnset =>
      case _ =>
    }
  }

  /** In every run: whenever a poll has its clone in the cell and is about to answer Pending,
      the clone is of the task it polls for. */
  lemma {:induction false} Always(acts: seq<Action>)
    ensures var s := Run(WithAsync, INITIAL, acts); TasksOk(s) && s.own.task == LastPolled(acts)
    ensures var s := Run(WithAsync, INITIAL, acts);
            s.own.pc.OPUnset? ==> s.m.waker.Some? && s.m.waker.value.task == LastPolled(acts)
  {
    Reachable.Always(acts);
    if acts != [] {
      var n := |acts| - 1;
      var s := Run(WithAsync, INITIAL, acts[..n]);
      Always(acts[..n]);
      Reachable.Always(acts[..n]);
      StepKeeps(s, acts[n]);
      TaskKept(s, acts[n]);
    }
  }
}
