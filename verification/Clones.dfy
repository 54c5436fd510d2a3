/** Who wakes and who drops. Only the sender ever wakes a clone, and it never drops one; a poll
    that replaces the clone of an earlier one, a recv that takes an asynchronous wait over, and
    a receiver that goes away drop theirs. And clones are only made where they are stored. */
module Clones {
  import opened Wrappers
  import opened Words
  import opened Memory
  import opened Channel
  import opened Invariant
  import opened Progress
  import opened Accesses
  import opened Turns
  import Reachable
  import Tasks

  // ----- what a step settles

  // The clones whose fate is settled between `m` and `n` were the one in the cell, and are all
  // woken or all dropped.
  predicate Settles(m: Mem, n: Mem, wake: bool) {
    && FatesKept(m, n)
    && forall id :: id in n.fates && id !in m.fates ==>
         && m.waker.Some? && m.waker.value.id == id
         && n.fates[id] == if wake then Woken(m.waker.value.task) else Discarded
  }

  lemma EffectSettles(a: Access, m: Mem, v: View, ok: bool, i: nat, inside: bool, wake: bool)
    requires m.waker.Some? ==> m.waker.value.id !in m.fates
    requires a.TakeClone? ==> a.use == if wake then Wake else Drop
    requires a.RefreshClone? ==> !wake
    ensures Settles(m, Effect(a, m, v, ok, i, inside), wake)
  {
    match a {
      case RefreshClone(_) =>
      case TakeClone(_) =>
      case _ =>
    }
  }

  lemma StepSettles(s: State, a: Action)
    requires WakerOk(s)
    ensures Settles(s.m, Step(WithAsync, s, a).m, a.StepSender?)
  {
    match a {
      case StepSender(ok, i) =>
        Accesses.SenderAccess(s, ok, i);
        EffectSettles(SenderNext(s.snd), s.m, s.snd.v, ok, i, Inside(s), true);
      case StepReceiver(ok, i) =>
        Accesses.ReceiverAccess(s, ok, i);
        EffectSettles(ReceiverNext(s.own), s.m, s.own.v, ok, i, Inside(s), false);
      case StepRecv(r, ok, i) =>
        if r in s.rcv {
          Accesses.RecvAccess(s, r, ok, i);
          EffectSettles(RecvNext(s.rcv[r]), s.m, s.rcv[r].v, ok, i, Inside(s), false);
        }
      case _ =>
    }
  }

  /** In every run: a clone is woken only by a step of the sender, and then the task it was made
      for; a clone that any other thread consumes is dropped; and what became of a clone stays
      as it is. */
  lemma {:induction false} OnlySenderWakes(acts: seq<Action>, a: Action)
    ensures var s := Run(WithAsync, INITIAL, acts);
            var t := Step(WithAsync, s, a);
            && FatesKept(s.m, t.m)
            && forall id :: id in t.m.fates && id !in s.m.fates ==>
                 && s.m.waker.Some? && s.m.waker.value.id == id
                 && t.m.fates[id] == if a.StepSender? then Woken(s.m.waker.value.task) else Discarded
  {
    Reachable.Always(acts);
    StepSettles(Run(WithAsync, INITIAL, acts), a);
  }

  // ----- where clones are made

  lemma EffectClones(a: Access, m: Mem, v: View, ok: bool, i: nat, inside: bool)
    requires !a.InitClone? && !a.RefreshClone?
    ensures Effect(a, m, v, ok, i, inside).clones == m.clones
  {
    match a { case TakeClone(_) => case _ => }
  }

  // The poll is about to store a clone of its own.
  predicate Stores(s: State) {
    s.own.pc.OPInit? || (s.own.pc.OPRefresh? && s.m.waker.Some? && s.m.waker.value.task != s.own.task)
  }

  /** In every run: a clone is made in one step only, that of a poll that has found no clone or
      that of another task in the cell. A clone of its own task it leaves where it is. */
  lemma {:induction false} ClonedOnlyIfNeeded(acts: seq<Action>, a: Action)
    ensures var s := Run(WithAsync, INITIAL, acts);
            var t := Step(WithAsync, s, a);
            && t.m.clones == s.m.clones + (if a.StepReceiver? && Stores(s) then 1 else 0)
            && (a.StepReceiver? && Stores(s) ==> t.m.waker == Some(Waker(s.own.task, s.m.clones)))
            && (a.StepReceiver? && s.own.pc.OPRefresh? && !Stores(s) ==>
                  s.m.waker.Some? && t.m.waker == s.m.waker && t.m.fates == s.m.fates)
  {
    Reachable.Always(acts);
    var s := Run(WithAsync, INITIAL, acts);
    if a.StepReceiver? { PollClones(s, a.ok, a.i); } else { OtherClones(s, a); }
  }

  lemma PollClones(s: State, ok: bool, i: nat)
    requires WakerOk(s) && ReceiverOk(s)
    ensures var t := ReceiverStep(WithAsync, s, ok, i);
            && t.m.clones == s.m.clones + (if Stores(s) then 1 else 0)
            && (Stores(s) ==> t.m.waker == Some(Waker(s.own.task, s.m.clones)))
            && (s.own.pc.OPRefresh? && !Stores(s) ==>
                  s.m.waker.Some? && t.m.waker == s.m.waker && t.m.fates == s.m.fates)
  {
    if !s.own.pc.OPInit? && !s.own.pc.OPRefresh? {
      Accesses.ReceiverAccess(s, ok, i);
      EffectClones(ReceiverNext(s.own), s.m, s.own.v, ok, i, Inside(s));
    }
  }

  // ----- a thread inside recv

  lemma OtherClones(s: State, a: Action)
    requires s.own.pc.OIdle? || !a.StepReceiver?
    ensures Step(WithAsync, s, a).m.clones == s.m.clones
  {
    match a {
      case StepSender(ok, i) =>
        Accesses.SenderAccess(s, ok, i);
        EffectClones(SenderNext(s.snd), s.m, s.snd.v, ok, i, Inside(s));
      case StepRecv(r, ok, i) =>
        if r in s.rcv {
          Accesses.RecvAccess(s, r, ok, i);
          EffectClones(RecvNext(s.rcv[r]), s.m, s.rcv[r].v, ok, i, Inside(s));
        }
      case _ =>
    }
  }

  lemma IdleDuringRecv(s: State, r: Rid)
    requires ReceiverOk(s) && r in s.rcv
    ensures s.own.pc.OIdle?
  {
    assert r in s.rcv.Keys;
  }

  // While a thread is inside recv nobody polls, so the cell gets no other clone.
  lemma {:induction false} NoCloneDuringRecv(s: State, acts: seq<Action>, r: Rid)
    requires Inv(s) && r in s.rcv && Foreign(OfRecv(r), acts)
    ensures var t := Run(WithAsync, s, acts); t.m.clones == s.m.clones && FatesKept(s.m, t.m)
  {
    if acts != [] {
      var n := |acts| - 1;
      NoCloneDuringRecv(s, acts[..n], r);
      Reachable.RunKeeps(s, acts[..n]);
      RecvUndisturbed(s, acts[..n], r);
      var u := Run(WithAsync, s, acts[..n]);
      IdleDuringRecv(u, r);
      OtherClones(u, acts[n]);
      StepKeepsFates(u, acts[n]);
    }
  }

  // If no clone was made in between, a clone in the cell is the one that was there before.
  lemma SameClone(s: State, t: State)
    requires WakerOk(s) && WakerOk(t) && t.m.clones == s.m.clones && FatesKept(s.m, t.m) && t.m.waker.Some?
    ensures s.m.waker.Some? && s.m.waker.value.id == t.m.waker.value.id
  {
  }

  predicate Dropped(m: Mem, n: Mem) {
    m.waker.Some? && m.waker.value.id in n.fates && n.fates[m.waker.value.id] == Discarded
  }

  lemma DropsClone(s: State, u: State, r: Rid)
    requires WakerOk(s) && WakerOk(u) && ReceiverOk(u) && u.m.clones == s.m.clones && FatesKept(s.m, u.m)
    requires r in u.rcv && u.rcv[r].pc.RDropWaker? && RecvOk(u, r)
    ensures Dropped(s.m, RecvDropWaker(u, r).m)
  {
    SameClone(s, u);
  }

  lemma DropperHasClone(t: State, r: Rid)
    requires Inv(t) && r in t.rcv && t.rcv[r].pc.RDropWaker?
    ensures t.m.waker.Some?
  {
    assert RecvOk(t, r);
  }

  lemma RecvStepClones(u: State, r: Rid, x: Chance)
    requires WakerOk(u) && r in u.rcv
    ensures var t := RecvStep(WithAsync, u, r, x.ok, x.i); t.m.clones == u.m.clones && FatesKept(u.m, t.m)
  {
    OtherClones(u, StepRecv(r, x.ok, x.i));
    StepKeepsFates(u, StepRecv(r, x.ok, x.i));
  }

  // One turn of a thread inside recv.
  lemma {:induction false} RecvTurnClones(acts: seq<Action>, s: State, r: Rid, others: seq<Action>, x: Chance)
    requires s == Run(WithAsync, INITIAL, acts) && r in s.rcv && !s.rcv[r].pc.RAsleep? && Foreign(OfRecv(r), others)
    ensures var t := RecvStep(WithAsync, Run(WithAsync, s, others), r, x.ok, x.i);
            t.m.clones == s.m.clones && FatesKept(s.m, t.m) && (s.rcv[r].pc.RDropWaker? ==> Dropped(s.m, t.m))
  {
    Reachable.Always(acts);
    Reachable.RunKeeps(s, others);
    RecvUndisturbed(s, others, r);
    NoCloneDuringRecv(s, others, r);
    var u := Run(WithAsync, s, others);
    RecvStepClones(u, r, x);
    if s.rcv[r].pc.RDropWaker? {
      assert RecvOk(u, r);
      DropsClone(s, u, r);
    }
  }

  // ----- a poll

  // What a re-poll makes of the clone in the cell.
  predicate Refreshed(m: Mem, n: Mem, task: nat) {
    && m.waker.Some?
    && if m.waker.value.task == task then n.waker == m.waker
       else n.waker == Some(Waker(task, m.clones)) && Dropped(m, n)
  }

  lemma RefreshSettles(u: State, ok: bool, i: nat)
    requires WakerOk(u) && u.own.pc.OPRefresh? && u.m.waker.Some?
    ensures Refreshed(u.m, ReceiverStep(WithAsync, u, ok, i).m, u.own.task)
  {
  }

  // The cell is as it was, or empty.
  predicate NoNewClone(m: Mem, n: Mem) { n.waker == m.waker || n.waker.None? }

  lemma ReceiverLeavesClone(u: State, ok: bool, i: nat)
    requires !u.own.pc.OPInit? && !u.own.pc.OPRefresh?
    ensures NoNewClone(u.m, ReceiverStep(WithAsync, u, ok, i).m)
  {
    Accesses.ReceiverAccess(u, ok, i);
    Tasks.EffectTakesOnly(ReceiverNext(u.own), u.m, u.own.v, ok, i, Inside(u));
  }

  lemma {:induction false} NoCloneDuringPoll(s: State, acts: seq<Action>)
    requires Foreign(OfReceiver, acts)
    ensures Run(WithAsync, s, acts).m.clones == s.m.clones
  {
    if acts != [] {
      var n := |acts| - 1;
      NoCloneDuringPoll(s, acts[..n]);
      OtherClones(Run(WithAsync, s, acts[..n]), acts[n]);
    }
  }

  lemma PollerHasClone(t: State)
    requires Inv(t) && (t.own.pc.OPRefresh? || t.own.pc.OPUnset? || t.own.pc.OPDiscard?)
    ensures t.m.waker.Some?
  {
  }

  // One turn of an exclusive operation.
  lemma {:induction false} ReceiverTurnClones(acts: seq<Action>, s: State, others: seq<Action>, x: Chance)
    requires s == Run(WithAsync, INITIAL, acts) && Exclusive(s.own.pc) && Foreign(OfReceiver, others)
    ensures var t := ReceiverStep(WithAsync, Run(WithAsync, s, others), x.ok, x.i);
            && (!s.own.pc.OPInit? && !s.own.pc.OPRefresh? ==> NoNewClone(s.m, t.m))
            && (s.own.pc.OPRefresh? ==> Refreshed(s.m, t.m, s.own.task))
  {
    Reachable.Always(acts);
    Reachable.RunKeeps(s, others);
    ReceiverHoldsOn(s, others);
    NoCloneDuringPoll(s, others);
    var u := Run(WithAsync, s, others);
    if s.own.pc.OPRefresh? {
      RefreshSettlesSince(s, u, x.ok, x.i);
    } else if !s.own.pc.OPInit? {
      ReceiverLeavesClone(u, x.ok, x.i);
    }
  }

  lemma RefreshSettlesSince(s: State, u: State, ok: bool, i: nat)
    requires WakerOk(s) && WakerOk(u) && ReceiverOk(s) && u.own == s.own && s.own.pc.OPRefresh?
    requires u.m.waker == s.m.waker && u.m.clones == s.m.clones
    ensures Refreshed(s.m, ReceiverStep(WithAsync, u, ok, i).m, s.own.task)
  {
    RefreshSettles(u, ok, i);
  }

  // ----- the same, for the run so far

  lemma {:induction false} ClonesListed(acts: seq<Action>)
    ensures WakerOk(Run(WithAsync, INITIAL, acts))
  {
    Reachable.Always(acts);
  }

  lemma {:induction false} TakesOverClone(acts: seq<Action>, r: Rid)
    requires var s := Run(WithAsync, INITIAL, acts); r in s.rcv && s.rcv[r].pc.RDropWaker?
    ensures var s := Run(WithAsync, INITIAL, acts); s.m.waker.Some? && WakerOk(s)
  {
    Reachable.Always(acts);
    DropperHasClone(Run(WithAsync, INITIAL, acts), r);
  }

  lemma {:induction false} PollsOverClone(acts: seq<Action>)
    requires Run(WithAsync, INITIAL, acts).own.pc.OPRefresh?
    ensures Run(WithAsync, INITIAL, acts).m.waker.Some?
  {
    Reachable.Always(acts);
    PollerHasClone(Run(WithAsync, INITIAL, acts));
  }
}
