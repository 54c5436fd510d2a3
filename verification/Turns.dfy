/** What a call of the channel knows about its accesses. A call makes one access at a time;
    before each of them the other threads run for as long as the schedule says, and the
    schedule also decides what is left to chance. It goes on for ever, but hinders the call
    only finitely often: from its turn `h` on attempts do not fail spuriously, and for the
    sender no further polls begin.

    For each thread there is a table of where an access leads, and a lemma that says so of
    the transition system, together with what the access has done. */
module Turns {
  import opened Wrappers
  import opened Words
  import opened Memory
  import opened Channel
  import opened Invariant
  import opened Progress
  import opened Accesses
  import Reachable

  // What happens before and at one access: steps of other threads, and the outcome of chance.
  datatype Turn = Turn(others: seq<Action>, ok: bool, i: nat)

  type Schedule = nat -> Turn

  predicate Foreign(c: Call, acts: seq<Action>) {
    forall k :: 0 <= k < |acts| ==> !Own(c, acts[k]) && !Begins(c, acts[k])
  }

  predicate NoPolls(acts: seq<Action>) { forall k :: 0 <= k < |acts| ==> !acts[k].StartPoll? }

  ghost predicate Admissible(c: Call, sched: Schedule, h: nat) {
    && (forall k: nat :: Foreign(c, sched(k).others))
    && (c.OfSender? ==> forall k: nat :: h <= k ==> NoPolls(sched(k).others))
  }

  function Left(h: nat, k: nat): nat { if k < h then h - k else 0 }

  function OwnAction(c: Call, ok: bool, i: nat): Action {
    match c
    case OfSender => StepSender(ok, i)
    case OfReceiver => StepReceiver(ok, i)
    case OfRecv(r) => StepRecv(r, ok, i)
  }

  datatype Chance = Chance(ok: bool, i: nat)

  // What chance decides at turn `k`.
  function ChanceAt(c: Call, sched: Schedule, h: nat, k: nat, s: State): Chance {
    var t := sched(k);
    if k < h || Unhindered(s, OwnAction(c, t.ok, t.i), c) then Chance(t.ok, t.i) else Chance(true, |s.m.hist|)
  }

  lemma ChanceIsUnhindered(c: Call, sched: Schedule, h: nat, k: nat, s: State)
    requires h <= k && (c.OfRecv? && c.r in s.rcv ==> !s.rcv[c.r].pc.RAsleep?)
    ensures var x := ChanceAt(c, sched, h, k, s); Unhindered(s, OwnAction(c, x.ok, x.i), c)
  {
  }

  // ----- the others

  lemma {:induction false} RunAppend(s: State, a: seq<Action>, b: seq<Action>)
    ensures Run(WithAsync, Run(WithAsync, s, a), b) == Run(WithAsync, s, a + b)
  {
    if b == [] {
      assert a + b == a;
    } else {
      var n := |b| - 1;
      RunAppend(s, a, b[..n]);
      assert (a + b)[..|a + b| - 1] == a + b[..n];
    }
  }

  lemma {:induction false} PendingIsWaiting(acts: seq<Action>)
    ensures var s := Run(WithAsync, INITIAL, acts);
            s.snd.pc.SDLoop? && s.snd.cur.pending ==> s.snd.cur.waiting
  {
    Reachable.Always(acts);
    assert EntryOk(Run(WithAsync, INITIAL, acts), Run(WithAsync, INITIAL, acts).snd.v.seen);
  }

  lemma {:induction false} SleepersWait(acts: seq<Action>, r: Rid)
    requires r in Run(WithAsync, INITIAL, acts).rcv && Run(WithAsync, INITIAL, acts).rcv[r].pc.RAsleep?
    ensures !SenderGone(Run(WithAsync, INITIAL, acts))
  {
    Reachable.Always(acts);
    assert RecvOk(Run(WithAsync, INITIAL, acts), r);
  }

  lemma {:induction false} CloneIsAlive(acts: seq<Action>)
    ensures var m := Run(WithAsync, INITIAL, acts).m; m.waker.Some? ==> m.waker.value.id !in m.fates
  {
    Reachable.Always(acts);
  }

  // A step of another thread costs the call nothing and starts no poll it was not allowed to.
  lemma StepCosts(s: State, a: Action, c: Call, p: nat)
    requires Inv(s) && Running(s, c) && !Own(c, a) && !Begins(c, a) && (c.OfSender? ==> !a.StartPoll?)
    ensures var t := Step(WithAsync, s, a);
            Running(t, c) && t.g.polls == s.g.polls && Potential(t, c, p) <= Potential(s, c, p)
  {
    Interference(s, a, c, p);
    match a {
      case StepSender(ok, i) => SenderFrame(s, ok, i);
      case StepReceiver(ok, i) => ReceiverFrame(s, ok, i);
      case StepRecv(r, ok, i) => RecvFrame(s, r, ok, i);
      case StartPoll(_, _) => if c.OfRecv? { assert c.r in s.rcv.Keys; }
      case _ =>
    }
  }

  lemma {:induction false} OthersCost(s: State, acts: seq<Action>, c: Call, p: nat)
    requires Inv(s) && Running(s, c) && Foreign(c, acts) && (c.OfSender? ==> NoPolls(acts))
    ensures var t := Run(WithAsync, s, acts);
            Inv(t) && Running(t, c) && t.g.polls == s.g.polls && Potential(t, c, p) <= Potential(s, c, p)
  {
    if acts != [] {
      var n := |acts| - 1;
      OthersCost(s, acts[..n], c, p);
      var u := Run(WithAsync, s, acts[..n]);
      StepCosts(u, acts[n], c, p);
      Reachable.StepKeeps(u, acts[n]);
    }
  }

  // The same turn of the thread itself, in a run.
  lemma {:induction false} TurnPays(acts: seq<Action>, s: State, others: seq<Action>, c: Call, a: Action)
    requires s == Run(WithAsync, INITIAL, acts) && Running(s, c) && Foreign(c, others) && Own(c, a)
    requires c.OfSender? ==> NoPolls(others)
    requires Unhindered(Run(WithAsync, s, others), a, c)
    ensures var t := Step(WithAsync, Run(WithAsync, s, others), a);
            t.g.polls == s.g.polls &&
            (Running(t, c) ==> Potential(t, c, t.g.polls) < Potential(s, c, s.g.polls))
  {
    Reachable.Always(acts);
    var p := s.g.polls;
    OthersCost(s, others, c, p);
    var u := Run(WithAsync, s, others);
    match a {
      case StepSender(ok, i) => SenderFrame(u, ok, i);
      case StepReceiver(ok, i) => ReceiverFrame(u, ok, i);
      case StepRecv(r, ok, i) => RecvFrame(u, r, ok, i);
    }
    OwnStep(u, a, c, p);
  }

  // What was done with a clone stays done.
  predicate FatesKept(m: Mem, n: Mem) {
    forall id :: id in m.fates ==> id in n.fates && n.fates[id] == m.fates[id]
  }

  lemma EffectKeepsFates(a: Access, m: Mem, v: View, ok: bool, i: nat, inside: bool)
    requires m.waker.Some? ==> m.waker.value.id !in m.fates
    ensures FatesKept(m, Effect(a, m, v, ok, i, inside))
  {
    match a {
      case RefreshClone(_) =>
      case TakeClone(_) =>
      case _ =>
    }
  }

  lemma ReceiverKeepsFates(s: State, ok: bool, i: nat, t: State)
    requires WakerOk(s) && t == ReceiverStep(WithAsync, s, ok, i)
    ensures FatesKept(s.m, t.m)
  {
    Accesses.ReceiverAccess(s, ok, i);
    EffectKeepsFates(ReceiverNext(s.own), s.m, s.own.v, ok, i, Inside(s));
  }

  lemma StepKeepsFates(s: State, a: Action)
    requires WakerOk(s)
    ensures FatesKept(s.m, Step(WithAsync, s, a).m)
  {
    match a {
      case StepSender(ok, i) =>
        Accesses.SenderAccess(s, ok, i);
        EffectKeepsFates(SenderNext(s.snd), s.m, s.snd.v, ok, i, Inside(s));
      case StepReceiver(ok, i) => ReceiverKeepsFates(s, ok, i, ReceiverStep(WithAsync, s, ok, i));
      case StepRecv(r, ok, i) =>
        if r in s.rcv {
          Accesses.RecvAccess(s, r, ok, i);
          EffectKeepsFates(RecvNext(s.rcv[r]), s.m, s.rcv[r].v, ok, i, Inside(s));
        }
      case _ =>
    }
  }

  // A clone the sender has taken charge of stays in the cell.
  lemma SenderHoldsReceiver(s: State, ok: bool, i: nat)
    requires EntryOk(s, |s.m.hist| - 1) && LastOk(s) && ReceiverOk(s) && s.g.waker.WithSender?
    ensures var t := ReceiverStep(WithAsync, s, ok, i); t.m.waker == s.m.waker && t.g.waker == s.g.waker
  {
    match s.own.pc {
      case OPLoop => assert ReceiverStep(WithAsync, s, ok, i) == PollLoop(s, ok, i);
      case ODLoop => assert ReceiverStep(WithAsync, s, ok, i) == DropReceiverLoop(WithAsync, s, ok, i);
      case OPUnset =>
      case _ =>
    }
  }

  lemma SenderHolds(s: State, a: Action)
    requires Control(s) && s.g.waker.WithSender? && !Own(OfSender, a)
    ensures var t := Step(WithAsync, s, a); t.m.waker == s.m.waker && (t.g.waker == s.g.waker || a.StartSend?)
  {
    match a {
      case StepReceiver(ok, i) => SenderHoldsReceiver(s, ok, i);
      case StepRecv(r, ok, i) => if r in s.rcv { assert RecvOk(s, r); }
      case _ =>
    }
  }

  lemma {:induction false} SenderHoldsOn(s: State, acts: seq<Action>)
    requires Inv(s) && s.g.waker.WithSender? && Foreign(OfSender, acts)
    ensures var t := Run(WithAsync, s, acts); t.m.waker == s.m.waker && t.g.waker == s.g.waker
  {
    if acts != [] {
      var n := |acts| - 1;
      SenderHoldsOn(s, acts[..n]);
      Reachable.RunKeeps(s, acts[..n]);
      SenderHolds(Run(WithAsync, s, acts[..n]), acts[n]);
    }
  }

  // While the receiver runs exclusively, the clone in the cell is not replaced, and one it has
  // taken charge of stays there.
  lemma ReceiverHolds(s: State, a: Action)
    requires Control(s) && Exclusive(s.own.pc) && !Own(OfReceiver, a) && !Begins(OfReceiver, a)
    ensures var t := Step(WithAsync, s, a);
            && (t.m.waker == s.m.waker || t.m.waker.None?)
            && (s.g.waker.WithReceiver? ==> t.m.waker == s.m.waker && t.g.waker == s.g.waker)
  {
    match a {
      case StepSender(ok, i) =>
        match s.snd.pc {
          case SDLoop => assert SenderStep(WithAsync, s, ok, i) == DropSenderLoop(WithAsync, s, ok, i);
          case SCas =>
          case SWakeRun =>
          case SDWake =>
          case _ =>
        }
      case StepRecv(r, ok, i) => assert r !in s.rcv.Keys;
      case _ =>
    }
  }

  lemma {:induction false} ReceiverHoldsOn(s: State, acts: seq<Action>)
    requires Inv(s) && Exclusive(s.own.pc) && Foreign(OfReceiver, acts)
    ensures var t := Run(WithAsync, s, acts);
            && t.own == s.own && FatesKept(s.m, t.m)
            && (t.m.waker == s.m.waker || t.m.waker.None?)
            && (s.g.waker.WithReceiver? ==> t.m.waker == s.m.waker && t.g.waker == s.g.waker)
  {
    if acts != [] {
      var n := |acts| - 1;
      ReceiverHoldsOn(s, acts[..n]);
      Reachable.RunKeeps(s, acts[..n]);
      var u := Run(WithAsync, s, acts[..n]);
      ReceiverHolds(u, acts[n]);
      StepKeepsFates(u, acts[n]);
      match acts[n] {
        case StepSender(ok, i) => SenderFrame(u, ok, i);
        case StepRecv(r, ok, i) => RecvFrame(u, r, ok, i);
        case _ =>
      }
    }
  }

  // ----- the sender: where it stands after an access, from whether the attempt succeeded and
  // ----- the word read otherwise

  function SenderPcAfter(pc: SenderPc, cur: Word, success: bool, now: Word): SenderPc {
    match pc
    case SWrite => SCas
    case SCas => if success then AfterReady(WithAsync, cur) else if now.close then SReadBack else SCas
    case SReadBack => SDLoad
    case SWakeAcquire => SWakeRun
    case SWakeRun => SDLoad
    case SWakeAll => SDLoad
    case SDLoad => SDLoop
    case SDLoop =>
      if cur.close && cur.fieldless then SDFree
      else if !success then SDLoop
      else if cur.close || (cur.pending && cur.fieldless) then SGone
      else if cur.pending then SDWake
      else if cur.waiting then SDWakeAll
      else SGone
    case SDWake => SDSetDropping
    case SDWakeAll => SDSetDropping
    case SDSetDropping => if success then SGone else SDLoop
    case SDFree => SGone
    case _ => pc
  }

  function SenderCurAfter(pc: SenderPc, cur: Word, success: bool, now: Word): Word {
    match pc
    case SCas => if success then cur else now
    case SDLoad => now
    case SDLoop =>
      if cur.close && cur.fieldless then cur
      else if !success then now
      else if cur.close || (cur.pending && cur.fieldless) then cur
      else if cur.pending then ClosedAsyncSetup(cur)
      else if cur.waiting then ClosedWakeSetup(cur)
      else cur
    case SDSetDropping => if success then cur else now
    case _ => cur
  }

  // What the sender knows of its access between `s` and `t`.
  predicate SenderMoved(s: State, t: State, success: bool, now: Word, value: Option<int>) {
    && t.snd.pc == SenderPcAfter(s.snd.pc, s.snd.cur, success, now)
    && t.snd.cur == SenderCurAfter(s.snd.pc, s.snd.cur, success, now)
    && t.snd.val == s.snd.val
    && (s.snd.pc.SReadBack? ==> t.g.oClosed && t.g.sent.None? && value == s.snd.val && value.Some?)
    && (s.snd.pc.SWakeRun? || s.snd.pc.SWakeAll? || (s.snd.pc.SCas? && t.snd.pc.SDLoad?) ==> t.g.sent == s.snd.val)
    && (s.snd.pc.SWakeAcquire? ==> s.m.waker.Some? && t.m.waker == s.m.waker)
    && (s.snd.pc.SWakeRun? || s.snd.pc.SDWake? ==>
          s.m.waker.Some? && t.m.waker.None? && s.m.waker.value.id in t.m.fates &&
          t.m.fates[s.m.waker.value.id] == Woken(s.m.waker.value.task))
    && (s.snd.pc.SWakeAll? || s.snd.pc.SDWakeAll? ==> forall r :: r in t.rcv ==> !t.rcv[r].pc.RAsleep?)
    && (s.snd.pc.SDFree? ==> t.m.freed == 1 && ReceiverGone(t))
    && (s.snd.pc.SDLoop? && t.snd.pc.SGone? ==> t.m.freed == 0 && CloseAndDrop(Last(t.m)) && !ReceiverGone(t))
  }

  lemma {:induction false} SenderUndisturbed(s: State, acts: seq<Action>)
    requires Foreign(OfSender, acts)
    ensures Run(WithAsync, s, acts).snd == s.snd
  {
    if acts != [] {
      var n := |acts| - 1;
      SenderUndisturbed(s, acts[..n]);
      var u := Run(WithAsync, s, acts[..n]);
      match acts[n] {
        case StepReceiver(ok, i) => ReceiverFrame(u, ok, i);
        case StepRecv(r, ok, i) => RecvFrame(u, r, ok, i);
        case _ =>
      }
    }
  }

  lemma SenderLoopFails(s: State, ok: bool, i: nat)
    requires EntryOk(s, |s.m.hist| - 1) && LastOk(s) && SenderOk(s) && ReceiverOk(s) && WakerOk(s) && s.snd.pc.SDLoop?
    requires !(ok && Last(s.m) == s.snd.cur)
    ensures var t := DropSenderLoop(WithAsync, s, ok, i);
            var a := SenderNext(s.snd);
            SenderMoved(s, t, Succeeds(a, s.m, s.snd.v, ok, i), Reads(a, s.m, s.snd.v, i), s.m.data)
  {
    if s.snd.cur.close { } else { }
  }

  lemma SenderLoopInstalls(s: State, ok: bool, i: nat)
    requires EntryOk(s, |s.m.hist| - 1) && LastOk(s) && SenderOk(s) && ReceiverOk(s) && WakerOk(s) && s.snd.pc.SDLoop?
    requires ok && Last(s.m) == s.snd.cur
    ensures var t := DropSenderLoop(WithAsync, s, ok, i);
            var a := SenderNext(s.snd);
            SenderMoved(s, t, Succeeds(a, s.m, s.snd.v, ok, i), Reads(a, s.m, s.snd.v, i), s.m.data)
  {
    if s.snd.cur.close { } else if s.snd.cur.pending { } else { }
  }

  lemma SenderLoopMoves(s: State, ok: bool, i: nat)
    requires EntryOk(s, |s.m.hist| - 1) && LastOk(s) && SenderOk(s) && ReceiverOk(s) && WakerOk(s) && s.snd.pc.SDLoop?
    ensures var t := DropSenderLoop(WithAsync, s, ok, i);
            var a := SenderNext(s.snd);
            SenderMoved(s, t, Succeeds(a, s.m, s.snd.v, ok, i), Reads(a, s.m, s.snd.v, i), s.m.data)
  {
    if ok && Last(s.m) == s.snd.cur { SenderLoopInstalls(s, ok, i); } else { SenderLoopFails(s, ok, i); }
  }

  lemma SenderCellMoves(s: State, ok: bool, i: nat)
    requires LastOk(s) && SenderOk(s) && ReceiverOk(s) && DataOk(s) && WakerOk(s) && !s.snd.pc.SDLoop?
    ensures var t := SenderStep(WithAsync, s, ok, i);
            var a := SenderNext(s.snd);
            SenderMoved(s, t, Succeeds(a, s.m, s.snd.v, ok, i), Reads(a, s.m, s.snd.v, i), s.m.data)
  {
    match s.snd.pc {
      case SCas => if ok && Last(s.m) == s.snd.cur { } else { }
      case SDSetDropping =>
      case SReadBack =>
      case SWakeAcquire =>
      case SWakeRun =>
      case SWakeAll =>
      case SDWake =>
      case SDWakeAll =>
      case _ =>
    }
  }

  lemma SenderStepMoves(s: State, ok: bool, i: nat)
    requires EntryOk(s, |s.m.hist| - 1) && LastOk(s) && SenderOk(s) && ReceiverOk(s) && DataOk(s) && WakerOk(s)
    ensures var t := SenderStep(WithAsync, s, ok, i);
            var a := SenderNext(s.snd);
            SenderMoved(s, t, Succeeds(a, s.m, s.snd.v, ok, i), Reads(a, s.m, s.snd.v, i), s.m.data)
  {
    if s.snd.pc.SDLoop? {
      SenderLoopMoves(s, ok, i);
      assert SenderStep(WithAsync, s, ok, i) == DropSenderLoop(WithAsync, s, ok, i);
    } else {
      SenderCellMoves(s, ok, i);
    }
  }

  lemma {:induction false} SenderTurn(acts: seq<Action>, s: State, others: seq<Action>, ok: bool, i: nat)
    requires s == Run(WithAsync, INITIAL, acts) && Foreign(OfSender, others)
    ensures var u := Run(WithAsync, s, others);
            var t := SenderStep(WithAsync, u, ok, i);
            var a := SenderNext(s.snd);
            u.snd == s.snd &&
            SenderMoved(s, t, Succeeds(a, u.m, u.snd.v, ok, i), Reads(a, u.m, u.snd.v, i), u.m.data)
  {
    Reachable.Always(acts);
    Reachable.RunKeeps(s, others);
    SenderUndisturbed(s, others);
    if s.g.waker.WithSender? { SenderHoldsOn(s, others); }
    SenderStepMoves(Run(WithAsync, s, others), ok, i);
  }

  // All of that for turn `k` of a schedule, with what it costs.
  lemma {:induction false} SenderPays(acts: seq<Action>, s: State, sched: Schedule, h: nat, k: nat, u: State)
    requires s == Run(WithAsync, INITIAL, acts) && Running(s, OfSender) && Admissible(OfSender, sched, h)
    requires u == Run(WithAsync, s, sched(k).others)
    ensures var x := ChanceAt(OfSender, sched, h, k, u);
            var t := SenderStep(WithAsync, u, x.ok, x.i);
            var a := SenderNext(s.snd);
            && u.snd == s.snd
            && SenderMoved(s, t, Succeeds(a, u.m, u.snd.v, x.ok, x.i), Reads(a, u.m, u.snd.v, x.i), u.m.data)
            && (h <= k ==>
                  t.g.polls == s.g.polls &&
                  (Running(t, OfSender) ==> SenderPotential(t, t.g.polls) < SenderPotential(s, s.g.polls)))
  {
    var x := ChanceAt(OfSender, sched, h, k, u);
    SenderTurn(acts, s, sched(k).others, x.ok, x.i);
    if h <= k {
      ChanceIsUnhindered(OfSender, sched, h, k, u);
      TurnPays(acts, s, sched(k).others, OfSender, StepSender(x.ok, x.i));
    }
  }

  lemma {:induction false} RunKeepsFates(s: State, acts: seq<Action>)
    requires Inv(s)
    ensures FatesKept(s.m, Run(WithAsync, s, acts).m)
  {
    if acts != [] {
      var n := |acts| - 1;
      RunKeepsFates(s, acts[..n]);
      Reachable.RunKeeps(s, acts[..n]);
      StepKeepsFates(Run(WithAsync, s, acts[..n]), acts[n]);
    }
  }

  lemma {:induction false} SenderTurnKeepsFates(acts: seq<Action>, s: State, others: seq<Action>, x: Chance)
    requires s == Run(WithAsync, INITIAL, acts)
    ensures FatesKept(s.m, SenderStep(WithAsync, Run(WithAsync, s, others), x.ok, x.i).m)
  {
    Reachable.Always(acts);
    RunKeepsFates(s, others);
    Reachable.RunKeeps(s, others);
    StepKeepsFates(Run(WithAsync, s, others), StepSender(x.ok, x.i));
  }

  // ----- the receiver, exclusively

  function ReceiverPcAfter(pc: ReceiverPc, cur: Word, success: bool): ReceiverPc {
    match pc
    case OPLoop =>
      if cur.ready then (if success then OPRead else OPLoop)
      else if cur.close then OIdle
      else if cur.waiting then (if success then OPRefresh else OPLoop)
      else if cur.fieldless then OIdle
      else if success then OPInit else OPLoop
    case OPRead => OIdle
    case OPRefresh => OPUnset
    case OPInit => OPUnset
    case OPUnset => if success then OIdle else OPDiscard
    case OPDiscard => OPLoop
    case ODLoop =>
      if cur.ready then (if success then ODRead else ODLoop)
      else if cur.close then (if cur.fieldless then ODFree else if success then OGone else ODLoop)
      else if !success then ODLoop
      else if cur.pending then ODDropWaker else OGone
    case ODRead => ODLoop
    case ODDropWaker => ODSetDropping
    case ODSetDropping => if success then OGone else ODLoop
    case ODFree => OGone
    case _ => pc
  }

  function ReceiverCurAfter(pc: ReceiverPc, cur: Word, success: bool, now: Word): Word {
    match pc
    case OPLoop =>
      if cur.ready then (if success then cur else now)
      else if cur.close then cur
      else if cur.waiting then (if success then FieldlessSet(cur) else now)
      else if cur.fieldless then cur
      else if success then PollingSet(cur) else now
    case OPUnset => if success then cur else now
    case ODLoop =>
      if cur.ready then (if success then ReadyUnset(cur) else now)
      else if cur.close then (if cur.fieldless || success then cur else now)
      else if !success then now
      else if cur.pending then ClosedAsyncSetup(cur) else cur
    case ODSetDropping => if success then cur else now
    case _ => cur
  }

  // What the receiver knows of its access between `s` and `t`.
  predicate ReceiverMoved(s: State, t: State, success: bool, now: Word, value: Option<int>) {
    && t.own.pc == ReceiverPcAfter(s.own.pc, s.own.cur, success)
    && t.own.cur == ReceiverCurAfter(s.own.pc, s.own.cur, success, now)
    && t.own.task == s.own.task && FatesKept(s.m, t.m)
    && (s.own.pc.OPRead? ==> t.g.sent.Some? && value == t.g.sent && t.g.outs == [Received(t.g.sent.value)])
    && (s.own.pc.ODRead? ==> t.g.sent.Some? && t.m.data.None? && t.g.outs == [Disposed(t.g.sent.value)])
    && (s.own.pc.OPLoop? && t.own.pc.OIdle? ==> NothingToReceive(t))
    && (s.own.pc.OPUnset? && t.own.pc.OIdle? ==>
          IsParked(Last(t.m)) && t.m.waker.Some? && t.g.parked == Some(t.m.waker.value.id))
    && (t.own.pc.ODDropWaker? ==> t.g.oClosed && s.m.waker.Some? && t.m.waker == s.m.waker)
    && (s.own.pc.ODDropWaker? || s.own.pc.OPDiscard? ==>
          s.m.waker.Some? && t.m.waker.None? && s.m.waker.value.id in t.m.fates &&
          t.m.fates[s.m.waker.value.id] == Discarded)
    && (s.own.pc.ODFree? ==> t.m.freed == 1 && SenderGone(t))
    && (s.own.pc.ODLoop? && t.own.pc.OGone? ==> t.m.freed == 0 && CloseAndDrop(Last(t.m)) && !SenderGone(t))
  }

  lemma PollLoopMoves(s: State, ok: bool, i: nat)
    requires LastOk(s) && ReceiverOk(s) && EntryOk(s, s.own.v.seen) && s.own.pc.OPLoop?
    ensures var t := PollLoop(s, ok, i);
            var a := ReceiverNext(s.own);
            ReceiverMoved(s, t, Succeeds(a, s.m, s.own.v, ok, i), Reads(a, s.m, s.own.v, i), s.m.data)
  {
    if ok && Last(s.m) == s.own.cur { } else { }
  }

  lemma PollUnsetMoves(s: State, ok: bool, i: nat)
    requires LastOk(s) && ReceiverOk(s) && WakerOk(s) && s.own.pc.OPUnset?
    ensures var t := PollUnset(s, ok, i);
            var a := ReceiverNext(s.own);
            ReceiverMoved(s, t, Succeeds(a, s.m, s.own.v, ok, i), Reads(a, s.m, s.own.v, i), s.m.data)
  {
    assert s.m.waker.Some?;
  }

  lemma DropLoopFails(s: State, ok: bool, i: nat)
    requires LastOk(s) && SenderOk(s) && ReceiverOk(s) && WakerOk(s) && EntryOk(s, |s.m.hist| - 1) && s.own.pc.ODLoop?
    requires !(ok && Last(s.m) == s.own.cur)
    ensures var t := DropReceiverLoop(WithAsync, s, ok, i);
            var a := ReceiverNext(s.own);
            ReceiverMoved(s, t, Succeeds(a, s.m, s.own.v, ok, i), Reads(a, s.m, s.own.v, i), s.m.data)
  {
  }

  lemma DropLoopMoves(s: State, ok: bool, i: nat)
    requires LastOk(s) && SenderOk(s) && ReceiverOk(s) && WakerOk(s) && EntryOk(s, |s.m.hist| - 1) && s.own.pc.ODLoop?
    ensures var t := DropReceiverLoop(WithAsync, s, ok, i);
            var a := ReceiverNext(s.own);
            ReceiverMoved(s, t, Succeeds(a, s.m, s.own.v, ok, i), Reads(a, s.m, s.own.v, i), s.m.data)
  {
    if !(ok && Last(s.m) == s.own.cur) {
      DropLoopFails(s, ok, i);
    } else {
      if s.own.cur.ready { } else if s.own.cur.close { } else if s.own.cur.pending { } else { }
    }
  }

  lemma ReceiverCellMoves(s: State, ok: bool, i: nat)
    requires LastOk(s) && ReceiverOk(s) && DataOk(s) && WakerOk(s)
    requires !s.own.pc.OPLoop? && !s.own.pc.OPUnset? && !s.own.pc.ODLoop?
    requires FatesKept(s.m, ReceiverStep(WithAsync, s, ok, i).m)
    ensures var t := ReceiverStep(WithAsync, s, ok, i);
            var a := ReceiverNext(s.own);
            ReceiverMoved(s, t, Succeeds(a, s.m, s.own.v, ok, i), Reads(a, s.m, s.own.v, i), s.m.data)
  {
    match s.own.pc {
      case OPRead =>
      case ODRead =>
      case OPRefresh =>
      case OPInit =>
      case OPDiscard =>
      case ODDropWaker =>
      case ODSetDropping =>
      case _ =>
    }
  }

  lemma ReceiverStepMoves(s: State, ok: bool, i: nat, t: State)
    requires EntryOk(s, |s.m.hist| - 1) && LastOk(s) && SenderOk(s) && ReceiverOk(s) && DataOk(s) && WakerOk(s)
    requires EntryOk(s, s.own.v.seen) && t == ReceiverStep(WithAsync, s, ok, i) && FatesKept(s.m, t.m)
    ensures var a := ReceiverNext(s.own);
            ReceiverMoved(s, t, Succeeds(a, s.m, s.own.v, ok, i), Reads(a, s.m, s.own.v, i), s.m.data)
  {
    if s.own.pc.OPLoop? {
      PollLoopMoves(s, ok, i);
      assert t == PollLoop(s, ok, i);
    } else if s.own.pc.OPUnset? {
      PollUnsetMoves(s, ok, i);
      assert t == PollUnset(s, ok, i);
    } else if s.own.pc.ODLoop? {
      DropLoopMoves(s, ok, i);
      assert t == DropReceiverLoop(WithAsync, s, ok, i);
    } else {
      ReceiverCellMoves(s, ok, i);
    }
  }

  // What others do before the access does not change what the receiver knows of it.
  lemma ReceiverMovedSince(s: State, u: State, t: State, success: bool, now: Word, value: Option<int>)
    requires u.own == s.own && FatesKept(s.m, u.m) && ReceiverMoved(u, t, success, now, value)
    requires u.m.waker.Some? ==> u.m.waker == s.m.waker
    ensures ReceiverMoved(s, t, success, now, value)
  {
  }

  lemma {:induction false} ReceiverTurn(acts: seq<Action>, s: State, others: seq<Action>, ok: bool, i: nat)
    requires s == Run(WithAsync, INITIAL, acts) && Exclusive(s.own.pc) && Foreign(OfReceiver, others)
    ensures var u := Run(WithAsync, s, others);
            var t := ReceiverStep(WithAsync, u, ok, i);
            var a := ReceiverNext(s.own);
            u.own == s.own &&
            ReceiverMoved(s, t, Succeeds(a, u.m, u.own.v, ok, i), Reads(a, u.m, u.own.v, i), u.m.data)
  {
    Reachable.Always(acts);
    Reachable.RunKeeps(s, others);
    ReceiverHoldsOn(s, others);
    var u := Run(WithAsync, s, others);
    var t := ReceiverStep(WithAsync, u, ok, i);
    ReceiverTurnAlone(u, ok, i, t);
    var a := ReceiverNext(s.own);
    ReceiverMovedSince(s, u, t,
                       Succeeds(a, u.m, u.own.v, ok, i), Reads(a, u.m, u.own.v, i), u.m.data);
  }

  lemma ReceiverTurnAlone(u: State, ok: bool, i: nat, t: State)
    requires Inv(u) && t == ReceiverStep(WithAsync, u, ok, i)
    ensures var a := ReceiverNext(u.own);
            ReceiverMoved(u, t, Succeeds(a, u.m, u.own.v, ok, i), Reads(a, u.m, u.own.v, i), u.m.data)
  {
    assert EntryOk(u, u.own.v.seen);
    ReceiverKeepsFates(u, ok, i, t);
    ReceiverStepMoves(u, ok, i, t);
  }

  lemma {:induction false} ReceiverPays(acts: seq<Action>, s: State, sched: Schedule, h: nat, k: nat, u: State)
    requires s == Run(WithAsync, INITIAL, acts) && Running(s, OfReceiver) && Admissible(OfReceiver, sched, h)
    requires u == Run(WithAsync, s, sched(k).others)
    ensures var x := ChanceAt(OfReceiver, sched, h, k, u);
            var t := ReceiverStep(WithAsync, u, x.ok, x.i);
            var a := ReceiverNext(s.own);
            && u.own == s.own
            && ReceiverMoved(s, t, Succeeds(a, u.m, u.own.v, x.ok, x.i), Reads(a, u.m, u.own.v, x.i), u.m.data)
            && (h <= k ==>
                  t.g.polls == s.g.polls &&
                  (Running(t, OfReceiver) ==> ReceiverPotential(t, t.g.polls) < ReceiverPotential(s, s.g.polls)))
  {
    var x := ChanceAt(OfReceiver, sched, h, k, u);
    ReceiverTurn(acts, s, sched(k).others, x.ok, x.i);
    if h <= k {
      ChanceIsUnhindered(OfReceiver, sched, h, k, u);
      TurnPays(acts, s, sched(k).others, OfReceiver, StepReceiver(x.ok, x.i));
    }
  }

  // A thread inside recv stands somewhere, or has returned.
  datatype Position = Out | At(pc: RecvPc, cur: Word)

  function PositionOf(s: State, r: Rid): Position {
    if r in s.rcv then At(s.rcv[r].pc, s.rcv[r].cur) else Out
  }

  function RecvAfter(p: Position, success: bool, now: Word): Position
    requires p.At?
  {
    var cur := p.cur;
    match p.pc
    case RLoad => At(RLoop, now)
    case RLoop =>
      if cur.ready then (if success then At(RRead, cur) else At(RLoop, now))
      else if cur.close then Out
      else if cur.waiting then
        if !cur.pending then At(RWait, cur)
        else if success then At(RDropWaker, cur) else At(RLoop, now)
      else if cur.fieldless then Out
      else if success then At(RWait, WaitingSet(cur)) else At(RLoop, now)
    case RRead => Out
    case RDropWaker => At(RWait, cur)
    case RWait => At(if success then RAsleep else RLoad, cur)
    case RAsleep => p
  }

  // What a thread inside recv knows of its access between `s` and `t`.
  predicate RecvMoved(s: State, t: State, r: Rid, success: bool, now: Word, value: Option<int>)
    requires r in s.rcv
  {
    && PositionOf(t, r) == RecvAfter(PositionOf(s, r), success, now)
    && (r !in t.rcv ==>
          if s.rcv[r].pc.RRead?
          then t.g.sent.Some? && value == t.g.sent && t.g.outs == [Received(t.g.sent.value)]
          else NothingToReceive(t))
  }

  lemma RecvStepMoves(s: State, r: Rid, ok: bool, i: nat)
    requires LastOk(s) && DataOk(s) && r in s.rcv && RecvOk(s, r) && EntryOk(s, s.rcv[r].v.seen)
    requires !s.rcv[r].pc.RAsleep? && ReceiverOk(s)
    ensures var t := RecvStep(WithAsync, s, r, ok, i);
            var a := RecvNext(s.rcv[r]);
            RecvMoved(s, t, r, Succeeds(a, s.m, s.rcv[r].v, ok, i), Reads(a, s.m, s.rcv[r].v, i), s.m.data)
  {
    match s.rcv[r].pc {
      case RLoop => assert RecvStep(WithAsync, s, r, ok, i) == RecvLoop(WithAsync, s, r, ok, i);
      case _ =>
    }
  }

  lemma {:induction false} RecvUndisturbed(s: State, acts: seq<Action>, r: Rid)
    requires r in s.rcv && Foreign(OfRecv(r), acts)
    ensures var t := Run(WithAsync, s, acts);
            r in t.rcv && (t.rcv[r] == s.rcv[r] || (s.rcv[r].pc.RAsleep? && t.rcv[r] == s.rcv[r].(pc := RLoad)))
  {
    if acts != [] {
      var n := |acts| - 1;
      RecvUndisturbed(s, acts[..n], r);
      var u := Run(WithAsync, s, acts[..n]);
      match acts[n] {
        case StepSender(ok, i) => SenderFrame(u, ok, i);
        case StepReceiver(ok, i) => ReceiverFrame(u, ok, i);
        case StepRecv(q, ok, i) => RecvFrame(u, q, ok, i);
        case StartPoll(_, _) => assert r in u.rcv.Keys;
        case StartDropReceiver(_) => assert r in u.rcv.Keys;
        case _ =>
      }
    }
  }

  lemma {:induction false} RecvTurn(acts: seq<Action>, s: State, r: Rid, others: seq<Action>, ok: bool, i: nat)
    requires s == Run(WithAsync, INITIAL, acts) && r in s.rcv && !s.rcv[r].pc.RAsleep? && Foreign(OfRecv(r), others)
    ensures var u := Run(WithAsync, s, others);
            r in u.rcv && u.rcv[r] == s.rcv[r] &&
            var t := RecvStep(WithAsync, u, r, ok, i);
            var a := RecvNext(s.rcv[r]);
            RecvMoved(s, t, r, Succeeds(a, u.m, u.rcv[r].v, ok, i), Reads(a, u.m, u.rcv[r].v, i), u.m.data)
  {
    Reachable.Always(acts);
    Reachable.RunKeeps(s, others);
    RecvUndisturbed(s, others, r);
    var u := Run(WithAsync, s, others);
    assert RecvOk(u, r);
    assert EntryOk(u, u.rcv[r].v.seen);
    RecvStepMoves(u, r, ok, i);
  }

  lemma {:induction false} RecvPays(acts: seq<Action>, s: State, r: Rid, sched: Schedule, h: nat, k: nat, u: State)
    requires s == Run(WithAsync, INITIAL, acts) && r in s.rcv && !s.rcv[r].pc.RAsleep?
    requires Admissible(OfRecv(r), sched, h)
    requires u == Run(WithAsync, s, sched(k).others)
    ensures var x := ChanceAt(OfRecv(r), sched, h, k, u);
            && r in u.rcv && u.rcv[r] == s.rcv[r]
            && var t := RecvStep(WithAsync, u, r, x.ok, x.i);
            var a := RecvNext(s.rcv[r]);
            && RecvMoved(s, t, r, Succeeds(a, u.m, u.rcv[r].v, x.ok, x.i), Reads(a, u.m, u.rcv[r].v, x.i), u.m.data)
            && (h <= k ==>
                  t.g.polls == s.g.polls &&
                  (r in t.rcv ==> RecvPotential(t, r, t.g.polls) < RecvPotential(s, r, s.g.polls)))
  {
    var x := ChanceAt(OfRecv(r), sched, h, k, u);
    RecvTurn(acts, s, r, sched(k).others, x.ok, x.i);
    if h <= k {
      ChanceIsUnhindered(OfRecv(r), sched, h, k, u);
      TurnPays(acts, s, sched(k).others, OfRecv(r), StepRecv(r, x.ok, x.i));
    }
  }

  // A send whose first load reads a word with CLOSE.
  lemma {:induction false} RefusedAtOnce(acts: seq<Action>, x: int, i: nat)
    requires acts != [] && acts[|acts| - 1] == StartSend(x, i)
    requires var s := Run(WithAsync, INITIAL, acts[..|acts| - 1]); s.snd.pc.SIdle? && WordAt(s.m, s.snd.v, i).close
    ensures var t := Run(WithAsync, INITIAL, acts); t.g.oClosed && t.g.sent.None?
  {
    var s := Run(WithAsync, INITIAL, acts[..|acts| - 1]);
    Reachable.Always(acts[..|acts| - 1]);
    assert EntryOk(s, Pick(s.m, s.snd.v, i));
  }
}
