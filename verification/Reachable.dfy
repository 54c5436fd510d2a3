/** Every step of every thread keeps the invariant, hence every run does. */
module Reachable {
  import opened Words
  import opened Memory
  import opened Channel
  import opened Invariant
  import S = SenderSteps
  import O = ReceiverSteps
  import R = RecvSteps

  lemma DropSenderLoopKeeps(s: State, ok: bool, i: nat)
    requires Inv(s) && s.snd.pc.SDLoop?
    ensures Inv(DropSenderLoop(WithAsync, s, ok, i))
  {
    var t := DropSenderLoop(WithAsync, s, ok, i);
    if CloseAndDrop(s.snd.cur) {
      S.DropAcquires(s, i, t);
    } else if !(ok && Last(s.m) == s.snd.cur) {
      S.DropRetries(s, i, t);
    } else if s.snd.cur.close {
      S.DropMarksDropping(s, i, t);
    } else if s.snd.cur.pending && s.snd.cur.fieldless {
      S.DropClosesPolling(s, i, t);
    } else if s.snd.cur.pending {
      S.DropClosesParked(s, i, t);
    } else if s.snd.cur.waiting {
      S.DropClosesBlocked(s, i, t);
    } else {
      S.DropClosesIdle(s, i, t);
    }
  }

  lemma SenderStepKeeps(s: State, ok: bool, i: nat)
    requires Inv(s)
    ensures Inv(SenderStep(WithAsync, s, ok, i))
  {
    var t := SenderStep(WithAsync, s, ok, i);
    match s.snd.pc {
      case SIdle =>
      case SWrite => S.Write(s, ok, i, t);
      case SCas => if ok && Last(s.m) == s.snd.cur { S.ReadyInstalls(s, i, t); } else { S.ReadyFails(s, ok, i, t); }
      case SReadBack => S.ReadBack(s, ok, i, t);
      case SWakeAcquire => S.WakeAcquire(s, ok, i, t);
      case SWakeRun => S.SendWake(s, ok, i, t);
      case SWakeAll => S.SendWakeAll(s, ok, i, t);
      case SDLoad => S.DropLoad(s, ok, i, t);
      case SDLoop => DropSenderLoopKeeps(s, ok, i);
      case SDFree => S.Free(s, ok, i, t);
      case SDWake => S.DropWake(s, ok, i, t);
      case SDWakeAll => S.DropWakeAll(s, ok, i, t);
      case SDSetDropping =>
        if ok && Last(s.m) == s.snd.cur { S.SetDroppingInstalls(s, i, t); } else { S.DropRetries(s, i, t); }
      case SGone =>
    }
  }

  lemma PollLoopKeeps(s: State, ok: bool, i: nat)
    requires Inv(s) && s.own.pc.OPLoop?
    ensures Inv(PollLoop(s, ok, i))
  {
    var t := PollLoop(s, ok, i);
    var success := ok && Last(s.m) == s.own.cur;
    if s.own.cur.ready {
      if success { O.PollTakes(s, i, t); } else { O.PollRetries(s, i, t); }
    } else if Past(s.own.cur) {
      O.PollReturnsNone(s, ok, i, t);
    } else if s.own.cur.waiting {
      if success { O.PollReclaimsWaker(s, i, t); } else { O.PollRetries(s, i, t); }
    } else {
      assert EntryOk(s, s.own.v.seen);
      if success { O.PollStarts(s, i, t); } else { O.PollRetries(s, i, t); }
    }
  }

  lemma DropReceiverLoopKeeps(s: State, ok: bool, i: nat)
    requires Inv(s) && s.own.pc.ODLoop?
    ensures Inv(DropReceiverLoop(WithAsync, s, ok, i))
  {
    var t := DropReceiverLoop(WithAsync, s, ok, i);
    assert EntryOk(s, s.own.v.seen);
    if CloseAndDrop(s.own.cur) && !s.own.cur.ready {
      O.DropAcquires(s, i, t);
    } else if !(ok && Last(s.m) == s.own.cur) {
      O.DropRetries(s, i, t);
    } else if s.own.cur.ready {
      O.DropTakes(s, i, t);
    } else if s.own.cur.waiting {
      O.DropClosesParked(s, i, t);
    } else {
      O.DropClosesIdle(s, i, t);
    }
  }

  lemma ReceiverStepKeeps(s: State, ok: bool, i: nat)
    requires Inv(s)
    ensures Inv(ReceiverStep(WithAsync, s, ok, i))
  {
    var t := ReceiverStep(WithAsync, s, ok, i);
    match s.own.pc {
      case OIdle =>
      case OPLoop => PollLoopKeeps(s, ok, i);
      case OPRead => O.PollRead(s, ok, i, t);
      case OPRefresh => O.Refresh(s, ok, i, t);
      case OPInit => O.Init(s, ok, i, t);
      case OPUnset => if UnsetSucceeds(s, ok, i) { O.UnsetInstalls(s, ok, i, t); } else { O.UnsetFails(s, ok, i, t); }
      case OPDiscard => O.Discard(s, ok, i, t);
      case ODLoop => DropReceiverLoopKeeps(s, ok, i);
      case ODRead => O.DropRead(s, ok, i, t);
      case ODDropWaker => O.DropWaker(s, ok, i, t);
      case ODSetDropping =>
        if ok && Last(s.m) == s.own.cur { O.SetDroppingInstalls(s, i, t); } else { O.DropRetries(s, i, t); }
      case ODFree => O.Free(s, ok, i, t);
      case OGone =>
    }
  }

  lemma RecvLoopKeeps(s: State, r: Rid, ok: bool, i: nat)
    requires Inv(s) && r in s.rcv && s.rcv[r].pc.RLoop?
    ensures Inv(RecvLoop(WithAsync, s, r, ok, i))
  {
    var t := RecvLoop(WithAsync, s, r, ok, i);
    var cur := s.rcv[r].cur;
    assert EntryOk(s, s.rcv[r].v.seen);
    if !cur.ready && Past(cur) {
      R.ReturnsNone(s, r, ok, i, t);
    } else if cur.waiting && !cur.pending {
      R.GoesToWait(s, r, ok, i, t);
    } else if !(ok && Last(s.m) == cur) {
      R.Retries(s, r, i, t);
    } else if cur.ready {
      R.Takes(s, r, i, t);
    } else if cur.pending {
      R.TakesOver(s, r, i, t);
    } else {
      R.Blocks(s, r, i, t);
    }
  }

  lemma RecvStepKeeps(s: State, r: Rid, ok: bool, i: nat)
    requires Inv(s)
    ensures Inv(RecvStep(WithAsync, s, r, ok, i))
  {
    var t := RecvStep(WithAsync, s, r, ok, i);
    if r in s.rcv {
      match s.rcv[r].pc {
        case RLoad => R.Load(s, r, i, t);
        case RLoop => RecvLoopKeeps(s, r, ok, i);
        case RRead => R.ReadReturns(s, r, ok, i, t);
        case RDropWaker => R.DropWaker(s, r, t);
        case RWait => R.Wait(s, r, ok, t);
        case RAsleep => R.Asleep(s, r, ok, i, t);
      }
    }
  }

  lemma StepKeeps(s: State, a: Action)
    requires Inv(s)
    ensures Inv(Step(WithAsync, s, a))
  {
    var t := Step(WithAsync, s, a);
    match a {
      case StartSend(x, i) => if s.snd.pc.SIdle? { S.BeginsSend(s, x, i, t); }
      case StartDropSender(i) => if s.snd.pc.SIdle? { S.BeginsDropSender(s, i, t); }
      case StepSender(ok, i) => SenderStepKeeps(s, ok, i);
      case StartPoll(task, i) => if s.own.pc.OIdle? && !Inside(s) { O.BeginsPoll(s, task, i, t); }
      case StartDropReceiver(i) => if s.own.pc.OIdle? && !Inside(s) { O.BeginsDropReceiver(s, i, t); }
      case StepReceiver(ok, i) => ReceiverStepKeeps(s, ok, i);
      case StartRecv(r) => if s.own.pc.OIdle? && r !in s.rcv { R.BeginsRecv(s, r, t); }
      case StepRecv(r, ok, i) => RecvStepKeeps(s, r, ok, i);
    }
  }

  lemma {:induction false} RunKeeps(s: State, acts: seq<Action>)
    requires Inv(s)
    ensures Inv(Run(WithAsync, s, acts))
  {
    if acts != [] {
      var before := acts[..|acts| - 1];
      RunKeeps(s, before);
      StepKeeps(Run(WithAsync, s, before), acts[|acts| - 1]);
    }
  }

  lemma {:induction false} Always(acts: seq<Action>)
    ensures Inv(Run(WithAsync, INITIAL, acts))
  {
    InitialInv();
    RunKeeps(INITIAL, acts);
  }
}
