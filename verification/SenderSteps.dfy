/** The steps of the sending thread, each keeping the invariant. Where a step touches more
    than one part of the state, the part about the status word and the threads is a lemma of
    its own. */
module SenderSteps {
  import opened Words
  import opened Memory
  import opened Channel
  import opened Invariant
  import opened Frames

  lemma WriteSender(s: State, ok: bool, i: nat, t: State)
    requires LastOk(s) && SenderOk(s) && s.snd.pc.SWrite?
    requires t == SenderStep(WithAsync, s, ok, i)
    ensures SenderOk(t) && LastOk(t) && SenderQuiet(s, t)
  {
  }

  lemma Write(s: State, ok: bool, i: nat, t: State)
    requires Inv(s) && s.snd.pc.SWrite?
    requires t == SenderStep(WithAsync, s, ok, i)
    ensures Inv(t)
  {
    WriteSender(s, ok, i, t);
    SenderQuietKeeps(s, t);
  }

  lemma ReadBackSender(s: State, ok: bool, i: nat, t: State)
    requires LastOk(s) && SenderOk(s) && s.snd.pc.SReadBack?
    requires t == SenderStep(WithAsync, s, ok, i)
    ensures SenderOk(t) && LastOk(t) && SenderQuiet(s, t)
  {
  }

  lemma ReadBack(s: State, ok: bool, i: nat, t: State)
    requires Inv(s) && s.snd.pc.SReadBack?
    requires t == SenderStep(WithAsync, s, ok, i)
    ensures Inv(t)
  {
    ReadBackSender(s, ok, i, t);
    SenderQuietKeeps(s, t);
  }

  lemma WakeAcquireSender(s: State, ok: bool, i: nat, t: State)
    requires LastOk(s) && SenderOk(s) && s.snd.pc.SWakeAcquire?
    requires t == SenderStep(WithAsync, s, ok, i)
    ensures SenderOk(t) && LastOk(t) && SenderQuiet(s, t)
  {
  }

  lemma WakeAcquire(s: State, ok: bool, i: nat, t: State)
    requires Inv(s) && s.snd.pc.SWakeAcquire?
    requires t == SenderStep(WithAsync, s, ok, i)
    ensures Inv(t)
  {
    WakeAcquireSender(s, ok, i, t);
    assert Ordered(s.m.hist, s.snd.v.seen, t.snd.v.seen);
    SenderQuietKeeps(s, t);
  }

  lemma SendWakeSender(s: State, ok: bool, i: nat, t: State)
    requires LastOk(s) && SenderOk(s) && s.snd.pc.SWakeRun?
    requires t == SenderStep(WithAsync, s, ok, i)
    ensures SenderOk(t) && LastOk(t) && SenderQuiet(s, t)
  {
  }

  lemma SendWake(s: State, ok: bool, i: nat, t: State)
    requires Inv(s) && s.snd.pc.SWakeRun?
    requires t == SenderStep(WithAsync, s, ok, i)
    ensures Inv(t)
  {
    SendWakeSender(s, ok, i, t);
    SenderQuietKeeps(s, t);
  }

  lemma SendWakeAllControl(s: State, ok: bool, i: nat, t: State)
    requires Control(s) && s.snd.pc.SWakeAll?
    requires t == SenderStep(WithAsync, s, ok, i)
    ensures Control(t)
  {
  }

  lemma SendWakeAll(s: State, ok: bool, i: nat, t: State)
    requires Inv(s) && s.snd.pc.SWakeAll?
    requires t == SenderStep(WithAsync, s, ok, i)
    ensures Inv(t)
  {
    SendWakeAllControl(s, ok, i, t);
    HistoryKept(s, t, 0);
    EventsKept(s, t, 0);
  }

  lemma DropLoadSender(s: State, ok: bool, i: nat, t: State)
    requires LastOk(s) && SenderOk(s) && s.snd.pc.SDLoad?
    requires t == SenderStep(WithAsync, s, ok, i)
    ensures SenderOk(t) && LastOk(t) && SenderQuiet(s, t)
  {
  }

  lemma DropLoad(s: State, ok: bool, i: nat, t: State)
    requires Inv(s) && s.snd.pc.SDLoad?
    requires t == SenderStep(WithAsync, s, ok, i)
    ensures Inv(t)
  {
    DropLoadSender(s, ok, i, t);
    SenderQuietKeeps(s, t);
  }

  lemma DropWakeSender(s: State, ok: bool, i: nat, t: State)
    requires LastOk(s) && SenderOk(s) && s.snd.pc.SDWake?
    requires t == SenderStep(WithAsync, s, ok, i)
    ensures SenderOk(t) && LastOk(t) && SenderQuiet(s, t)
  {
  }

  lemma DropWake(s: State, ok: bool, i: nat, t: State)
    requires Inv(s) && s.snd.pc.SDWake?
    requires t == SenderStep(WithAsync, s, ok, i)
    ensures Inv(t)
  {
    DropWakeSender(s, ok, i, t);
    SenderQuietKeeps(s, t);
  }

  lemma DropWakeAllControl(s: State, ok: bool, i: nat, t: State)
    requires Control(s) && s.snd.pc.SDWakeAll?
    requires t == SenderStep(WithAsync, s, ok, i)
    ensures Control(t)
  {
  }

  lemma DropWakeAll(s: State, ok: bool, i: nat, t: State)
    requires Inv(s) && s.snd.pc.SDWakeAll?
    requires t == SenderStep(WithAsync, s, ok, i)
    ensures Inv(t)
  {
    DropWakeAllControl(s, ok, i, t);
    HistoryKept(s, t, 0);
    EventsKept(s, t, 0);
  }

  lemma ReadyFailsSender(s: State, ok: bool, i: nat, t: State)
    requires LastOk(s) && SenderOk(s) && s.snd.pc.SCas? && !(ok && Last(s.m) == s.snd.cur)
    requires EntryOk(s, Pick(s.m, s.snd.v, i))
    requires t == TryReady(WithAsync, s, ok, i)
    ensures SenderOk(t) && LastOk(t) && SenderQuiet(s, t)
  {
  }

  lemma ReadyFails(s: State, ok: bool, i: nat, t: State)
    requires Inv(s) && s.snd.pc.SCas? && !(ok && Last(s.m) == s.snd.cur)
    requires t == TryReady(WithAsync, s, ok, i)
    ensures Inv(t)
  {
    assert EntryOk(s, Pick(s.m, s.snd.v, i));
    ReadyFailsSender(s, ok, i, t);
    SenderQuietKeeps(s, t);
  }

  lemma ReadyInstallsControl(s: State, i: nat, t: State)
    requires Control(s) && s.snd.pc.SCas? && Last(s.m) == s.snd.cur
    requires t == TryReady(WithAsync, s, true, i)
    ensures Control(t)
  {
    RecvsUnmoved(s, t);
  }

  lemma ReadyInstalls(s: State, i: nat, t: State)
    requires Inv(s) && s.snd.pc.SCas? && Last(s.m) == s.snd.cur
    requires t == TryReady(WithAsync, s, true, i)
    ensures Inv(t)
  {
    ReadyInstallsControl(s, i, t);
    HistoryKept(s, t, 1);
    EventsKept(s, t, 1);
  }

  lemma DropRetriesSender(s: State, i: nat, t: State)
    requires LastOk(s) && SenderOk(s) && (s.snd.pc.SDLoop? || s.snd.pc.SDSetDropping?)
    requires t == SenderReload(s, i, SDLoop)
    ensures SenderOk(t) && LastOk(t) && SenderQuiet(s, t)
  {
  }

  lemma DropRetries(s: State, i: nat, t: State)
    requires Inv(s) && (s.snd.pc.SDLoop? || s.snd.pc.SDSetDropping?)
    requires t == SenderReload(s, i, SDLoop)
    ensures Inv(t)
  {
    DropRetriesSender(s, i, t);
    SenderQuietKeeps(s, t);
  }

  lemma SetDroppingInstallsControl(s: State, i: nat, t: State)
    requires Control(s) && s.snd.pc.SDSetDropping? && Last(s.m) == s.snd.cur
    requires t == SenderStep(WithAsync, s, true, i)
    ensures Control(t)
  {
  }

  lemma SetDroppingInstalls(s: State, i: nat, t: State)
    requires Inv(s) && s.snd.pc.SDSetDropping? && Last(s.m) == s.snd.cur
    requires t == SenderStep(WithAsync, s, true, i)
    ensures Inv(t)
  {
    SetDroppingInstallsControl(s, i, t);
    HistoryKept(s, t, 1);
    SenderLeaves(s, t);
  }

  lemma DropMarksDroppingControl(s: State, i: nat, t: State)
    requires Control(s) && s.snd.pc.SDLoop? && Last(s.m) == s.snd.cur && IsClosed(s.snd.cur)
    requires t == DropSenderLoop(WithAsync, s, true, i)
    ensures Control(t)
  {
  }

  lemma DropMarksDropping(s: State, i: nat, t: State)
    requires Inv(s) && s.snd.pc.SDLoop? && Last(s.m) == s.snd.cur && IsClosed(s.snd.cur)
    requires t == DropSenderLoop(WithAsync, s, true, i)
    ensures Inv(t)
  {
    DropMarksDroppingControl(s, i, t);
    HistoryKept(s, t, 1);
    SenderLeaves(s, t);
  }

  lemma DropClosesPolling(s: State, i: nat, t: State)
    requires Inv(s) && s.snd.pc.SDLoop? && Last(s.m) == s.snd.cur && IsPolling(s.snd.cur)
    requires t == DropSenderLoop(WithAsync, s, true, i)
    ensures Inv(t)
  {
    HistoryKept(s, t, 1);
    SenderLeaves(s, t);
  }

  lemma DropClosesIdleControl(s: State, i: nat, t: State)
    requires Control(s) && s.snd.pc.SDLoop? && Last(s.m) == s.snd.cur && !s.snd.cur.close && !s.snd.cur.waiting
    requires t == DropSenderLoop(WithAsync, s, true, i)
    ensures Control(t)
  {
  }

  lemma DropClosesIdle(s: State, i: nat, t: State)
    requires Inv(s) && s.snd.pc.SDLoop? && Last(s.m) == s.snd.cur && !s.snd.cur.close && !s.snd.cur.waiting
    requires t == DropSenderLoop(WithAsync, s, true, i)
    ensures Inv(t)
  {
    DropClosesIdleControl(s, i, t);
    HistoryKept(s, t, 1);
    SenderLeaves(s, t);
  }

  lemma DropClosesParked(s: State, i: nat, t: State)
    requires Inv(s) && s.snd.pc.SDLoop? && Last(s.m) == s.snd.cur && IsParked(s.snd.cur)
    requires t == DropSenderLoop(WithAsync, s, true, i)
    ensures Inv(t)
  {
    RecvsUnmoved(s, t);
    HistoryKept(s, t, 1);
    EventsKept(s, t, 1);
  }

  lemma DropClosesBlocked(s: State, i: nat, t: State)
    requires Inv(s) && s.snd.pc.SDLoop? && Last(s.m) == s.snd.cur && IsBlocked(s.snd.cur)
    requires t == DropSenderLoop(WithAsync, s, true, i)
    ensures Inv(t)
  {
    HistoryKept(s, t, 1);
    EventsKept(s, t, 1);
  }

  lemma DropAcquires(s: State, i: nat, t: State)
    requires Inv(s) && s.snd.pc.SDLoop? && CloseAndDrop(s.snd.cur)
    requires t == SenderAcquire(s, i, SDFree)
    ensures Inv(t)
  {
    assert EntryOk(s, s.snd.v.seen);
    assert Ordered(s.m.hist, s.snd.v.seen, t.snd.v.seen);
    HistoryKept(s, t, 0);
    forall e | 0 <= e < t.m.clock ensures EventOk(t, e) {
      if e < s.m.clock { assert EventOk(s, e); }
    }
  }

  lemma Free(s: State, ok: bool, i: nat, t: State)
    requires Inv(s) && s.snd.pc.SDFree?
    requires t == SenderStep(WithAsync, s, ok, i)
    ensures Inv(t)
  {
    forall e | 0 <= e < s.m.clock ensures e in s.snd.v.know {
      assert EventOk(s, e);
    }
    HistoryKept(s, t, 0);
  }

  lemma BeginsSendSender(s: State, x: int, i: nat, t: State)
    requires LastOk(s) && SenderOk(s) && s.snd.pc.SIdle?
    requires EntryOk(s, Pick(s.m, s.snd.v, i))
    requires t == BeginSend(s, x, i)
    ensures SenderOk(t) && LastOk(t) && SenderQuiet(s, t)
  {
  }

  lemma BeginsSend(s: State, x: int, i: nat, t: State)
    requires Inv(s) && s.snd.pc.SIdle?
    requires t == BeginSend(s, x, i)
    ensures Inv(t)
  {
    assert EntryOk(s, Pick(s.m, s.snd.v, i));
    BeginsSendSender(s, x, i, t);
    SenderQuietKeeps(s, t);
  }

  lemma BeginsDropSenderSender(s: State, i: nat, t: State)
    requires LastOk(s) && SenderOk(s) && s.snd.pc.SIdle?
    requires t == BeginDropSender(s, i)
    ensures SenderOk(t) && LastOk(t) && SenderQuiet(s, t)
  {
  }

  lemma BeginsDropSender(s: State, i: nat, t: State)
    requires Inv(s) && s.snd.pc.SIdle?
    requires t == BeginDropSender(s, i)
    ensures Inv(t)
  {
    BeginsDropSenderSender(s, i, t);
    SenderQuietKeeps(s, t);
  }
}
