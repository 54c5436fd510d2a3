/** The steps of the exclusive receiver operations, poll and drop, each keeping the
    invariant. */
module ReceiverSteps {
  import opened Words
  import opened Memory
  import opened Channel
  import opened Invariant
  import opened Frames

  lemma PollReadReceiver(s: State, ok: bool, i: nat, t: State)
    requires LastOk(s) && ReceiverOk(s) && s.own.pc.OPRead?
    requires t == ReceiverStep(WithAsync, s, ok, i)
    ensures ReceiverOk(t) && LastOk(t) && ReceiverQuiet(s, t)
  {
  }

  lemma PollRead(s: State, ok: bool, i: nat, t: State)
    requires Inv(s) && s.own.pc.OPRead?
    requires t == ReceiverStep(WithAsync, s, ok, i)
    ensures Inv(t)
  {
    PollReadReceiver(s, ok, i, t);
    ReceiverQuietKeeps(s, t);
  }

  lemma RefreshReceiver(s: State, ok: bool, i: nat, t: State)
    requires LastOk(s) && ReceiverOk(s) && s.own.pc.OPRefresh?
    requires t == ReceiverStep(WithAsync, s, ok, i)
    ensures ReceiverOk(t) && LastOk(t) && ReceiverQuiet(s, t)
  {
  }

  lemma Refresh(s: State, ok: bool, i: nat, t: State)
    requires Inv(s) && s.own.pc.OPRefresh?
    requires t == ReceiverStep(WithAsync, s, ok, i)
    ensures Inv(t)
  {
    RefreshReceiver(s, ok, i, t);
    ReceiverQuietKeeps(s, t);
  }

  lemma InitReceiver(s: State, ok: bool, i: nat, t: State)
    requires LastOk(s) && ReceiverOk(s) && s.own.pc.OPInit?
    requires t == ReceiverStep(WithAsync, s, ok, i)
    ensures ReceiverOk(t) && LastOk(t) && ReceiverQuiet(s, t)
  {
  }

  lemma Init(s: State, ok: bool, i: nat, t: State)
    requires Inv(s) && s.own.pc.OPInit?
    requires t == ReceiverStep(WithAsync, s, ok, i)
    ensures Inv(t)
  {
    InitReceiver(s, ok, i, t);
    ReceiverQuietKeeps(s, t);
  }

  lemma DiscardReceiver(s: State, ok: bool, i: nat, t: State)
    requires LastOk(s) && ReceiverOk(s) && s.own.pc.OPDiscard?
    requires t == ReceiverStep(WithAsync, s, ok, i)
    ensures ReceiverOk(t) && LastOk(t) && ReceiverQuiet(s, t)
  {
  }

  lemma Discard(s: State, ok: bool, i: nat, t: State)
    requires Inv(s) && s.own.pc.OPDiscard?
    requires t == ReceiverStep(WithAsync, s, ok, i)
    ensures Inv(t)
  {
    DiscardReceiver(s, ok, i, t);
    ReceiverQuietKeeps(s, t);
  }

  lemma DropReadReceiver(s: State, ok: bool, i: nat, t: State)
    requires LastOk(s) && ReceiverOk(s) && s.own.pc.ODRead?
    requires t == ReceiverStep(WithAsync, s, ok, i)
    ensures ReceiverOk(t) && LastOk(t) && ReceiverQuiet(s, t)
  {
  }

  lemma DropRead(s: State, ok: bool, i: nat, t: State)
    requires Inv(s) && s.own.pc.ODRead?
    requires t == ReceiverStep(WithAsync, s, ok, i)
    ensures Inv(t)
  {
    DropReadReceiver(s, ok, i, t);
    ReceiverQuietKeeps(s, t);
  }

  lemma DropWakerReceiver(s: State, ok: bool, i: nat, t: State)
    requires LastOk(s) && ReceiverOk(s) && s.own.pc.ODDropWaker?
    requires t == ReceiverStep(WithAsync, s, ok, i)
    ensures ReceiverOk(t) && LastOk(t) && ReceiverQuiet(s, t)
  {
  }

  lemma DropWaker(s: State, ok: bool, i: nat, t: State)
    requires Inv(s) && s.own.pc.ODDropWaker?
    requires t == ReceiverStep(WithAsync, s, ok, i)
    ensures Inv(t)
  {
    DropWakerReceiver(s, ok, i, t);
    ReceiverQuietKeeps(s, t);
  }

  lemma Free(s: State, ok: bool, i: nat, t: State)
    requires Inv(s) && s.own.pc.ODFree?
    requires t == ReceiverStep(WithAsync, s, ok, i)
    ensures Inv(t)
  {
    forall e | 0 <= e < s.m.clock ensures e in s.own.v.know {
      assert EventOk(s, e);
    }
    HistoryKept(s, t, 0);
  }

  lemma PollReturnsNone(s: State, ok: bool, i: nat, t: State)
    requires Inv(s) && s.own.pc.OPLoop? && !s.own.cur.ready && Past(s.own.cur)
    requires t == PollLoop(s, ok, i)
    ensures Inv(t)
  {
    assert EntryOk(s, s.own.v.seen);
    HistoryKept(s, t, 0);
    EventsKept(s, t, 0);
  }

  lemma PollRetriesReceiver(s: State, i: nat, t: State)
    requires LastOk(s) && ReceiverOk(s) && s.own.pc.OPLoop?
    requires t == ReceiverReload(s, i, OPLoop)
    ensures ReceiverOk(t) && LastOk(t) && ReceiverQuiet(s, t)
  {
  }

  lemma PollRetries(s: State, i: nat, t: State)
    requires Inv(s) && s.own.pc.OPLoop?
    requires t == ReceiverReload(s, i, OPLoop)
    ensures Inv(t)
  {
    PollRetriesReceiver(s, i, t);
    ReceiverQuietKeeps(s, t);
  }

  lemma PollTakes(s: State, i: nat, t: State)
    requires Inv(s) && s.own.pc.OPLoop? && Last(s.m) == s.own.cur && s.own.cur.ready
    requires t == PollLoop(s, true, i)
    ensures Inv(t)
  {
    HistoryKept(s, t, 1);
    EventsKept(s, t, 1);
  }

  lemma PollReclaimsWaker(s: State, i: nat, t: State)
    requires Inv(s) && s.own.pc.OPLoop? && Last(s.m) == s.own.cur && s.own.cur.waiting
    requires t == PollLoop(s, true, i)
    ensures Inv(t)
  {
    HistoryKept(s, t, 1);
    EventsKept(s, t, 1);
  }

  lemma PollStarts(s: State, i: nat, t: State)
    requires Inv(s) && s.own.pc.OPLoop? && Last(s.m) == s.own.cur && IsNew(s.own.cur)
    requires t == PollLoop(s, true, i)
    ensures Inv(t)
  {
    HistoryKept(s, t, 1);
    EventsKept(s, t, 1);
  }

  lemma UnsetInstalls(s: State, ok: bool, i: nat, t: State)
    requires Inv(s) && s.own.pc.OPUnset? && UnsetSucceeds(s, ok, i)
    requires t == PollUnset(s, ok, i)
    ensures Inv(t)
  {
    HistoryKept(s, t, 1);
    EventsKept(s, t, 1);
  }

  lemma UnsetFailsReceiver(s: State, ok: bool, i: nat, t: State)
    requires LastOk(s) && ReceiverOk(s) && s.own.pc.OPUnset? && !UnsetSucceeds(s, ok, i)
    requires EntryOk(s, |s.m.hist| - 1)
    requires t == PollUnset(s, ok, i)
    ensures ReceiverOk(t) && LastOk(t) && ReceiverQuiet(s, t)
  {
  }

  lemma UnsetFails(s: State, ok: bool, i: nat, t: State)
    requires Inv(s) && s.own.pc.OPUnset? && !UnsetSucceeds(s, ok, i)
    requires t == PollUnset(s, ok, i)
    ensures Inv(t)
  {
    UnsetFailsReceiver(s, ok, i, t);
    ReceiverQuietKeeps(s, t);
  }

  lemma DropRetriesReceiver(s: State, i: nat, t: State)
    requires LastOk(s) && ReceiverOk(s) && (s.own.pc.ODLoop? || s.own.pc.ODSetDropping?)
    requires t == ReceiverReload(s, i, ODLoop)
    ensures ReceiverOk(t) && LastOk(t) && ReceiverQuiet(s, t)
  {
  }

  lemma DropRetries(s: State, i: nat, t: State)
    requires Inv(s) && (s.own.pc.ODLoop? || s.own.pc.ODSetDropping?)
    requires t == ReceiverReload(s, i, ODLoop)
    ensures Inv(t)
  {
    DropRetriesReceiver(s, i, t);
    ReceiverQuietKeeps(s, t);
  }

  lemma DropAcquires(s: State, i: nat, t: State)
    requires Inv(s) && s.own.pc.ODLoop? && CloseAndDrop(s.own.cur) && !s.own.cur.ready
    requires t == ReceiverAcquire(s, i, ODFree)
    ensures Inv(t)
  {
    assert EntryOk(s, s.own.v.seen);
    assert Ordered(s.m.hist, s.own.v.seen, |s.m.hist| - 1);
    assert Ordered(s.m.hist, s.own.v.seen, t.own.v.seen);
    HistoryKept(s, t, 0);
    forall e | 0 <= e < t.m.clock ensures EventOk(t, e) {
      if e < s.m.clock { assert EventOk(s, e); }
    }
  }

  lemma DropTakes(s: State, i: nat, t: State)
    requires Inv(s) && s.own.pc.ODLoop? && Last(s.m) == s.own.cur && s.own.cur.ready
    requires t == DropReceiverLoop(WithAsync, s, true, i)
    ensures Inv(t)
  {
    HistoryKept(s, t, 1);
    EventsKept(s, t, 1);
  }

  lemma DropClosesParked(s: State, i: nat, t: State)
    requires Inv(s) && s.own.pc.ODLoop? && Last(s.m) == s.own.cur && s.own.cur.waiting
    requires t == DropReceiverLoop(WithAsync, s, true, i)
    ensures Inv(t)
  {
    HistoryKept(s, t, 1);
    EventsKept(s, t, 1);
  }

  lemma DropClosesIdleControl(s: State, i: nat, t: State)
    requires Control(s) && s.own.pc.ODLoop? && Last(s.m) == s.own.cur
    requires !CloseAndDrop(s.own.cur) && !s.own.cur.ready && !s.own.cur.waiting
    requires t == DropReceiverLoop(WithAsync, s, true, i)
    ensures Control(t)
  {
  }

  lemma DropClosesIdle(s: State, i: nat, t: State)
    requires Inv(s) && s.own.pc.ODLoop? && Last(s.m) == s.own.cur
    requires !CloseAndDrop(s.own.cur) && !s.own.cur.ready && !s.own.cur.waiting
    requires t == DropReceiverLoop(WithAsync, s, true, i)
    ensures Inv(t)
  {
    DropClosesIdleControl(s, i, t);
    HistoryKept(s, t, 1);
    ReceiverLeaves(s, t);
  }

  lemma SetDroppingInstalls(s: State, i: nat, t: State)
    requires Inv(s) && s.own.pc.ODSetDropping? && Last(s.m) == s.own.cur
    requires t == ReceiverStep(WithAsync, s, true, i)
    ensures Inv(t)
  {
    HistoryKept(s, t, 1);
    ReceiverLeaves(s, t);
  }

  lemma BeginsPollControl(s: State, task: nat, i: nat, t: State)
    requires Control(s) && s.own.pc.OIdle? && !Inside(s)
    requires t == BeginPoll(WithAsync, s, task, i)
    ensures Control(t)
  {
  }

  lemma BeginsPoll(s: State, task: nat, i: nat, t: State)
    requires Inv(s) && s.own.pc.OIdle? && !Inside(s)
    requires t == BeginPoll(WithAsync, s, task, i)
    ensures Inv(t)
  {
    BeginsPollControl(s, task, i, t);
    HistoryKept(s, t, 0);
    EventsKept(s, t, 0);
  }

  lemma BeginsDropReceiver(s: State, i: nat, t: State)
    requires Inv(s) && s.own.pc.OIdle? && !Inside(s)
    requires t == BeginDropReceiver(s, i)
    ensures Inv(t)
  {
    HistoryKept(s, t, 0);
    EventsKept(s, t, 0);
  }
}
