/** The steps of a thread inside `recv`, each keeping the invariant; there may be any number
    of such threads. */
module RecvSteps {
  import opened Words
  import opened Memory
  import opened Channel
  import opened Invariant
  import opened Frames

  lemma LoadRecv(s: State, r: Rid, i: nat, t: State)
    requires LastOk(s) && ReceiverOk(s) && r in s.rcv && RecvOk(s, r) && s.rcv[r].pc.RLoad?
    requires t == RecvReload(s, r, i)
    ensures RecvQuiet(s, t, r) && RecvOk(t, r) && LastOk(t)
  {
  }

  lemma Load(s: State, r: Rid, i: nat, t: State)
    requires Inv(s) && r in s.rcv && s.rcv[r].pc.RLoad?
    requires t == RecvReload(s, r, i)
    ensures Inv(t)
  {
    assert RecvOk(s, r);
    LoadRecv(s, r, i, t);
    RecvQuietKeeps(s, t, r);
  }

  lemma DropWakerRecv(s: State, r: Rid, t: State)
    requires LastOk(s) && ReceiverOk(s) && r in s.rcv && RecvOk(s, r) && s.rcv[r].pc.RDropWaker?
    requires t == RecvDropWaker(s, r)
    ensures RecvQuiet(s, t, r) && RecvOk(t, r) && LastOk(t)
  {
  }

  lemma DropWaker(s: State, r: Rid, t: State)
    requires Inv(s) && r in s.rcv && s.rcv[r].pc.RDropWaker?
    requires t == RecvDropWaker(s, r)
    ensures Inv(t)
  {
    assert RecvOk(s, r);
    DropWakerRecv(s, r, t);
    RecvQuietKeeps(s, t, r);
  }

  lemma WaitRecv(s: State, r: Rid, ok: bool, t: State)
    requires LastOk(s) && ReceiverOk(s) && r in s.rcv && RecvOk(s, r) && s.rcv[r].pc.RWait?
    requires t == RecvWait(s, r, ok)
    ensures RecvQuiet(s, t, r) && RecvOk(t, r) && LastOk(t)
  {
  }

  lemma Wait(s: State, r: Rid, ok: bool, t: State)
    requires Inv(s) && r in s.rcv && s.rcv[r].pc.RWait?
    requires t == RecvWait(s, r, ok)
    ensures Inv(t)
  {
    assert RecvOk(s, r);
    WaitRecv(s, r, ok, t);
    RecvQuietKeeps(s, t, r);
  }

  lemma AsleepRecv(s: State, r: Rid, ok: bool, i: nat, t: State)
    requires LastOk(s) && ReceiverOk(s) && r in s.rcv && RecvOk(s, r) && s.rcv[r].pc.RAsleep?
    requires t == RecvStep(WithAsync, s, r, ok, i)
    ensures RecvQuiet(s, t, r) && RecvOk(t, r) && LastOk(t)
  {
  }

  lemma Asleep(s: State, r: Rid, ok: bool, i: nat, t: State)
    requires Inv(s) && r in s.rcv && s.rcv[r].pc.RAsleep?
    requires t == RecvStep(WithAsync, s, r, ok, i)
    ensures Inv(t)
  {
    assert RecvOk(s, r);
    AsleepRecv(s, r, ok, i, t);
    RecvQuietKeeps(s, t, r);
  }

  lemma ReadReturnsControl(s: State, r: Rid, ok: bool, i: nat, t: State)
    requires Control(s) && r in s.rcv && s.rcv[r].pc.RRead?
    requires !Last(s.m).waiting
    requires t == RecvRead(s, r)
    ensures Control(t)
  {
    assert RecvOk(s, r);
    RecvLeavesControl(s, t, r);
  }

  lemma ReadReturnsHistory(s: State, r: Rid, t: State)
    requires HistoryOk(s) && r in s.rcv && RecvOk(s, r) && ReceiverOk(s) && s.rcv[r].pc.RRead?
    requires t == RecvRead(s, r)
    ensures HistoryOk(t) && !Last(s.m).waiting
  {
    forall i | t.joined.seen <= i < |s.m.hist| ensures !s.m.hist[i].word.waiting {
      assert Ordered(s.m.hist, s.rcv[r].v.seen, i);
    }
    HistoryKept(s, t, 0);
  }

  lemma ReadReturnsEvents(s: State, r: Rid, t: State)
    requires EventsOk(s) && LastOk(s) && SenderOk(s) && ReceiverOk(s)
    requires r in s.rcv && RecvOk(s, r) && s.rcv[r].pc.RRead?
    requires t == RecvRead(s, r)
    ensures EventsOk(t)
  {
    EventsKept(s, t, 0);
  }

  lemma ReadReturns(s: State, r: Rid, ok: bool, i: nat, t: State)
    requires Inv(s) && r in s.rcv && s.rcv[r].pc.RRead?
    requires t == RecvRead(s, r)
    ensures Inv(t)
  {
    assert RecvOk(s, r);
    ReadReturnsHistory(s, r, t);
    ReadReturnsControl(s, r, ok, i, t);
    ReadReturnsEvents(s, r, t);
  }

  lemma ReturnsNoneControl(s: State, r: Rid, ok: bool, i: nat, t: State)
    requires Control(s) && r in s.rcv && s.rcv[r].pc.RLoop? && !s.rcv[r].cur.ready && Past(s.rcv[r].cur)
    requires EntryOk(s, s.rcv[r].v.seen) && !Last(s.m).waiting
    requires t == RecvLoop(WithAsync, s, r, ok, i)
    ensures Control(t)
  {
    assert RecvOk(s, r);
    RecvLeavesControl(s, t, r);
  }

  lemma ReturnsNone(s: State, r: Rid, ok: bool, i: nat, t: State)
    requires Inv(s) && r in s.rcv && s.rcv[r].pc.RLoop? && !s.rcv[r].cur.ready && Past(s.rcv[r].cur)
    requires t == RecvLoop(WithAsync, s, r, ok, i)
    ensures Inv(t)
  {
    assert EntryOk(s, s.rcv[r].v.seen);
    forall i | t.joined.seen <= i < |s.m.hist| ensures !s.m.hist[i].word.waiting {
      assert Ordered(s.m.hist, s.rcv[r].v.seen, i);
    }
    ReturnsNoneControl(s, r, ok, i, t);
    HistoryKept(s, t, 0);
    EventsKept(s, t, 0);
  }

  lemma GoesToWaitRecv(s: State, r: Rid, ok: bool, i: nat, t: State)
    requires LastOk(s) && ReceiverOk(s) && r in s.rcv && RecvOk(s, r)
    requires s.rcv[r].pc.RLoop? && s.rcv[r].cur.waiting && !s.rcv[r].cur.pending
    requires EntryOk(s, s.rcv[r].v.seen)
    requires t == RecvLoop(WithAsync, s, r, ok, i)
    ensures RecvQuiet(s, t, r) && RecvOk(t, r) && LastOk(t)
  {
  }

  lemma GoesToWait(s: State, r: Rid, ok: bool, i: nat, t: State)
    requires Inv(s) && r in s.rcv && s.rcv[r].pc.RLoop? && s.rcv[r].cur.waiting && !s.rcv[r].cur.pending
    requires t == RecvLoop(WithAsync, s, r, ok, i)
    ensures Inv(t)
  {
    assert RecvOk(s, r);
    assert EntryOk(s, s.rcv[r].v.seen);
    GoesToWaitRecv(s, r, ok, i, t);
    RecvQuietKeeps(s, t, r);
  }

  lemma RetriesRecv(s: State, r: Rid, i: nat, t: State)
    requires LastOk(s) && ReceiverOk(s) && r in s.rcv && RecvOk(s, r) && s.rcv[r].pc.RLoop?
    requires t == RecvReload(s, r, i)
    ensures RecvQuiet(s, t, r) && RecvOk(t, r) && LastOk(t)
  {
  }

  lemma Retries(s: State, r: Rid, i: nat, t: State)
    requires Inv(s) && r in s.rcv && s.rcv[r].pc.RLoop?
    requires t == RecvReload(s, r, i)
    ensures Inv(t)
  {
    assert RecvOk(s, r);
    RetriesRecv(s, r, i, t);
    RecvQuietKeeps(s, t, r);
  }

  lemma TakesControl(s: State, r: Rid, i: nat, t: State)
    requires Control(s) && r in s.rcv && s.rcv[r].pc.RLoop? && s.rcv[r].cur.ready && Last(s.m) == s.rcv[r].cur
    requires t == RecvLoop(WithAsync, s, r, true, i)
    ensures Control(t)
  {
    assert RecvOk(s, r) && r in t.rcv;
    RecvInstallsOthers(s, t, r);
  }

  lemma Takes(s: State, r: Rid, i: nat, t: State)
    requires Inv(s) && r in s.rcv && s.rcv[r].pc.RLoop? && s.rcv[r].cur.ready && Last(s.m) == s.rcv[r].cur
    requires t == RecvLoop(WithAsync, s, r, true, i)
    ensures Inv(t)
  {
    TakesControl(s, r, i, t);
    HistoryKept(s, t, 1);
    EventsKept(s, t, 1);
  }

  lemma TakesOverControl(s: State, r: Rid, i: nat, t: State)
    requires Control(s) && r in s.rcv && s.rcv[r].pc.RLoop? && s.rcv[r].cur.pending && Last(s.m) == s.rcv[r].cur
    requires t == RecvLoop(WithAsync, s, r, true, i)
    ensures Control(t)
  {
    assert RecvOk(s, r) && r in t.rcv;
    RecvInstallsOthers(s, t, r);
  }

  lemma TakesOver(s: State, r: Rid, i: nat, t: State)
    requires Inv(s) && r in s.rcv && s.rcv[r].pc.RLoop? && s.rcv[r].cur.pending && Last(s.m) == s.rcv[r].cur
    requires t == RecvLoop(WithAsync, s, r, true, i)
    ensures Inv(t)
  {
    TakesOverControl(s, r, i, t);
    HistoryKept(s, t, 1);
    EventsKept(s, t, 1);
  }

  lemma BlocksControl(s: State, r: Rid, i: nat, t: State)
    requires Control(s) && r in s.rcv && s.rcv[r].pc.RLoop? && IsNew(s.rcv[r].cur) && Last(s.m) == s.rcv[r].cur
    requires t == RecvLoop(WithAsync, s, r, true, i)
    ensures Control(t)
  {
    assert RecvOk(s, r) && r in t.rcv;
    RecvInstallsOthers(s, t, r);
  }

  lemma Blocks(s: State, r: Rid, i: nat, t: State)
    requires Inv(s) && r in s.rcv && s.rcv[r].pc.RLoop? && IsNew(s.rcv[r].cur) && Last(s.m) == s.rcv[r].cur
    requires t == RecvLoop(WithAsync, s, r, true, i)
    ensures Inv(t)
  {
    BlocksControl(s, r, i, t);
    HistoryKept(s, t, 1);
    EventsKept(s, t, 1);
  }

  lemma BeginsRecvControl(s: State, r: Rid, t: State)
    requires Control(s) && s.own.pc.OIdle? && r !in s.rcv
    requires t == BeginRecv(s, r)
    ensures Control(t)
  {
  }

  lemma BeginsRecv(s: State, r: Rid, t: State)
    requires Inv(s) && s.own.pc.OIdle? && r !in s.rcv
    requires t == BeginRecv(s, r)
    ensures Inv(t)
  {
    BeginsRecvControl(s, r, t);
    HistoryKept(s, t, 0);
    EventsKept(s, t, 0);
  }
}
