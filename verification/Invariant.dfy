/** The invariant of the one-shot channel: what holds of every state that some
    interleaving of the two handles can reach. It is stated in named parts, one per
    concern; `Inv` is their conjunction. */
module Invariant {
  import opened Wrappers
  import opened Words
  import opened Memory
  import opened Channel

  // ----- abbreviations

  predicate CloseAndDrop(w: Word) { w.close && w.fieldless }

  // No operation waits any more once a word of this kind was installed.
  predicate Past(w: Word) { w.ready || w.close || (w.fieldless && !w.waiting) }

  predicate Exclusive(pc: ReceiverPc) { !pc.OIdle? && !pc.OGone? }

  predicate Dropping(pc: ReceiverPc) {
    (pc.ODLoop? || pc.ODRead? || pc.ODDropWaker? || pc.ODSetDropping? || pc.ODFree? || pc.OGone?)
  }

  predicate MidPoll(pc: ReceiverPc) { (pc.OPRefresh? || pc.OPInit? || pc.OPUnset?) }

  predicate BeforeReady(pc: SenderPc) { (pc.SIdle? || pc.SWrite? || pc.SCas? || pc.SReadBack?) }

  predicate MayHaveClosed(pc: SenderPc) {
    pc.SDLoop? || pc.SDFree? || pc.SDWake? || pc.SDWakeAll? || pc.SDSetDropping? || pc.SGone?
  }

  predicate AfterClose(pc: SenderPc) { (pc.SDWake? || pc.SDWakeAll? || pc.SDSetDropping?) }

  predicate Done(s: State) { s.g.sent.Some? || s.g.sClosed || s.g.oClosed }

  // The value was installed and has been claimed since.
  predicate Claimed(s: State) { s.g.sent.Some? && (s.g.data.AtRecv? || s.g.data.AtReceiver? || s.g.data.Moved?) }

  // The two reasons for which a receiver may answer None.
  predicate NothingToReceive(s: State) { Claimed(s) || (s.g.sClosed && s.g.sent.None?) }

  predicate SenderGone(s: State) { s.snd.pc.SGone? }

  predicate ReceiverGone(s: State) { s.own.pc.OGone? }

  // ----- the history of the status word

  predicate Ordered(h: History, i: nat, j: nat)
    requires i <= j < |h|
  {
    && h[i].rel <= h[j].rel
    && (h[i].word.close ==> h[j].word.close)
    && (CloseAndDrop(h[i].word) ==> CloseAndDrop(h[j].word))
    && (h[i].word.close && !h[i].word.ready ==> !h[j].word.ready)
    && (Past(h[i].word) ==> !h[j].word.waiting)
  }

  predicate Monotone(h: History) {
    forall i, j :: 0 <= i <= j < |h| ==> Ordered(h, i, j)
  }

  predicate EntryOk(s: State, i: nat)
    requires i < |s.m.hist|
  {
    var w := s.m.hist[i].word;
    && WellFormed(w)
    && (w.close ==> s.g.sClosed || s.g.oClosed)
    && (Past(w) ==> Done(s))
    && (w.ready ==> s.g.sent.Some?)
    && (w.pending ==> s.g.polls > 0)
    && (IsTaken(w) ==> Claimed(s))
    && (w.close && !w.ready ==> NothingToReceive(s) || Dropping(s.own.pc))
    && (CloseAndDrop(w) ==> SenderGone(s) || ReceiverGone(s))
    && (IsPolling(w) && s.own.v.seen <= i ==> i == s.own.v.seen && MidPoll(s.own.pc))
    && (IsBlocked(w) && s.own.v.seen <= i && s.joined.seen <= i ==> Inside(s))
  }

  predicate HistoryOk(s: State) {
    && Monotone(s.m.hist)
    && forall i :: 0 <= i < |s.m.hist| ==> EntryOk(s, i)
  }

  // ----- the current word

  predicate LastOk(s: State) {
    var w := Last(s.m);
    && (w.close <==> s.g.sClosed || s.g.oClosed)
    && !(s.g.sClosed && s.g.oClosed)
    && (CloseAndDrop(w) <==> SenderGone(s) || ReceiverGone(s))
    && (IsFinished(w) ==> s.g.sClosed && SenderGone(s) && !ReceiverGone(s))
    && (w.ready <==> s.g.data.Shared?)
    && (w.waiting ==> !Done(s))
    && (IsNew(w) ==> s.g.sent.None? || (Claimed(s) && Dropping(s.own.pc)))
    && (IsNew(w) && s.g.sent.None? ==> s.g.waker.NoWaker?)
    && (IsParked(w) <==> s.g.waker.InCell?)
    && (IsPolling(w) ==> MidPoll(s.own.pc))
    && s.m.freed == (if SenderGone(s) && ReceiverGone(s) then 1 else 0)
  }

  // ----- the threads

  predicate SenderOk(s: State) {
    var pc := s.snd.pc;
    && s.snd.v.seen < |s.m.hist|
    && ((pc.SWrite? || pc.SCas? || pc.SDLoop?) ==> s.snd.cur == s.m.hist[s.snd.v.seen].word)
    && (pc.SIdle? ==> s.snd.val.None?)
    && ((pc.SWrite? || pc.SCas? || pc.SReadBack? || pc.SWakeAcquire? || pc.SWakeRun? || pc.SWakeAll?) ==>
          s.snd.val.Some?)
    && (BeforeReady(pc) ==> s.g.sent.None?)
    && ((pc.SWakeAcquire? || pc.SWakeRun? || pc.SWakeAll?) ==> s.g.sent.Some?)
    && ((pc.SIdle? || pc.SWrite?) <==> s.g.data.Unwritten? && (pc.SIdle? || pc.SWrite?))
    && ((pc.SCas? || pc.SReadBack?) <==> s.g.data.AtSender?)
    && (s.g.data.Unwritten? && !pc.SWrite? ==> s.snd.val.None?)
    && ((pc.SWrite? || pc.SCas?) ==> !s.snd.cur.close)
    && (pc.SReadBack? ==> s.g.oClosed)
    && (pc.SDLoad? ==> Done(s))
    && (s.g.sClosed ==> MayHaveClosed(pc))
    && (AfterClose(pc) ==> s.g.sClosed && s.g.sent.None? && IsClosed(s.snd.cur) && !Last(s.m).ready
                           && s.snd.cur == s.m.hist[s.snd.v.seen].word)
    && (pc.SDFree? ==> ReceiverGone(s))
    && ((pc.SWakeAcquire? || pc.SWakeRun? || pc.SDWake?) <==> s.g.waker.WithSender?)
  }

  predicate ReceiverOk(s: State) {
    var pc := s.own.pc;
    && s.own.v.seen < |s.m.hist|
    && s.joined.seen < |s.m.hist|
    && (!pc.OIdle? ==> !Inside(s))
    && (Exclusive(pc) ==> s.joined.seen <= s.own.v.seen)
    && ((pc.OPLoop? || pc.OPDiscard? || pc.ODLoop?) ==> s.own.cur == s.m.hist[s.own.v.seen].word)
    && (MidPoll(pc) ==> IsPolling(s.own.cur) && IsPolling(s.m.hist[s.own.v.seen].word)
                        && (IsPolling(Last(s.m)) || Past(Last(s.m))))
    && (pc.OPDiscard? ==> Past(Last(s.m)))
    && (pc.OPLoop? || MidPoll(pc) || pc.OPDiscard? ==> s.g.polls > 0)
    && ((pc.OPRead? || pc.ODRead?) <==> s.g.data.AtReceiver?)
    && (MidPoll(pc) || (pc.OPDiscard? || pc.ODDropWaker?) <==> s.g.waker.WithReceiver?)
    && (s.g.oClosed ==> Dropping(pc))
    && ((pc.ODDropWaker? || pc.ODSetDropping?) ==> s.g.oClosed && IsClosed(s.own.cur) && !Last(s.m).ready
                                                    && s.own.cur == s.m.hist[s.own.v.seen].word)
    && (pc.ODRead? ==> !s.own.cur.ready && s.own.cur == s.m.hist[s.own.v.seen].word)
    && (pc.ODFree? ==> SenderGone(s) && !Last(s.m).ready)
  }

  predicate RecvOk(s: State, r: Rid)
    requires r in s.rcv
  {
    var t := s.rcv[r];
    && s.own.v.seen <= t.v.seen < |s.m.hist|
    && (t.pc.RLoop? ==> t.cur == s.m.hist[t.v.seen].word)
    && (t.pc.RRead? <==> s.g.data == AtRecv(r))
    && (t.pc.RRead? ==> Past(s.m.hist[t.v.seen].word))
    && (t.pc.RDropWaker? <==> s.g.waker == WithRecv(r))
    && (t.pc.RDropWaker? ==> IsParked(t.cur) && !Last(s.m).pending)
    && (t.pc.RWait? ==> IsBlocked(t.cur) || (IsParked(t.cur) && !Last(s.m).pending))
    && ((t.pc.RWait? && IsBlocked(t.cur)) || t.pc.RAsleep? ==> IsBlocked(s.m.hist[t.v.seen].word))
    && (t.pc.RAsleep? ==> t.cur.waiting)
    && (t.pc.RAsleep? ==> IsBlocked(Last(s.m)) || (s.snd.pc.SWakeAll? || s.snd.pc.SDWakeAll?))
  }

  predicate RecvsOk(s: State) {
    && (forall r :: r in s.rcv ==> RecvOk(s, r))
    && (s.g.data.AtRecv? ==> s.g.data.r in s.rcv)
    && (s.g.waker.WithRecv? ==> s.g.waker.w in s.rcv)
  }

  // ----- the cells

  predicate DataOk(s: State) {
    && s.m.data == (if s.g.data.Unwritten? || s.g.data.Moved? then None else s.snd.val)
    && (s.g.sent.Some? ==> s.g.sent == s.snd.val)
    && (s.g.data.AtRecv? || s.g.data.AtReceiver? ==> s.g.sent.Some?)
    && (!s.g.data.Unwritten? ==> s.snd.val.Some?)
    && (if s.g.data.Moved? then |s.g.outs| == 1 && s.g.outs[0].x == s.snd.val.GetOr(0) else s.g.outs == [])
  }

  predicate WakerOk(s: State) {
    && (s.m.waker.Some? <==> !s.g.waker.NoWaker? && !s.own.pc.OPInit?)
    && (s.m.waker.Some? ==> s.m.waker.value.id < s.m.clones && s.m.waker.value.id !in s.m.fates)
    && (forall id :: id in s.m.fates ==> id < s.m.clones)
    && (forall id :: 0 <= id < s.m.clones ==> id in s.m.fates || (s.m.waker.Some? && s.m.waker.value.id == id))
  }

  predicate ParkedOk(s: State) {
    s.g.parked.Some? ==>
      var id := s.g.parked.value;
      && s.own.pc.OIdle? && !Inside(s)
      && (if s.g.waker.InCell? || s.g.waker.WithSender?
          then s.m.waker.Some? && s.m.waker.value.id == id
          else id in s.m.fates && s.m.fates[id].Woken?)
  }

  // ----- what happens before what

  predicate KnownToReceivers(s: State, e: nat) {
    e in s.own.v.know || e in s.joined.know || exists r :: r in s.rcv && e in s.rcv[r].v.know
  }

  // Reading any entry with CLOSE and FIELDLESS tells about `e`.
  predicate Released(m: Mem, e: nat) {
    forall i :: 0 <= i < |m.hist| && CloseAndDrop(m.hist[i].word) ==> e in m.hist[i].rel
  }

  predicate EventOk(s: State, e: nat) {
    && (e in s.snd.v.know || KnownToReceivers(s, e))
    && (ReceiverGone(s) && !SenderGone(s) ==> e in s.snd.v.know || Released(s.m, e))
    && (SenderGone(s) && !ReceiverGone(s) ==> KnownToReceivers(s, e) || Released(s.m, e))
    && (s.snd.pc.SDFree? ==> e in s.snd.v.know)
    && (s.own.pc.ODFree? ==> e in s.own.v.know)
  }

  predicate EventsOk(s: State) {
    forall e :: 0 <= e < s.m.clock ==> EventOk(s, e)
  }

  predicate Synchronised(s: State) {
    && (Exclusive(s.own.pc) ==> s.joined.know <= s.own.v.know)
    && (IsNew(Last(s.m)) && s.g.sent.None? ==> s.m.wakerEv == {})
    && (s.g.data.Unwritten? ==> s.m.dataEv == {})
    && (s.g.data.AtSender? ==> s.m.dataEv <= s.snd.v.know)
    && (s.g.data.Shared? ==> s.m.dataEv <= LastRel(s.m))
    && (s.g.data.AtRecv? && s.g.data.r in s.rcv ==> s.m.dataEv <= s.rcv[s.g.data.r].v.know)
    && (s.g.data.AtReceiver? ==> s.m.dataEv <= s.own.v.know)
    && (s.g.waker.InCell? ==> s.m.wakerEv <= LastRel(s.m))
    && (s.g.waker.WithReceiver? ==> s.m.wakerEv <= s.own.v.know)
    && (s.g.waker.WithRecv? && s.g.waker.w in s.rcv ==> s.m.wakerEv <= s.rcv[s.g.waker.w].v.know)
    && (s.snd.pc.SWakeAcquire? && s.snd.v.seen < |s.m.hist| ==> s.m.wakerEv <= s.m.hist[s.snd.v.seen].rel)
    && ((s.snd.pc.SWakeRun? || s.snd.pc.SDWake?) ==> s.m.wakerEv <= s.snd.v.know)
  }

  // ----- progress

  // An upper bound on the compare-and-swaps that can still succeed, re-polls not counted.
  function Rank(w: Word, sent: bool): nat {
    if w.close && w.fieldless && !w.ready then 0
    else if w.close then 1
    else if w.ready then 2
    else if w.waiting then (if w.pending then 4 else 3)
    else if w.fieldless || sent then 1
    else 4
  }

  // The compare-and-swaps a running poll may still make to install its waker.
  function PollBudget(pc: ReceiverPc, w: Word): nat {
    if (pc.OPLoop? || pc.OPDiscard?) then 2
    else if MidPoll(pc) then (if IsPolling(w) then 1 else 2)
    else 0
  }

  predicate CountOk(s: State) {
    |s.m.hist| - 1 + Rank(Last(s.m), s.g.sent.Some?) + PollBudget(s.own.pc, Last(s.m)) <= 4 + 2 * s.g.polls
  }

  // The status word and the threads.
  predicate Control(s: State) {
    && EntryOk(s, |s.m.hist| - 1)
    && LastOk(s)
    && SenderOk(s)
    && ReceiverOk(s)
    && RecvsOk(s)
    && CountOk(s)
  }

  // The data cell and the waker cell.
  predicate Cells(s: State) {
    && DataOk(s)
    && WakerOk(s)
    && ParkedOk(s)
    && Synchronised(s)
    && s.m.faults == {}
  }

  predicate Inv(s: State) {
    Control(s) && Cells(s) && HistoryOk(s) && EventsOk(s)
  }

  lemma InitialInv()
    ensures Inv(INITIAL)
  {
  }
}
