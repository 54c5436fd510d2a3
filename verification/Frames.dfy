/** What a step leaves of the quantified parts of the invariant. */
module Frames {
  import opened Wrappers
  import opened Words
  import opened Memory
  import opened Channel
  import opened Invariant

  // Nothing that was settled is unsettled.
  predicate Settles(s: State, t: State) {
    && (s.g.sClosed ==> t.g.sClosed)
    && (s.g.oClosed ==> t.g.oClosed)
    && (s.g.sent.Some? ==> t.g.sent.Some?)
    && (Claimed(s) ==> Claimed(t))
    && s.g.polls <= t.g.polls
    && (NothingToReceive(s) ==> NothingToReceive(t))
    && (Dropping(s.own.pc) ==> Dropping(t.own.pc))
    && (SenderGone(s) ==> SenderGone(t))
    && (ReceiverGone(s) ==> ReceiverGone(t))
  }

  predicate Extends(s: State, t: State, n: nat) {
    && |t.m.hist| == |s.m.hist| + n
    && n <= 1
    && t.m.hist[..|s.m.hist|] == s.m.hist
  }

  // The entry a successful compare-and-swap adds fits after the current one.
  predicate Fits(s: State, w: Word) {
    && (Last(s.m).close ==> w.close)
    && (CloseAndDrop(Last(s.m)) ==> CloseAndDrop(w))
    && (Last(s.m).close && !Last(s.m).ready ==> !w.ready)
    && (w.waiting ==> !Done(s))
  }

  lemma HistoryKept(s: State, t: State, n: nat)
    requires HistoryOk(s) && Settles(s, t) && Extends(s, t, n)
    requires s.own.v.seen <= t.own.v.seen
    requires MidPoll(s.own.pc) ==> MidPoll(t.own.pc) || s.own.v.seen < t.own.v.seen
    requires s.joined.seen <= t.joined.seen
    requires forall i :: t.joined.seen <= i < |s.m.hist| && IsBlocked(s.m.hist[i].word) ==> !Inside(s) || Inside(t)
    requires n == 1 ==> Fits(s, Last(t.m)) && LastRel(s.m) <= LastRel(t.m) && EntryOk(t, |s.m.hist|)
    ensures HistoryOk(t)
  {
    MonotoneKept(s, t, n);
    forall i | 0 <= i < |t.m.hist| ensures EntryOk(t, i) {
      if i < |s.m.hist| {
        assert EntryOk(s, i);
        assert t.m.hist[i] == s.m.hist[i];
      }
    }
  }

  lemma MonotoneKept(s: State, t: State, n: nat)
    requires HistoryOk(s) && Extends(s, t, n)
    requires n == 1 ==> Fits(s, Last(t.m)) && WellFormed(Last(t.m)) && LastRel(s.m) <= LastRel(t.m)
    ensures Monotone(t.m.hist)
  {
    var k := |s.m.hist|;
    forall i, j | 0 <= i <= j < |t.m.hist| ensures Ordered(t.m.hist, i, j) {
      assert forall l :: 0 <= l < k ==> t.m.hist[l] == s.m.hist[l];
      if j < k {
        assert Ordered(s.m.hist, i, j);
      } else if i < k {
        assert Ordered(s.m.hist, i, k - 1);
        assert EntryOk(s, i);
      }
    }
  }

  // A step that neither frees nor installs CLOSE with FIELDLESS for the first time.
  lemma EventsKept(s: State, t: State, n: nat)
    requires EventsOk(s) && Extends(s, t, n)
    requires s.m.clock <= t.m.clock <= s.m.clock + 1
    requires s.snd.v.know <= t.snd.v.know && s.own.v.know <= t.own.v.know && s.joined.know <= t.joined.know
    requires forall r :: r in s.rcv ==>
               (r in t.rcv && s.rcv[r].v.know <= t.rcv[r].v.know) || s.rcv[r].v.know <= t.joined.know
    requires SenderGone(t) == SenderGone(s) && ReceiverGone(t) == ReceiverGone(s)
    requires t.snd.pc.SDFree? ==> s.snd.pc.SDFree? && t.m.clock == s.m.clock
    requires t.own.pc.ODFree? ==> s.own.pc.ODFree? && t.m.clock == s.m.clock
    requires n == 1 ==> LastRel(s.m) <= LastRel(t.m) && (CloseAndDrop(Last(t.m)) ==> CloseAndDrop(Last(s.m)))
    requires t.m.clock > s.m.clock ==>
      (!SenderGone(s) && s.m.clock in t.snd.v.know) || (!ReceiverGone(s) && KnownToReceivers(t, s.m.clock))
    requires t.m.clock > s.m.clock && SenderGone(s) ==> KnownToReceivers(t, s.m.clock)
    requires t.m.clock > s.m.clock && ReceiverGone(s) ==> s.m.clock in t.snd.v.know
    ensures EventsOk(t)
  {
    forall e | 0 <= e < t.m.clock ensures EventOk(t, e) {
      if e < s.m.clock {
        assert EventOk(s, e);
        KnownKept(s, t, e);
        ReleasedKept(s, t, n, e);
      }
    }
  }

  lemma KnownKept(s: State, t: State, e: nat)
    requires s.own.v.know <= t.own.v.know && s.joined.know <= t.joined.know
    requires forall r :: r in s.rcv ==>
               (r in t.rcv && s.rcv[r].v.know <= t.rcv[r].v.know) || s.rcv[r].v.know <= t.joined.know
    ensures KnownToReceivers(s, e) ==> KnownToReceivers(t, e)
  {
  }

  lemma ReleasedKept(s: State, t: State, n: nat, e: nat)
    requires Extends(s, t, n)
    requires n == 1 ==> LastRel(s.m) <= LastRel(t.m) && (CloseAndDrop(Last(t.m)) ==> CloseAndDrop(Last(s.m)))
    ensures Released(s.m, e) ==> Released(t.m, e)
  {
    assert forall l :: 0 <= l < |s.m.hist| ==> t.m.hist[l] == s.m.hist[l];
  }

  // The sender installs CLOSE with FIELDLESS first: all it knows is released.
  lemma SenderLeaves(s: State, t: State)
    requires EventsOk(s) && HistoryOk(s) && Extends(s, t, 1)
    requires !SenderGone(s) && !ReceiverGone(s) && !ReceiverGone(t) && SenderGone(t)
    requires t.m.clock == s.m.clock + 1 && t.own == s.own && t.joined == s.joined && t.rcv == s.rcv
    requires !t.own.pc.ODFree?
    requires t.snd.v.know == s.snd.v.know + {s.m.clock} && t.snd.v.know <= LastRel(t.m)
    ensures EventsOk(t)
  {
    forall i | 0 <= i < |s.m.hist| ensures !CloseAndDrop(t.m.hist[i].word) {
      assert EntryOk(s, i);
      assert t.m.hist[i] == s.m.hist[i];
    }
    forall e | 0 <= e < t.m.clock ensures EventOk(t, e) {
      if e < s.m.clock {
        assert EventOk(s, e);
        KnownKept(s, t, e);
      }
    }
  }

  // The receiver installs CLOSE with FIELDLESS first.
  lemma ReceiverLeaves(s: State, t: State)
    requires EventsOk(s) && HistoryOk(s) && Extends(s, t, 1)
    requires !SenderGone(s) && !ReceiverGone(s) && !SenderGone(t) && ReceiverGone(t)
    requires t.m.clock == s.m.clock + 1 && t.snd == s.snd && t.rcv == s.rcv && !Inside(s)
    requires s.joined.know <= s.own.v.know && !t.snd.pc.SDFree?
    requires t.own.v.know == s.own.v.know + {s.m.clock} && t.own.v.know <= LastRel(t.m)
    ensures EventsOk(t)
  {
    forall i | 0 <= i < |s.m.hist| ensures !CloseAndDrop(t.m.hist[i].word) {
      assert EntryOk(s, i);
      assert t.m.hist[i] == s.m.hist[i];
    }
    forall e | 0 <= e < t.m.clock ensures EventOk(t, e) {
      if e < s.m.clock {
        assert EventOk(s, e);
      }
    }
  }

  // ----- steps that leave the word alone

  // What a thread does to what others see, other than through the word and its own cell.
  predicate QuietMemory(s: State, t: State) {
    && t.m.hist == s.m.hist && t.m.freed == s.m.freed && t.m.clock == s.m.clock + 1
    && t.g.sent == s.g.sent && t.g.sClosed == s.g.sClosed && t.g.oClosed == s.g.oClosed && t.g.polls == s.g.polls
  }

  predicate WithSender(d: DataPlace, sent: Option<int>) {
    d.Unwritten? || d.AtSender? || (d.Moved? && sent.None?)
  }

  // The sender moves, with its view; what it may change of the cells is only its own.
  predicate SenderQuiet(s: State, t: State) {
    && QuietMemory(s, t)
    && t.own == s.own && t.rcv == s.rcv && t.joined == s.joined
    && (t.g.data == s.g.data || (WithSender(s.g.data, s.g.sent) && WithSender(t.g.data, t.g.sent)))
    && (t.g.waker == s.g.waker || (s.g.waker.WithSender? && t.g.waker.NoWaker?))
    && s.snd.v.know + {s.m.clock} <= t.snd.v.know
    && !SenderGone(s) && !SenderGone(t) && !s.snd.pc.SDFree? && !t.snd.pc.SDFree?
    && !s.snd.pc.SWakeAll? && !s.snd.pc.SDWakeAll?
  }

  lemma SenderQuietControl(s: State, t: State)
    requires Control(s) && SenderQuiet(s, t) && SenderOk(t) && LastOk(t)
    ensures Control(t)
  {
    forall r | r in t.rcv ensures RecvOk(t, r) {
      assert RecvOk(s, r);
    }
  }

  lemma SenderQuietKeeps(s: State, t: State)
    requires Inv(s) && SenderQuiet(s, t) && SenderOk(t) && LastOk(t) && Cells(t)
    ensures Inv(t)
  {
    SenderQuietControl(s, t);
    HistoryKept(s, t, 0);
    EventsKept(s, t, 0);
  }

  // The receiver moves; no thread is inside recv while it does.
  predicate ReceiverQuiet(s: State, t: State) {
    && QuietMemory(s, t)
    && t.snd == s.snd && t.rcv == s.rcv && !Inside(s) && t.joined == s.joined
    && (t.g.data == s.g.data || (s.g.data.AtReceiver? && t.g.data.Moved?))
    && (t.g.waker == s.g.waker || (s.g.waker.WithReceiver? && t.g.waker.NoWaker?))
    && s.own.v.know + {s.m.clock} <= t.own.v.know && s.own.v.seen <= t.own.v.seen
    && (MidPoll(s.own.pc) ==> MidPoll(t.own.pc) || s.own.v.seen < t.own.v.seen)
    && Dropping(t.own.pc) == Dropping(s.own.pc)
    && !ReceiverGone(s) && !ReceiverGone(t) && !s.own.pc.ODFree? && !t.own.pc.ODFree?
    && PollBudget(t.own.pc, Last(s.m)) <= PollBudget(s.own.pc, Last(s.m))
  }

  lemma ReceiverQuietControl(s: State, t: State)
    requires Control(s) && ReceiverQuiet(s, t) && ReceiverOk(t) && LastOk(t)
    ensures Control(t)
  {
    assert forall r :: r !in t.rcv.Keys;
  }

  lemma ReceiverQuietKeeps(s: State, t: State)
    requires Inv(s) && ReceiverQuiet(s, t) && ReceiverOk(t) && LastOk(t) && Cells(t)
    ensures Inv(t)
  {
    ReceiverQuietControl(s, t);
    HistoryKept(s, t, 0);
    EventsKept(s, t, 0);
  }

  // Thread `r` moves inside recv.
  predicate RecvQuiet(s: State, t: State, r: Rid) {
    && t.m.hist == s.m.hist && t.m.freed == s.m.freed
    && t.snd == s.snd && t.own == s.own && t.joined == s.joined
    && t.g == s.g.(waker := t.g.waker)
    && (t.g.waker == s.g.waker || (s.g.waker == WithRecv(r) && t.g.waker.NoWaker?))
    && r in s.rcv && r in t.rcv && t.rcv == s.rcv[r := t.rcv[r]]
    && s.rcv[r].v.know <= t.rcv[r].v.know
    && (t.m.clock == s.m.clock || (t.m.clock == s.m.clock + 1 && s.m.clock in t.rcv[r].v.know))
    && !ReceiverGone(s) && !s.own.pc.ODFree?
  }

  lemma RecvQuietControl(s: State, t: State, r: Rid)
    requires Control(s) && RecvQuiet(s, t, r) && RecvOk(t, r) && LastOk(t)
    ensures Control(t)
  {
    forall q | q in t.rcv ensures RecvOk(t, q) {
      if q != r { assert RecvOk(s, q); }
    }
  }

  lemma RecvQuietKeeps(s: State, t: State, r: Rid)
    requires Inv(s) && RecvQuiet(s, t, r) && RecvOk(t, r) && LastOk(t) && Cells(t)
    ensures Inv(t)
  {
    RecvQuietControl(s, t, r);
    HistoryKept(s, t, 0);
    if t.m.clock == s.m.clock {
      EventsSame(s, t, r);
    } else {
      EventsKept(s, t, 0);
    }
  }

  lemma EventsSame(s: State, t: State, r: Rid)
    requires EventsOk(s) && RecvQuiet(s, t, r) && t.m.clock == s.m.clock
    ensures EventsOk(t)
  {
    EventsKept(s, t, 0);
  }

  // Thread `r` leaves recv, with the value if it had claimed it.
  predicate RecvLeaves(s: State, t: State, r: Rid) {
    && t.m.hist == s.m.hist && t.m.freed == s.m.freed
    && t.snd == s.snd && t.own == s.own && t.g == s.g.(data := t.g.data, outs := t.g.outs)
    && r in s.rcv && t.rcv == s.rcv - {r}
    && t.joined.seen == (if s.joined.seen < s.rcv[r].v.seen then s.rcv[r].v.seen else s.joined.seen)
    && (if s.g.data == AtRecv(r) then t.g.data.Moved? else t.g.data == s.g.data)
    && s.g.waker != WithRecv(r) && s.own.pc.OIdle?
  }

  lemma RecvLeavesControl(s: State, t: State, r: Rid)
    requires Control(s) && RecvLeaves(s, t, r) && !Last(s.m).waiting
    ensures Control(t)
  {
    assert RecvOk(s, r);
    RecvLeavesOthers(s, t, r);
  }

  lemma RecvLeavesOthers(s: State, t: State, r: Rid)
    requires RecvsOk(s) && RecvLeaves(s, t, r)
    ensures RecvsOk(t)
  {
    forall q | q in t.rcv ensures RecvOk(t, q) {
      assert RecvOk(s, q);
    }
  }

  // A compare-and-swap of another party that is no news for those inside recv.
  lemma RecvsUnmoved(s: State, t: State)
    requires RecvsOk(s) && Extends(s, t, 1)
    requires t.rcv == s.rcv && t.own.v.seen == s.own.v.seen
    requires (s.g.data.AtRecv? || t.g.data.AtRecv? ==> t.g.data == s.g.data)
    requires (s.g.waker.WithRecv? || t.g.waker.WithRecv? ==> t.g.waker == s.g.waker)
    requires !Last(t.m).pending
    requires IsBlocked(Last(s.m)) || s.snd.pc.SWakeAll? || s.snd.pc.SDWakeAll? ==>
               IsBlocked(Last(t.m)) || t.snd.pc.SWakeAll? || t.snd.pc.SDWakeAll?
    ensures RecvsOk(t)
  {
    forall q | q in t.rcv ensures RecvOk(t, q) {
      assert RecvOk(s, q);
      assert t.m.hist[s.rcv[q].v.seen] == s.m.hist[s.rcv[q].v.seen];
    }
  }

  // Thread `r` installs a word.
  predicate RecvInstalls(s: State, t: State, r: Rid) {
    && Extends(s, t, 1) && r in s.rcv && r in t.rcv && t.rcv == s.rcv[r := t.rcv[r]]
    && t.snd == s.snd && t.own == s.own
    && (t.g.data == s.g.data || (!s.g.data.AtRecv? && t.g.data == AtRecv(r)))
    && (t.g.waker == s.g.waker || (!s.g.waker.WithRecv? && t.g.waker == WithRecv(r)))
    && !Last(t.m).pending
    && (IsBlocked(Last(s.m)) ==> IsBlocked(Last(t.m)))
  }

  lemma RecvInstallsOthers(s: State, t: State, r: Rid)
    requires RecvsOk(s) && RecvInstalls(s, t, r) && RecvOk(t, r)
    ensures RecvsOk(t)
  {
    forall q | q in t.rcv ensures RecvOk(t, q) {
      if q != r {
        assert RecvOk(s, q);
        assert t.m.hist[s.rcv[q].v.seen] == s.m.hist[s.rcv[q].v.seen];
      }
    }
  }
}
