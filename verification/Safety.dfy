/** What the invariant means for the users of the channel: memory safety, shutdown,
    conservation of the value, wake-ups, and a bound on progress, each over every run. */
module Safety {
  import opened Wrappers
  import opened Words
  import opened Memory
  import opened Channel
  import opened Invariant
  import Reachable
  import Tasks

  function Reached(acts: seq<Action>): State { Run(WithAsync, INITIAL, acts) }

  // ----- memory

  /** No run reads an uninitialised or already emptied cell, overwrites or leaks a value
      or a waker, consumes a waker twice, races, or touches freed memory. */
  lemma {:induction false} NeverFaults(acts: seq<Action>)
    ensures Reached(acts).m.faults == {}
  {
    Reachable.Always(acts);
  }

  /** The allocation is freed by the second handle to go, and by it alone. */
  lemma {:induction false} FreedExactlyOnce(acts: seq<Action>)
    ensures var s := Reached(acts);
            s.m.freed == (if SenderGone(s) && ReceiverGone(s) then 1 else 0)
    ensures Reached(acts).m.freed > 0 ==> !Inside(Reached(acts))
  {
    Reachable.Always(acts);
  }

  /** Once the memory is freed no step of any thread accesses it any more. */
  lemma {:induction false} NothingAfterFree(acts: seq<Action>, a: Action)
    requires Reached(acts).m.freed > 0
    ensures Step(WithAsync, Reached(acts), a) == Reached(acts)
  {
    Reachable.Always(acts);
  }

  // ----- the status table

  /** Every word ever installed is one of the nine listed ones. */
  lemma {:induction false} OnlyListedWords(acts: seq<Action>, i: nat)
    requires i < |Reached(acts).m.hist|
    ensures Listed(Reached(acts).m.hist[i].word)
  {
    Reachable.Always(acts);
    assert EntryOk(Reached(acts), i);
    WellFormedIsListed(Reached(acts).m.hist[i].word);
  }

  /** The entries of the transition table that cannot occur: a poll or a receiver drop
      that sees WAITING sees PENDING without FIELDLESS, recv never sees a poll under way,
      and send never finds a word in which it has already sent. */
  lemma {:induction false} ImpossibleEntries(acts: seq<Action>)
    ensures var s := Reached(acts);
            (s.own.pc.OPLoop? || s.own.pc.ODLoop?) && s.own.cur.waiting ==> IsParked(s.own.cur)
    ensures var s := Reached(acts);
            forall r :: r in s.rcv && s.rcv[r].pc.RLoop? ==> !IsPolling(s.rcv[r].cur)
    ensures var s := Reached(acts);
            s.snd.pc.SCas? ==> IsNew(s.snd.cur) || s.snd.cur.waiting
  {
    Reachable.Always(acts);
    var s := Reached(acts);
    assert EntryOk(s, s.own.v.seen) && EntryOk(s, s.snd.v.seen);
    forall r | r in s.rcv && s.rcv[r].pc.RLoop? ensures !IsPolling(s.rcv[r].cur) {
      assert RecvOk(s, r);
      assert EntryOk(s, s.rcv[r].v.seen);
    }
  }

  // ----- the value

  // The places a value handed to `send` can be.
  function Copies(s: State): nat {
    (if s.snd.pc.SWrite? then 1 else 0) + (if s.m.data.Some? then 1 else 0) + |s.g.outs|
  }

  /** The value is in exactly one place at all times: with the sender before it is
      written, in the cell, or handed out; it is never duplicated or lost, and what is
      handed out is what was sent. */
  lemma {:induction false} ValueConserved(acts: seq<Action>)
    ensures var s := Reached(acts); Copies(s) == (if s.snd.val.Some? then 1 else 0)
    ensures var s := Reached(acts); s.m.data.Some? ==> s.m.data == s.snd.val
    ensures var s := Reached(acts); forall o :: o in s.g.outs ==> Some(o.x) == s.snd.val
    ensures var s := Reached(acts);
            SenderGone(s) && ReceiverGone(s) ==> s.m.data.None? && |s.g.outs| == (if s.snd.val.Some? then 1 else 0)
  {
    Reachable.Always(acts);
  }

  // ----- blocking receivers

  /** A thread sleeps in recv only while the word is exactly WAITING, or while the sender
      is about to wake everybody. */
  lemma {:induction false} NoLostWakeUp(acts: seq<Action>, r: Rid)
    requires r in Reached(acts).rcv && Reached(acts).rcv[r].pc.RAsleep?
    ensures var s := Reached(acts); IsBlocked(Last(s.m)) || s.snd.pc.SWakeAll? || s.snd.pc.SDWakeAll?
    ensures !SenderGone(Reached(acts))
    ensures Reached(acts).g.sent.Some? ==> Reached(acts).snd.pc.SWakeAll?
  {
    Reachable.Always(acts);
    assert RecvOk(Reached(acts), r);
  }

  // ----- asynchronous receivers

  /** A poll that returned Pending, if no receiver action followed it, still has a waker of
      its own task stored, or the sender is about to wake it, or it has been woken: it is the
      task that polled last that is notified, also when earlier polls were for another. */
  lemma {:induction false} PendingIsWoken(acts: seq<Action>)
    requires Reached(acts).g.parked.Some?
    ensures var s := Reached(acts); var id, task := s.g.parked.value, Tasks.LastPolled(acts);
            || (IsParked(Last(s.m)) && s.m.waker == Some(Waker(task, id)))
            || ((s.snd.pc.SWakeAcquire? || s.snd.pc.SWakeRun? || s.snd.pc.SDWake?)
                && s.m.waker == Some(Waker(task, id)))
            || (id in s.m.fates && s.m.fates[id] == Woken(task))
    ensures var s := Reached(acts); var id, task := s.g.parked.value, Tasks.LastPolled(acts);
            SenderGone(s) || s.snd.pc.SDLoad? ==> id in s.m.fates && s.m.fates[id] == Woken(task)
  {
    Reachable.Always(acts);
    Tasks.Always(acts);
  }

  /** Every waker ever cloned into the channel is accounted for: it is in the cell or it was
      woken or dropped, once; and none is left when both handles are gone. */
  lemma {:induction false} WakersLinear(acts: seq<Action>, id: nat)
    ensures var s := Reached(acts);
            id < s.m.clones <==> (id in s.m.fates) != (s.m.waker.Some? && s.m.waker.value.id == id)
    ensures var s := Reached(acts);
            SenderGone(s) && ReceiverGone(s) && id < s.m.clones ==> id in s.m.fates
  {
    Reachable.Always(acts);
  }

  /** The waker cell is initialised exactly when one party is responsible for it. */
  lemma {:induction false} WakerHasOneOwner(acts: seq<Action>)
    ensures var s := Reached(acts);
            s.m.waker.Some? <==>
              || IsParked(Last(s.m))
              || s.snd.pc.SWakeAcquire? || s.snd.pc.SWakeRun? || s.snd.pc.SDWake?
              || s.own.pc.OPRefresh? || s.own.pc.OPUnset? || s.own.pc.OPDiscard? || s.own.pc.ODDropWaker?
              || exists r :: r in s.rcv && s.rcv[r].pc.RDropWaker?
    ensures var s := Reached(acts);
            forall r, q :: r in s.rcv && q in s.rcv && s.rcv[r].pc.RDropWaker? && s.rcv[q].pc.RDropWaker? ==> r == q
  {
    Reachable.Always(acts);
    var s := Reached(acts);
    if s.g.waker.WithRecv? { assert RecvOk(s, s.g.waker.w); }
    forall r | r in s.rcv && s.rcv[r].pc.RDropWaker? ensures s.g.waker == WithRecv(r) {
      assert RecvOk(s, r);
    }
  }

  // ----- progress

  /** At most four compare-and-swaps ever succeed, plus two for each poll. */
  lemma {:induction false} FewSuccesses(acts: seq<Action>)
    ensures var s := Reached(acts); |s.m.hist| - 1 <= 4 + 2 * s.g.polls
  {
    Reachable.Always(acts);
  }
}
