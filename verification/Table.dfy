/** The transition table of the design document, row by row, over every run: which word each
    operation finds and installs, with which orderings, and what it does next. The words are
    named as in the status table; `Patterns` gives their bits.

    There is one difference to the document: the receiver's drop clears READY first and then
    looks at the word again, so 10000 becomes 00000 and not 01000. */
module Table {
  import opened Words
  import opened Memory
  import opened Channel
  import opened Invariant
  import opened Accesses
  import Reachable
  import Safety

  /** The bits of the nine words; the first flag of the table is the lowest bit. */
  lemma Patterns()
    ensures Encode(NEW) == 0
    ensures Encode(SENT) == 0x01
    ensures Encode(BLOCKED) == 0x04
    ensures Encode(PARKED) == 0x14
    ensures Encode(POLLING) == 0x1C
    ensures Encode(TAKEN) == 0x08
    ensures Encode(CLOSED) == 0x02
    ensures Encode(DROPPING) == 0x0A
    ensures Encode(FINISHED) == 0x0B
  {
  }

  /** A new channel has the first of them, an empty cell, and nobody inside. */
  lemma StartsNew()
    ensures INITIAL.m.hist == [Msg(NEW, {})] && INITIAL.m.data.None? && INITIAL.m.waker.None? && INITIAL.rcv == map[]
  {
  }

  // ----- send

  // Whom the sender wakes once the value is in.
  function AfterSend(cur: Word): SenderPc {
    if cur == BLOCKED then SWakeAll else if cur == PARKED then SWakeAcquire else SDLoad
  }

  lemma SendFrom(s: State, ok: bool, i: nat, t: State)
    requires s.snd.pc.SCas? && WellFormed(s.snd.cur) && (IsNew(s.snd.cur) || s.snd.cur.waiting)
    requires t == SenderStep(WithAsync, s, ok, i)
    ensures s.snd.cur in {NEW, BLOCKED, PARKED, POLLING}
    ensures SenderNext(s.snd) == Cas(s.snd.cur, SENT, false, true)
    ensures ok && Last(s.m) == s.snd.cur ==> Last(t.m) == SENT && t.snd.pc == AfterSend(s.snd.cur)
    ensures !(ok && Last(s.m) == s.snd.cur) ==>
              t.snd.pc == if WordAt(s.m, s.snd.v, i).close then SReadBack else SCas
  {
    assert t == TryReady(WithAsync, s, ok, i);
  }

  /** The column of send: 10000 over 00000, 00100, 00101 and 00111, with release; then whoever
      waits is woken, all threads for 00100, the clone in the cell for 00101, nobody for the
      others. On a word with CLOSE the value is taken back. */
  lemma {:induction false} SendColumn(acts: seq<Action>, ok: bool, i: nat)
    requires Run(WithAsync, INITIAL, acts).snd.pc.SCas?
    ensures var s := Run(WithAsync, INITIAL, acts);
            var t, cur := SenderStep(WithAsync, s, ok, i), s.snd.cur;
            && cur in {NEW, BLOCKED, PARKED, POLLING} && SenderNext(s.snd) == Cas(cur, SENT, false, true)
            && (ok && Last(s.m) == cur ==> Last(t.m) == SENT && t.snd.pc == AfterSend(cur))
            && (!(ok && Last(s.m) == cur) ==> t.snd.pc == if WordAt(s.m, s.snd.v, i).close then SReadBack else SCas)
  {
    var s := Run(WithAsync, INITIAL, acts);
    Reachable.Always(acts);
    Safety.ImpossibleEntries(acts);
    assert EntryOk(s, s.snd.v.seen);
    SendFrom(s, ok, i, SenderStep(WithAsync, s, ok, i));
  }

  // ----- the sender's drop

  // What the drop tries on each word, and where success leads.
  function DropSenderEntry(cur: Word): (Access, SenderPc) {
    if cur == NEW || cur == TAKEN then (Cas(cur, DROPPING, false, true), SGone)
    else if cur == SENT then (Cas(SENT, FINISHED, false, true), SGone)
    else if cur == BLOCKED then (Cas(BLOCKED, CLOSED, false, false), SDWakeAll)
    else if cur == POLLING then (Cas(POLLING, DROPPING, false, true), SGone)
    else if cur == PARKED then (Cas(PARKED, CLOSED, true, false), SDWake)
    else if cur == CLOSED then (Cas(CLOSED, DROPPING, false, true), SGone)
    else (Load(true), SDFree)
  }

  lemma DropSenderFrom(s: State, ok: bool, i: nat, t: State)
    requires s.snd.pc.SDLoop? && WellFormed(s.snd.cur) && t == DropSenderLoop(WithAsync, s, ok, i)
    ensures SenderNext(s.snd) == DropSenderEntry(s.snd.cur).0
    ensures Succeeds(SenderNext(s.snd), s.m, s.snd.v, ok, i) ==> t.snd.pc == DropSenderEntry(s.snd.cur).1
    ensures !Succeeds(SenderNext(s.snd), s.m, s.snd.v, ok, i) ==> t.snd.pc.SDLoop?
  {
    DropSenderTries(s.snd);
    if Succeeds(SenderNext(s.snd), s.m, s.snd.v, ok, i) { DropSenderSucceeds(s, ok, i); }
  }

  lemma DropSenderTries(x: Sender)
    requires x.pc.SDLoop? && WellFormed(x.cur)
    ensures SenderNext(x) == DropSenderEntry(x.cur).0
  {
    WellFormedIsListed(x.cur);
  }

  lemma DropSenderSucceeds(s: State, ok: bool, i: nat)
    requires s.snd.pc.SDLoop? && WellFormed(s.snd.cur) && Succeeds(SenderNext(s.snd), s.m, s.snd.v, ok, i)
    ensures DropSenderLoop(WithAsync, s, ok, i).snd.pc == DropSenderEntry(s.snd.cur).1
  {
    WellFormedIsListed(s.snd.cur);
  }

  /** The two columns of the sender's drop: closing and marking in one step, 01010, or 11010 over
      an unread value; 01000 first, and then a wake-up, where the receiver waits; 01010 over
      01000; and the memory is freed on 01010. After the wake-up 01000 becomes 01010. */
  lemma {:induction false} DropSenderColumns(acts: seq<Action>, ok: bool, i: nat)
    ensures var s := Run(WithAsync, INITIAL, acts);
            var t, a := SenderStep(WithAsync, s, ok, i), SenderNext(s.snd);
            && (s.snd.pc.SDLoop? ==>
                  && Listed(s.snd.cur) && a == DropSenderEntry(s.snd.cur).0
                  && t.snd.pc == if Succeeds(a, s.m, s.snd.v, ok, i) then DropSenderEntry(s.snd.cur).1 else SDLoop)
            && (s.snd.pc.SDSetDropping? ==>
                  && a == Cas(CLOSED, DROPPING, false, true)
                  && t.snd.pc == if Succeeds(a, s.m, s.snd.v, ok, i) then SGone else SDLoop)
  {
    var s := Run(WithAsync, INITIAL, acts);
    Reachable.Always(acts);
    assert EntryOk(s, s.snd.v.seen);
    if s.snd.pc.SDLoop? {
      WellFormedIsListed(s.snd.cur);
      DropSenderFrom(s, ok, i, DropSenderLoop(WithAsync, s, ok, i));
      assert SenderStep(WithAsync, s, ok, i) == DropSenderLoop(WithAsync, s, ok, i);
    }
    if s.snd.pc.SDSetDropping? { MarksDropping(s); }
  }

  lemma MarksDropping(s: State)
    requires s.snd.pc.SDSetDropping? && IsClosed(s.snd.cur)
    ensures SenderNext(s.snd) == Cas(CLOSED, DROPPING, false, true)
  {
  }

  // ----- poll

  function PollEntry(cur: Word): (Access, ReceiverPc) {
    if cur == NEW then (Cas(NEW, POLLING, false, false), OPInit)
    else if cur == SENT then (Cas(SENT, TAKEN, true, false), OPRead)
    else if cur == FINISHED then (Cas(FINISHED, DROPPING, true, false), OPRead)
    else if cur == PARKED then (Cas(PARKED, POLLING, true, false), OPRefresh)
    else (Nothing, OIdle)
  }

  lemma PollFrom(s: State, ok: bool, i: nat, t: State)
    requires s.own.pc.OPLoop? && WellFormed(s.own.cur) && (s.own.cur.waiting ==> IsParked(s.own.cur))
    requires t == PollLoop(s, ok, i)
    ensures s.own.cur != BLOCKED && s.own.cur != POLLING && ReceiverNext(s.own) == PollEntry(s.own.cur).0
    ensures Succeeds(ReceiverNext(s.own), s.m, s.own.v, ok, i) ==> t.own.pc == PollEntry(s.own.cur).1
    ensures !Succeeds(ReceiverNext(s.own), s.m, s.own.v, ok, i) ==> t.own.pc.OPLoop?
  {
    WellFormedIsListed(s.own.cur);
  }

  /** The column of await: 00111 over 00000 and 00101 while the waker is stored, and then 00101
      with release; the value of 10000 and 11010 is claimed with acquire; and there is nothing
      to receive on 01000, 01010 and 00010. A poll never finds 00100 or 00111. */
  lemma {:induction false} PollColumn(acts: seq<Action>, ok: bool, i: nat)
    ensures var s := Run(WithAsync, INITIAL, acts);
            var t, a := ReceiverStep(WithAsync, s, ok, i), ReceiverNext(s.own);
            && (s.own.pc.OPLoop? ==>
                  && Listed(s.own.cur) && s.own.cur != BLOCKED && s.own.cur != POLLING && a == PollEntry(s.own.cur).0
                  && t.own.pc == if Succeeds(a, s.m, s.own.v, ok, i) then PollEntry(s.own.cur).1 else OPLoop)
            && (s.own.pc.OPUnset? ==>
                  && a == StrongCas(POLLING, PARKED, true)
                  && t.own.pc == if Succeeds(a, s.m, s.own.v, ok, i) then OIdle else OPDiscard)
  {
    var s := Run(WithAsync, INITIAL, acts);
    Reachable.Always(acts);
    Safety.ImpossibleEntries(acts);
    assert EntryOk(s, s.own.v.seen);
    if s.own.pc.OPLoop? {
      WellFormedIsListed(s.own.cur);
      PollFrom(s, ok, i, PollLoop(s, ok, i));
      assert ReceiverStep(WithAsync, s, ok, i) == PollLoop(s, ok, i);
    }
    if s.own.pc.OPUnset? { EndsPolling(s, ok, i); }
  }

  lemma EndsPolling(s: State, ok: bool, i: nat)
    requires s.own.pc.OPUnset? && IsPolling(s.own.cur)
    ensures var a := ReceiverNext(s.own);
            && a == StrongCas(POLLING, PARKED, true)
            && PollUnset(s, ok, i).own.pc == if Succeeds(a, s.m, s.own.v, ok, i) then OIdle else OPDiscard
  {
  }

  // ----- the receiver's drop

  function DropReceiverEntry(cur: Word): (Access, ReceiverPc) {
    if cur == NEW || cur == TAKEN then (Cas(cur, DROPPING, false, true), OGone)
    else if cur == SENT then (Cas(SENT, NEW, true, false), ODRead)
    else if cur == FINISHED then (Cas(FINISHED, DROPPING, true, false), ODRead)
    else if cur == PARKED then (Cas(PARKED, CLOSED, true, false), ODDropWaker)
    else if cur == CLOSED then (Cas(CLOSED, DROPPING, false, true), OGone)
    else (Load(true), ODFree)
  }

  lemma DropReceiverFrom(s: State, ok: bool, i: nat, t: State)
    requires s.own.pc.ODLoop? && WellFormed(s.own.cur) && (s.own.cur.waiting ==> IsParked(s.own.cur))
    requires t == DropReceiverLoop(WithAsync, s, ok, i)
    ensures s.own.cur != BLOCKED && s.own.cur != POLLING && ReceiverNext(s.own) == DropReceiverEntry(s.own.cur).0
    ensures Succeeds(ReceiverNext(s.own), s.m, s.own.v, ok, i) ==> t.own.pc == DropReceiverEntry(s.own.cur).1
    ensures !Succeeds(ReceiverNext(s.own), s.m, s.own.v, ok, i) ==> t.own.pc.ODLoop?
  {
    WellFormedIsListed(s.own.cur);
  }

  /** The two columns of the receiver's drop: an unread value is claimed and disposed of first;
      01000 over 00101, and then its clone is dropped; 01010 otherwise; and the memory is freed
      on 01010. A drop never finds 00100 or 00111. */
  lemma {:induction false} DropReceiverColumns(acts: seq<Action>, ok: bool, i: nat)
    ensures var s := Run(WithAsync, INITIAL, acts);
            var t, a := ReceiverStep(WithAsync, s, ok, i), ReceiverNext(s.own);
            && (s.own.pc.ODLoop? ==>
                  && Listed(s.own.cur) && s.own.cur != BLOCKED && s.own.cur != POLLING
                  && a == DropReceiverEntry(s.own.cur).0
                  && t.own.pc == if Succeeds(a, s.m, s.own.v, ok, i) then DropReceiverEntry(s.own.cur).1 else ODLoop)
            && (s.own.pc.ODSetDropping? ==>
                  && a == Cas(CLOSED, DROPPING, false, true)
                  && t.own.pc == if Succeeds(a, s.m, s.own.v, ok, i) then OGone else ODLoop)
  {
    var s := Run(WithAsync, INITIAL, acts);
    Reachable.Always(acts);
    Safety.ImpossibleEntries(acts);
    assert EntryOk(s, s.own.v.seen);
    if s.own.pc.ODLoop? {
      WellFormedIsListed(s.own.cur);
      DropReceiverFrom(s, ok, i, DropReceiverLoop(WithAsync, s, ok, i));
      assert ReceiverStep(WithAsync, s, ok, i) == DropReceiverLoop(WithAsync, s, ok, i);
    }
    if s.own.pc.ODSetDropping? { MarksGone(s); }
  }

  lemma MarksGone(s: State)
    requires s.own.pc.ODSetDropping? && IsClosed(s.own.cur)
    ensures ReceiverNext(s.own) == Cas(CLOSED, DROPPING, false, true)
  {
  }

  // ----- recv

  // Where success leads; nowhere, if the call returns.
  datatype Then = Returns | Goes(pc: RecvPc, cur: Word)

  function RecvEntry(cur: Word): (Access, Then) {
    if cur == NEW then (Cas(NEW, BLOCKED, false, false), Goes(RWait, BLOCKED))
    else if cur == SENT then (Cas(SENT, TAKEN, true, false), Goes(RRead, SENT))
    else if cur == FINISHED then (Cas(FINISHED, DROPPING, true, false), Goes(RRead, FINISHED))
    else if cur == PARKED then (Cas(PARKED, BLOCKED, true, false), Goes(RDropWaker, PARKED))
    else if cur == BLOCKED then (Nothing, Goes(RWait, BLOCKED))
    else (Nothing, Returns)
  }

  predicate Follows(t: State, r: Rid, next: Then) {
    match next
    case Returns => r !in t.rcv
    case Goes(pc, cur) => r in t.rcv && t.rcv[r].pc == pc && t.rcv[r].cur == cur
  }

  lemma RecvFrom(s: State, r: Rid, ok: bool, i: nat, t: State)
    requires r in s.rcv && s.rcv[r].pc.RLoop? && WellFormed(s.rcv[r].cur) && !IsPolling(s.rcv[r].cur)
    requires t == RecvLoop(WithAsync, s, r, ok, i)
    ensures s.rcv[r].cur != POLLING && RecvNext(s.rcv[r]) == RecvEntry(s.rcv[r].cur).0
    ensures Succeeds(RecvNext(s.rcv[r]), s.m, s.rcv[r].v, ok, i) ==> Follows(t, r, RecvEntry(s.rcv[r].cur).1)
    ensures !Succeeds(RecvNext(s.rcv[r]), s.m, s.rcv[r].v, ok, i) ==> r in t.rcv && t.rcv[r].pc.RLoop?
  {
    WellFormedIsListed(s.rcv[r].cur);
  }

  /** The column of recv: 00100 over 00000, and over 00101, whose clone is then dropped; on 00100
      it blocks again; the value of 10000 and 11010 is claimed with acquire; and None is returned
      on 01000, 01010 and 00010. A recv never finds 00111. */
  lemma {:induction false} RecvColumn(acts: seq<Action>, r: Rid, ok: bool, i: nat)
    requires var s := Run(WithAsync, INITIAL, acts); r in s.rcv && s.rcv[r].pc.RLoop?
    ensures var s := Run(WithAsync, INITIAL, acts);
            var t, a, cur := RecvStep(WithAsync, s, r, ok, i), RecvNext(s.rcv[r]), s.rcv[r].cur;
            && Listed(cur) && cur != POLLING && a == RecvEntry(cur).0
            && if Succeeds(a, s.m, s.rcv[r].v, ok, i) then Follows(t, r, RecvEntry(cur).1)
               else r in t.rcv && t.rcv[r].pc.RLoop?
  {
    var s := Run(WithAsync, INITIAL, acts);
    Reachable.Always(acts);
    Safety.ImpossibleEntries(acts);
    assert RecvOk(s, r);
    assert EntryOk(s, s.rcv[r].v.seen);
    WellFormedIsListed(s.rcv[r].cur);
    RecvFrom(s, r, ok, i, RecvLoop(WithAsync, s, r, ok, i));
    assert RecvStep(WithAsync, s, r, ok, i) == RecvLoop(WithAsync, s, r, ok, i);
  }

  // ----- loads

  // The step tells the thread of no access but its own.
  predicate Learns(v: View, w: View, clock: nat) { w.know == v.know + {clock} }

  /** The load at the beginning of an operation is relaxed, the one with which send and both drops
      begin, the one of a poll - which knows what finished recv calls know - and the one of recv,
      first and after each wait. */
  lemma LoadsAreRelaxed(s: State, x: int, task: nat, r: Rid, ok: bool, i: nat)
    ensures s.snd.pc.SIdle? ==>
              && Learns(s.snd.v, BeginSend(s, x, i).snd.v, s.m.clock)
              && Learns(s.snd.v, BeginDropSender(s, i).snd.v, s.m.clock)
    ensures s.snd.pc.SDLoad? ==> Learns(s.snd.v, SenderStep(WithAsync, s, ok, i).snd.v, s.m.clock)
    ensures s.own.pc.OIdle? && !Inside(s) ==>
              && Learns(Joined(s.own.v, s.joined), BeginPoll(WithAsync, s, task, i).own.v, s.m.clock)
              && Learns(Joined(s.own.v, s.joined), BeginDropReceiver(s, i).own.v, s.m.clock)
    ensures r in s.rcv && s.rcv[r].pc.RLoad? ==>
              var t := RecvStep(WithAsync, s, r, ok, i); r in t.rcv && Learns(s.rcv[r].v, t.rcv[r].v, s.m.clock)
  {
  }

  /** A compare-and-swap that fails is relaxed too. */
  lemma FailuresAreRelaxed(s: State, r: Rid, ok: bool, i: nat)
    ensures var a := SenderNext(s.snd);
            (a.Cas? && !Succeeds(a, s.m, s.snd.v, ok, i)) ==>
              Learns(s.snd.v, SenderStep(WithAsync, s, ok, i).snd.v, s.m.clock)
    ensures var a := ReceiverNext(s.own);
            ((a.Cas? || a.StrongCas?) && !Succeeds(a, s.m, s.own.v, ok, i)) ==>
              Learns(s.own.v, ReceiverStep(WithAsync, s, ok, i).own.v, s.m.clock)
    ensures r in s.rcv ==>
              var a := RecvNext(s.rcv[r]);
              (a.Cas? && !Succeeds(a, s.m, s.rcv[r].v, ok, i)) ==>
                var t := RecvStep(WithAsync, s, r, ok, i); r in t.rcv && Learns(s.rcv[r].v, t.rcv[r].v, s.m.clock)
  {
    SenderFails(s, ok, i);
    ReceiverFails(s, ok, i);
    if r in s.rcv { RecvFails(s, r, ok, i); }
  }

  lemma SenderFails(s: State, ok: bool, i: nat)
    ensures var a := SenderNext(s.snd);
            (a.Cas? && !Succeeds(a, s.m, s.snd.v, ok, i)) ==>
              Learns(s.snd.v, SenderStep(WithAsync, s, ok, i).snd.v, s.m.clock)
  {
    match s.snd.pc {
      case SDLoop => assert SenderStep(WithAsync, s, ok, i) == DropSenderLoop(WithAsync, s, ok, i);
      case SCas =>
      case SDSetDropping =>
      case _ =>
    }
  }

  lemma ReceiverFails(s: State, ok: bool, i: nat)
    ensures var a := ReceiverNext(s.own);
            ((a.Cas? || a.StrongCas?) && !Succeeds(a, s.m, s.own.v, ok, i)) ==>
              Learns(s.own.v, ReceiverStep(WithAsync, s, ok, i).own.v, s.m.clock)
  {
    match s.own.pc {
      case OPLoop => assert ReceiverStep(WithAsync, s, ok, i) == PollLoop(s, ok, i);
      case ODLoop => assert ReceiverStep(WithAsync, s, ok, i) == DropReceiverLoop(WithAsync, s, ok, i);
      case OPUnset => assert ReceiverStep(WithAsync, s, ok, i) == PollUnset(s, ok, i);
      case ODSetDropping =>
      case _ =>
    }
  }

  lemma RecvFails(s: State, r: Rid, ok: bool, i: nat)
    requires r in s.rcv
    ensures var a := RecvNext(s.rcv[r]);
            (a.Cas? && !Succeeds(a, s.m, s.rcv[r].v, ok, i)) ==>
              var t := RecvStep(WithAsync, s, r, ok, i); r in t.rcv && Learns(s.rcv[r].v, t.rcv[r].v, s.m.clock)
  {
    if s.rcv[r].pc.RLoop? { assert RecvStep(WithAsync, s, r, ok, i) == RecvLoop(WithAsync, s, r, ok, i); }
  }
}
