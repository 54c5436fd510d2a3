/** How long a call can take. A thread finishes each of its calls within a fixed number of its
    own steps, and a few more for each step in which it was hindered, whatever the other
    threads do in between and however stale its view is: every failed attempt reads a word the
    thread had not seen, which is paid for by another thread's success, and those are few.

    A step is hindered if it is a weak compare-and-swap that fails spuriously, a futex wait
    that returns for no reason, or a step of a thread that sleeps; and one load is not an
    attempt, the one after a futex wait. It may return what the thread has seen already
    although there is something new, and then the thread goes back to waiting.

    `p` bounds the polls started in the whole run; at most `4 + 2p` compare-and-swaps
    succeed, so no entry of the history has a larger index. */
module Progress {
  import opened Words
  import opened Memory
  import opened Channel
  import opened Invariant
  import Reachable

  // ----- potentials: successes of others still to be noticed, and steps until the next attempt

  function Unseen(s: State, v: View, p: nat): nat {
    if v.seen <= 4 + 2 * p then 16 * (4 + 2 * p - v.seen) else 0
  }

  function Behind(s: State, v: View): bool { v.seen < |s.m.hist| - 1 }

  function RecvRank(s: State, t: Recv): nat {
    match t.pc
    case RDropWaker => 7
    case RWait => if t.cur.pending then 6 else 3
    case RLoad => if t.cur.waiting && Behind(s, t.v) then 1 else 5
    case RLoop => 4
    case RAsleep => 2
    case RRead => 1
  }

  function RecvPotential(s: State, r: Rid, p: nat): nat
    requires r in s.rcv
  {
    Unseen(s, s.rcv[r].v, p) + RecvRank(s, s.rcv[r])
  }

  function SenderRank(pc: SenderPc): nat {
    match pc
    case SIdle => 13
    case SWrite => 12
    case SCas => 11
    case SReadBack => 10
    case SWakeAcquire => 10
    case SWakeRun => 9
    case SWakeAll => 9
    case SDLoad => 8
    case SDLoop => 7
    case SDWake => 6
    case SDWakeAll => 6
    case SDSetDropping => 5
    case SDFree => 1
    case SGone => 0
  }

  function SenderPotential(s: State, p: nat): nat { Unseen(s, s.snd.v, p) + SenderRank(s.snd.pc) }

  function ReceiverRank(pc: ReceiverPc): nat {
    match pc
    case OPRefresh => 6
    case OPInit => 6
    case OPUnset => 5
    case OPDiscard => 4
    case OPLoop => 3
    case OPRead => 1
    case ODLoop => 3
    case ODRead => 5
    case ODDropWaker => 5
    case ODSetDropping => 4
    case ODFree => 1
    case OIdle => 0
    case OGone => 0
  }

  function ReceiverPotential(s: State, p: nat): nat { Unseen(s, s.own.v, p) + ReceiverRank(s.own.pc) }

  // ----- one step of the thread itself

  lemma SeenIsSmall(s: State, p: nat)
    requires Inv(s) && s.g.polls <= p
    ensures |s.m.hist| - 1 <= 4 + 2 * p
  {
  }

  // The word a failing attempt reads is not the one it compared with.
  predicate Tells(s: State, v: View, cur: Word, ok: bool, i: nat) {
    (ok && Last(s.m) == cur) || WordAt(s.m, v, i) != cur
  }

  // The next step is a weak compare-and-swap.
  predicate SenderAttempts(snd: Sender) {
    snd.pc.SCas? || snd.pc.SDSetDropping? || (snd.pc.SDLoop? && !(snd.cur.close && snd.cur.fieldless))
  }

  predicate ReceiverAttempts(own: Receiver) {
    var cur := own.cur;
    || own.pc.ODSetDropping?
    || (own.pc.OPLoop? && (cur.ready || (!cur.close && (cur.waiting || !cur.fieldless))))
    || (own.pc.ODLoop? && (cur.ready || !(cur.close && cur.fieldless)))
  }

  predicate RecvAttempts(t: Recv) {
    var cur := t.cur;
    t.pc.RLoop? && (cur.ready || (!cur.close && (if cur.waiting then cur.pending else !cur.fieldless)))
  }

  predicate SenderTimely(s: State, ok: bool, i: nat) {
    SenderAttempts(s.snd) ==> Tells(s, s.snd.v, s.snd.cur, ok, i)
  }

  predicate ReceiverTimely(s: State, ok: bool, i: nat) {
    ReceiverAttempts(s.own) ==> Tells(s, s.own.v, s.own.cur, ok, i)
  }

  // The futex call does not return at once if the word is the one it expects.
  predicate RecvTimely(s: State, t: Recv, ok: bool, i: nat) {
    && (RecvAttempts(t) ==> Tells(s, t.v, t.cur, ok, i))
    && (t.pc.RWait? ==> ok || Last(s.m) != t.cur)
    && (t.pc.RLoad? && t.cur.waiting && Behind(s, t.v) ==> t.v.seen < Pick(s.m, t.v, i))
  }

  lemma DropSenderAdvances(s: State, ok: bool, i: nat, p: nat)
    requires SenderOk(s) && |s.m.hist| <= 4 + 2 * p + 1 && SenderTimely(s, ok, i) && s.snd.pc.SDLoop?
    requires |DropSenderLoop(WithAsync, s, ok, i).m.hist| <= 4 + 2 * p + 1
    ensures SenderPotential(DropSenderLoop(WithAsync, s, ok, i), p) < SenderPotential(s, p)
  {
    if ok && Last(s.m) == s.snd.cur {
      if s.snd.cur.close { } else if s.snd.cur.pending { } else { }
    } else { }
  }

  lemma SenderAdvances(s: State, ok: bool, i: nat, p: nat)
    requires SenderOk(s) && |s.m.hist| <= 4 + 2 * p + 1 && SenderTimely(s, ok, i)
    requires |SenderStep(WithAsync, s, ok, i).m.hist| <= 4 + 2 * p + 1
    requires !s.snd.pc.SIdle? && !SenderGone(s)
    ensures SenderPotential(SenderStep(WithAsync, s, ok, i), p) < SenderPotential(s, p)
  {
    match s.snd.pc {
      case SCas =>
      case SDLoop => DropSenderAdvances(s, ok, i, p);
      case SDSetDropping =>
      case _ =>
    }
  }

  lemma PollLoopAdvances(s: State, ok: bool, i: nat, p: nat)
    requires ReceiverOk(s) && |s.m.hist| <= 4 + 2 * p + 1 && ReceiverTimely(s, ok, i) && s.own.pc.OPLoop?
    requires |PollLoop(s, ok, i).m.hist| <= 4 + 2 * p + 1
    ensures ReceiverPotential(PollLoop(s, ok, i), p) < ReceiverPotential(s, p)
  {
    if ok && Last(s.m) == s.own.cur { } else { }
  }

  lemma PollAdvances(s: State, ok: bool, i: nat, p: nat)
    requires ReceiverOk(s) && |s.m.hist| <= 4 + 2 * p + 1 && ReceiverTimely(s, ok, i)
    requires |ReceiverStep(WithAsync, s, ok, i).m.hist| <= 4 + 2 * p + 1
    requires Exclusive(s.own.pc) && !Dropping(s.own.pc)
    ensures ReceiverPotential(ReceiverStep(WithAsync, s, ok, i), p) < ReceiverPotential(s, p)
  {
    match s.own.pc {
      case OPLoop => PollLoopAdvances(s, ok, i, p);
      case OPUnset =>
      case _ =>
    }
  }

  lemma DropLoopAdvances(s: State, ok: bool, i: nat, p: nat)
    requires ReceiverOk(s) && |s.m.hist| <= 4 + 2 * p + 1 && ReceiverTimely(s, ok, i) && s.own.pc.ODLoop?
    requires |DropReceiverLoop(WithAsync, s, ok, i).m.hist| <= 4 + 2 * p + 1
    ensures ReceiverPotential(DropReceiverLoop(WithAsync, s, ok, i), p) < ReceiverPotential(s, p)
  {
    if ok && Last(s.m) == s.own.cur {
      if s.own.cur.ready { } else if s.own.cur.close { } else if s.own.cur.pending { } else { }
    } else { }
  }

  lemma DropAdvances(s: State, ok: bool, i: nat, p: nat)
    requires ReceiverOk(s) && |s.m.hist| <= 4 + 2 * p + 1 && ReceiverTimely(s, ok, i)
    requires |ReceiverStep(WithAsync, s, ok, i).m.hist| <= 4 + 2 * p + 1
    requires Exclusive(s.own.pc) && Dropping(s.own.pc)
    ensures ReceiverPotential(ReceiverStep(WithAsync, s, ok, i), p) < ReceiverPotential(s, p)
  {
    match s.own.pc {
      case ODLoop => DropLoopAdvances(s, ok, i, p);
      case ODSetDropping =>
      case _ =>
    }
  }

  lemma RecvAdvances(s: State, r: Rid, ok: bool, i: nat, p: nat)
    requires r in s.rcv && RecvOk(s, r) && EntryOk(s, s.rcv[r].v.seen) && !s.rcv[r].pc.RAsleep?
    requires |s.m.hist| <= 4 + 2 * p + 1 && RecvTimely(s, s.rcv[r], ok, i)
    requires |RecvStep(WithAsync, s, r, ok, i).m.hist| <= 4 + 2 * p + 1
    ensures var t := RecvStep(WithAsync, s, r, ok, i);
            r in t.rcv ==> RecvPotential(t, r, p) < RecvPotential(s, r, p)
  {
    match s.rcv[r].pc {
      case RLoop =>
      case RWait =>
      case RLoad =>
      case _ =>
    }
  }

  // ----- calls

  datatype Call = OfSender | OfReceiver | OfRecv(r: Rid)

  predicate Own(c: Call, a: Action) {
    match c
    case OfSender => a.StepSender?
    case OfReceiver => a.StepReceiver?
    case OfRecv(r) => a.StepRecv? && a.r == r
  }

  predicate Begins(c: Call, a: Action) {
    match c
    case OfSender => a.StartSend? || a.StartDropSender?
    case OfReceiver => a.StartPoll? || a.StartDropReceiver?
    case OfRecv(r) => a.StartRecv? && a.r == r
  }

  predicate Running(s: State, c: Call) {
    match c
    case OfSender => !s.snd.pc.SIdle? && !SenderGone(s)
    case OfReceiver => Exclusive(s.own.pc)
    case OfRecv(r) => r in s.rcv
  }

  function Potential(s: State, c: Call, p: nat): nat
    requires Running(s, c)
  {
    match c
    case OfSender => SenderPotential(s, p)
    case OfReceiver => ReceiverPotential(s, p)
    case OfRecv(r) => RecvPotential(s, r, p)
  }

  // Not a spurious failure and not a spurious wake-up, and no stale load after a futex wait.
  predicate Unhindered(s: State, a: Action, c: Call) {
    match a
    case StepSender(ok, i) => c.OfSender? ==> SenderTimely(s, ok, i)
    case StepReceiver(ok, i) => c.OfReceiver? ==> ReceiverTimely(s, ok, i)
    case StepRecv(r, ok, i) =>
      c == OfRecv(r) && r in s.rcv ==> RecvTimely(s, s.rcv[r], ok, i) && !s.rcv[r].pc.RAsleep?
    case _ => true
  }

  // How many of the call's own steps are hindered.
  function Hindrances(s: State, acts: seq<Action>, c: Call): nat {
    if acts == [] then 0
    else
      var n := |acts| - 1;
      Hindrances(s, acts[..n], c) +
      (if Own(c, acts[n]) && !Unhindered(Run(WithAsync, s, acts[..n]), acts[n], c) then 1 else 0)
  }

  function OwnSteps(acts: seq<Action>, c: Call): nat {
    if acts == [] then 0
    else OwnSteps(acts[..|acts| - 1], c) + (if Own(c, acts[|acts| - 1]) then 1 else 0)
  }

  // ----- what a step of one thread leaves alone

  predicate SenderOnly(s: State, t: State) {
    t.own == s.own && t.g.polls == s.g.polls && |s.m.hist| <= |t.m.hist|
  }

  predicate ReceiverOnly(s: State, t: State) {
    t.snd == s.snd && t.rcv == s.rcv && t.g.polls == s.g.polls && |s.m.hist| <= |t.m.hist|
  }

  predicate RecvOnly(s: State, t: State, r: Rid) {
    && t.snd == s.snd && t.own == s.own && t.g.polls == s.g.polls && |s.m.hist| <= |t.m.hist|
    && (forall q :: q in s.rcv && q != r ==> q in t.rcv && t.rcv[q] == s.rcv[q])
    && (r in t.rcv ==> r in s.rcv)
  }

  lemma DropSenderLoopFrame(s: State, ok: bool, i: nat)
    ensures var t := DropSenderLoop(WithAsync, s, ok, i); SenderOnly(s, t) && t.rcv == s.rcv
  {
  }

  lemma SenderFrame(s: State, ok: bool, i: nat)
    ensures var t := SenderStep(WithAsync, s, ok, i);
            SenderOnly(s, t) &&
            t.rcv == (if s.snd.pc.SWakeAll? || s.snd.pc.SDWakeAll? then WakeAll(s.rcv) else s.rcv)
  {
    match s.snd.pc {
      case SDLoop => DropSenderLoopFrame(s, ok, i);
      case SCas =>
      case SWakeRun =>
      case SDWake =>
      case SDSetDropping =>
      case _ =>
    }
  }

  lemma PollFrame(s: State, ok: bool, i: nat)
    ensures ReceiverOnly(s, PollLoop(s, ok, i)) && ReceiverOnly(s, PollUnset(s, ok, i))
  {
  }

  lemma DropReceiverLoopFrame(s: State, ok: bool, i: nat)
    ensures ReceiverOnly(s, DropReceiverLoop(WithAsync, s, ok, i))
  {
  }

  lemma ReceiverFrame(s: State, ok: bool, i: nat)
    ensures ReceiverOnly(s, ReceiverStep(WithAsync, s, ok, i))
  {
    match s.own.pc {
      case OPLoop => PollFrame(s, ok, i);
      case OPUnset => PollFrame(s, ok, i);
      case ODLoop => DropReceiverLoopFrame(s, ok, i);
      case OPRefresh =>
      case OPInit =>
      case OPDiscard =>
      case ODDropWaker =>
      case _ =>
    }
  }

  lemma RecvLoopFrame(s: State, r: Rid, ok: bool, i: nat)
    requires r in s.rcv
    ensures RecvOnly(s, RecvLoop(WithAsync, s, r, ok, i), r)
  {
  }

  lemma RecvFrame(s: State, r: Rid, ok: bool, i: nat)
    ensures RecvOnly(s, RecvStep(WithAsync, s, r, ok, i), r)
  {
    if r in s.rcv && s.rcv[r].pc.RLoop? {
      assert RecvStep(WithAsync, s, r, ok, i) == RecvLoop(WithAsync, s, r, ok, i);
      RecvLoopFrame(s, r, ok, i);
    }
  }

  // ----- other threads' steps

  lemma SleepersAreBehind(s: State, r: Rid)
    requires Inv(s) && r in s.rcv && s.rcv[r].pc.RAsleep? && (s.snd.pc.SWakeAll? || s.snd.pc.SDWakeAll?)
    ensures s.rcv[r].cur.waiting && Behind(s, s.rcv[r].v)
  {
    assert RecvOk(s, r);
  }

  lemma InterferenceWithRecv(s: State, a: Action, r: Rid, p: nat)
    requires r in s.rcv && !Own(OfRecv(r), a)
    requires a.StepSender? && (s.snd.pc.SWakeAll? || s.snd.pc.SDWakeAll?) && s.rcv[r].pc.RAsleep? ==>
               s.rcv[r].cur.waiting && Behind(s, s.rcv[r].v)
    ensures var t := Step(WithAsync, s, a); r in t.rcv && RecvPotential(t, r, p) <= RecvPotential(s, r, p)
  {
    match a {
      case StepSender(ok, i) =>
        SenderFrame(s, ok, i);
        if s.snd.pc.SWakeAll? || s.snd.pc.SDWakeAll? { }
      case StepReceiver(ok, i) => ReceiverFrame(s, ok, i);
      case StepRecv(q, ok, i) => RecvFrame(s, q, ok, i);
      case StartPoll(_, _) => assert r in s.rcv.Keys;
      case StartDropReceiver(_) => assert r in s.rcv.Keys;
      case StartRecv(_) =>
      case _ =>
    }
  }

  lemma Interference(s: State, a: Action, c: Call, p: nat)
    requires Inv(s) && Running(s, c) && !Own(c, a)
    ensures var t := Step(WithAsync, s, a); Running(t, c) && Potential(t, c, p) <= Potential(s, c, p)
  {
    match c {
      case OfRecv(r) =>
        if (s.snd.pc.SWakeAll? || s.snd.pc.SDWakeAll?) && s.rcv[r].pc.RAsleep? { SleepersAreBehind(s, r); }
        InterferenceWithRecv(s, a, r, p);
      case _ =>
        match a {
          case StepSender(ok, i) => SenderFrame(s, ok, i);
          case StepReceiver(ok, i) => ReceiverFrame(s, ok, i);
          case StepRecv(r, ok, i) => RecvFrame(s, r, ok, i);
          case StartRecv(_) =>
          case StartPoll(_, _) =>
          case _ =>
        }
    }
  }

  // A call that is over stays over until the next one of its kind begins.
  lemma StaysOver(s: State, a: Action, c: Call)
    requires !Running(s, c) && !Begins(c, a)
    ensures !Running(Step(WithAsync, s, a), c)
  {
    match a {
      case StepSender(ok, i) => SenderFrame(s, ok, i);
      case StepReceiver(ok, i) => ReceiverFrame(s, ok, i);
      case StepRecv(r, ok, i) => RecvFrame(s, r, ok, i);
      case _ =>
    }
  }

  // ----- the thread's own steps

  lemma OwnStep(s: State, a: Action, c: Call, p: nat)
    requires Inv(s) && Running(s, c) && Own(c, a) && Unhindered(s, a, c)
    requires Step(WithAsync, s, a).g.polls <= p
    ensures var t := Step(WithAsync, s, a); Running(t, c) ==> Potential(t, c, p) < Potential(s, c, p)
  {
    var t := Step(WithAsync, s, a);
    Reachable.StepKeeps(s, a);
    SeenIsSmall(t, p);
    PollsGrow(s, a);
    SeenIsSmall(s, p);
    match a {
      case StepSender(ok, i) =>
        SenderFrame(s, ok, i);
        SenderAdvances(s, ok, i, p);
      case StepReceiver(ok, i) =>
        ReceiverFrame(s, ok, i);
        if Dropping(s.own.pc) { DropAdvances(s, ok, i, p); } else { PollAdvances(s, ok, i, p); }
      case StepRecv(r, ok, i) =>
        RecvFrame(s, r, ok, i);
        assert RecvOk(s, r);
        assert EntryOk(s, s.rcv[r].v.seen);
        RecvAdvances(s, r, ok, i, p);
    }
  }

  lemma PollsGrow(s: State, a: Action)
    ensures s.g.polls <= Step(WithAsync, s, a).g.polls
  {
    match a {
      case StepSender(ok, i) => SenderFrame(s, ok, i);
      case StepReceiver(ok, i) => ReceiverFrame(s, ok, i);
      case StepRecv(r, ok, i) => RecvFrame(s, r, ok, i);
      case _ =>
    }
  }

  lemma SenderLooksOn(s: State, ok: bool, i: nat)
    requires s.snd.v.seen < |s.m.hist|
    ensures s.snd.v.seen <= SenderStep(WithAsync, s, ok, i).snd.v.seen
  {
    match s.snd.pc {
      case SDLoop => assert SenderStep(WithAsync, s, ok, i) == DropSenderLoop(WithAsync, s, ok, i);
      case _ =>
    }
  }

  lemma ReceiverLooksOn(s: State, ok: bool, i: nat)
    requires s.own.v.seen < |s.m.hist|
    ensures s.own.v.seen <= ReceiverStep(WithAsync, s, ok, i).own.v.seen
  {
    match s.own.pc {
      case OPLoop => assert ReceiverStep(WithAsync, s, ok, i) == PollLoop(s, ok, i);
      case ODLoop => assert ReceiverStep(WithAsync, s, ok, i) == DropReceiverLoop(WithAsync, s, ok, i);
      case OPUnset =>
      case _ =>
    }
  }

  lemma RecvLooksOn(s: State, r: Rid, ok: bool, i: nat)
    requires r in s.rcv && s.rcv[r].v.seen < |s.m.hist|
    ensures var t := RecvStep(WithAsync, s, r, ok, i); r in t.rcv ==> s.rcv[r].v.seen <= t.rcv[r].v.seen
  {
    match s.rcv[r].pc {
      case RLoop => assert RecvStep(WithAsync, s, r, ok, i) == RecvLoop(WithAsync, s, r, ok, i);
      case _ =>
    }
  }

  lemma SenderSetBack(s: State, ok: bool, i: nat, p: nat)
    requires s.snd.v.seen < |s.m.hist|
    ensures SenderPotential(SenderStep(WithAsync, s, ok, i), p) <= SenderPotential(s, p) + 13
  {
    SenderLooksOn(s, ok, i);
    var t := SenderStep(WithAsync, s, ok, i);
    assert SenderRank(t.snd.pc) <= 13;
  }

  lemma ReceiverSetBack(s: State, ok: bool, i: nat, p: nat)
    requires s.own.v.seen < |s.m.hist|
    ensures ReceiverPotential(ReceiverStep(WithAsync, s, ok, i), p) <= ReceiverPotential(s, p) + 13
  {
    ReceiverLooksOn(s, ok, i);
    var t := ReceiverStep(WithAsync, s, ok, i);
    assert ReceiverRank(t.own.pc) <= 6;
  }

  lemma RecvSetBack(s: State, r: Rid, ok: bool, i: nat, p: nat)
    requires r in s.rcv && s.rcv[r].v.seen < |s.m.hist|
    ensures var t := RecvStep(WithAsync, s, r, ok, i);
            r in t.rcv ==> RecvPotential(t, r, p) <= RecvPotential(s, r, p) + 13
  {
    RecvLooksOn(s, r, ok, i);
    var t := RecvStep(WithAsync, s, r, ok, i);
    assert r in t.rcv ==> RecvRank(t, t.rcv[r]) <= 7;
  }

  // A step that is hindered sets the call back, but not by more than a round of its loop.
  lemma SetBack(s: State, a: Action, c: Call, p: nat)
    requires Inv(s) && Running(s, c) && Own(c, a)
    ensures var t := Step(WithAsync, s, a); Running(t, c) ==> Potential(t, c, p) <= Potential(s, c, p) + 13
  {
    match a {
      case StepSender(ok, i) => SenderSetBack(s, ok, i, p);
      case StepReceiver(ok, i) => ReceiverSetBack(s, ok, i, p);
      case StepRecv(r, ok, i) =>
        assert RecvOk(s, r);
        RecvSetBack(s, r, ok, i, p);
    }
  }

  lemma {:induction false} StepsAreBounded(s: State, acts: seq<Action>, c: Call, p: nat)
    requires Inv(s) && Running(s, c)
    requires forall k :: 0 <= k < |acts| ==> !Begins(c, acts[k])
    requires Run(WithAsync, s, acts).g.polls <= p && Running(Run(WithAsync, s, acts), c)
    ensures OwnSteps(acts, c) + Potential(Run(WithAsync, s, acts), c, p)
            <= Potential(s, c, p) + 14 * Hindrances(s, acts, c)
  {
    if acts != [] {
      var n := |acts| - 1;
      var u := Run(WithAsync, s, acts[..n]);
      Reachable.RunKeeps(s, acts[..n]);
      PollsGrow(u, acts[n]);
      if !Running(u, c) { StaysOver(u, acts[n], c); }
      StepsAreBounded(s, acts[..n], c, p);
      if !Own(c, acts[n]) {
        Interference(u, acts[n], c, p);
      } else if Unhindered(u, acts[n], c) {
        OwnStep(u, acts[n], c, p);
      } else {
        SetBack(u, acts[n], c, p);
      }
    }
  }

  /** Every call - a send with the drop that follows it, a poll, a receiver drop, or a recv - is
      over after at most 16(4 + 2p) + 13 of its own steps and 14 more for each step in which it
      was hindered, in every interleaving with the other threads. */
  lemma {:induction false} CallsFinish(s: State, acts: seq<Action>, c: Call, p: nat)
    requires Inv(s) && Running(s, c)
    requires forall k :: 0 <= k < |acts| ==> !Begins(c, acts[k])
    requires Run(WithAsync, s, acts).g.polls <= p
    requires OwnSteps(acts, c) > 16 * (4 + 2 * p) + 13 + 14 * Hindrances(s, acts, c)
    ensures !Running(Run(WithAsync, s, acts), c)
  {
    if Running(Run(WithAsync, s, acts), c) {
      StepsAreBounded(s, acts, c, p);
    }
  }

  // How many steps of thread `r` fail or return spuriously, or read a stale word after a wait.
  function Delays(s: State, acts: seq<Action>, r: Rid): nat {
    if acts == [] then 0
    else
      var n := |acts| - 1;
      var u := Run(WithAsync, s, acts[..n]);
      var a := acts[n];
      Delays(s, acts[..n], r) +
      (if a.StepRecv? && a.r == r && r in u.rcv && !RecvTimely(u, u.rcv[r], a.ok, a.i) then 1 else 0)
  }

  lemma {:induction false} GoneStaysGone(s: State, acts: seq<Action>)
    requires Inv(s) && SenderGone(s)
    ensures SenderGone(Run(WithAsync, s, acts))
  {
    if acts != [] {
      var n := |acts| - 1;
      GoneStaysGone(s, acts[..n]);
      var u := Run(WithAsync, s, acts[..n]);
      match acts[n] {
        case StepReceiver(ok, i) => ReceiverFrame(u, ok, i);
        case StepRecv(r, ok, i) => RecvFrame(u, r, ok, i);
        case _ =>
      }
    }
  }

  lemma {:induction false} AwakeAfterSender(s: State, acts: seq<Action>, r: Rid)
    requires Inv(s) && SenderGone(s)
    ensures Hindrances(s, acts, OfRecv(r)) == Delays(s, acts, r)
  {
    if acts != [] {
      var n := |acts| - 1;
      AwakeAfterSender(s, acts[..n], r);
      GoneStaysGone(s, acts[..n]);
      Reachable.RunKeeps(s, acts[..n]);
      var u := Run(WithAsync, s, acts[..n]);
      if r in u.rcv { assert RecvOk(u, r); }
    }
  }

  /** Once the sender is gone every thread inside recv gets out: no recv sleeps, and each
      returns within as many of its own steps, however it is scheduled. */
  lemma {:induction false} RecvsEndAfterSender(s: State, acts: seq<Action>, r: Rid, p: nat)
    requires Inv(s) && SenderGone(s) && r in s.rcv
    requires forall k :: 0 <= k < |acts| ==> acts[k] != StartRecv(r)
    requires Run(WithAsync, s, acts).g.polls <= p
    requires OwnSteps(acts, OfRecv(r)) > 16 * (4 + 2 * p) + 13 + 14 * Delays(s, acts, r)
    ensures r !in Run(WithAsync, s, acts).rcv
  {
    AwakeAfterSender(s, acts, r);
    CallsFinish(s, acts, OfRecv(r), p);
  }
}
