/** The lock-free channel refines the atomic one: at every step at most one operation
    takes effect, and the effects of every run form a history of the atomic channel. */
module Refinement {
  import opened Wrappers
  import opened Words
  import opened Memory
  import opened Channel
  import opened Invariant
  import opened Progress
  import Accesses
  import Reachable
  import Spec

  function Abstract(s: State): Spec.OneShot {
    Spec.OneShot(
      if s.g.sent.None? then Spec.Empty
      else if s.g.data.Shared? then Spec.Full(s.g.sent.value) else Spec.Gone,
      s.g.sClosed, s.g.oClosed)
  }

  // The operation that takes effect in this step, with the answer it will give.
  function EventOf(s: State, a: Action): Spec.Event {
    match a
    case StartSend(x, i) =>
      if s.snd.pc.SIdle? && WordAt(s.m, s.snd.v, i).close then Spec.SendErr(x) else Spec.Internal
    case StepSender(ok, i) =>
      if s.snd.pc.SCas? && ok && Last(s.m) == s.snd.cur then Spec.SendOk(s.snd.val.GetOr(0))
      else if s.snd.pc.SReadBack? then Spec.SendErr(s.m.data.GetOr(0))
      else if !Last(s.m).close && Last(SenderStep(WithAsync, s, ok, i).m).close then Spec.CloseSender
      else Spec.Internal
    case StepReceiver(ok, i) =>
      var cur := s.own.cur;
      var success := ok && Last(s.m) == cur;
      if s.own.pc.OPLoop? && cur.ready then
        if success then Spec.RecvSome(s.m.data.GetOr(0)) else Spec.Internal
      else if s.own.pc.OPLoop? && (cur.close || (!cur.waiting && cur.fieldless)) then Spec.RecvNone
      else if s.own.pc.ODLoop? && cur.ready then
        if success then Spec.Discard(s.m.data.GetOr(0)) else Spec.Internal
      else if !Last(s.m).close && Last(ReceiverStep(WithAsync, s, ok, i).m).close then Spec.CloseReceiver
      else Spec.Internal
    case StepRecv(r, ok, i) =>
      if r !in s.rcv || !s.rcv[r].pc.RLoop? then Spec.Internal
      else
        var cur := s.rcv[r].cur;
        if cur.ready then
          if ok && Last(s.m) == cur then Spec.RecvSome(s.m.data.GetOr(0)) else Spec.Internal
        else if cur.close || (!cur.waiting && cur.fieldless) then Spec.RecvNone
        else Spec.Internal
    case _ => Spec.Internal
  }

  lemma ReadyRefines(s: State, ok: bool, i: nat)
    requires EntryOk(s, |s.m.hist| - 1) && LastOk(s) && SenderOk(s) && s.snd.pc.SCas?
    ensures Spec.Next(Abstract(s), EventOf(s, StepSender(ok, i)), Abstract(TryReady(WithAsync, s, ok, i)))
  {
    if ok && Last(s.m) == s.snd.cur { } else { }
  }

  lemma SenderRefines(s: State, ok: bool, i: nat)
    requires EntryOk(s, |s.m.hist| - 1) && LastOk(s) && SenderOk(s) && DataOk(s) && !s.snd.pc.SDLoop?
    ensures Spec.Next(Abstract(s), EventOf(s, StepSender(ok, i)), Abstract(SenderStep(WithAsync, s, ok, i)))
  {
    match s.snd.pc {
      case SWrite =>
      case SCas => ReadyRefines(s, ok, i);
      case SReadBack =>
      case SWakeRun =>
      case SDWake =>
      case SDSetDropping =>
      case _ =>
    }
  }

  lemma DropSenderRetries(s: State, ok: bool, i: nat)
    requires LastOk(s) && SenderOk(s) && s.snd.pc.SDLoop? && !(ok && Last(s.m) == s.snd.cur)
    ensures Spec.Next(Abstract(s), EventOf(s, StepSender(ok, i)), Abstract(SenderStep(WithAsync, s, ok, i)))
  {
    var t := DropSenderLoop(WithAsync, s, ok, i);
    assert t.g == s.g && Last(t.m) == Last(s.m);
  }

  lemma DropSenderRefines(s: State, ok: bool, i: nat)
    requires LastOk(s) && SenderOk(s) && s.snd.pc.SDLoop?
    ensures Spec.Next(Abstract(s), EventOf(s, StepSender(ok, i)), Abstract(SenderStep(WithAsync, s, ok, i)))
  {
    if !(ok && Last(s.m) == s.snd.cur) {
      DropSenderRetries(s, ok, i);
    } else {
      assert SenderStep(WithAsync, s, ok, i) == DropSenderLoop(WithAsync, s, ok, i);
      if s.snd.cur.close { } else if s.snd.cur.pending { } else { }
    }
  }

  lemma PollRefines(s: State, ok: bool, i: nat)
    requires LastOk(s) && ReceiverOk(s) && DataOk(s) && s.own.pc.OPLoop? && EntryOk(s, s.own.v.seen)
    ensures Spec.Next(Abstract(s), EventOf(s, StepReceiver(ok, i)), Abstract(ReceiverStep(WithAsync, s, ok, i)))
  {
    assert ReceiverStep(WithAsync, s, ok, i) == PollLoop(s, ok, i);
    if ok && Last(s.m) == s.own.cur { } else { }
  }

  lemma DropReceiverRetries(s: State, ok: bool, i: nat)
    requires LastOk(s) && ReceiverOk(s) && s.own.pc.ODLoop? && !(ok && Last(s.m) == s.own.cur)
    ensures Spec.Next(Abstract(s), EventOf(s, StepReceiver(ok, i)), Abstract(DropReceiverLoop(WithAsync, s, ok, i)))
  {
    var t := DropReceiverLoop(WithAsync, s, ok, i);
    assert t.g == s.g && Last(t.m) == Last(s.m);
  }

  lemma DropReceiverInstalls(s: State, i: nat)
    requires EntryOk(s, |s.m.hist| - 1) && LastOk(s) && ReceiverOk(s) && DataOk(s) && s.own.pc.ODLoop?
    requires Last(s.m) == s.own.cur
    ensures Spec.Next(Abstract(s), EventOf(s, StepReceiver(true, i)), Abstract(DropReceiverLoop(WithAsync, s, true, i)))
  {
  }

  lemma DropReceiverRefines(s: State, ok: bool, i: nat)
    requires EntryOk(s, |s.m.hist| - 1) && LastOk(s) && ReceiverOk(s) && DataOk(s) && s.own.pc.ODLoop?
    ensures Spec.Next(Abstract(s), EventOf(s, StepReceiver(ok, i)), Abstract(ReceiverStep(WithAsync, s, ok, i)))
  {
    assert ReceiverStep(WithAsync, s, ok, i) == DropReceiverLoop(WithAsync, s, ok, i);
    if ok && Last(s.m) == s.own.cur { DropReceiverInstalls(s, i); } else { DropReceiverRetries(s, ok, i); }
  }

  // The steps between claiming a value and having it.
  lemma ReceiverReads(s: State, ok: bool, i: nat)
    requires LastOk(s) && ReceiverOk(s) && (s.own.pc.OPRead? || s.own.pc.ODRead?)
    ensures Spec.Next(Abstract(s), EventOf(s, StepReceiver(ok, i)), Abstract(ReceiverStep(WithAsync, s, ok, i)))
  {
  }

  lemma UnsetRefines(s: State, ok: bool, i: nat)
    requires LastOk(s) && ReceiverOk(s) && s.own.pc.OPUnset?
    ensures Spec.Next(Abstract(s), EventOf(s, StepReceiver(ok, i)), Abstract(ReceiverStep(WithAsync, s, ok, i)))
  {
    var t := ReceiverStep(WithAsync, s, ok, i);
    assert t.g.sent == s.g.sent && t.g.data == s.g.data && t.g.sClosed == s.g.sClosed && t.g.oClosed == s.g.oClosed;
  }

  lemma MarkRefines(s: State, ok: bool, i: nat)
    requires LastOk(s) && ReceiverOk(s) && s.own.pc.ODSetDropping?
    ensures Spec.Next(Abstract(s), EventOf(s, StepReceiver(ok, i)), Abstract(ReceiverStep(WithAsync, s, ok, i)))
  {
  }

  // Waking, storing and dropping wakers, and freeing.
  lemma ReceiverIdles(s: State, ok: bool, i: nat)
    requires LastOk(s) && ReceiverOk(s) && !s.own.pc.OPLoop? && !s.own.pc.ODLoop?
    requires !s.own.pc.OPRead? && !s.own.pc.ODRead? && !s.own.pc.OPUnset? && !s.own.pc.ODSetDropping?
    ensures Spec.Next(Abstract(s), EventOf(s, StepReceiver(ok, i)), Abstract(ReceiverStep(WithAsync, s, ok, i)))
  {
    match s.own.pc {
      case OPRefresh =>
      case OPInit =>
      case _ =>
    }
  }

  lemma ReceiverRefines(s: State, ok: bool, i: nat)
    requires LastOk(s) && ReceiverOk(s) && !s.own.pc.OPLoop? && !s.own.pc.ODLoop?
    ensures Spec.Next(Abstract(s), EventOf(s, StepReceiver(ok, i)), Abstract(ReceiverStep(WithAsync, s, ok, i)))
  {
    if s.own.pc.OPRead? || s.own.pc.ODRead? {
      ReceiverReads(s, ok, i);
    } else if s.own.pc.OPUnset? {
      UnsetRefines(s, ok, i);
    } else if s.own.pc.ODSetDropping? {
      MarkRefines(s, ok, i);
    } else {
      ReceiverIdles(s, ok, i);
    }
  }

  lemma RecvRefines(s: State, r: Rid, ok: bool, i: nat)
    requires LastOk(s) && ReceiverOk(s) && DataOk(s) && r in s.rcv && RecvOk(s, r) && EntryOk(s, s.rcv[r].v.seen)
    ensures Spec.Next(Abstract(s), EventOf(s, StepRecv(r, ok, i)), Abstract(RecvStep(WithAsync, s, r, ok, i)))
  {
    match s.rcv[r].pc {
      case RLoop => if s.rcv[r].cur.ready { } else if s.rcv[r].cur.close { } else { }
      case RRead =>
      case RDropWaker =>
      case _ =>
    }
  }

  lemma StepRefines(s: State, a: Action)
    requires Inv(s)
    ensures Spec.Next(Abstract(s), EventOf(s, a), Abstract(Step(WithAsync, s, a)))
  {
    match a {
      case StartSend(x, i) => assert EntryOk(s, Pick(s.m, s.snd.v, i));
      case StepSender(ok, i) => if s.snd.pc.SDLoop? { DropSenderRefines(s, ok, i); } else { SenderRefines(s, ok, i); }
      case StepReceiver(ok, i) =>
        assert EntryOk(s, s.own.v.seen);
        if s.own.pc.OPLoop? { PollRefines(s, ok, i); }
        else if s.own.pc.ODLoop? { DropReceiverRefines(s, ok, i); }
        else { ReceiverRefines(s, ok, i); }
      case StepRecv(r, ok, i) =>
        if r in s.rcv {
          assert RecvOk(s, r);
          assert EntryOk(s, s.rcv[r].v.seen);
          RecvRefines(s, r, ok, i);
        }
      case _ =>
    }
  }

  function Events(acts: seq<Action>): seq<Spec.Event> {
    if acts == [] then []
    else Events(acts[..|acts| - 1]) + [EventOf(Run(WithAsync, INITIAL, acts[..|acts| - 1]), acts[|acts| - 1])]
  }

  /** Linearizability: the effects of every run are a history of the atomic channel, and
      lead to the abstraction of the state the run ends in. */
  lemma {:induction false} RunRefines(acts: seq<Action>)
    ensures Spec.Legal(Events(acts))
    ensures Spec.After(Events(acts)) == Abstract(Run(WithAsync, INITIAL, acts))
  {
    if acts != [] {
      var n := |acts| - 1;
      RunRefines(acts[..n]);
      Reachable.Always(acts[..n]);
      var s := Run(WithAsync, INITIAL, acts[..n]);
      StepRefines(s, acts[n]);
      assert Events(acts)[..n] == Events(acts[..n]) by { EventsLength(acts[..n]); }
      EventsLength(acts);
      NextIsEffect(Spec.After(Events(acts[..n])), Events(acts)[n], Abstract(Run(WithAsync, INITIAL, acts)));
    }
  }

  lemma {:induction false} EventsLength(acts: seq<Action>)
    ensures |Events(acts)| == |acts|
  {
    if acts != [] { EventsLength(acts[..|acts| - 1]); }
  }

  lemma NextIsEffect(o: Spec.OneShot, e: Spec.Event, p: Spec.OneShot)
    requires Spec.Next(o, e, p)
    ensures Spec.Effect(o, e) == p
  {
  }

  // ----- what each call answers

  datatype Answer = Sent | Refused(x: int) | Value(x: int) | Nobody | Pending

  // The answer the call gives that action `a` ends.
  function AnswerOf(s: State, a: Action): Option<Answer> {
    match a
    case StartSend(x, i) => if s.snd.pc.SIdle? && WordAt(s.m, s.snd.v, i).close then Some(Refused(x)) else None
    case StepSender(ok, i) =>
      if s.snd.pc.SReadBack? then Some(Refused(s.m.data.GetOr(0)))
      else if Sending(s.snd.pc) && !Sending(SenderStep(WithAsync, s, ok, i).snd.pc) then Some(Sent)
      else None
    case StepReceiver(ok, i) =>
      if s.own.pc.OPRead? then Some(Value(s.m.data.GetOr(0)))
      else if s.own.pc.OPLoop? && ReceiverStep(WithAsync, s, ok, i).own.pc.OIdle? then Some(Nobody)
      else if s.own.pc.OPUnset? && ReceiverStep(WithAsync, s, ok, i).own.pc.OIdle? then Some(Pending)
      else None
    case StepRecv(r, ok, i) =>
      if r !in s.rcv then None
      else if s.rcv[r].pc.RRead? then Some(Value(s.m.data.GetOr(0)))
      else if r !in RecvStep(WithAsync, s, r, ok, i).rcv then Some(Nobody)
      else None
    case _ => None
  }

  // Inside send, before the drop that follows it.
  predicate Sending(pc: SenderPc) {
    pc.SWrite? || pc.SCas? || pc.SReadBack? || pc.SWakeAcquire? || pc.SWakeRun? || pc.SWakeAll?
  }

  // Inside a poll, or inside recv.
  predicate Receiving(s: State, c: Call) {
    match c
    case OfSender => false
    case OfReceiver => Exclusive(s.own.pc) && !Dropping(s.own.pc)
    case OfRecv(r) => r in s.rcv
  }

  // The effects that are answers of a call, and that call's own.
  predicate Visible(e: Spec.Event) { e.SendOk? || e.SendErr? || e.RecvSome? || e.RecvNone? }

  function Mine(s: State, a: Action, c: Call): seq<Spec.Event> {
    if (Own(c, a) || Begins(c, a)) && Visible(EventOf(s, a)) then [EventOf(s, a)] else []
  }

  function Continued(s: State, a: Action, c: Call, es: seq<Spec.Event>): seq<Spec.Event> {
    (if Begins(c, a) && !Running(s, c) then [] else es) + Mine(s, a, c)
  }

  // The effects thread `c` has had since it last began a call.
  function CallEvents(acts: seq<Action>, c: Call): seq<Spec.Event> {
    if acts == [] then []
    else
      var before := acts[..|acts| - 1];
      Continued(Run(WithAsync, INITIAL, before), acts[|acts| - 1], c, CallEvents(before, c))
  }

  // The effects a call has had when it is where it is.
  predicate Making(s: State, c: Call, es: seq<Spec.Event>) {
    match c
    case OfSender =>
      && (BeforeReady(s.snd.pc) ==> es == [])
      && (s.snd.pc.SWakeAcquire? || s.snd.pc.SWakeRun? || s.snd.pc.SWakeAll? ==>
            es == [Spec.SendOk(s.snd.val.GetOr(0))])
    case OfReceiver =>
      Receiving(s, c) ==> es == if s.own.pc.OPRead? then [Spec.RecvSome(s.m.data.GetOr(0))] else []
    case OfRecv(r) =>
      r in s.rcv ==> es == if s.rcv[r].pc.RRead? then [Spec.RecvSome(s.m.data.GetOr(0))] else []
  }

  function EventsOf(a: Answer, val: int): seq<Spec.Event> {
    match a
    case Sent => [Spec.SendOk(val)]
    case Refused(x) => [Spec.SendErr(x)]
    case Value(x) => [Spec.RecvSome(x)]
    case Nobody => [Spec.RecvNone]
    case Pending => []
  }

  predicate ThreadOf(a: Action, c: Call) { Own(c, a) || (a.StartSend? && c.OfSender?) }

  lemma SenderLeavesData(s: State, ok: bool, i: nat)
    requires SenderOk(s) && (s.g.data.AtRecv? || s.g.data.AtReceiver?)
    ensures SenderStep(WithAsync, s, ok, i).m.data == s.m.data
  {
    Accesses.SenderAccess(s, ok, i);
  }

  lemma ReceiverLeavesData(s: State, ok: bool, i: nat)
    requires ReceiverOk(s) && s.g.data.AtRecv?
    ensures ReceiverStep(WithAsync, s, ok, i).m.data == s.m.data
  {
    Accesses.ReceiverAccess(s, ok, i);
  }

  lemma RecvLeavesData(s: State, r: Rid, ok: bool, i: nat)
    requires r in s.rcv ==> RecvOk(s, r)
    requires s.g.data.AtReceiver? || (s.g.data.AtRecv? && s.g.data.r != r)
    ensures RecvStep(WithAsync, s, r, ok, i).m.data == s.m.data
  {
    if r in s.rcv { Accesses.RecvAccess(s, r, ok, i); }
  }

  // A value that was claimed stays in the cell until it is read.
  lemma DataHeld(s: State, a: Action)
    requires SenderOk(s) && ReceiverOk(s) && RecvsOk(s)
    requires (s.g.data.AtRecv? && !Own(OfRecv(s.g.data.r), a)) || (s.g.data.AtReceiver? && !Own(OfReceiver, a))
    ensures Step(WithAsync, s, a).m.data == s.m.data
  {
    match a {
      case StepSender(ok, i) => SenderLeavesData(s, ok, i);
      case StepReceiver(ok, i) => ReceiverLeavesData(s, ok, i);
      case StepRecv(r, ok, i) => RecvLeavesData(s, r, ok, i);
      case _ =>
    }
  }

  lemma ReadyMakes(s: State, ok: bool, i: nat, es: seq<Spec.Event>)
    requires Making(s, OfSender, es) && s.snd.pc.SCas?
    ensures Making(SenderStep(WithAsync, s, ok, i), OfSender, Continued(s, StepSender(ok, i), OfSender, es))
  {
    assert SenderStep(WithAsync, s, ok, i) == TryReady(WithAsync, s, ok, i);
  }

  lemma DropSenderMakes(s: State, ok: bool, i: nat, es: seq<Spec.Event>)
    requires Making(s, OfSender, es) && (s.snd.pc.SDLoop? || s.snd.pc.SDSetDropping?)
    ensures Making(SenderStep(WithAsync, s, ok, i), OfSender, Continued(s, StepSender(ok, i), OfSender, es))
  {
    if s.snd.pc.SDLoop? { assert SenderStep(WithAsync, s, ok, i) == DropSenderLoop(WithAsync, s, ok, i); }
  }

  lemma SendStepMakes(s: State, ok: bool, i: nat, es: seq<Spec.Event>)
    requires Making(s, OfSender, es)
    ensures Making(SenderStep(WithAsync, s, ok, i), OfSender, Continued(s, StepSender(ok, i), OfSender, es))
  {
    if s.snd.pc.SCas? {
      ReadyMakes(s, ok, i, es);
    } else if s.snd.pc.SDLoop? || s.snd.pc.SDSetDropping? {
      DropSenderMakes(s, ok, i, es);
    } else { }
  }

  lemma SendMakes(s: State, a: Action, es: seq<Spec.Event>)
    requires Making(s, OfSender, es) && (Own(OfSender, a) || Begins(OfSender, a))
    ensures Making(Step(WithAsync, s, a), OfSender, Continued(s, a, OfSender, es))
  {
    if a.StepSender? { SendStepMakes(s, a.ok, a.i, es); }
  }

  lemma PollLoopMakes(s: State, ok: bool, i: nat, es: seq<Spec.Event>)
    requires LastOk(s) && Making(s, OfReceiver, es) && s.own.pc.OPLoop?
    ensures Making(PollLoop(s, ok, i), OfReceiver, es + Mine(s, StepReceiver(ok, i), OfReceiver))
  {
    if ok && Last(s.m) == s.own.cur { } else { }
  }

  lemma PollMakes(s: State, ok: bool, i: nat, es: seq<Spec.Event>)
    requires ReceiverOk(s) && LastOk(s) && Making(s, OfReceiver, es)
    ensures Making(ReceiverStep(WithAsync, s, ok, i), OfReceiver, Continued(s, StepReceiver(ok, i), OfReceiver, es))
  {
    match s.own.pc {
      case OPLoop =>
        assert ReceiverStep(WithAsync, s, ok, i) == PollLoop(s, ok, i);
        PollLoopMakes(s, ok, i, es);
      case ODLoop => assert ReceiverStep(WithAsync, s, ok, i) == DropReceiverLoop(WithAsync, s, ok, i);
      case OPUnset =>
      case ODSetDropping =>
      case _ =>
    }
  }

  lemma RecvMakes(s: State, r: Rid, ok: bool, i: nat, es: seq<Spec.Event>)
    requires LastOk(s) && Making(s, OfRecv(r), es)
    ensures Making(RecvStep(WithAsync, s, r, ok, i), OfRecv(r), Continued(s, StepRecv(r, ok, i), OfRecv(r), es))
  {
    if r in s.rcv && s.rcv[r].pc.RLoop? {
      assert RecvStep(WithAsync, s, r, ok, i) == RecvLoop(WithAsync, s, r, ok, i);
    }
  }

  // A thread inside recv is where it was, awake or not.
  predicate StillThere(s: State, t: State, r: Rid) {
    (r in t.rcv <==> r in s.rcv) && (r in s.rcv ==> t.rcv[r].pc.RRead? == s.rcv[r].pc.RRead?)
  }

  lemma BeginLeavesRecv(s: State, a: Action, r: Rid)
    requires !a.StepSender? && !a.StepReceiver? && !a.StepRecv? && !Begins(OfRecv(r), a)
    ensures StillThere(s, Step(WithAsync, s, a), r)
  {
    match a {
      case StartPoll(_, _) => if r in s.rcv { assert r in s.rcv.Keys; }
      case StartDropReceiver(_) => if r in s.rcv { assert r in s.rcv.Keys; }
      case _ =>
    }
  }

  lemma StepLeavesRecv(s: State, a: Action, r: Rid)
    requires !Own(OfRecv(r), a) && !Begins(OfRecv(r), a)
    ensures StillThere(s, Step(WithAsync, s, a), r)
  {
    match a {
      case StepSender(ok, i) => SenderFrame(s, ok, i);
      case StepReceiver(ok, i) => ReceiverFrame(s, ok, i);
      case StepRecv(q, ok, i) => RecvFrame(s, q, ok, i);
      case _ => BeginLeavesRecv(s, a, r);
    }
  }

  lemma StepLeavesSender(s: State, a: Action)
    requires !Own(OfSender, a) && !Begins(OfSender, a)
    ensures Step(WithAsync, s, a).snd == s.snd
  {
    match a {
      case StepReceiver(ok, i) => ReceiverFrame(s, ok, i);
      case StepRecv(r, ok, i) => RecvFrame(s, r, ok, i);
      case _ =>
    }
  }

  lemma StepLeavesReceiver(s: State, a: Action)
    requires !Own(OfReceiver, a) && !Begins(OfReceiver, a)
    ensures Step(WithAsync, s, a).own == s.own
  {
    match a {
      case StepSender(ok, i) => SenderFrame(s, ok, i);
      case StepRecv(r, ok, i) => RecvFrame(s, r, ok, i);
      case _ =>
    }
  }

  // Steps of other threads leave a call where it is.
  lemma LeftAlone(s: State, a: Action, c: Call)
    requires !Own(c, a) && !Begins(c, a)
    ensures var t := Step(WithAsync, s, a);
            match c
            case OfSender => t.snd == s.snd
            case OfReceiver => t.own == s.own
            case OfRecv(r) => StillThere(s, t, r)
  {
    match c {
      case OfSender => StepLeavesSender(s, a);
      case OfReceiver => StepLeavesReceiver(s, a);
      case OfRecv(r) => StepLeavesRecv(s, a, r);
    }
  }

  lemma OthersMake(s: State, a: Action, c: Call, es: seq<Spec.Event>)
    requires SenderOk(s) && ReceiverOk(s) && RecvsOk(s) && Making(s, c, es) && !Own(c, a) && !Begins(c, a)
    ensures Making(Step(WithAsync, s, a), c, es) && Continued(s, a, c, es) == es
  {
    LeftAlone(s, a, c);
    if c.OfReceiver? && s.own.pc.OPRead? { DataHeld(s, a); }
    if c.OfRecv? && c.r in s.rcv && s.rcv[c.r].pc.RRead? {
      assert RecvOk(s, c.r);
      DataHeld(s, a);
    }
  }

  lemma BeginMakes(s: State, a: Action, c: Call, es: seq<Spec.Event>)
    requires Making(s, c, es) && Begins(c, a) && !c.OfSender?
    ensures Making(Step(WithAsync, s, a), c, Continued(s, a, c, es))
  {
  }

  lemma StepMakes(s: State, a: Action, c: Call, es: seq<Spec.Event>)
    requires Inv(s) && Making(s, c, es)
    ensures Making(Step(WithAsync, s, a), c, Continued(s, a, c, es))
  {
    if !Own(c, a) && !Begins(c, a) {
      OthersMake(s, a, c, es);
    } else if c.OfSender? {
      SendMakes(s, a, es);
    } else if Begins(c, a) {
      BeginMakes(s, a, c, es);
    } else if c.OfReceiver? {
      PollMakes(s, a.ok, a.i, es);
    } else {
      RecvMakes(s, c.r, a.ok, a.i, es);
    }
  }

  lemma {:induction false} AlwaysMaking(acts: seq<Action>, c: Call)
    ensures Making(Run(WithAsync, INITIAL, acts), c, CallEvents(acts, c))
  {
    if acts != [] {
      var n := |acts| - 1;
      AlwaysMaking(acts[..n], c);
      Reachable.Always(acts[..n]);
      StepMakes(Run(WithAsync, INITIAL, acts[..n]), acts[n], c, CallEvents(acts[..n], c));
    }
  }

  lemma SendAnswerIsMade(s: State, ok: bool, i: nat, es: seq<Spec.Event>)
    requires Making(s, OfSender, es) && AnswerOf(s, StepSender(ok, i)).Some?
    ensures Continued(s, StepSender(ok, i), OfSender, es)
            == EventsOf(AnswerOf(s, StepSender(ok, i)).value, s.snd.val.GetOr(0))
  {
    match s.snd.pc {
      case SCas =>
      case SReadBack =>
      case SWakeRun =>
      case SWakeAll =>
      case _ =>
    }
  }

  lemma PollAnswerIsMade(s: State, ok: bool, i: nat, es: seq<Spec.Event>, val: int)
    requires Making(s, OfReceiver, es) && AnswerOf(s, StepReceiver(ok, i)).Some?
    ensures Continued(s, StepReceiver(ok, i), OfReceiver, es) == EventsOf(AnswerOf(s, StepReceiver(ok, i)).value, val)
  {
    match s.own.pc {
      case OPLoop => assert ReceiverStep(WithAsync, s, ok, i) == PollLoop(s, ok, i);
      case OPRead =>
      case OPUnset =>
      case _ =>
    }
  }

  lemma RecvAnswerIsMade(s: State, r: Rid, ok: bool, i: nat, es: seq<Spec.Event>, val: int)
    requires Making(s, OfRecv(r), es) && AnswerOf(s, StepRecv(r, ok, i)).Some?
    ensures Continued(s, StepRecv(r, ok, i), OfRecv(r), es) == EventsOf(AnswerOf(s, StepRecv(r, ok, i)).value, val)
  {
    if s.rcv[r].pc.RLoop? { assert RecvStep(WithAsync, s, r, ok, i) == RecvLoop(WithAsync, s, r, ok, i); }
  }

  lemma AnswerIsMade(s: State, a: Action, c: Call, es: seq<Spec.Event>)
    requires Making(s, c, es) && ThreadOf(a, c) && AnswerOf(s, a).Some?
    ensures Continued(s, a, c, es) == EventsOf(AnswerOf(s, a).value, s.snd.val.GetOr(0))
  {
    match a {
      case StepSender(ok, i) => SendAnswerIsMade(s, ok, i, es);
      case StepReceiver(ok, i) => PollAnswerIsMade(s, ok, i, es, s.snd.val.GetOr(0));
      case StepRecv(r, ok, i) => RecvAnswerIsMade(s, r, ok, i, es, s.snd.val.GetOr(0));
      case _ =>
    }
  }

  /** Each call takes effect once, by a step of its own and while it runs, and answers what
      that effect answered: the events a call has had when it gives its answer are exactly the
      one its answer calls for - for a poll that stays pending, none. */
  lemma {:induction false} CallsTakeEffectOnce(acts: seq<Action>, a: Action, c: Call)
    requires ThreadOf(a, c) && AnswerOf(Run(WithAsync, INITIAL, acts), a).Some?
    ensures var s := Run(WithAsync, INITIAL, acts);
            CallEvents(acts + [a], c) == EventsOf(AnswerOf(s, a).value, s.snd.val.GetOr(0))
  {
    AlwaysMaking(acts, c);
    assert (acts + [a])[..|acts|] == acts;
    AnswerIsMade(Run(WithAsync, INITIAL, acts), a, c, CallEvents(acts, c));
  }

  lemma SendAnswers(s: State, a: Action)
    requires Sending(s.snd.pc) && !Sending(Step(WithAsync, s, a).snd.pc)
    ensures Own(OfSender, a) && AnswerOf(s, a).Some?
  {
    if !Own(OfSender, a) && !Begins(OfSender, a) { LeftAlone(s, a, OfSender); }
  }

  lemma PollAnswers(s: State, a: Action)
    requires Receiving(s, OfReceiver) && !Receiving(Step(WithAsync, s, a), OfReceiver)
    ensures Own(OfReceiver, a) && AnswerOf(s, a).Some?
  {
    if !Own(OfReceiver, a) && !Begins(OfReceiver, a) { LeftAlone(s, a, OfReceiver); }
    match s.own.pc { case OPLoop => case OPUnset => case _ => }
  }

  lemma RecvAnswers(s: State, a: Action, r: Rid)
    requires r in s.rcv && r !in Step(WithAsync, s, a).rcv
    ensures Own(OfRecv(r), a) && AnswerOf(s, a).Some?
  {
    if !Own(OfRecv(r), a) && !Begins(OfRecv(r), a) { LeftAlone(s, a, OfRecv(r)); }
  }

  /** No call ends without an answer. */
  lemma CallsAnswer(s: State, a: Action, c: Call)
    ensures var t := Step(WithAsync, s, a);
            && (Receiving(s, c) && !Receiving(t, c) ==> Own(c, a) && AnswerOf(s, a).Some?)
            && (c.OfSender? && Sending(s.snd.pc) && !Sending(t.snd.pc) ==> Own(c, a) && AnswerOf(s, a).Some?)
  {
    var t := Step(WithAsync, s, a);
    if Receiving(s, c) && !Receiving(t, c) {
      if c.OfReceiver? { PollAnswers(s, a); } else { RecvAnswers(s, a, c.r); }
    }
    if c.OfSender? && Sending(s.snd.pc) && !Sending(t.snd.pc) { SendAnswers(s, a); }
  }
}
