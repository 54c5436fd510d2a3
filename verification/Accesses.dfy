/** The accesses the channel's code makes to the shared allocation: the methods of the status
    word, with the word each one installs and its orderings, the cells, the futex and the
    deallocation. For each of them, what it does to the memory; and for each position of a
    thread, the access the transition system makes there. */
module Accesses {
  import opened Words
  import opened Memory
  import opened Channel

  datatype Access =
    | Nothing
    | Load(acquire: bool)
    | Cas(expected: Word, w: Word, acq: bool, release: bool)      // weak
    | StrongCas(expected: Word, w: Word, release: bool)
    | WriteValue(x: int)
    | ReadValue
    | InitClone(task: nat)
    | RefreshClone(task: nat)
    | TakeClone(use: Use)
    | WakeWaiting
    | Wait(expected: Word)
    | Free

  // ----- the status methods

  function TrySetupReadyRelease(cur: Word): Access { Cas(cur, ReadySetup(WithAsync, cur), false, true) }

  function TrySetupDatalessAcquire(cur: Word): Access { Cas(cur, DatalessSetup(cur), true, false) }

  function TrySyncUnsetReadyAcquire(cur: Word): Access { Cas(cur, ReadyUnset(cur), true, false) }

  function TrySetupClosedDroppingRelease(cur: Word): Access { Cas(cur, ClosedAsyncSetup(cur), false, true) }

  function TrySyncSetupClosedWake(cur: Word): Access { Cas(cur, ClosedWakeSetup(cur), false, false) }

  function TrySyncSetupClosedAcquire(cur: Word): Access { Cas(cur, ClosedAsyncSetup(cur), true, false) }

  function TrySetClosedDroppingRelease(cur: Word): Access { Cas(cur, ClosedDroppingSet(cur), false, true) }

  function TrySetDroppingRelease(cur: Word): Access { Cas(cur, FieldlessSet(cur), false, true) }

  function TrySetWaiting(cur: Word): Access { Cas(cur, WaitingSet(cur), false, false) }

  function TrySyncSetWaitingPendingWakeless(cur: Word): Access { Cas(cur, PollingSet(cur), false, false) }

  function TryUnsetPendingAcquire(cur: Word): Access { Cas(cur, PendingUnset(cur), true, false) }

  function TrySyncSetWakelessAcquire(cur: Word): Access { Cas(cur, FieldlessSet(cur), true, false) }

  function UnsetWakelessRelease(cur: Word): Access { StrongCas(cur, FieldlessUnset(cur), true) }

  // ----- what an access does, by chance `ok` and `i`

  predicate Succeeds(a: Access, m: Mem, v: View, ok: bool, i: nat) {
    match a
    case Cas(expected, _, _, _) => ok && Last(m) == expected
    case StrongCas(expected, _, _) => Last(m) == expected && (ok || WordAt(m, v, i) == expected)
    case Wait(expected) => ok && Last(m) == expected
    case _ => true
  }

  // The word a load or a failing attempt reads: a strong one does not fail on the word it expects.
  function Reads(a: Access, m: Mem, v: View, i: nat): Word {
    if a.StrongCas? && WordAt(m, v, i) == a.expected then Last(m) else WordAt(m, v, i)
  }

  function Effect(a: Access, m: Mem, v: View, ok: bool, i: nat, inside: bool): Mem {
    match a
    case Nothing => m
    case Cas(_, w, acq, release) => if Succeeds(a, m, v, ok, i) then Install(m, v, w, acq, release) else Touch(m)
    case StrongCas(_, w, release) => if Succeeds(a, m, v, ok, i) then Install(m, v, w, false, release) else Touch(m)
    case WriteValue(x) => WriteData(m, v, x)
    case ReadValue => ReadData(m, v)
    case InitClone(task) => InitWaker(m, v, task)
    case RefreshClone(task) => RefreshWaker(m, v, task)
    case TakeClone(use) => TakeWaker(m, v, use)
    case Free => Dealloc(m, v, inside)
    case _ => Touch(m)
  }

  // ----- the access each step makes

  function SenderNext(snd: Sender): Access {
    var cur := snd.cur;
    match snd.pc
    case SIdle => Nothing
    case SWrite => WriteValue(snd.val.GetOr(0))
    case SCas => TrySetupReadyRelease(cur)
    case SReadBack => ReadValue
    case SWakeAcquire => Load(true)
    case SWakeRun => TakeClone(Wake)
    case SWakeAll => WakeWaiting
    case SDLoad => Load(false)
    case SDLoop =>
      if cur.close then (if cur.fieldless then Load(true) else TrySetDroppingRelease(cur))
      else if cur.pending then
        if cur.fieldless then TrySetupClosedDroppingRelease(cur) else TrySyncSetupClosedAcquire(cur)
      else if cur.waiting then TrySyncSetupClosedWake(cur)
      else TrySetClosedDroppingRelease(cur)
    case SDFree => Free
    case SDWake => TakeClone(Wake)
    case SDWakeAll => WakeWaiting
    case SDSetDropping => TrySetDroppingRelease(cur)
    case SGone => Nothing
  }

  lemma SenderLoopAccess(s: State, ok: bool, i: nat)
    requires s.snd.pc.SDLoop?
    ensures DropSenderLoop(WithAsync, s, ok, i).m == Effect(SenderNext(s.snd), s.m, s.snd.v, ok, i, Inside(s))
  {
  }

  lemma SenderAccess(s: State, ok: bool, i: nat)
    ensures SenderStep(WithAsync, s, ok, i).m == Effect(SenderNext(s.snd), s.m, s.snd.v, ok, i, Inside(s))
  {
    match s.snd.pc {
      case SDLoop => SenderLoopAccess(s, ok, i);
      case SCas =>
      case SDSetDropping =>
      case _ =>
    }
  }

  function ReceiverNext(own: Receiver): Access {
    var cur := own.cur;
    match own.pc
    case OPLoop =>
      if cur.ready then TrySetupDatalessAcquire(cur)
      else if cur.close then Nothing
      else if cur.waiting then TrySyncSetWakelessAcquire(cur)
      else if cur.fieldless then Nothing
      else TrySyncSetWaitingPendingWakeless(cur)
    case OPRead => ReadValue
    case OPRefresh => RefreshClone(own.task)
    case OPInit => InitClone(own.task)
    case OPUnset => UnsetWakelessRelease(cur)
    case OPDiscard => TakeClone(Drop)
    case ODLoop =>
      if cur.ready then TrySyncUnsetReadyAcquire(cur)
      else if cur.close then (if cur.fieldless then Load(true) else TrySetDroppingRelease(cur))
      else if cur.pending then TrySyncSetupClosedAcquire(cur)
      else TrySetClosedDroppingRelease(cur)
    case ODRead => ReadValue
    case ODDropWaker => TakeClone(Drop)
    case ODSetDropping => TrySetDroppingRelease(cur)
    case ODFree => Free
    case _ => Nothing
  }

  lemma ReceiverLoopAccess(s: State, ok: bool, i: nat)
    ensures s.own.pc.OPLoop? ==>
              PollLoop(s, ok, i).m == Effect(ReceiverNext(s.own), s.m, s.own.v, ok, i, Inside(s))
    ensures s.own.pc.ODLoop? ==>
              DropReceiverLoop(WithAsync, s, ok, i).m == Effect(ReceiverNext(s.own), s.m, s.own.v, ok, i, Inside(s))
  {
  }

  lemma ReceiverAccess(s: State, ok: bool, i: nat)
    ensures ReceiverStep(WithAsync, s, ok, i).m == Effect(ReceiverNext(s.own), s.m, s.own.v, ok, i, Inside(s))
  {
    match s.own.pc {
      case OPLoop => ReceiverLoopAccess(s, ok, i);
      case ODLoop => ReceiverLoopAccess(s, ok, i);
      case OPUnset =>
      case ODSetDropping =>
      case _ =>
    }
  }

  function RecvNext(t: Recv): Access {
    var cur := t.cur;
    match t.pc
    case RLoad => Load(false)
    case RLoop =>
      if cur.ready then TrySetupDatalessAcquire(cur)
      else if cur.close then Nothing
      else if cur.waiting then (if cur.pending then TryUnsetPendingAcquire(cur) else Nothing)
      else if cur.fieldless then Nothing
      else TrySetWaiting(cur)
    case RRead => ReadValue
    case RDropWaker => TakeClone(Drop)
    case RWait => Wait(cur)
    case RAsleep => Nothing
  }

  lemma RecvAccess(s: State, r: Rid, ok: bool, i: nat)
    requires r in s.rcv
    ensures RecvStep(WithAsync, s, r, ok, i).m ==
              Effect(RecvNext(s.rcv[r]), s.m, s.rcv[r].v, ok, i, Inside(s))
  {
    match s.rcv[r].pc {
      case RLoop => assert RecvStep(WithAsync, s, r, ok, i) == RecvLoop(WithAsync, s, r, ok, i);
      case _ =>
    }
  }
}
