/** The one-shot channel as a transition system: one step per atomic access, cell
    access, futex call or deallocation, for one sender, any number of threads inside
    `recv`, and the exclusive receiver operations `poll` and drop.

    A step is chosen by an `Action`; what the thread does is fixed by its program
    counter and its private snapshot `cur`. In every action `i` picks the entry a load or
    a failing compare-and-swap returns, and `ok == false` makes a weak compare-and-swap
    fail spuriously or a futex wait return at once. An action whose thread is not in a
    position to take it leaves the state unchanged. */
module Channel {
  import opened Wrappers
  import opened Words
  import opened Memory

  // ----- threads

  datatype SenderPc =
    | SIdle                                           // holds the handle, nothing sent
    | SWrite | SCas | SReadBack                       // inside send
    | SWakeAcquire | SWakeRun | SWakeAll              // try_wake_after_ready
    | SDLoad | SDLoop | SDFree                        // drop_sender
    | SDWake | SDWakeAll | SDSetDropping
    | SGone

  datatype ReceiverPc =
    | OIdle                                           // no exclusive operation running
    | OPLoop | OPRead | OPRefresh | OPInit | OPUnset | OPDiscard   // poll_recv
    | ODLoop | ODRead | ODDropWaker | ODSetDropping | ODFree       // drop_receiver
    | OGone

  datatype RecvPc = RLoad | RLoop | RRead | RDropWaker | RWait | RAsleep

  datatype Sender = Sender(pc: SenderPc, cur: Word, v: View, val: Option<int>)
  datatype Receiver = Receiver(pc: ReceiverPc, cur: Word, v: View, task: nat)
  datatype Recv = Recv(pc: RecvPc, cur: Word, v: View)

  type Rid = nat

  // ----- what has happened, and who is responsible for a cell

  datatype DataPlace = Unwritten | AtSender | Shared | AtRecv(r: Rid) | AtReceiver | Moved

  datatype WakerPlace = NoWaker | WithReceiver | InCell | WithSender | WithRecv(w: Rid)

  // Where the value handed to `send` ended up.
  datatype Outcome = Returned(x: int) | Received(x: int) | Disposed(x: int)

  datatype Ghosts = Ghosts(
    sent: Option<int>,         // the value READY was installed for
    data: DataPlace,
    waker: WakerPlace,
    sClosed: bool,             // the sender installed CLOSE
    oClosed: bool,             // the receiver installed CLOSE
    parked: Option<nat>,       // the last receiver action was a poll returning Pending, with this clone stored
    polls: nat,                // polls started
    outs: seq<Outcome>)

  datatype State = State(
    m: Mem,
    snd: Sender,
    own: Receiver,
    rcv: map<Rid, Recv>,       // threads inside recv
    joined: View,              // what finished recv calls hand to the next exclusive operation
    g: Ghosts)

  const ORIGIN := View(0, {})

  const INITIAL := State(
    FRESH,
    Sender(SIdle, NEW, ORIGIN, None),
    Receiver(OIdle, NEW, ORIGIN, 0),
    map[],
    ORIGIN,
    Ghosts(None, Unwritten, NoWaker, false, false, None, 0, []))

  datatype Action =
    | StartSend(x: int, i: nat)
    | StartDropSender(i: nat)
    | StepSender(ok: bool, i: nat)
    | StartPoll(task: nat, i: nat)
    | StartDropReceiver(i: nat)
    | StepReceiver(ok: bool, i: nat)
    | StartRecv(r: Rid)
    | StepRecv(r: Rid, ok: bool, i: nat)

  // Some thread is inside recv.
  predicate Inside(s: State) { s.rcv.Keys != {} }

  // ----- send and drop_sender

  function Closing(s: State, w: Word): Ghosts {
    s.g.(sClosed := s.g.sClosed || (w.close && !Last(s.m).close))
  }

  // One attempt at a compare-and-swap by the sender: on success the word `w` and program
  // counter `pc`, on failure the re-read snapshot and program counter `retry`.
  function SenderCas(s: State, ok: bool, i: nat, w: Word, acquire: bool, release: bool, cur: Word,
                     pc: SenderPc, retry: SenderPc): State {
    if ok && Last(s.m) == s.snd.cur then
      s.(m := Install(s.m, s.snd.v, w, acquire, release),
         snd := s.snd.(pc := pc, cur := cur, v := CasView(s.m, s.snd.v, acquire)),
         g := Closing(s, w))
    else SenderReload(s, i, retry)
  }

  function SenderReload(s: State, i: nat, pc: SenderPc): State {
    s.(m := Touch(s.m),
       snd := s.snd.(pc := pc, cur := WordAt(s.m, s.snd.v, i), v := LoadView(s.m, s.snd.v, i, false)))
  }

  // The acquiring load that only serves as a fence.
  function SenderAcquire(s: State, i: nat, pc: SenderPc): State {
    s.(m := Touch(s.m), snd := s.snd.(pc := pc, v := LoadView(s.m, s.snd.v, i, true)))
  }

  function BeginSend(s: State, x: int, i: nat): State {
    if !s.snd.pc.SIdle? then s
    else
      var w := WordAt(s.m, s.snd.v, i);
      var t := SenderReload(s, i, if w.close then SDLoad else SWrite);
      var t := t.(snd := t.snd.(val := Some(x)));
      if w.close then t.(g := t.g.(data := Moved, outs := t.g.outs + [Returned(x)])) else t
  }

  function BeginDropSender(s: State, i: nat): State {
    if !s.snd.pc.SIdle? then s else SenderReload(s, i, SDLoop)
  }

  function AfterReady(b: Build, cur: Word): SenderPc {
    if b.WithAsync? && cur.pending then (if cur.fieldless then SDLoad else SWakeAcquire)
    else if cur.waiting then SWakeAll else SDLoad
  }

  function TryReady(b: Build, s: State, ok: bool, i: nat): State {
    var cur := s.snd.cur;
    var t := SenderCas(s, ok, i, ReadySetup(b, cur), false, true, cur, AfterReady(b, cur),
                       if WordAt(s.m, s.snd.v, i).close then SReadBack else SCas);
    if ok && Last(s.m) == cur
    then t.(g := t.g.(sent := s.snd.val, data := Shared,
                      waker := if AfterReady(b, cur) == SWakeAcquire then WithSender else s.g.waker))
    else t
  }

  // All threads asleep on the word go back to reading it.
  function WakeAll(rcv: map<Rid, Recv>): map<Rid, Recv> {
    map r | r in rcv :: if rcv[r].pc.RAsleep? then rcv[r].(pc := RLoad) else rcv[r]
  }

  function SenderWake(s: State, pc: SenderPc): State {
    s.(m := TakeWaker(s.m, s.snd.v, Wake),
       snd := s.snd.(pc := pc, v := Knowing(s.m, s.snd.v)),
       g := s.g.(waker := NoWaker))
  }

  function SenderWakeAll(s: State, pc: SenderPc): State {
    s.(m := Touch(s.m),
       snd := s.snd.(pc := pc, v := Knowing(s.m, s.snd.v)),
       rcv := WakeAll(s.rcv))
  }

  function DropSenderLoop(b: Build, s: State, ok: bool, i: nat): State {
    var cur := s.snd.cur;
    if cur.close then
      if cur.fieldless then SenderAcquire(s, i, SDFree)
      else SenderCas(s, ok, i, FieldlessSet(cur), false, true, cur, SGone, SDLoop)
    else if b.WithAsync? && cur.pending then
      if cur.fieldless
      then SenderCas(s, ok, i, ClosedAsyncSetup(cur), false, true, cur, SGone, SDLoop)
      else
        var t := SenderCas(s, ok, i, ClosedAsyncSetup(cur), true, false, ClosedAsyncSetup(cur), SDWake, SDLoop);
        if t.snd.pc.SDWake? then t.(g := t.g.(waker := WithSender)) else t
    else if cur.waiting then
      SenderCas(s, ok, i, ClosedWakeSetup(cur), false, false, ClosedWakeSetup(cur), SDWakeAll, SDLoop)
    else
      SenderCas(s, ok, i, ClosedDroppingSet(cur), false, true, cur, SGone, SDLoop)
  }

  function SenderStep(b: Build, s: State, ok: bool, i: nat): State {
    match s.snd.pc
    case SIdle => s
    case SWrite =>
      s.(m := WriteData(s.m, s.snd.v, s.snd.val.GetOr(0)),
         snd := s.snd.(pc := SCas, v := Knowing(s.m, s.snd.v)),
         g := s.g.(data := AtSender))
    case SCas => TryReady(b, s, ok, i)
    case SReadBack =>
      s.(m := ReadData(s.m, s.snd.v),
         snd := s.snd.(pc := SDLoad, v := Knowing(s.m, s.snd.v)),
         g := s.g.(data := Moved, outs := s.g.outs + [Returned(s.m.data.GetOr(0))]))
    case SWakeAcquire => SenderAcquire(s, i, SWakeRun)
    case SWakeRun => SenderWake(s, SDLoad)
    case SWakeAll => SenderWakeAll(s, SDLoad)
    case SDLoad => SenderReload(s, i, SDLoop)
    case SDLoop => DropSenderLoop(b, s, ok, i)
    case SDFree =>
      s.(m := Dealloc(s.m, s.snd.v, Inside(s)), snd := s.snd.(pc := SGone, v := Knowing(s.m, s.snd.v)))
    case SDWake => SenderWake(s, SDSetDropping)
    case SDWakeAll => SenderWakeAll(s, SDSetDropping)
    case SDSetDropping =>
      SenderCas(s, ok, i, FieldlessSet(s.snd.cur), false, true, s.snd.cur, SGone, SDLoop)
    case SGone => s
  }

  // ----- poll_recv and drop_receiver

  function Joined(v: View, w: View): View {
    View(if v.seen < w.seen then w.seen else v.seen, v.know + w.know)
  }

  function ReceiverCas(s: State, success: bool, i: nat, w: Word, acquire: bool, release: bool, cur: Word,
                       pc: ReceiverPc, retry: ReceiverPc): State {
    if success then
      s.(m := Install(s.m, s.own.v, w, acquire, release),
         own := s.own.(pc := pc, cur := cur, v := CasView(s.m, s.own.v, acquire)),
         g := s.g.(oClosed := s.g.oClosed || (w.close && !Last(s.m).close)))
    else ReceiverReload(s, i, retry)
  }

  function ReceiverReload(s: State, i: nat, pc: ReceiverPc): State {
    s.(m := Touch(s.m),
       own := s.own.(pc := pc, cur := WordAt(s.m, s.own.v, i), v := LoadView(s.m, s.own.v, i, false)))
  }

  function ReceiverAcquire(s: State, i: nat, pc: ReceiverPc): State {
    s.(m := Touch(s.m), own := s.own.(pc := pc, v := LoadView(s.m, s.own.v, i, true)))
  }

  // An exclusive operation starts when no thread is inside `recv`, and knows what they knew.
  function Begin(s: State, i: nat, pc: ReceiverPc): State {
    var v := Joined(s.own.v, s.joined);
    s.(m := Touch(s.m),
       own := s.own.(pc := pc, cur := WordAt(s.m, v, i), v := LoadView(s.m, v, i, false)),
       g := s.g.(parked := None))
  }

  function BeginPoll(b: Build, s: State, task: nat, i: nat): State {
    if !s.own.pc.OIdle? || Inside(s) || b.SyncOnly? then s
    else
      var t := Begin(s, i, OPLoop);
      t.(own := t.own.(task := task), g := t.g.(polls := s.g.polls + 1))
  }

  function BeginDropReceiver(s: State, i: nat): State {
    if !s.own.pc.OIdle? || Inside(s) then s else Begin(s, i, ODLoop)
  }

  function PollLoop(s: State, ok: bool, i: nat): State {
    var cur := s.own.cur;
    var success := ok && Last(s.m) == cur;
    if cur.ready then
      var t := ReceiverCas(s, success, i, DatalessSetup(cur), true, false, cur, OPRead, OPLoop);
      if success then t.(g := t.g.(data := AtReceiver)) else t
    else if cur.close then s.(own := s.own.(pc := OIdle))              // Ready(None)
    else if cur.waiting then
      var t := ReceiverCas(s, success, i, FieldlessSet(cur), true, false, FieldlessSet(cur), OPRefresh, OPLoop);
      if success then t.(g := t.g.(waker := WithReceiver)) else t
    else if cur.fieldless then s.(own := s.own.(pc := OIdle))          // Ready(None)
    else
      var t := ReceiverCas(s, success, i, PollingSet(cur), false, false, PollingSet(cur), OPInit, OPLoop);
      if success then t.(g := t.g.(waker := WithReceiver)) else t
  }

  // The strong compare-and-swap that ends a poll: it fails only if the entry it reads differs.
  function UnsetSucceeds(s: State, ok: bool, i: nat): bool {
    Last(s.m) == s.own.cur && (ok || WordAt(s.m, s.own.v, i) == s.own.cur)
  }

  function PollUnset(s: State, ok: bool, i: nat): State {
    var cur := s.own.cur;
    if UnsetSucceeds(s, ok, i) then
      var t := ReceiverCas(s, true, i, FieldlessUnset(cur), false, true, cur, OIdle, OIdle);
      t.(g := t.g.(waker := InCell, parked := if s.m.waker.Some? then Some(s.m.waker.value.id) else None))
    else
      var k := if WordAt(s.m, s.own.v, i) == cur then |s.m.hist| else i;
      ReceiverReload(s, k, OPDiscard)
  }

  function DropReceiverLoop(b: Build, s: State, ok: bool, i: nat): State {
    var cur := s.own.cur;
    var success := ok && Last(s.m) == cur;
    if cur.ready then
      var t := ReceiverCas(s, success, i, ReadyUnset(cur), true, false, ReadyUnset(cur), ODRead, ODLoop);
      if success then t.(g := t.g.(data := AtReceiver)) else t
    else if cur.close then
      if cur.fieldless then ReceiverAcquire(s, i, ODFree)
      else ReceiverCas(s, success, i, FieldlessSet(cur), false, true, cur, OGone, ODLoop)
    else if b.WithAsync? && cur.pending then
      var next := ClosedAsyncSetup(cur);
      var t := ReceiverCas(s, success, i, next, true, false, next, ODDropWaker, ODLoop);
      if success then t.(g := t.g.(waker := WithReceiver)) else t
    else
      ReceiverCas(s, success, i, ClosedDroppingSet(cur), false, true, cur, OGone, ODLoop)
  }

  function ReceiverWaker(s: State, m: Mem, pc: ReceiverPc, place: WakerPlace): State {
    s.(m := m, own := s.own.(pc := pc, v := Knowing(s.m, s.own.v)), g := s.g.(waker := place))
  }

  function ReceiverRead(s: State, pc: ReceiverPc, out: Outcome): State {
    s.(m := ReadData(s.m, s.own.v), own := s.own.(pc := pc, v := Knowing(s.m, s.own.v)),
       g := s.g.(data := Moved, outs := s.g.outs + [out]))
  }

  function ReceiverStep(b: Build, s: State, ok: bool, i: nat): State {
    match s.own.pc
    case OIdle => s
    case OPLoop => PollLoop(s, ok, i)
    case OPRead => ReceiverRead(s, OIdle, Received(s.m.data.GetOr(0)))
    case OPRefresh => ReceiverWaker(s, RefreshWaker(s.m, s.own.v, s.own.task), OPUnset, WithReceiver)
    case OPInit => ReceiverWaker(s, InitWaker(s.m, s.own.v, s.own.task), OPUnset, WithReceiver)
    case OPUnset => PollUnset(s, ok, i)
    case OPDiscard => ReceiverWaker(s, TakeWaker(s.m, s.own.v, Drop), OPLoop, NoWaker)
    case ODLoop => DropReceiverLoop(b, s, ok, i)
    case ODRead => ReceiverRead(s, ODLoop, Disposed(s.m.data.GetOr(0)))
    case ODDropWaker => ReceiverWaker(s, TakeWaker(s.m, s.own.v, Drop), ODSetDropping, NoWaker)
    case ODSetDropping =>
      ReceiverCas(s, ok && Last(s.m) == s.own.cur, i, FieldlessSet(s.own.cur), false, true, s.own.cur, OGone, ODLoop)
    case ODFree =>
      s.(m := Dealloc(s.m, s.own.v, Inside(s)), own := s.own.(pc := OGone, v := Knowing(s.m, s.own.v)))
    case OGone => s
  }

  // ----- recv

  function BeginRecv(s: State, r: Rid): State {
    if !s.own.pc.OIdle? || r in s.rcv then s
    else s.(rcv := s.rcv[r := Recv(RLoad, NEW, s.own.v)], g := s.g.(parked := None))
  }

  function RecvCas(s: State, r: Rid, ok: bool, i: nat, w: Word, acquire: bool, cur: Word, pc: RecvPc): State
    requires r in s.rcv
  {
    var t := s.rcv[r];
    if ok && Last(s.m) == t.cur
    then s.(m := Install(s.m, t.v, w, acquire, false),
            rcv := s.rcv[r := Recv(pc, cur, CasView(s.m, t.v, acquire))])
    else RecvReload(s, r, i)
  }

  function RecvReload(s: State, r: Rid, i: nat): State
    requires r in s.rcv
  {
    var v := s.rcv[r].v;
    s.(m := Touch(s.m), rcv := s.rcv[r := Recv(RLoop, WordAt(s.m, v, i), LoadView(s.m, v, i, false))])
  }

  // The call returns; what the thread knows passes on to later exclusive operations.
  function RecvReturn(s: State, r: Rid): State {
    if r in s.rcv then s.(rcv := s.rcv - {r}, joined := Joined(s.joined, s.rcv[r].v)) else s
  }

  function RecvLoop(b: Build, s: State, r: Rid, ok: bool, i: nat): State
    requires r in s.rcv
  {
    var t := s.rcv[r];
    var cur := t.cur;
    var success := ok && Last(s.m) == cur;
    if cur.ready then
      var u := RecvCas(s, r, ok, i, DatalessSetup(cur), true, cur, RRead);
      if success then u.(g := u.g.(data := AtRecv(r))) else u
    else if cur.close then RecvReturn(s, r)                            // None
    else if cur.waiting then
      if b.WithAsync? && cur.pending then
        var u := RecvCas(s, r, ok, i, PendingUnset(cur), true, cur, RDropWaker);
        if success then u.(g := u.g.(waker := WithRecv(r))) else u
      else s.(rcv := s.rcv[r := t.(pc := RWait)])
    else if cur.fieldless then RecvReturn(s, r)                        // None
    else RecvCas(s, r, ok, i, WaitingSet(cur), false, WaitingSet(cur), RWait)
  }

  // Takes the value the thread has claimed and returns it.
  function RecvRead(s: State, r: Rid): State
    requires r in s.rcv
  {
    var t := s.rcv[r];
    var u := s.(m := ReadData(s.m, t.v), rcv := s.rcv[r := t.(v := Knowing(s.m, t.v))],
                g := s.g.(data := Moved, outs := s.g.outs + [Received(s.m.data.GetOr(0))]));
    RecvReturn(u, r)
  }

  // Turns the asynchronous wait it took over into a blocking one.
  function RecvDropWaker(s: State, r: Rid): State
    requires r in s.rcv
  {
    var t := s.rcv[r];
    s.(m := TakeWaker(s.m, t.v, Drop), rcv := s.rcv[r := Recv(RWait, t.cur, Knowing(s.m, t.v))],
       g := s.g.(waker := NoWaker))
  }

  // The futex call compares the current word with the snapshot and sleeps in one step.
  function RecvWait(s: State, r: Rid, ok: bool): State
    requires r in s.rcv
  {
    var t := s.rcv[r];
    s.(m := Touch(s.m),
       rcv := s.rcv[r := Recv(if ok && Last(s.m) == t.cur then RAsleep else RLoad, t.cur, Knowing(s.m, t.v))])
  }

  function RecvStep(b: Build, s: State, r: Rid, ok: bool, i: nat): State {
    if r !in s.rcv then s
    else
      match s.rcv[r].pc
      case RLoad => RecvReload(s, r, i)
      case RLoop => RecvLoop(b, s, r, ok, i)
      case RRead => RecvRead(s, r)
      case RDropWaker => RecvDropWaker(s, r)
      case RWait => RecvWait(s, r, ok)
      case RAsleep => if ok then s.(rcv := s.rcv[r := s.rcv[r].(pc := RLoad)]) else s    // spurious wake-up
  }

  // ----- runs

  function Step(b: Build, s: State, a: Action): State {
    match a
    case StartSend(x, i) => BeginSend(s, x, i)
    case StartDropSender(i) => BeginDropSender(s, i)
    case StepSender(ok, i) => SenderStep(b, s, ok, i)
    case StartPoll(task, i) => BeginPoll(b, s, task, i)
    case StartDropReceiver(i) => BeginDropReceiver(s, i)
    case StepReceiver(ok, i) => ReceiverStep(b, s, ok, i)
    case StartRecv(r) => BeginRecv(s, r)
    case StepRecv(r, ok, i) => RecvStep(b, s, r, ok, i)
  }

  function Run(b: Build, s: State, acts: seq<Action>): State {
    if acts == [] then s else Step(b, Run(b, s, acts[..|acts| - 1]), acts[|acts| - 1])
  }
}
