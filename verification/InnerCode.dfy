/** The operations of the channel as the loops they are written as.

    `Inner` is the shared allocation: the status word with its history, the two cells, and
    what the memory model watches. Every access acts on them in place, with the word and the
    orderings the code names; `Valid` says that the memory is then that of the transition
    system, in which each thread has taken its steps. A call works with a local snapshot
    `current`. Each method is proved to return the right answer, to have the effects its
    caller relies on, and to terminate under every schedule that hinders it finitely often. */
module InnerCode {
  import opened Wrappers
  import opened Words
  import opened Memory
  import opened Channel
  import opened Invariant
  import opened Progress
  import opened Accesses
  import opened Turns
  import opened Clones
  import Tasks

  function Longer(h: History, entry: Msg): History { h + [entry] }

  datatype SendResult = SentOk | Refused(x: int)

  // A call that sleeps when the schedule no longer hinders it has not returned.
  datatype Answer = Value(x: int) | Nobody | Asleep

  datatype Move = Return | Retry | WaitFor

  datatype Polled = ReadySome(x: int) | ReadyNone | Pending

  // A re-poll keeps the clone of its own task if it answers Pending; any other it drops.
  predicate Repolled(m: Mem, n: Mem, task: nat, pending: bool) {
    m.waker.Some? && if pending && m.waker.value.task == task then n.waker == m.waker else Dropped(m, n)
  }

  // The cell holds the clone that was parked, and it is of the task.
  predicate Stored(waker: Option<Waker>, task: nat, parked: Option<nat>) {
    waker.Some? && waker.value.task == task && parked == Some(waker.value.id)
  }

  class Inner {
    var hist: History              // the status word
    var data: Option<int>
    var waker: Option<Waker>
    var freed: nat
    var clones: nat
    var clock: nat
    var dataEv: set<nat>
    var wakerEv: set<nat>
    var fates: map<nat, Fate>
    var faults: set<Fault>

    var s: State                   // where every thread stands, and with which view
    ghost var trace: seq<Action>   // the run so far

    ghost function Memory(): Mem
      reads this
    {
      Mem(hist, data, waker, freed, clock, dataEv, wakerEv, clones, fates, faults)
    }

    ghost predicate Valid()
      reads this
    {
      s == Run(WithAsync, INITIAL, trace) && s.m == Memory()
    }

    constructor ()
      ensures Valid() && s == INITIAL
    {
      hist, data, waker, freed, clones := [Msg(NEW, {})], None, None, 0, 0;
      clock, dataEv, wakerEv, fates, faults := 0, {}, {}, map[], {};
      s, trace := INITIAL, [];
    }

    // ----- the memory in place

    method Tick()
      modifies this`clock, this`faults
      ensures Memory() == Touch(old(Memory()))
    {
      if freed > 0 { faults := faults + {UseAfterFree}; }
      clock := clock + 1;
    }

    method Extend(v: View, w: Word, acquire: bool, release: bool)
      modifies this`hist, this`clock, this`faults
      ensures Memory() == Install(old(Memory()), v, w, acquire, release)
    {
      var last := hist[|hist| - 1].rel;
      var known: set<nat> := v.know + {clock} + (if acquire then last else {});
      var rel: set<nat> := last + if release then known else {};
      hist := Longer(hist, Msg(w, rel));
      Tick();
    }

    method EnterData(v: View)
      modifies this`dataEv, this`clock, this`faults
      ensures Memory() == TouchData(old(Memory()), v)
    {
      var event, raced := clock, !(dataEv <= v.know);
      Tick();
      dataEv := dataEv + {event};
      if raced { faults := faults + {DataRace}; }
    }

    method EnterWaker(v: View)
      modifies this`wakerEv, this`clock, this`faults
      ensures Memory() == TouchWaker(old(Memory()), v)
    {
      var event, raced := clock, !(wakerEv <= v.know);
      Tick();
      wakerEv := wakerEv + {event};
      if raced { faults := faults + {WakerRace}; }
    }

    method WriteCell(v: View, x: int)
      modifies this`data, this`dataEv, this`clock, this`faults
      ensures Memory() == WriteData(old(Memory()), v, x)
    {
      EnterData(v);
      if data.Some? { faults := faults + {OverwrittenData}; }
      data := Some(x);
    }

    method ReadCell(v: View)
      modifies this`data, this`dataEv, this`clock, this`faults
      ensures Memory() == ReadData(old(Memory()), v)
    {
      EnterData(v);
      if data.None? { faults := faults + {UninitData}; }
      data := None;
    }

    method UseUp(use: Use)
      modifies this`fates, this`faults
      ensures Memory() == Consume(old(Memory()), use)
    {
      if waker.None? {
        faults := faults + {UninitWaker};
      } else {
        if waker.value.id in fates { faults := faults + {WakerConsumedTwice}; }
        fates := fates[waker.value.id := FateOf(waker.value, use)];
      }
    }

    method TakeWakerOut(v: View, use: Use)
      modifies this`waker, this`fates, this`wakerEv, this`clock, this`faults
      ensures Memory() == TakeWaker(old(Memory()), v, use)
    {
      EnterWaker(v);
      UseUp(use);
      waker := None;
    }

    method WriteWaker(v: View, task: nat)
      modifies this`waker, this`clones, this`wakerEv, this`clock, this`faults
      ensures Memory() == InitWaker(old(Memory()), v, task)
    {
      EnterWaker(v);
      if waker.Some? { faults := faults + {OverwrittenWaker}; }
      waker, clones := Some(Waker(task, clones)), clones + 1;
    }

    method ReplaceWaker(v: View, task: nat)
      modifies this`waker, this`clones, this`fates, this`wakerEv, this`clock, this`faults
      ensures Memory() == RefreshWaker(old(Memory()), v, task)
    {
      EnterWaker(v);
      if waker.Some? && waker.value.task == task { return; }
      UseUp(Drop);
      waker, clones := Some(Waker(task, clones)), clones + 1;
    }

    method Deallocate(v: View, inside: bool)
      modifies this`freed, this`clock, this`faults
      ensures Memory() == Dealloc(old(Memory()), v, inside)
    {
      var again, unknown := freed > 0, inside || exists e :: 0 <= e < clock && e !in v.know;
      Tick();
      freed := freed + 1;
      if again { faults := faults + {DoubleFree}; }
      if data.Some? { faults := faults + {LeakedData}; }
      if waker.Some? { faults := faults + {LeakedWaker}; }
      if unknown { faults := faults + {FreeRace}; }
    }

    // An access to a cell.
    method PerformOnCell(a: Access, v: View)
      requires a.WriteValue? || a.ReadValue? || a.InitClone? || a.RefreshClone? || a.TakeClone?
      modifies this`data, this`waker, this`clones, this`clock, this`dataEv, this`wakerEv, this`fates, this`faults
      ensures Memory() == Effect(a, old(Memory()), v, true, 0, false)
    {
      match a {
        case WriteValue(y) => WriteCell(v, y);
        case ReadValue => ReadCell(v);
        case InitClone(task) => WriteWaker(v, task);
        case RefreshClone(task) => ReplaceWaker(v, task);
        case TakeClone(use) => TakeWakerOut(v, use);
      }
    }

    method Attempt(success: bool, v: View, w: Word, acquire: bool, release: bool)
      modifies this`hist, this`clock, this`faults
      ensures Memory() == if success then Install(old(Memory()), v, w, acquire, release) else Touch(old(Memory()))
    {
      if success { Extend(v, w, acquire, release); } else { Tick(); }
    }

    // An access to the word, or a wait for it to change.
    method PerformOnWord(a: Access, v: View, x: Chance) returns (success: bool, now: Word)
      requires a.Nothing? || a.Load? || a.WakeWaiting? || a.Cas? || a.StrongCas? || a.Wait?
      modifies this`hist, this`clock, this`faults
      ensures Memory() == Effect(a, old(Memory()), v, x.ok, x.i, false)
      ensures success == Succeeds(a, old(Memory()), v, x.ok, x.i) && now == Reads(a, old(Memory()), v, x.i)
    {
      var last := hist[|hist| - 1].word;
      success, now := true, hist[if v.seen <= x.i < |hist| then x.i else |hist| - 1].word;
      match a {
        case Nothing =>
        case Load(_) => Tick();
        case WakeWaiting => Tick();
        case Cas(expected, w, acquire, release) =>
          success := x.ok && last == expected;
          Attempt(success, v, w, acquire, release);
        case StrongCas(expected, w, release) =>
          success := last == expected && (x.ok || now == expected);
          if now == expected { now := last; }
          Attempt(success, v, w, false, release);
        case Wait(expected) =>
          success := x.ok && last == expected;
          Tick();
      }
    }

    // One access. Answers whether an attempt succeeded, the word read, and the value read.
    method Perform(a: Access, v: View, x: Chance, inside: bool) returns (success: bool, now: Word, value: Option<int>)
      modifies this`hist, this`data, this`waker, this`freed, this`clones, this`clock, this`dataEv, this`wakerEv,
               this`fates, this`faults
      ensures Memory() == Effect(a, old(Memory()), v, x.ok, x.i, inside)
      ensures success == Succeeds(a, old(Memory()), v, x.ok, x.i) && now == Reads(a, old(Memory()), v, x.i)
      ensures value == old(data)
    {
      success, now, value := true, hist[if v.seen <= x.i < |hist| then x.i else |hist| - 1].word, data;
      if a.Free? {
        Deallocate(v, inside);
      } else if a.WriteValue? || a.ReadValue? || a.InitClone? || a.RefreshClone? || a.TakeClone? {
        PerformOnCell(a, v);
      } else {
        success, now := PerformOnWord(a, v, x);
      }
    }

    // ----- steps

    // The other threads run.
    method Others(acts: seq<Action>)
      requires Valid()
      modifies this
      ensures Valid() && s == Run(WithAsync, old(s), acts)
    {
      RunAppend(INITIAL, trace, acts);
      s := Run(WithAsync, s, acts);
      trace := trace + acts;
      Become(s.m);
    }

    // Memory as others left it.
    method Become(m: Mem)
      modifies this`hist, this`data, this`waker, this`freed, this`clones, this`clock, this`dataEv, this`wakerEv,
               this`fates, this`faults
      ensures Memory() == m
    {
      hist, data, waker, freed, clones := m.hist, m.data, m.waker, m.freed, m.clones;
      clock, dataEv, wakerEv, fates, faults := m.clock, m.dataEv, m.wakerEv, m.fates, m.faults;
    }

    // The running thread has made its access, and stands where the transition system says.
    method Stepped(a: Action)
      requires s == Run(WithAsync, INITIAL, trace) && Memory() == Step(WithAsync, s, a).m
      modifies this`s, this`trace
      ensures Valid() && s == Step(WithAsync, old(s), a) && trace == old(trace) + [a]
    {
      s := Step(WithAsync, s, a);
      trace := trace + [a];
      assert trace[..|trace| - 1] == old(trace);
    }

    // ----- the sender

    // The access, and the step it is of the transition system.
    method SenderActs(a: Access, x: Chance) returns (success: bool, now: Word, value: Option<int>)
      requires Valid() && a == SenderNext(s.snd)
      modifies this
      ensures Valid() && s == SenderStep(WithAsync, old(s), x.ok, x.i)
      ensures success == Succeeds(a, old(s).m, old(s).snd.v, x.ok, x.i) && now == Reads(a, old(s).m, old(s).snd.v, x.i)
      ensures value == old(s).m.data
    {
      Accesses.SenderAccess(s, x.ok, x.i);
      success, now, value := Perform(a, s.snd.v, x, Inside(s));
      Stepped(StepSender(x.ok, x.i));
    }

    method SenderDoes(a: Access, sched: Schedule, h: nat, k: nat)
      returns (success: bool, now: Word, value: Option<int>)
      requires Valid() && Running(s, OfSender) && Admissible(OfSender, sched, h) && a == SenderNext(s.snd)
      modifies this
      ensures Valid() && SenderMoved(old(s), s, success, now, value) && FatesKept(old(s).m, s.m)
      ensures k >= h ==>
                s.g.polls == old(s.g.polls) &&
                (Running(s, OfSender) ==> SenderPotential(s, s.g.polls) < SenderPotential(old(s), old(s.g.polls)))
    {
      ghost var s0, acts := s, trace;
      Others(sched(k).others);
      var x := ChanceAt(OfSender, sched, h, k, s);
      SenderPays(acts, s0, sched, h, k, s);
      SenderTurnKeepsFates(acts, s0, sched(k).others, x);
      success, now, value := SenderActs(a, x);
    }

    method Send(x: int, sched: Schedule, h: nat) returns (r: SendResult)
      requires Valid() && s.snd.pc.SIdle? && Admissible(OfSender, sched, h)
      modifies this
      ensures Valid() && s.snd.pc.SDLoad? && s.snd.val == Some(x)
      ensures r.SentOk? ==> s.g.sent == Some(x)
      ensures r.Refused? ==> r.x == x && s.g.oClosed && s.g.sent.None?
    {
      var current := StartSending(x, sched, h);
      if current.close { return Refused(x); }
      var success, now, value := SenderDoes(WriteValue(x), sched, h, 1);
      var k := 2;
      while true
        invariant Valid() && s.snd.pc.SCas? && s.snd.cur == current && s.snd.val == Some(x)
        decreases Left(h, k), SenderPotential(s, s.g.polls)
      {
        success, now, value := SenderDoes(TrySetupReadyRelease(current), sched, h, k);
        k := k + 1;
        if success {
          k := TryWakeAfterReady(current, sched, h, k);
          return SentOk;
        }
        current := now;
        if current.close {
          success, now, value := SenderDoes(ReadValue, sched, h, k);
          return Refused(value.value);
        }
      }
    }

    // The load with which `send` begins.
    method StartSending(x: int, sched: Schedule, h: nat) returns (current: Word)
      requires Valid() && s.snd.pc.SIdle? && Admissible(OfSender, sched, h)
      modifies this
      ensures Valid() && s.snd.val == Some(x)
      ensures if current.close then s.snd.pc.SDLoad? && s.g.oClosed && s.g.sent.None?
              else s.snd.pc.SWrite? && s.snd.cur == current
    {
      SenderUndisturbed(s, sched(0).others);
      Others(sched(0).others);
      var success, now, value := Perform(Load(false), s.snd.v, Chance(true, sched(0).i), Inside(s));
      current := now;
      Stepped(StartSend(x, sched(0).i));
      if current.close {
        assert trace[..|trace| - 1] + [StartSend(x, sched(0).i)] == trace;
        RefusedAtOnce(trace, x, sched(0).i);
      }
    }

    /** Wakes the receiver the snapshot tells of: the clone in the cell, or everybody asleep. */
    method TryWakeAfterReady(current: Word, sched: Schedule, h: nat, k0: nat) returns (k: nat)
      requires Valid() && Running(s, OfSender) && Admissible(OfSender, sched, h)
      requires s.snd.pc == AfterReady(WithAsync, current)
      modifies this
      ensures Valid() && s.snd.pc.SDLoad? && s.snd.val == old(s.snd.val) && k >= k0
      ensures !old(s.snd.pc).SDLoad? || old(s.g.sent == s.snd.val) ==> s.g.sent == s.snd.val
      ensures current.pending && !current.fieldless ==>
                old(s.m.waker).Some? && s.m.waker.None? && old(s.m.waker).value.id in s.m.fates &&
                s.m.fates[old(s.m.waker).value.id] == Woken(old(s.m.waker).value.task)
      ensures current.waiting && !current.pending ==> forall r :: r in s.rcv ==> !s.rcv[r].pc.RAsleep?
    {
      k := k0;
      if current.pending {
        if !current.fieldless {
          var success, now, value := SenderDoes(Load(true), sched, h, k);
          success, now, value := SenderDoes(TakeClone(Wake), sched, h, k + 1);
          k := k + 2;
        }
        return;
      }
      if current.waiting {
        var success, now, value := SenderDoes(WakeWaiting, sched, h, k);
        k := k + 1;
      }
    }

    method DropSender(sched: Schedule, h: nat)
      requires Valid() && s.snd.pc.SDLoad? && Admissible(OfSender, sched, h)
      modifies this
      ensures Valid() && SenderGone(s) && forall r :: r in s.rcv ==> !s.rcv[r].pc.RAsleep?
    {
      LeaveChannel(sched, h);
      forall r | r in s.rcv ensures !s.rcv[r].pc.RAsleep? {
        if s.rcv[r].pc.RAsleep? { SleepersWait(trace, r); }
      }
    }

    // The loop of the drop.
    method LeaveChannel(sched: Schedule, h: nat)
      requires Valid() && s.snd.pc.SDLoad? && Admissible(OfSender, sched, h)
      modifies this
      ensures Valid() && SenderGone(s)
    {
      var success, now, value := SenderDoes(Load(false), sched, h, 0);
      var k, current, gone := 1, now, false;
      while true
        invariant Valid() && s.snd.pc.SDLoop? && s.snd.cur == current
        decreases Left(h, k), SenderPotential(s, s.g.polls)
      {
        if current.close {
          gone, current, k := LeaveToReceiver(current, sched, h, k);
          if gone { return; }
          continue;
        }
        if current.pending {
          if current.fieldless {
            success, now, value := SenderDoes(TrySetupClosedDroppingRelease(current), sched, h, k);
            k := k + 1;
            if success { return; }
            current := now;
          } else {
            PendingIsWaiting(trace);
            gone, current, k := CloseAndWake(current, sched, h, k);
            if gone { return; }
          }
          continue;
        }
        if current.waiting {
          gone, current, k := CloseAndWake(current, sched, h, k);
          if gone { return; }
          continue;
        }
        success, now, value := SenderDoes(TrySetClosedDroppingRelease(current), sched, h, k);
        k := k + 1;
        if success { return; }
        current := now;
      }
    }

    /** The branch of `drop_sender` on a channel the receiver has closed: it frees the memory if
        the receiver is gone, and otherwise leaves that to the receiver. */
    method LeaveToReceiver(current0: Word, sched: Schedule, h: nat, k0: nat) returns (gone: bool, current: Word, k: nat)
      requires Valid() && s.snd.pc.SDLoop? && s.snd.cur == current0 && current0.close && Admissible(OfSender, sched, h)
      modifies this
      ensures Valid() && k > k0 && (if gone then SenderGone(s) else s.snd.pc.SDLoop? && s.snd.cur == current)
      ensures current0.fieldless ==> gone && ReceiverGone(s) && s.m.freed == 1
      ensures !current0.fieldless && gone ==> !ReceiverGone(s) && s.m.freed == 0 && CloseAndDrop(Last(s.m))
      ensures k0 >= h ==>
                s.g.polls == old(s.g.polls) &&
                (!gone ==> SenderPotential(s, s.g.polls) < SenderPotential(old(s), old(s.g.polls)))
    {
      if current0.fieldless {
        var success, now, value := SenderDoes(Load(true), sched, h, k0);
        success, now, value := SenderDoes(Free, sched, h, k0 + 1);
        return true, now, k0 + 2;
      }
      var success, now, value := SenderDoes(TrySetDroppingRelease(current0), sched, h, k0);
      return success, now, k0 + 1;
    }

    /** The two branches of `drop_sender` that wake a waiting receiver between CLOSE and
        FIELDLESS. */
    method CloseAndWake(current0: Word, sched: Schedule, h: nat, k0: nat) returns (gone: bool, current: Word, k: nat)
      requires Valid() && s.snd.pc.SDLoop? && s.snd.cur == current0 && Admissible(OfSender, sched, h)
      requires !current0.close && current0.waiting && (current0.pending ==> !current0.fieldless)
      modifies this
      ensures Valid() && (if gone then SenderGone(s) else s.snd.pc.SDLoop? && s.snd.cur == current)
      ensures k > k0 && (gone ==> k > k0 + 1)
      ensures current0.pending && k > k0 + 1 ==>
                exists id :: id in s.m.fates && s.m.fates[id].Woken? && id !in old(s.m.fates)
      ensures k0 >= h ==>
                s.g.polls == old(s.g.polls) &&
                (Running(s, OfSender) ==> SenderPotential(s, s.g.polls) < SenderPotential(old(s), old(s.g.polls)))
    {
      var close := if current0.pending then TrySyncSetupClosedAcquire(current0) else TrySyncSetupClosedWake(current0);
      var success, now, value := SenderDoes(close, sched, h, k0);
      gone, current, k := false, if success then close.w else now, k0 + 1;
      if success {
        var wake := if current0.pending then TakeClone(Wake) else WakeWaiting;
        CloneIsAlive(trace);
        gone, current, k := WakeAndLeave(wake, current, sched, h, k);
      }
    }

    /** Wakes the receiver of a channel the sender has just closed, and then leaves it. */
    method WakeAndLeave(wake: Access, current0: Word, sched: Schedule, h: nat, k0: nat)
      returns (gone: bool, current: Word, k: nat)
      requires Valid() && (s.snd.pc.SDWake? || s.snd.pc.SDWakeAll?) && s.snd.cur == current0
      requires wake == (if s.snd.pc.SDWake? then TakeClone(Wake) else WakeWaiting) && Admissible(OfSender, sched, h)
      modifies this
      ensures Valid() && (if gone then SenderGone(s) else s.snd.pc.SDLoop? && s.snd.cur == current)
      ensures k > k0 && FatesKept(old(s).m, s.m)
      ensures wake.TakeClone? ==>
                old(s.m.waker).Some? && old(s.m.waker).value.id in s.m.fates &&
                s.m.fates[old(s.m.waker).value.id] == Woken(old(s.m.waker).value.task)
      ensures k0 >= h ==>
                s.g.polls == old(s.g.polls) &&
                (Running(s, OfSender) ==> SenderPotential(s, s.g.polls) < SenderPotential(old(s), old(s.g.polls)))
    {
      var success, now, value := SenderDoes(wake, sched, h, k0);
      success, now, value := SenderDoes(TrySetDroppingRelease(current0), sched, h, k0 + 1);
      gone, current, k := success, if success then current0 else now, k0 + 2;
    }

    // ----- the receiver, exclusively

    // The access, and the step it is of the transition system.
    method ReceiverActs(a: Access, x: Chance) returns (success: bool, now: Word, value: Option<int>)
      requires Valid() && a == ReceiverNext(s.own)
      modifies this
      ensures Valid() && s == ReceiverStep(WithAsync, old(s), x.ok, x.i)
      ensures success == Succeeds(a, old(s).m, old(s).own.v, x.ok, x.i) && now == Reads(a, old(s).m, old(s).own.v, x.i)
      ensures value == old(s).m.data
    {
      Accesses.ReceiverAccess(s, x.ok, x.i);
      success, now, value := Perform(a, s.own.v, x, Inside(s));
      Stepped(StepReceiver(x.ok, x.i));
    }

    method ReceiverDoes(a: Access, sched: Schedule, h: nat, k: nat)
      returns (success: bool, now: Word, value: Option<int>)
      requires Valid() && Running(s, OfReceiver) && Admissible(OfReceiver, sched, h) && a == ReceiverNext(s.own)
      modifies this
      ensures Valid() && ReceiverMoved(old(s), s, success, now, value)
      ensures !old(s).own.pc.OPInit? && !old(s).own.pc.OPRefresh? ==> NoNewClone(old(s).m, s.m)
      ensures old(s).own.pc.OPRefresh? ==> Refreshed(old(s).m, s.m, s.own.task)
      ensures k >= h ==>
                s.g.polls == old(s.g.polls) &&
                (Running(s, OfReceiver) ==> ReceiverPotential(s, s.g.polls) < ReceiverPotential(old(s), old(s.g.polls)))
    {
      ghost var s0, acts := s, trace;
      Others(sched(k).others);
      var x := ChanceAt(OfReceiver, sched, h, k, s);
      ReceiverPays(acts, s0, sched, h, k, s);
      ReceiverTurnClones(acts, s0, sched(k).others, x);
      success, now, value := ReceiverActs(a, x);
    }

    // The load with which an exclusive operation begins.
    method Begin(a: Action, i: nat) returns (current: Word)
      requires Valid() && s.own.pc.OIdle? && !Inside(s)
      requires a.StartPoll? || a.StartDropReceiver?
      requires a.i == i
      modifies this
      ensures Valid() && s.own.cur == current && s.own.pc == if a.StartPoll? then OPLoop else ODLoop
      ensures a.StartPoll? ==> s.own.task == a.task
    {
      var success, now, value := Perform(Load(false), Joined(s.own.v, s.joined), Chance(true, i), false);
      current := now;
      Stepped(a);
    }

    method PollRecv(task: nat, sched: Schedule, h: nat) returns (r: Polled)
      requires Valid() && s.own.pc.OIdle? && !Inside(s) && Admissible(OfReceiver, sched, h)
      modifies this
      ensures Valid() && s.own.pc.OIdle?
      ensures r.ReadySome? ==> s.g.sent == Some(r.x) && s.g.outs == [Received(r.x)]
      ensures r.ReadyNone? ==> NothingToReceive(s)
      ensures r.Pending? ==> IsParked(Last(s.m)) && Stored(s.m.waker, task, s.g.parked)
    {
      var current := Begin(StartPoll(task, sched(0).i), sched(0).i);
      var success, now, value;
      var k := 1;
      while true
        invariant Valid() && s.own.pc.OPLoop? && s.own.cur == current && s.own.task == task
        decreases Left(h, k), ReceiverPotential(s, s.g.polls)
      {
        if current.ready {
          value, current, k := ClaimPolled(current, sched, h, k);
          if value.Some? { return ReadySome(value.value); }
          continue;
        }
        if current.close || (!current.waiting && current.fieldless) {
          success, now, value := ReceiverDoes(Nothing, sched, h, k);
          return ReadyNone;
        }
        success, current, k := StoreWaker(task, current, sched, h, k);
        if success { return Pending; }
      }
    }

    // Claims the value of a word with READY.
    method ClaimPolled(current0: Word, sched: Schedule, h: nat, k0: nat)
      returns (value: Option<int>, current: Word, k: nat)
      requires Valid() && s.own.pc.OPLoop? && s.own.cur == current0 && current0.ready
      requires Admissible(OfReceiver, sched, h)
      modifies this
      ensures Valid() && k > k0 && s.own.task == old(s.own.task)
      ensures if value.Some?
              then s.own.pc.OIdle? && s.g.sent == value && s.g.outs == [Received(value.value)]
              else s.own.pc.OPLoop? && s.own.cur == current
      ensures k0 >= h && value.None? ==>
                s.g.polls == old(s.g.polls) &&
                ReceiverPotential(s, s.g.polls) < ReceiverPotential(old(s), old(s.g.polls))
    {
      var success;
      success, current, value := ReceiverDoes(TrySetupDatalessAcquire(current0), sched, h, k0);
      k, value := k0 + 1, None;
      if success {
        success, current, value := ReceiverDoes(ReadValue, sched, h, k);
      }
    }

    /** Makes the word say that a poll is under way, over an earlier wait or none, and then
        stores the waker. */
    method StoreWaker(task: nat, current0: Word, sched: Schedule, h: nat, k0: nat)
      returns (pending: bool, current: Word, k: nat)
      requires Valid() && s.own.pc.OPLoop? && s.own.cur == current0 && s.own.task == task
      requires !current0.ready && !current0.close && (current0.waiting || !current0.fieldless)
      requires Admissible(OfReceiver, sched, h)
      modifies this
      ensures Valid() && k > k0 && s.own.task == task
      ensures if pending
              then s.own.pc.OIdle? && IsParked(Last(s.m)) && Stored(s.m.waker, task, s.g.parked)
              else s.own.pc.OPLoop? && s.own.cur == current
      ensures current0.waiting && (pending || k > k0 + 1) ==> Repolled(old(s).m, s.m, task, pending)
      ensures k0 >= h && !pending ==>
                s.g.polls == old(s.g.polls) &&
                ReceiverPotential(s, s.g.polls) < ReceiverPotential(old(s), old(s.g.polls))
    {
      var a := if current0.waiting then TrySyncSetWakelessAcquire(current0)
               else TrySyncSetWaitingPendingWakeless(current0);
      var success, now, value := ReceiverDoes(a, sched, h, k0);
      pending, current, k := false, if success then a.w else now, k0 + 1;
      if success {
        if current0.waiting { PollsOverClone(trace); }
        var store := if current0.waiting then RefreshClone(task) else InitClone(task);
        pending, current, k := SetWaker(store, current, sched, h, k);
      }
    }

    /** The part of `poll_recv` in which it owns the waker cell: the clone is released to the
        sender, or dropped again. */
    method SetWaker(a: Access, current0: Word, sched: Schedule, h: nat, k0: nat)
      returns (pending: bool, current: Word, k: nat)
      requires Valid() && (s.own.pc.OPInit? || s.own.pc.OPRefresh?) && Admissible(OfReceiver, sched, h)
      requires s.own.cur == current0
      requires a == if s.own.pc.OPInit? then InitClone(s.own.task) else RefreshClone(s.own.task)
      modifies this
      ensures Valid() && k > k0 && s.own.task == old(s.own.task)
      ensures a.RefreshClone? ==> Repolled(old(s).m, s.m, s.own.task, pending)
      ensures if pending
              then s.own.pc.OIdle? && IsParked(Last(s.m)) && Stored(s.m.waker, s.own.task, s.g.parked)
              else s.own.pc.OPLoop? && s.own.cur == current && s.m.waker.None?
      ensures k0 >= h ==>
                s.g.polls == old(s.g.polls) &&
                (!pending ==> ReceiverPotential(s, s.g.polls) < ReceiverPotential(old(s), old(s.g.polls)))
    {
      var success, now, value := ReceiverDoes(a, sched, h, k0);
      success, now, value := ReceiverDoes(UnsetWakelessRelease(current0), sched, h, k0 + 1);
      pending, current, k := success, now, k0 + 2;
      Tasks.Always(trace);
      if !success {
        success, now, value := ReceiverDoes(TakeClone(Drop), sched, h, k);
        k := k + 1;
      }
    }

    method DropReceiver(sched: Schedule, h: nat)
      requires Valid() && s.own.pc.OIdle? && !Inside(s) && Admissible(OfReceiver, sched, h)
      modifies this
      ensures Valid() && ReceiverGone(s)
    {
      var current := Begin(StartDropReceiver(sched(0).i), sched(0).i);
      var success, now, value;
      var k := 1;
      while true
        invariant Valid() && s.own.pc.ODLoop? && s.own.cur == current
        decreases Left(h, k), ReceiverPotential(s, s.g.polls)
      {
        if current.ready {
          success, current, k := ClearReady(current, sched, h, k);
          if !success { continue; }
        }
        if current.close {
          success, current, k := LeaveClosed(current, sched, h, k);
          if success { return; }
          continue;
        }
        if current.pending {
          success, current, k := ClosePending(current, sched, h, k);
          if success { return; }
          continue;
        }
        success, now, value := ReceiverDoes(TrySetClosedDroppingRelease(current), sched, h, k);
        k := k + 1;
        if success { return; }
        current := now;
      }
    }

    /** The branch of `drop_receiver` that disposes of an unread value. */
    method ClearReady(current0: Word, sched: Schedule, h: nat, k0: nat) returns (cleared: bool, current: Word, k: nat)
      requires Valid() && s.own.pc.ODLoop? && s.own.cur == current0 && current0.ready
      requires Admissible(OfReceiver, sched, h)
      modifies this
      ensures Valid() && k > k0 && s.own.pc.ODLoop? && s.own.cur == current
      ensures cleared ==>
                current == ReadyUnset(current0) && s.m.data.None? && s.g.sent.Some? &&
                s.g.outs == [Disposed(s.g.sent.value)]
      ensures k0 >= h ==>
                s.g.polls == old(s.g.polls) &&
                ReceiverPotential(s, s.g.polls) < ReceiverPotential(old(s), old(s.g.polls))
    {
      var success, now, value := ReceiverDoes(TrySyncUnsetReadyAcquire(current0), sched, h, k0);
      cleared, current, k := success, if success then ReadyUnset(current0) else now, k0 + 1;
      if success {
        success, now, value := ReceiverDoes(ReadValue, sched, h, k);
        k := k + 1;
      }
    }

    /** The branch of `drop_receiver` on a channel the sender has closed: it frees the memory
        if the sender is gone, and otherwise leaves that to the sender. */
    method LeaveClosed(current0: Word, sched: Schedule, h: nat, k0: nat) returns (gone: bool, current: Word, k: nat)
      requires Valid() && s.own.pc.ODLoop? && s.own.cur == current0 && Admissible(OfReceiver, sched, h)
      requires !current0.ready && current0.close
      modifies this
      ensures Valid() && k > k0 && (if gone then ReceiverGone(s) else s.own.pc.ODLoop? && s.own.cur == current)
      ensures current0.fieldless ==> gone && SenderGone(s) && s.m.freed == 1
      ensures !current0.fieldless && gone ==> !SenderGone(s) && s.m.freed == 0 && CloseAndDrop(Last(s.m))
      ensures k0 >= h ==>
                s.g.polls == old(s.g.polls) &&
                (!gone ==> ReceiverPotential(s, s.g.polls) < ReceiverPotential(old(s), old(s.g.polls)))
    {
      if current0.fieldless {
        var success, now, value := ReceiverDoes(Load(true), sched, h, k0);
        success, now, value := ReceiverDoes(Free, sched, h, k0 + 1);
        return true, now, k0 + 2;
      }
      var success, now, value := ReceiverDoes(TrySetDroppingRelease(current0), sched, h, k0);
      return success, now, k0 + 1;
    }

    /** The branch of `drop_receiver` that cancels an asynchronous wait: once it has closed the
        channel, the clone that waited in the cell is dropped. */
    method ClosePending(current0: Word, sched: Schedule, h: nat, k0: nat) returns (gone: bool, current: Word, k: nat)
      requires Valid() && s.own.pc.ODLoop? && s.own.cur == current0 && Admissible(OfReceiver, sched, h)
      requires !current0.ready && !current0.close && current0.pending
      modifies this
      ensures Valid() && k > k0 && (if gone then ReceiverGone(s) else s.own.pc.ODLoop? && s.own.cur == current)
      ensures gone || k > k0 + 1 ==>
                old(s.m.waker).Some? && old(s.m.waker).value.id in s.m.fates &&
                s.m.fates[old(s.m.waker).value.id] == Discarded
      ensures k0 >= h ==>
                s.g.polls == old(s.g.polls) &&
                (!gone ==> ReceiverPotential(s, s.g.polls) < ReceiverPotential(old(s), old(s.g.polls)))
    {
      var success, now, value := ReceiverDoes(TrySyncSetupClosedAcquire(current0), sched, h, k0);
      gone, current, k := false, if success then ClosedAsyncSetup(current0) else now, k0 + 1;
      if success {
        gone, current, k := DiscardAndLeave(current, sched, h, k);
      }
    }

    /** Drops the clone of a wait the receiver has just cancelled, and then leaves the channel. */
    method DiscardAndLeave(current0: Word, sched: Schedule, h: nat, k0: nat)
      returns (gone: bool, current: Word, k: nat)
      requires Valid() && s.own.pc.ODDropWaker? && s.own.cur == current0 && Admissible(OfReceiver, sched, h)
      modifies this
      ensures Valid() && k > k0 && (if gone then ReceiverGone(s) else s.own.pc.ODLoop? && s.own.cur == current)
      ensures old(s.m.waker).Some? && old(s.m.waker).value.id in s.m.fates &&
              s.m.fates[old(s.m.waker).value.id] == Discarded
      ensures k0 >= h ==>
                s.g.polls == old(s.g.polls) &&
                (!gone ==> ReceiverPotential(s, s.g.polls) < ReceiverPotential(old(s), old(s.g.polls)))
    {
      var success, now, value := ReceiverDoes(TakeClone(Drop), sched, h, k0);
      success, now, value := ReceiverDoes(TrySetDroppingRelease(current0), sched, h, k0 + 1);
      gone, current, k := success, if success then current0 else now, k0 + 2;
    }

    // ----- recv

    // The access, and the step it is of the transition system.
    method RecvActs(r: Rid, a: Access, x: Chance) returns (success: bool, now: Word, value: Option<int>)
      requires Valid() && r in s.rcv && a == RecvNext(s.rcv[r])
      modifies this
      ensures Valid() && s == RecvStep(WithAsync, old(s), r, x.ok, x.i)
      ensures success == Succeeds(a, old(s).m, old(s).rcv[r].v, x.ok, x.i)
      ensures now == Reads(a, old(s).m, old(s).rcv[r].v, x.i)
      ensures value == old(s).m.data
    {
      Accesses.RecvAccess(s, r, x.ok, x.i);
      success, now, value := Perform(a, s.rcv[r].v, x, Inside(s));
      Stepped(StepRecv(r, x.ok, x.i));
    }

    method RecvDoes(r: Rid, a: Access, sched: Schedule, h: nat, k: nat)
      returns (success: bool, now: Word, value: Option<int>)
      requires Valid() && r in s.rcv && !s.rcv[r].pc.RAsleep? && Admissible(OfRecv(r), sched, h)
      requires a == RecvNext(s.rcv[r])
      modifies this
      ensures Valid() && RecvMoved(old(s), s, r, success, now, value)
      ensures s.m.clones == old(s).m.clones && FatesKept(old(s).m, s.m)
      ensures old(s).rcv[r].pc.RDropWaker? ==> Dropped(old(s).m, s.m)
      ensures k >= h ==>
                s.g.polls == old(s.g.polls) &&
                (r in s.rcv ==> RecvPotential(s, r, s.g.polls) < RecvPotential(old(s), r, old(s.g.polls)))
    {
      ghost var s0, acts := s, trace;
      Others(sched(k).others);
      var x := ChanceAt(OfRecv(r), sched, h, k, s);
      RecvPays(acts, s0, r, sched, h, k, s);
      RecvTurnClones(acts, s0, r, sched(k).others, x);
      success, now, value := RecvActs(r, a, x);
    }

    // Sleeps until another thread or a spurious wake-up wakes it, or the schedule is past `h`.
    method Sleep(r: Rid, sched: Schedule, h: nat, k0: nat) returns (awake: bool, k: nat)
      requires Valid() && r in s.rcv && s.rcv[r].pc.RAsleep? && Admissible(OfRecv(r), sched, h)
      modifies this
      ensures Valid() && r in s.rcv && k >= k0 && s.rcv[r].cur == old(s.rcv[r].cur)
      ensures s.rcv[r].pc == if awake then RLoad else RAsleep
      ensures awake ==> k0 < h && k > k0
    {
      k := k0;
      while k < h
        invariant Valid() && r in s.rcv && s.rcv[r].pc.RAsleep? && k >= k0 && s.rcv[r].cur == old(s.rcv[r].cur)
      {
        RecvUndisturbed(s, sched(k).others, r);
        Others(sched(k).others);
        if s.rcv[r].pc.RAsleep? {
          Stepped(StepRecv(r, sched(k).ok, sched(k).i));
        }
        k := k + 1;
        if !s.rcv[r].pc.RAsleep? { return true, k; }
      }
      return false, k;
    }

    /** Blocks on the futex if the word still is the snapshot, and reads the word again. */
    method WaitReady(r: Rid, current0: Word, sched: Schedule, h: nat, k0: nat)
      returns (awake: bool, current: Word, k: nat)
      requires Valid() && r in s.rcv && s.rcv[r].pc.RWait? && s.rcv[r].cur == current0
      requires Admissible(OfRecv(r), sched, h)
      modifies this
      ensures Valid() && r in s.rcv && k > k0
      ensures if awake then PositionOf(s, r) == At(RLoop, current) else s.rcv[r].pc.RAsleep?
      ensures awake && k0 >= h ==>
                s.g.polls == old(s.g.polls) && RecvPotential(s, r, s.g.polls) < RecvPotential(old(s), r, old(s.g.polls))
    {
      var success, now, value := RecvDoes(r, Wait(current0), sched, h, k0);
      k := k0 + 1;
      awake, current := true, now;
      if success {
        awake, k := Sleep(r, sched, h, k);
        if !awake { return; }
      }
      success, current, value := RecvDoes(r, Load(false), sched, h, k);
      k := k + 1;
    }

    method RecvCall(r: Rid, sched: Schedule, h: nat) returns (answer: Answer)
      requires Valid() && s.own.pc.OIdle? && r !in s.rcv && Admissible(OfRecv(r), sched, h)
      modifies this
      ensures Valid()
      ensures answer.Value? ==> r !in s.rcv && s.g.sent == Some(answer.x) && s.g.outs == [Received(answer.x)]
      ensures answer.Nobody? ==> r !in s.rcv && NothingToReceive(s)
      ensures answer.Asleep? ==> r in s.rcv && s.rcv[r].pc.RAsleep? && !SenderGone(s)
    {
      Stepped(StartRecv(r));
      var success, current, value := RecvDoes(r, Load(false), sched, h, 0);
      var k, now, awake, move := 1, current, true, Retry;
      while true
        invariant Valid() && PositionOf(s, r) == At(RLoop, current)
        decreases Left(h, k), RecvPotential(s, r, s.g.polls)
      {
        if current.ready {
          value, current, k := Claim(r, current, sched, h, k);
          if value.Some? { return Value(value.value); }
          continue;
        }
        if current.close {
          success, now, value := RecvDoes(r, Nothing, sched, h, k);
          return Nobody;
        }
        move, current, k := PrepareToWait(r, current, sched, h, k);
        if move.Return? { return Nobody; }
        if move.Retry? { continue; }
        awake, current, k := WaitReady(r, current, sched, h, k);
        if !awake {
          SleepersWait(trace, r);
          return Asleep;
        }
      }
    }

    // Claims the value of a word with READY.
    method Claim(r: Rid, current0: Word, sched: Schedule, h: nat, k0: nat)
      returns (value: Option<int>, current: Word, k: nat)
      requires Valid() && PositionOf(s, r) == At(RLoop, current0) && current0.ready && Admissible(OfRecv(r), sched, h)
      modifies this
      ensures Valid() && k > k0
      ensures if value.Some?
              then r !in s.rcv && s.g.sent == value && s.g.outs == [Received(value.value)]
              else PositionOf(s, r) == At(RLoop, current)
      ensures k0 >= h && value.None? ==>
                s.g.polls == old(s.g.polls) && RecvPotential(s, r, s.g.polls) < RecvPotential(old(s), r, old(s.g.polls))
    {
      var success;
      success, current, value := RecvDoes(r, TrySetupDatalessAcquire(current0), sched, h, k0);
      k, value := k0 + 1, None;
      if success {
        success, current, value := RecvDoes(r, ReadValue, sched, h, k);
      }
    }

    /** What recv does on a word with nothing to read: it returns, or makes the word say that a
        thread waits, for which an asynchronous wait is turned into a blocking one. */
    method PrepareToWait(r: Rid, current0: Word, sched: Schedule, h: nat, k0: nat)
      returns (move: Move, current: Word, k: nat)
      requires Valid() && PositionOf(s, r) == At(RLoop, current0) && Admissible(OfRecv(r), sched, h)
      requires !current0.ready && !current0.close
      modifies this
      ensures Valid() && k > k0
      ensures match move
              case Return => r !in s.rcv && NothingToReceive(s)
              case Retry => PositionOf(s, r) == At(RLoop, current)
              case WaitFor => PositionOf(s, r) == At(RWait, current)
      ensures move.WaitFor? && current0.pending && current0.waiting ==> Dropped(old(s).m, s.m)
      ensures k0 >= h ==>
                s.g.polls == old(s.g.polls) &&
                (r in s.rcv ==> RecvPotential(s, r, s.g.polls) < RecvPotential(old(s), r, old(s.g.polls)))
    {
      var a := if current0.waiting then (if current0.pending then TryUnsetPendingAcquire(current0) else Nothing)
               else if current0.fieldless then Nothing
               else TrySetWaiting(current0);
      ghost var s0 := s;
      ClonesListed(trace);
      var success, now, value := RecvDoes(r, a, sched, h, k0);
      k := k0 + 1;
      if !current0.waiting && current0.fieldless { return Return, current0, k; }
      if !success && a.Cas? { return Retry, now, k; }
      if current0.pending && current0.waiting {
        TakesOverClone(trace, r);
        SameClone(s0, s);
        success, now, value := RecvDoes(r, TakeClone(Drop), sched, h, k);
        k := k + 1;
      }
      return WaitFor, if current0.waiting then current0 else WaitingSet(current0), k;
    }
  }
}
