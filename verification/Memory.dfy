/** The shared allocation behind both handles, as a release/acquire memory.

    The status word is not one value but the list of all values it has had, oldest
    first. Every change to it is a read-modify-write, so a successful compare-and-swap
    always extends the list at its end and continues every release sequence; a load, or
    a failed compare-and-swap, may return any entry that is not older than what the
    thread has already seen. Each entry carries `rel`, the accesses that an acquiring
    reader of that entry learns about.

    Every access to the allocation is an event with its own number. A thread's `know`
    holds the events that happen before its next one. The memory watches every access and
    records what undefined behaviour or leak it would be, in `faults`. */
module Memory {
  import opened Wrappers
  import opened Words

  datatype Msg = Msg(word: Word, rel: set<nat>)

  type History = h: seq<Msg> | 0 < |h| witness [Msg(NEW, {})]

  // What one thread of control has seen of the word, and which accesses it knows of.
  datatype View = View(seen: nat, know: set<nat>)

  // A waker: `task` is what `will_wake` compares, `id` tells clones apart.
  datatype Waker = Waker(task: nat, id: nat)

  datatype Use = Wake | Drop

  // What became of a clone; waking it notifies its task.
  datatype Fate = Woken(task: nat) | Discarded

  datatype Fault =
    | UseAfterFree | DoubleFree
    | UninitData | OverwrittenData | LeakedData
    | UninitWaker | OverwrittenWaker | LeakedWaker | WakerConsumedTwice
    | DataRace | WakerRace | FreeRace

  datatype Mem = Mem(
    hist: History,
    data: Option<int>,
    waker: Option<Waker>,
    freed: nat,
    clock: nat,
    dataEv: set<nat>,
    wakerEv: set<nat>,
    clones: nat,
    fates: map<nat, Fate>,
    faults: set<Fault>)

  const FRESH: Mem := Mem([Msg(NEW, {})], None, None, 0, 0, {}, {}, 0, map[], {})

  function Last(m: Mem): Word { m.hist[|m.hist| - 1].word }

  function LastRel(m: Mem): set<nat> { m.hist[|m.hist| - 1].rel }

  // The entry a plain load returns: any entry from `seen` on; `i` chooses which.
  function Pick(m: Mem, v: View, i: nat): nat {
    if v.seen <= i < |m.hist| then i else |m.hist| - 1
  }

  function WordAt(m: Mem, v: View, i: nat): Word { m.hist[Pick(m, v, i)].word }

  function FaultIf(bad: bool, f: Fault): set<Fault> { if bad then {f} else {} }

  // The part common to all accesses: a new event, on memory that must still be allocated.
  function Touch(m: Mem): Mem {
    m.(clock := m.clock + 1, faults := m.faults + FaultIf(m.freed > 0, UseAfterFree))
  }

  function Knowing(m: Mem, v: View): View { v.(know := v.know + {m.clock}) }

  // ----- the status word

  function LoadView(m: Mem, v: View, i: nat, acquire: bool): View {
    var k := Pick(m, v, i);
    View(k, v.know + {m.clock} + (if acquire then m.hist[k].rel else {}))
  }

  function CasView(m: Mem, v: View, acquire: bool): View {
    View(|m.hist|, v.know + {m.clock} + (if acquire then LastRel(m) else {}))
  }

  function Install(m: Mem, v: View, w: Word, acquire: bool, release: bool): Mem {
    var rel := LastRel(m) + (if release then CasView(m, v, acquire).know else {});
    Touch(m).(hist := m.hist + [Msg(w, rel)])
  }

  // ----- the data cell

  function TouchData(m: Mem, v: View): Mem {
    var t := Touch(m);
    t.(dataEv := m.dataEv + {m.clock}, faults := t.faults + FaultIf(!(m.dataEv <= v.know), DataRace))
  }

  function WriteData(m: Mem, v: View, x: int): Mem {
    var t := TouchData(m, v);
    t.(data := Some(x), faults := t.faults + FaultIf(m.data.Some?, OverwrittenData))
  }

  function ReadData(m: Mem, v: View): Mem {
    var t := TouchData(m, v);
    t.(data := None, faults := t.faults + FaultIf(m.data.None?, UninitData))
  }

  // ----- the waker cell

  function TouchWaker(m: Mem, v: View): Mem {
    var t := Touch(m);
    t.(wakerEv := m.wakerEv + {m.clock}, faults := t.faults + FaultIf(!(m.wakerEv <= v.know), WakerRace))
  }

  function FateOf(w: Waker, use: Use): Fate { if use.Wake? then Woken(w.task) else Discarded }

  function Consume(m: Mem, use: Use): Mem {
    if m.waker.None? then m.(faults := m.faults + {UninitWaker})
    else m.(fates := m.fates[m.waker.value.id := FateOf(m.waker.value, use)],
            faults := m.faults + FaultIf(m.waker.value.id in m.fates, WakerConsumedTwice))
  }

  // Moves the waker out of the cell and wakes or drops it.
  function TakeWaker(m: Mem, v: View, use: Use): Mem {
    Consume(TouchWaker(m, v), use).(waker := None)
  }

  // Writes a fresh clone over the uninitialised cell, without dropping what was there.
  function InitWaker(m: Mem, v: View, task: nat): Mem {
    var t := TouchWaker(m, v);
    t.(waker := Some(Waker(task, m.clones)), clones := m.clones + 1,
       faults := t.faults + FaultIf(m.waker.Some?, OverwrittenWaker))
  }

  // Keeps a waker that would wake the same task; otherwise stores a clone and drops the old one.
  function RefreshWaker(m: Mem, v: View, task: nat): Mem {
    var t := TouchWaker(m, v);
    if t.waker.Some? && t.waker.value.task == task then t
    else Consume(t, Drop).(waker := Some(Waker(task, m.clones)), clones := m.clones + 1)
  }

  // ----- the allocation

  // `others` says that some thread is still inside a call, `events` are all accesses so far.
  function Dealloc(m: Mem, v: View, others: bool): Mem {
    var t := Touch(m);
    t.(freed := m.freed + 1,
       faults := t.faults + FaultIf(m.freed > 0, DoubleFree)
                 + FaultIf(m.data.Some?, LeakedData) + FaultIf(m.waker.Some?, LeakedWaker)
                 + FaultIf(others || !(forall e :: 0 <= e < m.clock ==> e in v.know), FreeRace))
  }
}
