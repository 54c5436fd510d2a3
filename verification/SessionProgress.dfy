/** The session gets its work done: each step of a loop that changes anything uses up some of
    it, and what is left when neither loop can go on is exactly what waits for the outside. */
module SessionProgress {
  import opened Octets
  import opened Codec
  import opened Session
  import opened SessionSafety
  import opened SessionRouting

  // The steps the sending loop can still make without new requests.
  function SendWork(s: State): nat {
    match s.snd
    case SWaiting => 4 * |s.queue| + 1
    case SHolding(_) => 4 * |s.queue| + 4
    case SWriting(_, _) => 4 * |s.queue| + 3
    case SWithdrawing(_) => 4 * |s.queue| + 1
    case SEnded(_) => 0
  }

  // The steps the receiving loop can still make; the stream ends some day.
  function RecvWork(s: State): nat {
    match s.rcv
    case RReading => 3 * |s.inp| + 1
    case RTaking(_) => 3 * |s.inp| + 3
    case RDelivering(_) => 3 * |s.inp| + 2
    case REnded => 0
  }

  function Work(s: State): nat { SendWork(s) + RecvWork(s) }

  lemma DecodeShrinks(s: seq<Byte>)
    ensures Decode(s).Ok? ==> |Decode(s).value.rest| < |s|
  {
  }

  lemma EndWorks(v: Flavour, s: State, ok: bool)
    ensures var t := EndSend(v, s, ok); SendWork(t) == 0 && RecvWork(t) <= RecvWork(s)
  {
  }

  lemma WaitingWorks(v: Flavour, s: State)
    requires s.snd.SWaiting?
    ensures var t := SendStep(v, s); if SendRests(s) then t == s else Work(t) < Work(s)
  {
    if s.queue != [] {
      var u := Pop(s);
      assert SendWork(u) == SendWork(s) - 1 && SendWork(Register(u)) == SendWork(s) - 2;
    } else {
      EndWorks(v, s, true);
    }
  }

  lemma WritingWorks(v: Flavour, s: State)
    requires s.snd.SWriting?
    ensures Work(SendStep(v, s)) < Work(s)
  {
    var u := Write(v, s);
    assert Work(u) < Work(s);
    if u.snd.SWithdrawing? { EndWorks(v, Unregister(u), false); }
  }

  lemma SendWorks(v: Flavour, s: State)
    requires Linked(s)
    ensures var t := SendStep(v, s); if SendRests(s) then t == s else Work(t) < Work(s)
  {
    match s.snd {
      case SWaiting => WaitingWorks(v, s);
      case SHolding(_) =>
      case SWriting(_, _) => WritingWorks(v, s);
      case SWithdrawing(_) => EndWorks(v, Unregister(s), false);
      case SEnded(_) =>
    }
  }

  lemma ReadingWorks(v: Flavour, s: State)
    requires s.rcv.RReading?
    ensures Work(RecvStep(v, s)) < Work(s)
  {
    DecodeShrinks(s.inp);
    var u := Read(v, s);
    assert Work(u) < Work(s);
    if v.Async? && u.rcv.RTaking? { assert Work(Take(u)) < Work(u); }
  }

  lemma RecvWorks(v: Flavour, s: State)
    requires Linked(s)
    ensures var t := RecvStep(v, s); if s.rcv.REnded? then t == s else Work(t) < Work(s)
  {
    match s.rcv {
      case RReading => ReadingWorks(v, s);
      case RTaking(_) =>
      case RDelivering(_) =>
      case REnded =>
    }
  }

  // A step of a loop, or of the connection.
  predicate LoopStep(a: Action) { a.StepSend? || a.StepRecv? || a.Flush? }

  // A step of a loop that does not rest.
  predicate IsBusy(s: State, a: Action) { (a.StepSend? && !SendRests(s)) || (a.StepRecv? && !s.rcv.REnded?) }

  lemma StepWorks(v: Flavour, s: State, a: Action)
    requires Linked(s) && AtAwait(v, s) && LoopStep(a)
    ensures Tally(IsBusy(s, a)) + Work(Step(v, s, a)) <= Work(s)
    ensures Linked(Step(v, s, a)) && AtAwait(v, Step(v, s, a))
  {
    if a.StepSend? {
      SendWorks(v, s);
      SendLinked(v, s, SendStep(v, s));
    } else if a.Flush? {
      if CanFlush(v, s, a.n) { FlushLinked(v, s, a.n); }
    } else {
      RecvWorks(v, s);
      RecvLinked(v, s, RecvStep(v, s));
    }
  }

  // How many of the steps are those of a loop that does not rest.
  function Busy(v: Flavour, s: State, acts: seq<Action>): nat {
    if acts == [] then 0
    else
      var n := |acts| - 1;
      var t := Run(v, s, acts[..n]);
      Busy(v, s, acts[..n]) + Tally(IsBusy(t, acts[n]))
  }

  /** However the loops take turns, without new requests they are busy for no more steps than
      there is work. */
  lemma {:induction false} WorkIsFinite(v: Flavour, s: State, acts: seq<Action>)
    requires Linked(s) && AtAwait(v, s) && forall k :: 0 <= k < |acts| ==> LoopStep(acts[k])
    ensures Busy(v, s, acts) + Work(Run(v, s, acts)) <= Work(s)
    ensures Linked(Run(v, s, acts)) && AtAwait(v, Run(v, s, acts))
  {
    if acts != [] {
      var n := |acts| - 1;
      WorkIsFinite(v, s, acts[..n]);
      var t := Run(v, s, acts[..n]);
      StepWorks(v, t, acts[n]);
    }
  }

  /** When neither loop can go on, every request has been completed, dropped, or left waiting
      for a reply that will not come; and it is left waiting exactly in the blocking session,
      when the sending loop still waits for requests and nothing was noted about the id of
      the request since it was registered. */
  lemma {:induction false} WhatIsLeft(v: Flavour, room: nat, peer: seq<Byte>, acts: seq<Action>, w: Waiter)
    requires var s := Run(v, Initial(room, peer), acts);
             w < s.issued && AtRest(s)
    ensures var s := Run(v, Initial(room, peer), acts);
            Tally(w in Replied(s)) + Tally(w in s.dropped) + Tally(w in Waiting(s)) == 1 &&
            (w in Waiting(s) <==> v.Blocking? && s.snd.SWaiting? && InForce(s.log, w))
  {
    var s := Run(v, Initial(room, peer), acts);
    AsyncEndsTogether(v, room, peer, acts);
    AlwaysLinked(v, room, peer, acts);
    WaitsIff(v, room, peer, acts, w);
    WaitersConserved(v, room, peer, acts);
    assert Places(s, w) == 1 && Queued(s) == {};
  }
}
