/** In which order the session serves its requesters, which requests it takes, and when and how
    its two loops end. */
module SessionOrder {
  import opened Octets
  import opened Wrappers
  import opened Codec
  import opened Session
  import opened SessionSafety
  import opened SessionRouting

  // ----- the order of the requests

  // The messages that were taken in a run, in the order in which they were handed in.
  function Handed(v: Flavour, s: State, acts: seq<Action>): seq<Message> {
    if acts == [] then []
    else
      var n := |acts| - 1;
      Handed(v, s, acts[..n]) +
      (if acts[n].Submit? && Run(v, s, acts).issued != Run(v, s, acts[..n]).issued then [acts[n].m] else [])
  }

  function Registrations(log: seq<Note>): seq<Request> {
    if log == [] then []
    else Registrations(log[..|log| - 1]) + (if log[|log| - 1].Registered? then [log[|log| - 1].r] else [])
  }

  // The requests that have got anywhere: registered, held by the sending loop, or queued.
  function Line(s: State): seq<Request> {
    Registrations(s.log) + (if s.snd.SHolding? then [s.snd.r] else []) + s.queue
  }

  // The k-th request is the k-th that was handed in, and its requester waits for it.
  predicate InLine(s: State, ms: seq<Message>) {
    && |ms| == s.issued && |Line(s)| <= s.issued && (!s.snd.SEnded? ==> |Line(s)| == s.issued)
    && forall k :: 0 <= k < |Line(s)| ==> Line(s)[k] == Request(ms[k], k)
  }

  lemma NotedRegistration(log: seq<Note>, n: Note)
    ensures Registrations(log + [n]) == Registrations(log) + (if n.Registered? then [n.r] else [])
  {
    assert (log + [n])[..|log|] == log;
  }

  lemma PopLine(s: State)
    requires s.snd.SWaiting? && s.queue != []
    ensures Line(Pop(s)) == Line(s)
  {
    assert s.queue == [s.queue[0]] + s.queue[1..];
  }

  lemma RegisterLine(s: State)
    requires s.snd.SHolding?
    ensures Line(Register(s)) == Line(s)
  {
    NotedRegistration(s.log, Registered(s.snd.r));
  }

  // The line stays as it is, or ends with what was registered.
  predicate Shortens(s: State, t: State) {
    t.issued == s.issued && if t.snd.SEnded? then Line(t) <= Line(s) else !s.snd.SEnded? && Line(t) == Line(s)
  }

  lemma EndSendLine(v: Flavour, s: State, ok: bool)
    ensures Shortens(s, EndSend(v, s, ok))
  {
  }

  lemma UnregisterLine(s: State)
    requires s.snd.SWithdrawing?
    ensures Line(Unregister(s)) == Line(s)
  {
    NotedRegistration(s.log, Withdrawn(s.snd.r.m.id));
  }

  lemma WithdrawLine(v: Flavour, s: State)
    requires s.snd.SWithdrawing?
    ensures Shortens(s, Withdraw(v, s))
  {
    UnregisterLine(s);
    EndSendLine(v, Unregister(s), false);
  }

  lemma SendLine(v: Flavour, s: State)
    ensures Shortens(s, SendStep(v, s))
  {
    match s.snd {
      case SWaiting =>
        if s.queue != [] {
          PopLine(s);
          RegisterLine(Pop(s));
        } else {
          EndSendLine(v, s, true);
        }
      case SHolding(_) => RegisterLine(s);
      case SWriting(_, _) =>
        var u := Write(v, s);
        if u.snd.SWithdrawing? { WithdrawLine(v, u); }
      case SWithdrawing(_) => WithdrawLine(v, s);
      case SEnded(_) =>
    }
  }

  lemma TakeLine(s: State)
    requires s.rcv.RTaking?
    ensures Line(Take(s)) == Line(s)
  {
    NotedRegistration(s.log, Arrived(s.rcv.m));
  }

  lemma RecvLine(v: Flavour, s: State)
    ensures Shortens(s, RecvStep(v, s))
  {
    match s.rcv {
      case RReading =>
        var u := Read(v, s);
        if u.rcv.RTaking? { TakeLine(u); }
      case RTaking(_) => TakeLine(s);
      case RDelivering(_) =>
      case REnded =>
    }
  }

  lemma Shortened(s: State, t: State, ms: seq<Message>)
    requires InLine(s, ms) && Shortens(s, t)
    ensures InLine(t, ms)
  {
  }

  lemma AcceptLine(v: Flavour, s: State, m: Message, ms: seq<Message>)
    requires InLine(s, ms)
    ensures var t := Accept(v, s, m); InLine(t, if t.issued != s.issued then ms + [m] else ms)
  {
    var t := Accept(v, s, m);
    if t.issued != s.issued && !s.snd.SEnded? {
      assert Line(t) == Line(s) + [Request(m, s.issued)];
    }
  }

  /** Requests are served in the order in which they were handed in: what has been registered,
      followed by what the sending loop holds and what is queued, is the requests in that
      order, each with the waiter of its requester - all of them, until the loop has ended. */
  lemma {:induction false} ServedInOrder(v: Flavour, room: nat, peer: seq<Byte>, acts: seq<Action>)
    ensures InLine(Run(v, Initial(room, peer), acts), Handed(v, Initial(room, peer), acts))
  {
    if acts != [] {
      var n := |acts| - 1;
      var s := Run(v, Initial(room, peer), acts[..n]);
      var ms := Handed(v, Initial(room, peer), acts[..n]);
      ServedInOrder(v, room, peer, acts[..n]);
      match acts[n] {
        case Submit(m) => AcceptLine(v, s, m, ms);
        case StepSend =>
          SendLine(v, s);
          Shortened(s, SendStep(v, s), ms);
        case StepRecv =>
          RecvLine(v, s);
          Shortened(s, RecvStep(v, s), ms);
        case _ =>
      }
    }
  }

  // ----- which requests are taken

  /** A request is refused when nobody holds the channel any more, or - in the asynchronous
      session, whose channel is bounded - while 1024 requests are queued. One that is taken is
      queued last, or, when the sending loop has ended, its sender is dropped at once. */
  lemma TakenIff(v: Flavour, s: State, m: Message)
    ensures var t := Accept(v, s, m);
            var taken := !s.hungUp && (v.Blocking? || s.snd.SEnded? || |s.queue| < 1024);
            if !taken then t == s
            else
              && t.issued == s.issued + 1
              && if s.snd.SEnded? then t.queue == s.queue && t.dropped == s.dropped + {s.issued}
                 else t.queue == s.queue + [Request(m, s.issued)] && t.dropped == s.dropped
  {
  }

  lemma {:induction false} QueueIsBounded(room: nat, peer: seq<Byte>, acts: seq<Action>)
    ensures |Run(Async, Initial(room, peer), acts).queue| <= 1024
  {
    if acts != [] {
      var n := |acts| - 1;
      QueueIsBounded(room, peer, acts[..n]);
      var s := Run(Async, Initial(room, peer), acts[..n]);
      match acts[n] {
        case Submit(m) => TakenIff(Async, s, m);
        case StepSend => QueueShrinks(Async, s);
        case _ =>
      }
    }
  }

  lemma QueueShrinks(v: Flavour, s: State)
    ensures |SendStep(v, s).queue| <= |s.queue|
  {
    match s.snd { case SWriting(_, _) => case SWaiting => case _ => }
  }

  // ----- when a loop ends

  predicate Ends(s: SendPc, t: SendPc) { !s.SEnded? && t.SEnded? }

  // The rest of the frame cannot be written.
  predicate Breaks(v: Flavour, s: State)
    requires s.snd.SWriting?
  {
    !Sendable(s.snd.r.m) || !Fits(s.room, s.out, Unwritten(v, s))
  }

  /** The sending loop ends well exactly when it waits, nothing is queued, and all requesters are
      gone; it fails exactly with a write: at once in one task, and after the withdrawal of
      the registration between threads. */
  lemma SendEndsIff(v: Flavour, s: State)
    ensures var t := SendStep(v, s);
            && (Ends(s.snd, t.snd) && t.snd.ok <==> s.snd.SWaiting? && s.queue == [] && s.hungUp)
            && (Ends(s.snd, t.snd) && !t.snd.ok <==>
                  s.snd.SWithdrawing? || (v.Async? && s.snd.SWriting? && Breaks(v, s)))
  {
    match s.snd { case SWriting(_, _) => case SWaiting => case _ => }
  }

  /** The receiving loop ends exactly when what is left of the stream begins with no frame. */
  lemma RecvEndsIff(v: Flavour, s: State)
    ensures var t := RecvStep(v, s);
            !s.rcv.REnded? && t.rcv.REnded? <==> s.rcv.RReading? && Decode(s.inp).Err?
  {
    match s.rcv { case RReading => case _ => }
  }

  /** A loop that fails takes the other one with it in the asynchronous session, and never in the
      blocking one; a sending loop that ends well leaves the other one running in both. */
  lemma EndsTheOther(v: Flavour, s: State)
    ensures var t := SendStep(v, s);
            t.rcv == if Ends(s.snd, t.snd) && v.Async? && !t.snd.ok then REnded else s.rcv
    ensures var t := RecvStep(v, s);
            t.snd == if !s.rcv.REnded? && t.rcv.REnded? && v.Async? && !s.snd.SEnded? then SEnded(false) else s.snd
  {
    SendLeavesReceiver(v, s);
    RecvLeavesSender(v, s);
  }

  lemma RecvLeavesSender(v: Flavour, s: State)
    ensures var t := RecvStep(v, s);
            t.snd == if !s.rcv.REnded? && t.rcv.REnded? && v.Async? && !s.snd.SEnded? then SEnded(false) else s.snd
  {
    match s.rcv { case RReading => case _ => }
  }

  lemma SendLeavesReceiver(v: Flavour, s: State)
    ensures var t := SendStep(v, s);
            t.rcv == if Ends(s.snd, t.snd) && v.Async? && !t.snd.ok then REnded else s.rcv
  {
    match s.snd { case SWriting(_, _) => case SWaiting => case _ => }
  }
}
