/** Which reply reaches which waiter. The log of registrations, withdrawals and arrivals
    determines the map, the replies and the waiters lost to a later registration; the two
    byte streams determine the log. */
module SessionRouting {
  import opened Octets
  import opened Codec
  import opened Session
  import opened SessionSafety

  // ----- what a log says

  function About(n: Note): U32 {
    match n
    case Registered(r) => r.m.id
    case Withdrawn(id) => id
    case Arrived(m) => m.id
  }

  function After(before: map<U32, Waiter>, n: Note): map<U32, Waiter> {
    match n
    case Registered(r) => before[r.m.id := r.w]
    case Withdrawn(id) => before - {id}
    case Arrived(m) => before - {m.id}
  }

  // The waiter registered under each id, and not withdrawn or completed since.
  function Registry(log: seq<Note>): map<U32, Waiter> {
    if log == [] then map[] else After(Registry(log[..|log| - 1]), log[|log| - 1])
  }

  // The replies the arrivals give rise to.
  function Completed(log: seq<Note>): seq<Reply> {
    if log == [] then []
    else
      var n := |log| - 1;
      var before := Registry(log[..n]);
      Completed(log[..n]) +
      (if log[n].Arrived? && log[n].m.id in before then [Reply(before[log[n].m.id], log[n].m.bytes)] else [])
  }

  // The waiters whose registration was overwritten or withdrawn.
  function Lost(log: seq<Note>): set<Waiter> {
    if log == [] then {}
    else
      var n := |log| - 1;
      var before := Registry(log[..n]);
      Lost(log[..n]) +
      (if !log[n].Arrived? && About(log[n]) in before then {before[About(log[n])]} else {})
  }

  function Requests(log: seq<Note>): seq<Message> {
    if log == [] then []
    else Requests(log[..|log| - 1]) + (if log[|log| - 1].Registered? then [log[|log| - 1].r.m] else [])
  }

  function Frames(log: seq<Note>): seq<Message> {
    if log == [] then []
    else Frames(log[..|log| - 1]) + (if log[|log| - 1].Arrived? then [log[|log| - 1].m] else [])
  }

  // ----- the session keeps to its log

  predicate AtAwait(v: Flavour, s: State) {
    v.Async? ==> !s.snd.SHolding? && !s.snd.SWithdrawing? && !s.rcv.RTaking? && !s.rcv.RDelivering?
  }

  predicate Linked(s: State) {
    && (if Over(s) then s.pending == map[] else s.pending == Registry(s.log))
    && Completed(s.log) == s.replies + (if s.rcv.RDelivering? then [s.rcv.reply] else [])
    && (if s.snd.SEnded? then s.queue == [] && Lost(s.log) <= s.dropped else s.dropped == Lost(s.log))
    && ((s.snd.SWriting? || s.snd.SWithdrawing?) && s.snd.r.m.id in s.pending ==> s.pending[s.snd.r.m.id] == s.snd.r.w)
  }

  // A log grows by one note.
  lemma Noted(log: seq<Note>, n: Note)
    ensures Registry(log + [n]) == After(Registry(log), n)
    ensures Completed(log + [n]) ==
            Completed(log) +
            (if n.Arrived? && n.m.id in Registry(log) then [Reply(Registry(log)[n.m.id], n.m.bytes)] else [])
    ensures Lost(log + [n]) ==
            Lost(log) + (if !n.Arrived? && About(n) in Registry(log) then {Registry(log)[About(n)]} else {})
  {
    assert (log + [n])[..|log|] == log;
  }

  lemma RegisterLinked(s: State, t: State)
    requires Linked(s) && s.snd.SHolding? && t == Register(s)
    ensures Linked(t)
  {
    Noted(s.log, Registered(s.snd.r));
  }

  lemma EndSendLinked(v: Flavour, s: State, ok: bool, t: State)
    requires Linked(s) && t == EndSend(v, s, ok) && !Over(s)
    requires (v.Async? && !ok) ==> !s.rcv.RDelivering?
    ensures Linked(t)
  {
  }

  lemma UnregisterLinked(s: State, t: State)
    requires Linked(s) && s.snd.SWithdrawing? && t == Unregister(s)
    ensures Linked(t)
  {
    Noted(s.log, Withdrawn(s.snd.r.m.id));
  }

  lemma WithdrawLinked(v: Flavour, s: State, t: State)
    requires Linked(s) && s.snd.SWithdrawing? && t == Withdraw(v, s)
    requires v.Async? ==> !s.rcv.RDelivering?
    ensures Linked(t)
  {
    UnregisterLinked(s, Unregister(s));
    EndSendLinked(v, Unregister(s), false, t);
  }

  lemma ReadLinked(v: Flavour, s: State, t: State)
    requires Linked(s) && s.rcv.RReading? && t == Read(v, s)
    ensures Linked(t)
  {
  }

  lemma TakeLinked(s: State, t: State)
    requires Linked(s) && s.rcv.RTaking? && t == Take(s)
    ensures Linked(t)
  {
    Noted(s.log, Arrived(s.rcv.m));
  }

  lemma DeliverLinked(s: State, t: State)
    requires Linked(s) && s.rcv.RDelivering? && t == Deliver(s)
    ensures Linked(t)
  {
  }

  lemma FlushLinked(v: Flavour, s: State, n: nat)
    requires Linked(s) && AtAwait(v, s) && CanFlush(v, s, n)
    ensures Linked(FlushSome(v, s, n)) && AtAwait(v, FlushSome(v, s, n))
  {
  }

  lemma WriteLinked(v: Flavour, s: State, t: State)
    requires Linked(s) && s.snd.SWriting? && t == Write(v, s)
    ensures Linked(t)
  {
  }

  lemma WaitingLinked(v: Flavour, s: State, t: State)
    requires Linked(s) && AtAwait(v, s) && s.snd.SWaiting? && t == SendStep(v, s)
    ensures Linked(t) && AtAwait(v, t)
  {
    if s.queue != [] {
      if v.Async? { RegisterLinked(Pop(s), t); }
    } else if s.hungUp {
      EndSendLinked(v, s, true, t);
    }
  }

  lemma SendLinked(v: Flavour, s: State, t: State)
    requires Linked(s) && AtAwait(v, s) && t == SendStep(v, s)
    ensures Linked(t) && AtAwait(v, t)
  {
    match s.snd {
      case SWaiting => WaitingLinked(v, s, t);
      case SHolding(_) => RegisterLinked(s, t);
      case SWriting(_, _) =>
        var u := Write(v, s);
        WriteLinked(v, s, u);
        if v.Async? && u.snd.SWithdrawing? { WithdrawLinked(v, u, t); }
      case SWithdrawing(_) => WithdrawLinked(v, s, t);
      case SEnded(_) =>
    }
  }

  lemma ReadingLinked(v: Flavour, s: State, t: State)
    requires Linked(s) && AtAwait(v, s) && s.rcv.RReading? && t == RecvStep(v, s)
    ensures Linked(t) && AtAwait(v, t)
  {
    var u := Read(v, s);
    ReadLinked(v, s, u);
    if v.Async? && u.rcv.RTaking? {
      TakeLinked(u, Take(u));
      if Take(u).rcv.RDelivering? { DeliverLinked(Take(u), t); }
    }
  }

  lemma RecvLinked(v: Flavour, s: State, t: State)
    requires Linked(s) && AtAwait(v, s) && t == RecvStep(v, s)
    ensures Linked(t) && AtAwait(v, t)
  {
    match s.rcv {
      case RReading => ReadingLinked(v, s, t);
      case RTaking(_) => TakeLinked(s, t);
      case RDelivering(_) => DeliverLinked(s, t);
      case REnded =>
    }
  }

  lemma {:induction false} AlwaysLinked(v: Flavour, room: nat, peer: seq<Byte>, acts: seq<Action>)
    ensures var s := Run(v, Initial(room, peer), acts); Linked(s) && AtAwait(v, s)
  {
    if acts != [] {
      var n := |acts| - 1;
      AlwaysLinked(v, room, peer, acts[..n]);
      var s := Run(v, Initial(room, peer), acts[..n]);
      match acts[n] {
        case StepSend => SendLinked(v, s, SendStep(v, s));
        case StepRecv => RecvLinked(v, s, RecvStep(v, s));
        case Flush(k) => if CanFlush(v, s, k) { FlushLinked(v, s, k); }
        case _ =>
      }
    }
  }

  // ----- routing

  // The registration at `i` is the one in force under its id when `j` is noted.
  predicate Governs(log: seq<Note>, i: nat, j: nat) {
    i < j <= |log| && log[i].Registered? && forall k :: i < k < j ==> About(log[k]) != About(log[i])
  }

  lemma {:induction false} RegistrationOf(log: seq<Note>, id: U32) returns (i: nat)
    requires id in Registry(log)
    ensures Governs(log, i, |log|) && log[i].r.m.id == id && log[i].r.w == Registry(log)[id]
  {
    var n := |log| - 1;
    if log[n].Registered? && log[n].r.m.id == id {
      i := n;
    } else {
      i := RegistrationOf(log[..n], id);
    }
  }

  predicate RoutedBy(log: seq<Note>, i: nat, j: nat, p: Reply) {
    && Governs(log, i, j) && j < |log| && log[j].Arrived?
    && log[j].m.id == log[i].r.m.id && p == Reply(log[i].r.w, log[j].m.bytes)
  }

  lemma {:induction false} CompletedIsRouted(log: seq<Note>, k: nat)
    requires k < |Completed(log)|
    ensures exists i, j :: RoutedBy(log, i, j, Completed(log)[k])
  {
    var n := |log| - 1;
    if k < |Completed(log[..n])| {
      CompletedIsRouted(log[..n], k);
      var i, j :| RoutedBy(log[..n], i, j, Completed(log[..n])[k]);
      assert RoutedBy(log, i, j, Completed(log)[k]);
    } else {
      var i := RegistrationOf(log[..n], log[n].m.id);
      assert RoutedBy(log, i, n, Completed(log)[k]);
    }
  }

  /** Reply routing: a waiter is completed with `bytes` only if it was registered under some
      id before a frame with that id and those bytes was taken off the connection, and
      nothing happened to that id in between. */
  lemma {:induction false} RepliesAreRouted(v: Flavour, room: nat, peer: seq<Byte>, acts: seq<Action>, k: nat)
    requires k < |Run(v, Initial(room, peer), acts).replies|
    ensures var s := Run(v, Initial(room, peer), acts); exists i, j :: RoutedBy(s.log, i, j, s.replies[k])
  {
    var s := Run(v, Initial(room, peer), acts);
    AlwaysLinked(v, room, peer, acts);
    assert Completed(s.log)[k] == s.replies[k];
    CompletedIsRouted(s.log, k);
  }

  /** No frame is lost either: the replies are, in order, all that the arrivals call for. */
  lemma {:induction false} ArrivalsAreAnswered(v: Flavour, room: nat, peer: seq<Byte>, acts: seq<Action>)
    ensures var s := Run(v, Initial(room, peer), acts);
            s.replies <= Completed(s.log) && (!s.rcv.RDelivering? ==> s.replies == Completed(s.log))
  {
    AlwaysLinked(v, room, peer, acts);
  }

  // ----- the end of a session

  predicate EndsTogether(v: Flavour, s: State) {
    v.Async? && (s.rcv.REnded? || (s.snd.SEnded? && !s.snd.ok)) ==> Over(s)
  }

  lemma {:induction false} AsyncEndsTogether(v: Flavour, room: nat, peer: seq<Byte>, acts: seq<Action>)
    ensures EndsTogether(v, Run(v, Initial(room, peer), acts))
  {
    if acts != [] {
      var n := |acts| - 1;
      AsyncEndsTogether(v, room, peer, acts[..n]);
      AlwaysLinked(v, room, peer, acts[..n]);
      var s := Run(v, Initial(room, peer), acts[..n]);
      match acts[n] {
        case StepSend => match s.snd { case SWaiting => case SWriting(_, _) => case _ => }
        case StepRecv =>
        case _ =>
      }
    }
  }

  /** After the session nobody is left pending: every requester has either been completed,
      once, or has seen its sender dropped. In the asynchronous session this is so as soon
      as either loop has failed. */
  lemma {:induction false} NobodyIsLeft(v: Flavour, room: nat, peer: seq<Byte>, acts: seq<Action>, w: Waiter)
    requires var s := Run(v, Initial(room, peer), acts);
             w < s.issued && (Over(s) || (v.Async? && (s.rcv.REnded? || (s.snd.SEnded? && !s.snd.ok))))
    ensures var s := Run(v, Initial(room, peer), acts); w in Replied(s) <==> w !in s.dropped
  {
    var s := Run(v, Initial(room, peer), acts);
    AsyncEndsTogether(v, room, peer, acts);
    AlwaysLinked(v, room, peer, acts);
    WaitersConserved(v, room, peer, acts);
    assert Places(s, w) == 1;
  }

  // ----- who is left waiting

  // The registration of `w` is still in force.
  ghost predicate InForce(log: seq<Note>, w: Waiter) {
    exists i: nat :: Governs(log, i, |log|) && log[i].r.w == w
  }

  lemma {:induction false} GovernsIsRegistered(log: seq<Note>, i: nat)
    requires Governs(log, i, |log|)
    ensures log[i].r.m.id in Registry(log) && Registry(log)[log[i].r.m.id] == log[i].r.w
  {
    var n := |log| - 1;
    if i < n {
      assert Governs(log[..n], i, n);
      GovernsIsRegistered(log[..n], i);
      assert About(log[n]) != About(log[i]);
    }
  }

  /** Who is registered at any moment: exactly those about whose id nothing was noted since
      they were registered, for as long as the session is not over. Once the blocking session
      has lost its receiving loop, these wait for a reply that will not come. */
  lemma {:induction false} WaitsIff(v: Flavour, room: nat, peer: seq<Byte>, acts: seq<Action>, w: Waiter)
    ensures var s := Run(v, Initial(room, peer), acts);
            w in Waiting(s) <==> !Over(s) && InForce(s.log, w)
  {
    var s := Run(v, Initial(room, peer), acts);
    AlwaysLinked(v, room, peer, acts);
    if w in Waiting(s) {
      var id :| id in s.pending && s.pending[id] == w;
      var i := RegistrationOf(s.log, id);
      assert Governs(s.log, i, |s.log|) && s.log[i].r.w == w;
    }
    if !Over(s) && InForce(s.log, w) {
      var i: nat :| Governs(s.log, i, |s.log|) && s.log[i].r.w == w;
      GovernsIsRegistered(s.log, i);
    }
  }

  lemma {:induction false} RunThen(v: Flavour, s: State, acts: seq<Action>, a: Action)
    ensures Run(v, s, acts + [a]) == Step(v, Run(v, s, acts), a)
  {
    assert (acts + [a])[..|acts|] == acts;
  }

  // The sending loop waits for a request, or has returned.
  predicate SendRests(s: State) { s.snd.SEnded? || (s.snd.SWaiting? && s.queue == [] && !s.hungUp) }

  // Neither loop has anything left to do.
  predicate AtRest(s: State) { SendRests(s) && s.rcv.REnded? }

  lemma {:induction false} RestStays(v: Flavour, s: State, acts: seq<Action>)
    requires AtRest(s) && forall k :: 0 <= k < |acts| ==> !acts[k].Submit? && !acts[k].HangUp?
    ensures Run(v, s, acts) == s
  {
    if acts != [] { RestStays(v, s, acts[..|acts| - 1]); }
  }

  function Sending(m: Message): seq<Action> { [Submit(m)] + [StepSend] + [StepSend] + [StepSend] + [StepSend] }

  lemma SendingRun(v: Flavour, s: State, m: Message)
    ensures Run(v, s, Sending(m)) ==
            SendStep(v, SendStep(v, SendStep(v, SendStep(v, Accept(v, s, m)))))
  {
    RunThen(v, s, [], Submit(m));
    assert [] + [Submit(m)] == [Submit(m)];
    RunThen(v, s, [Submit(m)], StepSend);
    RunThen(v, s, [Submit(m)] + [StepSend], StepSend);
    RunThen(v, s, [Submit(m)] + [StepSend] + [StepSend], StepSend);
    RunThen(v, s, [Submit(m)] + [StepSend] + [StepSend] + [StepSend], StepSend);
  }

  // The blocking session with its receiving loop gone, waiting for requests.
  predicate Deaf(s: State) { s.rcv.REnded? && s.snd.SWaiting? && s.queue == [] && !s.hungUp }

  // What becomes of a request handed to it.
  lemma DeafSends(s: State, m: Message, t: State)
    requires Deaf(s) && t == SendStep(Blocking, SendStep(Blocking, SendStep(Blocking, Accept(Blocking, s, m))))
    ensures t.snd == if Writable(s, m) then SWaiting else SWithdrawing(Request(m, s.issued))
    ensures t.pending == s.pending[m.id := s.issued] && t.queue == [] && t.rcv.REnded? && !t.hungUp
  {
    var u := Accept(Blocking, s, m);
    assert u.queue == [Request(m, s.issued)] && u.queue[1..] == [];
    var x := SendStep(Blocking, SendStep(Blocking, u));
    assert x.snd == SWriting(Request(m, s.issued), 0) && x.out == s.out;
    var bs := Bytes(Blocking, m);
    assert bs[0..] == bs;
  }

  /** The blocking session gives no such promise while its channel is open. When its receiving
      loop has ended, a request handed to it is left waiting for ever exactly when it can
      still be written: neither loop will do anything about it. Otherwise its sender is
      dropped at once, with all the others. */
  lemma {:induction false} BlockingStrands(s: State, m: Message, acts: seq<Action>)
    requires Deaf(s)
    requires forall k :: 0 <= k < |acts| ==> !acts[k].Submit? && !acts[k].HangUp?
    ensures var t := Run(Blocking, s, Sending(m));
            && (s.issued in Waiting(t) <==> Writable(s, m))
            && (Over(t) <==> !Writable(s, m))
            && Run(Blocking, t, acts) == t
  {
    SendingRun(Blocking, s, m);
    var u := SendStep(Blocking, SendStep(Blocking, SendStep(Blocking, Accept(Blocking, s, m))));
    DeafSends(s, m, u);
    var t := SendStep(Blocking, u);
    if Writable(s, m) { assert t.pending[m.id] == s.issued; }
    RestStays(Blocking, t, acts);
  }

  /** The requester of a dead peer, from the start: it waits for ever exactly when its frame
      is one the connection takes. */
  lemma DeadPeerStrands(room: nat, m: Message, acts: seq<Action>)
    requires forall k :: 0 <= k < |acts| ==> !acts[k].Submit? && !acts[k].HangUp?
    ensures var t := Run(Blocking, Run(Blocking, Initial(room, []), [StepRecv]), Sending(m));
            (0 in Waiting(Run(Blocking, t, acts)) <==> Sendable(m) && |Encode(m)| <= room)
  {
    var s0 := Initial(room, []);
    RunThen(Blocking, s0, [], StepRecv);
    assert [] + [StepRecv] == [StepRecv] && Run(Blocking, s0, []) == s0;
    assert Decode([]).Err?;
    assert RecvStep(Blocking, s0) == s0.(rcv := REnded);
    BlockingStrands(s0.(rcv := REnded), m, acts);
  }
}
