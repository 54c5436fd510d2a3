/** What every run of the session keeps: where each waiter is, which reply it gets, and what
    the two ends of the connection read. */
module SessionSafety {
  import opened Octets
  import opened Codec
  import opened Session

  // ----- every waiter is in exactly one place

  function Tally(b: bool): nat { if b then 1 else 0 }

  function Places(s: State, w: Waiter): nat {
    Tally(w in Queued(s)) + Tally(w in Held(s)) + Tally(w in Waiting(s)) +
    Tally(w in Delivering(s)) + Tally(w in Replied(s)) + Tally(w in s.dropped)
  }

  ghost predicate Conserved(s: State) {
    && (forall w: Waiter :: Places(s, w) == Tally(w < s.issued))
    && (forall i, j :: 0 <= i < j < |s.queue| ==> s.queue[i].w != s.queue[j].w)
    && (forall i, j :: i in s.pending && j in s.pending && s.pending[i] == s.pending[j] ==> i == j)
    && (forall i, j :: 0 <= i < j < |s.replies| ==> s.replies[i].w != s.replies[j].w)
  }

  lemma PopConserves(s: State, t: State)
    requires Conserved(s) && s.snd.SWaiting? && s.queue != [] && t == Pop(s)
    ensures Conserved(t)
  {
    assert Queued(s) == {s.queue[0].w} + Queued(t) by {
      assert s.queue == [s.queue[0]] + t.queue;
    }
    forall w: Waiter ensures Places(t, w) == Tally(w < t.issued) {
      assert Places(s, w) == Tally(w < s.issued);
    }
  }

  // The waiter a registration under `id` would replace.
  function Replaced(s: State, id: U32): set<Waiter> { if id in s.pending then {s.pending[id]} else {} }

  /** A registration moves its waiter into the map, and the one it replaces, if any, is dropped;
      every other waiter stays where it is. */
  lemma RegisterConserves(s: State, t: State)
    requires Conserved(s) && s.snd.SHolding? && t == Register(s)
    ensures Conserved(t)
    ensures var gone := Replaced(s, s.snd.r.m.id);
            && s.snd.r.w in Held(s) && s.snd.r.w in Waiting(t)
            && gone <= Waiting(s) && gone <= t.dropped
            && Waiting(t) == Waiting(s) - gone + {s.snd.r.w} && t.dropped == s.dropped + gone
            && Queued(t) == Queued(s) && Delivering(t) == Delivering(s) && Replied(t) == Replied(s)
  {
    var id, w0 := s.snd.r.m.id, s.snd.r.w;
    assert Places(s, w0) == Tally(w0 < s.issued);
    forall w: Waiter
      ensures w in Waiting(t) <==> w == w0 || (w in Waiting(s) && !(id in s.pending && s.pending[id] == w))
    {
      if w == w0 { assert t.pending[id] == w; }
      if w in Waiting(s) && !(id in s.pending && s.pending[id] == w) {
        var i :| i in s.pending && s.pending[i] == w;
        assert t.pending[i] == w;
      }
    }
    forall w: Waiter ensures Places(t, w) == Tally(w < t.issued) {
      assert Places(s, w) == Tally(w < s.issued);
    }
  }

  lemma RemoveWaiting(s: State, t: State, id: U32)
    requires Conserved(s) && t.pending == s.pending - {id}
    ensures Waiting(t) == Waiting(s) - (if id in s.pending then {s.pending[id]} else {})
  {
    forall w | w in Waiting(s) && !(id in s.pending && s.pending[id] == w) ensures w in Waiting(t) {
      var i :| i in s.pending && s.pending[i] == w;
      assert t.pending[i] == w;
    }
  }

  lemma CloseConserves(s: State, t: State)
    requires Conserved(s) && t == Close(s)
    ensures Conserved(t)
  {
    forall w: Waiter ensures Places(t, w) == Tally(w < t.issued) {
      assert Places(s, w) == Tally(w < s.issued);
    }
  }

  lemma EndSendConserves(v: Flavour, s: State, ok: bool, t: State)
    requires Conserved(s) && t == EndSend(v, s, ok)
    ensures Conserved(t)
  {
    var u := s.(snd := SEnded(ok), queue := [], dropped := s.dropped + Queued(s) + Held(s));
    forall w: Waiter ensures Places(u, w) == Tally(w < u.issued) {
      assert Places(s, w) == Tally(w < s.issued);
    }
    CloseConserves(u, Close(u));
  }

  /** A withdrawal takes the registration under the id of the failed request out of the map and
      drops its waiter, with those still queued; unless the session ends with it, every other
      waiter stays registered. */
  lemma WithdrawConserves(v: Flavour, s: State, t: State)
    requires Conserved(s) && s.snd.SWithdrawing? && t == Withdraw(v, s)
    ensures Conserved(t)
    ensures var gone := Replaced(s, s.snd.r.m.id);
            && s.snd.r.m.id !in t.pending && gone !! Waiting(t) && gone <= t.dropped && Queued(s) <= t.dropped
            && Waiting(t) == (if Over(t) then {} else Waiting(s) - gone) && Replied(t) == Replied(s)
  {
    var u := Unregister(s);
    RemoveWaiting(s, u, s.snd.r.m.id);
    forall w: Waiter ensures Places(u, w) == Tally(w < u.issued) {
      assert Places(s, w) == Tally(w < s.issued);
    }
    EndSendConserves(v, u, false, t);
  }

  lemma TakeConserves(s: State, t: State)
    requires Conserved(s) && s.rcv.RTaking? && t == Take(s)
    ensures Conserved(t)
  {
    RemoveWaiting(s, t, s.rcv.m.id);
    forall w: Waiter ensures Places(t, w) == Tally(w < t.issued) {
      assert Places(s, w) == Tally(w < s.issued);
    }
  }

  lemma DeliverConserves(s: State, t: State)
    requires Conserved(s) && s.rcv.RDelivering? && t == Deliver(s)
    ensures Conserved(t)
  {
    assert Replied(t) == Replied(s) + Delivering(s) by {
      assert t.replies[|s.replies|] == s.rcv.reply;
      forall r | r in s.replies ensures r in t.replies { }
    }
    assert Places(s, s.rcv.reply.w) == Tally(s.rcv.reply.w < s.issued);
    forall i | 0 <= i < |s.replies| ensures s.replies[i].w != s.rcv.reply.w {
      assert s.replies[i] in s.replies;
    }
    forall w: Waiter ensures Places(t, w) == Tally(w < t.issued) {
      assert Places(s, w) == Tally(w < s.issued);
    }
  }

  lemma AcceptConserves(v: Flavour, s: State, m: Message, t: State)
    requires Conserved(s) && t == Accept(v, s, m)
    ensures Conserved(t)
  {
    assert Places(s, s.issued) == 0;
    forall i | 0 <= i < |s.queue| ensures s.queue[i].w != s.issued {
      assert s.queue[i] in s.queue;
    }
    if t.queue != s.queue {
      assert Queued(t) == Queued(s) + {s.issued} by {
        assert t.queue[|s.queue|].w == s.issued;
        forall r | r in s.queue ensures r in t.queue { }
      }
    }
    forall w: Waiter ensures Places(t, w) == Tally(w < t.issued) {
      assert Places(s, w) == Tally(w < s.issued);
    }
  }

  // Steps that move no waiter.
  lemma StaysConserved(s: State, t: State)
    requires Conserved(s) && t.queue == s.queue && t.pending == s.pending && t.replies == s.replies
    requires t.dropped == s.dropped && t.issued == s.issued && Held(t) == Held(s) && Delivering(t) == Delivering(s)
    ensures Conserved(t)
  {
    forall w: Waiter ensures Places(t, w) == Tally(w < t.issued) {
      assert Places(s, w) == Tally(w < s.issued);
    }
  }

  lemma SendConserves(v: Flavour, s: State, t: State)
    requires Conserved(s) && t == SendStep(v, s)
    ensures Conserved(t)
  {
    match s.snd {
      case SWaiting =>
        if s.queue != [] {
          PopConserves(s, Pop(s));
          RegisterConserves(Pop(s), Register(Pop(s)));
        } else {
          EndSendConserves(v, s, true, EndSend(v, s, true));
        }
      case SHolding(_) => RegisterConserves(s, t);
      case SWriting(_, _) =>
        var u := Write(v, s);
        StaysConserved(s, u);
        if u.snd.SWithdrawing? { WithdrawConserves(v, u, Withdraw(v, u)); }
      case SWithdrawing(_) => WithdrawConserves(v, s, t);
      case SEnded(_) =>
    }
  }

  lemma EndRecvConserves(v: Flavour, s: State, t: State)
    requires Conserved(s) && s.rcv.RReading? && t == EndRecv(v, s)
    ensures Conserved(t)
  {
    var u := s.(rcv := REnded);
    StaysConserved(s, u);
    CloseConserves(u, Close(u));
  }

  lemma RecvConserves(v: Flavour, s: State, t: State)
    requires Conserved(s) && t == RecvStep(v, s)
    ensures Conserved(t)
  {
    match s.rcv {
      case RReading =>
        var u := Read(v, s);
        if u.rcv.RTaking? {
          StaysConserved(s, u);
          TakeConserves(u, Take(u));
          if Take(u).rcv.RDelivering? { DeliverConserves(Take(u), Deliver(Take(u))); }
        } else {
          EndRecvConserves(v, s, u);
        }
      case RTaking(_) => TakeConserves(s, t);
      case RDelivering(_) => DeliverConserves(s, t);
      case REnded =>
    }
  }

  lemma StepConserves(v: Flavour, s: State, a: Action)
    requires Conserved(s)
    ensures Conserved(Step(v, s, a))
  {
    match a {
      case Submit(m) => AcceptConserves(v, s, m, Accept(v, s, m));
      case HangUp => StaysConserved(s, s.(hungUp := true));
      case Flush(n) => StaysConserved(s, Step(v, s, a));
      case StepSend => SendConserves(v, s, SendStep(v, s));
      case StepRecv => RecvConserves(v, s, RecvStep(v, s));
    }
  }

  /** In every run each waiter handed in is in exactly one place: queued, held by the sending
      loop, registered under one id, being completed, completed once, or dropped. */
  lemma {:induction false} WaitersConserved(v: Flavour, room: nat, peer: seq<Byte>, acts: seq<Action>)
    ensures Conserved(Run(v, Initial(room, peer), acts))
  {
    if acts == [] {
      forall w: Waiter ensures Places(Initial(room, peer), w) == 0 { }
    } else {
      var n := |acts| - 1;
      WaitersConserved(v, room, peer, acts[..n]);
      StepConserves(v, Run(v, Initial(room, peer), acts[..n]), acts[n]);
    }
  }

  // ----- a request that could not be written

  // The waiter of the request being written is registered under no other id than its own.
  predicate OneId(s: State) {
    (s.snd.SWriting? || s.snd.SWithdrawing?) ==>
      s.snd.r.w < s.issued && forall id :: id in s.pending && s.pending[id] == s.snd.r.w ==> id == s.snd.r.m.id
  }

  lemma RegisterOneId(s: State, t: State)
    requires Conserved(s) && s.snd.SHolding? && t == Register(s)
    ensures OneId(t)
  {
    var w := s.snd.r.w;
    assert Places(s, w) == Tally(w < s.issued) && w in Held(s);
    forall id | id in s.pending ensures s.pending[id] != w {
      assert s.pending[id] in Waiting(s);
    }
  }

  lemma SendOneId(v: Flavour, s: State, t: State)
    requires Conserved(s) && OneId(s) && t == SendStep(v, s)
    ensures OneId(t)
  {
    match s.snd {
      case SWaiting =>
        if s.queue != [] && v.Async? {
          PopConserves(s, Pop(s));
          RegisterOneId(Pop(s), t);
        }
      case SHolding(_) => RegisterOneId(s, t);
      case _ =>
    }
  }

  lemma RecvOneId(v: Flavour, s: State, t: State)
    requires OneId(s) && t == RecvStep(v, s)
    ensures OneId(t)
  {
    match s.rcv {
      case RReading =>
        var u := Read(v, s);
        if u.rcv.RTaking? { assert OneId(Take(u)); }
      case _ =>
    }
  }

  lemma {:induction false} AlwaysOneId(v: Flavour, room: nat, peer: seq<Byte>, acts: seq<Action>)
    ensures OneId(Run(v, Initial(room, peer), acts))
  {
    if acts != [] {
      var n := |acts| - 1;
      AlwaysOneId(v, room, peer, acts[..n]);
      WaitersConserved(v, room, peer, acts[..n]);
      var s := Run(v, Initial(room, peer), acts[..n]);
      match acts[n] {
        case StepSend => SendOneId(v, s, SendStep(v, s));
        case StepRecv => RecvOneId(v, s, RecvStep(v, s));
        case _ =>
      }
    }
  }

  lemma WithdrawLeavesNobody(v: Flavour, s: State, t: State)
    requires Conserved(s) && OneId(s) && s.snd.SWithdrawing? && t == Withdraw(v, s)
    ensures var w := s.snd.r.w;
            && w !in Waiting(t) && (w in Waiting(s) ==> w in t.dropped)
            && Tally(w in t.dropped) + Tally(w in Delivering(t)) + Tally(w in Replied(t)) == 1
  {
    WithdrawConserves(v, s, t);
    var w := s.snd.r.w;
    if w in Waiting(s) {
      var id :| id in s.pending && s.pending[id] == w;
      assert w in Replaced(s, s.snd.r.m.id);
    }
    assert Places(t, w) == 1;
  }

  /** No requester is left behind by a write that failed: once the sending loop has returned with
      the error, the waiter of the request is not registered under any id. It was dropped if
      it still was, and otherwise has been or is being completed by a frame that came first,
      or had been dropped before - in every run of either flavour, also when the receiving
      loop goes on. */
  lemma {:induction false} FailedWriteIsWithdrawn(v: Flavour, room: nat, peer: seq<Byte>, acts: seq<Action>)
    requires var s := Run(v, Initial(room, peer), acts);
             (s.snd.SWriting? || s.snd.SWithdrawing?) && SendStep(v, s).snd.SEnded?
    ensures var s := Run(v, Initial(room, peer), acts);
            var t := SendStep(v, s);
            var w := s.snd.r.w;
            && w !in Waiting(t) && (w in Waiting(s) ==> w in t.dropped)
            && Tally(w in t.dropped) + Tally(w in Delivering(t)) + Tally(w in Replied(t)) == 1
  {
    var s := Run(v, Initial(room, peer), acts);
    WaitersConserved(v, room, peer, acts);
    AlwaysOneId(v, room, peer, acts);
    if s.snd.SWriting? {
      var u := Write(v, s);
      StaysConserved(s, u);
      assert Waiting(u) == Waiting(s) && OneId(u);
      WithdrawLeavesNobody(v, u, Withdraw(v, u));
    } else {
      WithdrawLeavesNobody(v, s, Withdraw(v, s));
    }
  }
}
