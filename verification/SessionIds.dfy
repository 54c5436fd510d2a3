/** Message ids: a registration is lost to a later one exactly when the id is still taken,
    which never happens when requests are handed in under ids that are not in flight - and
    ids drawn from the global counter are not, exactly as long as no draw is a multiple of
    2^32 away from one in flight. */
module SessionIds {
  import opened Octets
  import opened Codec
  import opened Session
  import opened SessionSafety
  import opened SessionRouting

  // ----- what a registration overwrites

  // The request the next step of the sending loop registers, if it registers one.
  function Registering(v: Flavour, s: State): seq<Request> {
    if s.snd.SHolding? then [s.snd.r]
    else if s.snd.SWaiting? && s.queue != [] && v.Async? then [s.queue[0]]
    else []
  }

  predicate Evicts(v: Flavour, s: State) {
    exists w :: w in Waiting(s) && w in SendStep(v, s).dropped
  }

  /** As long as the sending loop has not failed, a step of it drops a waiting requester
      exactly when it registers a request under an id that is already registered. */
  lemma {:induction false} EvictionExactly(v: Flavour, room: nat, peer: seq<Byte>, acts: seq<Action>)
    requires var s := Run(v, Initial(room, peer), acts); !s.snd.SEnded? && !SendStep(v, s).snd.SEnded?
    ensures var s := Run(v, Initial(room, peer), acts);
            Evicts(v, s) <==> Registering(v, s) != [] && Registering(v, s)[0].m.id in s.pending
  {
    var s := Run(v, Initial(room, peer), acts);
    WaitersConserved(v, room, peer, acts);
    if Registering(v, s) != [] && Registering(v, s)[0].m.id in s.pending {
      var w := s.pending[Registering(v, s)[0].m.id];
      assert w in Waiting(s) && w in SendStep(v, s).dropped;
    }
    if Evicts(v, s) {
      var w :| w in Waiting(s) && w in SendStep(v, s).dropped;
      assert Places(s, w) <= 1;
    }
  }

  /** A write that fails never takes away a registration that is not its own. */
  lemma {:induction false} WithdrawsOnlyItsOwn(v: Flavour, room: nat, peer: seq<Byte>, acts: seq<Action>)
    ensures var s := Run(v, Initial(room, peer), acts);
            (s.snd.SWriting? || s.snd.SWithdrawing?) && s.snd.r.m.id in s.pending ==>
              s.pending[s.snd.r.m.id] == s.snd.r.w
  {
    AlwaysLinked(v, room, peer, acts);
  }

  // ----- fresh ids

  // The request of waiter `w` under `id` is queued, held or registered.
  predicate InFlight(s: State, id: U32, w: Waiter) {
    || (exists k :: 0 <= k < |s.queue| && s.queue[k].m.id == id && s.queue[k].w == w)
    || (s.snd.SHolding? && s.snd.r.m.id == id && s.snd.r.w == w)
    || (id in s.pending && s.pending[id] == w)
  }

  ghost predicate Fresh(s: State, id: U32) { forall w: Waiter :: !InFlight(s, id, w) }

  // `t` carries on with requests of `s`.
  ghost predicate Continues(s: State, t: State) {
    s.issued == t.issued && forall id: U32, w: Waiter :: InFlight(t, id, w) ==> InFlight(s, id, w)
  }

  lemma RegisterContinues(s: State)
    requires s.snd.SHolding?
    ensures Continues(s, Register(s))
  {
  }

  lemma PopContinues(s: State)
    requires s.queue != [] && s.snd.SWaiting?
    ensures Continues(s, Pop(s))
  {
    assert InFlight(s, s.queue[0].m.id, s.queue[0].w);
  }

  lemma WithdrawContinues(v: Flavour, s: State)
    requires s.snd.SWithdrawing?
    ensures Continues(s, Withdraw(v, s))
  {
  }

  lemma SendContinues(v: Flavour, s: State)
    ensures Continues(s, SendStep(v, s))
  {
    match s.snd {
      case SWaiting =>
        if s.queue != [] {
          PopContinues(s);
          RegisterContinues(Pop(s));
        }
      case SHolding(_) => RegisterContinues(s);
      case SWriting(_, _) =>
        var u := Write(v, s);
        if u.snd.SWithdrawing? { WithdrawContinues(v, u); }
      case SWithdrawing(_) => WithdrawContinues(v, s);
      case SEnded(_) =>
    }
  }

  lemma RecvContinues(v: Flavour, s: State)
    ensures Continues(s, RecvStep(v, s))
  {
    match s.rcv {
      case RReading => if v.Async? { } else { }
      case _ =>
    }
  }

  lemma AcceptContinues(v: Flavour, s: State, m: Message)
    ensures var t := Accept(v, s, m);
            (if Admits(v, s) then t.issued == s.issued + 1 else t == s) &&
            forall id: U32, w: Waiter :: InFlight(t, id, w) ==>
              InFlight(s, id, w) || (Admits(v, s) && id == m.id && w == s.issued)
  {
  }

  // A request that is handed in now is taken.
  predicate Admits(v: Flavour, s: State) {
    !s.hungUp && !(v.Async? && !s.snd.SEnded? && |s.queue| >= CAPACITY)
  }

  // Every request that is taken comes under an id that is not in flight.
  ghost predicate FreshRun(v: Flavour, s: State, acts: seq<Action>) {
    acts == [] ||
    var n := |acts| - 1;
    FreshRun(v, s, acts[..n]) &&
    (acts[n].Submit? && Admits(v, Run(v, s, acts[..n])) ==> Fresh(Run(v, s, acts[..n]), acts[n].m.id))
  }

  ghost predicate Distinct(s: State) {
    forall id: U32, w0: Waiter, w1: Waiter :: InFlight(s, id, w0) && InFlight(s, id, w1) ==> w0 == w1
  }

  lemma StepDistinct(v: Flavour, s: State, a: Action, t: State)
    requires Distinct(s) && (a.Submit? && Admits(v, s) ==> Fresh(s, a.m.id)) && t == Step(v, s, a)
    ensures Distinct(t)
  {
    match a {
      case Submit(m) => AcceptContinues(v, s, m);
      case HangUp => assert Continues(s, t);
      case Flush(_) => assert Continues(s, t);
      case StepSend => SendContinues(v, s);
      case StepRecv => RecvContinues(v, s);
    }
  }

  lemma {:induction false} AlwaysDistinct(v: Flavour, room: nat, peer: seq<Byte>, acts: seq<Action>)
    requires FreshRun(v, Initial(room, peer), acts)
    ensures Distinct(Run(v, Initial(room, peer), acts))
  {
    if acts != [] {
      var n := |acts| - 1;
      AlwaysDistinct(v, room, peer, acts[..n]);
      var s := Run(v, Initial(room, peer), acts[..n]);
      StepDistinct(v, s, acts[n], Step(v, s, acts[n]));
    }
  }

  lemma RegistersFresh(v: Flavour, s: State)
    requires Distinct(s) && Conserved(s) && Registering(v, s) != []
    ensures Registering(v, s)[0].m.id !in s.pending
  {
    var r := Registering(v, s)[0];
    assert Places(s, r.w) <= 1 && InFlight(s, r.m.id, r.w);
    forall id | id in s.pending ensures InFlight(s, id, s.pending[id]) && s.pending[id] in Waiting(s) { }
  }

  /** With ids that are fresh when handed in, no registration is ever overwritten. */
  lemma {:induction false} NoEviction(v: Flavour, room: nat, peer: seq<Byte>, acts: seq<Action>)
    requires FreshRun(v, Initial(room, peer), acts)
    requires var s := Run(v, Initial(room, peer), acts); !s.snd.SEnded? && !SendStep(v, s).snd.SEnded?
    ensures !Evicts(v, Run(v, Initial(room, peer), acts))
  {
    AlwaysDistinct(v, room, peer, acts);
    EvictionExactly(v, room, peer, acts);
    WaitersConserved(v, room, peer, acts);
    if Registering(v, Run(v, Initial(room, peer), acts)) != [] {
      RegistersFresh(v, Run(v, Initial(room, peer), acts));
    }
  }

  // Two requests under one id, the first one written and the second one being written.
  function Clashing(room: nat, m0: Message, m1: Message, peer: seq<Byte>): State {
    Initial(room, peer).(issued := 2, snd := SWriting(Request(m1, 1), 0), pending := map[m1.id := 1],
                         out := Sent(room, [], m0), dropped := {0},
                         log := [Registered(Request(m0, 0))] + [Registered(Request(m1, 1))])
  }

  lemma ClashReached(room: nat, m0: Message, m1: Message, peer: seq<Byte>)
    requires m0.id == m1.id && Sendable(m0) && Fits(room, [], Encode(m0))
    ensures Run(Async, Initial(room, peer), [Submit(m0)] + [Submit(m1)] + [StepSend] + [StepSend] + [StepSend])
            == Clashing(room, m0, m1, peer)
  {
    var s := Initial(room, peer);
    RunThen(Async, s, [], Submit(m0));
    assert [] + [Submit(m0)] == [Submit(m0)];
    RunThen(Async, s, [Submit(m0)], Submit(m1));
    RunThen(Async, s, [Submit(m0)] + [Submit(m1)], StepSend);
    RunThen(Async, s, [Submit(m0)] + [Submit(m1)] + [StepSend], StepSend);
    RunThen(Async, s, [Submit(m0)] + [Submit(m1)] + [StepSend] + [StepSend], StepSend);
    assert [Request(m0, 0)] + [Request(m1, 1)] == [Request(m0, 0), Request(m1, 1)];
  }

  /** Without that, the reply to the first of two requests reaches the second one, and the
      first requester is told that its sender is gone: for any two requests under one id and
      any reply under that id. */
  lemma Misrouted(room: nat, m0: Message, m1: Message, reply: Message)
    requires m0.id == m1.id == reply.id && Sendable(m0) && Sendable(reply)
    requires Fits(room, [], Encode(m0))
    ensures var s := Run(Async, Initial(room, Encode(reply)),
                         [Submit(m0)] + [Submit(m1)] + [StepSend] + [StepSend] + [StepSend] + [StepRecv]);
            s.replies == [Reply(1, reply.bytes)] && 0 in s.dropped
  {
    var peer := Encode(reply);
    RunThen(Async, Initial(room, peer), [Submit(m0)] + [Submit(m1)] + [StepSend] + [StepSend] + [StepSend], StepRecv);
    ClashReached(room, m0, m1, peer);
    assert peer == Encode(reply) + [];
    DecodeInvertsEncode(peer, reply, []);
  }

  // ----- ids from the global counter

  // The k-th number drawn from an atomic counter that starts at 1 and wraps around.
  function MessageId(k: nat): U32 { (1 + k) % 0x1_0000_0000 }

  /** The first number drawn is 1, each is one more than the one before, and 0 follows the
      largest. */
  lemma DrawsCount(k: nat)
    ensures MessageId(0) == 1
    ensures MessageId(k + 1) == if MessageId(k) == 0xFFFF_FFFF then 0 else MessageId(k) + 1
  {
  }

  lemma IdsRecur(j: nat, k: nat)
    ensures MessageId(j) == MessageId(k) <==> (j - k) % 0x1_0000_0000 == 0
  {
    assert (1 + j) - (1 + k) == j - k;
  }

  // The id of the request of waiter `w` is the `d(w)`-th number drawn. Requesters of all
  // sessions draw from the same counter, and hand in their requests in any order.
  predicate DrawnRun(v: Flavour, s: State, acts: seq<Action>, d: Waiter -> nat) {
    acts == [] ||
    var n := |acts| - 1;
    var t := Run(v, s, acts[..n]);
    DrawnRun(v, s, acts[..n], d) &&
    (acts[n].Submit? && Admits(v, t) ==> acts[n].m.id == MessageId(d(t.issued)))
  }

  ghost predicate Drawn(s: State, d: Waiter -> nat) {
    forall id: U32, w: Waiter :: InFlight(s, id, w) ==> w < s.issued && id == MessageId(d(w))
  }

  lemma StepDrawn(v: Flavour, s: State, a: Action, d: Waiter -> nat, t: State)
    requires Drawn(s, d) && t == Step(v, s, a)
    requires a.Submit? && Admits(v, s) ==> a.m.id == MessageId(d(s.issued))
    ensures Drawn(t, d)
  {
    match a {
      case Submit(m) => AcceptContinues(v, s, m);
      case HangUp => assert Continues(s, t);
      case Flush(_) => assert Continues(s, t);
      case StepSend => SendContinues(v, s);
      case StepRecv => RecvContinues(v, s);
    }
  }

  // No request in flight was drawn a multiple of 2^32 away from the k-th draw.
  ghost predicate Apart(s: State, d: Waiter -> nat, k: nat) {
    forall id: U32, w: Waiter :: InFlight(s, id, w) ==> (d(w) - k) % 0x1_0000_0000 != 0
  }

  lemma FreshIffApart(s: State, d: Waiter -> nat, k: nat)
    requires Drawn(s, d)
    ensures Fresh(s, MessageId(k)) <==> Apart(s, d, k)
  {
    forall w: Waiter ensures MessageId(d(w)) == MessageId(k) <==> (d(w) - k) % 0x1_0000_0000 == 0 {
      IdsRecur(d(w), k);
    }
    if !Apart(s, d, k) {
      var id: U32, w: Waiter :| InFlight(s, id, w) && (d(w) - k) % 0x1_0000_0000 == 0;
      assert InFlight(s, MessageId(k), w);
    }
  }

  ghost predicate ApartRun(v: Flavour, s: State, acts: seq<Action>, d: Waiter -> nat) {
    acts == [] ||
    var n := |acts| - 1;
    var t := Run(v, s, acts[..n]);
    ApartRun(v, s, acts[..n], d) && (acts[n].Submit? && Admits(v, t) ==> Apart(t, d, d(t.issued)))
  }

  /** Counted ids, whatever other sessions draw and in whatever order requests are handed in,
      and however many there have been, are fresh exactly as long as no request is handed in
      whose draw is a multiple of 2^32 away from that of a request in flight. */
  lemma {:induction false} DrawnIsFresh(v: Flavour, room: nat, peer: seq<Byte>, acts: seq<Action>, d: Waiter -> nat)
    requires DrawnRun(v, Initial(room, peer), acts, d)
    ensures Drawn(Run(v, Initial(room, peer), acts), d)
    ensures FreshRun(v, Initial(room, peer), acts) <==> ApartRun(v, Initial(room, peer), acts, d)
  {
    if acts != [] {
      var n := |acts| - 1;
      var s := Run(v, Initial(room, peer), acts[..n]);
      DrawnIsFresh(v, room, peer, acts[..n], d);
      StepDrawn(v, s, acts[n], d, Step(v, s, acts[n]));
      FreshIffApart(s, d, d(s.issued));
    }
  }

  // Every request in flight has a draw of its own, less than 2^32 away from the k-th one.
  ghost predicate Near(s: State, d: Waiter -> nat, k: nat) {
    forall id: U32, w: Waiter :: InFlight(s, id, w) ==> d(w) != k && -0x1_0000_0000 < d(w) - k < 0x1_0000_0000
  }

  ghost predicate NearRun(v: Flavour, s: State, acts: seq<Action>, d: Waiter -> nat) {
    acts == [] ||
    var n := |acts| - 1;
    var t := Run(v, s, acts[..n]);
    NearRun(v, s, acts[..n], d) && (acts[n].Submit? && Admits(v, t) ==> Near(t, d, d(t.issued)))
  }

  lemma NearIsApart(s: State, d: Waiter -> nat, k: nat)
    requires Near(s, d, k)
    ensures Apart(s, d, k)
  {
    forall id: U32, w: Waiter | InFlight(s, id, w) ensures (d(w) - k) % 0x1_0000_0000 != 0 {
      assert d(w) - k != 0;
    }
  }

  /** Distinct draws are enough when those in flight span less than 2^32 of them: no matter
      how many requests the run has, no registration is then ever overwritten. */
  lemma {:induction false} NearIsFresh(v: Flavour, room: nat, peer: seq<Byte>, acts: seq<Action>, d: Waiter -> nat)
    requires DrawnRun(v, Initial(room, peer), acts, d) && NearRun(v, Initial(room, peer), acts, d)
    ensures ApartRun(v, Initial(room, peer), acts, d) && FreshRun(v, Initial(room, peer), acts)
  {
    DrawnIsFresh(v, room, peer, acts, d);
    if acts != [] {
      var n := |acts| - 1;
      var t := Run(v, Initial(room, peer), acts[..n]);
      NearIsFresh(v, room, peer, acts[..n], d);
      if acts[n].Submit? && Admits(v, t) { NearIsApart(t, d, d(t.issued)); }
    }
  }

  lemma IssuedGrows(v: Flavour, s: State, a: Action)
    ensures s.issued <= Step(v, s, a).issued
  {
    match a {
      case StepSend => SendContinues(v, s);
      case StepRecv => RecvContinues(v, s);
      case _ =>
    }
  }

  /** In particular when one session draws for its requests in the order they are handed in,
      for its first 2^32 requests. */
  lemma {:induction false} CountedIsFresh(v: Flavour, room: nat, peer: seq<Byte>, acts: seq<Action>)
    requires DrawnRun(v, Initial(room, peer), acts, w => w)
    requires Run(v, Initial(room, peer), acts).issued < 0x1_0000_0000
    ensures FreshRun(v, Initial(room, peer), acts)
  {
    CountedIsNear(v, room, peer, acts, w => w);
    NearIsFresh(v, room, peer, acts, w => w);
  }

  lemma {:induction false} CountedIsNear(v: Flavour, room: nat, peer: seq<Byte>, acts: seq<Action>, d: Waiter -> nat)
    requires DrawnRun(v, Initial(room, peer), acts, d) && forall w :: d(w) == w
    requires Run(v, Initial(room, peer), acts).issued < 0x1_0000_0000
    ensures NearRun(v, Initial(room, peer), acts, d)
  {
    if acts != [] {
      var n := |acts| - 1;
      var s := Run(v, Initial(room, peer), acts[..n]);
      IssuedGrows(v, s, acts[n]);
      CountedIsNear(v, room, peer, acts[..n], d);
      DrawnIsFresh(v, room, peer, acts[..n], d);
      assert Near(s, d, d(s.issued));
    }
  }
}
