/** What the log of a session has to do with the two byte streams: the arrivals are the
    frames of the incoming one, and the peer reads the registered requests off the outgoing
    one, whenever and however the connection breaks. */
module SessionStreams {
  import opened Wrappers
  import opened Octets
  import opened Codec
  import opened Session
  import opened SessionRouting

  // ----- incoming

  function Taken(s: State): seq<Message> { if s.rcv.RTaking? then [s.rcv.m] else [] }

  predicate InputOk(s: State, peer: seq<Byte>) {
    DecodeAll(peer) == Reading(Frames(s.log) + Taken(s) + DecodeAll(s.inp).ms, DecodeAll(s.inp).end)
  }

  // Taking the first of what is still to come.
  lemma TakeFirst<T>(xs: seq<T>, y: T, zs: seq<T>)
    ensures xs + [] + ([y] + zs) == xs + [y] + zs
  {
  }

  lemma FrameKeepsInput(s: State, f: Frame, t: State, peer: seq<Byte>)
    requires InputOk(s, peer) && s.rcv.RReading? && Decode(s.inp) == Ok(f)
    requires t.log == s.log && t.inp == f.rest && t.rcv == RTaking(f.m)
    ensures InputOk(t, peer)
  {
    TakeFirst(Frames(s.log), f.m, DecodeAll(f.rest).ms);
  }

  lemma ReadKeepsInput(v: Flavour, s: State, t: State, peer: seq<Byte>)
    requires InputOk(s, peer) && s.rcv.RReading? && t == Read(v, s)
    ensures InputOk(t, peer)
  {
    match Decode(s.inp) {
      case Ok(f) => FrameKeepsInput(s, f, t, peer);
      case Err(_) => SameInput(s, t, peer);
    }
  }

  lemma TakeKeepsInput(s: State, t: State, peer: seq<Byte>)
    requires InputOk(s, peer) && s.rcv.RTaking? && t == Take(s)
    ensures InputOk(t, peer)
  {
    assert t.log[..|s.log|] == s.log;
    var fs := Frames(s.log) + [s.rcv.m];
    assert fs + [] == fs;
  }

  lemma SameInput(s: State, t: State, peer: seq<Byte>)
    requires InputOk(s, peer) && t.inp == s.inp && Taken(t) == Taken(s)
    requires t.log == s.log || (s.log <= t.log && |t.log| == |s.log| + 1 && !t.log[|s.log|].Arrived?)
    ensures InputOk(t, peer)
  {
    if t.log != s.log { assert t.log[..|t.log| - 1] == s.log; }
    assert Frames(s.log) + [] == Frames(s.log);
  }

  lemma RecvKeepsInput(v: Flavour, s: State, t: State, peer: seq<Byte>)
    requires InputOk(s, peer) && t == RecvStep(v, s)
    ensures InputOk(t, peer)
  {
    match s.rcv {
      case RReading =>
        var u := Read(v, s);
        ReadKeepsInput(v, s, u, peer);
        if v.Async? && u.rcv.RTaking? {
          TakeKeepsInput(u, Take(u), peer);
          if Take(u).rcv.RDelivering? { SameInput(Take(u), t, peer); }
        }
      case RTaking(_) => TakeKeepsInput(s, t, peer);
      case RDelivering(_) => SameInput(s, t, peer);
      case REnded =>
    }
  }

  lemma SendLeavesInput(v: Flavour, s: State, t: State)
    requires AtAwait(v, s) && t == SendStep(v, s)
    ensures t.inp == s.inp && Taken(t) == Taken(s)
    ensures t.log == s.log || (s.log <= t.log && |t.log| == |s.log| + 1 && !t.log[|s.log|].Arrived?)
  {
    match s.snd {
      case SWaiting => if v.Async? { } else { }
      case SHolding(_) =>
      case SWriting(_, _) => if v.Async? { } else { }
      case SWithdrawing(_) =>
      case SEnded(_) =>
    }
  }

  lemma SendKeepsInput(v: Flavour, s: State, t: State, peer: seq<Byte>)
    requires InputOk(s, peer) && AtAwait(v, s) && t == SendStep(v, s)
    ensures InputOk(t, peer)
  {
    SendLeavesInput(v, s, t);
    SameInput(s, t, peer);
  }

  lemma StepKeepsInput(v: Flavour, s: State, a: Action, peer: seq<Byte>)
    requires InputOk(s, peer) && AtAwait(v, s)
    ensures InputOk(Step(v, s, a), peer)
  {
    match a {
      case Submit(m) => SameInput(s, Accept(v, s, m), peer);
      case HangUp => SameInput(s, s.(hungUp := true), peer);
      case Flush(k) => SameInput(s, Step(v, s, a), peer);
      case StepSend => SendKeepsInput(v, s, SendStep(v, s), peer);
      case StepRecv => RecvKeepsInput(v, s, RecvStep(v, s), peer);
    }
  }

  /** The arrivals noted are the frames the peer sent, in order and without a gap: together
      with what is still unread they are what any reader gets out of the whole stream. */
  lemma {:induction false} FramesInOrder(v: Flavour, room: nat, peer: seq<Byte>, acts: seq<Action>)
    ensures InputOk(Run(v, Initial(room, peer), acts), peer)
  {
    if acts == [] {
      var s := Initial(room, peer);
      assert Frames(s.log) + Taken(s) + DecodeAll(peer).ms == DecodeAll(peer).ms;
    } else {
      var n := |acts| - 1;
      FramesInOrder(v, room, peer, acts[..n]);
      AlwaysLinked(v, room, peer, acts[..n]);
      StepKeepsInput(v, Run(v, Initial(room, peer), acts[..n]), acts[n], peer);
    }
  }

  // ----- outgoing

  // The connection holds the frames of `ms` and perhaps the beginning of another one.
  predicate Carries(out: seq<Byte>, ms: seq<Message>) {
    DecodeAll(out) == Reading(ms, UnexpectedEof)
  }

  predicate Wrote(out: seq<Byte>, ms: seq<Message>) {
    (forall m :: m in ms ==> Sendable(m)) && out == EncodeAll(ms)
  }

  lemma WroteCarries(out: seq<Byte>, ms: seq<Message>)
    requires Wrote(out, ms)
    ensures Carries(out, ms)
  {
    assert out[..|out|] == out && ms[..|ms|] == ms;
    StreamRoundTrip(ms, |out|);
  }

  // The first `k` bytes that a writer has for `m`, after the frames of `ms`.
  predicate Partly(v: Flavour, out: seq<Byte>, ms: seq<Message>, m: Message, k: nat) {
    && (forall x :: x in ms ==> Sendable(x))
    && k <= |Bytes(v, m)| && out == EncodeAll(ms) + Bytes(v, m)[..k]
  }

  // Short of the whole frame they are not read as one.
  lemma PartCarries(v: Flavour, out: seq<Byte>, ms: seq<Message>, m: Message, k: nat)
    requires Partly(v, out, ms, m, k) && (Sendable(m) ==> k < |Encode(m)|)
    ensures Carries(out, ms)
  {
    var part := Bytes(v, m)[..k];
    if Sendable(m) {
      TruncatedFrame(m, k);
    } else {
      assert |part| <= 5 && (|part| == 5 ==> part == Prelude(m));
    }
    assert Decode(part) == Err(UnexpectedEof);
    DecodeFrames(ms, part, out);
  }

  lemma WholeWrote(v: Flavour, out: seq<Byte>, ms: seq<Message>, m: Message)
    requires Sendable(m) && Partly(v, out, ms, m, |Encode(m)|)
    ensures Wrote(out, ms + [m])
  {
    assert Bytes(v, m)[..|Encode(m)|] == Encode(m);
    EncodeAllSnoc(ms, m);
  }

  lemma PieceByPiece<T>(xs: seq<T>, ys: seq<T>, k: nat, n: nat)
    requires k + n <= |ys|
    ensures xs + ys[..k] + ys[k..][..n] == xs + ys[..k + n]
  {
    assert ys[k..][..n] == ys[k..k + n];
    assert ys[..k] + ys[k..k + n] == ys[..k + n];
  }

  // A connection that holds some of the bytes takes some more.
  lemma PartGrows(v: Flavour, out: seq<Byte>, ms: seq<Message>, m: Message, k: nat, n: nat)
    requires Partly(v, out, ms, m, k) && k + n <= |Bytes(v, m)|
    ensures Partly(v, out + Bytes(v, m)[k..][..n], ms, m, k + n)
  {
    PieceByPiece(EncodeAll(ms), Bytes(v, m), k, n);
  }

  // All requests but the last, which is not written yet or could not be.
  function Earlier(s: State): seq<Message> {
    var rs := Requests(s.log);
    if rs == [] then [] else rs[..|rs| - 1]
  }

  predicate OutputOk(v: Flavour, s: State) {
    var rs := Requests(s.log);
    && |s.out| <= s.room
    && (s.snd.SWaiting? || s.snd.SHolding? ==> Wrote(s.out, rs))
    && (s.snd.SWriting? ==> rs == Earlier(s) + [s.snd.r.m] && Partly(v, s.out, Earlier(s), s.snd.r.m, s.snd.done))
    && (s.snd.SWithdrawing? ==> Carries(s.out, Earlier(s)))
    && (s.snd.SEnded? ==> Carries(s.out, rs) || Carries(s.out, Earlier(s)))
  }

  lemma RegisterKeepsOutput(v: Flavour, s: State, t: State)
    requires OutputOk(v, s) && s.snd.SHolding? && t == Register(s)
    ensures OutputOk(v, t)
  {
    assert t.log[..|s.log|] == s.log;
    assert Earlier(t) == Requests(s.log);
    assert s.out + [] == s.out;
  }

  lemma FlushKeepsOutput(v: Flavour, s: State, n: nat, t: State)
    requires OutputOk(v, s) && CanFlush(v, s, n) && t == FlushSome(v, s, n)
    ensures OutputOk(v, t)
  {
    PartGrows(v, s.out, Earlier(s), s.snd.r.m, s.snd.done, n);
  }

  // The bytes that go out when the rest of a frame is written to a connection that may break.
  lemma RestTaken(v: Flavour, s: State, t: State) returns (n: nat)
    requires OutputOk(v, s) && s.snd.SWriting? && t == Write(v, s)
    ensures s.snd.done + n <= |Bytes(v, s.snd.r.m)|
    ensures |t.out| <= s.room && Partly(v, t.out, Earlier(s), s.snd.r.m, s.snd.done + n)
    ensures t.snd.SWaiting? <==> Sendable(s.snd.r.m) && s.snd.done + n == |Encode(s.snd.r.m)|
  {
    var rest := Unwritten(v, s);
    n := if Fits(s.room, s.out, rest) then |rest| else s.room - |s.out|;
    assert rest[..|rest|] == rest;
    assert t.out == s.out + rest[..n];
    PartGrows(v, s.out, Earlier(s), s.snd.r.m, s.snd.done, n);
  }

  lemma WriteKeepsOutput(v: Flavour, s: State, t: State)
    requires OutputOk(v, s) && s.snd.SWriting? && t == Write(v, s)
    ensures OutputOk(v, t)
  {
    var n := RestTaken(v, s, t);
    var m := s.snd.r.m;
    if t.snd.SWaiting? {
      WholeWrote(v, t.out, Earlier(s), m);
    } else {
      PartCarries(v, t.out, Earlier(s), m, s.snd.done + n);
    }
  }

  lemma WritingCarries(v: Flavour, s: State)
    requires OutputOk(v, s) && s.snd.SWriting?
    ensures Carries(s.out, Requests(s.log)) || Carries(s.out, Earlier(s))
  {
    var m := s.snd.r.m;
    if Sendable(m) && s.snd.done == |Encode(m)| {
      WholeWrote(v, s.out, Earlier(s), m);
      WroteCarries(s.out, Requests(s.log));
    } else {
      PartCarries(v, s.out, Earlier(s), m, s.snd.done);
    }
  }

  lemma CloseKeepsOutput(v: Flavour, s: State, t: State)
    requires OutputOk(v, s) && t.out == s.out && t.room == s.room && t.snd.SEnded?
    requires Requests(t.log) == Requests(s.log)
    ensures OutputOk(v, t)
  {
    if s.snd.SWaiting? || s.snd.SHolding? { WroteCarries(s.out, Requests(s.log)); }
    if s.snd.SWriting? { WritingCarries(v, s); }
  }

  lemma WithdrawKeepsOutput(v: Flavour, s: State, t: State)
    requires OutputOk(v, s) && s.snd.SWithdrawing? && t == Withdraw(v, s)
    ensures OutputOk(v, t)
  {
    assert t.log[..|s.log|] == s.log;
    CloseKeepsOutput(v, s, t);
  }

  lemma WaitingKeepsOutput(v: Flavour, s: State, t: State)
    requires OutputOk(v, s) && s.snd.SWaiting? && t == SendStep(v, s)
    ensures OutputOk(v, t)
  {
    if s.queue != [] {
      if v.Async? { RegisterKeepsOutput(v, Pop(s), t); }
    } else if s.hungUp {
      CloseKeepsOutput(v, s, t);
    }
  }

  lemma SendKeepsOutput(v: Flavour, s: State, t: State)
    requires OutputOk(v, s) && t == SendStep(v, s)
    ensures OutputOk(v, t)
  {
    match s.snd {
      case SWaiting => WaitingKeepsOutput(v, s, t);
      case SHolding(_) => RegisterKeepsOutput(v, s, t);
      case SWriting(_, _) =>
        var u := Write(v, s);
        WriteKeepsOutput(v, s, u);
        if v.Async? && u.snd.SWithdrawing? { WithdrawKeepsOutput(v, u, t); }
      case SWithdrawing(_) => WithdrawKeepsOutput(v, s, t);
      case SEnded(_) =>
    }
  }

  lemma TakeLeavesRequests(s: State)
    requires s.rcv.RTaking?
    ensures Requests(Take(s).log) == Requests(s.log)
  {
    assert Take(s).log[..|s.log|] == s.log;
  }

  lemma RecvLeavesOutput(v: Flavour, s: State, t: State)
    requires t == RecvStep(v, s)
    ensures t.out == s.out && t.room == s.room && Requests(t.log) == Requests(s.log)
    ensures t.snd == s.snd || t.snd.SEnded?
  {
    match s.rcv {
      case RReading =>
        var u := Read(v, s);
        if v.Async? && u.rcv.RTaking? { TakeLeavesRequests(u); }
      case RTaking(_) => TakeLeavesRequests(s);
      case RDelivering(_) =>
      case REnded =>
    }
  }

  lemma RecvKeepsOutput(v: Flavour, s: State, t: State)
    requires OutputOk(v, s) && t == RecvStep(v, s)
    ensures OutputOk(v, t)
  {
    RecvLeavesOutput(v, s, t);
    if t.snd.SEnded? { CloseKeepsOutput(v, s, t); }
  }

  lemma {:induction false} AlwaysOutput(v: Flavour, room: nat, peer: seq<Byte>, acts: seq<Action>)
    ensures OutputOk(v, Run(v, Initial(room, peer), acts))
  {
    if acts != [] {
      var n := |acts| - 1;
      AlwaysOutput(v, room, peer, acts[..n]);
      var s := Run(v, Initial(room, peer), acts[..n]);
      match acts[n] {
        case StepSend => SendKeepsOutput(v, s, SendStep(v, s));
        case StepRecv => RecvKeepsOutput(v, s, RecvStep(v, s));
        case Flush(k) => if CanFlush(v, s, k) { FlushKeepsOutput(v, s, k, FlushSome(v, s, k)); }
        case _ =>
      }
    }
  }

  /** At any moment the peer reads the requests in the order in which they were registered, all
      of them or all but the last, and never a message that was not sent: also while a frame
      is being written, when the connection broke in the middle of one, and when the sending
      half was cancelled between two pieces of it. */
  lemma {:induction false} PeerReadsRequests(v: Flavour, room: nat, peer: seq<Byte>, acts: seq<Action>)
    ensures var s := Run(v, Initial(room, peer), acts);
            Carries(s.out, Requests(s.log)) || Carries(s.out, Earlier(s))
    ensures var s := Run(v, Initial(room, peer), acts);
            s.snd.SWaiting? ==> Carries(s.out, Requests(s.log))
  {
    var s := Run(v, Initial(room, peer), acts);
    AlwaysOutput(v, room, peer, acts);
    if s.snd.SWaiting? || s.snd.SHolding? { WroteCarries(s.out, Requests(s.log)); }
    if s.snd.SWriting? { WritingCarries(v, s); }
  }
}
