/** The RPC session: requests are popped from a channel, registered in a map of waiting
    one-shot senders under their message id, and written to a connection; frames read from
    the connection complete the sender registered under their id. The two loops share the
    map. In the asynchronous session they are two halves of one task and switch only where
    the code awaits; in the blocking one they are two threads and switch anywhere. */
module Session {
  import opened Wrappers
  import opened Octets
  import opened Codec

  datatype Flavour = Async | Blocking

  // The sending half of the one-shot channel a requester waits on, numbered as issued.
  type Waiter = nat

  datatype Request = Request(m: Message, w: Waiter)

  datatype Reply = Reply(w: Waiter, bytes: seq<Byte>)

  datatype SendPc =
    | SWaiting                   // for the next request
    | SHolding(r: Request)       // popped, not yet registered
    | SWriting(r: Request, done: nat)  // registered; the connection has taken `done` bytes of its frame
    | SWithdrawing(r: Request)   // could not be written
    | SEnded(ok: bool)

  datatype RecvPc =
    | RReading
    | RTaking(m: Message)        // a frame was read
    | RDelivering(reply: Reply)  // its waiter was taken out of the map
    | REnded

  // What happened to the map, in order.
  datatype Note =
    | Registered(r: Request)
    | Withdrawn(id: U32)
    | Arrived(m: Message)

  datatype State = State(
    queue: seq<Request>,
    hungUp: bool,                // no requester holds the channel any more
    snd: SendPc,
    rcv: RecvPc,
    pending: map<U32, Waiter>,
    room: nat,                   // the connection breaks after so many bytes
    out: seq<Byte>,              // written to the connection
    inp: seq<Byte>,              // not yet read from it
    issued: nat,                 // waiters handed in
    replies: seq<Reply>,
    dropped: set<Waiter>,
    log: seq<Note>)

  function Initial(room: nat, peer: seq<Byte>): State {
    State([], false, SWaiting, RReading, map[], room, [], peer, 0, [], {}, [])
  }

  // The connection takes the bytes of a frame piece by piece.
  datatype Action = Submit(m: Message) | HangUp | Flush(n: nat) | StepSend | StepRecv

  const CAPACITY := 1024

  // ----- where the waiters are

  function Queued(s: State): set<Waiter> { set r | r in s.queue :: r.w }

  function Held(s: State): set<Waiter> { if s.snd.SHolding? then {s.snd.r.w} else {} }

  function Waiting(s: State): set<Waiter> { set id | id in s.pending :: s.pending[id] }

  function Delivering(s: State): set<Waiter> { if s.rcv.RDelivering? then {s.rcv.reply.w} else {} }

  function Replied(s: State): set<Waiter> { set r | r in s.replies :: r.w }

  predicate Over(s: State) { s.snd.SEnded? && s.rcv.REnded? }

  // ----- the loop that sends

  function Pop(s: State): State
    requires s.queue != []
  {
    s.(queue := s.queue[1..], snd := SHolding(s.queue[0]))
  }

  // An earlier registration under the same id is overwritten, which drops its waiter.
  function Register(s: State): State
    requires s.snd.SHolding?
  {
    var id := s.snd.r.m.id;
    s.(snd := SWriting(s.snd.r, 0), pending := s.pending[id := s.snd.r.w],
       dropped := s.dropped + (if id in s.pending then {s.pending[id]} else {}),
       log := s.log + [Registered(s.snd.r)])
  }

  predicate Writable(s: State, m: Message) { Sendable(m) && Fits(s.room, s.out, Encode(m)) }

  // The bytes a writer of either kind has for a message.
  function Bytes(v: Flavour, m: Message): seq<Byte> { if v.Async? then Wanted(m) else WantedBlocking(m) }

  // Those of the message being written that the connection has not taken yet.
  function Unwritten(v: Flavour, s: State): seq<Byte>
    requires s.snd.SWriting?
  {
    var bs := Bytes(v, s.snd.r.m);
    if s.snd.done <= |bs| then bs[s.snd.done..] else []
  }

  predicate CanFlush(v: Flavour, s: State, n: nat) {
    s.snd.SWriting? && n <= |Unwritten(v, s)| && |s.out| + n <= s.room
  }

  function FlushSome(v: Flavour, s: State, n: nat): State
    requires CanFlush(v, s, n)
  {
    s.(out := s.out + Unwritten(v, s)[..n], snd := SWriting(s.snd.r, s.snd.done + n))
  }

  // The rest of the frame is written, or the connection breaks.
  function Write(v: Flavour, s: State): State
    requires s.snd.SWriting?
  {
    var rest := Unwritten(v, s);
    s.(out := Onto(s.room, s.out, rest),
       snd := if Sendable(s.snd.r.m) && Fits(s.room, s.out, rest) then SWaiting else SWithdrawing(s.snd.r))
  }

  function Unregister(s: State): State
    requires s.snd.SWithdrawing?
  {
    var id := s.snd.r.m.id;
    s.(pending := s.pending - {id},
       dropped := s.dropped + (if id in s.pending then {s.pending[id]} else {}),
       log := s.log + [Withdrawn(id)])
  }

  function Withdraw(v: Flavour, s: State): State
    requires s.snd.SWithdrawing?
  {
    EndSend(v, Unregister(s), false)
  }

  // The loop returns, which drops the channel; its error ends the whole task.
  function EndSend(v: Flavour, s: State, ok: bool): State {
    var t := s.(snd := SEnded(ok), queue := [], dropped := s.dropped + Queued(s) + Held(s));
    if s.rcv.REnded? || (v.Async? && !ok) then Close(t) else t
  }

  // Everything the session still holds is dropped with it.
  function Close(s: State): State {
    s.(queue := [], snd := if s.snd.SEnded? then s.snd else SEnded(false), rcv := REnded, pending := map[],
       dropped := s.dropped + Queued(s) + Held(s) + Waiting(s) + Delivering(s))
  }

  function SendStep(v: Flavour, s: State): State {
    match s.snd
    case SWaiting =>
      if s.queue != [] then (if v.Async? then Register(Pop(s)) else Pop(s))
      else if s.hungUp then EndSend(v, s, true)
      else s
    case SHolding(_) => Register(s)
    case SWriting(_, _) =>
      var t := Write(v, s);
      if v.Async? && t.snd.SWithdrawing? then Withdraw(v, t) else t
    case SWithdrawing(_) => Withdraw(v, s)
    case SEnded(_) => s
  }

  // ----- the loop that receives

  function Read(v: Flavour, s: State): State {
    match Decode(s.inp)
    case Ok(f) => s.(inp := f.rest, rcv := RTaking(f.m))
    case Err(_) => EndRecv(v, s)
  }

  function Take(s: State): State
    requires s.rcv.RTaking?
  {
    var m := s.rcv.m;
    s.(pending := s.pending - {m.id},
       rcv := if m.id in s.pending then RDelivering(Reply(s.pending[m.id], m.bytes)) else RReading,
       log := s.log + [Arrived(m)])
  }

  function Deliver(s: State): State
    requires s.rcv.RDelivering?
  {
    s.(replies := s.replies + [s.rcv.reply], rcv := RReading)
  }

  // This loop only ever ends with an error.
  function EndRecv(v: Flavour, s: State): State {
    var t := s.(rcv := REnded);
    if s.snd.SEnded? || v.Async? then Close(t) else t
  }

  function RecvStep(v: Flavour, s: State): State {
    match s.rcv
    case RReading =>
      var t := Read(v, s);
      if v.Async? && t.rcv.RTaking? then
        var u := Take(t);
        if u.rcv.RDelivering? then Deliver(u) else u
      else t
    case RTaking(_) => Take(s)
    case RDelivering(_) => Deliver(s)
    case REnded => s
  }

  // ----- runs

  // A requester hands in a message with a fresh waiter.
  function Accept(v: Flavour, s: State, m: Message): State {
    if s.hungUp || (v.Async? && !s.snd.SEnded? && |s.queue| >= CAPACITY) then s
    else
      var t := s.(issued := s.issued + 1);
      if s.snd.SEnded? then t.(dropped := s.dropped + {s.issued})
      else t.(queue := s.queue + [Request(m, s.issued)])
  }

  function Step(v: Flavour, s: State, a: Action): State {
    match a
    case Submit(m) => Accept(v, s, m)
    case HangUp => s.(hungUp := true)
    case Flush(n) => if CanFlush(v, s, n) then FlushSome(v, s, n) else s
    case StepSend => SendStep(v, s)
    case StepRecv => RecvStep(v, s)
  }

  function Run(v: Flavour, s: State, acts: seq<Action>): State {
    if acts == [] then s else Step(v, Run(v, s, acts[..|acts| - 1]), acts[|acts| - 1])
  }
}
