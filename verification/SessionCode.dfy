/** The two loops of the session in the form the program has them: they pop the request
    queue, change the shared map and use the connection in place. Wherever the other parties
    can run, `sched` says what they do; every schedule is allowed. How many bytes of a frame
    the connection takes at a time is up to `takes`. */
module SessionCode {
  import opened Wrappers
  import opened Octets
  import opened Codec
  import opened Session
  import opened SessionRouting
  import opened SessionStreams

  // What the other parties do at each point where they can run.
  type Schedule = seq<seq<Action>>

  function TurnAt(sched: Schedule, k: nat): seq<Action> {
    if k < |sched| then sched[k] else []
  }

  function Left(sched: Schedule, k: nat): nat {
    if k < |sched| then |sched| - k else 0
  }

  datatype Ending =
    | Finished                 // the loop returned Ok
    | Failed(error: Error)     // the loop returned an error
    | Cancelled                // the other half of the task failed
    | Pending                  // nothing happens any more, and the loop still waits

  // The sending loop and the pieces of the frame it writes.
  predicate OfSender(a: Action) { a.StepSend? || a.Flush? }

  ghost predicate ForeignToSender(sched: Schedule) {
    forall k :: 0 <= k < |sched| ==> forall a :: a in sched[k] ==> !OfSender(a)
  }

  ghost predicate ForeignToReceiver(sched: Schedule) {
    forall k :: 0 <= k < |sched| ==> StepRecv !in sched[k]
  }

  class IoSession {
    const v: Flavour
    const writer: Writer
    const reader: Reader

    var queue: seq<Request>
    var hungUp: bool
    var pending: map<U32, Waiter>
    var issued: nat
    var replies: seq<Reply>
    var dropped: set<Waiter>
    var snd: SendPc
    var rcv: RecvPc
    ghost var rest: seq<Byte>  // what the reader had not read before its current frame
    ghost var log: seq<Note>
    ghost var trace: seq<Action>

    ghost predicate Wf()
      reads this, writer, reader
    {
      writer.Valid() && reader.Valid() && (!rcv.REnded? ==> rest == reader.Unread())
    }

    ghost function Abs(): State
      requires Wf()
      reads this, writer, reader
    {
      State(queue, hungUp, snd, rcv, pending, writer.room, writer.written, rest,
            issued, replies, dropped, log)
    }

    // The session is in a state some interleaving leads to.
    ghost predicate Valid()
      reads this, writer, reader
    {
      Wf() && Abs() == Run(v, Initial(writer.room, reader.stream), trace)
    }

    constructor (v: Flavour, writer: Writer, reader: Reader)
      requires writer.Valid() && reader.Valid() && writer.written == [] && reader.Unread() == reader.stream
      ensures Valid() && this.v == v && this.writer == writer && this.reader == reader
      ensures snd.SWaiting? && rcv.RReading? && trace == []
    {
      this.v, this.writer, this.reader := v, writer, reader;
      queue, hungUp, pending, issued, replies, dropped := [], false, map[], 0, [], {};
      snd, rcv, rest, log, trace := SWaiting, RReading, reader.stream, [], [];
      new;
      Started();
    }

    lemma Started()
      requires Wf() && writer.written == [] && rest == reader.stream
      requires queue == [] && !hungUp && pending == map[] && issued == 0 && replies == [] && dropped == {}
      requires snd.SWaiting? && rcv.RReading? && log == [] && trace == []
      ensures Valid()
    {
    }

    ghost method Took(a: Action)
      requires Wf() && Abs() == Step(v, Run(v, Initial(writer.room, reader.stream), trace), a)
      modifies this`trace
      ensures Valid() && trace == old(trace) + [a]
    {
      RunThen(v, Initial(writer.room, reader.stream), trace, a);
      trace := trace + [a];
    }

    // ----- what the loops do between two points where others can run

    method PopRequest() returns (r: Request)
      requires Wf() && snd.SWaiting? && queue != []
      modifies this`queue, this`snd
      ensures Wf() && Abs() == Pop(old(Abs())) && r == snd.r
    {
      r := queue[0];
      queue, snd := queue[1..], SHolding(r);
    }

    method Insert()
      requires Wf() && snd.SHolding?
      modifies this`pending, this`snd, this`dropped, this`log
      ensures Wf() && Abs() == Register(old(Abs()))
    {
      var r := snd.r;
      if r.m.id in pending { dropped := dropped + {pending[r.m.id]}; }
      pending, snd, log := pending[r.m.id := r.w], SWriting(r, 0), log + [Registered(r)];
    }

    // Some bytes of the frame that is being written.
    method WritePiece(bs: seq<Byte>) returns (r: Result<(), Error>)
      requires Wf() && snd.SWriting? && bs <= Unwritten(v, Abs())
      modifies this`snd, writer
      ensures Wf() && r == if Fits(writer.room, old(writer.written), bs) then Ok(()) else Err(Io)
      ensures Abs() == if r.Ok? then FlushSome(v, old(Abs()), |bs|) else Write(v, old(Abs()))
      ensures writer.written == Onto(writer.room, old(writer.written), bs)
    {
      ghost var rest := Unwritten(v, Abs());
      assert rest[0..] == rest && bs[0..] == bs && writer.written + rest[..0] == writer.written;
      Piece(writer.room, writer.written, rest, 0, bs, 0, |bs|);
      r := writer.WriteAll(bs);
      snd := if r.Ok? then SWriting(snd.r, snd.done + |bs|) else SWithdrawing(snd.r);
    }

    // The rest of it.
    method WriteOut()
      requires Wf() && snd.SWriting?
      modifies this`snd, writer
      ensures Wf() && Abs() == Write(v, old(Abs()))
    {
      var bs := Bytes(v, snd.r.m);
      var written := writer.WriteAll(if snd.done <= |bs| then bs[snd.done..] else []);
      snd := if written.Ok? && |snd.r.m.bytes| < LIMIT then SWaiting else SWithdrawing(snd.r);
    }

    method DropAll()
      requires Wf()
      modifies this`queue, this`snd, this`rcv, this`pending, this`dropped
      ensures Wf() && Abs() == Close(old(Abs()))
    {
      dropped := dropped + (set r | r in queue :: r.w) + (if snd.SHolding? then {snd.r.w} else {})
                 + (set id | id in pending :: pending[id]) + (if rcv.RDelivering? then {rcv.reply.w} else {});
      queue, pending, rcv := [], map[], REnded;
      if !snd.SEnded? { snd := SEnded(false); }
    }

    method ReturnSend(ok: bool)
      requires Wf()
      modifies this`queue, this`snd, this`rcv, this`pending, this`dropped
      ensures Wf() && Abs() == EndSend(v, old(Abs()), ok)
    {
      dropped := dropped + (set r | r in queue :: r.w) + (if snd.SHolding? then {snd.r.w} else {});
      queue, snd := [], SEnded(ok);
      if rcv.REnded? || (v.Async? && !ok) { DropAll(); }
    }

    method Remove()
      requires Wf() && snd.SWithdrawing?
      modifies this`pending, this`dropped, this`log
      ensures Wf() && Abs() == Unregister(old(Abs()))
    {
      var id := snd.r.m.id;
      if id in pending { dropped := dropped + {pending[id]}; }
      pending, log := pending - {id}, log + [Withdrawn(id)];
    }

    // return Err
    method RemoveAndReturn()
      requires Wf() && snd.SWithdrawing?
      modifies this`queue, this`snd, this`rcv, this`pending, this`dropped, this`log
      ensures Wf() && Abs() == Withdraw(v, old(Abs()))
    {
      Remove();
      ReturnSend(false);
    }

    method ReadFrame() returns (m: Result<Message, Error>)
      requires Wf() && rcv.RReading?
      modifies this`queue, this`snd, this`rcv, this`pending, this`dropped, this`rest, reader
      ensures Wf() && Abs() == Read(v, old(Abs()))
      ensures if m.Ok? then rcv == RTaking(m.value) else rcv.REnded? && Decode(old(rest)) == Err(m.error)
    {
      m := Codec.Receive(reader);
      if m.Ok? {
        rcv, rest := RTaking(m.value), reader.Unread();
      } else {
        rcv := REnded;
        if snd.SEnded? || v.Async? { DropAll(); }
      }
    }

    method RemoveWaiter() returns (waiter: seq<Waiter>)
      requires Wf() && rcv.RTaking?
      modifies this`pending, this`rcv, this`log
      ensures Wf() && Abs() == Take(old(Abs()))
      ensures if waiter == [] then rcv.RReading? else rcv == RDelivering(Reply(waiter[0], old(rcv).m.bytes))
    {
      var m := rcv.m;
      waiter := if m.id in pending then [pending[m.id]] else [];
      rcv := if waiter == [] then RReading else RDelivering(Reply(waiter[0], m.bytes));
      pending, log := pending - {m.id}, log + [Arrived(m)];
    }

    method Complete(waiter: Waiter, bytes: seq<Byte>)
      requires Wf() && rcv == RDelivering(Reply(waiter, bytes))
      modifies this`replies, this`rcv
      ensures Wf() && Abs() == Deliver(old(Abs()))
    {
      replies, rcv := replies + [Reply(waiter, bytes)], RReading;
    }

    // ----- one turn of another party

    method AcceptRequest(m: Message)
      requires Wf()
      modifies this`queue, this`issued, this`dropped
      ensures Wf() && Abs() == Accept(v, old(Abs()), m)
    {
      if hungUp || (v.Async? && !snd.SEnded? && |queue| >= CAPACITY) { return; }
      if snd.SEnded? { dropped := dropped + {issued}; } else { queue := queue + [Request(m, issued)]; }
      issued := issued + 1;
    }

    method SendTurn()
      requires Wf()
      modifies this, writer
      ensures Wf() && Abs() == SendStep(v, old(Abs())) && trace == old(trace)
    {
      match snd {
        case SWaiting =>
          if queue != [] {
            var r := PopRequest();
            if v.Async? { Insert(); }
          } else if hungUp {
            ReturnSend(true);
          }
        case SHolding(_) => Insert();
        case SWriting(_, _) =>
          WriteOut();
          if v.Async? && snd.SWithdrawing? { RemoveAndReturn(); }
        case SWithdrawing(_) => RemoveAndReturn();
        case SEnded(_) =>
      }
    }

    // In one task the frame is dealt with as soon as it was read.
    method ReadTurn() returns (m: Result<Message, Error>)
      requires Wf() && rcv.RReading?
      modifies this, reader
      ensures Wf() && Abs() == RecvStep(v, old(Abs())) && trace == old(trace)
      ensures if m.Err? then rcv.REnded? else if v.Async? then rcv.RReading? else rcv == RTaking(m.value)
      ensures if m.Err? then Decode(rest) == Err(m.error) else |rest| < |old(rest)|
    {
      m := ReadFrame();
      if v.Async? && m.Ok? {
        var waiter := RemoveWaiter();
        if waiter != [] { Complete(waiter[0], m.value.bytes); }
      }
    }

    method RecvTurn()
      requires Wf()
      modifies this, reader
      ensures Wf() && Abs() == RecvStep(v, old(Abs())) && trace == old(trace)
    {
      match rcv {
        case RReading => var m := ReadTurn();
        case RTaking(_) => var waiter := RemoveWaiter();
        case RDelivering(reply) => Complete(reply.w, reply.bytes);
        case REnded =>
      }
    }

    method FlushTurn(n: nat)
      requires Wf()
      modifies this`snd, writer
      ensures Wf() && Abs() == if CanFlush(v, old(Abs()), n) then FlushSome(v, old(Abs()), n) else old(Abs())
    {
      if snd.SWriting? {
        var bs := Bytes(v, snd.r.m);
        if snd.done + n <= |bs| && |writer.written| + n <= writer.room {
          assert bs[snd.done..][..n] == bs[snd.done..snd.done + n];
          var r := WritePiece(bs[snd.done..snd.done + n]);
        }
      }
    }

    method Turn(a: Action)
      requires Valid()
      modifies this, writer, reader
      ensures Valid() && trace == old(trace) + [a] && old(replies) <= replies
      ensures !OfSender(a) ==> writer.written == old(writer.written)
      ensures !OfSender(a) ==> snd == old(snd) || (v.Async? && snd == SEnded(false))
      ensures a != StepRecv ==> rest == old(rest) && (rcv == old(rcv) || (v.Async? && rcv.REnded?))
    {
      OthersLeave(v, Abs(), a);
      match a {
        case Submit(m) => AcceptRequest(m);
        case HangUp => hungUp := true;
        case Flush(n) => FlushTurn(n);
        case StepSend => SendTurn();
        case StepRecv => RecvTurn();
      }
      Took(a);
    }

    // What the others do where the sending loop can be suspended.
    method OthersOfSender(acts: seq<Action>)
      requires Valid() && forall a :: a in acts ==> !OfSender(a)
      modifies this, writer, reader
      ensures Valid() && old(replies) <= replies && (acts == [] ==> queue == old(queue))
      ensures writer.written == old(writer.written)
      ensures snd == old(snd) || (v.Async? && snd == SEnded(false))
    {
      var i := 0;
      while i < |acts|
        invariant 0 <= i <= |acts| && Valid() && old(replies) <= replies && (i == 0 ==> queue == old(queue))
        invariant writer.written == old(writer.written)
        invariant snd == old(snd) || (v.Async? && snd == SEnded(false))
      {
        Turn(acts[i]);
        i := i + 1;
      }
    }

    // And where the receiving loop can.
    method OthersOfReceiver(acts: seq<Action>)
      requires Valid() && StepRecv !in acts
      modifies this, writer, reader
      ensures Valid() && old(replies) <= replies
      ensures rest == old(rest) && (rcv == old(rcv) || (v.Async? && rcv.REnded?))
    {
      var i := 0;
      while i < |acts|
        invariant 0 <= i <= |acts| && Valid() && old(replies) <= replies
        invariant rest == old(rest) && (rcv == old(rcv) || (v.Async? && rcv.REnded?))
      {
        Turn(acts[i]);
        i := i + 1;
      }
    }

    // ----- the two loops

    // Up to the next point where others can run: in one task the insertion follows at once.
    method TakeNext()
      requires Valid() && snd.SWaiting? && queue != []
      modifies this
      ensures Valid() && old(replies) <= replies
      ensures (if v.Async? then snd.SWriting? && snd.done == 0 else snd.SHolding?) && |queue| < |old(queue)|
    {
      var request := PopRequest();
      if v.Async? { Insert(); }
      Took(StepSend);
    }

    method InsertNext()
      requires Valid() && snd.SHolding?
      modifies this
      ensures Valid() && old(replies) <= replies && snd.SWriting? && snd.done == 0 && queue == old(queue)
    {
      Insert();
      Took(StepSend);
    }

    method WriteNext(bs: seq<Byte>) returns (r: Result<(), Error>)
      requires Valid() && snd.SWriting? && bs <= Unwritten(v, Abs())
      modifies this, writer
      ensures Valid() && old(replies) <= replies && writer.written == Onto(writer.room, old(writer.written), bs)
      ensures r == if Fits(writer.room, old(writer.written), bs) then Ok(()) else Err(Io)
      ensures if r.Ok? then snd == SWriting(old(snd).r, old(snd).done + |bs|) && queue == old(queue)
              else if v.Async? then snd == SEnded(false) else snd.SWithdrawing?
    {
      r := WritePiece(bs);
      if r.Ok? { Took(Flush(|bs|)); return; }
      if v.Async? { RemoveAndReturn(); }
      Took(StepSend);
    }

    // The connection has taken part of the frame after `sent`.
    ghost predicate Midway(sent: seq<Byte>)
      requires Wf()
      reads this, writer, reader
    {
      snd.SWriting? && Holds(Bytes(v, snd.r.m), snd.done, sent, writer.written)
    }

    method WritePart(bs: seq<Byte>, takes: nat -> nat, k: nat, i: nat, ghost sent: seq<Byte>)
      returns (r: Result<(), Ending>, n: nat)
      requires Valid() && Midway(sent) && i < |bs| && bs[i..] <= Bytes(v, snd.r.m)[snd.done..]
      modifies this, writer, reader
      ensures Valid() && old(replies) <= replies && 0 < n <= |bs| - i
      ensures r.Ok? ==> Midway(sent) && snd == SWriting(old(snd).r, old(snd).done + n) && queue == old(queue)
      ensures r.Err? ==>
                r == Err(Failed(Io)) &&
                Interrupted(v, writer.room, sent, Bytes(v, old(snd).r.m), writer.written, snd, r.error)
    {
      n := if 0 < takes(k) <= |bs| - i then takes(k) else |bs| - i;
      Piece(writer.room, sent, Bytes(v, snd.r.m), snd.done, bs, i, n);
      var piece := WriteNext(bs[i..i + n]);
      r := if piece.Ok? then Ok(()) else Err(Failed(Io));
    }

    // write_u32, write_u8 and write_all: the connection takes the bytes piece by piece.
    method WriteAll(bs: seq<Byte>, sched: Schedule, takes: nat -> nat, k0: nat, ghost sent: seq<Byte>)
      returns (r: Result<(), Ending>, k: nat)
      requires Valid() && Midway(sent) && bs <= Bytes(v, snd.r.m)[snd.done..] && ForeignToSender(sched)
      modifies this, writer, reader
      ensures Valid() && old(replies) <= replies && k >= k0 && (k0 >= |sched| ==> r.Err? || queue == old(queue))
      ensures r.Ok? ==> Midway(sent) && snd == SWriting(old(snd).r, old(snd).done + |bs|)
      ensures r.Err? ==> Interrupted(v, writer.room, sent, Bytes(v, old(snd).r.m), writer.written, snd, r.error)
      ensures r == Err(Cancelled) ==> Over(Abs())
    {
      k := k0;
      ghost var start := snd;
      var i := 0;
      while i < |bs|
        invariant Valid() && old(replies) <= replies && k >= k0 && (k0 >= |sched| ==> queue == old(queue))
        invariant 0 <= i <= |bs| && snd == SWriting(start.r, start.done + i) && Midway(sent)
      {
        OthersOfSender(TurnAt(sched, k));
        k := k + 1;
        if snd.SEnded? {
          BothEnded();
          return Err(Cancelled), k;
        }
        Onwards(Bytes(v, start.r.m), start.done, bs, i);
        var n;
        r, n := WritePart(bs, takes, k, i, sent);
        if r.Err? { return; }
        i := i + n;
      }
      return Ok(()), k;
    }

    // The frame is out.
    method WriteDone()
      requires Valid() && snd.SWriting? && Sendable(snd.r.m) && snd.done == |Encode(snd.r.m)|
      modifies this
      ensures Valid() && old(replies) <= replies && snd.SWaiting? && queue == old(queue)
    {
      NothingMore(writer.room, writer.written);
      snd := SWaiting;
      Took(StepSend);
    }

    // The payload is longer than the format allows.
    method Refuse()
      requires Valid() && snd.SWriting? && !Sendable(snd.r.m) && snd.done == |Bytes(v, snd.r.m)|
      modifies this
      ensures Valid() && old(replies) <= replies
      ensures if v.Async? then snd == SEnded(false) else snd.SWithdrawing?
    {
      NothingMore(writer.room, writer.written);
      snd := SWithdrawing(snd.r);
      if v.Async? { RemoveAndReturn(); }
      Took(StepSend);
    }

    method RemoveNext()
      requires Valid() && snd.SWithdrawing?
      modifies this
      ensures Valid() && old(replies) <= replies && snd == SEnded(false)
    {
      RemoveAndReturn();
      Took(StepSend);
    }

    method FinishSend()
      requires Valid() && snd.SWaiting? && queue == [] && hungUp
      modifies this
      ensures Valid() && old(replies) <= replies
      ensures hungUp && snd == SEnded(true) && Carries(writer.written, Requests(log))
    {
      AllCarried();
      ReturnSend(true);
      Took(StepSend);
    }

    // Pops a request and registers its waiter.
    method RegisterNext(sched: Schedule, k0: nat) returns (k: nat)
      requires Valid() && snd.SWaiting? && queue != [] && ForeignToSender(sched)
      modifies this, writer, reader
      ensures Valid() && old(replies) <= replies && snd.SWriting? && snd.done == 0 && k >= k0
      ensures k0 >= |sched| ==> |queue| < |old(queue)|
    {
      k := k0;
      TakeNext();
      if v.Blocking? {
        OthersOfSender(TurnAt(sched, k));
        k := k + 1;
        InsertNext();
      }
    }

    method SendPrelude(sched: Schedule, takes: nat -> nat, k0: nat, ghost sent: seq<Byte>)
      returns (r: Result<(), Ending>, k: nat)
      requires Valid() && v.Async? && Midway(sent) && snd.done == 0 && ForeignToSender(sched)
      modifies this, writer, reader
      ensures Valid() && old(replies) <= replies && k >= k0 && (k0 >= |sched| ==> r.Err? || queue == old(queue))
      ensures r.Ok? ==> Midway(sent) && snd == SWriting(old(snd).r, 5)
      ensures r.Err? ==> Interrupted(v, writer.room, sent, Bytes(v, old(snd).r.m), writer.written, snd, r.error)
      ensures r == Err(Cancelled) ==> Over(Abs())
    {
      var m := snd.r.m;
      Layout(v, m);
      r, k := WriteAll(ToBe(m.id), sched, takes, k0, sent);
      if r.Err? { return; }
      r, k := WriteAll([Tag(m.kind)], sched, takes, k, sent);
    }

    method SendBody(sched: Schedule, takes: nat -> nat, k0: nat, ghost sent: seq<Byte>)
      returns (r: Result<(), Ending>, k: nat)
      requires Valid() && Midway(sent) && snd.done == 5 && Sendable(snd.r.m) && ForeignToSender(sched)
      modifies this, writer, reader
      ensures Valid() && old(replies) <= replies && k >= k0 && (k0 >= |sched| ==> r.Err? || queue == old(queue))
      ensures r.Ok? ==> Midway(sent) && snd == SWriting(old(snd).r, |Encode(old(snd).r.m)|)
      ensures r.Err? ==> Interrupted(v, writer.room, sent, Bytes(v, old(snd).r.m), writer.written, snd, r.error)
      ensures r == Err(Cancelled) ==> Over(Abs())
    {
      var m := snd.r.m;
      Layout(v, m);
      r, k := WriteAll(ToBe(|m.bytes|), sched, takes, k0, sent);
      if r.Err? { return; }
      r, k := WriteAll(m.bytes, sched, takes, k, sent);
    }

    // Writes a message: all of its frame, or what the connection takes of it, or - when the
    // other half of the task fails meanwhile - some of it.
    method SendMessage(sched: Schedule, takes: nat -> nat, k0: nat) returns (r: Result<(), Ending>, k: nat)
      requires Valid() && v.Async? && snd.SWriting? && snd.done == 0 && ForeignToSender(sched)
      modifies this, writer, reader
      ensures Valid() && old(replies) <= replies && k >= k0 && (k0 >= |sched| ==> r.Err? || queue == old(queue))
      ensures Answers(v, writer.room, old(writer.written), old(snd).r.m, writer.written, snd, r)
      ensures r == Err(Cancelled) ==> Over(Abs())
    {
      var m := snd.r.m;
      ghost var sent := writer.written;
      Layout(v, m);
      assert sent + Bytes(v, m)[..0] == sent;
      r, k := SendPrelude(sched, takes, k0, sent);
      if r.Err? { return; }
      if |m.bytes| >= LIMIT {
        Refuse();
        return Err(Failed(TooLong)), k;
      }
      r, k := SendBody(sched, takes, k, sent);
      if r.Err? { return; }
      WriteDone();
    }

    method SendMessageBlocking(sched: Schedule, takes: nat -> nat, k0: nat) returns (r: Result<(), Ending>, k: nat)
      requires Valid() && v.Blocking? && snd.SWriting? && snd.done == 0 && ForeignToSender(sched)
      modifies this, writer, reader
      ensures Valid() && old(replies) <= replies && k >= k0 && (k0 >= |sched| ==> r.Err? || queue == old(queue))
      ensures Answers(v, writer.room, old(writer.written), old(snd).r.m, writer.written, snd, r)
    {
      var m := snd.r.m;
      ghost var sent := writer.written;
      OthersOfSender(TurnAt(sched, k0));
      k := k0 + 1;
      Layout(v, m);
      assert sent + Bytes(v, m)[..0] == sent;
      if |m.bytes| >= LIMIT {
        Refuse();
        return Err(Failed(TooLong)), k;
      }
      var id, size := ToBe(m.id), ToBe(|m.bytes|);
      var header := [id[0], id[1], id[2], id[3], Tag(m.kind), size[0], size[1], size[2], size[3]];
      assert header == id + [Tag(m.kind)] + size;
      r, k := WriteAll(header, sched, takes, k, sent);
      if r.Err? { return; }
      r, k := WriteAll(m.bytes, sched, takes, k, sent);
      if r.Err? { return; }
      WriteDone();
    }

    // Takes the next request and writes it.
    method SendNext(sched: Schedule, takes: nat -> nat, k0: nat) returns (r: Result<(), Ending>, k: nat)
      requires Valid() && snd.SWaiting? && queue != [] && ForeignToSender(sched)
      modifies this, writer, reader
      ensures Valid() && old(replies) <= replies && k >= k0
      ensures r.Ok? ==> snd.SWaiting? && (k0 >= |sched| ==> |queue| < |old(queue)|)
      ensures r.Err? ==> (r.error.Failed? || r.error.Cancelled?) && snd == SEnded(false) && (v.Async? ==> Over(Abs()))
    {
      k := RegisterNext(sched, k0);
      if v.Async? {
        r, k := SendMessage(sched, takes, k);
      } else {
        r, k := SendMessageBlocking(sched, takes, k);
      }
      if r.Err? { GiveUp(TurnAt(sched, k)); }
    }

    // The loop returns the error of a write, without the registration.
    method GiveUp(acts: seq<Action>)
      requires Valid() && if v.Async? then snd == SEnded(false) else snd.SWithdrawing?
      requires forall a :: a in acts ==> !OfSender(a)
      modifies this, writer, reader
      ensures Valid() && old(replies) <= replies && snd == SEnded(false) && (v.Async? ==> Over(Abs()))
    {
      if v.Blocking? {
        OthersOfSender(acts);
        RemoveNext();
      } else {
        BothEnded();
      }
    }

    method RunSend(sched: Schedule, takes: nat -> nat) returns (r: Ending)
      requires Valid() && snd.SWaiting? && ForeignToSender(sched)
      modifies this, writer, reader
      ensures Valid() && old(replies) <= replies
      ensures r.Finished? ==> hungUp && snd == SEnded(true) && Carries(writer.written, Requests(log))
      ensures r.Failed? || r.Cancelled? ==> snd == SEnded(false) && (v.Async? ==> Over(Abs()))
      ensures r.Pending? ==> snd.SWaiting? && queue == [] && !hungUp
    {
      var k := 0;
      while true
        invariant Valid() && old(replies) <= replies && snd.SWaiting?
        decreases Left(sched, k), |queue|
      {
        OthersOfSender(TurnAt(sched, k));          // receiver.recv()
        k := k + 1;
        if snd.SEnded? { BothEnded(); return Cancelled; }
        if queue == [] {
          if hungUp { FinishSend(); return Finished; }
          if k >= |sched| { return Pending; }
          continue;
        }
        var sent;
        sent, k := SendNext(sched, takes, k);
        if sent.Err? { return sent.error; }
      }
    }

    lemma BothEnded()
      requires Valid() && v.Async? && (rcv.REnded? || snd == SEnded(false))
      ensures Over(Abs())
    {
      AsyncEndsTogether(v, writer.room, reader.stream, trace);
    }

    lemma AllCarried()
      requires Valid() && snd.SWaiting?
      ensures Carries(writer.written, Requests(log))
    {
      PeerReadsRequests(v, writer.room, reader.stream, trace);
    }

    // Up to the next point where others can run: one task completes the waiter at once.
    method ReadNext() returns (m: Result<Message, Error>)
      requires Valid() && rcv.RReading?
      modifies this, reader
      ensures Valid() && old(replies) <= replies
      ensures if m.Err? then rcv.REnded? else if v.Async? then rcv.RReading? else rcv == RTaking(m.value)
      ensures if m.Err? then Decode(rest) == Err(m.error) else |rest| < |old(rest)|
    {
      m := ReadTurn();
      Took(StepRecv);
    }

    method TakeWaiter() returns (waiter: seq<Waiter>)
      requires Valid() && rcv.RTaking?
      modifies this
      ensures Valid() && old(replies) <= replies && rest == old(rest)
      ensures if waiter == [] then rcv.RReading? else rcv == RDelivering(Reply(waiter[0], old(rcv).m.bytes))
    {
      waiter := RemoveWaiter();
      Took(StepRecv);
    }

    method CompleteNext(waiter: Waiter, bytes: seq<Byte>)
      requires Valid() && rcv == RDelivering(Reply(waiter, bytes))
      modifies this
      ensures Valid() && old(replies) <= replies && rcv.RReading? && rest == old(rest)
    {
      Complete(waiter, bytes);
      Took(StepRecv);
    }

    // What the blocking loop does with a frame.
    method Dispatch(m: Message, sched: Schedule, k0: nat) returns (k: nat)
      requires Valid() && v.Blocking? && rcv == RTaking(m) && ForeignToReceiver(sched)
      modifies this, writer, reader
      ensures Valid() && old(replies) <= replies && rcv.RReading? && rest == old(rest)
    {
      k := k0;
      OthersOfReceiver(TurnAt(sched, k));
      var waiter := TakeWaiter();
      k := k + 1;
      if waiter != [] {
        OthersOfReceiver(TurnAt(sched, k));
        CompleteNext(waiter[0], m.bytes);
        k := k + 1;
      }
    }

    method RunRecv(sched: Schedule) returns (r: Ending)
      requires Valid() && rcv.RReading? && ForeignToReceiver(sched)
      modifies this, writer, reader
      ensures Valid() && old(replies) <= replies && rcv.REnded?
      ensures r.Failed? || (r.Cancelled? && v.Async?)
      ensures r.Failed? ==> DecodeAll(reader.stream) == Reading(Frames(log), r.error)
      ensures v.Async? ==> Over(Abs())
    {
      var k := 0;
      while true
        invariant Valid() && old(replies) <= replies && rcv.RReading?
        decreases |rest|
      {
        OthersOfReceiver(TurnAt(sched, k));        // recv_message
        k := k + 1;
        if rcv.REnded? { BothEnded(); return Cancelled; }
        var frame := ReadNext();
        if frame.Err? {
          AllArrived(frame.error);
          if v.Async? { BothEnded(); }
          return Failed(frame.error);
        }
        if v.Blocking? {
          k := Dispatch(frame.value, sched, k);
        }
      }
    }

    lemma AllArrived(e: Error)
      requires Valid() && rcv.REnded? && Decode(rest) == Err(e)
      ensures DecodeAll(reader.stream) == Reading(Frames(log), e)
    {
      FramesInOrder(v, writer.room, reader.stream, trace);
      assert Frames(log) + [] + [] == Frames(log);
    }
  }

  // The first `done` bytes of a frame follow `sent` on the connection.
  predicate Holds(frame: seq<Byte>, done: nat, sent: seq<Byte>, written: seq<Byte>) {
    done <= |frame| && written == sent + frame[..done]
  }

  // The frame did not go out: as much of it as there was room for, which is not all, or
  // what was out when the other half failed.
  predicate Interrupted(v: Flavour, room: nat, sent: seq<Byte>, frame: seq<Byte>, written: seq<Byte>, snd: SendPc,
                        why: Ending)
  {
    if why.Cancelled? then v.Async? && snd == SEnded(false) && sent <= written <= sent + frame
    else
      && why == Failed(Io) && (if v.Async? then snd == SEnded(false) else snd.SWithdrawing?)
      && !Fits(room, sent, frame) && written == Onto(room, sent, frame)
  }

  // What writing a message answers, and what it leaves behind.
  predicate Answers(v: Flavour, room: nat, sent: seq<Byte>, m: Message, written: seq<Byte>, snd: SendPc,
                    r: Result<(), Ending>)
  {
    var frame := Bytes(v, m);
    match r
    case Ok(_) => snd.SWaiting? && Sendable(m) && Fits(room, sent, frame) && written == sent + frame
    case Err(Failed(TooLong)) =>
      && (if v.Async? then snd == SEnded(false) else snd.SWithdrawing?)
      && !Sendable(m) && Fits(room, sent, frame) && written == sent + frame
    case Err(why) => Interrupted(v, room, sent, frame, written, snd, why)
  }

  lemma Layout(v: Flavour, m: Message)
    ensures Sendable(m) ==>
              Bytes(v, m) == Encode(m) && |Encode(m)| == 9 + |m.bytes| &&
              ToBe(m.id) <= Bytes(v, m)[0..] && [Tag(m.kind)] <= Bytes(v, m)[4..] &&
              ToBe(|m.bytes|) <= Bytes(v, m)[5..] && m.bytes <= Bytes(v, m)[9..] &&
              ToBe(m.id) + [Tag(m.kind)] + ToBe(|m.bytes|) <= Bytes(v, m)[0..]
    ensures !Sendable(m) && v.Async? ==>
              |Bytes(v, m)| == 5 && ToBe(m.id) <= Bytes(v, m)[0..] && [Tag(m.kind)] <= Bytes(v, m)[4..]
    ensures !Sendable(m) && v.Blocking? ==> Bytes(v, m) == []
  {
  }

  // What the next piece of a frame leaves on the connection.
  lemma Piece(room: nat, sent: seq<Byte>, frame: seq<Byte>, done: nat, bs: seq<Byte>, i: nat, n: nat)
    requires done <= |frame| && i + n <= |bs| && bs[i..] <= frame[done..] && |sent| + done <= room
    ensures done + n <= |frame| && bs[i..i + n] == frame[done..done + n] && bs[i..i + n] <= frame[done..]
    ensures var written := sent + frame[..done];
            if Fits(room, written, bs[i..i + n]) then written + bs[i..i + n] == sent + frame[..done + n]
            else !Fits(room, sent, frame) && Onto(room, written, bs[i..i + n]) == Onto(room, sent, frame)
  {
    assert bs[i..][..n] == bs[i..i + n] && frame[done..][..n] == frame[done..done + n];
    PieceByPiece(sent, frame, done, n);
    var k := room - |sent + frame[..done]|;
    if k < n {
      assert bs[i..i + n][..k] == frame[done..][..k];
      PieceByPiece(sent, frame, done, k);
    }
  }

  lemma Onwards(frame: seq<Byte>, done: nat, bs: seq<Byte>, i: nat)
    requires done <= |frame| && bs <= frame[done..] && i <= |bs|
    ensures done + i <= |frame| && bs[i..] <= frame[done + i..]
  {
  }

  lemma NothingMore(room: nat, sent: seq<Byte>)
    requires |sent| <= room
    ensures Onto(room, sent, []) == sent
  {
    assert sent + [] == sent;
  }

  // The steps of one loop leave the other where it is, or cancel it.
  lemma OthersLeave(v: Flavour, s: State, a: Action)
    ensures var t := Step(v, s, a);
            s.replies <= t.replies &&
            (!OfSender(a) ==> t.out == s.out && (t.snd == s.snd || (v.Async? && t.snd == SEnded(false)))) &&
            (a != StepRecv ==> t.inp == s.inp && (t.rcv == s.rcv || (v.Async? && t.rcv.REnded?)))
  {
    match a {
      case StepSend => match s.snd { case SWaiting => case SWriting(_, _) => case _ => }
      case StepRecv => match s.rcv { case RReading => case _ => }
      case _ =>
    }
  }
}
