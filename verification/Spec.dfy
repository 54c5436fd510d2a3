/** The atomic one-shot channel the lock-free one has to behave like: a slot that is
    filled at most once, emptied at most once, and can be closed from either side. An
    event is an operation together with its answer, happening at one instant. */
module Spec {

  datatype Slot = Empty | Full(x: int) | Gone

  datatype OneShot = OneShot(slot: Slot, senderClosed: bool, receiverClosed: bool)

  const START := OneShot(Empty, false, false)

  datatype Event =
    | Internal
    | SendOk(x: int)
    | SendErr(x: int)
    | RecvSome(x: int)
    | RecvNone
    | Discard(x: int)        // the receiver drops an unread value
    | CloseSender
    | CloseReceiver

  // `o` may answer `e` and become `p`.
  predicate Next(o: OneShot, e: Event, p: OneShot) {
    match e
    case Internal => p == o
    case SendOk(x) => o.slot == Empty && !o.senderClosed && !o.receiverClosed && p == o.(slot := Full(x))
    case SendErr(x) => o.slot == Empty && o.receiverClosed && p == o
    case RecvSome(x) => o.slot == Full(x) && !o.receiverClosed && p == o.(slot := Gone)
    case RecvNone =>
      !o.receiverClosed && (o.slot == Gone || (o.slot == Empty && o.senderClosed)) && p == o
    case Discard(x) => o.slot == Full(x) && !o.receiverClosed && p == o.(slot := Gone)
    case CloseSender => !o.senderClosed && !o.receiverClosed && p == o.(senderClosed := true)
    case CloseReceiver => !o.senderClosed && !o.receiverClosed && p == o.(receiverClosed := true)
  }

  // The state the events lead to from `START`, tracked without judging them.
  function Effect(o: OneShot, e: Event): OneShot {
    match e
    case SendOk(x) => o.(slot := Full(x))
    case RecvSome(_) => o.(slot := Gone)
    case Discard(_) => o.(slot := Gone)
    case CloseSender => o.(senderClosed := true)
    case CloseReceiver => o.(receiverClosed := true)
    case _ => o
  }

  function After(es: seq<Event>): OneShot {
    if es == [] then START else Effect(After(es[..|es| - 1]), es[|es| - 1])
  }

  // A history of the atomic channel.
  predicate Legal(es: seq<Event>) {
    es == [] ||
    (Legal(es[..|es| - 1]) && Next(After(es[..|es| - 1]), es[|es| - 1], After(es)))
  }

  predicate Takes(e: Event) { e.RecvSome? || e.Discard? }

  lemma {:induction false} LegalPrefix(es: seq<Event>, n: nat)
    requires Legal(es) && n <= |es|
    ensures Legal(es[..n])
  {
    if n < |es| {
      LegalPrefix(es[..|es| - 1], n);
      assert es[..|es| - 1][..n] == es[..n];
    } else {
      assert es[..n] == es;
    }
  }

  predicate Sends(es: seq<Event>) { exists k :: 0 <= k < |es| && es[k].SendOk? }

  predicate Taken(es: seq<Event>) { exists k :: 0 <= k < |es| && Takes(es[k]) }

  lemma Snoc(es: seq<Event>, e: Event)
    ensures Sends(es + [e]) <==> Sends(es) || e.SendOk?
    ensures Taken(es + [e]) <==> Taken(es) || Takes(e)
  {
    var fs := es + [e];
    assert fs[|es|] == e;
    if Sends(es) {
      var k :| 0 <= k < |es| && es[k].SendOk?;
      assert fs[k] == es[k];
    }
    if Taken(es) {
      var k :| 0 <= k < |es| && Takes(es[k]);
      assert fs[k] == es[k];
    }
  }

  // What the state of the atomic channel says about its history.
  predicate Tells(o: OneShot, es: seq<Event>) {
    && (o.slot == Empty <==> !Sends(es))
    && (o.slot == Gone <==> Taken(es))
    && (o.slot.Full? ==> SendOk(o.slot.x) in es)
    && (o.senderClosed <==> CloseSender in es)
    && (o.receiverClosed <==> CloseReceiver in es)
  }

  lemma TellsNext(o: OneShot, es: seq<Event>, e: Event, p: OneShot)
    requires Tells(o, es) && Next(o, e, p)
    ensures Tells(p, es + [e])
  {
    Snoc(es, e);
  }

  lemma {:induction false} SlotTells(es: seq<Event>)
    requires Legal(es)
    ensures Tells(After(es), es)
  {
    if es != [] {
      var n := |es| - 1;
      SlotTells(es[..n]);
      TellsNext(After(es[..n]), es[..n], es[n], After(es));
      assert es == es[..n] + [es[n]];
    }
  }

  lemma {:induction false} TakesOnce(es: seq<Event>, i: nat, j: nat)
    requires Legal(es) && i < |es| && j < |es| && Takes(es[j])
    ensures i < j ==> !Takes(es[i])
  {
    LegalPrefix(es, j + 1);
    assert es[..j + 1][..j] == es[..j] && es[..j + 1][j] == es[j];
    SlotTells(es[..j]);
    if i < j { assert !Takes(es[..j][i]); }
  }

  /** What the atomic channel promises: a value is received at most once and only what was
      sent before; None is answered only after the value was taken, or after the sender
      closed without having sent; a send is refused only after the receiver closed. */
  lemma {:induction false} Promises(es: seq<Event>, k: nat)
    requires Legal(es) && k < |es|
    ensures Takes(es[k]) ==> forall j :: 0 <= j < |es| && Takes(es[j]) ==> j == k
    ensures es[k].RecvSome? ==> SendOk(es[k].x) in es[..k]
    ensures es[k].RecvNone? ==>
      Taken(es[..k]) || (CloseSender in es[..k] && !Sends(es[..k]))
    ensures es[k].SendErr? ==> CloseReceiver in es[..k]
    ensures es[k].SendOk? ==> !Sends(es[..k]) && CloseReceiver !in es[..k]
  {
    LegalPrefix(es, k + 1);
    assert es[..k + 1][..k] == es[..k] && es[..k + 1][k] == es[k];
    SlotTells(es[..k]);
    if Takes(es[k]) {
      forall j | 0 <= j < |es| && Takes(es[j]) ensures j == k {
        TakesOnce(es, k, j);
        TakesOnce(es, j, k);
      }
    }
  }
}
