/** The 32-bit status word of the channel: five flag bits, the operations that
    set, clear and query one flag, and the word each compare-and-swap installs.

    The protocol is proved over flag records (`Word`). `BitAlgebra` and
    `EncodeIsInjective` show that the machine words behave the same way: every flag
    operation on the record is the bit operation on its encoding, and two records
    are equal exactly when a compare-and-swap would find their encodings equal. */
module Words {

  datatype Flag = READY | CLOSE | WAITING | FIELDLESS | PENDING

  datatype Word = Word(ready: bool, close: bool, waiting: bool, fieldless: bool, pending: bool)

  // The nine patterns of the status table, named after their meaning.
  const NEW := Word(false, false, false, false, false)
  const SENT := Word(true, false, false, false, false)
  const BLOCKED := Word(false, false, true, false, false)
  const PARKED := Word(false, false, true, false, true)
  const POLLING := Word(false, false, true, true, true)
  const TAKEN := Word(false, false, false, true, false)
  const CLOSED := Word(false, true, false, false, false)
  const DROPPING := Word(false, true, false, true, false)
  const FINISHED := Word(true, true, false, true, false)

  predicate IsNew(w: Word) { !w.ready && !w.close && !w.waiting && !w.fieldless && !w.pending }
  predicate IsBlocked(w: Word) { !w.ready && !w.close && w.waiting && !w.fieldless && !w.pending }
  predicate IsParked(w: Word) { !w.ready && !w.close && w.waiting && !w.fieldless && w.pending }
  predicate IsPolling(w: Word) { !w.ready && !w.close && w.waiting && w.fieldless && w.pending }
  predicate IsTaken(w: Word) { !w.ready && !w.close && !w.waiting && w.fieldless && !w.pending }
  predicate IsClosed(w: Word) { !w.ready && w.close && !w.waiting && !w.fieldless && !w.pending }
  predicate IsFinished(w: Word) { w.ready && w.close && !w.waiting && w.fieldless && !w.pending }

  predicate Listed(w: Word) {
    w in {NEW, SENT, BLOCKED, PARKED, POLLING, TAKEN, CLOSED, DROPPING, FINISHED}
  }

  // The same nine patterns, as constraints between the flags.
  predicate WellFormed(w: Word) {
    && (w.pending ==> w.waiting)
    && (w.waiting ==> !w.ready && !w.close && (w.fieldless ==> w.pending))
    && (w.ready ==> w.close == w.fieldless)
  }

  lemma WellFormedIsListed(w: Word)
    ensures WellFormed(w) <==> Listed(w)
  {
  }

  function Set(w: Word, f: Flag): Word {
    match f
    case READY => w.(ready := true)
    case CLOSE => w.(close := true)
    case WAITING => w.(waiting := true)
    case FIELDLESS => w.(fieldless := true)
    case PENDING => w.(pending := true)
  }

  function Clear(w: Word, f: Flag): Word {
    match f
    case READY => w.(ready := false)
    case CLOSE => w.(close := false)
    case WAITING => w.(waiting := false)
    case FIELDLESS => w.(fieldless := false)
    case PENDING => w.(pending := false)
  }

  predicate Has(w: Word, f: Flag) {
    match f
    case READY => w.ready
    case CLOSE => w.close
    case WAITING => w.waiting
    case FIELDLESS => w.fieldless
    case PENDING => w.pending
  }

  function Bit(f: Flag): bv32 {
    match f
    case READY => 1
    case CLOSE => 2
    case WAITING => 4
    case FIELDLESS => 8
    case PENDING => 16
  }

  function With(x: bv32, f: Flag): bv32 { x | Bit(f) }

  function Without(x: bv32, f: Flag): bv32 { x & !Bit(f) }

  predicate Is(x: bv32, f: Flag) { x & Bit(f) != 0 }

  function Encode(w: Word): bv32 {
    (if w.ready then 1 else 0) | (if w.close then 2 else 0) | (if w.waiting then 4 else 0) |
    (if w.fieldless then 8 else 0) | (if w.pending then 16 else 0)
  }

  // The flag is a bit of the encoding.
  predicate IsBit(w: Word, f: Flag) {
    && Encode(Set(w, f)) == With(Encode(w), f)
    && Encode(Clear(w, f)) == Without(Encode(w), f)
    && (Has(w, f) <==> Is(Encode(w), f))
  }

  // The encoding of the other flags.
  function Others(w: Word, f: Flag): bv32 { Encode(Clear(w, f)) }

  lemma ReadyBit(w: Word)
    ensures IsBit(w, READY)
  {
    assert Encode(w) == Others(w, READY) | (if w.ready then 1 else 0);
    assert Others(w, READY) & 1 == 0;
  }

  lemma CloseBit(w: Word)
    ensures IsBit(w, CLOSE)
  {
    assert Encode(w) == Others(w, CLOSE) | (if w.close then 2 else 0);
    assert Others(w, CLOSE) & 2 == 0;
  }

  lemma WaitingBit(w: Word)
    ensures IsBit(w, WAITING)
  {
    assert Encode(w) == Others(w, WAITING) | (if w.waiting then 4 else 0);
    assert Others(w, WAITING) & 4 == 0;
  }

  lemma FieldlessBit(w: Word)
    ensures IsBit(w, FIELDLESS)
  {
    assert Encode(w) == Others(w, FIELDLESS) | (if w.fieldless then 8 else 0);
    assert Others(w, FIELDLESS) & 8 == 0;
  }

  lemma PendingBit(w: Word)
    ensures IsBit(w, PENDING)
  {
    assert Encode(w) == Others(w, PENDING) | (if w.pending then 16 else 0);
    assert Others(w, PENDING) & 16 == 0;
  }

  lemma BitAlgebra(w: Word, f: Flag)
    ensures Encode(Set(w, f)) == With(Encode(w), f)
    ensures Encode(Clear(w, f)) == Without(Encode(w), f)
    ensures Has(w, f) <==> Is(Encode(w), f)
  {
    match f {
      case READY => ReadyBit(w);
      case CLOSE => CloseBit(w);
      case WAITING => WaitingBit(w);
      case FIELDLESS => FieldlessBit(w);
      case PENDING => PendingBit(w);
    }
  }

  lemma SameReady(v: Word, w: Word)
    requires Encode(v) == Encode(w)
    ensures v.ready == w.ready
  {
    ReadyBit(v);
    ReadyBit(w);
    assert Is(Encode(v), READY) == Is(Encode(w), READY);
  }

  lemma SameClose(v: Word, w: Word)
    requires Encode(v) == Encode(w)
    ensures v.close == w.close
  {
    CloseBit(v);
    CloseBit(w);
    assert Is(Encode(v), CLOSE) == Is(Encode(w), CLOSE);
  }

  lemma SameWaiting(v: Word, w: Word)
    requires Encode(v) == Encode(w)
    ensures v.waiting == w.waiting
  {
    WaitingBit(v);
    WaitingBit(w);
    assert Is(Encode(v), WAITING) == Is(Encode(w), WAITING);
  }

  lemma SameFieldless(v: Word, w: Word)
    requires Encode(v) == Encode(w)
    ensures v.fieldless == w.fieldless
  {
    FieldlessBit(v);
    FieldlessBit(w);
    assert Is(Encode(v), FIELDLESS) == Is(Encode(w), FIELDLESS);
  }

  lemma SamePending(v: Word, w: Word)
    requires Encode(v) == Encode(w)
    ensures v.pending == w.pending
  {
    PendingBit(v);
    PendingBit(w);
    assert Is(Encode(v), PENDING) == Is(Encode(w), PENDING);
  }

  lemma EncodeIsInjective(v: Word, w: Word)
    ensures Encode(v) == Encode(w) <==> v == w
  {
    if Encode(v) == Encode(w) {
      SameReady(v, w);
      SameClose(v, w);
      SameWaiting(v, w);
      SameFieldless(v, w);
      SamePending(v, w);
    }
  }

  /** The two builds of the crate: without and with the `async` feature. */
  datatype Build = SyncOnly | WithAsync

  // The word each status method tries to install over the snapshot `w`.
  function ReadySetup(b: Build, w: Word): Word {
    if b.WithAsync?
    then Clear(Clear(Clear(Set(w, READY), WAITING), FIELDLESS), PENDING)
    else Clear(Set(w, READY), WAITING)
  }

  function DatalessSetup(w: Word): Word { Set(Clear(w, READY), FIELDLESS) }

  function ReadyUnset(w: Word): Word { Clear(w, READY) }

  function ClosedAsyncSetup(w: Word): Word { Clear(Clear(Set(w, CLOSE), WAITING), PENDING) }

  function ClosedWakeSetup(w: Word): Word { Clear(Set(w, CLOSE), WAITING) }

  function ClosedDroppingSet(w: Word): Word { Set(Set(w, CLOSE), FIELDLESS) }

  function FieldlessSet(w: Word): Word { Set(w, FIELDLESS) }

  function WaitingSet(w: Word): Word { Set(w, WAITING) }

  function PollingSet(w: Word): Word { Set(Set(Set(w, WAITING), PENDING), FIELDLESS) }

  function PendingUnset(w: Word): Word { Clear(w, PENDING) }

  function FieldlessUnset(w: Word): Word { Clear(w, FIELDLESS) }
}
