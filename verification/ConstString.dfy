/** Fixed-length strings in sixteen bytes: up to fifteen bytes of text are kept inline behind
    a tag byte, longer text in a heap block of exactly its length. The lowest bit of the first
    byte tells the two apart, because it is the lowest bit of a heap pointer, and those are
    aligned. The layout is the little-endian 64-bit one. */
module ConstString {
  import opened Octets

  type Word = x: nat | x < 0x1_0000_0000_0000_0000

  const STACK_LEN_MAX := 15
  const PTR_ALIGN := 2
  const ISIZE_MAX := 0x7FFF_FFFF_FFFF_FFFF

  // The program leaves it to its callers that a string can be laid out in memory.
  type Text = s: seq<Byte> | |s| < ISIZE_MAX

  // ----- the sixteen bytes

  type Bytes = s: seq<Byte> | |s| == 16 witness seq(16, _ => 0)

  function Pow256(n: nat): nat { if n == 0 then 1 else 256 * Pow256(n - 1) }

  function Le(x: nat, n: nat): (bs: seq<Byte>)
    ensures |bs| == n
  {
    if n == 0 then [] else [x % 256] + Le(x / 256, n - 1)
  }

  function FromLe(bs: seq<Byte>): nat { if bs == [] then 0 else bs[0] + 256 * FromLe(bs[1..]) }

  lemma {:induction false} FromLeOfLe(x: nat, n: nat)
    requires x < Pow256(n)
    ensures FromLe(Le(x, n)) == x
  {
    if n > 0 {
      assert x / 256 < Pow256(n - 1);
      FromLeOfLe(x / 256, n - 1);
      assert Le(x, n)[1..] == Le(x / 256, n - 1);
    }
  }

  lemma WordRoundTrip(x: Word)
    ensures FromLe(Le(x, 8)) == x
  {
    assert Pow256(4) == 0x1_0000_0000;
    assert Pow256(8) == 0x1_0000_0000_0000_0000 by {
      assert Pow256(6) == 256 * (256 * Pow256(4));
      assert Pow256(8) == 256 * (256 * Pow256(6));
    }
    FromLeOfLe(x, 8);
  }

  function TagOf(len: nat): Byte
    requires len <= STACK_LEN_MAX
  {
    (((len as bv8) << 1) | 1) as int
  }

  predicate IsStack(r: Bytes) { (r[0] as bv8) & 1 != 0 }

  function StackLen(r: Bytes): nat { ((r[0] as bv8) >> 1) as int }

  // Text in the first bytes after the tag; the others are whatever was in memory.
  function StackStr(val: Text, junk: Bytes): Bytes
    requires |val| <= STACK_LEN_MAX
  {
    [TagOf(|val|)] + val + junk[1 + |val|..]
  }

  function HeapStr(ptr: Word, len: Word): Bytes { Le(ptr, 8) + Le(len, 8) }

  function HeapPtr(r: Bytes): nat { FromLe(r[..8]) }

  function HeapLen(r: Bytes): nat { FromLe(r[8..]) }

  /** The tag identifies the variant and keeps its length or its pointer. */
  lemma StackStrReads(val: Text, junk: Bytes)
    requires |val| <= STACK_LEN_MAX
    ensures var r := StackStr(val, junk); IsStack(r) && StackLen(r) == |val| && r[1..1 + StackLen(r)] == val
  {
  }

  lemma HeapStrReads(ptr: Word, len: Word)
    requires ptr % PTR_ALIGN == 0
    ensures var r := HeapStr(ptr, len); !IsStack(r) && HeapPtr(r) == ptr && HeapLen(r) == len
  {
    var r := HeapStr(ptr, len);
    assert r[..8] == Le(ptr, 8) && r[8..] == Le(len, 8);
    WordRoundTrip(ptr);
    WordRoundTrip(len);
    assert r[0] == ptr % 256;
    assert r[0] % 2 == 0;
  }

  // `t` is `s` but for the byte at `i`.
  predicate IsWritten(s: seq<Byte>, i: nat, b: Byte, t: seq<Byte>) {
    |t| == |s| && i < |s| && t[i] == b && forall j :: 0 <= j < |s| && j != i ==> t[j] == s[j]
  }

  function SetByte(s: seq<Byte>, i: nat, b: Byte): (t: seq<Byte>)
    requires i < |s|
    ensures IsWritten(s, i, b, t)
  {
    s[i := b]
  }

  // ----- strings on a heap

  type Handle = nat

  datatype Fault = BadFree | WrongSize | ZeroSize | WildRead | WildWrite

  datatype Store = Store(
    blocks: map<Word, seq<Byte>>,     // the allocated blocks
    values: map<Handle, Bytes>,       // the live strings
    faults: set<Fault>)

  const EMPTY := Store(map[], map[], {})

  // What the allocator may answer: an aligned address of no live block.
  predicate Allocates(s: Store, ptr: Word) { ptr != 0 && ptr % PTR_ALIGN == 0 && ptr !in s.blocks }

  // `junk` is what uninitialised bytes hold.
  datatype Op =
    | New(h: Handle, val: Text, ptr: Word, junk: Bytes)
    | Clone(h: Handle, g: Handle, ptr: Word)
    | Write(h: Handle, i: nat, b: Byte)       // through the mutable slice
    | Drop(h: Handle)

  function Put(s: Store, h: Handle, r: Bytes): Store { s.(values := s.values[h := r]) }

  function NewHeap(s: Store, h: Handle, val: Text, ptr: Word): Store {
    Put(s.(blocks := s.blocks[ptr := val], faults := s.faults + if val == [] then {ZeroSize} else {}),
        h, HeapStr(ptr, |val|))
  }

  // The text a string stands for, if what it points at is there.
  predicate Readable(s: Store, r: Bytes) {
    IsStack(r) || (HeapPtr(r) in s.blocks && HeapLen(r) <= |s.blocks[HeapPtr(r)]|)
  }

  function TextOf(s: Store, r: Bytes): seq<Byte> {
    if IsStack(r) then (if StackLen(r) <= STACK_LEN_MAX then r[1..1 + StackLen(r)] else [])
    else if Readable(s, r) then s.blocks[HeapPtr(r)][..HeapLen(r)]
    else []
  }

  function Len(r: Bytes): nat { if IsStack(r) then StackLen(r) else HeapLen(r) }

  function WriteByte(s: Store, h: Handle, i: nat, b: Byte): Store
    requires h in s.values
  {
    var r := s.values[h];
    if i >= Len(r) then s                                     // the slice ends there
    else if IsStack(r) then
      (if i < STACK_LEN_MAX then Put(s, h, r[1 + i := b]) else s.(faults := s.faults + {WildWrite}))
    else if HeapPtr(r) in s.blocks && i < |s.blocks[HeapPtr(r)]| then
      s.(blocks := s.blocks[HeapPtr(r) := SetByte(s.blocks[HeapPtr(r)], i, b)])
    else s.(faults := s.faults + {WildWrite})
  }

  function Dealloc(s: Store, ptr: nat, size: nat): Store {
    if ptr !in s.blocks then s.(faults := s.faults + {BadFree})
    else
      s.(blocks := s.blocks - {ptr},
         faults := s.faults + (if |s.blocks[ptr]| != size then {WrongSize} else {})
                            + (if size == 0 then {ZeroSize} else {}))
  }

  function DropValue(s: Store, h: Handle): Store
    requires h in s.values
  {
    var r := s.values[h];
    var t := s.(values := s.values - {h});
    if IsStack(r) then t else Dealloc(t, HeapPtr(r), HeapLen(r))
  }

  function CloneValue(s: Store, h: Handle, g: Handle, ptr: Word): Store
    requires h in s.values
  {
    var r := s.values[h];
    if IsStack(r) then Put(s, g, r)
    else
      var t := if Readable(s, r) then s else s.(faults := s.faults + {WildRead});
      if |TextOf(s, r)| < ISIZE_MAX then NewHeap(t, g, TextOf(s, r), ptr) else t
  }

  // A name that is taken, or an allocation that fails, leaves everything as it is.
  predicate Happens(s: Store, op: Op) {
    match op
    case New(h, val, ptr, _) => h !in s.values && (|val| <= STACK_LEN_MAX || Allocates(s, ptr))
    case Clone(h, g, ptr) => h in s.values && g !in s.values && (IsStack(s.values[h]) || Allocates(s, ptr))
    case Write(h, _, _) => h in s.values
    case Drop(h) => h in s.values
  }

  function Step(s: Store, op: Op): Store {
    if !Happens(s, op) then s
    else
      match op
      case New(h, val, ptr, junk) =>
        if |val| <= STACK_LEN_MAX then Put(s, h, StackStr(val, junk)) else NewHeap(s, h, val, ptr)
      case Clone(h, g, ptr) => CloneValue(s, h, g, ptr)
      case Write(h, i, b) => WriteByte(s, h, i, b)
      case Drop(h) => DropValue(s, h)
  }

  function Run(ops: seq<Op>): Store {
    if ops == [] then EMPTY else Step(Run(ops[..|ops| - 1]), ops[|ops| - 1])
  }

  // ----- what it refines: independent byte strings

  function Apply(m: map<Handle, seq<Byte>>, op: Op): map<Handle, seq<Byte>> {
    match op
    case New(h, val, _, _) => m[h := val]
    case Clone(h, g, _) => if h in m then m[g := m[h]] else m
    case Write(h, i, b) => if h in m && i < |m[h]| then m[h := SetByte(m[h], i, b)] else m
    case Drop(h) => m - {h}
  }

  function Texts(s: Store): map<Handle, seq<Byte>> { map h | h in s.values :: TextOf(s, s.values[h]) }

  // The strings after a run, by what the operations that happened mean.
  function Meaning(ops: seq<Op>): map<Handle, seq<Byte>> {
    if ops == [] then map[]
    else
      var before := ops[..|ops| - 1];
      if Happens(Run(before), ops[|ops| - 1]) then Apply(Meaning(before), ops[|ops| - 1]) else Meaning(before)
  }

  // ----- what every run keeps

  predicate OnHeap(s: Store, h: Handle) { h in s.values && !IsStack(s.values[h]) }

  predicate ValueOk(s: Store, h: Handle)
    requires h in s.values
  {
    var r := s.values[h];
    if IsStack(r) then StackLen(r) <= STACK_LEN_MAX && r[0] == TagOf(StackLen(r))
    else
      && HeapPtr(r) in s.blocks && |s.blocks[HeapPtr(r)]| == HeapLen(r)
      && STACK_LEN_MAX < HeapLen(r) < ISIZE_MAX
  }

  ghost predicate Unshared(s: Store) {
    forall g, h :: OnHeap(s, g) && OnHeap(s, h) && HeapPtr(s.values[g]) == HeapPtr(s.values[h]) ==> g == h
  }

  ghost predicate Owned(s: Store, p: Word) { exists h :: OnHeap(s, h) && HeapPtr(s.values[h]) == p }

  ghost predicate Inv(s: Store) {
    && s.faults == {}
    && (forall h :: h in s.values ==> ValueOk(s, h))
    && Unshared(s)
    && (forall p :: p in s.blocks ==> Owned(s, p))
  }

  // ----- changing one string

  // Every string but `h`, and its block, is as before.
  ghost predicate SameElsewhere(s: Store, t: Store, h: Handle) {
    && (forall g :: g != h ==> (g in s.values <==> g in t.values))
    && (forall g :: g != h && g in s.values ==> t.values[g] == s.values[g])
    && (forall g :: g != h && OnHeap(s, g) && HeapPtr(s.values[g]) in s.blocks ==>
          HeapPtr(s.values[g]) in t.blocks && t.blocks[HeapPtr(s.values[g])] == s.blocks[HeapPtr(s.values[g])])
  }

  // The block of `h`, if it has one, is its own, and no block is left behind.
  ghost predicate OwnBlock(s: Store, t: Store, h: Handle) {
    && (OnHeap(t, h) ==> forall g :: g != h && OnHeap(s, g) ==> HeapPtr(s.values[g]) != HeapPtr(t.values[h]))
    && (forall p :: p in t.blocks ==>
          (OnHeap(t, h) && p == HeapPtr(t.values[h])) ||
          (p in s.blocks && !(OnHeap(s, h) && p == HeapPtr(s.values[h]))))
  }

  lemma OthersOk(s: Store, t: Store, h: Handle, g: Handle)
    requires g in s.values && ValueOk(s, g) && SameElsewhere(s, t, h) && g != h
    ensures g in t.values && ValueOk(t, g) && TextOf(t, t.values[g]) == TextOf(s, s.values[g])
  {
    if !IsStack(s.values[g]) { assert OnHeap(s, g); }
  }

  lemma StillUnshared(s: Store, t: Store, h: Handle)
    requires Unshared(s) && SameElsewhere(s, t, h) && OwnBlock(s, t, h)
    ensures Unshared(t)
  {
    forall g, k | OnHeap(t, g) && OnHeap(t, k) && HeapPtr(t.values[g]) == HeapPtr(t.values[k]) ensures g == k {
      if g != h { assert OnHeap(s, g); }
      if k != h { assert OnHeap(s, k); }
    }
  }

  lemma StillOwned(s: Store, t: Store, h: Handle, p: Word)
    requires SameElsewhere(s, t, h) && OwnBlock(s, t, h) && (p in s.blocks ==> Owned(s, p)) && p in t.blocks
    ensures Owned(t, p)
  {
    if !(OnHeap(t, h) && p == HeapPtr(t.values[h])) {
      var g :| OnHeap(s, g) && HeapPtr(s.values[g]) == p;
      assert OnHeap(t, g);
    }
  }

  lemma OneKey<K, V>(m: map<K, V>, n: map<K, V>, k: K)
    requires forall j :: j != k ==> (j in m <==> j in n)
    requires forall j :: j in m && j != k ==> n[j] == m[j]
    ensures n == if k in n then m[k := n[k]] else m - {k}
  {
  }

  lemma OtherTexts(s: Store, t: Store, h: Handle)
    requires forall g :: g != h ==> (g in s.values <==> g in t.values)
    requires forall g :: g in s.values && g != h ==> TextOf(t, t.values[g]) == TextOf(s, s.values[g])
    ensures Texts(t) == if h in t.values then Texts(s)[h := TextOf(t, t.values[h])] else Texts(s) - {h}
  {
    OneKey(Texts(s), Texts(t), h);
  }

  lemma OthersAllOk(s: Store, t: Store, h: Handle)
    requires Inv(s) && SameElsewhere(s, t, h)
    ensures forall g :: g in s.values && g != h ==>
              g in t.values && ValueOk(t, g) && TextOf(t, t.values[g]) == TextOf(s, s.values[g])
  {
    forall g | g in s.values && g != h
      ensures g in t.values && ValueOk(t, g) && TextOf(t, t.values[g]) == TextOf(s, s.values[g])
    {
      OthersOk(s, t, h, g);
    }
  }

  lemma Changed(s: Store, t: Store, h: Handle)
    requires Inv(s) && t.faults == {} && SameElsewhere(s, t, h) && OwnBlock(s, t, h)
    requires h in t.values ==> ValueOk(t, h)
    ensures Inv(t)
    ensures Texts(t) == if h in t.values then Texts(s)[h := TextOf(t, t.values[h])] else Texts(s) - {h}
  {
    OthersAllOk(s, t, h);
    OtherTexts(s, t, h);
    StillUnshared(s, t, h);
    forall p | p in t.blocks ensures Owned(t, p) { StillOwned(s, t, h, p); }
  }

  // ----- the operations

  lemma PutInline(s: Store, h: Handle, r: Bytes)
    requires Inv(s) && IsStack(r) && StackLen(r) <= STACK_LEN_MAX && r[0] == TagOf(StackLen(r)) && !OnHeap(s, h)
    ensures Inv(Put(s, h, r)) && Texts(Put(s, h, r)) == Texts(s)[h := TextOf(s, r)]
  {
    Changed(s, Put(s, h, r), h);
  }

  lemma NewHeapKeeps(s: Store, h: Handle, val: Text, ptr: Word)
    requires Inv(s) && h !in s.values && STACK_LEN_MAX < |val| && Allocates(s, ptr)
    ensures var t := NewHeap(s, h, val, ptr); Inv(t) && Texts(t) == Texts(s)[h := val]
  {
    var t := NewHeap(s, h, val, ptr);
    HeapStrReads(ptr, |val|);
    forall g | g != h && OnHeap(s, g) ensures HeapPtr(s.values[g]) != ptr {
      assert ValueOk(s, g);
    }
    assert t.values[h] == HeapStr(ptr, |val|) && t.blocks[ptr] == val;
    assert TextOf(t, t.values[h]) == val;
    Changed(s, t, h);
  }

  lemma WriteHeapKeeps(s: Store, h: Handle, i: nat, b: Byte)
    requires Inv(s) && OnHeap(s, h) && i < Len(s.values[h])
    ensures var t := WriteByte(s, h, i, b);
            Inv(t) && Texts(t) == Texts(s)[h := SetByte(TextOf(s, s.values[h]), i, b)]
  {
    var r := s.values[h];
    assert ValueOk(s, h);
    var t := WriteByte(s, h, i, b);
    forall g | g != h && OnHeap(s, g) ensures HeapPtr(s.values[g]) != HeapPtr(r) { }
    assert ValueOk(t, h);
    Changed(s, t, h);
    assert TextOf(t, r) == SetByte(TextOf(s, r), i, b);
  }

  // The tag stays, and the text is written at `i`.
  lemma WrittenInline(r: Bytes, i: nat, b: Byte)
    requires IsStack(r) && i < StackLen(r) <= STACK_LEN_MAX
    ensures var q: Bytes := r[1 + i := b];
            q[0] == r[0] && q[1..1 + StackLen(r)] == SetByte(r[1..1 + StackLen(r)], i, b)
  {
  }

  lemma WriteInlineKeeps(s: Store, h: Handle, i: nat, b: Byte)
    requires Inv(s) && h in s.values && IsStack(s.values[h]) && i < Len(s.values[h])
    ensures var t := WriteByte(s, h, i, b);
            Inv(t) && Texts(t) == Texts(s)[h := SetByte(TextOf(s, s.values[h]), i, b)]
  {
    var r := s.values[h];
    assert ValueOk(s, h);
    var q: Bytes := r[1 + i := b];
    WrittenInline(r, i, b);
    PutInline(s, h, q);
  }

  lemma WriteKeeps(s: Store, h: Handle, i: nat, b: Byte)
    requires Inv(s) && h in s.values
    ensures var t := WriteByte(s, h, i, b); Inv(t) && Texts(t) == Apply(Texts(s), Write(h, i, b))
  {
    assert ValueOk(s, h);
    assert |TextOf(s, s.values[h])| == Len(s.values[h]);
    if i < Len(s.values[h]) {
      if IsStack(s.values[h]) { WriteInlineKeeps(s, h, i, b); } else { WriteHeapKeeps(s, h, i, b); }
    }
  }

  lemma DropKeeps(s: Store, h: Handle)
    requires Inv(s) && h in s.values
    ensures var t := DropValue(s, h); Inv(t) && Texts(t) == Texts(s) - {h}
  {
    assert ValueOk(s, h);
    var t := DropValue(s, h);
    if !IsStack(s.values[h]) {
      assert OnHeap(s, h);
      forall g | g != h && OnHeap(s, g) ensures HeapPtr(s.values[g]) != HeapPtr(s.values[h]) { }
    }
    Changed(s, t, h);
  }

  lemma CloneKeeps(s: Store, h: Handle, g: Handle, ptr: Word)
    requires Inv(s) && Happens(s, Clone(h, g, ptr))
    ensures var t := CloneValue(s, h, g, ptr); Inv(t) && Texts(t) == Texts(s)[g := Texts(s)[h]]
  {
    assert ValueOk(s, h);
    var r := s.values[h];
    if IsStack(r) {
      PutInline(s, g, r);
    } else {
      NewHeapKeeps(s, g, TextOf(s, r), ptr);
    }
  }

  lemma StepKeeps(s: Store, op: Op)
    requires Inv(s) && Happens(s, op)
    ensures Inv(Step(s, op)) && Texts(Step(s, op)) == Apply(Texts(s), op)
  {
    match op {
      case New(h, val, ptr, junk) =>
        if |val| <= STACK_LEN_MAX {
          StackStrReads(val, junk);
          PutInline(s, h, StackStr(val, junk));
        } else {
          NewHeapKeeps(s, h, val, ptr);
        }
      case Clone(h, g, ptr) => CloneKeeps(s, h, g, ptr);
      case Write(h, i, b) => WriteKeeps(s, h, i, b);
      case Drop(h) => DropKeeps(s, h);
    }
  }

  /** Whatever is created, cloned, written and dropped, in any order, wherever the allocator
      puts it and whatever uninitialised bytes hold: the strings behave like independent byte
      strings, and nothing is read, written or freed that should not be. */
  lemma {:induction false} RefinesStrings(ops: seq<Op>)
    ensures Inv(Run(ops)) && Texts(Run(ops)) == Meaning(ops)
  {
    if ops == [] {
      assert Texts(EMPTY) == map[];
    } else {
      var before := ops[..|ops| - 1];
      RefinesStrings(before);
      if Happens(Run(before), ops[|ops| - 1]) { StepKeeps(Run(before), ops[|ops| - 1]); }
    }
  }

  predicate OnlyChanges(m: map<Handle, seq<Byte>>, n: map<Handle, seq<Byte>>, h: Handle) {
    && (forall g :: g in m && g != h ==> g in n && n[g] == m[g])
    && (forall g :: g in n && g != h ==> g in m)
  }

  // What an operation makes of the strings `m`: a new one holds its text, a clone the text of
  // the other, a write changes the byte at its place and none besides, a drop removes one; and
  // all other strings stay as they are.
  predicate Makes(op: Op, m: map<Handle, seq<Byte>>, n: map<Handle, seq<Byte>>) {
    match op
    case New(h, val, _, _) => OnlyChanges(m, n, h) && h !in m && h in n && n[h] == val
    case Clone(h, g, _) => OnlyChanges(m, n, g) && h in m && g !in m && g in n && n[g] == m[h]
    case Write(h, i, b) =>
      OnlyChanges(m, n, h) && h in m && h in n && if i < |m[h]| then IsWritten(m[h], i, b, n[h]) else n[h] == m[h]
    case Drop(h) => OnlyChanges(m, n, h) && h in m && h !in n
  }

  // The operation finds the names it needs.
  predicate Applies(m: map<Handle, seq<Byte>>, op: Op) {
    match op
    case New(h, _, _, _) => h !in m
    case Clone(h, g, _) => h in m && g !in m
    case Write(h, _, _) => h in m
    case Drop(h) => h in m
  }

  lemma ApplyMakes(m: map<Handle, seq<Byte>>, op: Op)
    requires Applies(m, op)
    ensures Makes(op, m, Apply(m, op))
  {
  }

  /** In every run each operation that happens makes of the strings what it is for. */
  lemma {:induction false} EachOperationMakes(ops: seq<Op>, op: Op)
    requires Happens(Run(ops), op)
    ensures Makes(op, Meaning(ops), Meaning(ops + [op]))
  {
    assert (ops + [op])[..|ops|] == ops;
    RefinesStrings(ops);
    assert forall h :: h in Meaning(ops) <==> h in Run(ops).values;
    ApplyMakes(Meaning(ops), op);
  }

  lemma EightDigits(bs: seq<Byte>)
    requires |bs| == 8
    ensures FromLe(bs) == LittleEndian(bs)
  {
    assert FromLe(bs[7..]) == bs[7] by { assert bs[7..][1..] == []; }
    LowDigit(bs, 6);
    LowDigit(bs, 5);
    LowDigit(bs, 4);
    LowDigit(bs, 3);
    LowDigit(bs, 2);
    LowDigit(bs, 1);
    LowDigit(bs, 0);
    assert bs[0..] == bs;
  }

  lemma LowDigit(bs: seq<Byte>, k: nat)
    requires k < |bs|
    ensures FromLe(bs[k..]) == bs[k] + 256 * FromLe(bs[k + 1..])
  {
    assert bs[k..][1..] == bs[k + 1..];
  }

  // A number of eight bytes, least significant first.
  function LittleEndian(bs: seq<Byte>): nat
    requires |bs| == 8
  {
    bs[0] as int + 0x100 * bs[1] as int + 0x1_0000 * bs[2] as int + 0x100_0000 * bs[3] as int +
    0x1_0000_0000 * bs[4] as int + 0x100_0000_0000 * bs[5] as int + 0x1_0000_0000_0000 * bs[6] as int +
    0x100_0000_0000_0000 * bs[7] as int
  }

  /** The sixteen bytes of a string: up to fifteen bytes of text follow a byte that is twice their
      number plus one; longer text is in a block of its own, whose even address and length are
      the two words, least significant byte first. */
  lemma {:induction false} BytesOf(ops: seq<Op>, h: Handle)
    requires h in Run(ops).values
    ensures h in Meaning(ops)
    ensures var s, r, text := Run(ops), Run(ops).values[h], Meaning(ops)[h];
            if |text| <= 15
            then r[0] == 2 * |text| + 1 && forall i :: 0 <= i < |text| ==> r[1 + i] == text[i]
            else
              var ptr := LittleEndian(r[..8]);
              r[0] % 2 == 0 && ptr in s.blocks && s.blocks[ptr] == text && LittleEndian(r[8..]) == |text|
  {
    RefinesStrings(ops);
    var s, r := Run(ops), Run(ops).values[h];
    assert ValueOk(s, h) && h in Texts(s) && Texts(s)[h] == TextOf(s, r);
    EightDigits(r[..8]);
    EightDigits(r[8..]);
    if IsStack(r) { TagIsOdd(StackLen(r)); } else { EvenTag(r[0]); }
  }

  lemma EvenTag(b: Byte)
    requires (b as bv8) & 1 == 0
    ensures b % 2 == 0
  {
  }

  lemma TagIsOdd(len: nat)
    requires len <= STACK_LEN_MAX
    ensures TagOf(len) == 2 * len + 1
  {
    match len {
      case 0 => case 1 => case 2 => case 3 => case 4 => case 5 => case 6 => case 7 =>
      case 8 => case 9 => case 10 => case 11 => case 12 => case 13 => case 14 => case _ =>
    }
  }

  /** The allocator may answer any even address that is not in use; nothing else is asked of it. */
  lemma EvenAddressesDo(s: Store, ptr: Word)
    ensures Allocates(s, ptr) <==> ptr != 0 && ptr % 2 == 0 && ptr !in s.blocks
  {
  }

  /** The tag tells how long a string is: inline exactly up to fifteen bytes. */
  lemma {:induction false} TagIdentifiesVariant(ops: seq<Op>, h: Handle)
    requires h in Run(ops).values
    ensures var s := Run(ops);
            h in Meaning(ops) && Len(s.values[h]) == |Meaning(ops)[h]| &&
            (IsStack(s.values[h]) <==> |Meaning(ops)[h]| <= STACK_LEN_MAX)
  {
    RefinesStrings(ops);
    var s := Run(ops);
    assert ValueOk(s, h) && h in Texts(s);
  }

  /** Blocks and long strings correspond one to one, and with the last string the last block
      is gone. */
  lemma {:induction false} NothingLeaks(ops: seq<Op>)
    ensures var s := Run(ops);
            (forall p: Word :: p in s.blocks <==> Owned(s, p)) && Unshared(s) &&
            (s.values.Keys == {} ==> s.blocks.Keys == {})
  {
    RefinesStrings(ops);
    var s := Run(ops);
    forall h | OnHeap(s, h) ensures HeapPtr(s.values[h]) in s.blocks {
      assert ValueOk(s, h);
    }
    assert forall p :: p in s.blocks ==> Owned(s, p);
  }
}
