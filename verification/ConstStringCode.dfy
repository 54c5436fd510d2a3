/** The operations on fixed-length strings, working on the sixteen bytes of each string and on
    the heap in place. A caller sees independent byte strings. */
module ConstStringCode {
  import opened Octets
  import opened ConstString

  class Strings {
    var blocks: map<Word, seq<Byte>>
    var values: map<Handle, Bytes>

    ghost function Abs(): Store
      reads this
    {
      Store(blocks, values, {})
    }

    // Every access below is to memory that is there, and every block belongs to one string.
    ghost predicate Valid()
      reads this
    {
      Inv(Abs())
    }

    ghost function Contents(): map<Handle, seq<Byte>>
      reads this
    {
      Texts(Abs())
    }

    constructor ()
      ensures Valid() && values == map[] && blocks == map[]
    {
      blocks, values := map[], map[];
    }

    // `ptr` is the allocator's answer, if it is asked; `junk` is what uninitialised bytes hold.
    method New(h: Handle, val: Text, ptr: Word, junk: Bytes)
      requires Valid() && h !in values && (|val| > STACK_LEN_MAX ==> Allocates(Abs(), ptr))
      modifies this
      ensures Valid() && Contents() == old(Contents())[h := val]
    {
      StepKeeps(Abs(), Op.New(h, val, ptr, junk));
      if |val| <= STACK_LEN_MAX {
        values := values[h := [TagOf(|val|)] + val + junk[1 + |val|..]];
      } else {
        Alloc(h, val, ptr);
      }
    }

    method Alloc(h: Handle, val: Text, ptr: Word)
      requires |val| > STACK_LEN_MAX
      modifies this
      ensures Abs() == NewHeap(old(Abs()), h, val, ptr)
    {
      blocks := blocks[ptr := val];
      values := values[h := Le(ptr, 8) + Le(|val|, 8)];
    }

    method Length(h: Handle) returns (n: nat)
      requires Valid() && h in values
      ensures h in Contents() && n == |Contents()[h]|
    {
      assert ValueOk(Abs(), h);
      var r := values[h];
      if IsStack(r) { return StackLen(r); }
      return HeapLen(r);
    }

    method AsStr(h: Handle) returns (val: seq<Byte>)
      requires Valid() && h in values
      ensures h in Contents() && val == Contents()[h]
    {
      assert ValueOk(Abs(), h);
      var r := values[h];
      if IsStack(r) { return r[1..1 + StackLen(r)]; }
      return blocks[HeapPtr(r)][..HeapLen(r)];
    }

    // A write through the mutable slice, which ends with the text.
    method SetAt(h: Handle, i: nat, b: Byte)
      requires Valid() && h in values && i < |Contents()[h]|
      modifies this
      ensures Valid() && OnlyChanges(old(Contents()), Contents(), h)
      ensures h in Contents() && IsWritten(old(Contents()[h]), i, b, Contents()[h])
    {
      StepKeeps(Abs(), Write(h, i, b));
      ghost var before := Contents();
      assert ValueOk(Abs(), h);
      var r := values[h];
      if IsStack(r) {
        values := values[h := r[1 + i := b]];
      } else {
        blocks := blocks[HeapPtr(r) := SetByte(blocks[HeapPtr(r)], i, b)];
      }
      assert Contents() == Apply(before, Write(h, i, b));
    }

    method Clone(h: Handle, g: Handle, ptr: Word)
      requires Valid() && h in values && g !in values && (!IsStack(values[h]) ==> Allocates(Abs(), ptr))
      modifies this
      ensures Valid() && Contents() == old(Contents())[g := old(Contents()[h])]
    {
      StepKeeps(Abs(), Op.Clone(h, g, ptr));
      assert ValueOk(Abs(), h);
      var r := values[h];
      if IsStack(r) {
        values := values[g := r];
      } else {
        var val := AsStr(h);
        Alloc(g, val, ptr);
      }
    }

    method Drop(h: Handle)
      requires Valid() && h in values
      modifies this
      ensures Valid() && Contents() == old(Contents()) - {h}
    {
      StepKeeps(Abs(), Op.Drop(h));
      assert ValueOk(Abs(), h);
      var r := values[h];
      values := values - {h};
      if !IsStack(r) { blocks := blocks - {HeapPtr(r)}; }
    }
  }
}
