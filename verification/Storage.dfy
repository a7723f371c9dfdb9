/** The byte store that records are pushed into. */
module Storage {

  type byte = bv8

  const PAGE: nat := 4096

  // The least multiple of the page size strictly above n.
  function PageAbove(n: nat): nat { (n / PAGE + 1) * PAGE }

  // Adding a page and masking off the low bits is rounding down to a page, as the size is a power of two.
  lemma MaskRoundsDown(y: bv64)
    ensures y & !(4096 - 1) == (y / 4096) * 4096
  {
  }

  lemma PageAboveIsLeast(n: nat, m: nat)
    requires m > n && m % PAGE == 0
    ensures PageAbove(n) % PAGE == 0 && n < PageAbove(n) <= m && PageAbove(n) == (n + PAGE) / PAGE * PAGE
  {
    assert m == m / PAGE * PAGE;
    assert m / PAGE >= n / PAGE + 1;
  }

  class DisplayListStorage {
    var ptr: array?<byte>
    var used: nat
    var capacity: nat

    ghost predicate Valid()
      reads this
    {
      used <= capacity && (if ptr == null then capacity == 0 else ptr.Length == capacity)
    }

    // The bytes that have been handed out.
    ghost function Contents(): seq<byte>
      requires Valid()
      reads this, ptr
    {
      if ptr == null then [] else ptr[..used]
    }

    constructor ()
      ensures Valid() && used == 0 && capacity == 0 && Contents() == []
    {
      ptr, used, capacity := null, 0, 0;
    }

    // Moves to a buffer of the given size; bytes beyond the old ones are whatever they are.
    method Realloc(count: nat)
      requires Valid() && used <= count
      modifies this`ptr, this`capacity
      ensures Valid() && capacity == count && ptr != null && fresh(ptr)
      ensures Contents() == old(Contents())
      ensures forall k :: 0 <= k < old(capacity) && k < count ==> ptr[k] == old(ptr[k])
    {
      var grown := new byte[count];
      var k := 0;
      while k < capacity && k < count
        invariant k <= capacity && k <= count
        invariant k > 0 ==> ptr != null && ptr.Length == capacity
        invariant forall j :: 0 <= j < k ==> grown[j] == ptr[j]
        modifies grown
      {
        grown[k] := ptr[k];
        k := k + 1;
      }
      ptr := grown;
      capacity := count;
    }

    // Hands out the next bytes. When the buffer grows, as many bytes as it grew by are cleared,
    // starting with the first unused one.
    method Allocate(needed: nat) returns (offset: nat)
      requires Valid()
      modifies this, ptr
      ensures Valid() && offset == old(used) && used == old(used) + needed
      ensures Contents()[..old(used)] == old(Contents())
      ensures capacity == CapacityAfter(old(capacity), old(used), needed)
      ensures capacity != old(capacity) ==>
                && ptr != null && fresh(ptr)
                && (forall k :: old(used) <= k < old(used) + (capacity - old(capacity)) ==> ptr[k] == 0)
                && (forall k :: old(used) + (capacity - old(capacity)) <= k < old(capacity) ==> ptr[k] == old(ptr[k]))
      ensures capacity == old(capacity) ==>
                ptr == old(ptr) && (ptr != null ==> ptr[..] == old(ptr[..]))
    {
      if used + needed > capacity {
        Grow(needed);
      }
      offset := used;
      used := used + needed;
    }

    method Grow(needed: nat)
      requires Valid() && used + needed > capacity
      modifies this`ptr, this`capacity
      ensures Valid() && ptr != null && fresh(ptr) && Contents() == old(Contents())
      ensures capacity == PageAbove(used + needed) && used + needed < capacity && old(capacity) < capacity
      ensures forall k :: used <= k < used + (capacity - old(capacity)) ==> ptr[k] == 0
      ensures forall k :: used + (capacity - old(capacity)) <= k < old(capacity) ==> ptr[k] == old(ptr[k])
    {
      PageAboveIsLeast(used + needed, PageAbove(used + needed));
      var newSize := (used + needed + PAGE) / PAGE * PAGE;
      var oldSize := capacity;
      Realloc(newSize);
      ghost var moved := ptr[..];
      var k := used;
      while k < used + (capacity - oldSize)
        invariant used <= k <= used + (capacity - oldSize) <= capacity == ptr.Length
        invariant forall j :: used <= j < k ==> ptr[j] == 0
        invariant forall j :: 0 <= j < used || k <= j < ptr.Length ==> ptr[j] == moved[j]
        modifies ptr
      {
        ptr[k] := 0;
        k := k + 1;
      }
    }

    method Trim()
      requires Valid()
      modifies this`ptr, this`capacity
      ensures Valid() && capacity == used && Contents() == old(Contents())
    {
      Realloc(used);
    }

    method Reset()
      modifies this
      ensures Valid() && used == 0 && capacity == 0
    {
      ptr, used, capacity := null, 0, 0;
    }

    // Takes over the buffer of another store and leaves that one empty.
    method MoveFrom(source: DisplayListStorage)
      requires Valid() && source.Valid() && source != this
      modifies this, source
      ensures Valid() && source.Valid() && source.used == 0 && source.capacity == 0
      ensures ptr == old(source.ptr) && used == old(source.used) && capacity == old(source.capacity)
      ensures Contents() == old(source.Contents()) && source.Contents() == []
    {
      ptr := source.ptr;
      source.ptr := null;
      used := source.used;
      capacity := source.capacity;
      source.used := 0;
      source.capacity := 0;
    }
  }

  // ---------- runs of allocations ----------

  function CapacityAfter(capacity: nat, used: nat, needed: nat): nat {
    if used + needed > capacity then PageAbove(used + needed) else capacity
  }

  // Where block i of a run begins.
  function Offset(needs: seq<nat>, i: nat): nat
    requires i <= |needs|
  {
    if i == 0 then 0 else Offset(needs, i - 1) + needs[i - 1]
  }

  function Capacity(needs: seq<nat>, i: nat): nat
    requires i <= |needs|
  {
    if i == 0 then 0 else CapacityAfter(Capacity(needs, i - 1), Offset(needs, i - 1), needs[i - 1])
  }

  lemma {:induction false} OffsetsGrow(needs: seq<nat>, i: nat, j: nat)
    requires i <= j <= |needs|
    ensures Offset(needs, i) <= Offset(needs, j)
    decreases j
  {
    if i < j { OffsetsGrow(needs, i, j - 1); }
  }

  ghost predicate InBlock(needs: seq<nat>, i: nat, b: nat)
    requires i < |needs|
  {
    Offset(needs, i) <= b < Offset(needs, i) + needs[i]
  }

  // The blocks of a run tile what is used: every used byte is in exactly one block.
  lemma {:induction false} BlocksTile(needs: seq<nat>, n: nat, b: nat)
    requires n <= |needs|
    ensures b < Offset(needs, n) <==> exists i :: 0 <= i < n && InBlock(needs, i, b)
    ensures forall i, j :: 0 <= i < n && 0 <= j < n && InBlock(needs, i, b) && InBlock(needs, j, b) ==> i == j
  {
    if n > 0 {
      BlocksTile(needs, n - 1, b);
      forall i | 0 <= i < n && InBlock(needs, i, b)
        ensures b < Offset(needs, n) && (i < n - 1 ==> b < Offset(needs, n - 1))
      {
        OffsetsGrow(needs, i + 1, n);
        if i < n - 1 { OffsetsGrow(needs, i + 1, n - 1); }
      }
      if Offset(needs, n - 1) <= b < Offset(needs, n) { assert InBlock(needs, n - 1, b); }
    }
  }

  // The capacity is always enough; it is zero, or a whole number of pages that is no more than
  // one page above some need so far, and it never shrinks.
  lemma {:induction false} CapacitySuffices(needs: seq<nat>, i: nat)
    requires i <= |needs|
    ensures Offset(needs, i) <= Capacity(needs, i) && Capacity(needs, i) % PAGE == 0
    ensures Capacity(needs, i) <= Offset(needs, i) + PAGE
    ensures i > 0 ==> Capacity(needs, i - 1) <= Capacity(needs, i)
  {
    if i > 0 {
      CapacitySuffices(needs, i - 1);
      var n := Offset(needs, i);
      PageAboveIsLeast(n, PageAbove(n));
    }
  }

  // ---------- what growth clears ----------

  // The buffers that a growth may end with: bytes beyond the old buffer that are not cleared are anything.
  ghost predicate Grows(before: seq<byte>, used: nat, after: seq<byte>) {
    && used <= |before| <= |after|
    && after[..used] == before[..used]
    && (forall k :: used <= k < used + (|after| - |before|) ==> after[k] == 0)
    && (forall k :: used + (|after| - |before|) <= k < |before| ==> after[k] == before[k])
  }

  ghost predicate UnusedClear(after: seq<byte>, used: nat) { forall k :: used <= k < |after| ==> after[k] == 0 }

  // Growth is sure to leave every unused byte cleared exactly when the buffer was full. Otherwise
  // the last bytes, as many as were unused before, are not cleared.
  lemma ClearsAllOnlyWhenFull(before: seq<byte>, used: nat, size: nat)
    requires used <= |before| < size && size - |before| >= |before| - used
    ensures (forall after :: Grows(before, used, after) && |after| == size ==> UnusedClear(after, used)) <==>
            used == |before|
  {
    if used < |before| {
      var zeros: seq<byte> := seq(size - used, i => 0);
      var after := (before[..used] + zeros)[size - 1 := 1];
      assert Grows(before, used, after);
      assert after[size - 1] != 0;
      assert !UnusedClear(after, used);
    }
  }
}
