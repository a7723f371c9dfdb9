/** Comparing two display lists byte by byte where that is enough, in runs as long as possible. */
module Comparison {
  import opened Storage

  // What a record's own comparison says: it sees a difference, it sees none, or it leaves the
  // comparison to the bytes.
  datatype Verdict = NotEqual | Equal | UseBulk

  // The store of a list with the offsets of its records, and the type of each.
  datatype Stored = Stored(bytes: seq<byte>, offsets: seq<nat>, kinds: seq<nat>) {
    // The records tile the bytes, in order.
    ghost predicate Tiled() {
      && |kinds| == |offsets|
      && (forall i, j :: 0 <= i < j <= |offsets| ==> Start(i) < Start(j))
      && Start(0) == 0
    }

    // Where record i starts, or after the last one, where it ends.
    function Start(i: nat): nat
      requires i <= |offsets|
    {
      if i < |offsets| then offsets[i] else |bytes|
    }
  }

  ghost predicate Comparable(a: Stored, b: Stored) {
    a.Tiled() && b.Tiled() && a.offsets == b.offsets && |a.bytes| == |b.bytes|
  }

  // The bytes of the records from lo up to hi are the same.
  ghost predicate SameBytes(a: Stored, b: Stored, lo: nat, hi: nat)
    requires Comparable(a, b) && lo <= hi <= |a.offsets|
  {
    StartsGrow(a, lo, hi);
    a.bytes[a.Start(lo)..a.Start(hi)] == b.bytes[a.Start(lo)..a.Start(hi)]
  }

  ghost predicate SameOne(a: Stored, b: Stored, i: nat)
    requires Comparable(a, b) && i < |a.offsets|
  {
    SameBytes(a, b, i, i + 1)
  }

  lemma StartsGrow(a: Stored, lo: nat, hi: nat)
    requires a.Tiled() && lo <= hi <= |a.offsets|
    ensures a.Start(lo) <= a.Start(hi) <= |a.bytes|
  {
    if hi < |a.offsets| { assert a.Start(hi) < a.Start(|a.offsets|); }
  }

  // Record i is equal in both by its own comparison, or else byte by byte.
  ghost predicate SameRecord(a: Stored, b: Stored, verdicts: seq<Verdict>, i: nat)
    requires Comparable(a, b) && i < |a.offsets| == |verdicts|
  {
    && a.kinds[i] == b.kinds[i] && verdicts[i] != NotEqual
    && (verdicts[i] == UseBulk ==> SameOne(a, b, i))
  }

  lemma SplitEqual(x: seq<byte>, y: seq<byte>, i: nat, j: nat, k: nat)
    requires i <= j <= k <= |x| == |y|
    ensures x[i..k] == y[i..k] <==> x[i..j] == y[i..j] && x[j..k] == y[j..k]
  {
    assert x[i..k] == x[i..j] + x[j..k] && y[i..k] == y[i..j] + y[j..k];
    if x[i..k] == y[i..k] {
      assert x[i..k][..j - i] == x[i..j] && x[i..k][j - i..] == x[j..k];
      assert y[i..k][..j - i] == y[i..j] && y[i..k][j - i..] == y[j..k];
    }
  }

  lemma SplitBytes(a: Stored, b: Stored, lo: nat, mid: nat, hi: nat)
    requires Comparable(a, b) && lo <= mid <= hi <= |a.offsets|
    ensures SameBytes(a, b, lo, hi) <==> SameBytes(a, b, lo, mid) && SameBytes(a, b, mid, hi)
  {
    StartsGrow(a, lo, mid);
    StartsGrow(a, mid, hi);
    SplitEqual(a.bytes, b.bytes, a.Start(lo), a.Start(mid), a.Start(hi));
  }

  lemma NoBytes(a: Stored, b: Stored, i: nat)
    requires Comparable(a, b) && i <= |a.offsets|
    ensures SameBytes(a, b, i, i)
  {
    StartsGrow(a, i, i);
    assert a.bytes[a.Start(i)..a.Start(i)] == [] == b.bytes[a.Start(i)..a.Start(i)];
  }

  // Comparing a run of adjacent records in one go is comparing each of them.
  lemma {:induction false} BulkIsEach(a: Stored, b: Stored, lo: nat, hi: nat)
    requires Comparable(a, b) && lo <= hi <= |a.offsets|
    ensures SameBytes(a, b, lo, hi) <==> forall i :: lo <= i < hi ==> SameOne(a, b, i)
    decreases hi
  {
    hide SameBytes, Comparable;
    if lo == hi {
      NoBytes(a, b, lo);
    } else {
      BulkIsEach(a, b, lo, hi - 1);
      SplitBytes(a, b, lo, hi - 1, hi);
      assert SameOne(a, b, hi - 1) == SameBytes(a, b, hi - 1, hi);
    }
  }

  // Records lo up to hi have the same types and are still waiting for their bytes to be compared.
  ghost predicate Waiting(a: Stored, b: Stored, verdicts: seq<Verdict>, lo: nat, hi: nat)
    requires |verdicts| == |a.offsets| == |a.kinds| == |b.kinds| && hi <= |a.offsets|
  {
    lo <= hi && forall i :: lo <= i < hi ==> verdicts[i] == UseBulk && a.kinds[i] == b.kinds[i]
  }

  lemma WaitingSettled(a: Stored, b: Stored, verdicts: seq<Verdict>, lo: nat, hi: nat)
    requires Comparable(a, b) && |verdicts| == |a.offsets| && hi <= |a.offsets| && Waiting(a, b, verdicts, lo, hi)
    ensures SameBytes(a, b, lo, hi) <==> forall i :: lo <= i < hi ==> SameRecord(a, b, verdicts, i)
  {
    hide SameBytes;
    BulkIsEach(a, b, lo, hi);
    if forall i :: lo <= i < hi ==> SameRecord(a, b, verdicts, i) {
      forall i | lo <= i < hi ensures SameOne(a, b, i) {
        assert SameRecord(a, b, verdicts, i);
      }
    }
  }

  // Compares the bytes of a whole backlog of records at once, and only when it has to.
  method CompareOps(a: Stored, b: Stored, verdicts: seq<Verdict>) returns (same: bool)
    requires Comparable(a, b) && |verdicts| == |a.offsets|
    ensures same <==> forall i :: 0 <= i < |a.offsets| ==> SameRecord(a, b, verdicts, i)
  {
    hide SameRecord;
    var bulkStart := 0;
    ghost var lo := 0;
    var i := 0;
    while i < |a.offsets|
      invariant lo <= i <= |a.offsets| && bulkStart == a.Start(lo) && Waiting(a, b, verdicts, lo, i)
      invariant forall k :: 0 <= k < lo ==> SameRecord(a, b, verdicts, k)
    {
      var offset := a.offsets[i];
      RecordDecided(a, b, verdicts, i);
      if a.kinds[i] != b.kinds[i] {
        return false;
      }
      match verdicts[i] {
        case NotEqual => return false;
        case UseBulk =>
        case Equal =>
          WaitingSettled(a, b, verdicts, lo, i);
          StartsGrow(a, lo, i);
          if bulkStart < offset {
            if a.bytes[bulkStart..offset] != b.bytes[bulkStart..offset] {
              return false;
            }
          }
          bulkStart := if i + 1 < |a.offsets| then a.offsets[i + 1] else |a.bytes|;
          lo := i + 1;
      }
      i := i + 1;
    }
    WaitingSettled(a, b, verdicts, lo, i);
    StartsGrow(a, lo, i);
    assert a.bytes[bulkStart..] == a.bytes[bulkStart..|a.bytes|]
           && b.bytes[bulkStart..] == b.bytes[bulkStart..|a.bytes|];
    if bulkStart < |a.bytes| {
      if a.bytes[bulkStart..] != b.bytes[bulkStart..] {
        return false;
      }
    }
    same := true;
  }

  lemma RecordDecided(a: Stored, b: Stored, verdicts: seq<Verdict>, i: nat)
    requires Comparable(a, b) && i < |a.offsets| == |verdicts|
    ensures a.kinds[i] != b.kinds[i] || verdicts[i] == NotEqual ==> !SameRecord(a, b, verdicts, i)
    ensures a.kinds[i] == b.kinds[i] && verdicts[i] == Equal ==> SameRecord(a, b, verdicts, i)
  {
  }

  // A display list as an object that can be compared: the identity of its buffer, its operation
  // count, and its store.
  datatype Comparand = Comparand(base: int, opCount: nat, stored: Stored)

  ghost predicate SameRecords(a: Stored, b: Stored, verdicts: seq<Verdict>)
    requires Comparable(a, b) && |verdicts| == |a.offsets|
  {
    forall i :: 0 <= i < |a.offsets| ==> SameRecord(a, b, verdicts, i)
  }

  // Lists with the same records, of the same sizes, are equal, and no others are. The verdicts
  // are those of the records of two lists whose offsets agree; a buffer equals itself.
  method Equals(a: Comparand, b: Comparand, verdicts: seq<Verdict>) returns (same: bool)
    requires a.stored.Tiled() && b.stored.Tiled()
    requires |a.stored.offsets| == |b.stored.offsets| && |a.stored.bytes| == |b.stored.bytes| ==>
               a.stored.offsets == b.stored.offsets && |verdicts| == |a.stored.offsets|
    requires a.base == b.base && a.stored.offsets == b.stored.offsets && |verdicts| == |a.stored.offsets| ==>
               a.stored == b.stored && NotEqual !in verdicts
    ensures same <==>
              && a.opCount == b.opCount && |a.stored.offsets| == |b.stored.offsets|
              && |a.stored.bytes| == |b.stored.bytes| && SameRecords(a.stored, b.stored, verdicts)
  {
    if |a.stored.offsets| != |b.stored.offsets| || |a.stored.bytes| != |b.stored.bytes| || a.opCount != b.opCount {
      return false;
    }
    if a.base == b.base {
      assert forall i :: 0 <= i < |verdicts| ==> verdicts[i] in verdicts;
      return true;
    }
    same := CompareOps(a.stored, b.stored, verdicts);
  }
}
