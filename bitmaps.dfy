/** libxl bitmaps and their managed form, an array of booleans. */
module Bitmaps {
  import opened XlErrors

  /** A `libxl_bitmap`: `size` bytes of map, seen bit by bit. `bits` is the
      map buffer; only its first `8 * size` bits belong to the bitmap. */
  class Bitmap {
    var size: nat
    var bits: seq<bool>
    /** How many libxl_bitmap_alloc calls were made on this bitmap. */
    ghost var allocations: nat

    ghost predicate Valid()
      reads this
    {
      8 * size <= |bits|
    }

    /** The bits of the bitmap, in index order. */
    ghost function Contents(): (s: seq<bool>)
      reads this
      requires Valid()
      ensures |s| == 8 * size
    {
      bits[..8 * size]
    }

    /** A bitmap as libxl_bitmap_init leaves it: no bytes, no map. */
    constructor ()
      ensures Valid() && size == 0 && Contents() == [] && allocations == 0
    {
      size := 0;
      bits := [];
      allocations := 0;
    }

    /** libxl_bitmap_alloc(ctx, bitmap, nBits): a zeroed map of enough whole
        bytes for `nBits` bits. */
    method Alloc(nBits: nat)
      modifies this
      ensures Valid() && size == (nBits + 7) / 8
      ensures Contents() == seq(8 * size, _ => false)
      ensures allocations == old(allocations) + 1
    {
      size := (nBits + 7) / 8;
      bits := seq(8 * size, _ => false);
      allocations := allocations + 1;
    }

    /** libxl_bitmap_test, for a bit in range. */
    function Test(i: nat): (b: bool)
      reads this
      requires Valid() && i < 8 * size
      ensures b == Contents()[i]
    {
      bits[i]
    }

    /** libxl_bitmap_set, for a bit in range. */
    method Set(i: nat)
      requires Valid() && i < 8 * size
      modifies this
      ensures Valid() && size == old(size) && allocations == old(allocations)
      ensures Contents() == old(Contents())[i := true]
    {
      bits := bits[i := true];
    }

    /** libxl_bitmap_reset, for a bit in range. */
    method Reset(i: nat)
      requires Valid() && i < 8 * size
      modifies this
      ensures Valid() && size == old(size) && allocations == old(allocations)
      ensures Contents() == old(Contents())[i := false]
    {
      bits := bits[i := false];
    }
  }

  /** The number of whole bytes needed for `n` bits. */
  function BytesFor(n: nat): (b: nat)
    ensures n <= 8 * b < n + 8
  {
    (n + 7) / 8
  }

  /** `v` followed by clear bits up to the next multiple of eight: the bits a
      bitmap allocated for `|v|` bits holds once `v` is stored in it. */
  function Padded(v: seq<bool>): (p: seq<bool>)
    ensures |p| == 8 * BytesFor(|v|)
    ensures p[..|v|] == v
    ensures forall i :: |v| <= i < |p| ==> !p[i]
  {
    v + seq(8 * BytesFor(|v|) - |v|, _ => false)
  }

  /** A managed array whose length is a multiple of eight is stored and read
      back unchanged. */
  lemma PaddedWhole(v: seq<bool>)
    requires |v| % 8 == 0
    ensures Padded(v) == v
  {
    assert BytesFor(|v|) == |v| / 8;
  }

  /** Padding twice is padding once, so native -> managed -> native keeps
      every bitmap as it was. */
  lemma PaddedIdempotent(v: seq<bool>)
    ensures Padded(Padded(v)) == Padded(v)
  {
    var p := Padded(v);
    assert |p| % 8 == 0;
    PaddedWhole(p);
  }

  /** Bitmap_val: set `size` to 0; for a non-empty array, allocate a bitmap
      of `|v|` bits and raise NOMEM when libxl_bitmap_alloc returns a falsy
      `allocStatus` (the test is written `!libxl_bitmap_alloc(...)`); then set
      or reset each bit `i < |v|` to `v[i]`. */
  method BitmapVal(c: Bitmap, v: seq<bool>, allocStatus: int) returns (o: Outcome<()>)
    modifies c
    ensures c.Valid()
    ensures |v| == 0 ==> o == Return(()) && c.size == 0 && c.allocations == old(c.allocations)
    ensures |v| > 0 ==> c.allocations == old(c.allocations) + 1
    ensures |v| > 0 && allocStatus == 0 ==> o == Raise(XenlightError(4, "cannot allocate bitmap"))
    ensures |v| == 0 || allocStatus != 0 ==> o == Return(())
    ensures o.Return? ==> c.size == BytesFor(|v|) && c.Contents() == Padded(v)
  {
    c.size := 0;
    if |v| > 0 {
      c.Alloc(|v|);
      if allocStatus == 0 {
        return FailwithXl(ErrorNomem, "cannot allocate bitmap");
      }
    }
    assert c.size == BytesFor(|v|);
    for i := 0 to |v|
      invariant c.Valid() && c.size == BytesFor(|v|)
      invariant c.allocations == old(c.allocations) + (if |v| > 0 then 1 else 0)
      invariant c.Contents()[..i] == v[..i]
      invariant forall k :: i <= k < 8 * c.size ==> !c.Contents()[k]
    {
      if v[i] {
        c.Set(i);
      } else {
        c.Reset(i);
      }
      assert c.Contents()[..i + 1] == c.Contents()[..i] + [v[i]];
    }
    assert v[..|v|] == v;
    assert c.Contents() == Padded(v);
    o := Return(());
  }

  /** Val_bitmap: a managed array of `8 * size` booleans whose entry `i` is
      libxl_bitmap_test(i). */
  method ValBitmap(c: Bitmap) returns (v: seq<bool>)
    requires c.Valid()
    ensures |v| == 8 * c.size
    ensures forall i :: 0 <= i < |v| ==> v[i] == c.Test(i)
    ensures v == c.Contents()
  {
    var n := 8 * c.size;
    var a := new bool[n];
    for i := 0 to n
      invariant forall k :: 0 <= k < i ==> a[k] == c.Test(k)
    {
      if c.Test(i) {
        a[i] := true;
      } else {
        a[i] := false;
      }
    }
    v := a[..];
  }

  /** Managed -> native -> managed: the array comes back padded with clear
      bits to a whole number of bytes (unchanged when its length is a
      multiple of eight), unless the allocation raised. */
  method BitmapRoundTrip(v: seq<bool>, allocStatus: int) returns (o: Outcome<seq<bool>>)
    ensures |v| == 0 || allocStatus != 0 ==> o == Return(Padded(v))
    ensures |v| > 0 && allocStatus == 0 ==> o == Raise(XenlightError(4, "cannot allocate bitmap"))
    ensures !o.Return? ==> o == Raise(XenlightError(4, "cannot allocate bitmap"))
  {
    var c := new Bitmap();
    var r := BitmapVal(c, v, allocStatus);
    if !r.Return? {
      return Raise(r.exn);
    }
    var w := ValBitmap(c);
    o := Return(w);
  }

  /** Native -> managed -> native: a bitmap copied out and stored into a
      fresh bitmap has the same size and the same bits. */
  method BitmapRoundTripNative(c: Bitmap, allocStatus: int) returns (o: Outcome<seq<bool>>)
    requires c.Valid()
    ensures c.size == 0 || allocStatus != 0 ==> o == Return(c.Contents())
    ensures c.size > 0 && allocStatus == 0 ==> o == Raise(XenlightError(4, "cannot allocate bitmap"))
    ensures !o.Return? ==> o == Raise(XenlightError(4, "cannot allocate bitmap"))
  {
    var v := ValBitmap(c);
    var d := new Bitmap();
    var r := BitmapVal(d, v, allocStatus);
    if !r.Return? {
      return Raise(r.exn);
    }
    assert |v| % 8 == 0;
    PaddedWhole(v);
    var w := ValBitmap(d);
    o := Return(w);
  }
}
