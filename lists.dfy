/** Variable-length converters: managed lists to the NULL-terminated
    pointer arrays libxl_string_list and libxl_key_value_list. */
module Lists {
  import opened Wrappers
  import opened XlErrors
  import opened CStrings
  import Memory

  /** A calloc'd array of `char *`: each slot is NULL or holds the contents
      of the buffer it points to. */
  type PointerArray = seq<Option<string>>

  /** Every non-NULL slot points to a NUL-terminated string. */
  predicate AllCStrings(a: PointerArray)
  {
    forall i :: 0 <= i < |a| && a[i].Some? ==> NUL in a[i].value
  }

  /** list_len: the number of cons cells, counted by walking the tails. */
  method ListLen<T>(v: seq<T>) returns (len: nat)
    ensures len == |v|
  {
    len := 0;
    var rest := v;
    while rest != []
      invariant len + |rest| == |v|
    {
      len := len + 1;
      rest := rest[1..];
    }
  }

  /** `a` is the array libxl_string_list_val builds for `v`: `|v| + 1`
      slots, slot `i` a copy of the i-th string, the last slot NULL. */
  predicate IsStringListOf(a: PointerArray, v: seq<string>)
  {
    |a| == |v| + 1 && a[|v|] == None
    && forall i :: 0 <= i < |v| ==> a[i].Some? && IsDupOf(a[i].value, v[i])
  }

  /** libxl_string_list_val: count the list, calloc `nr + 1` pointers
      (raising Out_of_memory if that fails), then walk the list storing a
      dup_String_val copy of each element in list order. */
  method StringListVal(v: seq<string>) returns (o: Outcome<PointerArray>)
    ensures o.Return? ==> IsStringListOf(o.value, v)
    ensures !o.Return? ==> o == Raise(OutOfMemory)
  {
    var nr := ListLen(v);
    var c := Memory.Calloc<Option<string>>(nr + 1, None);
    if c.None? {
      return Raise(OutOfMemory);
    }
    var arr := c.value;
    var i := 0;
    var rest := v;
    while rest != []
      invariant 0 <= i <= nr && rest == v[i..]
      invariant forall k :: 0 <= k < i ==> arr[k].Some? && IsDupOf(arr[k].value, v[k])
      invariant forall k :: i <= k <= nr ==> arr[k] == None
    {
      var d := DupStringVal(rest[0]);
      if !d.Return? {
        return Raise(OutOfMemory);
      }
      arr[i] := Some(d.value);
      i := i + 1;
      rest := rest[1..];
    }
    o := Return(arr[..]);
  }

  /** `a` is the array libxl_key_value_list_val builds for `v`:
      `(|v| + 1) * 2` slots, slots `2i` and `2i + 1` copies of the key
      and the value of the i-th pair, the last two slots NULL. */
  predicate IsKeyValueListOf(a: PointerArray, v: seq<(string, string)>)
  {
    |a| == (|v| + 1) * 2 && a[2 * |v|] == None && a[2 * |v| + 1] == None
    && forall i :: 0 <= i < |v| ==>
         a[2 * i].Some? && IsDupOf(a[2 * i].value, v[i].0)
         && a[2 * i + 1].Some? && IsDupOf(a[2 * i + 1].value, v[i].1)
  }

  /** libxl_key_value_list_val: count the list, calloc `(nr + 1) * 2`
      pointers (raising Out_of_memory before any slot is written if that
      fails), then walk the list storing copies of each key and value. */
  method KeyValueListVal(v: seq<(string, string)>) returns (o: Outcome<PointerArray>)
    ensures o.Return? ==> IsKeyValueListOf(o.value, v)
    ensures !o.Return? ==> o == Raise(OutOfMemory)
  {
    var nr := ListLen(v);
    var c := Memory.Calloc<Option<string>>((nr + 1) * 2, None);
    if c.None? {
      return Raise(OutOfMemory);
    }
    var arr := c.value;
    var i := 0;
    var rest := v;
    while rest != []
      invariant 0 <= i <= nr && rest == v[i..]
      invariant forall k :: 0 <= k < i ==>
                  arr[2 * k].Some? && IsDupOf(arr[2 * k].value, v[k].0)
                  && arr[2 * k + 1].Some? && IsDupOf(arr[2 * k + 1].value, v[k].1)
      invariant forall k :: 2 * i <= k < arr.Length ==> arr[k] == None
    {
      var elem := rest[0];
      var key := DupStringVal(elem.0);
      if !key.Return? {
        return Raise(OutOfMemory);
      }
      arr[i * 2] := Some(key.value);
      var val := DupStringVal(elem.1);
      if !val.Return? {
        return Raise(OutOfMemory);
      }
      arr[i * 2 + 1] := Some(val.value);
      i := i + 1;
      rest := rest[1..];
    }
    o := Return(arr[..]);
  }

  /** How a C reader of a string list sees it: the C strings in the slots
      before the first NULL. */
  function Entries(a: PointerArray): seq<string>
    requires AllCStrings(a)
  {
    if a == [] || a[0].None? then []
    else
      assert AllCStrings(a[1..]) by {
        forall i | 0 <= i < |a[1..]| && a[1..][i].Some? ensures NUL in a[1..][i].value {
          assert a[1..][i] == a[i + 1];
        }
      }
      [CopyString(a[0].value)] + Entries(a[1..])
  }

  /** A C reader of a string_list_val array finds exactly `|v|` strings
      before the terminating NULL, the i-th being the i-th list element
      (whole, when it has no embedded NUL). */
  lemma {:induction false} StringListEntries(a: PointerArray, v: seq<string>)
    requires IsStringListOf(a, v)
    ensures AllCStrings(a)
    ensures |Entries(a)| == |v|
    ensures forall i :: 0 <= i < |v| && NUL !in v[i] ==> Entries(a)[i] == v[i]
  {
    forall i | 0 <= i < |a| && a[i].Some? ensures NUL in a[i].value {
      CopyStringOfDup(a[i].value, v[i]);
    }
    if v != [] {
      assert IsStringListOf(a[1..], v[1..]) by {
        forall i | 0 <= i < |v[1..]| ensures a[1..][i].Some? && IsDupOf(a[1..][i].value, v[1..][i]) {
          assert a[1..][i] == a[i + 1] && v[1..][i] == v[i + 1];
        }
      }
      StringListEntries(a[1..], v[1..]);
      CopyStringOfDup(a[0].value, v[0]);
      forall i | 0 <= i < |v| && NUL !in v[i] ensures Entries(a)[i] == v[i] {
        if i > 0 {
          assert Entries(a)[i] == Entries(a[1..])[i - 1];
          assert v[i] == v[1..][i - 1];
        }
      }
    }
  }

  /** How a C reader of a key/value list sees it: the pairs of C strings
      before the first pair with a NULL slot. */
  function Pairs(a: PointerArray): seq<(string, string)>
    requires AllCStrings(a)
    decreases |a|
  {
    if |a| < 2 || a[0].None? || a[1].None? then []
    else
      assert AllCStrings(a[2..]) by {
        forall i | 0 <= i < |a[2..]| && a[2..][i].Some? ensures NUL in a[2..][i].value {
          assert a[2..][i] == a[i + 2];
        }
      }
      [(CopyString(a[0].value), CopyString(a[1].value))] + Pairs(a[2..])
  }

  /** A C reader of a key_value_list_val array finds exactly `|v|` pairs
      before the terminating NULLs, the i-th being the i-th list pair (whole,
      when neither string has an embedded NUL). */
  lemma {:induction false} KeyValuePairs(a: PointerArray, v: seq<(string, string)>)
    requires IsKeyValueListOf(a, v)
    ensures AllCStrings(a)
    ensures |Pairs(a)| == |v|
    ensures forall i :: 0 <= i < |v| && NUL !in v[i].0 && NUL !in v[i].1 ==> Pairs(a)[i] == v[i]
  {
    KeyValueListCStrings(a, v);
    if v != [] {
      assert a[2 * 0].Some? && IsDupOf(a[2 * 0].value, v[0].0);
      assert a[2 * 0 + 1].Some? && IsDupOf(a[2 * 0 + 1].value, v[0].1);
      KeyValueListTail(a, v);
      KeyValuePairs(a[2..], v[1..]);
      var p := Pairs(a[2..]);
      assert Pairs(a) == [(CopyString(a[0].value), CopyString(a[1].value))] + p;
      CopyStringOfDup(a[0].value, v[0].0);
      CopyStringOfDup(a[1].value, v[0].1);
      forall i | 0 <= i < |v| && NUL !in v[i].0 && NUL !in v[i].1 ensures Pairs(a)[i] == v[i] {
        if i > 0 {
          assert Pairs(a)[i] == p[i - 1];
          assert v[i] == v[1..][i - 1];
        }
      }
    }
  }

  /** Every slot of a key_value_list_val array is NULL or a C string. */
  lemma KeyValueListCStrings(a: PointerArray, v: seq<(string, string)>)
    requires IsKeyValueListOf(a, v)
    ensures AllCStrings(a)
  {
    forall i | 0 <= i < |a| && a[i].Some? ensures NUL in a[i].value {
      var k := i / 2;
      assert i == 2 * k || i == 2 * k + 1;
      if i == 2 * k {
        CopyStringOfDup(a[i].value, v[k].0);
      } else {
        CopyStringOfDup(a[i].value, v[k].1);
      }
    }
  }

  /** Dropping the first pair of slots leaves the array of the list's tail. */
  lemma KeyValueListTail(a: PointerArray, v: seq<(string, string)>)
    requires IsKeyValueListOf(a, v) && v != []
    ensures IsKeyValueListOf(a[2..], v[1..])
  {
    forall i | 0 <= i < |v[1..]|
      ensures a[2..][2 * i].Some? && IsDupOf(a[2..][2 * i].value, v[1..][i].0)
      ensures a[2..][2 * i + 1].Some? && IsDupOf(a[2..][2 * i + 1].value, v[1..][i].1)
    {
      assert a[2..][2 * i] == a[2 * (i + 1)] && a[2..][2 * i + 1] == a[2 * (i + 1) + 1];
      assert v[1..][i] == v[i + 1];
    }
  }
}
