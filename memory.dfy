/** The C allocator as the stubs use it. */
module Memory {
  import opened Wrappers

  /** calloc(n, size): either NULL, or a fresh buffer of `n` elements all
      equal to the zero value `zero` of the element type. Whether it fails
      is the C library's choice, so the model leaves it open. */
  method Calloc<T>(n: nat, zero: T) returns (buf: Option<array<T>>)
    ensures buf.Some? ==> fresh(buf.value) && buf.value.Length == n
    ensures buf.Some? ==> forall i :: 0 <= i < n ==> buf.value[i] == zero
  {
    var granted: bool := *;
    if granted {
      var a := new T[n](_ => zero);
      buf := Some(a);
    } else {
      buf := None;
    }
  }
}
