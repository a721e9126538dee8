/** Managed strings and their NUL-terminated C copies: dup_String_val,
    the runtime's caml_copy_string, and the optional-string converters. */
module CStrings {
  import opened Wrappers
  import opened XlErrors
  import Memory

  /** The C string terminator. */
  const NUL: char := '\0'

  /** `buf` is what dup_String_val makes of the managed string `s`: the
      `|s|` characters of `s` byte for byte (embedded zeros included, since
      the length is the managed one and not a scan), then one NUL. */
  predicate IsDupOf(buf: string, s: string)
  {
    |buf| == |s| + 1 && buf[..|s|] == s && buf[|s|] == NUL
  }

  /** dup_String_val: calloc `len + 1` characters, raise Out_of_memory if
      that fails, otherwise memcpy the `len` characters of `s`. */
  method DupStringVal(s: string) returns (o: Outcome<string>)
    ensures o.Return? ==> IsDupOf(o.value, s)
    ensures !o.Return? ==> o == Raise(OutOfMemory)
  {
    var len := |s|;
    var c := Memory.Calloc(len + 1, NUL);
    if c.None? {
      return Raise(OutOfMemory);
    }
    var buf := c.value;
    for i := 0 to len
      invariant forall k :: 0 <= k < i ==> buf[k] == s[k]
      invariant buf[len] == NUL
    {
      buf[i] := s[i];
    }
    o := Return(buf[..]);
  }

  /** caml_copy_string: a managed copy of the C string at `buf`, whose length
      is found by scanning for the first NUL, so it stops there. */
  function CopyString(buf: string): (s: string)
    requires NUL in buf
    ensures |s| < |buf| && buf[..|s|] == s && buf[|s|] == NUL
    ensures NUL !in s
  {
    if buf[0] == NUL then [] else [buf[0]] + CopyString(buf[1..])
  }

  /** Reading a dup_String_val copy back as a C string gives the managed
      string exactly when it has no embedded NUL, and otherwise the part
      before its first NUL. */
  lemma CopyStringOfDup(buf: string, s: string)
    requires IsDupOf(buf, s)
    ensures NUL in buf
    ensures NUL !in s ==> CopyString(buf) == s
    ensures forall k :: 0 <= k < |s| && s[k] == NUL && NUL !in s[..k] ==> CopyString(buf) == s[..k]
  {
    assert buf[|s|] == NUL;
  }

  /** `c` is what String_option_val makes of `v`: NULL for None, a
      dup_String_val copy for Some. */
  predicate IsStringOptionOf(c: Option<string>, v: Option<string>)
  {
    match v
    case None => c.None?
    case Some(s) => c.Some? && IsDupOf(c.value, s)
  }

  /** String_option_val: NULL for None, a fresh copy of the string for Some. */
  method StringOptionVal(v: Option<string>) returns (o: Outcome<Option<string>>)
    ensures o.Return? ==> IsStringOptionOf(o.value, v)
    ensures !o.Return? ==> v.Some? && o == Raise(OutOfMemory)
  {
    if v.None? {
      return Return(None);
    }
    var d := DupStringVal(v.value);
    if !d.Return? {
      return Raise(OutOfMemory);
    }
    o := Return(Some(d.value));
  }

  /** Val_string_option: None for a NULL pointer, otherwise Some of a managed
      copy of the C string. */
  function ValStringOption(c: Option<string>): (v: Option<string>)
    requires c.Some? ==> NUL in c.value
    ensures v.None? <==> c.None?
    ensures v.Some? ==> NUL !in v.value && |v.value| < |c.value| && c.value[..|v.value|] == v.value && c.value[|v.value|] == NUL
  {
    match c
    case None => None
    case Some(buf) => Some(CopyString(buf))
  }

  /** Managed -> native -> managed: an optional string without embedded NUL
      comes back unchanged. */
  lemma StringOptionRoundTrip(v: Option<string>, c: Option<string>)
    requires IsStringOptionOf(c, v)
    requires v.Some? ==> NUL !in v.value
    ensures c.Some? ==> NUL in c.value
    ensures ValStringOption(c) == v
  {
    if v.Some? {
      CopyStringOfDup(c.value, v.value);
    }
  }

  /** Native -> managed -> native: the copy is the same C string as the
      original (equal up to and including the first NUL). */
  lemma StringOptionRoundTripNative(c: Option<string>, c': Option<string>)
    requires c.Some? ==> NUL in c.value
    requires IsStringOptionOf(c', ValStringOption(c))
    ensures c'.None? <==> c.None?
    ensures c'.Some? ==> NUL in c'.value && CopyString(c'.value) == CopyString(c.value)
  {
    if c.Some? {
      var s := CopyString(c.value);
      CopyStringOfDup(c'.value, s);
    }
  }
}
