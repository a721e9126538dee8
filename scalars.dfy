/** Fixed-shape converters: the option constructor, MAC addresses, UUIDs,
    the hardware capability vector and libxl's tri-state boolean. */
module Scalars {
  import opened Wrappers

  /** A C `uint8_t`. */
  type Byte = x: int | 0 <= x < 0x100

  /** A C `uint32_t`. */
  type Uint32 = x: int | 0 <= x < 0x1_0000_0000

  /** Storing the native integer of a managed int into a `uint8_t`: C keeps
      the value modulo 256 (Dafny's `%` is Euclidean, so negative inputs land
      in 0..255 as they do in C). */
  function ToUint8(x: int): (b: Byte)
    ensures b == x <==> 0 <= x < 0x100
    ensures (x - b) % 0x100 == 0
  {
    x % 0x100
  }

  /** Passing a `uint32_t` where an `int32_t` is expected: the same 32 bits
      read as a two's-complement number. */
  function ToInt32(w: Uint32): (r: int)
    ensures -0x8000_0000 <= r < 0x8000_0000
    ensures r % 0x1_0000_0000 == w
  {
    if w < 0x8000_0000 then w else w - 0x1_0000_0000
  }

  /** Different words give different int32 values. */
  lemma ToInt32Injective(a: Uint32, b: Uint32)
    ensures ToInt32(a) == ToInt32(b) <==> a == b
  {
  }

  /** Val_some: a one-field block around `v`. */
  function ValSome<T>(v: T): (r: Option<T>)
    ensures r != None && r.value == v
  {
    Some(v)
  }

  /** Val_mac: the six bytes of a `libxl_mac` as a managed 6-tuple. */
  method ValMac(c: array<Byte>) returns (v: seq<int>)
    requires c.Length == 6
    ensures |v| == 6 && forall i :: 0 <= i < 6 ==> v[i] == c[i]
  {
    var t := new int[6];
    for i := 0 to 6
      invariant forall k :: 0 <= k < i ==> t[k] == c[k]
    {
      t[i] := c[i];
    }
    v := t[..];
  }

  /** Mac_val: store the six components of the managed tuple into the
      `libxl_mac`, each truncated to a byte. */
  method MacVal(c: array<Byte>, v: seq<int>)
    requires c.Length == 6 && |v| == 6
    modifies c
    ensures forall i :: 0 <= i < 6 ==> c[i] == ToUint8(v[i])
  {
    for i := 0 to 6
      invariant forall k :: 0 <= k < i ==> c[k] == ToUint8(v[k])
    {
      c[i] := ToUint8(v[i]);
    }
  }

  /** Mac_val then Val_mac gives back the same six integers when every
      component is a byte. */
  method MacRoundTrip(v: seq<int>) returns (w: seq<int>)
    requires |v| == 6 && forall i :: 0 <= i < 6 ==> 0 <= v[i] < 0x100
    ensures w == v
  {
    var mac := new Byte[6];
    MacVal(mac, v);
    w := ValMac(mac);
  }

  /** Val_uuid: the sixteen bytes of a `libxl_uuid` as a managed 16-tuple. */
  method ValUuid(c: array<Byte>) returns (v: seq<int>)
    requires c.Length == 16
    ensures |v| == 16 && forall i :: 0 <= i < 16 ==> v[i] == c[i]
  {
    var t := new int[16];
    for i := 0 to 16
      invariant forall k :: 0 <= k < i ==> t[k] == c[k]
    {
      t[i] := c[i];
    }
    v := t[..];
  }

  /** Uuid_val: store the sixteen components of the managed tuple into the
      byte array of the `libxl_uuid`, each truncated to a byte. */
  method UuidVal(c: array<Byte>, v: seq<int>)
    requires c.Length == 16 && |v| == 16
    modifies c
    ensures forall i :: 0 <= i < 16 ==> c[i] == ToUint8(v[i])
  {
    for i := 0 to 16
      invariant forall k :: 0 <= k < i ==> c[k] == ToUint8(v[k])
    {
      c[i] := ToUint8(v[i]);
    }
  }

  /** Uuid_val then Val_uuid gives back the same sixteen integers when every
      component is a byte. */
  method UuidRoundTrip(v: seq<int>) returns (w: seq<int>)
    requires |v| == 16 && forall i :: 0 <= i < 16 ==> 0 <= v[i] < 0x100
    ensures w == v
  {
    var uuid := new Byte[16];
    UuidVal(uuid, v);
    w := ValUuid(uuid);
  }

  /** Val_hwcap: the eight 32-bit words of a `libxl_hwcap` as a managed
      tuple of `int32` values (caml_copy_int32 takes an `int32_t`). */
  method ValHwcap(c: array<Uint32>) returns (v: seq<int>)
    requires c.Length == 8
    ensures |v| == 8
    ensures forall i :: 0 <= i < 8 ==> -0x8000_0000 <= v[i] < 0x8000_0000 && v[i] % 0x1_0000_0000 == c[i]
  {
    var t := new int[8];
    for i := 0 to 8
      invariant forall k :: 0 <= k < i ==> t[k] == ToInt32(c[k])
    {
      t[i] := ToInt32(c[i]);
    }
    v := t[..];
  }

  /** libxl's tri-state boolean: left at its default, or explicitly set. */
  datatype Defbool = Unset | Set(b: bool)

  /** Val_defbool: None for the default state, Some b for a set one. */
  function ValDefbool(d: Defbool): (v: Option<bool>)
    ensures v.None? <==> d.Unset?
    ensures v.Some? ==> v.value == d.b
  {
    if d.Unset? then None else ValSome(d.b)
  }

  /** Defbool_val: None leaves the boolean unset, Some b sets it to b. */
  function DefboolVal(v: Option<bool>): (d: Defbool)
    ensures d.Unset? <==> v.None?
    ensures d.Set? ==> d.b == v.value
  {
    match v
    case None => Unset
    case Some(b) => Set(b)
  }

  /** The two conversions are inverse: Val_defbool(Defbool_val(v)) == v for
      the three managed values, and the other way round for the three
      native states. */
  lemma DefboolRoundTrip(v: Option<bool>, d: Defbool)
    ensures ValDefbool(DefboolVal(v)) == v
    ensures DefboolVal(ValDefbool(d)) == d
  {
  }
}
