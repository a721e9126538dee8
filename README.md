# Xenlight OCaml stubs: a verified model of the marshalling core

This project models the hand-written core of the OCaml binding to libxl, the
Xen toolstack library (`tools/ocaml/libs/xl/xenlight_stubs.c`). It covers
how the binding converts values between the OCaml runtime and libxl, and
how its entry points order the steps of each call. The model proves these
properties:

- `dup_String_val` makes a copy of the managed string's exact length, then
  adds a NUL.
- `Val_error` is a closed, injective mapping of the fourteen libxl error
  codes onto the tags 0..13. Any other code aborts the process.
- The string-list and key/value-list converters size and fill their
  calloc'd pointer arrays in a fixed layout, ending in NULL slots. A C
  reader of either array finds one entry per list element, and reads back
  each element that holds no embedded NUL.
- MAC, UUID and tri-state-boolean conversions round-trip. Each conversion
  spells out where C truncates a value.
- The hardware-capability vector is converted one way only, native to
  managed. Each word keeps its bit pattern as an int32 (`Scalars.ValHwcap`),
  and distinct words stay distinct (`Scalars.ToInt32Injective`).
- A bitmap stored from a boolean array and read back gives that array,
  padded with clear bits to a whole number of bytes. An empty array
  makes no allocation call.
- Every entry point keeps the resource discipline. Each native structure
  converted or handed over during a call is disposed exactly once, and
  is never used after that. In the device stubs and in
  `domain_sched_params_set`, the dispose comes before any raise. For the
  query stubs' failure paths this rests on an assumption about libxl (see
  Left out).
- `stub_xl_send_debug_keys` breaks this discipline as written (see
  Findings).

Modules, leaves first:

- `Wrappers`: the `Option` type. It stands for OCaml's `None`/`Some` and
  for C's NULL/non-NULL pointers.
- `XlErrors`: the libxl error constants, `ValError`, and the `Exn` and
  `Outcome` types. An `Outcome` is a return, a raise or an abort.
  `FailwithXl` lives here too.
- `Memory`: `Calloc`. Whether it fails is left open: the model does not
  choose.
- `CStrings`: `dup_String_val`, the runtime's `caml_copy_string`, and the
  optional-string converters.
- `Scalars`: `Val_some`, MAC, UUID, hwcap and defbool.
- `Bitmaps`: a `Bitmap` class for `libxl_bitmap`. It has a `size` field
  that the stubs assign, and test/set/reset methods. `Bitmap_val` and
  `Val_bitmap` are here too.
- `Lists`: `list_len` and the two list converters.
- `Stubs`: the entry points. `Ctx` stands for the libxl context handle. It
  holds a ghost trace of `Step`s, one for each populate, call, copy-out or
  dispose of a native structure. `Held`, `UsesHeld` and `Disciplined` state
  the resource discipline over such a trace.

Native results are parameters of the entry points. That covers the status
a libxl call returns, the status of `libxl_bitmap_alloc`, and the pointer
and count `libxl_get_cpu_topology` returns. Allocation failure is
nondeterministic, inside `Memory.Calloc`.

Two behaviours of the code are worth stating outright:

- A bitmap round trip does not keep its length. `Val_bitmap` makes
  `8 * size` entries, so an array whose length is not a multiple of eight
  comes back padded (`Bitmaps.Padded`). The native -> managed -> native
  trip is exact (`Bitmaps.BitmapRoundTripNative`, by way of
  `Bitmaps.PaddedWhole`).
- `stub_xl_send_debug_keys` raises before it frees (Findings).

## Model

| member | source | states |
|---|---|---|
| `XlErrors.ValError` | tools/ocaml/libs/xl/xenlight_stubs.c:46-71 | a known libxl code maps to a tag below 14, and the tag is that code's position in the switch (NONSPECIFIC..UNKNOWN_CHILD -> 0..13); unknown codes are excluded because they abort |
| `XlErrors.ValErrorInjective` | tools/ocaml/libs/xl/xenlight_stubs.c:46-71 | two known codes share a tag if and only if they are the same code |
| `XlErrors.ValErrorOnto` | tools/ocaml/libs/xl/xenlight_stubs.c:46-71 | every tag 0..13 is produced, by the code at that position |
| `XlErrors.KnownErrorsDistinct` | tools/ocaml/libs/xl/xenlight_stubs.c:48-62 | the fourteen case constants are pairwise different |
| `XlErrors.FailwithXl` | tools/ocaml/libs/xl/xenlight_stubs.c:73-87 | never returns; aborts exactly when Val_error does not know the code, otherwise raises `Xenlight.Error` with the code's tag and the given name |
| `Memory.Calloc` | tools/ocaml/libs/xl/xenlight_stubs.c:39-41 | calloc gives NULL or a fresh, zero-filled buffer of the requested length |
| `CStrings.DupStringVal` | tools/ocaml/libs/xl/xenlight_stubs.c:34-44 | on success the copy has `len + 1` chars, the first `len` equal to the managed string (embedded zeros included), the last NUL; a failed calloc raises Out_of_memory |
| `CStrings.CopyString` | tools/ocaml/libs/xl/xenlight_stubs.c:311 | caml_copy_string copies the C string up to, not including, its first NUL |
| `CStrings.CopyStringOfDup` | tools/ocaml/libs/xl/xenlight_stubs.c:34-44 | a dup_String_val copy read back as a C string is the managed string if it has no NUL, else the part before its first NUL |
| `CStrings.StringOptionVal` | tools/ocaml/libs/xl/xenlight_stubs.c:316-322 | None gives NULL; Some s gives a dup_String_val copy of s, or Out_of_memory |
| `CStrings.ValStringOption` | tools/ocaml/libs/xl/xenlight_stubs.c:307-314 | NULL gives None; a C string gives Some of its NUL-free prefix |
| `CStrings.StringOptionRoundTrip` | tools/ocaml/libs/xl/xenlight_stubs.c:307-322 | managed -> native -> managed returns the same optional string when it holds no NUL |
| `CStrings.StringOptionRoundTripNative` | tools/ocaml/libs/xl/xenlight_stubs.c:307-322 | native -> managed -> native keeps NULL-ness and the C string |
| `Scalars.ToUint8` | tools/ocaml/libs/xl/xenlight_stubs.c:202 | storing an int in a uint8_t keeps it modulo 256; it is unchanged exactly when it is in 0..255 |
| `Scalars.ToInt32` | tools/ocaml/libs/xl/xenlight_stubs.c:302 | a uint32 passed as int32 is the same 32 bits read as two's complement |
| `Scalars.ToInt32Injective` | tools/ocaml/libs/xl/xenlight_stubs.c:294-305 | distinct capability words give distinct int32 values |
| `Scalars.ValSome` | tools/ocaml/libs/xl/xenlight_stubs.c:169-180 | Val_some wraps its argument in Some; Val_none is None |
| `Scalars.ValMac` | tools/ocaml/libs/xl/xenlight_stubs.c:182-194 | the managed tuple has six components equal to the six bytes |
| `Scalars.MacVal` | tools/ocaml/libs/xl/xenlight_stubs.c:196-205 | byte i becomes component i truncated to uint8 |
| `Scalars.MacRoundTrip` | tools/ocaml/libs/xl/xenlight_stubs.c:182-205 | Mac_val then Val_mac returns the same six integers when each is in 0..255 |
| `Scalars.ValUuid` | tools/ocaml/libs/xl/xenlight_stubs.c:240-253 | the managed tuple has sixteen components equal to the sixteen bytes |
| `Scalars.UuidVal` | tools/ocaml/libs/xl/xenlight_stubs.c:255-265 | byte i becomes component i truncated to uint8 |
| `Scalars.UuidRoundTrip` | tools/ocaml/libs/xl/xenlight_stubs.c:240-265 | Uuid_val then Val_uuid returns the same sixteen integers when each is in 0..255 |
| `Scalars.ValHwcap` | tools/ocaml/libs/xl/xenlight_stubs.c:294-305 | eight int32 values, each with the bit pattern of the corresponding word |
| `Scalars.ValDefbool` | tools/ocaml/libs/xl/xenlight_stubs.c:267-279 | None exactly for the default state, Some b for a boolean set to b |
| `Scalars.DefboolVal` | tools/ocaml/libs/xl/xenlight_stubs.c:281-292 | unset exactly for None, set to b for Some b |
| `Scalars.DefboolRoundTrip` | tools/ocaml/libs/xl/xenlight_stubs.c:267-292 | the two conversions are mutually inverse on all three values of each side |
| `Bitmaps.Bitmap.Alloc` | tools/ocaml/libs/xl/xenlight_stubs.c:229 | libxl_bitmap_alloc for n bits: ceil(n/8) bytes, all bits clear, one more allocation counted |
| `Bitmaps.Bitmap.Test` | tools/ocaml/libs/xl/xenlight_stubs.c:215 | libxl_bitmap_test reads bit i of the bitmap |
| `Bitmaps.Bitmap.Set` | tools/ocaml/libs/xl/xenlight_stubs.c:233 | libxl_bitmap_set sets bit i and changes nothing else |
| `Bitmaps.Bitmap.Reset` | tools/ocaml/libs/xl/xenlight_stubs.c:235 | libxl_bitmap_reset clears bit i and changes nothing else |
| `Bitmaps.Padded` | tools/ocaml/libs/xl/xenlight_stubs.c:213-233 | the array, then clear bits up to the next multiple of eight |
| `Bitmaps.PaddedWhole` | tools/ocaml/libs/xl/xenlight_stubs.c:213-233 | an array whose length is a multiple of eight is its own padding |
| `Bitmaps.PaddedIdempotent` | tools/ocaml/libs/xl/xenlight_stubs.c:207-238 | padding twice equals padding once |
| `Bitmaps.BitmapVal` | tools/ocaml/libs/xl/xenlight_stubs.c:223-238 | empty array: size 0, no allocation call; otherwise one allocation, raise NOMEM "cannot allocate bitmap" when the status is falsy, else bit i is v[i] for i < len and clear above |
| `Bitmaps.ValBitmap` | tools/ocaml/libs/xl/xenlight_stubs.c:207-221 | returns 8*size booleans, entry i equal to test(i) |
| `Bitmaps.BitmapRoundTrip` | tools/ocaml/libs/xl/xenlight_stubs.c:207-238 | managed -> native -> managed returns the array padded to a whole number of bytes; a non-empty array with a falsy allocation status raises NOMEM "cannot allocate bitmap", and that is the only failure |
| `Bitmaps.BitmapRoundTripNative` | tools/ocaml/libs/xl/xenlight_stubs.c:207-238 | native -> managed -> native reproduces every bit of the bitmap; a non-empty bitmap with a falsy allocation status raises NOMEM "cannot allocate bitmap" |
| `Lists.ListLen` | tools/ocaml/libs/xl/xenlight_stubs.c:115-123 | the count is the number of cons cells |
| `Lists.StringListVal` | tools/ocaml/libs/xl/xenlight_stubs.c:150-167 | `nr + 1` slots, slot i a copy of the i-th string in list order, slot nr NULL; Out_of_memory on a failed allocation |
| `Lists.KeyValueListVal` | tools/ocaml/libs/xl/xenlight_stubs.c:125-148 | `(nr + 1) * 2` slots, slots 2i and 2i+1 copies of the i-th key and value, the last two NULL; Out_of_memory (before any slot is written, for the array) |
| `Lists.StringListEntries` | tools/ocaml/libs/xl/xenlight_stubs.c:150-167 | a reader that stops at the first NULL finds exactly the list's strings, in order |
| `Lists.KeyValuePairs` | tools/ocaml/libs/xl/xenlight_stubs.c:125-148 | a reader of pairs that stops at the first NULL finds exactly the list's pairs, in order |
| `Stubs.DeviceOpNameInjective` | tools/ocaml/libs/xl/xenlight_stubs.c:343-357 | the fifteen `"<type>_<op>"` names are distinct |
| `Stubs.DisciplinedAppend` | tools/ocaml/libs/xl/xenlight_stubs.c:329-346 | a trace that keeps the discipline still keeps it after one more stub's disciplined steps |
| `Stubs.DeviceStepsDisciplined` | tools/ocaml/libs/xl/xenlight_stubs.c:329-346 | the device stub's record is converted once, disposed exactly once after the call, and the dispose is the last step |
| `Stubs.DeviceAddRemove` | tools/ocaml/libs/xl/xenlight_stubs.c:329-357 | convert, call, dispose on every path; return unit when ret = 0, else raise (Val_error(ret), "<type>_<op>"), or abort for an unknown ret; the context stays disciplined |
| `Stubs.PhysinfoStepsDisciplined` | tools/ocaml/libs/xl/xenlight_stubs.c:359-376 | on success the record is copied out before its one dispose; on failure nothing is owned |
| `Stubs.PhysinfoGet` | tools/ocaml/libs/xl/xenlight_stubs.c:359-376 | raise "get_physinfo" on ret != 0, else return the copied record |
| `Stubs.TopologyEntry` | tools/ocaml/libs/xl/xenlight_stubs.c:391-397 | an entry is None exactly when its core is the invalid-entry marker, else Some of the entry |
| `Stubs.TopologyStepsDisciplined` | tools/ocaml/libs/xl/xenlight_stubs.c:385-401 | the array is freed once, after it was copied out |
| `Stubs.CputopologyGet` | tools/ocaml/libs/xl/xenlight_stubs.c:378-402 | NULL raises (ERROR_FAIL, "get_cpu_topologyinfo"); otherwise nr entries, each None or Some per the marker, then the free |
| `Stubs.SchedParamsGetStepsDisciplined` | tools/ocaml/libs/xl/xenlight_stubs.c:404-420 | on success the parameters are copied out before their one dispose |
| `Stubs.DomainSchedParamsGet` | tools/ocaml/libs/xl/xenlight_stubs.c:404-420 | raise "domain_sched_params_get" on ret != 0, else return the copy |
| `Stubs.DomainSchedParamsSet` | tools/ocaml/libs/xl/xenlight_stubs.c:422-438 | convert, call, dispose on every path, then raise "domain_sched_params_set" when ret != 0 |
| `Stubs.SendTrigger` | tools/ocaml/libs/xl/xenlight_stubs.c:440-455 | one call, raise "send_trigger" when ret != 0 |
| `Stubs.SendSysrq` | tools/ocaml/libs/xl/xenlight_stubs.c:457-468 | one call, raise "send_sysrq" when ret != 0 |
| `Stubs.SendDebugKeysAsWritten` | tools/ocaml/libs/xl/xenlight_stubs.c:470-485 | copy, call, raise "send_debug_keys" when ret != 0, and only on success free the copy |
| `Stubs.DebugKeysAsWrittenLeaks` | tools/ocaml/libs/xl/xenlight_stubs.c:478-482 | for every ret != 0 the copy is still owned when the stub raises |
| `Stubs.DebugKeysAsWrittenSuccess` | tools/ocaml/libs/xl/xenlight_stubs.c:476-484 | on success the copy is freed once |
| `Stubs.SendDebugKeys` | tools/ocaml/libs/xl/xenlight_stubs.c:470-485 | with free before the raise, the copy is freed on every path and the context stays disciplined |

## Left out

- The OCaml runtime's mechanics are not modelled: GC rooting
  (`CAMLparam`/`CAMLlocal`/`CAMLreturn`), value layout and `caml_alloc*`.
  Managed values are Dafny sequences, tuples and `Option`.
- The `caml_named_value("Xenlight.Error")` lookup is not modelled, and
  neither is the "not initialized" `caml_invalid_argument` it can lead to.
  It is a linkage detail, so `FailwithXl` assumes the exception is
  registered.
- `stub_libxl_ctx_alloc`, `stub_libxl_ctx_free` and `stub_raise_exception`
  are left out. They are pure foreign calls with no local logic.
- The bodies of libxl functions are abstract. Their status results are
  parameters: device add/remove/destroy, physinfo, CPU topology,
  scheduler parameters, trigger, sysrq and debug keys.
- `Bitmaps.Bitmap.Alloc`: libxl_bitmap_alloc is not part of this model.
  The model assumes it yields ceil(n/8) zeroed bytes. `Bitmap_val` raises
  when the call returns a falsy status, exactly as line 229 tests it. If
  libxl_bitmap_alloc follows libxl's 0-on-success convention, that test
  raises on every successful allocation. That function's body is not
  visible, so this is not claimed as a finding.
- Test, set and reset are modelled only for in-range bits. Those are the
  only bits the stubs touch.
- The generated converters in `_libxl_types.inc` are not part of this
  model: `device_*_val`, `domain_sched_params_val`, `trigger_val`,
  `Val_physinfo`, `Val_domain_sched_params` and `Val_cputopology`.
  - A device stub treats its record as one opaque resource. Its conversion
    is taken to succeed, so the leak of a half-filled record when a
    generated converter raises is not captured.
  - The query stubs return the record libxl filled in, unchanged.
  - `Stubs.CputopologyGet` returns each valid entry as the native record
    itself.
  - `Stubs.InvalidEntry` is `~(uint32_t)0`, from libxl's headers.
- The domain id and trigger arguments, and their `Int_val` truncation, are
  not modelled. The native calls are abstract, so these values reach
  nothing in the model.
- The numeric values of the libxl error constants (-1..-14) come from
  libxl's type description, which is not part of this model. The proofs use
  only the fact that they are distinct.
- C `int` overflow in `list_len` and in `(nr + 1) * 2` is not modelled.
  Lists of 2^30 elements or more are out of scope.
- CStrings.DupStringVal: copies the whole string. The C code stores
  `caml_string_length` in an `int len` (lines 36-38), so a string of 2^31
  bytes or more gets a truncated or negative length. A 2^32-byte string,
  for example, gets `len == 0` and a one-byte copy. Strings that long are
  out of scope.
- Lists.StringListVal, Lists.KeyValueListVal: each slot holds the contents
  of a copy, not a pointer. The value model cannot express that every slot
  is a separate allocation, aliasing neither the managed string nor another
  slot.
- A Dafny `char` stands for one byte of an OCaml string or a C `char`
  buffer. No encoding is modelled.
- Stubs.PhysinfoGet, Stubs.DomainSchedParamsGet: a failing libxl query call
  (`libxl_get_physinfo`, `libxl_domain_sched_params_get`) is assumed to
  leave nothing to dispose. The stubs neither init nor dispose the record
  before raising (lines 366-369, 411-413). So "on failure nothing is owned"
  in `Stubs.PhysinfoStepsDisciplined` and
  `Stubs.SchedParamsGetStepsDisciplined`, and the discipline of these two
  stubs on failure, rest on that assumption about libxl.
- When a `dup_String_val` inside a list converter raises, the array and the
  earlier copies leak. The model returns the Out_of_memory outcome, but the
  list converters do not track those resources.
- That `domain_sched_params_set` followed by `_get` echoes the parameters is
  not modelled. It depends on libxl's own fidelity, which is abstract here.
- Concurrency and floating point do not occur in this file.

## Findings

| source | as written | input that shows it | evidently intended | confidence | as-written member | corrected member |
|---|---|---|---|---|---|---|
| tools/ocaml/libs/xl/xenlight_stubs.c:476-482 | `failwith_xl` at line 480 raises before `free(c_keys)` at line 482, so a failing call never frees the copy of the keys | any non-zero status from libxl_send_debug_keys, e.g. ERROR_FAIL (-3): the stub raises with the copy still allocated (`Stubs.DebugKeysAsWrittenLeaks`) | free the copy before checking the status, as the device stubs dispose before raising | high; not executed | `Stubs.SendDebugKeysAsWritten` | `Stubs.SendDebugKeys` |
