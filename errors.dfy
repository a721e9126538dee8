/** libxl error codes, their mapping onto the tags of the managed
    `Xenlight.error` variant, and the exception that carries them. */
module XlErrors {

  // The libxl error constants, as libxl's type description numbers them.
  const ErrorNonspecific: int := -1
  const ErrorVersion: int := -2
  const ErrorFail: int := -3
  const ErrorNi: int := -4
  const ErrorNomem: int := -5
  const ErrorInval: int := -6
  const ErrorBadfail: int := -7
  const ErrorGuestTimedout: int := -8
  const ErrorTimedout: int := -9
  const ErrorNoparavirt: int := -10
  const ErrorNotReady: int := -11
  const ErrorOseventRegFail: int := -12
  const ErrorBufferfull: int := -13
  const ErrorUnknownChild: int := -14

  /** The fourteen codes Val_error knows, in the order of its switch. */
  const KnownErrors: seq<int> := [
    ErrorNonspecific, ErrorVersion, ErrorFail, ErrorNi, ErrorNomem,
    ErrorInval, ErrorBadfail, ErrorGuestTimedout, ErrorTimedout,
    ErrorNoparavirt, ErrorNotReady, ErrorOseventRegFail, ErrorBufferfull,
    ErrorUnknownChild
  ]

  /** Number of constructors of the managed error variant. */
  const ErrorTagCount: nat := 14

  /** Val_error: the tag `Val_int(k)` of the managed constructor for a libxl
      error code. Any other code ends in `abort()`, so the caller must pass a
      known one (the total wrapper FailwithXl models the abort). */
  function ValError(code: int): (tag: nat)
    requires code in KnownErrors
    ensures tag < ErrorTagCount && |KnownErrors| == ErrorTagCount
    ensures KnownErrors[tag] == code
  {
    if code == ErrorNonspecific then 0
    else if code == ErrorVersion then 1
    else if code == ErrorFail then 2
    else if code == ErrorNi then 3
    else if code == ErrorNomem then 4
    else if code == ErrorInval then 5
    else if code == ErrorBadfail then 6
    else if code == ErrorGuestTimedout then 7
    else if code == ErrorTimedout then 8
    else if code == ErrorNoparavirt then 9
    else if code == ErrorNotReady then 10
    else if code == ErrorOseventRegFail then 11
    else if code == ErrorBufferfull then 12
    else 13
  }

  /** Distinct libxl codes get distinct tags. */
  lemma ValErrorInjective(a: int, b: int)
    requires a in KnownErrors && b in KnownErrors
    ensures ValError(a) == ValError(b) <==> a == b
  {
  }

  /** Every tag 0..13 is reached, by the code in that position of the switch. */
  lemma ValErrorOnto(tag: nat)
    requires tag < ErrorTagCount
    ensures KnownErrors[tag] in KnownErrors && ValError(KnownErrors[tag]) == tag
  {
    var code := KnownErrors[tag];
    KnownErrorsDistinct(ValError(code), tag);
  }

  /** The fourteen constants are pairwise different, as a C switch needs. */
  lemma KnownErrorsDistinct(i: nat, j: nat)
    requires i < |KnownErrors| && j < |KnownErrors|
    ensures KnownErrors[i] == KnownErrors[j] <==> i == j
  {
  }

  /** What the stubs raise into the managed runtime. */
  datatype Exn =
    /** `Xenlight.Error (kind, fname)`: the managed error tag and the operation's name. */
    | XenlightError(kind: nat, fname: string)
    /** The runtime's `Out_of_memory`, raised by `caml_raise_out_of_memory`. */
    | OutOfMemory

  /** How a native stub finishes: it returns a value, raises, or aborts the process. */
  datatype Outcome<+T> = Return(value: T) | Raise(exn: Exn) | Abort

  /** failwith_xl: raise `Xenlight.Error` with the tag of `code` and the name
      `fname`; a code Val_error does not know aborts the process instead. */
  function FailwithXl<T>(code: int, fname: string): (o: Outcome<T>)
    ensures !o.Return?
    ensures o.Abort? <==> code !in KnownErrors
    ensures o.Raise? ==> o.exn.XenlightError? && o.exn.fname == fname
                         && o.exn.kind < ErrorTagCount && KnownErrors[o.exn.kind] == code
  {
    if code in KnownErrors then Raise(XenlightError(ValError(code), fname)) else Abort
  }
}
