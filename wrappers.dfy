/** The presence/absence wrapper shared by every converter of the binding. */
module Wrappers {

  /** `None` is OCaml's `Val_none` (the immediate 0) or a C NULL pointer;
      `Some(v)` is a one-field block holding `v`, or a non-NULL pointer. */
  datatype Option<+T> = None | Some(value: T)
}
