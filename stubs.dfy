/** The operation entry points: convert the managed arguments, make one
    libxl call, dispose what was converted, and raise on a non-zero status.
    The native side is abstract: each stub records what it does to native
    resources as a step in the context's ghost trace, and the status a libxl
    call returns is a parameter. */
module Stubs {
  import opened Wrappers
  import opened XlErrors
  import opened CStrings

  /** The five device classes the device template is instantiated for. */
  datatype DeviceClass = Disk | Nic | Vfb | Vkb | Pci

  /** The three operations of the device template. */
  datatype DeviceOp = Add | Remove | Destroy

  /** STRINGIFY(type) */
  function ClassName(d: DeviceClass): string
  {
    match d
    case Disk => "disk"
    case Nic => "nic"
    case Vfb => "vfb"
    case Vkb => "vkb"
    case Pci => "pci"
  }

  /** STRINGIFY(op) */
  function OpName(op: DeviceOp): string
  {
    match op
    case Add => "add"
    case Remove => "remove"
    case Destroy => "destroy"
  }

  /** The name a device stub raises with: `"<type>_<op>"`. */
  function DeviceOpName(d: DeviceClass, op: DeviceOp): string
  {
    ClassName(d) + "_" + OpName(op)
  }

  /** A name joined to a suffix by '_' splits back uniquely when the name
      itself holds no '_'. */
  lemma SplitAtUnderscore(a1: string, b1: string, a2: string, b2: string)
    requires '_' !in a1 && '_' !in a2
    requires a1 + "_" + b1 == a2 + "_" + b2
    ensures a1 == a2 && b1 == b2
  {
    var n := a1 + "_" + b1;
    assert n[|a1|] == '_';
    assert (a2 + "_" + b2)[|a2|] == '_';
    assert a1 == n[..|a1|] == a2;
    assert b1 == n[|a1| + 1..] == b2;
  }

  /** The fifteen names are distinct, so the name in the exception tells
      which device stub raised it. */
  lemma DeviceOpNameInjective(d1: DeviceClass, op1: DeviceOp, d2: DeviceClass, op2: DeviceOp)
    ensures DeviceOpName(d1, op1) == DeviceOpName(d2, op2) <==> d1 == d2 && op1 == op2
  {
    if DeviceOpName(d1, op1) == DeviceOpName(d2, op2) {
      SplitAtUnderscore(ClassName(d1), OpName(op1), ClassName(d2), OpName(op2));
    }
  }

  /** The libxl function a device stub calls: `libxl_device_<type>_<op>`. */
  function DeviceFn(d: DeviceClass, op: DeviceOp): string
  {
    "libxl_device_" + DeviceOpName(d, op)
  }

  /** A native structure owned by one stub invocation. */
  datatype Resource =
    | DeviceRecord(dev: DeviceClass)  // libxl_device_<type>, filled by device_<type>_val
    | PhysinfoRecord                  // libxl_physinfo, filled by libxl_get_physinfo
    | SchedParamsRecord               // libxl_domain_sched_params
    | TopologyList                    // the array libxl_get_cpu_topology returns
    | KeysCopy                        // the dup_String_val copy of the debug keys

  /** What a stub does to native resources, in order. */
  datatype Step =
    /** A `*_val` converter or dup_String_val populates a native structure. */
    | Populate(res: Resource)
    /** The one libxl call; `fills` is the output structure it hands over. */
    | Call(fn: string, fills: Option<Resource>)
    /** A `Val_*` converter copies a native structure into a managed value. */
    | CopyOut(res: Resource)
    /** `libxl_*_dispose`, `libxl_cputopology_list_free` or `free`. */
    | Dispose(res: Resource)

  /** What one step does to the structures owned before it. */
  function Effect(h: multiset<Resource>, x: Step): multiset<Resource>
  {
    match x
    case Populate(r) => h + multiset{r}
    case Call(_, fills) => if fills.Some? then h + multiset{fills.value} else h
    case CopyOut(_) => h
    case Dispose(r) => h - multiset{r}
  }

  /** The native structures still owned after `steps`. */
  function Held(steps: seq<Step>): multiset<Resource>
  {
    if steps == [] then multiset{}
    else Effect(Held(steps[..|steps| - 1]), steps[|steps| - 1])
  }

  /** Every copy-out and every dispose acts on a structure that is owned at
      that moment: nothing is read after it is freed, nothing freed twice. */
  predicate UsesHeld(steps: seq<Step>)
  {
    steps == [] ||
    var prefix, x := steps[..|steps| - 1], steps[|steps| - 1];
    UsesHeld(prefix) && ((x.CopyOut? || x.Dispose?) ==> x.res in Held(prefix))
  }

  /** The resource discipline: every structure is used only while owned and
      is disposed exactly once, so nothing is left owned at the end. */
  predicate Disciplined(steps: seq<Step>)
  {
    UsesHeld(steps) && Held(steps) == multiset{}
  }

  /** Structures owned from earlier do not change what a step does to the
      rest, provided a dispose disposes one of the rest. */
  lemma EffectFrame(a: multiset<Resource>, b: multiset<Resource>, x: Step)
    requires x.Dispose? ==> x.res in b
    ensures Effect(a + b, x) == a + Effect(b, x)
  {
    if x.Dispose? {
      assert b == (b - multiset{x.res}) + multiset{x.res};
      assert a + b == (a + (b - multiset{x.res})) + multiset{x.res};
    }
  }

  /** A later, self-contained stretch of steps adds to what is owned exactly
      what it owns by itself. */
  lemma {:induction false} HeldAppend(t: seq<Step>, s: seq<Step>)
    requires UsesHeld(s)
    ensures Held(t + s) == Held(t) + Held(s)
    decreases |s|
  {
    if s == [] {
      assert t + s == t;
    } else {
      var s', x := s[..|s| - 1], s[|s| - 1];
      assert (t + s)[..|t + s| - 1] == t + s' && (t + s)[|t + s| - 1] == x;
      HeldAppend(t, s');
      EffectFrame(Held(t), Held(s'), x);
    }
  }

  /** After a history that keeps to owned structures, a self-contained stretch
      of steps still does. */
  lemma {:induction false} UsesHeldAppend(t: seq<Step>, s: seq<Step>)
    requires UsesHeld(t) && UsesHeld(s)
    ensures UsesHeld(t + s)
    decreases |s|
  {
    if s == [] {
      assert t + s == t;
    } else {
      var s' := s[..|s| - 1];
      assert (t + s)[..|t + s| - 1] == t + s' && (t + s)[|t + s| - 1] == s[|s| - 1];
      UsesHeldAppend(t, s');
      HeldAppend(t, s');
    }
  }

  /** A disciplined session stays disciplined when a disciplined stretch of
      steps is appended to it. */
  lemma DisciplinedAppend(t: seq<Step>, s: seq<Step>)
    requires Disciplined(t) && Disciplined(s)
    ensures Disciplined(t + s)
  {
    HeldAppend(t, s);
    UsesHeldAppend(t, s);
  }

  /** The steps of `populate r; call; dispose r`, the order of the device
      stubs and of domain_sched_params_set. */
  lemma ConvertCallDispose(r: Resource, fn: string)
    ensures Disciplined([Populate(r), Call(fn, None), Dispose(r)])
  {
    var s := [Populate(r), Call(fn, None), Dispose(r)];
    var s1, s2 := [Populate(r)], [Populate(r), Call(fn, None)];
    assert s1[..0] == [] && s2[..1] == s1 && s[..2] == s2;
    assert Held(s1) == multiset{r} && UsesHeld(s1);
    assert Held(s2) == multiset{r} && UsesHeld(s2);
  }

  /** The steps of `call (filling r); copy r out; dispose r`, the order of
      the query stubs on success. */
  lemma CallCopyDispose(r: Resource, fn: string)
    ensures Disciplined([Call(fn, Some(r)), CopyOut(r), Dispose(r)])
  {
    var s := [Call(fn, Some(r)), CopyOut(r), Dispose(r)];
    var s1, s2 := [Call(fn, Some(r))], [Call(fn, Some(r)), CopyOut(r)];
    assert s1[..0] == [] && s2[..1] == s1 && s[..2] == s2;
    assert Held(s1) == multiset{r} && UsesHeld(s1);
    assert Held(s2) == multiset{r} && UsesHeld(s2);
  }

  /** One call that hands over nothing. */
  lemma CallOnly(fn: string)
    ensures Disciplined([Call(fn, None)])
  {
    assert [Call(fn, None)][..0] == [];
  }

  /** The opaque libxl context handle. Its ghost trace records every step
      the stubs take on native resources through it. */
  class Ctx {
    ghost var trace: seq<Step>

    ghost predicate Valid()
      reads this
    {
      Disciplined(trace)
    }
  }

  /** The steps of every device stub, whatever the call returns. */
  function DeviceSteps(d: DeviceClass, op: DeviceOp): seq<Step>
  {
    [Populate(DeviceRecord(d)), Call(DeviceFn(d, op), None), Dispose(DeviceRecord(d))]
  }

  /** In every device stub the converted record is populated once, disposed
      exactly once, and disposed after the call: the steps are disciplined
      and the record is owned only between them. */
  lemma DeviceStepsDisciplined(d: DeviceClass, op: DeviceOp)
    ensures Disciplined(DeviceSteps(d, op))
    ensures DeviceSteps(d, op)[|DeviceSteps(d, op)| - 1] == Dispose(DeviceRecord(d))
  {
    ConvertCallDispose(DeviceRecord(d), DeviceFn(d, op));
  }

  /** stub_xl_device_<type>_<op> (the _DEVICE_ADDREMOVE template): convert
      the device record, call libxl_device_<type>_<op>, which returns `ret`,
      dispose the record unconditionally, and only then raise when `ret` is
      non-zero, with the name `"<type>_<op>"`. */
  method DeviceAddRemove(ctx: Ctx, d: DeviceClass, op: DeviceOp, ret: int) returns (o: Outcome<()>)
    modifies ctx
    ensures ctx.trace == old(ctx.trace) + DeviceSteps(d, op)
    ensures old(ctx.Valid()) ==> ctx.Valid()
    ensures o == Return(()) <==> ret == 0
    ensures ret != 0 && ret in KnownErrors ==> o == Raise(XenlightError(ValError(ret), DeviceOpName(d, op)))
    ensures ret != 0 && ret !in KnownErrors ==> o == Abort
  {
    ghost var t := ctx.trace;
    ctx.trace := ctx.trace + [Populate(DeviceRecord(d))];
    ctx.trace := ctx.trace + [Call(DeviceFn(d, op), None)];
    ctx.trace := ctx.trace + [Dispose(DeviceRecord(d))];
    assert ctx.trace == t + DeviceSteps(d, op);
    if Disciplined(t) {
      DeviceStepsDisciplined(d, op);
      DisciplinedAppend(t, DeviceSteps(d, op));
    }
    if ret != 0 {
      return FailwithXl(ret, DeviceOpName(d, op));
    }
    o := Return(());
  }

  /** The steps of stub_xl_physinfo_get for a call returning `ret`. */
  function PhysinfoSteps(ret: int): seq<Step>
  {
    if ret != 0 then [Call("libxl_get_physinfo", None)]
    else [Call("libxl_get_physinfo", Some(PhysinfoRecord)), CopyOut(PhysinfoRecord), Dispose(PhysinfoRecord)]
  }

  /** On success the filled record is copied out before it is disposed; on
      failure nothing was handed over and nothing is disposed. */
  lemma PhysinfoStepsDisciplined(ret: int)
    ensures Disciplined(PhysinfoSteps(ret))
  {
    if ret != 0 {
      CallOnly("libxl_get_physinfo");
    } else {
      CallCopyDispose(PhysinfoRecord, "libxl_get_physinfo");
    }
  }

  /** stub_xl_physinfo_get: call libxl_get_physinfo, which returns `ret`
      and on success fills in `info`; raise `"get_physinfo"` on a non-zero
      status, otherwise copy the record out, dispose it and return the copy. */
  method PhysinfoGet<T>(ctx: Ctx, ret: int, info: T) returns (o: Outcome<T>)
    modifies ctx
    ensures ctx.trace == old(ctx.trace) + PhysinfoSteps(ret)
    ensures old(ctx.Valid()) ==> ctx.Valid()
    ensures ret == 0 ==> o == Return(info)
    ensures ret != 0 ==> o == FailwithXl(ret, "get_physinfo") && !o.Return?
  {
    ghost var t := ctx.trace;
    if Disciplined(t) {
      PhysinfoStepsDisciplined(ret);
      DisciplinedAppend(t, PhysinfoSteps(ret));
    }
    if ret != 0 {
      ctx.trace := ctx.trace + [Call("libxl_get_physinfo", None)];
      return FailwithXl(ret, "get_physinfo");
    }
    ctx.trace := ctx.trace + [Call("libxl_get_physinfo", Some(PhysinfoRecord))];
    ctx.trace := ctx.trace + [CopyOut(PhysinfoRecord)];
    ctx.trace := ctx.trace + [Dispose(PhysinfoRecord)];
    o := Return(info);
  }

  /** A `libxl_cputopology` entry. */
  datatype CpuTopology = CpuTopology(core: int, socket: int, node: int)

  /** LIBXL_CPUTOPOLOGY_INVALID_ENTRY, `~(uint32_t)0`. */
  const InvalidEntry: int := 0xFFFF_FFFF

  /** The managed form of one topology entry: None for an invalid entry. */
  function TopologyEntry(e: CpuTopology): (v: Option<CpuTopology>)
    ensures v.None? <==> e.core == InvalidEntry
    ensures v.Some? ==> v.value == e
  {
    if e.core != InvalidEntry then Some(e) else None
  }

  /** The steps of stub_xl_cputopology_get; `found` is whether the call
      returned an array. */
  function TopologySteps(found: bool): seq<Step>
  {
    if !found then [Call("libxl_get_cpu_topology", None)]
    else [Call("libxl_get_cpu_topology", Some(TopologyList)), CopyOut(TopologyList), Dispose(TopologyList)]
  }

  /** The array is freed once, and only after every entry was copied. */
  lemma TopologyStepsDisciplined(found: bool)
    ensures Disciplined(TopologySteps(found))
  {
    if found {
      CallCopyDispose(TopologyList, "libxl_get_cpu_topology");
    } else {
      CallOnly("libxl_get_cpu_topology");
    }
  }

  /** A disciplined session stays so across the topology stub. */
  lemma TopologyStepsPreserve(t: seq<Step>, found: bool)
    ensures Disciplined(t) ==> Disciplined(t + TopologySteps(found))
  {
    if Disciplined(t) {
      TopologyStepsDisciplined(found);
      DisciplinedAppend(t, TopologySteps(found));
    }
  }

  /** stub_xl_cputopology_get: libxl_get_cpu_topology returns NULL (`None`)
      or an array of `nr` entries. NULL raises `"get_cpu_topologyinfo"` with
      ERROR_FAIL; otherwise each entry becomes Some of its copy, or None when
      its core is the invalid-entry marker, and the array is freed after the
      loop. */
  method CputopologyGet(ctx: Ctx, native: Option<seq<CpuTopology>>) returns (o: Outcome<seq<Option<CpuTopology>>>)
    modifies ctx
    ensures ctx.trace == old(ctx.trace) + TopologySteps(native.Some?)
    ensures old(ctx.Valid()) ==> ctx.Valid()
    ensures native.None? ==> o == Raise(XenlightError(2, "get_cpu_topologyinfo"))
    ensures native.Some? ==> o.Return? && |o.value| == |native.value|
    ensures native.Some? ==> forall i :: 0 <= i < |native.value| ==> o.value[i] == TopologyEntry(native.value[i])
  {
    ghost var t := ctx.trace;
    if native.None? {
      ctx.trace := ctx.trace + [Call("libxl_get_cpu_topology", None)];
      TopologyStepsPreserve(t, false);
      return FailwithXl(ErrorFail, "get_cpu_topologyinfo");
    }
    ctx.trace := ctx.trace + [Call("libxl_get_cpu_topology", Some(TopologyList))];
    var entries := native.value;
    var nr := |entries|;
    var topology := new Option<CpuTopology>[nr];
    for i := 0 to nr
      invariant ctx.trace == t + [Call("libxl_get_cpu_topology", Some(TopologyList))]
      invariant forall k :: 0 <= k < i ==> topology[k] == TopologyEntry(entries[k])
    {
      if entries[i].core != InvalidEntry {
        topology[i] := Some(entries[i]);
      } else {
        topology[i] := None;
      }
    }
    ctx.trace := ctx.trace + [CopyOut(TopologyList)];
    ctx.trace := ctx.trace + [Dispose(TopologyList)];
    TopologyStepsPreserve(t, true);
    o := Return(topology[..]);
  }

  /** The steps of stub_xl_domain_sched_params_get for a call returning `ret`. */
  function SchedParamsGetSteps(ret: int): seq<Step>
  {
    if ret != 0 then [Call("libxl_domain_sched_params_get", None)]
    else [Call("libxl_domain_sched_params_get", Some(SchedParamsRecord)),
          CopyOut(SchedParamsRecord), Dispose(SchedParamsRecord)]
  }

  /** On success the parameters are copied out before they are disposed. */
  lemma SchedParamsGetStepsDisciplined(ret: int)
    ensures Disciplined(SchedParamsGetSteps(ret))
  {
    if ret != 0 {
      CallOnly("libxl_domain_sched_params_get");
    } else {
      CallCopyDispose(SchedParamsRecord, "libxl_domain_sched_params_get");
    }
  }

  /** stub_xl_domain_sched_params_get: call, raise
      `"domain_sched_params_get"` on a non-zero `ret`, otherwise copy the
      parameters out, dispose them and return the copy. */
  method DomainSchedParamsGet<T>(ctx: Ctx, ret: int, params: T) returns (o: Outcome<T>)
    modifies ctx
    ensures ctx.trace == old(ctx.trace) + SchedParamsGetSteps(ret)
    ensures old(ctx.Valid()) ==> ctx.Valid()
    ensures ret == 0 ==> o == Return(params)
    ensures ret != 0 ==> o == FailwithXl(ret, "domain_sched_params_get") && !o.Return?
  {
    ghost var t := ctx.trace;
    if Disciplined(t) {
      SchedParamsGetStepsDisciplined(ret);
      DisciplinedAppend(t, SchedParamsGetSteps(ret));
    }
    if ret != 0 {
      ctx.trace := ctx.trace + [Call("libxl_domain_sched_params_get", None)];
      return FailwithXl(ret, "domain_sched_params_get");
    }
    ctx.trace := ctx.trace + [Call("libxl_domain_sched_params_get", Some(SchedParamsRecord))];
    ctx.trace := ctx.trace + [CopyOut(SchedParamsRecord)];
    ctx.trace := ctx.trace + [Dispose(SchedParamsRecord)];
    o := Return(params);
  }

  /** The steps of stub_xl_domain_sched_params_set, whatever the call returns. */
  function SchedParamsSetSteps(): seq<Step>
  {
    [Populate(SchedParamsRecord), Call("libxl_domain_sched_params_set", None), Dispose(SchedParamsRecord)]
  }

  /** stub_xl_domain_sched_params_set: convert, call, dispose
      unconditionally, then raise `"domain_sched_params_set"` on a non-zero
      `ret`. */
  method DomainSchedParamsSet(ctx: Ctx, ret: int) returns (o: Outcome<()>)
    modifies ctx
    ensures ctx.trace == old(ctx.trace) + SchedParamsSetSteps()
    ensures old(ctx.Valid()) ==> ctx.Valid()
    ensures o == Return(()) <==> ret == 0
    ensures ret != 0 ==> o == FailwithXl(ret, "domain_sched_params_set")
  {
    ghost var t := ctx.trace;
    ctx.trace := ctx.trace + [Populate(SchedParamsRecord)];
    ctx.trace := ctx.trace + [Call("libxl_domain_sched_params_set", None)];
    ctx.trace := ctx.trace + [Dispose(SchedParamsRecord)];
    if Disciplined(t) {
      ConvertCallDispose(SchedParamsRecord, "libxl_domain_sched_params_set");
      DisciplinedAppend(t, SchedParamsSetSteps());
    }
    if ret != 0 {
      return FailwithXl(ret, "domain_sched_params_set");
    }
    o := Return(());
  }

  /** stub_xl_send_trigger: convert the trigger (a plain enumeration, nothing
      to dispose), call libxl_send_trigger, raise `"send_trigger"` on a
      non-zero `ret`. */
  method SendTrigger(ctx: Ctx, ret: int) returns (o: Outcome<()>)
    modifies ctx
    ensures ctx.trace == old(ctx.trace) + [Call("libxl_send_trigger", None)]
    ensures old(ctx.Valid()) ==> ctx.Valid()
    ensures o == Return(()) <==> ret == 0
    ensures ret != 0 ==> o == FailwithXl(ret, "send_trigger")
  {
    ghost var t := ctx.trace;
    ctx.trace := ctx.trace + [Call("libxl_send_trigger", None)];
    if Disciplined(t) {
      CallOnly("libxl_send_trigger");
      DisciplinedAppend(t, [Call("libxl_send_trigger", None)]);
    }
    if ret != 0 {
      return FailwithXl(ret, "send_trigger");
    }
    o := Return(());
  }

  /** stub_xl_send_sysrq: call libxl_send_sysrq, raise `"send_sysrq"` on a
      non-zero `ret`. */
  method SendSysrq(ctx: Ctx, ret: int) returns (o: Outcome<()>)
    modifies ctx
    ensures ctx.trace == old(ctx.trace) + [Call("libxl_send_sysrq", None)]
    ensures old(ctx.Valid()) ==> ctx.Valid()
    ensures o == Return(()) <==> ret == 0
    ensures ret != 0 ==> o == FailwithXl(ret, "send_sysrq")
  {
    ghost var t := ctx.trace;
    ctx.trace := ctx.trace + [Call("libxl_send_sysrq", None)];
    if Disciplined(t) {
      CallOnly("libxl_send_sysrq");
      DisciplinedAppend(t, [Call("libxl_send_sysrq", None)]);
    }
    if ret != 0 {
      return FailwithXl(ret, "send_sysrq");
    }
    o := Return(());
  }

  /** The steps of stub_xl_send_debug_keys as written, once the keys were
      copied: the free comes after the raise, so an error skips it. */
  function DebugKeysStepsAsWritten(ret: int): seq<Step>
  {
    [Populate(KeysCopy), Call("libxl_send_debug_keys", None)]
    + (if ret != 0 then [] else [Dispose(KeysCopy)])
  }

  /** As written, every failing libxl_send_debug_keys leaks the copy of the
      keys: it is still owned when the stub raises. */
  lemma DebugKeysAsWrittenLeaks(ret: int)
    requires ret != 0
    ensures Held(DebugKeysStepsAsWritten(ret)) == multiset{KeysCopy}
    ensures !Disciplined(DebugKeysStepsAsWritten(ret))
  {
    var s := DebugKeysStepsAsWritten(ret);
    assert s == [Populate(KeysCopy), Call("libxl_send_debug_keys", None)];
    assert s[..1] == [Populate(KeysCopy)] && [Populate(KeysCopy)][..0] == [];
  }

  /** As written, the success path does free the copy. */
  lemma DebugKeysAsWrittenSuccess()
    ensures Disciplined(DebugKeysStepsAsWritten(0))
  {
    assert DebugKeysStepsAsWritten(0)
      == [Populate(KeysCopy), Call("libxl_send_debug_keys", None), Dispose(KeysCopy)];
    ConvertCallDispose(KeysCopy, "libxl_send_debug_keys");
  }

  /** stub_xl_send_debug_keys as written: copy the keys (raising
      Out_of_memory if that fails), call libxl_send_debug_keys, raise
      `"send_debug_keys"` on a non-zero `ret`, and only then free the copy. */
  method SendDebugKeysAsWritten(ctx: Ctx, keys: string, ret: int) returns (o: Outcome<()>)
    modifies ctx
    ensures o == Raise(OutOfMemory) ==> ctx.trace == old(ctx.trace)
    ensures o != Raise(OutOfMemory) ==> ctx.trace == old(ctx.trace) + DebugKeysStepsAsWritten(ret)
    ensures o != Raise(OutOfMemory) ==> (o == Return(()) <==> ret == 0)
    ensures o != Raise(OutOfMemory) && ret != 0 ==> o == FailwithXl(ret, "send_debug_keys")
  {
    var c := DupStringVal(keys);
    if !c.Return? {
      return Raise(OutOfMemory);
    }
    ctx.trace := ctx.trace + [Populate(KeysCopy)];
    ctx.trace := ctx.trace + [Call("libxl_send_debug_keys", None)];
    if ret != 0 {
      return FailwithXl(ret, "send_debug_keys");
    }
    ctx.trace := ctx.trace + [Dispose(KeysCopy)];
    o := Return(());
  }

  /** The steps of stub_xl_send_debug_keys with the free moved before the
      raise, once the keys were copied. */
  function DebugKeysSteps(): seq<Step>
  {
    [Populate(KeysCopy), Call("libxl_send_debug_keys", None), Dispose(KeysCopy)]
  }

  /** stub_xl_send_debug_keys as intended: copy, call, free the copy
      unconditionally, then raise `"send_debug_keys"` on a non-zero `ret`. */
  method SendDebugKeys(ctx: Ctx, keys: string, ret: int) returns (o: Outcome<()>)
    modifies ctx
    ensures o == Raise(OutOfMemory) ==> ctx.trace == old(ctx.trace)
    ensures o != Raise(OutOfMemory) ==> ctx.trace == old(ctx.trace) + DebugKeysSteps()
    ensures old(ctx.Valid()) ==> ctx.Valid()
    ensures o != Raise(OutOfMemory) ==> (o == Return(()) <==> ret == 0)
    ensures o != Raise(OutOfMemory) && ret != 0 ==> o == FailwithXl(ret, "send_debug_keys")
  {
    var c := DupStringVal(keys);
    if !c.Return? {
      return Raise(OutOfMemory);
    }
    ghost var t := ctx.trace;
    ctx.trace := ctx.trace + [Populate(KeysCopy)];
    ctx.trace := ctx.trace + [Call("libxl_send_debug_keys", None)];
    ctx.trace := ctx.trace + [Dispose(KeysCopy)];
    if Disciplined(t) {
      ConvertCallDispose(KeysCopy, "libxl_send_debug_keys");
      DisciplinedAppend(t, DebugKeysSteps());
    }
    if ret != 0 {
      return FailwithXl(ret, "send_debug_keys");
    }
    o := Return(());
  }
}
