/**
 * The dynamic call of src/call.rs: find the method in the receiver's
 * vtable, allocate one zeroed out slot per out-parameter, assemble the
 * argument list (receiver, then each parameter's in-value or out-slot
 * pointer in declaration order), make the raw call, stop on a failing
 * HRESULT, and otherwise convert the out slots back into WinRT values.
 *
 * Memory is a map from address to pointer-sized word; the libffi call is an
 * oracle that sees the call interface, the function pointer, the argument
 * list and the out slots, and answers with the HRESULT and the slots'
 * contents afterwards.
 */
module Call {
  import opened Wrappers
  import opened Abi
  import opened Types
  import opened Values
  import opened Signature

  /** Process memory as pointer-sized words. */
  type Memory = map<Address, Address>

  /** The width in bytes of one vtable entry on a 64-bit target. */
  const PointerSize: nat := 8

  /**
   * get_vtable_function_ptr: an object's first word points at its vtable, an
   * array of function pointers; entry `methodIndex` is the method.
   */
  function GetVtableFunctionPtr(mem: Memory, obj: Address, methodIndex: nat): Address
    requires obj in mem && mem[obj] + PointerSize * methodIndex in mem
  {
    mem[mem[obj] + PointerSize * methodIndex]
  }

  /** `obj` is a COM object whose vtable holds the function pointers `vtable`, slot by slot. */
  predicate HoldsVtable(mem: Memory, obj: Address, vtable: seq<Address>)
  {
    && obj in mem
    && forall i :: 0 <= i < |vtable| ==>
         mem[obj] + PointerSize * i in mem && mem[mem[obj] + PointerSize * i] == vtable[i]
  }

  /** The lookup reads exactly the slot asked for. */
  lemma VtableLookup(mem: Memory, obj: Address, vtable: seq<Address>, i: nat)
    requires HoldsVtable(mem, obj, vtable) && i < |vtable|
    ensures obj in mem && mem[obj] + PointerSize * i in mem
    ensures GetVtableFunctionPtr(mem, obj, i) == vtable[i]
  {
  }

  /** One entry of the libffi argument list. */
  datatype FfiArg =
    | Receiver(obj: Address)       // the this pointer
    | OutPointer(slot: nat)        // a pointer to out slot `slot`
    | InValue(value: WinRTValue)   // an in-argument, passed by libffi_arg

  /**
   * The raw call: given the call interface, the function pointer, the
   * argument list and the out slots before the call, the HRESULT and the
   * out slots after it.
   */
  type FfiCall = (Cif, Address, seq<FfiArg>, seq<AbiValue>) -> (int32, seq<AbiValue>)

  /** Every in-parameter names an argument that exists and that libffi_arg accepts. */
  predicate InArgsPassable(ps: seq<Parameter>, args: seq<WinRTValue>)
  {
    forall k :: 0 <= k < |ps| && !ps[k].isOut ==>
      ps[k].valueIndex < |args| && !args[ps[k].valueIndex].IAsyncOperation?
  }

  /** Every out-parameter names one of the first `n` out slots. */
  predicate OutIndicesBelow(ps: seq<Parameter>, n: nat)
  {
    forall k :: 0 <= k < |ps| && ps[k].isOut ==> ps[k].valueIndex < n
  }

  /** The out slots allocated before the call: each out-parameter's ABI default, in declaration order. */
  function DefaultSlots(ps: seq<Parameter>): (slots: seq<AbiValue>)
    ensures |slots| == CountOuts(ps)
  {
    if ps == [] then []
    else
      var p := ps[|ps| - 1];
      DefaultSlots(ps[..|ps| - 1]) + (if p.isOut then [p.typ.AbiTypeOf().DefaultValue()] else [])
  }

  /** The slot allocated for the out-parameter at position k is the CountOuts(ps[..k])-th. */
  lemma {:induction false} DefaultSlotsAt(ps: seq<Parameter>, k: nat)
    requires k < |ps| && ps[k].isOut
    ensures CountOuts(ps[..k]) < |DefaultSlots(ps)|
    ensures DefaultSlots(ps)[CountOuts(ps[..k])] == ps[k].typ.AbiTypeOf().DefaultValue()
  {
    var n := |ps| - 1;
    assert ps[..n + 1] == ps;
    if k == n {
    } else {
      DefaultSlotsAt(ps[..n], k);
      assert ps[..n][..k] == ps[..k];
    }
  }

  /** Every allocated slot is zero or null. */
  lemma {:induction false} DefaultSlotsZero(ps: seq<Parameter>)
    ensures forall j :: 0 <= j < |DefaultSlots(ps)| ==> DefaultSlots(ps)[j].IsZero()
  {
    if ps != [] {
      DefaultSlotsZero(ps[..|ps| - 1]);
      var p := ps[|ps| - 1];
      if p.isOut {
        var d := p.typ.AbiTypeOf().DefaultValue();
        assert d.IsZero();
      }
    }
  }

  /** With well-numbered parameters, out slot j holds the default of the out-parameter whose index is j. */
  lemma DefaultSlotsWellNumbered(ps: seq<Parameter>)
    requires WellNumbered(ps)
    ensures forall k :: 0 <= k < |ps| && ps[k].isOut ==>
      ps[k].valueIndex < |DefaultSlots(ps)| &&
      DefaultSlots(ps)[ps[k].valueIndex] == ps[k].typ.AbiTypeOf().DefaultValue()
  {
    forall k | 0 <= k < |ps| && ps[k].isOut
      ensures ps[k].valueIndex < |DefaultSlots(ps)|
      ensures DefaultSlots(ps)[ps[k].valueIndex] == ps[k].typ.AbiTypeOf().DefaultValue()
    {
      WellNumberedAt(ps, k);
      DefaultSlotsAt(ps, k);
    }
  }

  /** One parameter's entry of the argument list. */
  function ArgFor(p: Parameter, args: seq<WinRTValue>): FfiArg
    requires !p.isOut ==> p.valueIndex < |args|
  {
    if p.isOut then OutPointer(p.valueIndex) else InValue(args[p.valueIndex])
  }

  /**
   * The argument list: the receiver, then for each parameter its out-slot
   * pointer or its in-argument, in declaration order.
   */
  function FfiArgsOf(obj: Address, ps: seq<Parameter>, args: seq<WinRTValue>): (fa: seq<FfiArg>)
    requires InArgsPassable(ps, args)
    ensures |fa| == |ps| + 1 && fa[0] == Receiver(obj)
    ensures forall k :: 0 <= k < |ps| ==>
      fa[k + 1] == if ps[k].isOut then OutPointer(ps[k].valueIndex) else InValue(args[ps[k].valueIndex])
  {
    if ps == [] then [Receiver(obj)]
    else FfiArgsOf(obj, ps[..|ps| - 1], args) + [ArgFor(ps[|ps| - 1], args)]
  }

  /**
   * The out slots after the call. The marshaling layer owns each slot's tag: the
   * callee writes only the payload through the pointer it was given, so a
   * slot keeps its ABI category and takes the callee's payload when it has
   * that category.
   */
  function Settle(before: seq<AbiValue>, after: seq<AbiValue>): (slots: seq<AbiValue>)
    ensures |slots| == |before|
    ensures forall j :: 0 <= j < |before| ==> slots[j].AbiTypeOf() == before[j].AbiTypeOf()
  {
    seq(|before|, j requires 0 <= j < |before| =>
      if j < |after| && after[j].AbiTypeOf() == before[j].AbiTypeOf() then after[j] else before[j])
  }

  /**
   * The conversion loop: each out-parameter's slot converted to its type,
   * in declaration order; the first conversion error is the result.
   */
  function ConvertOuts(ps: seq<Parameter>, slots: seq<AbiValue>): (r: Result<seq<WinRTValue>, Error>)
    requires OutIndicesBelow(ps, |slots|)
    ensures r.Ok? ==> |r.value| == CountOuts(ps)
    ensures r.Err? ==> r.error.InvalidTypeAbiToWinRT? || r.error.InvalidNestedOutType?
  {
    if ps == [] then Ok([])
    else
      var prefix := ConvertOuts(ps[..|ps| - 1], slots);
      var p := ps[|ps| - 1];
      if prefix.Err? || !p.isOut then prefix
      else
        var v := FromOutValue(p.typ, slots[p.valueIndex]);
        if v.Err? then Err(v.error) else Ok(prefix.value + [v.value])
  }

  /** One out-parameter's slot converts. */
  predicate Converts(p: Parameter, slots: seq<AbiValue>)
    requires p.isOut ==> p.valueIndex < |slots|
  {
    p.isOut ==> FromOutValue(p.typ, slots[p.valueIndex]).Ok?
  }

  /** The conversion succeeds exactly when every out slot converts. */
  lemma {:induction false} ConvertOutsOkIff(ps: seq<Parameter>, slots: seq<AbiValue>)
    requires OutIndicesBelow(ps, |slots|)
    ensures ConvertOuts(ps, slots).Ok? <==> forall k :: 0 <= k < |ps| ==> Converts(ps[k], slots)
  {
    if ps != [] {
      var n := |ps| - 1;
      var pre := ps[..n];
      assert forall k :: 0 <= k < n ==> pre[k] == ps[k];
      ConvertOutsOkIff(pre, slots);
    }
  }

  /** A successful conversion yields one value per out-parameter, each the conversion of its slot. */
  lemma {:induction false} ConvertOutsValues(ps: seq<Parameter>, slots: seq<AbiValue>)
    requires OutIndicesBelow(ps, |slots|)
    requires ConvertOuts(ps, slots).Ok?
    ensures |ConvertOuts(ps, slots).value| == CountOuts(ps)
    ensures forall k :: 0 <= k < |ps| && ps[k].isOut ==>
      CountOuts(ps[..k]) < |ConvertOuts(ps, slots).value| &&
      FromOutValue(ps[k].typ, slots[ps[k].valueIndex]) == Ok(ConvertOuts(ps, slots).value[CountOuts(ps[..k])])
  {
    if ps != [] {
      var n := |ps| - 1;
      var pre := ps[..n];
      assert forall k :: 0 <= k < n ==> pre[k] == ps[k];
      ConvertOutsValues(pre, slots);
      var vs := ConvertOuts(ps, slots).value;
      forall k | 0 <= k < |ps| && ps[k].isOut
        ensures CountOuts(ps[..k]) < |vs|
        ensures FromOutValue(ps[k].typ, slots[ps[k].valueIndex]) == Ok(vs[CountOuts(ps[..k])])
      {
        if k < n {
          assert ps[..k] == pre[..k];
        } else {
          assert ps[..k] == pre;
        }
      }
    }
  }

  /** A failed conversion reports the error of the first out-parameter whose slot does not convert. */
  lemma {:induction false} ConvertOutsFirstError(ps: seq<Parameter>, slots: seq<AbiValue>)
    requires OutIndicesBelow(ps, |slots|)
    requires ConvertOuts(ps, slots).Err?
    ensures exists k ::
      && 0 <= k < |ps| && ps[k].isOut
      && FromOutValue(ps[k].typ, slots[ps[k].valueIndex]) == Err(ConvertOuts(ps, slots).error)
      && forall j :: 0 <= j < k ==> Converts(ps[j], slots)
  {
    var n := |ps| - 1;
    var pre := ps[..n];
    assert forall k :: 0 <= k < n ==> pre[k] == ps[k];
    var e := ConvertOuts(ps, slots).error;
    if ConvertOuts(pre, slots).Err? {
      ConvertOutsFirstError(pre, slots);
      var k :| 0 <= k < n && pre[k].isOut &&
        FromOutValue(pre[k].typ, slots[pre[k].valueIndex]) == Err(e) &&
        forall j :: 0 <= j < k ==> Converts(pre[j], slots);
      assert ps[k] == pre[k];
    } else {
      ConvertOutsOkIff(pre, slots);
      assert FromOutValue(ps[n].typ, slots[ps[n].valueIndex]) == Err(e);
    }
  }

  /** Once a prefix of the parameters fails to convert, the whole conversion fails with that error. */
  lemma {:induction false} ConvertOutsErrPersists(ps: seq<Parameter>, slots: seq<AbiValue>, i: nat)
    requires OutIndicesBelow(ps, |slots|) && i <= |ps|
    requires OutIndicesBelow(ps[..i], |slots|)
    requires ConvertOuts(ps[..i], slots).Err?
    ensures ConvertOuts(ps, slots) == ConvertOuts(ps[..i], slots)
    decreases |ps| - i
  {
    if i < |ps| {
      var next := ps[..i + 1];
      assert next[..i] == ps[..i];
      assert OutIndicesBelow(next, |slots|) by {
        assert forall k :: 0 <= k < |next| ==> next[k] == ps[k];
      }
      assert ConvertOuts(next, slots) == ConvertOuts(ps[..i], slots);
      ConvertOutsErrPersists(ps, slots, i + 1);
    } else {
      assert ps[..i] == ps;
    }
  }

  /**
   * call_winrt_method_dynamic as a value: the out slots are the defaults,
   * the callee sees the assembled argument list, a failing HRESULT is the
   * error and otherwise the settled slots are converted.
   */
  function DynamicCall(mem: Memory, vtableIndex: nat, obj: Address, ps: seq<Parameter>, args: seq<WinRTValue>,
                       cif: Cif, ffi: FfiCall): (r: Result<seq<WinRTValue>, Error>)
    requires obj in mem && mem[obj] + PointerSize * vtableIndex in mem
    requires OutIndicesBelow(ps, CountOuts(ps)) && InArgsPassable(ps, args)
    ensures r.Ok? ==> |r.value| == CountOuts(ps)
    ensures r.Err? && !r.error.WindowsError? ==> r.error.InvalidTypeAbiToWinRT? || r.error.InvalidNestedOutType?
  {
    var slots := DefaultSlots(ps);
    var (hr, written) := ffi(cif, GetVtableFunctionPtr(mem, obj, vtableIndex), FfiArgsOf(obj, ps, args), slots);
    if Failed(hr) then Err(WindowsError(hr)) else ConvertOuts(ps, Settle(slots, written))
  }

  /**
   * What a dynamic call with a well-numbered parameter list promises: a
   * failing HRESULT is returned as the error; otherwise the call succeeds
   * exactly when every out-parameter's type can be converted back, and
   * then yields one value per out-parameter, of that parameter's type.
   */
  lemma CallOutcome(mem: Memory, vtableIndex: nat, obj: Address, ps: seq<Parameter>, args: seq<WinRTValue>,
                    cif: Cif, ffi: FfiCall)
    requires obj in mem && mem[obj] + PointerSize * vtableIndex in mem
    requires WellNumbered(ps) && InArgsPassable(ps, args)
    ensures OutIndicesBelow(ps, CountOuts(ps))
    ensures var hr := ffi(cif, GetVtableFunctionPtr(mem, obj, vtableIndex), FfiArgsOf(obj, ps, args), DefaultSlots(ps)).0;
      var r := DynamicCall(mem, vtableIndex, obj, ps, args, cif, ffi);
      && (Failed(hr) ==> r == Err(WindowsError(hr)))
      && (r.Ok? <==> !Failed(hr) && forall k :: 0 <= k < |ps| && ps[k].isOut ==> ps[k].typ.Marshalable())
      && (r.Ok? ==> |r.value| == CountOuts(ps))
      && (r.Ok? ==> forall k :: 0 <= k < |ps| && ps[k].isOut ==> GetType(r.value[ps[k].valueIndex]) == ps[k].typ)
  {
    WellNumberedIndices(ps);
    DefaultSlotsWellNumbered(ps);
    var slots := DefaultSlots(ps);
    var (hr, written) := ffi(cif, GetVtableFunctionPtr(mem, obj, vtableIndex), FfiArgsOf(obj, ps, args), slots);
    if !Failed(hr) {
      var settled := Settle(slots, written);
      ConvertOutsOkIff(ps, settled);
      forall k | 0 <= k < |ps| && ps[k].isOut
        ensures Converts(ps[k], settled) <==> ps[k].typ.Marshalable()
      {
        var d := ps[k].typ.AbiTypeOf().DefaultValue();
        assert settled[ps[k].valueIndex].AbiTypeOf() == d.AbiTypeOf();
      }
      var r := ConvertOuts(ps, settled);
      if r.Ok? {
        ConvertOutsValues(ps, settled);
        forall k | 0 <= k < |ps| && ps[k].isOut
          ensures GetType(r.value[ps[k].valueIndex]) == ps[k].typ
        {
          WellNumberedAt(ps, k);
          FromOutValueRoundTrip(ps[k].typ, settled[ps[k].valueIndex]);
        }
      }
    }
  }

  /** The first pass: one default slot per out-parameter, and the pointer to each. */
  method AllocateOutSlots(parameters: seq<Parameter>) returns (outValues: seq<AbiValue>, outPtrs: seq<nat>)
    ensures outValues == DefaultSlots(parameters)
    ensures |outPtrs| == |outValues| && forall j :: 0 <= j < |outPtrs| ==> outPtrs[j] == j
  {
    outValues := [];
    outPtrs := [];
    for i := 0 to |parameters|
      invariant outValues == DefaultSlots(parameters[..i])
      invariant |outPtrs| == |outValues| && forall j :: 0 <= j < |outPtrs| ==> outPtrs[j] == j
    {
      var p := parameters[i];
      assert parameters[..i + 1][..i] == parameters[..i];
      if p.isOut {
        outValues := outValues + [p.typ.AbiTypeOf().DefaultValue()];
        outPtrs := outPtrs + [|outValues| - 1];
      }
    }
    assert parameters[..|parameters|] == parameters;
  }

  /** The second pass: the receiver, then each parameter's out pointer or in-argument. */
  method AssembleArgs(obj: Address, parameters: seq<Parameter>, args: seq<WinRTValue>, outPtrs: seq<nat>)
    returns (ffiArgs: seq<FfiArg>)
    requires OutIndicesBelow(parameters, |outPtrs|) && InArgsPassable(parameters, args)
    requires forall j :: 0 <= j < |outPtrs| ==> outPtrs[j] == j
    ensures ffiArgs == FfiArgsOf(obj, parameters, args)
  {
    ffiArgs := [Receiver(obj)];
    for i := 0 to |parameters|
      invariant InArgsPassable(parameters[..i], args)
      invariant ffiArgs == FfiArgsOf(obj, parameters[..i], args)
    {
      var p := parameters[i];
      assert parameters[..i + 1][..i] == parameters[..i];
      assert InArgsPassable(parameters[..i + 1], args);
      if p.isOut {
        ffiArgs := ffiArgs + [OutPointer(outPtrs[p.valueIndex])];
      } else {
        ffiArgs := ffiArgs + [InValue(args[p.valueIndex])];
      }
    }
    assert parameters[..|parameters|] == parameters;
  }

  /** The third pass: convert each out slot in declaration order, stopping at the first error. */
  method ConvertResults(parameters: seq<Parameter>, slots: seq<AbiValue>) returns (r: Result<seq<WinRTValue>, Error>)
    requires OutIndicesBelow(parameters, |slots|)
    ensures r == ConvertOuts(parameters, slots)
  {
    var resultValues: seq<WinRTValue> := [];
    for i := 0 to |parameters|
      invariant OutIndicesBelow(parameters[..i], |slots|)
      invariant ConvertOuts(parameters[..i], slots) == Ok(resultValues)
    {
      var p := parameters[i];
      assert parameters[..i + 1][..i] == parameters[..i];
      assert OutIndicesBelow(parameters[..i + 1], |slots|);
      if p.isOut {
        var outValue := FromOutValue(p.typ, slots[p.valueIndex]);
        if outValue.Err? {
          ConvertOutsErrPersists(parameters, slots, i + 1);
          return Err(outValue.error);
        }
        resultValues := resultValues + [outValue.value];
      }
    }
    assert parameters[..|parameters|] == parameters;
    r := Ok(resultValues);
  }

  /**
   * call_winrt_method_dynamic: three passes over the parameters (allocate
   * the out slots, assemble the arguments, convert the outputs) around one
   * raw call. The out slots live in a vector reserved for `outCount`
   * entries; more out-parameters than that would move it and leave the
   * earlier out pointers dangling, so the source relies on the bound.
   */
  method CallWinrtMethodDynamic(vtableIndex: nat, obj: Address, parameters: seq<Parameter>, args: seq<WinRTValue>,
                                outCount: nat, cif: Cif, mem: Memory, ffi: FfiCall)
    returns (r: Result<seq<WinRTValue>, Error>)
    requires obj in mem && mem[obj] + PointerSize * vtableIndex in mem
    requires CountOuts(parameters) <= outCount
    requires OutIndicesBelow(parameters, CountOuts(parameters)) && InArgsPassable(parameters, args)
    ensures r == DynamicCall(mem, vtableIndex, obj, parameters, args, cif, ffi)
  {
    var fptr := GetVtableFunctionPtr(mem, obj, vtableIndex);
    var outValues, outPtrs := AllocateOutSlots(parameters);
    var ffiArgs := AssembleArgs(obj, parameters, args, outPtrs);
    var (hr, written) := ffi(cif, fptr, ffiArgs, outValues);
    if Failed(hr) {
      return Err(WindowsError(hr));
    }
    r := ConvertResults(parameters, Settle(outValues, written));
  }

  /** Method::call_dynamic: a built method's slot, parameters and out count, forwarded. */
  method CallDynamic(m: Method, obj: Address, args: seq<WinRTValue>, mem: Memory, ffi: FfiCall)
    returns (r: Result<seq<WinRTValue>, Error>)
    requires MethodValid(m)
    requires obj in mem && mem[obj] + PointerSize * m.info.index in mem
    requires InArgsPassable(m.info.parameters, args)
    ensures OutIndicesBelow(m.info.parameters, CountOuts(m.info.parameters))
    ensures r == DynamicCall(mem, m.info.index, obj, m.info.parameters, args, m.cif, ffi)
  {
    WellNumberedIndices(m.info.parameters);
    r := CallWinrtMethodDynamic(m.info.index, obj, m.info.parameters, args, m.info.outCount, m.cif, mem, ffi);
  }
}
