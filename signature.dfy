/**
 * Method and interface signatures (src/signature.rs): a builder that numbers
 * in-parameters and out-parameters in two independent zero-based groups,
 * freezes them into an FFI call description, and an interface that numbers
 * its methods by vtable slot.
 */
module Signature {
  import opened Abi
  import opened Types

  datatype Parameter = Parameter(typ: WinRTType, valueIndex: nat, isOut: bool)

  /** The number of out-parameters. */
  function CountOuts(ps: seq<Parameter>): (n: nat)
    ensures n <= |ps|
  {
    if ps == [] then 0
    else CountOuts(ps[..|ps| - 1]) + (if ps[|ps| - 1].isOut then 1 else 0)
  }

  /** The index the builder gives the next parameter after `ps`: its group's count so far. */
  function NextIndex(ps: seq<Parameter>, isOut: bool): nat
  {
    if isOut then CountOuts(ps) else |ps| - CountOuts(ps)
  }

  /**
   * The list the builder produces: each parameter, in turn, numbered by the
   * parameters of its own group before it (WellNumberedIff states this
   * index by index).
   */
  predicate WellNumbered(ps: seq<Parameter>)
  {
    ps == [] || (WellNumbered(ps[..|ps| - 1]) && ps[|ps| - 1].valueIndex == NextIndex(ps[..|ps| - 1], ps[|ps| - 1].isOut))
  }

  lemma CountOutsSnoc(ps: seq<Parameter>, p: Parameter)
    ensures CountOuts(ps + [p]) == CountOuts(ps) + (if p.isOut then 1 else 0)
  {
    assert (ps + [p])[..|ps|] == ps;
  }

  /** Counting over a prefix: each out-parameter adds exactly one. */
  lemma {:induction false} CountOutsStep(ps: seq<Parameter>, k: nat)
    requires k < |ps|
    ensures CountOuts(ps[..k + 1]) == CountOuts(ps[..k]) + (if ps[k].isOut then 1 else 0)
  {
    assert ps[..k + 1] == ps[..k] + [ps[k]];
    CountOutsSnoc(ps[..k], ps[k]);
  }

  lemma {:induction false} CountOutsMonotonic(ps: seq<Parameter>, i: nat, j: nat)
    requires i <= j <= |ps|
    ensures CountOuts(ps[..i]) <= CountOuts(ps[..j])
    ensures j - CountOuts(ps[..j]) >= i - CountOuts(ps[..i])
    decreases j - i
  {
    if i < j {
      CountOutsStep(ps, i);
      CountOutsMonotonic(ps, i + 1, j);
    }
  }

  /** Appending a parameter numbered by its group's count keeps the list well numbered. */
  lemma WellNumberedSnoc(ps: seq<Parameter>, p: Parameter)
    requires WellNumbered(ps) && p.valueIndex == NextIndex(ps, p.isOut)
    ensures WellNumbered(ps + [p])
    ensures CountOuts(ps + [p]) == CountOuts(ps) + (if p.isOut then 1 else 0)
  {
    CountOutsSnoc(ps, p);
    assert (ps + [p])[..|ps|] == ps;
  }

  /** In a well-numbered list, parameter k's index is the count of its group among the first k. */
  lemma {:induction false} WellNumberedAt(ps: seq<Parameter>, k: nat)
    requires WellNumbered(ps) && k < |ps|
    ensures ps[k].valueIndex == NextIndex(ps[..k], ps[k].isOut)
    decreases |ps|
  {
    var init := ps[..|ps| - 1];
    if k < |init| {
      WellNumberedAt(init, k);
      assert init[..k] == ps[..k];
    }
  }

  /** The recursive definition agrees with the index-by-index statement, both ways. */
  lemma {:induction false} WellNumberedIff(ps: seq<Parameter>)
    ensures WellNumbered(ps) <==> forall k :: 0 <= k < |ps| ==> ps[k].valueIndex == NextIndex(ps[..k], ps[k].isOut)
    decreases |ps|
  {
    if WellNumbered(ps) {
      forall k | 0 <= k < |ps|
        ensures ps[k].valueIndex == NextIndex(ps[..k], ps[k].isOut)
      {
        WellNumberedAt(ps, k);
      }
    }
    if ps != [] && forall k :: 0 <= k < |ps| ==> ps[k].valueIndex == NextIndex(ps[..k], ps[k].isOut) {
      var init := ps[..|ps| - 1];
      forall k | 0 <= k < |init|
        ensures init[k].valueIndex == NextIndex(init[..k], init[k].isOut)
      {
        assert init[k] == ps[k] && init[..k] == ps[..k];
      }
      WellNumberedIff(init);
    }
  }

  lemma {:induction false} WellNumberedPrefix(ps: seq<Parameter>, n: nat)
    requires WellNumbered(ps) && n <= |ps|
    ensures WellNumbered(ps[..n])
    decreases |ps|
  {
    if n < |ps| {
      var init := ps[..|ps| - 1];
      WellNumberedPrefix(init, n);
      assert init[..n] == ps[..n];
    } else {
      assert ps[..n] == ps;
    }
  }

  /**
   * In a well-numbered list the out-parameters are numbered 0, 1, ... in
   * declaration order and so are the in-parameters, each group on its own.
   */
  lemma WellNumberedIndices(ps: seq<Parameter>)
    requires WellNumbered(ps)
    ensures forall k :: 0 <= k < |ps| && ps[k].isOut ==> ps[k].valueIndex < CountOuts(ps)
    ensures forall k :: 0 <= k < |ps| && !ps[k].isOut ==> ps[k].valueIndex < |ps| - CountOuts(ps)
    ensures forall i, j :: 0 <= i < j < |ps| && ps[i].isOut && ps[j].isOut ==> ps[i].valueIndex < ps[j].valueIndex
    ensures forall i, j :: 0 <= i < j < |ps| && !ps[i].isOut && !ps[j].isOut ==> ps[i].valueIndex < ps[j].valueIndex
  {
    forall k | 0 <= k < |ps|
      ensures ps[k].isOut ==> ps[k].valueIndex < CountOuts(ps)
      ensures !ps[k].isOut ==> ps[k].valueIndex < |ps| - CountOuts(ps)
    {
      WellNumberedAt(ps, k);
      CountOutsStep(ps, k);
      CountOutsMonotonic(ps, k + 1, |ps|);
      assert ps[..|ps|] == ps;
    }
    forall i, j | 0 <= i < j < |ps|
      ensures ps[i].isOut && ps[j].isOut ==> ps[i].valueIndex < ps[j].valueIndex
      ensures !ps[i].isOut && !ps[j].isOut ==> ps[i].valueIndex < ps[j].valueIndex
    {
      WellNumberedAt(ps, i);
      WellNumberedAt(ps, j);
      CountOutsStep(ps, i);
      CountOutsMonotonic(ps, i + 1, j);
    }
  }

  /** The libffi call description: argument types and return type. */
  datatype Cif = Cif(argTypes: seq<FfiType>, returnType: FfiType)

  datatype MethodInfo = MethodInfo(index: nat, parameters: seq<Parameter>, outCount: nat)

  datatype Method = Method(info: MethodInfo, cif: Cif)

  /** The FFI types of the parameters: a pointer for an out-parameter, the ABI type otherwise. */
  function ParamTypes(ps: seq<Parameter>): (ts: seq<FfiType>)
    ensures |ts| == |ps|
  {
    if ps == [] then []
    else
      var p := ps[|ps| - 1];
      ParamTypes(ps[..|ps| - 1]) + [if p.isOut then FfiPointer else p.typ.AbiTypeOf().LibffiType()]
  }

  /** The call description build produces: the receiver pointer, then one type per parameter; returns an i32. */
  function CifFor(ps: seq<Parameter>): Cif
  {
    Cif([FfiPointer] + ParamTypes(ps), FfiI32)
  }

  /**
   * The list has one entry more than the parameters; entry 0 is the
   * receiver's pointer, an out-parameter's entry is a pointer, an
   * in-parameter's entry is its ABI type; the return type is an HRESULT.
   */
  lemma {:induction false} CifForShape(ps: seq<Parameter>)
    ensures var c := CifFor(ps);
      && |c.argTypes| == |ps| + 1
      && c.argTypes[0] == FfiPointer
      && (forall k :: 0 <= k < |ps| && ps[k].isOut ==> c.argTypes[k + 1] == FfiPointer)
      && (forall k :: 0 <= k < |ps| && !ps[k].isOut ==> c.argTypes[k + 1] == ps[k].typ.AbiTypeOf().LibffiType())
      && c.returnType == FfiI32
  {
    ParamTypesAt(ps);
  }

  lemma {:induction false} ParamTypesAt(ps: seq<Parameter>)
    ensures forall k :: 0 <= k < |ps| ==>
      ParamTypes(ps)[k] == if ps[k].isOut then FfiPointer else ps[k].typ.AbiTypeOf().LibffiType()
  {
    if ps != [] {
      var init := ps[..|ps| - 1];
      ParamTypesAt(init);
      assert forall k :: 0 <= k < |init| ==> init[k] == ps[k];
    }
  }

  /** The method build gives slot `index` for a parameter list. */
  function MethodAt(index: nat, ps: seq<Parameter>): Method
  {
    Method(MethodInfo(index, ps, CountOuts(ps)), CifFor(ps))
  }

  /** What a built method satisfies. */
  predicate MethodValid(m: Method)
  {
    && WellNumbered(m.info.parameters)
    && m.info.outCount == CountOuts(m.info.parameters)
    && m.cif == CifFor(m.info.parameters)
  }

  /** The parameter-list builder. The return type is always HRESULT: nothing changes it. */
  class MethodSignature {
    var outCount: nat
    var parameters: seq<Parameter>
    var returnType: WinRTType
    var isOpaque: bool

    ghost predicate Valid()
      reads this
    {
      outCount == CountOuts(parameters) && WellNumbered(parameters) && returnType == WinRTType.HResult
    }

    /** MethodSignature::new. */
    constructor ()
      ensures Valid()
      ensures parameters == [] && outCount == 0 && returnType == WinRTType.HResult && !isOpaque
    {
      outCount := 0;
      parameters := [];
      returnType := WinRTType.HResult;
      isOpaque := false;
    }

    /** add: append an in-parameter numbered by the in-parameters already present. */
    method Add(typ: WinRTType)
      requires Valid()
      modifies this
      ensures Valid()
      ensures parameters == old(parameters) + [Parameter(typ, |old(parameters)| - old(outCount), false)]
      ensures outCount == old(outCount) && returnType == old(returnType) && isOpaque == old(isOpaque)
    {
      var p := Parameter(typ, |parameters| - outCount, false);
      WellNumberedSnoc(parameters, p);
      parameters := parameters + [p];
    }

    /** add_out: append an out-parameter numbered by the previous out count, then count it. */
    method AddOut(typ: WinRTType)
      requires Valid()
      modifies this
      ensures Valid()
      ensures parameters == old(parameters) + [Parameter(typ, old(outCount), true)]
      ensures outCount == old(outCount) + 1 && returnType == old(returnType) && isOpaque == old(isOpaque)
    {
      var p := Parameter(typ, outCount, true);
      WellNumberedSnoc(parameters, p);
      parameters := parameters + [p];
      outCount := outCount + 1;
    }

    /** build: freeze the parameters into a method for vtable slot `index`. */
    method Build(index: nat) returns (m: Method)
      requires Valid()
      ensures m.info == MethodInfo(index, parameters, outCount)
      ensures m.cif == CifFor(parameters)
      ensures MethodValid(m)
    {
      var types := [FfiPointer];
      for i := 0 to |parameters|
        invariant types == [FfiPointer] + ParamTypes(parameters[..i])
      {
        var p := parameters[i];
        assert parameters[..i + 1][..i] == parameters[..i];
        types := types + [if p.isOut then FfiPointer else p.typ.AbiTypeOf().LibffiType()];
      }
      assert parameters[..|parameters|] == parameters;
      var cif := Cif(types, returnType.AbiTypeOf().LibffiType());
      m := Method(MethodInfo(index, parameters, outCount), cif);
    }
  }

  /** A named interface whose methods are numbered by vtable slot. */
  class InterfaceSignature {
    var name: string
    var iid: Guid
    var methods: seq<Method>

    ghost predicate Valid()
      reads this
    {
      forall i :: 0 <= i < |methods| ==> methods[i].info.index == i && MethodValid(methods[i])
    }

    /** define_interface: no methods yet. */
    constructor DefineInterface(name: string, iid: Guid)
      ensures Valid() && this.name == name && this.iid == iid && methods == []
    {
      this.name := name;
      this.iid := iid;
      methods := [];
    }

    /** add_method: the new method's slot is the number of methods before it. */
    method AddMethod(signature: MethodSignature)
      requires Valid() && signature.Valid()
      modifies this
      ensures Valid()
      ensures methods == old(methods) + [MethodAt(|old(methods)|, signature.parameters)]
      ensures name == old(name) && iid == old(iid)
    {
      var method_ := signature.Build(|methods|);
      methods := methods + [method_];
    }

    /** define_from_iunknown: QueryInterface, AddRef and Release, none with parameters. */
    static method DefineFromIUnknown(name: string, iid: Guid) returns (t: InterfaceSignature)
      ensures fresh(t) && t.Valid() && t.name == name && t.iid == iid
      ensures |t.methods| == 3
      ensures forall i :: 0 <= i < 3 ==> t.methods[i].info.parameters == []
    {
      t := new InterfaceSignature.DefineInterface(name, iid);
      var s0 := new MethodSignature();
      t.AddMethod(s0);
      var s1 := new MethodSignature();
      t.AddMethod(s1);
      var s2 := new MethodSignature();
      t.AddMethod(s2);
      assert t.methods == [MethodAt(0, []), MethodAt(1, []), MethodAt(2, [])];
    }

    /**
     * define_from_iinspectable: the IUnknown slots, then GetIids,
     * GetRuntimeClassName (one out HString) and GetTrustLevel.
     */
    static method DefineFromIInspectable(name: string, iid: Guid) returns (t: InterfaceSignature)
      ensures fresh(t) && t.Valid() && t.name == name && t.iid == iid
      ensures |t.methods| == 6
      ensures forall i :: 0 <= i < 6 && i != 4 ==> t.methods[i].info.parameters == []
      ensures t.methods[4].info.parameters == [Parameter(WinRTType.HString, 0, true)]
    {
      t := DefineFromIUnknown(name, iid);
      ghost var base := t.methods;
      var s3 := new MethodSignature();
      t.AddMethod(s3);
      assert t.methods == base + [MethodAt(3, [])];
      var s4 := new MethodSignature();
      s4.AddOut(WinRTType.HString);
      assert s4.parameters == [Parameter(WinRTType.HString, 0, true)];
      t.AddMethod(s4);
      assert t.methods[4].info.parameters == [Parameter(WinRTType.HString, 0, true)];
      ghost var five := t.methods;
      var s5 := new MethodSignature();
      t.AddMethod(s5);
      assert t.methods[..5] == five && five[..3] == base;
      forall i | 0 <= i < 6 && i != 4
        ensures t.methods[i].info.parameters == []
      {
        if i < 3 {
          assert t.methods[i] == five[i] == base[i];
        } else if i == 3 {
          assert t.methods[i] == five[i];
        }
      }
    }
  }
}
