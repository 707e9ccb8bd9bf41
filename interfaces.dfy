/**
 * The fixed vtable descriptions of src/interfaces.rs, built slot by slot
 * with the signature builder. Every table starts with the six IInspectable
 * slots; the default interface identifier is zero.
 */
module Interfaces {
  import opened Types
  import opened Signature

  /** An out-parameter of type `typ`, first of its group. */
  function Out(typ: WinRTType): Parameter
  {
    Parameter(typ, 0, true)
  }

  /** An in-parameter of type `typ`, first of its group. */
  function In(typ: WinRTType): Parameter
  {
    Parameter(typ, 0, false)
  }

  function Params(t: InterfaceSignature, i: nat): seq<Parameter>
    reads t
    requires i < |t.methods|
  {
    t.methods[i].info.parameters
  }

  /** add_method(MethodSignature::new()). */
  method AddPlain(t: InterfaceSignature)
    requires t.Valid()
    modifies t
    ensures t.Valid() && t.name == old(t.name) && t.iid == old(t.iid)
    ensures t.methods == old(t.methods) + [MethodAt(|old(t.methods)|, [])]
  {
    var s := new MethodSignature();
    t.AddMethod(s);
  }

  /** add_method(MethodSignature::new().add_out(typ)). */
  method AddGetter(t: InterfaceSignature, typ: WinRTType)
    requires t.Valid()
    modifies t
    ensures t.Valid() && t.name == old(t.name) && t.iid == old(t.iid)
    ensures t.methods == old(t.methods) + [MethodAt(|old(t.methods)|, [Out(typ)])]
  {
    var s := new MethodSignature();
    s.AddOut(typ);
    t.AddMethod(s);
  }

  /** add_method(MethodSignature::new().add(typ)). */
  method AddSetter(t: InterfaceSignature, typ: WinRTType)
    requires t.Valid()
    modifies t
    ensures t.Valid() && t.name == old(t.name) && t.iid == old(t.iid)
    ensures t.methods == old(t.methods) + [MethodAt(|old(t.methods)|, [In(typ)])]
  {
    var s := new MethodSignature();
    s.Add(typ);
    t.AddMethod(s);
  }

  /** add_method(MethodSignature::new().add(input).add_out(output)). */
  method AddInOut(t: InterfaceSignature, input: WinRTType, output: WinRTType)
    requires t.Valid()
    modifies t
    ensures t.Valid() && t.name == old(t.name) && t.iid == old(t.iid)
    ensures t.methods == old(t.methods) + [MethodAt(|old(t.methods)|, [In(input), Out(output)])]
  {
    var s := new MethodSignature();
    s.Add(input);
    assert s.parameters == [In(input)] && s.outCount == 0;
    s.AddOut(output);
    assert s.parameters == [In(input), Out(output)];
    t.AddMethod(s);
  }

  /** The six IInspectable slots every table starts with; slot 4 returns the class name. */
  function InspectableSlots(): seq<Method>
  {
    [MethodAt(0, []), MethodAt(1, []), MethodAt(2, []), MethodAt(3, []), MethodAt(4, [Out(WinRTType.HString)]), MethodAt(5, [])]
  }

  /** A fresh interface holding the six IInspectable slots. */
  method NewInspectable(name: string) returns (t: InterfaceSignature)
    ensures fresh(t) && t.Valid() && t.name == name && t.iid == 0
    ensures t.methods == InspectableSlots()
  {
    t := new InterfaceSignature.DefineInterface(name, 0);
    AddPlain(t);
    AddPlain(t);
    AddPlain(t);
    AddPlain(t);
    AddGetter(t, WinRTType.HString);
    AddPlain(t);
  }

  /** The Uri activation factory: slot 6 (CreateUri) takes a string and returns an object. */
  method UriFactory() returns (t: InterfaceSignature)
    ensures fresh(t) && t.Valid() && |t.methods| == 7
    ensures t.methods[..6] == InspectableSlots()
    ensures Params(t, 6) == [In(WinRTType.HString), Out(WinRTType.Object)]
  {
    t := NewInspectable("");
    AddInOut(t, WinRTType.HString, WinRTType.Object);
  }

  /** IUriRuntimeClass: thirteen string getters, one I32 getter, the rest without parameters. */
  method UriVtable() returns (t: InterfaceSignature)
    ensures fresh(t) && t.Valid() && |t.methods| == 21
    ensures t.methods[..6] == InspectableSlots()
    ensures forall i :: 6 <= i < 19 && i != 15 ==> Params(t, i) == [Out(WinRTType.HString)]
    ensures Params(t, 15) == [] && Params(t, 19) == [Out(WinRTType.I32)] && Params(t, 20) == []
  {
    t := NewInspectable("Windows.Foundation.IUriRuntimeClass");
    UriSlots6To10(t);
    ghost var first := t.methods;
    assert forall i :: 6 <= i < 11 ==> first[i].info.parameters == [Out(WinRTType.HString)];
    UriSlots11To15(t);
    ghost var second := t.methods;
    assert forall i :: 11 <= i < 16 ==> second[i].info.parameters == (if i == 15 then [] else [Out(WinRTType.HString)]);
    assert second[..11] == first;
    UriSlots16To20(t);
    assert t.methods[..16] == second;
    forall i | 6 <= i < 19 && i != 15
      ensures Params(t, i) == [Out(WinRTType.HString)]
    {
      if i < 16 {
        assert t.methods[i] == t.methods[..16][i] == second[i];
        if i < 11 {
          assert second[i] == second[..11][i] == first[i];
        }
      }
    }
    assert t.methods[15] == t.methods[..16][15] == second[15];
    assert t.methods[..6] == second[..6] == first[..6];
  }

  /** Slots 6-10 of IUriRuntimeClass: AbsoluteUri, DisplayUri, Domain, Extension, Fragment. */
  method UriSlots6To10(t: InterfaceSignature)
    requires t.Valid() && |t.methods| == 6
    modifies t
    ensures t.Valid() && |t.methods| == 11 && t.methods[..6] == old(t.methods)
    ensures forall i :: 6 <= i < 11 ==> t.methods[i].info.parameters == [Out(WinRTType.HString)]
  {
    AddGetter(t, WinRTType.HString);
    AddGetter(t, WinRTType.HString);
    AddGetter(t, WinRTType.HString);
    AddGetter(t, WinRTType.HString);
    AddGetter(t, WinRTType.HString);
  }

  /** Slots 11-15 of IUriRuntimeClass: Host, Password, Path, Query, then QueryParsed without parameters. */
  method UriSlots11To15(t: InterfaceSignature)
    requires t.Valid() && |t.methods| == 11
    modifies t
    ensures t.Valid() && |t.methods| == 16 && t.methods[..11] == old(t.methods)
    ensures forall i :: 11 <= i < 15 ==> t.methods[i].info.parameters == [Out(WinRTType.HString)]
    ensures Params(t, 15) == []
  {
    AddGetter(t, WinRTType.HString);
    AddGetter(t, WinRTType.HString);
    AddGetter(t, WinRTType.HString);
    AddGetter(t, WinRTType.HString);
    AddPlain(t);
  }

  /** Slots 16-20 of IUriRuntimeClass: RawUri, SchemeName, UserName, Port (an I32), Suspicious. */
  method UriSlots16To20(t: InterfaceSignature)
    requires t.Valid() && |t.methods| == 16
    modifies t
    ensures t.Valid() && |t.methods| == 21 && t.methods[..16] == old(t.methods)
    ensures forall i :: 16 <= i < 19 ==> t.methods[i].info.parameters == [Out(WinRTType.HString)]
    ensures Params(t, 19) == [Out(WinRTType.I32)] && Params(t, 20) == []
  {
    AddGetter(t, WinRTType.HString);
    AddGetter(t, WinRTType.HString);
    AddGetter(t, WinRTType.HString);
    AddGetter(t, WinRTType.I32);
    AddPlain(t);
  }

  /** IAsyncOperationWithProgress: GetResults at slot 10 returns a string. */
  method IAsyncOperationWithProgress() returns (t: InterfaceSignature)
    ensures fresh(t) && t.Valid() && |t.methods| == 11
    ensures t.methods[..6] == InspectableSlots()
    ensures forall i :: 6 <= i < 10 ==> Params(t, i) == []
    ensures Params(t, 10) == [Out(WinRTType.HString)]
  {
    t := NewInspectable("Windows.Foundation.IAsyncOperationWithProgress");
    AddPlain(t);
    AddPlain(t);
    AddPlain(t);
    AddPlain(t);
    AddGetter(t, WinRTType.HString);
  }

  /** IAsyncOperation: GetResults at slot 8 returns an object. */
  method IAsyncOperation() returns (t: InterfaceSignature)
    ensures fresh(t) && t.Valid() && |t.methods| == 9
    ensures t.methods[..6] == InspectableSlots()
    ensures Params(t, 6) == [] && Params(t, 7) == []
    ensures Params(t, 8) == [Out(WinRTType.Object)]
  {
    t := NewInspectable("Windows.Foundation.IAsyncOperation");
    AddPlain(t);
    AddPlain(t);
    AddGetter(t, WinRTType.Object);
  }

  /** IFileOpenPickerFactory: slot 6 (CreateWithMode) takes an I64 and returns an object. */
  method FileOpenPickerFactory() returns (t: InterfaceSignature)
    ensures fresh(t) && t.Valid() && |t.methods| == 7
    ensures t.methods[..6] == InspectableSlots()
    ensures Params(t, 6) == [In(WinRTType.I64), Out(WinRTType.Object)]
  {
    t := NewInspectable("Windows.Storage.Pickers.IFileOpenPickerFactory");
    AddInOut(t, WinRTType.I64, WinRTType.Object);
  }

  /** PickFileResult: slot 6 returns a string. */
  method PickFileResult() returns (t: InterfaceSignature)
    ensures fresh(t) && t.Valid() && |t.methods| == 7
    ensures t.methods[..6] == InspectableSlots()
    ensures Params(t, 6) == [Out(WinRTType.HString)]
  {
    t := NewInspectable("Windows.Storage.Pickers.PickFileResult");
    AddGetter(t, WinRTType.HString);
  }

  /** IFileOpenPicker: three setters (slots 6, 8, 10), each followed by its getter, then two object getters. */
  method FileOpenPicker() returns (t: InterfaceSignature)
    ensures fresh(t) && t.Valid() && |t.methods| == 14
    ensures t.methods[..6] == InspectableSlots()
    ensures Params(t, 6) == [In(WinRTType.I32)] && Params(t, 7) == [Out(WinRTType.I32)]
    ensures Params(t, 8) == [In(WinRTType.Object)] && Params(t, 9) == [Out(WinRTType.Object)]
    ensures Params(t, 10) == [In(WinRTType.HString)] && Params(t, 11) == [Out(WinRTType.HString)]
    ensures Params(t, 12) == [Out(WinRTType.Object)] && Params(t, 13) == [Out(WinRTType.Object)]
  {
    t := NewInspectable("Windows.Storage.Pickers.IFileOpenPicker");
    AddSetter(t, WinRTType.I32);
    AddGetter(t, WinRTType.I32);
    AddSetter(t, WinRTType.Object);
    AddGetter(t, WinRTType.Object);
    AddSetter(t, WinRTType.HString);
    AddGetter(t, WinRTType.HString);
    AddGetter(t, WinRTType.Object);
    AddGetter(t, WinRTType.Object);
  }
}
