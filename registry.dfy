/**
 * The value-type layout registry (src/registry.rs): primitive field types,
 * an append-only table of struct types whose field offsets, size and
 * alignment follow C natural-alignment rules, handles into that table, and
 * zero-initialised byte buffers laid out by a handle.
 */
module Registry {
  import opened Abi

  /** Every size and alignment the registry produces is one of these. */
  predicate IsAlignment(a: nat)
  {
    a == 1 || a == 2 || a == 4 || a == 8
  }

  datatype PrimitiveType = Bool | U8 | I16 | U16 | I32 | U32 | I64 | U64 | F32 | F64 {

    function SizeOf(): (n: nat)
      ensures IsAlignment(n)
    {
      match this
      case Bool | U8 => 1
      case I16 | U16 => 2
      case I32 | U32 | F32 => 4
      case I64 | U64 | F64 => 8
    }

    function AlignOf(): nat
    {
      SizeOf()
    }

    /** The libffi descriptor; libffi lays it out exactly as the registry does. */
    function LibffiType(): (t: FfiType)
      ensures FfiShape(t) == FieldShape(SizeOf(), AlignOf())
      ensures !t.FfiStruct?
    {
      match this
      case Bool => FfiU8
      case U8 => FfiU8
      case I16 => FfiI16
      case U16 => FfiU16
      case I32 => FfiI32
      case U32 => FfiU32
      case I64 => FfiI64
      case U64 => FfiU64
      case F32 => FfiF32
      case F64 => FfiF64
    }
  }

  lemma PrimitiveSizes(p: PrimitiveType)
    ensures p.AlignOf() == p.SizeOf()
    ensures p.SizeOf() == 1 <==> p == Bool || p == U8
    ensures p.SizeOf() == 2 <==> p == I16 || p == U16
    ensures p.SizeOf() == 4 <==> p == PrimitiveType.I32 || p == U32 || p == F32
    ensures p.SizeOf() == 8 <==> p == PrimitiveType.I64 || p == U64 || p == F64
  {
  }

  // ---------------------------------------------------------------------------
  // Natural-alignment layout of a field list
  // ---------------------------------------------------------------------------

  /** What the layout rules need to know about one field. */
  datatype FieldShape = FieldShape(size: nat, align: nat)

  predicate ShapesAligned(fs: seq<FieldShape>)
  {
    forall i :: 0 <= i < |fs| ==> IsAlignment(fs[i].align)
  }

  /**
   * Round `x` up to a multiple of the alignment `a`. The source writes
   * `(x + a - 1) & !(a - 1)`; MaskIsRoundDown2/4/8 show the two agree.
   */
  function AlignUp(x: nat, a: nat): (r: nat)
    requires IsAlignment(a)
    ensures r % a == 0
    ensures x <= r < x + a
  {
    AlignUpBounds(x, a);
    (x + a - 1) / a * a
  }

  lemma AlignUpBounds(x: nat, a: nat)
    requires IsAlignment(a)
    ensures ((x + a - 1) / a * a) % a == 0
    ensures x <= (x + a - 1) / a * a < x + a
  {
    if a == 2 {
      RoundUp2(x);
    } else if a == 4 {
      RoundUp4(x);
    } else if a == 8 {
      RoundUp8(x);
    }
  }

  lemma RoundUp2(x: nat)
    ensures var r := (x + 1) / 2 * 2; r % 2 == 0 && x <= r < x + 2
  {
  }

  lemma RoundUp4(x: nat)
    ensures var r := (x + 3) / 4 * 4; r % 4 == 0 && x <= r < x + 4
  {
  }

  lemma RoundUp8(x: nat)
    ensures var r := (x + 7) / 8 * 8; r % 8 == 0 && x <= r < x + 8
  {
  }

  /** AlignUp gives the least multiple of `a` that is at least `x`. */
  lemma AlignUpIsLeast(x: nat, a: nat, m: nat)
    requires IsAlignment(a) && m % a == 0 && x <= m
    ensures AlignUp(x, a) <= m
  {
    MultiplesApart(AlignUp(x, a), m, a);
  }

  /** Two multiples of an alignment less than `a` apart in one direction are ordered. */
  lemma MultiplesApart(r: nat, m: nat, a: nat)
    requires IsAlignment(a) && r % a == 0 && m % a == 0 && r < m + a
    ensures r <= m
  {
    if a == 2 {
      Apart2(r, m);
    } else if a == 4 {
      Apart4(r, m);
    } else if a == 8 {
      Apart8(r, m);
    }
  }

  lemma Apart2(r: nat, m: nat)
    requires r % 2 == 0 && m % 2 == 0 && r < m + 2
    ensures r <= m
  {
  }

  lemma Apart4(r: nat, m: nat)
    requires r % 4 == 0 && m % 4 == 0 && r < m + 4
    ensures r <= m
  {
  }

  lemma Apart8(r: nat, m: nat)
    requires r % 8 == 0 && m % 8 == 0 && r < m + 8
    ensures r <= m
  {
  }

  /**
   * On 64-bit words, the source's mask `y & !(a - 1)` rounds `y` down to a
   * multiple of `a` exactly as `y / a * a` does, for the alignments 2, 4
   * and 8 (for 1 the mask is the identity); with `y = x + a - 1` this is
   * AlignUp's formula.
   */
  lemma MaskIsRoundDown2(y: bv64)
    ensures y & !1 == (y / 2) * 2
  {
  }

  lemma MaskIsRoundDown4(y: bv64)
    ensures y & !3 == (y / 4) * 4
  {
  }

  lemma MaskIsRoundDown8(y: bv64)
    ensures y & !7 == (y / 8) * 8
  {
  }

  /** Field offsets and the cursor after the last field. */
  datatype Placed = Placed(offsets: seq<nat>, end: nat)

  /** The loop of compute_layout: round the cursor up to each field's alignment, place it, advance by its size. */
  function Placement(fs: seq<FieldShape>): (p: Placed)
    requires ShapesAligned(fs)
    ensures |p.offsets| == |fs|
  {
    if fs == [] then Placed([], 0)
    else
      var prev := Placement(fs[..|fs| - 1]);
      var last := fs[|fs| - 1];
      var at := AlignUp(prev.end, last.align);
      Placed(prev.offsets + [at], at + last.size)
  }

  lemma {:induction false} PlacementSound(fs: seq<FieldShape>)
    requires ShapesAligned(fs)
    ensures var p := Placement(fs);
      && (forall i :: 0 <= i < |fs| ==> p.offsets[i] % fs[i].align == 0)
      && (forall i :: 0 <= i < |fs| ==> p.offsets[i] + fs[i].size <= p.end)
      && (forall i, j :: 0 <= i < j < |fs| ==> p.offsets[i] + fs[i].size <= p.offsets[j])
      && (fs == [] ==> p.end == 0)
      && (fs != [] ==> p.end == p.offsets[|fs| - 1] + fs[|fs| - 1].size)
  {
    if fs != [] {
      var init := fs[..|fs| - 1];
      PlacementSound(init);
      var prev := Placement(init);
      var p := Placement(fs);
      assert p.offsets == prev.offsets + [AlignUp(prev.end, fs[|fs| - 1].align)];
      forall i | 0 <= i < |fs| - 1
        ensures p.offsets[i] == prev.offsets[i] && fs[i] == init[i]
      {
      }
    }
  }

  /** The struct alignment: the largest field alignment, 1 for no fields. */
  function MaxAlign(fs: seq<FieldShape>): (a: nat)
    requires ShapesAligned(fs)
    ensures IsAlignment(a)
    ensures forall i :: 0 <= i < |fs| ==> fs[i].align <= a
    ensures fs == [] ==> a == 1
    ensures fs != [] ==> exists i :: 0 <= i < |fs| && a == fs[i].align
  {
    if fs == [] then 1
    else
      var init := fs[..|fs| - 1];
      var prev := MaxAlign(init);
      var last := fs[|fs| - 1].align;
      assert forall i :: 0 <= i < |init| ==> init[i] == fs[i];
      if prev < last then last
      else
        assert init == [] ==> prev == last;
        prev
  }

  datatype StructLayout = StructLayout(offsets: seq<nat>, size: nat, align: nat)

  /** What compute_layout returns for a field list. */
  function LayoutOf(fs: seq<FieldShape>): (l: StructLayout)
    requires ShapesAligned(fs)
    ensures |l.offsets| == |fs|
    ensures IsAlignment(l.align)
    ensures l.size % l.align == 0
  {
    var p := Placement(fs);
    var a := MaxAlign(fs);
    StructLayout(p.offsets, AlignUp(p.end, a), a)
  }

  /**
   * The C natural-alignment rules: each offset is a multiple of its field's
   * alignment, fields never overlap and all lie inside the struct, the
   * struct alignment is the largest field alignment (1 for no fields), and
   * the size is a multiple of it no more than one alignment past the end of
   * the last field (LayoutSizeIsLeast: the least such multiple).
   */
  lemma LayoutSound(fs: seq<FieldShape>)
    requires ShapesAligned(fs)
    ensures var l := LayoutOf(fs);
      && (forall i :: 0 <= i < |fs| ==> l.offsets[i] % fs[i].align == 0)
      && (forall i, j :: 0 <= i < j < |fs| ==> l.offsets[i] + fs[i].size <= l.offsets[j])
      && (forall i :: 0 <= i < |fs| ==> l.offsets[i] + fs[i].size <= l.size)
      && (forall i :: 0 <= i < |fs| ==> fs[i].align <= l.align)
      && (fs == [] ==> l.align == 1 && l.size == 0)
      && (fs != [] ==> exists i :: 0 <= i < |fs| && l.align == fs[i].align)
      && (fs != [] ==> l.offsets[|fs| - 1] + fs[|fs| - 1].size <= l.size < l.offsets[|fs| - 1] + fs[|fs| - 1].size + l.align)
  {
    PlacementSound(fs);
  }

  lemma LayoutSizeIsLeast(fs: seq<FieldShape>, m: nat)
    requires ShapesAligned(fs)
    requires m % LayoutOf(fs).align == 0
    requires forall i :: 0 <= i < |fs| ==> LayoutOf(fs).offsets[i] + fs[i].size <= m
    ensures LayoutOf(fs).size <= m
  {
    PlacementSound(fs);
    var p := Placement(fs);
    AlignUpIsLeast(p.end, MaxAlign(fs), m);
  }

  // ---------------------------------------------------------------------------
  // The registry
  // ---------------------------------------------------------------------------

  datatype TypeKind = Primitive(prim: PrimitiveType) | Struct(id: nat)

  /** Rust's `std::alloc::Layout`. */
  datatype Layout = Layout(size: nat, align: nat)

  datatype StructEntry = StructEntry(fieldKinds: seq<TypeKind>, fieldOffsets: seq<nat>, layout: Layout)

  /** A kind names a primitive or an entry that exists. */
  predicate KindIn(structs: seq<StructEntry>, k: TypeKind)
  {
    k.Struct? ==> k.id < |structs|
  }

  predicate KindsBelow(ks: seq<TypeKind>, bound: nat)
  {
    forall i :: 0 <= i < |ks| ==> (ks[i].Struct? ==> ks[i].id < bound)
  }

  function ShapeOf(structs: seq<StructEntry>, k: TypeKind): FieldShape
    requires KindIn(structs, k)
  {
    match k
    case Primitive(p) => FieldShape(p.SizeOf(), p.AlignOf())
    case Struct(id) => FieldShape(structs[id].layout.size, structs[id].layout.align)
  }

  function ShapesOf(structs: seq<StructEntry>, ks: seq<TypeKind>): seq<FieldShape>
    requires forall i :: 0 <= i < |ks| ==> KindIn(structs, ks[i])
  {
    seq(|ks|, i requires 0 <= i < |ks| => ShapeOf(structs, ks[i]))
  }

  /** Entry `id` refers only to earlier entries and stores the layout of its fields. */
  predicate EntryValid(structs: seq<StructEntry>, id: nat)
    requires id < |structs|
  {
    var e := structs[id];
    && KindsBelow(e.fieldKinds, id)
    && var fs := ShapesOf(structs, e.fieldKinds);
    && ShapesAligned(fs)
    && LayoutOf(fs) == StructLayout(e.fieldOffsets, e.layout.size, e.layout.align)
  }

  predicate RegistryValid(structs: seq<StructEntry>)
  {
    forall id :: 0 <= id < |structs| ==> EntryValid(structs, id)
  }

  lemma EntryLayout(structs: seq<StructEntry>, id: nat)
    requires RegistryValid(structs) && id < |structs|
    ensures IsAlignment(structs[id].layout.align)
    ensures structs[id].layout.size % structs[id].layout.align == 0
    ensures |structs[id].fieldOffsets| == |structs[id].fieldKinds|
  {
    assert EntryValid(structs, id);
  }

  lemma ShapesOfAligned(structs: seq<StructEntry>, ks: seq<TypeKind>)
    requires RegistryValid(structs)
    requires forall i :: 0 <= i < |ks| ==> KindIn(structs, ks[i])
    ensures ShapesAligned(ShapesOf(structs, ks))
  {
    forall i | 0 <= i < |ks| && ks[i].Struct? {
      EntryLayout(structs, ks[i].id);
    }
  }

  /** The layout of a list of field kinds of a valid registry. */
  function LayoutOfKinds(structs: seq<StructEntry>, ks: seq<TypeKind>): StructLayout
    requires RegistryValid(structs)
    requires forall i :: 0 <= i < |ks| ==> KindIn(structs, ks[i])
  {
    ShapesOfAligned(structs, ks);
    LayoutOf(ShapesOf(structs, ks))
  }

  /** Appending a well-formed entry leaves every earlier entry valid: the table is append-only. */
  lemma AppendKeepsValid(structs: seq<StructEntry>, e: StructEntry)
    requires RegistryValid(structs)
    requires EntryValid(structs + [e], |structs|)
    ensures RegistryValid(structs + [e])
  {
    var s' := structs + [e];
    forall id | 0 <= id < |structs|
      ensures EntryValid(s', id)
    {
      assert EntryValid(structs, id);
      var ks := structs[id].fieldKinds;
      assert s'[id] == structs[id];
      assert ShapesOf(s', ks) == ShapesOf(structs, ks);
    }
  }

  /** Rank for the recursion of the libffi descriptor over nested structs. */
  function Rank(k: TypeKind): nat
  {
    match k
    case Primitive(_) => 0
    case Struct(id) => id + 1
  }

  /** libffi_type_kind: a primitive's descriptor, or a structure of the field descriptors. */
  function FfiTypeOf(structs: seq<StructEntry>, k: TypeKind): (t: FfiType)
    requires RegistryValid(structs) && KindIn(structs, k)
    ensures t.FfiStruct? <==> k.Struct?
    ensures k.Struct? ==> |t.fields| == |structs[k.id].fieldKinds|
    decreases Rank(k), 0
  {
    match k
    case Primitive(p) => p.LibffiType()
    case Struct(id) =>
      assert EntryValid(structs, id);
      FfiStruct(FfiTypesOf(structs, structs[id].fieldKinds, id))
  }

  function FfiTypesOf(structs: seq<StructEntry>, ks: seq<TypeKind>, bound: nat): (ts: seq<FfiType>)
    requires RegistryValid(structs) && bound <= |structs| && KindsBelow(ks, bound)
    ensures |ts| == |ks|
    decreases bound, 1, |ks|
  {
    if ks == [] then []
    else
      assert KindsBelow(ks[..|ks| - 1], bound);
      FfiTypesOf(structs, ks[..|ks| - 1], bound) + [FfiTypeOf(structs, ks[|ks| - 1])]
  }

  /** How libffi lays out a descriptor: natural alignment, recursively. */
  function FfiShape(t: FfiType): (s: FieldShape)
    ensures IsAlignment(s.align)
    decreases t, 1
  {
    match t
    case FfiU8 => FieldShape(1, 1)
    case FfiI16 | FfiU16 => FieldShape(2, 2)
    case FfiI32 | FfiU32 | FfiF32 => FieldShape(4, 4)
    case FfiI64 | FfiU64 | FfiF64 | FfiPointer => FieldShape(8, 8)
    case FfiStruct(fields) =>
      var l := LayoutOf(FfiShapes(fields));
      FieldShape(l.size, l.align)
  }

  function FfiShapes(ts: seq<FfiType>): (fs: seq<FieldShape>)
    ensures |fs| == |ts| && ShapesAligned(fs)
    decreases ts, 0
  {
    if ts == [] then []
    else FfiShapes(ts[..|ts| - 1]) + [FfiShape(ts[|ts| - 1])]
  }

  lemma {:induction false} FfiShapesAt(ts: seq<FfiType>, i: nat)
    requires i < |ts|
    ensures FfiShapes(ts)[i] == FfiShape(ts[i])
    decreases |ts|
  {
    if i < |ts| - 1 {
      FfiShapesAt(ts[..|ts| - 1], i);
    }
  }

  lemma {:induction false} FfiTypesOfAt(structs: seq<StructEntry>, ks: seq<TypeKind>, bound: nat, i: nat)
    requires RegistryValid(structs) && bound <= |structs| && KindsBelow(ks, bound)
    requires i < |ks|
    ensures FfiTypesOf(structs, ks, bound)[i] == FfiTypeOf(structs, ks[i])
    decreases |ks|
  {
    if i < |ks| - 1 {
      assert KindsBelow(ks[..|ks| - 1], bound);
      FfiTypesOfAt(structs, ks[..|ks| - 1], bound, i);
    }
  }

  /**
   * The descriptor handed to libffi for a registry type lays out exactly as
   * the registry's cached layout: the struct-by-value ABI matches.
   */
  lemma {:induction false} FfiLayoutAgrees(structs: seq<StructEntry>, k: TypeKind)
    requires RegistryValid(structs) && KindIn(structs, k)
    ensures FfiShape(FfiTypeOf(structs, k)) == ShapeOf(structs, k)
    decreases Rank(k), 0
  {
    if k.Primitive? {
      PrimitiveFfiShape(k.prim);
    } else {
      StructEntryUnfold(structs, k.id);
      FfiShapesAgree(structs, structs[k.id].fieldKinds, k.id);
    }
  }

  /** A struct kind's descriptor and cached shape, unfolded from its valid entry. */
  lemma StructEntryUnfold(structs: seq<StructEntry>, id: nat)
    requires RegistryValid(structs) && id < |structs|
    ensures KindsBelow(structs[id].fieldKinds, id)
    ensures FfiTypeOf(structs, Struct(id)) == FfiStruct(FfiTypesOf(structs, structs[id].fieldKinds, id))
    ensures var l := LayoutOfKinds(structs, structs[id].fieldKinds);
      ShapeOf(structs, Struct(id)) == FieldShape(l.size, l.align)
  {
    assert EntryValid(structs, id);
  }

  /** A primitive's libffi descriptor has the primitive's own size and alignment. */
  lemma PrimitiveFfiShape(p: PrimitiveType)
    ensures FfiShape(p.LibffiType()) == FieldShape(p.SizeOf(), p.AlignOf())
  {
  }

  lemma {:induction false} FfiShapesAgree(structs: seq<StructEntry>, ks: seq<TypeKind>, bound: nat)
    requires RegistryValid(structs) && bound <= |structs| && KindsBelow(ks, bound)
    ensures FfiShapes(FfiTypesOf(structs, ks, bound)) == ShapesOf(structs, ks)
    decreases bound, 1
  {
    var ts := FfiTypesOf(structs, ks, bound);
    forall i | 0 <= i < |ks|
      ensures FfiShapes(ts)[i] == ShapesOf(structs, ks)[i]
    {
      FfiShapesAt(ts, i);
      FfiTypesOfAt(structs, ks, bound, i);
      FfiLayoutAgrees(structs, ks[i]);
    }
  }

  /** A stored field offset lies within its struct's size. */
  lemma FieldOffsetInside(structs: seq<StructEntry>, id: nat, index: nat)
    requires RegistryValid(structs) && id < |structs| && index < |structs[id].fieldOffsets|
    ensures structs[id].fieldOffsets[index] <= structs[id].layout.size
  {
    assert EntryValid(structs, id);
    LayoutSound(ShapesOf(structs, structs[id].fieldKinds));
  }

  /** In a valid registry a field's offset is a multiple of its alignment and the field ends inside the struct. */
  lemma FieldPlaced(structs: seq<StructEntry>, id: nat, index: nat)
    requires RegistryValid(structs) && id < |structs| && index < |structs[id].fieldKinds|
    ensures index < |structs[id].fieldOffsets| && KindIn(structs, structs[id].fieldKinds[index])
    ensures var shape := ShapeOf(structs, structs[id].fieldKinds[index]);
      && IsAlignment(shape.align)
      && structs[id].fieldOffsets[index] % shape.align == 0
      && structs[id].fieldOffsets[index] + shape.size <= structs[id].layout.size
  {
    assert EntryValid(structs, id);
    var fs := ShapesOf(structs, structs[id].fieldKinds);
    LayoutSound(fs);
    assert fs[index] == ShapeOf(structs, structs[id].fieldKinds[index]);
  }

  /** The single registry of value types; structs are only ever appended. */
  class TypeRegistry {
    var structs: seq<StructEntry>

    ghost predicate Valid()
      reads this
    {
      RegistryValid(structs)
    }

    constructor ()
      ensures Valid() && structs == []
    {
      structs := [];
    }

    /** primitive: the handle of a primitive has its size and alignment in any valid registry. */
    function PrimitiveHandle(ty: PrimitiveType): (h: TypeHandle)
      reads this
      ensures h.registry == this && h.kind == TypeKind.Primitive(ty)
      ensures Valid() ==> h.Valid() && h.SizeOf() == ty.SizeOf() && h.AlignOf() == ty.AlignOf()
    {
      TypeHandle(this, TypeKind.Primitive(ty))
    }

    /** size_of_kind agrees with the size of layout_of_kind. */
    function SizeOfKind(k: TypeKind): (n: nat)
      reads this
      requires KindIn(structs, k)
      ensures n == LayoutOfKind(k).size
    {
      match k
      case Primitive(p) => p.SizeOf()
      case Struct(id) => structs[id].layout.size
    }

    /** align_of_kind agrees with the alignment of layout_of_kind. */
    function AlignOfKind(k: TypeKind): (a: nat)
      reads this
      requires KindIn(structs, k)
      ensures a == LayoutOfKind(k).align
    {
      match k
      case Primitive(p) => p.AlignOf()
      case Struct(id) => structs[id].layout.align
    }

    /**
     * layout_of_kind: in a valid registry every layout is one that
     * Layout::from_size_align accepts, so the primitive arm's unwrap never
     * panics and a struct's stored layout is equally well formed.
     */
    function LayoutOfKind(k: TypeKind): (l: Layout)
      reads this
      requires KindIn(structs, k)
      ensures RegistryValid(structs) ==> IsAlignment(l.align) && l.size % l.align == 0
    {
      match k
      case Primitive(p) => Layout(p.SizeOf(), p.AlignOf())
      case Struct(id) =>
        if RegistryValid(structs) then EntryLayout(structs, id); structs[id].layout
        else structs[id].layout
    }

    /** field_count_kind (a primitive kind panics in the source): in a valid registry every field has a stored offset. */
    function FieldCountKind(k: TypeKind): (n: nat)
      reads this
      requires k.Struct? && KindIn(structs, k)
      ensures RegistryValid(structs) ==> n == |structs[k.id].fieldOffsets|
    {
      if RegistryValid(structs) then EntryLayout(structs, k.id); |structs[k.id].fieldKinds|
      else |structs[k.id].fieldKinds|
    }

    /** field_offset_kind: in a valid registry the offset lies within the struct's size. */
    function FieldOffsetKind(k: TypeKind, index: nat): (off: nat)
      reads this
      requires k.Struct? && KindIn(structs, k) && index < |structs[k.id].fieldOffsets|
      ensures RegistryValid(structs) ==> off <= structs[k.id].layout.size
    {
      if RegistryValid(structs) then FieldOffsetInside(structs, k.id, index); structs[k.id].fieldOffsets[index]
      else structs[k.id].fieldOffsets[index]
    }

    /** field_kind: in a valid registry a field's kind exists and is an earlier struct or a primitive. */
    function FieldKind(k: TypeKind, index: nat): (f: TypeKind)
      reads this
      requires k.Struct? && KindIn(structs, k) && index < |structs[k.id].fieldKinds|
      ensures RegistryValid(structs) ==> KindIn(structs, f) && (f.Struct? ==> f.id < k.id)
    {
      if RegistryValid(structs) then assert EntryValid(structs, k.id); structs[k.id].fieldKinds[index]
      else structs[k.id].fieldKinds[index]
    }

    function LibffiTypeKind(k: TypeKind): FfiType
      reads this
      requires Valid() && KindIn(structs, k)
    {
      FfiTypeOf(structs, k)
    }

    /** compute_layout, proved to produce the natural-alignment layout of the fields. */
    method ComputeLayout(fields: seq<TypeKind>) returns (offsets: seq<nat>, layout: Layout)
      requires Valid()
      requires forall i :: 0 <= i < |fields| ==> KindIn(structs, fields[i])
      ensures StructLayout(offsets, layout.size, layout.align) == LayoutOfKinds(structs, fields)
    {
      ghost var fs := ShapesOf(structs, fields);
      ShapesOfAligned(structs, fields);
      offsets := [];
      var offset := 0;
      var maxAlign := 1;
      for i := 0 to |fields|
        invariant Placement(fs[..i]) == Placed(offsets, offset)
        invariant maxAlign == MaxAlign(fs[..i])
      {
        var fieldAlign := AlignOfKind(fields[i]);
        var fieldSize := SizeOfKind(fields[i]);
        assert fs[i] == FieldShape(fieldSize, fieldAlign);
        assert fs[..i + 1][..i] == fs[..i];
        maxAlign := if maxAlign < fieldAlign then fieldAlign else maxAlign;
        offset := AlignUp(offset, fieldAlign);
        offsets := offsets + [offset];
        offset := offset + fieldSize;
      }
      assert fs[..|fields|] == fs;
      layout := Layout(AlignUp(offset, maxAlign), maxAlign);
    }

    /** define_struct: append one entry; its handle is the entry count before the call. */
    method DefineStruct(fields: seq<TypeHandle>) returns (h: TypeHandle)
      requires Valid()
      requires forall i :: 0 <= i < |fields| ==> KindIn(structs, fields[i].kind)
      modifies this
      ensures Valid()
      ensures h == TypeHandle(this, Struct(|old(structs)|))
      ensures |structs| == |old(structs)| + 1
      ensures structs[..|old(structs)|] == old(structs)
      ensures var kinds := seq(|fields|, i requires 0 <= i < |fields| => fields[i].kind);
        var l := LayoutOfKinds(old(structs), kinds);
        structs[|old(structs)|] == StructEntry(kinds, l.offsets, Layout(l.size, l.align))
    {
      var fieldKinds := seq(|fields|, i requires 0 <= i < |fields| => fields[i].kind);
      var fieldOffsets, layout := ComputeLayout(fieldKinds);
      var id := |structs|;
      var e := StructEntry(fieldKinds, fieldOffsets, layout);
      var s' := structs + [e];
      ShapesOfAligned(structs, fieldKinds);
      assert ShapesOf(s', fieldKinds) == ShapesOf(structs, fieldKinds);
      assert EntryValid(s', id);
      AppendKeepsValid(structs, e);
      structs := s';
      h := TypeHandle(this, Struct(id));
    }
  }

  /** A kind together with the registry it belongs to. */
  datatype TypeHandle = TypeHandle(registry: TypeRegistry, kind: TypeKind) {

    ghost predicate Valid()
      reads registry
    {
      registry.Valid() && KindIn(registry.structs, kind)
    }

    /** size_of: always a multiple of the handle's alignment. */
    function SizeOf(): (n: nat)
      reads registry
      requires Valid()
      ensures n % AlignOf() == 0
    {
      var l := registry.LayoutOfKind(kind);
      registry.SizeOfKind(kind)
    }

    function AlignOf(): (a: nat)
      reads registry
      requires Valid()
      ensures IsAlignment(a)
    {
      if kind.Struct? then EntryLayout(registry.structs, kind.id); registry.AlignOfKind(kind)
      else registry.AlignOfKind(kind)
    }

    /** layout: the handle's size and alignment together. */
    function Layout(): (l: Layout)
      reads registry
      requires Valid()
      ensures l.size == SizeOf() && l.align == AlignOf()
    {
      registry.LayoutOfKind(kind)
    }

    function LibffiType(): (t: FfiType)
      reads registry
      requires Valid()
      ensures FfiShape(t) == FieldShape(SizeOf(), AlignOf())
    {
      FfiLayoutAgrees(registry.structs, kind);
      registry.LibffiTypeKind(kind)
    }

    /** field_count: the number of fields, each with a stored offset. */
    function FieldCount(): (n: nat)
      reads registry
      requires Valid() && kind.Struct?
      ensures n == |registry.structs[kind.id].fieldOffsets|
    {
      registry.FieldCountKind(kind)
    }

    /** The field's handle belongs to the same registry and is itself valid. */
    function FieldType(index: nat): (f: TypeHandle)
      reads registry
      requires Valid() && kind.Struct? && index < FieldCount()
      ensures f.registry == registry && f.Valid()
      ensures kind.Struct? && f.kind.Struct? ==> f.kind.id < kind.id
    {
      assert EntryValid(registry.structs, kind.id);
      TypeHandle(registry, registry.FieldKind(kind, index))
    }

    /** A field's offset is a multiple of its alignment and the field lies inside the struct. */
    function FieldOffset(index: nat): (off: nat)
      reads registry
      requires Valid() && kind.Struct? && index < FieldCount()
      ensures off % FieldType(index).AlignOf() == 0
      ensures off + FieldType(index).SizeOf() <= SizeOf()
    {
      FieldPlaced(registry.structs, kind.id, index);
      registry.FieldOffsetKind(kind, index)
    }
  }

  /**
   * Every handle's alignment is 1, 2, 4 or 8 and divides its size; the
   * fields of a struct handle never overlap, in declaration order.
   */
  lemma HandleLayoutSound(h: TypeHandle)
    requires h.Valid()
    ensures IsAlignment(h.AlignOf()) && h.SizeOf() % h.AlignOf() == 0
    ensures h.kind.Struct? ==> forall i, j :: 0 <= i < j < h.FieldCount() ==>
      h.FieldOffset(i) + h.FieldType(i).SizeOf() <= h.FieldOffset(j)
  {
    if h.kind.Struct? {
      var structs := h.registry.structs;
      EntryLayout(structs, h.kind.id);
      assert EntryValid(structs, h.kind.id);
      LayoutSound(ShapesOf(structs, structs[h.kind.id].fieldKinds));
    }
  }

  /** Write `v` over the bytes at `off`; the effect of set_field on the buffer. */
  function WriteBytes(bytes: seq<bv8>, off: nat, v: seq<bv8>): (r: seq<bv8>)
    requires off + |v| <= |bytes|
    ensures |r| == |bytes|
  {
    bytes[..off] + v + bytes[off + |v|..]
  }

  /** Reading a field back after writing it gives what was written. */
  lemma ReadAfterWrite(bytes: seq<bv8>, off: nat, v: seq<bv8>)
    requires off + |v| <= |bytes|
    ensures WriteBytes(bytes, off, v)[off..off + |v|] == v
  {
  }

  /** Writing one field leaves every other field of the struct as it was. */
  lemma WriteKeepsOtherFields(h: TypeHandle, bytes: seq<bv8>, i: nat, j: nat, v: seq<bv8>)
    requires h.Valid() && h.kind.Struct? && |bytes| == h.SizeOf()
    requires i < h.FieldCount() && j < h.FieldCount() && i != j
    requires |v| == h.FieldType(i).SizeOf()
    ensures var off := h.FieldOffset(j);
      var w := WriteBytes(bytes, h.FieldOffset(i), v);
      w[off..off + h.FieldType(j).SizeOf()] == bytes[off..off + h.FieldType(j).SizeOf()]
  {
    HandleLayoutSound(h);
    var (oi, oj) := (h.FieldOffset(i), h.FieldOffset(j));
    var (si, sj) := (h.FieldType(i).SizeOf(), h.FieldType(j).SizeOf());
    var w := WriteBytes(bytes, oi, v);
    if i < j {
      assert oi + si <= oj;
    } else {
      assert oj + sj <= oi;
    }
    forall k | oj <= k < oj + sj
      ensures w[k] == bytes[k]
    {
    }
  }

  /**
   * A zero-initialised byte buffer laid out by a handle, with field access
   * by offset. Field values are raw bytes of the field's width.
   */
  class ValueTypeData {
    const typeHandle: TypeHandle
    /** The heap buffer; empty where the source keeps a null pointer for size 0. */
    const data: array<bv8>

    ghost predicate Valid()
      reads this, typeHandle.registry
    {
      typeHandle.Valid() && data.Length == typeHandle.SizeOf()
    }

    /** ValueTypeData::new: all-zero bytes of the layout size. */
    constructor (handle: TypeHandle)
      requires handle.Valid()
      ensures typeHandle == handle && Valid() && fresh(data)
      ensures forall k :: 0 <= k < data.Length ==> data[k] == 0
    {
      typeHandle := handle;
      data := new bv8[handle.SizeOf()](_ => 0);
    }

    /** The byte copy made by clone. */
    constructor Copy(src: ValueTypeData)
      requires src.Valid()
      ensures typeHandle == src.typeHandle && Valid() && fresh(data)
      ensures data[..] == src.data[..]
    {
      typeHandle := src.typeHandle;
      var n := src.data.Length;
      data := new bv8[n](k requires 0 <= k < n reads src.data => src.data[k]);
    }

    /** get_field: the field's bytes; the width must equal the field's size. */
    method GetField(index: nat, width: nat) returns (v: seq<bv8>)
      requires Valid() && typeHandle.kind.Struct? && index < typeHandle.FieldCount()
      requires width == typeHandle.FieldType(index).SizeOf()
      ensures |v| == width
      ensures v == data[typeHandle.FieldOffset(index)..typeHandle.FieldOffset(index) + width]
    {
      var off := typeHandle.FieldOffset(index);
      v := data[off..off + width];
    }

    /** set_field: overwrite exactly the field's bytes; the width must equal the field's size. */
    method SetField(index: nat, v: seq<bv8>)
      requires Valid() && typeHandle.kind.Struct? && index < typeHandle.FieldCount()
      requires |v| == typeHandle.FieldType(index).SizeOf()
      modifies data
      ensures Valid()
      ensures data[..] == WriteBytes(old(data[..]), typeHandle.FieldOffset(index), v)
    {
      var off := typeHandle.FieldOffset(index);
      forall k | 0 <= k < |v| {
        data[off + k] := v[k];
      }
      assert data[..] == WriteBytes(old(data[..]), off, v);
    }

    /** clone: a new buffer holding the same bytes, sharing nothing with this one. */
    method Clone() returns (c: ValueTypeData)
      requires Valid()
      ensures fresh(c) && fresh(c.data)
      ensures c.typeHandle == typeHandle && c.Valid()
      ensures c.data[..] == data[..]
    {
      c := new ValueTypeData.Copy(this);
    }
  }

  /** TypeHandle::default_value. */
  method DefaultValue(h: TypeHandle) returns (v: ValueTypeData)
    requires h.Valid()
    ensures fresh(v) && fresh(v.data) && v.typeHandle == h && v.Valid()
    ensures forall k :: 0 <= k < v.data.Length ==> v.data[k] == 0
  {
    v := new ValueTypeData(h);
  }

  /** A later set_field on the original leaves a clone's bytes unchanged. */
  method CloneIsIndependent(v: ValueTypeData, index: nat, x: seq<bv8>) returns (c: ValueTypeData)
    requires v.Valid() && v.typeHandle.kind.Struct? && index < v.typeHandle.FieldCount()
    requires |x| == v.typeHandle.FieldType(index).SizeOf()
    modifies v.data
    ensures fresh(c) && c.data[..] == old(v.data[..])
    ensures v.data[..] == WriteBytes(old(v.data[..]), v.typeHandle.FieldOffset(index), x)
  {
    c := v.Clone();
    v.SetField(index, x);
  }
}

/** The layouts the registry's own examples expect, derived from the rules above. */
module RegistryExamples {
  import opened Registry

  function Shape(p: PrimitiveType): FieldShape
  {
    FieldShape(p.SizeOf(), p.AlignOf())
  }

  lemma ShapesOfTwo(structs: seq<StructEntry>, a: TypeKind, b: TypeKind)
    requires KindIn(structs, a) && KindIn(structs, b)
    ensures ShapesOf(structs, [a, b]) == [ShapeOf(structs, a), ShapeOf(structs, b)]
  {
  }

  /** One step of the layout loop, for the worked examples below. */
  lemma PlaceNext(fs: seq<FieldShape>, f: FieldShape)
    requires ShapesAligned(fs) && IsAlignment(f.align)
    ensures ShapesAligned(fs + [f])
    ensures var p := Placement(fs); var at := AlignUp(p.end, f.align);
      Placement(fs + [f]) == Placed(p.offsets + [at], at + f.size)
    ensures MaxAlign(fs + [f]) == if MaxAlign(fs) < f.align then f.align else MaxAlign(fs)
  {
    assert (fs + [f])[..|fs|] == fs;
  }

  function Max(a: nat, b: nat): nat
  {
    if a < b then b else a
  }

  lemma PlaceOne(f: FieldShape)
    requires IsAlignment(f.align)
    ensures Placement([f]) == Placed([0], f.size) && MaxAlign([f]) == f.align
  {
    PlaceNext([], f);
    assert [] + [f] == [f];
  }

  lemma PlaceTwo(f: FieldShape, g: FieldShape)
    requires IsAlignment(f.align) && IsAlignment(g.align)
    ensures var o1 := AlignUp(f.size, g.align);
      && Placement([f, g]) == Placed([0, o1], o1 + g.size)
      && MaxAlign([f, g]) == Max(f.align, g.align)
  {
    PlaceOne(f);
    PlaceNext([f], g);
    assert [f] + [g] == [f, g];
  }

  lemma PlaceThree(f: FieldShape, g: FieldShape, h: FieldShape)
    requires IsAlignment(f.align) && IsAlignment(g.align) && IsAlignment(h.align)
    ensures var o1 := AlignUp(f.size, g.align); var o2 := AlignUp(o1 + g.size, h.align);
      && Placement([f, g, h]) == Placed([0, o1, o2], o2 + h.size)
      && MaxAlign([f, g, h]) == Max(Max(f.align, g.align), h.align)
  {
    PlaceTwo(f, g);
    PlaceNext([f, g], h);
    assert [f, g] + [h] == [f, g, h];
  }

  /** Two f32 fields (a Point). */
  lemma PointLayout()
    ensures LayoutOf([Shape(F32), Shape(F32)]) == StructLayout([0, 4], 8, 4)
  {
    var f := Shape(F32);
    assert f == FieldShape(4, 4);
    PlaceTwo(f, f);
    assert AlignUp(4, 4) == 4 && AlignUp(8, 4) == 8;
  }

  /** Four f32 fields (a Rect). */
  lemma RectLayout()
    ensures LayoutOf([Shape(F32), Shape(F32), Shape(F32), Shape(F32)]) == StructLayout([0, 4, 8, 12], 16, 4)
  {
    var f := Shape(F32);
    assert f == FieldShape(4, 4);
    PlaceThree(f, f, f);
    assert AlignUp(4, 4) == 4 && AlignUp(8, 4) == 8 && AlignUp(12, 4) == 12;
    assert Placement([f, f, f]) == Placed([0, 4, 8], 12) && MaxAlign([f, f, f]) == 4;
    PlaceNext([f, f, f], f);
    assert [f, f, f] + [f] == [f, f, f, f];
    assert AlignUp(16, 4) == 16;
  }

  /** Three f64 fields (a BasicGeoposition). */
  lemma GeopositionLayout()
    ensures LayoutOf([Shape(F64), Shape(F64), Shape(F64)]) == StructLayout([0, 8, 16], 24, 8)
  {
    var f := Shape(F64);
    assert f == FieldShape(8, 8);
    PlaceThree(f, f, f);
    assert AlignUp(8, 8) == 8 && AlignUp(16, 8) == 16 && AlignUp(24, 8) == 24;
  }

  /** u8, i32, u8: padding before the i32 and at the end. */
  lemma MixedLayout()
    ensures LayoutOf([Shape(U8), Shape(PrimitiveType.I32), Shape(U8)]) == StructLayout([0, 4, 8], 12, 4)
  {
    var b, w := Shape(U8), Shape(PrimitiveType.I32);
    assert b == FieldShape(1, 1) && w == FieldShape(4, 4);
    PlaceThree(b, w, b);
    assert AlignUp(1, 4) == 4 && AlignUp(8, 1) == 8 && AlignUp(9, 4) == 12;
  }

  /** A Point nested before an f64: the struct field takes the Point's size and alignment. */
  method NestedLayout() returns (inner: TypeHandle, outer: TypeHandle)
    ensures inner.Valid() && outer.Valid() && outer.kind.Struct?
    ensures inner.SizeOf() == 8 && inner.AlignOf() == 4
    ensures outer.SizeOf() == 16 && outer.AlignOf() == 8
    ensures outer.FieldCount() == 2 && outer.FieldOffset(0) == 0 && outer.FieldOffset(1) == 8
  {
    var reg := new TypeRegistry();
    var f32 := reg.PrimitiveHandle(F32);
    var f64 := reg.PrimitiveHandle(F64);
    inner := reg.DefineStruct([f32, f32]);
    ghost var s1 := reg.structs;
    ghost var ks := [f32.kind, f32.kind];
    assert seq(2, i requires 0 <= i < 2 => [f32, f32][i].kind) == ks;
    ShapesOfTwo([], f32.kind, f32.kind);
    assert ShapesOf([], ks) == [Shape(F32), Shape(F32)];
    PointLayout();
    assert LayoutOfKinds([], ks) == StructLayout([0, 4], 8, 4);
    assert s1 == [StructEntry([f32.kind, f32.kind], [0, 4], Layout(8, 4))];
    outer := reg.DefineStruct([inner, f64]);
    assert seq(2, i requires 0 <= i < 2 => [inner, f64][i].kind) == [inner.kind, f64.kind];
    ShapesOfTwo(s1, inner.kind, f64.kind);
    var p, d := FieldShape(8, 4), FieldShape(8, 8);
    assert ShapesOf(s1, [inner.kind, f64.kind]) == [p, d];
    PlaceTwo(p, d);
    assert AlignUp(8, 8) == 8 && AlignUp(16, 8) == 16;
  }
}
