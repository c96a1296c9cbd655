/**
  The types with a two-phase lifecycle: structs and unions (composite types)
  and enums. Each is declared opaque and later given a body in place, so that
  a type can be referred to (for instance by a pointer inside its own fields)
  before its layout is known.
 */
module Composite {
  import opened Wrappers
  import opened Types

  /** A named member of a struct or union, of a given type, at a byte offset. */
  datatype CompositeField = CompositeField(name: string, ty: TypeRef, offset: u32)

  /** Some field of `fields` is called `name`. */
  ghost predicate HasField(fields: seq<CompositeField>, name: string)
  {
    exists i :: 0 <= i < |fields| && fields[i].name == name
  }

  /** `i` is the position of the last field of `fields` called `name`. */
  ghost predicate IsLastNamed(fields: seq<CompositeField>, i: int, name: string)
  {
    0 <= i < |fields| && fields[i].name == name &&
    forall j :: i < j < |fields| ==> fields[j].name != name
  }

  /** Every field of `fields` sits at offset 0, as the fields of a union must. */
  ghost predicate AllOffsetsZero(fields: seq<CompositeField>)
  {
    forall i :: 0 <= i < |fields| ==> fields[i].offset == 0
  }

  /**
    The name → field table that results from entering the fields one after
    the other, each entry pointing at its field's position in the list.
    A later field overwrites an earlier one of the same name, so every name
    ends up at its LAST occurrence.
   */
  function FieldsMapOf(fields: seq<CompositeField>): (m: map<string, nat>)
    ensures forall name :: name in m <==> HasField(fields, name)
    ensures forall name | name in m :: IsLastNamed(fields, m[name], name)
    decreases |fields|
  {
    if fields == [] then map[]
    else
      var n := |fields| - 1;
      FieldsMapOf(fields[..n])[fields[n].name := n]
  }

  /** Entering one more field extends the table built from the fields before it. */
  lemma FieldsMapOfStep(fields: seq<CompositeField>, i: nat)
    requires i < |fields|
    ensures FieldsMapOf(fields[..i + 1]) == FieldsMapOf(fields[..i])[fields[i].name := i]
  {
    assert fields[..i + 1][..i] == fields[..i];
  }

  /**
    The debug-build check that a union's fields all sit at offset 0; it
    answers false as soon as it meets a field at a nonzero offset.
   */
  method UnionOffsetsAreZero(fields: seq<CompositeField>) returns (ok: bool)
    ensures ok <==> AllOffsetsZero(fields)
  {
    var i := 0;
    while i < |fields|
      invariant 0 <= i <= |fields|
      invariant forall j :: 0 <= j < i ==> fields[j].offset == 0
    {
      if fields[i].offset != 0 {
        return false;
      }
      i := i + 1;
    }
    return true;
  }

  /** A struct or union type. */
  class CompositeType {
    const Kind: TypeKind
    var IsOpaque: bool
    var Fields: seq<CompositeField>
    var Size: u64
    var Align: u32
    /** Name → position in `Fields` of the field that a lookup by name returns. */
    var FieldsMap: map<string, nat>

    /**
      An opaque type has no fields and a zero size and alignment; the lookup
      table always agrees with the field list; a union's fields all sit at
      offset 0.
     */
    ghost predicate Valid()
      reads this
    {
      Kind.IsComposite() &&
      (IsOpaque ==> Fields == [] && Size == 0 && Align == 0) &&
      FieldsMap == FieldsMapOf(Fields) &&
      (Kind == Union ==> AllOffsetsZero(Fields))
    }

    /** Declares a struct or union: it starts opaque, with size 0, align 0 and no fields. */
    constructor (kind: TypeKind)
      requires kind.IsComposite()
      ensures Valid()
      ensures Kind == kind && Kind.CanBeOpaque() && IsOpaque
      ensures Fields == [] && Size == 0 && Align == 0 && FieldsMap == map[]
    {
      Kind := kind;
      IsOpaque := true;
      Fields := [];
      Size := 0;
      Align := 0;
      FieldsMap := map[];
    }

    /**
      Defines an opaque composite, once: afterwards it is no longer opaque and
      holds exactly the given fields, size and alignment. Since the type must
      be opaque on entry, the precondition forbids a second definition. A
      union keeps its fields at offset 0, so it only accepts such fields.
     */
    method SetBody(fields: seq<CompositeField>, size: u64, align: u32)
      requires Valid() && IsOpaque
      requires Kind == Union ==> AllOffsetsZero(fields)
      modifies this
      ensures Valid()
      ensures !IsOpaque && Fields == fields && Size == size && Align == align
    {
      IsOpaque := false;
      Fields := fields;
      Size := size;
      Align := align;
      var i := 0;
      while i < |Fields|
        invariant 0 <= i <= |Fields|
        invariant !IsOpaque && Fields == fields && Size == size && Align == align
        invariant FieldsMap == FieldsMapOf(Fields[..i])
      {
        FieldsMapOfStep(Fields, i);
        FieldsMap := FieldsMap[Fields[i].name := i];
        i := i + 1;
      }
      assert Fields[..i] == Fields;
    }

    /**
      Defines an opaque union. Every field of a union must sit at offset 0;
      a field elsewhere is an internal consistency fault of the caller.
     */
    method SetUnionBody(fields: seq<CompositeField>, size: u64, align: u32)
      requires Valid() && IsOpaque && Kind == Union
      requires AllOffsetsZero(fields)
      modifies this
      ensures Valid()
      ensures !IsOpaque && Fields == fields && Size == size && Align == align
      ensures AllOffsetsZero(Fields)
    {
      SetBody(fields, size, align);
      var ok := UnionOffsetsAreZero(Fields);
      assert ok;
    }

    /**
      Looks a field up by name: the last field of that name when there is
      one, and nothing otherwise (in particular on an opaque type).
     */
    function GetField(name: string): (r: Option<CompositeField>)
      reads this
      requires Valid()
      ensures r.Some? <==> HasField(Fields, name)
      ensures r.Some? ==> r.value.name == name
      ensures r.Some? ==> exists i :: IsLastNamed(Fields, i, name) && Fields[i] == r.value
      ensures IsOpaque ==> r == None
    {
      if name in FieldsMap then Some(Fields[FieldsMap[name]]) else None
    }
  }

  /** A named integer constant of an enum. */
  datatype EnumConstant = EnumConstant(name: string, value: int)

  /** An enum type: opaque until its constants are set. */
  class EnumType {
    const Kind: TypeKind
    var IsOpaque: bool
    var Fields: seq<EnumConstant>

    /** Declares an enum: it starts opaque, with no constants. */
    constructor ()
      ensures Kind == Enum && Kind.CanBeOpaque() && IsOpaque && Fields == []
    {
      Kind := Enum;
      IsOpaque := true;
      Fields := [];
    }

    /**
      Marks the enum defined and stores its constants as given. Unlike a
      composite, an enum may be given a body whether or not it is opaque;
      a later body replaces an earlier one.
     */
    method SetBody(fields: seq<EnumConstant>)
      modifies this
      ensures !IsOpaque && Fields == fields
    {
      IsOpaque := false;
      Fields := fields;
    }
  }

  /**
    Declaring, defining and querying types through the contracts alone:
    a struct with a duplicated field name, a union and an enum.
   */
  method LifecycleScenario(intTy: TypeRef)
  {
    var s := new CompositeType(Struct);
    assert s.GetField("a") == None;
    var a0 := CompositeField("a", intTy, 0);
    var b := CompositeField("b", intTy, 4);
    var a8 := CompositeField("a", intTy, 8);
    s.SetBody([a0, b, a8], 12, 4);
    assert !s.IsOpaque && s.Size == 12 && s.Align == 4;
    assert s.Fields[1] == b && s.Fields[2] == a8;
    var fb := s.GetField("b");
    assert IsLastNamed(s.Fields, 1, "b");
    assert fb == Some(b);
    var fa := s.GetField("a");
    assert IsLastNamed(s.Fields, 2, "a");
    assert fa == Some(a8);
    assert !HasField(s.Fields, "c");
    assert s.GetField("c") == None;

    var u := new CompositeType(Union);
    u.SetUnionBody([CompositeField("x", intTy, 0), CompositeField("y", intTy, 0)], 4, 4);
    assert u.Fields[1].offset == 0;

    var e := new EnumType();
    e.SetBody([EnumConstant("A", 0), EnumConstant("B", 1)]);
    e.SetBody([EnumConstant("C", 2)]);
    assert !e.IsOpaque && e.Fields == [EnumConstant("C", 2)];
  }
}
