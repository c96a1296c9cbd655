# Type model of a dynamic foreign-function interface

This project models the type-model skeleton of DragonFFI (`lib/dffi_types.cpp`):
the runtime description of C types that the FFI uses to lay out memory and to
describe function signatures.

- `types.dfy` (module `Types`): the `TypeKind` discriminator; the scalar kinds
  (`BasicKind`) with their byte size and alignment table; and the types that
  only record what they are built from. `FunctionType` is built by
  `NewFunctionType`, which records return type, parameters and calling
  convention and always starts non-variadic. `ArrayType` (element type and
  count, `lib/dffi_types.cpp:108-112`) and `PointerType` (pointee,
  `lib/dffi_types.cpp:93-96`) are the datatype constructors of the same name.
  A reference to a type object is modelled by its identity (`TypeRef`),
  because the type authority hands out one shared object per type.
- `composite.dfy` (module `Composite`): the types with an opaque → defined
  lifecycle. `CompositeType` (a struct or union) is a class whose fields are
  `IsOpaque`, `Fields`, `Size`, `Align` and the name → field table
  `FieldsMap`. `SetBody` defines it exactly once and fills the table in a
  loop. `SetUnionBody` adds the rule that every union field sits at offset 0.
  `GetField` looks a name up and answers `None` on a miss. `EnumType` is a
  class whose `SetBody` marks it defined and stores its constants.
  `CompositeField` (`lib/dffi_types.cpp:114-118`) is the datatype constructor
  of the same name.
- `wrappers.dfy` (module `Wrappers`): `Option`, the model of a pointer that
  may be null.

The table entries of `FieldsMap` point into `Fields` in the source. The model
stores the position of the field in `Fields`, which is the same thing.

## Model

| member | source | states |
|---|---|---|
| `Types.BasicSize` | lib/dffi_types.cpp:37-77 | the size of every scalar kind is one of 1, 2, 4, 8, 16, 32 bytes; `Bool` has `sizeof(bool)` and `Char` has `sizeof(char)` |
| `Types.BasicAlign` | lib/dffi_types.cpp:32-35 | for every scalar kind the alignment equals the size, and narrowing it to `unsigned` loses nothing (it is positive) |
| `Types.IntegerSizeIsWidth` | lib/dffi_types.cpp:44-63 | Int8..Int128 occupy 1, 2, 4, 8, 16 bytes (bit width / 8), and each unsigned kind has the size of the signed kind of the same width |
| `Types.FloatSizeIsWidth` | lib/dffi_types.cpp:64-69 | Float32, Float64, Float128 occupy 4, 8, 16 bytes (bit width / 8) |
| `Types.ComplexIsTwiceReal` | lib/dffi_types.cpp:64-75 | each ComplexFloatN is exactly twice the size of FloatN: 8, 16, 32 bytes |
| `Types.NewFunctionType` | lib/dffi_types.cpp:79-86 | a function type records its return type, parameters and calling convention, and is not variadic |
| `Composite.FieldsMapOf` | lib/dffi_types.cpp:150-152 | the table built by entering the fields in order holds exactly the names that occur in the list, and each name points at its LAST occurrence (a later duplicate overwrites) |
| `Composite.UnionOffsetsAreZero` | lib/dffi_types.cpp:157-161 | the union check answers true exactly when every field offset is 0 |
| `Composite.CompositeType.constructor` | lib/dffi_types.cpp:120-133 | a declared struct or union is opaque, with size 0, align 0, no fields and an empty table; only composite kinds are accepted |
| `Composite.CompositeType.SetBody` | lib/dffi_types.cpp:144-153 | only an opaque type can be defined; afterwards it is not opaque, holds exactly the given fields, size and alignment, and its table agrees with the fields (so a second definition violates the precondition); on a union it accepts only fields at offset 0, so no defined union holds a field elsewhere |
| `Composite.CompositeType.SetUnionBody` | lib/dffi_types.cpp:155-162 | a union is defined as by `SetBody`, only from fields that all sit at offset 0, and its stored fields all sit at offset 0 afterwards |
| `Composite.CompositeType.GetField` | lib/dffi_types.cpp:135-142 | a lookup finds a field exactly when some field has that name, returns the last field of that name, and finds nothing on an opaque type |
| `Composite.EnumType.constructor` | lib/dffi_types.cpp:120-125 | a declared enum is opaque with no constants |
| `Composite.EnumType.SetBody` | lib/dffi_types.cpp:164-167 | the enum is marked defined and holds exactly the given constants, with no requirement that it was opaque before |

## Left out

- `FunctionType::getFunction` (`lib/dffi_types.cpp:88-91`): it hands the signature and a code address to the native call bridge, which lives in `dffi_impl.h`; `dffi_impl.h` is not part of this model, and native calls are foreign code execution.
- `PointerType::get` (`lib/dffi_types.cpp:98-101`) and all type uniquing: they forward to the type authority's interning tables in `dffi_impl.h`, which is not part of this model.
- `EnumType::getBasicType` (`lib/dffi_types.cpp:103-106`): it asks the type authority for the basic type of `IntType`, whose definition is in a header that is not part of this model; both are outside this model.
- The back-reference every type keeps to its owning authority (`lib/dffi_types.cpp:22-25`) is not modelled, since nothing modelled uses it.
- Type qualifiers carried by `QualType` belong to a header that is not part of this model; a `QualType` is modelled by the identity of its type alone.
- The values of `CallingConv` belong to a header that is not part of this model; the tag is an abstract number.
- The container type of an enum's constants belongs to a header that is not part of this model; the constants are modelled as an ordered list of name/value pairs with unbounded integer values.
- `sizeof(bool)` is implementation-defined; it is fixed to 1 (`BoolSize`).
- The union offset check runs in the source only when `NDEBUG` is undefined, and it runs after the fields were stored. A failed check aborts the process, so the model states it as a precondition of `SetUnionBody`; build modes are not modelled.
- Composite.CompositeType.SetBody: the opaque assertion (lib/dffi_types.cpp:145) is modelled as `requires IsOpaque`. Like the union check it is compiled out under `NDEBUG`; there a second `setBody` replaces `Fields_` while keeping the old table entries for names missing from the new list, and those entries point into the freed old field vector. That release-build overwrite with stale table entries is not modelled.
- The kind range assertions of the constructors (`lib/dffi_types.cpp:124`, `132`) are modelled as the precondition `kind.IsComposite()`; an enum is built with its kind fixed.
- Array size and alignment are not computed in the modelled code; no formula is invented for them.
- Using an opaque type's layout is not refused: the code reports size 0 and `getField` finds nothing (lib/dffi_types.cpp:129-141); the model follows the code.
- `EnumType::setBody` (lib/dffi_types.cpp:164-167) has no opaque assertion, so it can run again and replace the constants; the model follows the code.
- `bindings/python/tests/mem_refs.py`: an end-to-end test that compiles C and calls native code through the Python binding; it holds no logic of the type model.
- Concurrency: the source has none; the model is sequential.
