# Proto3 field accessors: presence, oneof unions and sub-message copies

A model of the in-memory field-access semantics of proto3 messages in the
Rust protobuf runtime, as its proto3 accessor tests pin them down:

- **Implicit-presence fields** of `TestAllTypes` (`optional_fixed32`,
  `optional_bool`, `optional_bytes`, `optional_string`,
  `optional_nested_enum`, `optional_foreign_enum`). Only a value is stored.
  A fresh message reads the type's zero value. Setting the zero value cannot
  be told apart from never setting.
- **Explicit-presence fields** of `TestProto3Optional` (proto3 `optional`:
  `optional_bytes`, `optional_string`, `optional_nested_enum`). The field
  stores an `Optional`: `Unset(default)` until first set, then `Set(v)`, also
  when `v` is the default.
- **Oneof unions**: `TestAllTypes.oneof_field` (`oneof_uint32`,
  `oneof_nested_message`, `oneof_bytes`) and `TestOneof2.foo` (`foo_enum`).
  The union is `not_set` or one member with its value. Setting a member
  replaces whatever was active. Clearing the active member returns to
  `not_set`. `oneof_nested_message_mut().or_default()` activates the member
  with a default sub-message. A member's `_opt` reports `Set` only while it
  is the active one.
- **Sub-message assignment**: `set_optional_nested_message` copies the
  argument's state into the parent.

Layout:

- `protobuf.dfy`: module `Protobuf` holds the runtime value types: `uint32`,
  `int32`, `uint8`, `Bytes` and `Optional` (`Set(v) | Unset(v)`). Module
  `History` holds `Writes` (the values a sequence of calls writes to one
  field) and `LastOr` (the last of them).
- `unittest_proto3.dfy`: module `UnittestProto3` holds the enums,
  `NestedMessage`, the `OneofField` union, `TestAllTypes` and `TestOneof2`.
  Each message is a `class` whose fields the accessors update in place.
  `AsView()` is its immutable snapshot, a datatype named after the generated
  `...View` type. Each mutator of `TestAllTypes` (and, in the next file, of
  `TestProto3Optional`) has an `ensures` saying that the new snapshot is one
  step `Apply` of a pure state machine over snapshots. The mutators of
  `NestedMessage` and `TestOneof2` state their new snapshot directly. The union's
  transitions are functions whose contracts are written in terms of the
  read-side `_opt` accessors.
- `test_all_types_history.dfy`: module `TestAllTypesHistory` holds `Run`,
  which applies a sequence of mutator calls. Its lemmas say what any sequence
  of calls leaves behind.
- `unittest_proto3_optional.dfy`: module `UnittestProto3Optional` holds
  `TestProto3Optional`, its state machine and its lemmas.
- `accessors_proto3_test.dfy`: module `AccessorsProto3Test` re-expresses each
  test as a method. The method makes the same calls in the same order and
  asserts what the test asserts, proved from the accessors' contracts alone.

Representation choices:

- `fixed32` and `uint32` are `uint32`, an `int` below 2^32. The setters take
  values of that type, so no wrap-around arises.
- `int32` is the signed 32-bit range.
- Bytes are `seq<uint8>`. Strings are `seq<char>`.
- Enums are datatypes. Each has a constant that names its default
  enumerator.
- A caller's `Vec` or `String` that is dropped after a set is modelled as a
  caller-owned array. The test method overwrites that array after the set,
  and the field still reads the copied contents.

## Model

| member | source | states |
|---|---|---|
| `UnittestProto3.NestedMessage.constructor` | rust/test/shared/accessors_proto3_test.rs:238 | a new `NestedMessage` has every field at its default (`bb == 0`) |
| `UnittestProto3.NestedMessage.SetBb` | rust/test/shared/accessors_proto3_test.rs:239 | after `set_bb(v)` the message's state is exactly `bb == v` |
| `UnittestProto3.OneofField.OneofUint32Opt` | rust/test/shared/accessors_proto3_test.rs:178-184 | `oneof_uint32_opt()` is `Set` exactly when `oneof_uint32` is the active member and then carries its value; otherwise it is `Unset(0)` |
| `UnittestProto3.OneofField.OneofNestedMessageOpt` | rust/test/shared/accessors_proto3_test.rs:186-189 | the sub-message member reports `Set` exactly when it is active, with its value; otherwise `Unset` of a default sub-message. The test never calls `oneof_nested_message_opt()`; this observer is modelled so that the union's transitions can state the sub-message member's presence, which the test observes through `oneof_field()` |
| `UnittestProto3.OneofField.OneofBytesOpt` | rust/test/shared/accessors_proto3_test.rs:188 | `oneof_bytes_opt()` is `Set` exactly when `oneof_bytes` is active, with its value; otherwise `Unset` of empty bytes |
| `UnittestProto3.OneofField.SetOneofUint32` | rust/test/shared/accessors_proto3_test.rs:178-180 | after `set_oneof_uint32(x)`, `oneof_uint32_opt() == Set(x)` and both other members report `Unset` with their defaults, whatever was active before |
| `UnittestProto3.OneofField.SetOneofBytes` | rust/test/shared/accessors_proto3_test.rs:191-194 | after `set_oneof_bytes(b)`, `oneof_bytes_opt() == Set(b)` and the other members report `Unset` (`oneof_uint32_opt() == Unset(0)`) |
| `UnittestProto3.OneofField.OneofNestedMessageOrDefault` | rust/test/shared/accessors_proto3_test.rs:186-189 | `oneof_nested_message_mut().or_default()` makes the sub-message member active: a default sub-message when it was not active, its current value when it was; the other members report `Unset` |
| `UnittestProto3.OneofField.ClearOneofUint32` | rust/test/shared/accessors_proto3_test.rs:182-184 | clearing the active `oneof_uint32` gives `not_set`, and `oneof_uint32_opt()` is `Unset(0)` afterwards; on any other state it changes nothing |
| `UnittestProto3.OneofField.ClearOneofBytes` | rust/test/shared/accessors_proto3_test.rs:196-197 | clearing the active `oneof_bytes` gives `not_set`; on any other state it changes nothing |
| `UnittestProto3.OneofMembersExclusive` | rust/test/shared/accessors_proto3_test.rs:188-194 | at most one member of `oneof_field` reports `Set`, and none does exactly when the union is `not_set` |
| `UnittestProto3.TestAllTypes.constructor` | rust/test/shared/accessors_proto3_test.rs:17-18 | `TestAllTypes::new()` reads `0`, `false`, empty bytes, empty string, `NestedEnum::Zero` and `ForeignEnum::ForeignZero`, has no sub-message and has the union `not_set` |
| `UnittestProto3.TestAllTypes.SetOptionalFixed32` | rust/test/shared/accessors_proto3_test.rs:20-27 | `set_optional_fixed32(x)` makes the field read `x`, the default `0` included, and changes no other field |
| `UnittestProto3.TestAllTypes.SetOptionalBool` | rust/test/shared/accessors_proto3_test.rs:35-39 | `set_optional_bool(b)` makes the field read `b` and changes no other field |
| `UnittestProto3.TestAllTypes.SetOptionalBytes` | rust/test/shared/accessors_proto3_test.rs:49-59 | `set_optional_bytes(b)` makes the field read a copy of `b`, empty included, and changes no other field |
| `UnittestProto3.TestAllTypes.SetOptionalString` | rust/test/shared/accessors_proto3_test.rs:91-101 | `set_optional_string(s)` makes the field read a copy of `s` and changes no other field |
| `UnittestProto3.TestAllTypes.SetOptionalNestedEnum` | rust/test/shared/accessors_proto3_test.rs:133-137 | `set_optional_nested_enum(e)` makes the field read `e` and changes no other field |
| `UnittestProto3.TestAllTypes.SetOptionalForeignEnum` | rust/test/shared/accessors_proto3_test.rs:164-168 | `set_optional_foreign_enum(e)` makes the field read `e` and changes no other field |
| `UnittestProto3.TestAllTypes.SetOptionalNestedMessage` | rust/test/shared/accessors_proto3_test.rs:241-244 | `set_optional_nested_message(nested)` stores `Set` of a copy of `nested`'s state, so the parent's sub-message reads `bb == 7`; `nested` is not changed and no other field changes |
| `UnittestProto3.TestAllTypes.SetOneofUint32` | rust/test/shared/accessors_proto3_test.rs:178-180 | the union becomes `OneofUint32(x)` as `OneofField.SetOneofUint32` states; no other field changes |
| `UnittestProto3.TestAllTypes.ClearOneofUint32` | rust/test/shared/accessors_proto3_test.rs:182-184 | the union changes as `OneofField.ClearOneofUint32` states; no other field changes |
| `UnittestProto3.TestAllTypes.OneofNestedMessageMutOrDefault` | rust/test/shared/accessors_proto3_test.rs:186-189 | the union changes as `OneofField.OneofNestedMessageOrDefault` states; no other field changes |
| `UnittestProto3.TestAllTypes.SetOneofBytes` | rust/test/shared/accessors_proto3_test.rs:191-194 | the union becomes `OneofBytes(b)`; no other field changes |
| `UnittestProto3.TestAllTypes.ClearOneofBytes` | rust/test/shared/accessors_proto3_test.rs:196-197 | the union changes as `OneofField.ClearOneofBytes` states; no other field changes |
| `UnittestProto3.Foo.Case` | rust/test/shared/accessors_proto3_test.rs:226-231 | `foo_case()` is `FooEnum` exactly when `foo_enum` is active and `not_set` exactly when no member is |
| `UnittestProto3.Foo.FooEnumOpt` | rust/test/shared/accessors_proto3_test.rs:224-229 | `foo_enum_opt()` is `Set` exactly when `foo_enum` is active, with its value; otherwise `Unset(NestedEnum::Unknown)` |
| `UnittestProto3.Foo.SetFooEnum` | rust/test/shared/accessors_proto3_test.rs:228-231 | after `set_foo_enum(e)`, `foo_enum_opt() == Set(e)` and `foo_case()` is `FooEnum` |
| `UnittestProto3.TestOneof2.constructor` | rust/test/shared/accessors_proto3_test.rs:223-226 | `TestOneof2::new()` has `foo` `not_set` |
| `UnittestProto3.TestOneof2.SetFooEnum` | rust/test/shared/accessors_proto3_test.rs:228-231 | the union changes as `Foo.SetFooEnum` states |
| `UnittestProto3Optional.TestProto3Optional.constructor` | rust/test/shared/accessors_proto3_test.rs:64-66 | `TestProto3Optional::new()` has every field `Unset` with its default: empty bytes, empty string, `NestedEnum::Unspecified` |
| `UnittestProto3Optional.TestProto3Optional.SetOptionalBytes` | rust/test/shared/accessors_proto3_test.rs:68-81 | `set_optional_bytes(b)` makes `optional_bytes_opt()` `Set` of a copy of `b`, empty and non-UTF-8 bytes included; no other field changes |
| `UnittestProto3Optional.TestProto3Optional.SetOptionalString` | rust/test/shared/accessors_proto3_test.rs:110-123 | `set_optional_string(s)` makes `optional_string_opt()` `Set` of a copy of `s`, the empty string included; no other field changes |
| `UnittestProto3Optional.TestProto3Optional.SetOptionalNestedEnum` | rust/test/shared/accessors_proto3_test.rs:148-154 | `set_optional_nested_enum(e)` makes `optional_nested_enum_opt()` `Set(e)`, the default `Unspecified` included; no other field changes |
| `UnittestProto3Optional.RunReadsLastWrites` | rust/test/shared/accessors_proto3_test.rs:110-123 | after any sequence of setter calls, each explicit-presence field holds `Set` of the last value written to it, or its earlier state when nothing wrote it |
| `UnittestProto3Optional.ExplicitPresenceRecordsEveryWrite` | rust/test/shared/accessors_proto3_test.rs:64-154 | from a fresh message, each of `optional_bytes`, `optional_string` and `optional_nested_enum` reports `Unset` of its default until the first set, then `Set` of the last value written; once set, even to its default, it differs from a fresh message's field |
| `TestAllTypesHistory.RunReadsLastWrites` | rust/test/shared/accessors_proto3_test.rs:20-27 | after any sequence of calls, each implicit-presence field and the sub-message read the last value written to them, or their earlier value when nothing wrote them: later sets overwrite earlier ones and no call touches another field |
| `TestAllTypesHistory.DefaultWritesLeaveNoTrace` | rust/test/shared/accessors_proto3_test.rs:23-24 | a fresh message whose implicit-presence fields were set any number of times, each last to its zero value or never, equals a fresh message |
| `TestAllTypesHistory.OneofLastWriteWins` | rust/test/shared/accessors_proto3_test.rs:191-194 | after a call that activates a union member, followed by calls that do not touch the union, that member alone reports `Set` (with the value written, for `uint32` and `bytes`) and the others report `Unset` with their defaults |

The test methods of `AccessorsProto3Test` (`TestFixed32Accessors` through
`TestSubmsgSetter`) carry no contract of their own. Each one is the
corresponding `test_*` function of
`rust/test/shared/accessors_proto3_test.rs` (lines 16-28, 31-40, 43-60,
63-82, 85-102, 105-124, 127-138, 141-155, 158-169, 172-198, 217-232 and
235-245). Each `assert` in them mirrors one `assert_that!` of the test, and
the verifier proves it.

## Left out

- The test `test_oneof_accessors_view_long_lifetime` (lines 200-214) checks
  that a Rust borrow may outlive an intermediate view. Dafny's value
  semantics cannot express borrow lifetimes. `AsView()` models a view only
  as an immutable snapshot.
- The generated accessor code, the storage kernel behind it and the
  `.proto` schemas are not part of this model. The model describes only the
  behaviour the tests observe.
- The enums list only the enumerators the tests name, without numeric
  values. Open-enum behaviour (storing integers without a name) is left out.
- Fields, union members and accessors that the tests do not call are left
  out, with one exception: `OneofField.OneofNestedMessageOpt`
  (`oneof_nested_message_opt()`) is modelled although the tests never call
  it, because the union's transitions state the sub-message member's
  presence through it. The ones left out include the other members of `foo`, the plain getters of union
  members, `has_*`, `clear_*` on explicit-presence and implicit-presence
  fields, and `oneof_field_case()`.
- `UnittestProto3.TestAllTypes.OneofNestedMessageMutOrDefault`: the mutable
  handle the Rust call returns is not modelled, and neither are later
  changes made through it. The method only activates the member. The
  aliasing that such a handle implies would need a shared sub-message
  object.
- `UnittestProto3.OneofField.ClearOneofUint32` and
  `UnittestProto3.OneofField.ClearOneofBytes`: clearing a member that is
  not active is modelled as a no-op. The tests never do it.
- `UnittestProto3.TestAllTypes.SetOptionalNestedMessage`: Rust moves the
  argument into the parent. The model copies the argument's state and
  leaves the argument alive, which the moved-from value cannot show
  differently.
- UTF-8 validation of strings is left out: strings are sequences of `char`.
- Wire-format encoding and parsing, descriptors and reflection do not appear
  in the tests.
- The googletest matchers are left out. Each `assert_that!` is an `assert`,
  and `matches_pattern!(C(_))` is a constructor test `C?`.
