/** The messages of `unittest_proto3` that the proto3 accessor tests exercise:
    `TestAllTypes` (implicit-presence singular fields, a sub-message field and
    the `oneof_field` union), its `NestedMessage`, and `TestOneof2` with its
    `foo` union. Each message is a class whose fields the accessors update in
    place; `AsView()` is its immutable snapshot (the generated `...View`
    type). The mutators of `TestAllTypes` are specified as one step `Apply`
    of a pure state machine over those snapshots; those of `NestedMessage`
    and `TestOneof2` state their new snapshot directly. */
module UnittestProto3 {
  import opened Protobuf

  /** `TestAllTypes.NestedEnum`; `Zero` is its default enumerator. */
  datatype NestedEnum = Zero | Baz

  const DefaultNestedEnum: NestedEnum := Zero

  /** The file-level `ForeignEnum`; `ForeignZero` is its default enumerator. */
  datatype ForeignEnum = ForeignZero | ForeignBaz

  const DefaultForeignEnum: ForeignEnum := ForeignZero

  /** A snapshot of a `TestAllTypes.NestedMessage`. A parent holds its
      sub-messages by value, as snapshots of this type. */
  datatype NestedMessageView = NestedMessageView(bb: int32)

  /** `NestedMessage::new()`: every field at its default. */
  const DefaultNestedMessage: NestedMessageView := NestedMessageView(0)

  class NestedMessage {
    var bb: int32

    function AsView(): NestedMessageView
      reads this
    {
      NestedMessageView(bb)
    }

    constructor ()
      ensures AsView() == DefaultNestedMessage
    {
      bb := 0;
    }

    method SetBb(v: int32)
      modifies this
      ensures AsView() == NestedMessageView(v)
    {
      bb := v;
    }
  }

  /** The `oneof_field` union of `TestAllTypes`: no member, or exactly one
      member with its value. The representation itself makes the members
      mutually exclusive. */
  datatype OneofField =
    | NotSet
    | OneofUint32(uint32: uint32)
    | OneofNestedMessage(nestedMessage: NestedMessageView)
    | OneofBytes(bytes: Bytes)
  {
    /** `oneof_uint32_opt()`. */
    function OneofUint32Opt(): (r: Optional<uint32>)
      ensures r.IsSet() <==> this.OneofUint32?
      ensures this.OneofUint32? ==> r.IntoInner() == this.uint32
      ensures !this.OneofUint32? ==> r.IntoInner() == 0
    {
      if this.OneofUint32? then Set(this.uint32) else Unset(0)
    }

    /** `oneof_nested_message_opt()`. */
    function OneofNestedMessageOpt(): (r: Optional<NestedMessageView>)
      ensures r.IsSet() <==> this.OneofNestedMessage?
      ensures this.OneofNestedMessage? ==> r.IntoInner() == this.nestedMessage
      ensures !this.OneofNestedMessage? ==> r.IntoInner() == DefaultNestedMessage
    {
      if this.OneofNestedMessage? then Set(this.nestedMessage) else Unset(DefaultNestedMessage)
    }

    /** `oneof_bytes_opt()`. */
    function OneofBytesOpt(): (r: Optional<Bytes>)
      ensures r.IsSet() <==> this.OneofBytes?
      ensures this.OneofBytes? ==> r.IntoInner() == this.bytes
      ensures !this.OneofBytes? ==> r.IntoInner() == []
    {
      if this.OneofBytes? then Set(this.bytes) else Unset([])
    }

    /** `set_oneof_uint32(x)`: `oneof_uint32` becomes the active member,
        whatever was active before is discarded. */
    function SetOneofUint32(x: uint32): (r: OneofField)
      ensures r.OneofUint32Opt() == Set(x)
      ensures r.OneofNestedMessageOpt() == Unset(DefaultNestedMessage)
      ensures r.OneofBytesOpt() == Unset([])
    {
      OneofUint32(x)
    }

    /** `set_oneof_bytes(b)`. */
    function SetOneofBytes(b: Bytes): (r: OneofField)
      ensures r.OneofBytesOpt() == Set(b)
      ensures r.OneofUint32Opt() == Unset(0)
      ensures r.OneofNestedMessageOpt() == Unset(DefaultNestedMessage)
    {
      OneofBytes(b)
    }

    /** `oneof_nested_message_mut().or_default()`: activates
        `oneof_nested_message` with a default sub-message unless it is already
        the active member, in which case its value is kept. */
    function OneofNestedMessageOrDefault(): (r: OneofField)
      ensures r.OneofNestedMessageOpt().IsSet()
      ensures r.OneofNestedMessageOpt().IntoInner()
              == if this.OneofNestedMessage? then this.nestedMessage else DefaultNestedMessage
      ensures r.OneofUint32Opt() == Unset(0)
      ensures r.OneofBytesOpt() == Unset([])
    {
      if this.OneofNestedMessage? then this else OneofNestedMessage(DefaultNestedMessage)
    }

    /** `clear_oneof_uint32()`: returns the union to `not_set` when
        `oneof_uint32` is active and leaves any other state alone. */
    function ClearOneofUint32(): (r: OneofField)
      ensures r.OneofUint32Opt() == Unset(0)
      ensures this.OneofUint32? ==> r.NotSet?
      ensures !this.OneofUint32? ==> r == this
    {
      if this.OneofUint32? then NotSet else this
    }

    /** `clear_oneof_bytes()`. */
    function ClearOneofBytes(): (r: OneofField)
      ensures r.OneofBytesOpt() == Unset([])
      ensures this.OneofBytes? ==> r.NotSet?
      ensures !this.OneofBytes? ==> r == this
    {
      if this.OneofBytes? then NotSet else this
    }
  }

  /** At most one member of the union reports `Set`, and it is the active one. */
  lemma OneofMembersExclusive(o: OneofField)
    ensures o.NotSet? <==>
      !o.OneofUint32Opt().IsSet() && !o.OneofNestedMessageOpt().IsSet() && !o.OneofBytesOpt().IsSet()
    ensures o.OneofUint32Opt().IsSet() ==> !o.OneofNestedMessageOpt().IsSet() && !o.OneofBytesOpt().IsSet()
    ensures o.OneofNestedMessageOpt().IsSet() ==> !o.OneofBytesOpt().IsSet()
  {
  }

  /** An immutable snapshot of a `TestAllTypes`. The six scalar, bytes,
      string and enum fields have implicit presence: only the value is stored.
      `optional_nested_message` is a message field and so has explicit
      presence. */
  datatype TestAllTypesView = TestAllTypesView(
    optionalFixed32: uint32,
    optionalBool: bool,
    optionalBytes: Bytes,
    optionalString: string,
    optionalNestedEnum: NestedEnum,
    optionalForeignEnum: ForeignEnum,
    optionalNestedMessage: Optional<NestedMessageView>,
    oneofField: OneofField)
  {
    /** The snapshot after one mutator call. */
    function Apply(op: TestAllTypesMutation): TestAllTypesView {
      match op
      case SetOptionalFixed32(x) => this.(optionalFixed32 := x)
      case SetOptionalBool(b) => this.(optionalBool := b)
      case SetOptionalBytes(b) => this.(optionalBytes := b)
      case SetOptionalString(s) => this.(optionalString := s)
      case SetOptionalNestedEnum(e) => this.(optionalNestedEnum := e)
      case SetOptionalForeignEnum(e) => this.(optionalForeignEnum := e)
      case SetOptionalNestedMessage(n) => this.(optionalNestedMessage := Set(n))
      case SetOneofUint32(x) => this.(oneofField := oneofField.SetOneofUint32(x))
      case ClearOneofUint32 => this.(oneofField := oneofField.ClearOneofUint32())
      case OneofNestedMessageMutOrDefault => this.(oneofField := oneofField.OneofNestedMessageOrDefault())
      case SetOneofBytes(b) => this.(oneofField := oneofField.SetOneofBytes(b))
      case ClearOneofBytes => this.(oneofField := oneofField.ClearOneofBytes())
    }
  }

  /** The mutators of `TestAllTypes`, as data. */
  datatype TestAllTypesMutation =
    | SetOptionalFixed32(fixed32: uint32)
    | SetOptionalBool(boolean: bool)
    | SetOptionalBytes(bytes: Bytes)
    | SetOptionalString(str: string)
    | SetOptionalNestedEnum(nestedEnum: NestedEnum)
    | SetOptionalForeignEnum(foreignEnum: ForeignEnum)
    | SetOptionalNestedMessage(nestedMessage: NestedMessageView)
    | SetOneofUint32(uint32: uint32)
    | ClearOneofUint32
    | OneofNestedMessageMutOrDefault
    | SetOneofBytes(bytes: Bytes)
    | ClearOneofBytes
  {
    /** True for the mutators of `oneof_field`'s members. */
    predicate TouchesOneof() {
      SetOneofUint32? || ClearOneofUint32? || OneofNestedMessageMutOrDefault? || SetOneofBytes? || ClearOneofBytes?
    }

    /** True for the setters of the six implicit-presence fields. */
    predicate WritesImplicitField() {
      !TouchesOneof() && !SetOptionalNestedMessage?
    }
  }

  /** `TestAllTypes::new()`: every implicit-presence field at its zero value,
      the sub-message unset and the union `not_set`. */
  function NewTestAllTypes(): TestAllTypesView {
    TestAllTypesView(0, false, [], "", DefaultNestedEnum, DefaultForeignEnum,
                     Unset(DefaultNestedMessage), NotSet)
  }

  class TestAllTypes {
    var optionalFixed32: uint32
    var optionalBool: bool
    var optionalBytes: Bytes
    var optionalString: string
    var optionalNestedEnum: NestedEnum
    var optionalForeignEnum: ForeignEnum
    var optionalNestedMessage: Optional<NestedMessageView>
    var oneofField: OneofField

    /** `as_view()`: the message's state as an immutable value. */
    function AsView(): TestAllTypesView
      reads this
    {
      TestAllTypesView(optionalFixed32, optionalBool, optionalBytes, optionalString,
                       optionalNestedEnum, optionalForeignEnum, optionalNestedMessage, oneofField)
    }

    constructor ()
      ensures AsView() == NewTestAllTypes()
    {
      optionalFixed32, optionalBool, optionalBytes, optionalString := 0, false, [], "";
      optionalNestedEnum, optionalForeignEnum := DefaultNestedEnum, DefaultForeignEnum;
      optionalNestedMessage := Unset(DefaultNestedMessage);
      oneofField := NotSet;
    }

    // Getters.

    function OptionalFixed32(): uint32 reads this { optionalFixed32 }
    function OptionalBool(): bool reads this { optionalBool }
    function OptionalBytes(): Bytes reads this { optionalBytes }
    function OptionalString(): string reads this { optionalString }
    function OptionalNestedEnum(): NestedEnum reads this { optionalNestedEnum }
    function OptionalForeignEnum(): ForeignEnum reads this { optionalForeignEnum }
    /** The sub-message, or a default one when it is unset. */
    function OptionalNestedMessage(): NestedMessageView reads this { optionalNestedMessage.IntoInner() }
    /** `oneof_field()`: the union's active member and its value. */
    function OneofFieldValue(): OneofField reads this { oneofField }
    function OneofUint32Opt(): Optional<uint32> reads this { oneofField.OneofUint32Opt() }
    function OneofBytesOpt(): Optional<Bytes> reads this { oneofField.OneofBytesOpt() }

    // Mutators: each changes exactly what one step of `Apply` changes.

    method SetOptionalFixed32(x: uint32)
      modifies this
      ensures AsView() == old(AsView()).Apply(TestAllTypesMutation.SetOptionalFixed32(x))
    {
      optionalFixed32 := x;
    }

    method SetOptionalBool(b: bool)
      modifies this
      ensures AsView() == old(AsView()).Apply(TestAllTypesMutation.SetOptionalBool(b))
    {
      optionalBool := b;
    }

    /** Stores a copy of `b`: the caller's buffer is not retained. */
    method SetOptionalBytes(b: Bytes)
      modifies this
      ensures AsView() == old(AsView()).Apply(TestAllTypesMutation.SetOptionalBytes(b))
    {
      optionalBytes := b;
    }

    /** Stores a copy of `s`: the caller's buffer is not retained. */
    method SetOptionalString(s: string)
      modifies this
      ensures AsView() == old(AsView()).Apply(TestAllTypesMutation.SetOptionalString(s))
    {
      optionalString := s;
    }

    method SetOptionalNestedEnum(e: NestedEnum)
      modifies this
      ensures AsView() == old(AsView()).Apply(TestAllTypesMutation.SetOptionalNestedEnum(e))
    {
      optionalNestedEnum := e;
    }

    method SetOptionalForeignEnum(e: ForeignEnum)
      modifies this
      ensures AsView() == old(AsView()).Apply(TestAllTypesMutation.SetOptionalForeignEnum(e))
    {
      optionalForeignEnum := e;
    }

    /** Copies the state of `nested` into this message; `nested` itself is
        neither changed nor shared. */
    method SetOptionalNestedMessage(nested: NestedMessage)
      modifies this
      ensures AsView() == old(AsView()).Apply(TestAllTypesMutation.SetOptionalNestedMessage(old(nested.AsView())))
      ensures nested.AsView() == old(nested.AsView())
    {
      optionalNestedMessage := Set(nested.AsView());
    }

    method SetOneofUint32(x: uint32)
      modifies this
      ensures AsView() == old(AsView()).Apply(TestAllTypesMutation.SetOneofUint32(x))
    {
      oneofField := oneofField.SetOneofUint32(x);
    }

    method ClearOneofUint32()
      modifies this
      ensures AsView() == old(AsView()).Apply(TestAllTypesMutation.ClearOneofUint32)
    {
      oneofField := oneofField.ClearOneofUint32();
    }

    /** `oneof_nested_message_mut().or_default()`. */
    method OneofNestedMessageMutOrDefault()
      modifies this
      ensures AsView() == old(AsView()).Apply(TestAllTypesMutation.OneofNestedMessageMutOrDefault)
    {
      oneofField := oneofField.OneofNestedMessageOrDefault();
    }

    method SetOneofBytes(b: Bytes)
      modifies this
      ensures AsView() == old(AsView()).Apply(TestAllTypesMutation.SetOneofBytes(b))
    {
      oneofField := oneofField.SetOneofBytes(b);
    }

    method ClearOneofBytes()
      modifies this
      ensures AsView() == old(AsView()).Apply(TestAllTypesMutation.ClearOneofBytes)
    {
      oneofField := oneofField.ClearOneofBytes();
    }
  }

  /** `TestOneof2.NestedEnum`; `Unknown` is its default enumerator. */
  datatype TestOneof2NestedEnum = Unknown | Bar

  const DefaultTestOneof2NestedEnum: TestOneof2NestedEnum := Unknown

  /** The discriminant of the `foo` union, `foo_case()`. */
  datatype FooCase = FooNotSetCase | FooEnumCase

  /** The `foo` union of `TestOneof2`, of which the model covers the
      `foo_enum` member. */
  datatype Foo = FooNotSet | FooEnum(fooEnum: TestOneof2NestedEnum)
  {
    /** `foo_case()`: which member is active. */
    function Case(): (c: FooCase)
      ensures c == FooEnumCase <==> this.FooEnum?
      ensures c == FooNotSetCase <==> this.FooNotSet?
    {
      match this
      case FooNotSet => FooNotSetCase
      case FooEnum(_) => FooEnumCase
    }

    /** `foo_enum_opt()`. */
    function FooEnumOpt(): (r: Optional<TestOneof2NestedEnum>)
      ensures r.IsSet() <==> this.FooEnum?
      ensures this.FooEnum? ==> r.IntoInner() == this.fooEnum
      ensures !this.FooEnum? ==> r.IntoInner() == DefaultTestOneof2NestedEnum
    {
      if this.FooEnum? then Set(this.fooEnum) else Unset(DefaultTestOneof2NestedEnum)
    }

    /** `set_foo_enum(e)`. */
    function SetFooEnum(e: TestOneof2NestedEnum): (r: Foo)
      ensures r.FooEnumOpt() == Set(e)
      ensures r.Case() == FooEnumCase
    {
      FooEnum(e)
    }
  }

  /** An immutable snapshot of a `TestOneof2`. */
  datatype TestOneof2View = TestOneof2View(foo: Foo)

  class TestOneof2 {
    var foo: Foo

    function AsView(): TestOneof2View
      reads this
    {
      TestOneof2View(foo)
    }

    constructor ()
      ensures AsView() == TestOneof2View(FooNotSet)
    {
      foo := FooNotSet;
    }

    /** `foo()`: the union's active member and its value. */
    function FooValue(): Foo reads this { foo }
    function FooCase(): FooCase reads this { foo.Case() }
    function FooEnumOpt(): Optional<TestOneof2NestedEnum> reads this { foo.FooEnumOpt() }

    method SetFooEnum(e: TestOneof2NestedEnum)
      modifies this
      ensures AsView() == TestOneof2View(old(foo).SetFooEnum(e))
    {
      foo := foo.SetFooEnum(e);
    }
  }
}
