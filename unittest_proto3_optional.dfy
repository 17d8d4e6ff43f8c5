/** `TestProto3Optional` of `unittest_proto3_optional`: proto3 fields declared
    `optional`, which have explicit presence. Each such field stores an
    `Optional`: `Unset(default)` until it is first set, `Set(v)` after a set
    to `v`, the default value included. */
module UnittestProto3Optional {
  import opened Protobuf
  import opened History

  /** `TestProto3Optional.NestedEnum`; `Unspecified` is its default
      enumerator. */
  datatype NestedEnum = Unspecified | Baz

  const DefaultNestedEnum: NestedEnum := Unspecified

  /** An immutable snapshot of a `TestProto3Optional`. */
  datatype TestProto3OptionalView = TestProto3OptionalView(
    optionalBytes: Optional<Bytes>,
    optionalString: Optional<string>,
    optionalNestedEnum: Optional<NestedEnum>)
  {
    /** The snapshot after one setter call: the field becomes `Set`. */
    function Apply(op: TestProto3OptionalMutation): TestProto3OptionalView {
      match op
      case SetOptionalBytes(b) => this.(optionalBytes := Set(b))
      case SetOptionalString(s) => this.(optionalString := Set(s))
      case SetOptionalNestedEnum(e) => this.(optionalNestedEnum := Set(e))
    }
  }

  /** The setters of `TestProto3Optional`, as data. */
  datatype TestProto3OptionalMutation =
    | SetOptionalBytes(bytes: Bytes)
    | SetOptionalString(str: string)
    | SetOptionalNestedEnum(nestedEnum: NestedEnum)

  /** `TestProto3Optional::new()`: every field unset, carrying its default. */
  function NewTestProto3Optional(): TestProto3OptionalView {
    TestProto3OptionalView(Unset([]), Unset(""), Unset(DefaultNestedEnum))
  }

  class TestProto3Optional {
    var optionalBytes: Optional<Bytes>
    var optionalString: Optional<string>
    var optionalNestedEnum: Optional<NestedEnum>

    function AsView(): TestProto3OptionalView
      reads this
    {
      TestProto3OptionalView(optionalBytes, optionalString, optionalNestedEnum)
    }

    constructor ()
      ensures AsView() == NewTestProto3Optional()
    {
      optionalBytes, optionalString, optionalNestedEnum := Unset([]), Unset(""), Unset(DefaultNestedEnum);
    }

    // Getters: the plain getter returns the value whether set or not.

    function OptionalBytes(): Bytes reads this { optionalBytes.IntoInner() }
    function OptionalBytesOpt(): Optional<Bytes> reads this { optionalBytes }
    function OptionalString(): string reads this { optionalString.IntoInner() }
    function OptionalStringOpt(): Optional<string> reads this { optionalString }
    function OptionalNestedEnum(): NestedEnum reads this { optionalNestedEnum.IntoInner() }
    function OptionalNestedEnumOpt(): Optional<NestedEnum> reads this { optionalNestedEnum }

    /** Stores a copy of `b`: the caller's buffer is not retained. */
    method SetOptionalBytes(b: Bytes)
      modifies this
      ensures AsView() == old(AsView()).Apply(TestProto3OptionalMutation.SetOptionalBytes(b))
    {
      optionalBytes := Set(b);
    }

    /** Stores a copy of `s`: the caller's buffer is not retained. */
    method SetOptionalString(s: string)
      modifies this
      ensures AsView() == old(AsView()).Apply(TestProto3OptionalMutation.SetOptionalString(s))
    {
      optionalString := Set(s);
    }

    method SetOptionalNestedEnum(e: NestedEnum)
      modifies this
      ensures AsView() == old(AsView()).Apply(TestProto3OptionalMutation.SetOptionalNestedEnum(e))
    {
      optionalNestedEnum := Set(e);
    }
  }

  /** The snapshot after the calls in `ops`, in order. */
  function Run(m: TestProto3OptionalView, ops: seq<TestProto3OptionalMutation>): TestProto3OptionalView
    decreases |ops|
  {
    if ops == [] then m else Run(m.Apply(ops[0]), ops[1..])
  }

  // What one call stores in each field (`None` if it does not write there).

  function WrittenBytes(op: TestProto3OptionalMutation): Option<Optional<Bytes>> {
    if op.SetOptionalBytes? then Some(Set(op.bytes)) else None
  }

  function WrittenString(op: TestProto3OptionalMutation): Option<Optional<string>> {
    if op.SetOptionalString? then Some(Set(op.str)) else None
  }

  function WrittenNestedEnum(op: TestProto3OptionalMutation): Option<Optional<NestedEnum>> {
    if op.SetOptionalNestedEnum? then Some(Set(op.nestedEnum)) else None
  }

  /** After any sequence of setter calls, each field holds what the last call
      that wrote it stored, or what it held before when no call wrote it. */
  lemma {:induction false} RunReadsLastWrites(m: TestProto3OptionalView, ops: seq<TestProto3OptionalMutation>)
    ensures Run(m, ops).optionalBytes == LastOr(Writes(ops, WrittenBytes), m.optionalBytes)
    ensures Run(m, ops).optionalString == LastOr(Writes(ops, WrittenString), m.optionalString)
    ensures Run(m, ops).optionalNestedEnum == LastOr(Writes(ops, WrittenNestedEnum), m.optionalNestedEnum)
    decreases |ops|
  {
    if ops != [] {
      var op, m' := ops[0], m.Apply(ops[0]);
      RunReadsLastWrites(m', ops[1..]);
      assert [op][1..] == [];
      LastWriteStep(ops, WrittenBytes, m.optionalBytes, m'.optionalBytes);
      LastWriteStep(ops, WrittenString, m.optionalString, m'.optionalString);
      LastWriteStep(ops, WrittenNestedEnum, m.optionalNestedEnum, m'.optionalNestedEnum);
    }
  }

  /** Explicit presence: from a fresh message, each field reports
      `Unset(default)` while no call has written it. Once written, to any
      value and its default included, it reports `Set` of the last value
      written and differs from a fresh message's field. */
  lemma ExplicitPresenceRecordsEveryWrite(ops: seq<TestProto3OptionalMutation>)
    ensures var w := Writes(ops, WrittenBytes);
      Run(NewTestProto3Optional(), ops).optionalBytes == if w == [] then Unset([]) else w[|w| - 1]
    ensures var w := Writes(ops, WrittenString);
      Run(NewTestProto3Optional(), ops).optionalString == if w == [] then Unset("") else w[|w| - 1]
    ensures var w := Writes(ops, WrittenNestedEnum);
      Run(NewTestProto3Optional(), ops).optionalNestedEnum
      == if w == [] then Unset(DefaultNestedEnum) else w[|w| - 1]
    ensures Writes(ops, WrittenBytes) != [] ==>
      Run(NewTestProto3Optional(), ops).optionalBytes.IsSet() &&
      Run(NewTestProto3Optional(), ops).optionalBytes != NewTestProto3Optional().optionalBytes
    ensures Writes(ops, WrittenString) != [] ==>
      Run(NewTestProto3Optional(), ops).optionalString.IsSet() &&
      Run(NewTestProto3Optional(), ops).optionalString != NewTestProto3Optional().optionalString
    ensures Writes(ops, WrittenNestedEnum) != [] ==>
      Run(NewTestProto3Optional(), ops).optionalNestedEnum.IsSet() &&
      Run(NewTestProto3Optional(), ops).optionalNestedEnum != NewTestProto3Optional().optionalNestedEnum
  {
    RunReadsLastWrites(NewTestProto3Optional(), ops);
    WritesAreSets(ops);
  }

  /** Every value a setter stores in a field is `Set`. */
  lemma {:induction false} WritesAreSets(ops: seq<TestProto3OptionalMutation>)
    ensures forall k :: 0 <= k < |Writes(ops, WrittenBytes)| ==> Writes(ops, WrittenBytes)[k].IsSet()
    ensures forall k :: 0 <= k < |Writes(ops, WrittenString)| ==> Writes(ops, WrittenString)[k].IsSet()
    ensures forall k :: 0 <= k < |Writes(ops, WrittenNestedEnum)| ==> Writes(ops, WrittenNestedEnum)[k].IsSet()
    decreases |ops|
  {
    if ops != [] {
      WritesAreSets(ops[1..]);
    }
  }
}
