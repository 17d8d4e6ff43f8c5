/** Properties of `TestAllTypes` over whole sequences of mutator calls, as the
    accessor tests make them: every field reads the last value written to it,
    calls on one field never disturb another, an implicit-presence field that
    was set back to its zero value keeps no trace of having been set, and the
    last write to the `oneof_field` union wins. */
module TestAllTypesHistory {
  import opened Protobuf
  import opened History
  import opened UnittestProto3

  /** The snapshot after the calls in `ops`, in order. */
  function Run(m: TestAllTypesView, ops: seq<TestAllTypesMutation>): TestAllTypesView
    decreases |ops|
  {
    if ops == [] then m else Run(m.Apply(ops[0]), ops[1..])
  }

  // What one call writes to each field outside the union (`None` if it
  // writes nothing there). A write to the explicit-presence sub-message
  // stores `Set(value)`.

  function WrittenFixed32(op: TestAllTypesMutation): Option<uint32> {
    if op.SetOptionalFixed32? then Some(op.fixed32) else None
  }

  function WrittenBool(op: TestAllTypesMutation): Option<bool> {
    if op.SetOptionalBool? then Some(op.boolean) else None
  }

  function WrittenBytes(op: TestAllTypesMutation): Option<Bytes> {
    if op.SetOptionalBytes? then Some(op.bytes) else None
  }

  function WrittenString(op: TestAllTypesMutation): Option<string> {
    if op.SetOptionalString? then Some(op.str) else None
  }

  function WrittenNestedEnum(op: TestAllTypesMutation): Option<NestedEnum> {
    if op.SetOptionalNestedEnum? then Some(op.nestedEnum) else None
  }

  function WrittenForeignEnum(op: TestAllTypesMutation): Option<ForeignEnum> {
    if op.SetOptionalForeignEnum? then Some(op.foreignEnum) else None
  }

  function WrittenNestedMessage(op: TestAllTypesMutation): Option<Optional<NestedMessageView>> {
    if op.SetOptionalNestedMessage? then Some(Set(op.nestedMessage)) else None
  }

  /** Running `a` and then `b` is running `a + b`. */
  lemma {:induction false} RunConcat(m: TestAllTypesView, a: seq<TestAllTypesMutation>, b: seq<TestAllTypesMutation>)
    ensures Run(m, a + b) == Run(Run(m, a), b)
    decreases |a|
  {
    if a != [] {
      assert (a + b)[1..] == a[1..] + b;
      RunConcat(m.Apply(a[0]), a[1..], b);
    } else {
      assert a + b == b;
    }
  }

  /** After any sequence of calls, each field outside the union reads the last
      value written to it, or its value before the calls when none wrote it:
      later sets overwrite earlier ones, and no call touches another field. */
  lemma {:induction false} RunReadsLastWrites(m: TestAllTypesView, ops: seq<TestAllTypesMutation>)
    ensures Run(m, ops).optionalFixed32 == LastOr(Writes(ops, WrittenFixed32), m.optionalFixed32)
    ensures Run(m, ops).optionalBool == LastOr(Writes(ops, WrittenBool), m.optionalBool)
    ensures Run(m, ops).optionalBytes == LastOr(Writes(ops, WrittenBytes), m.optionalBytes)
    ensures Run(m, ops).optionalString == LastOr(Writes(ops, WrittenString), m.optionalString)
    ensures Run(m, ops).optionalNestedEnum == LastOr(Writes(ops, WrittenNestedEnum), m.optionalNestedEnum)
    ensures Run(m, ops).optionalForeignEnum == LastOr(Writes(ops, WrittenForeignEnum), m.optionalForeignEnum)
    ensures Run(m, ops).optionalNestedMessage
            == LastOr(Writes(ops, WrittenNestedMessage), m.optionalNestedMessage)
    decreases |ops|
  {
    if ops != [] {
      var op, m' := ops[0], m.Apply(ops[0]);
      RunReadsLastWrites(m', ops[1..]);
      ApplyWritesOneField(m, op);
      LastWriteStep(ops, WrittenFixed32, m.optionalFixed32, m'.optionalFixed32);
      LastWriteStep(ops, WrittenBool, m.optionalBool, m'.optionalBool);
      LastWriteStep(ops, WrittenBytes, m.optionalBytes, m'.optionalBytes);
      LastWriteStep(ops, WrittenString, m.optionalString, m'.optionalString);
      LastWriteStep(ops, WrittenNestedEnum, m.optionalNestedEnum, m'.optionalNestedEnum);
      LastWriteStep(ops, WrittenForeignEnum, m.optionalForeignEnum, m'.optionalForeignEnum);
      LastWriteStep(ops, WrittenNestedMessage, m.optionalNestedMessage, m'.optionalNestedMessage);
    }
  }

  /** One call writes at most one field outside the union, with the value
      its selector names. */
  lemma ApplyWritesOneField(m: TestAllTypesView, op: TestAllTypesMutation)
    ensures m.Apply(op).optionalFixed32 == LastOr(Writes([op], WrittenFixed32), m.optionalFixed32)
    ensures m.Apply(op).optionalBool == LastOr(Writes([op], WrittenBool), m.optionalBool)
    ensures m.Apply(op).optionalBytes == LastOr(Writes([op], WrittenBytes), m.optionalBytes)
    ensures m.Apply(op).optionalString == LastOr(Writes([op], WrittenString), m.optionalString)
    ensures m.Apply(op).optionalNestedEnum == LastOr(Writes([op], WrittenNestedEnum), m.optionalNestedEnum)
    ensures m.Apply(op).optionalForeignEnum == LastOr(Writes([op], WrittenForeignEnum), m.optionalForeignEnum)
    ensures m.Apply(op).optionalNestedMessage
            == LastOr(Writes([op], WrittenNestedMessage), m.optionalNestedMessage)
  {
    assert [op][1..] == [];
  }

  /** Calls that do not touch the union leave it as it was. */
  lemma {:induction false} RunKeepsUntouchedOneof(m: TestAllTypesView, ops: seq<TestAllTypesMutation>)
    requires forall i :: 0 <= i < |ops| ==> !ops[i].TouchesOneof()
    ensures Run(m, ops).oneofField == m.oneofField
    decreases |ops|
  {
    if ops != [] {
      RunKeepsUntouchedOneof(m.Apply(ops[0]), ops[1..]);
    }
  }

  /** Implicit presence: a fresh message whose implicit-presence fields were
      set any number of times, each one last to its zero value (or never),
      equals a fresh message. Nothing records that a set ever happened. */
  lemma DefaultWritesLeaveNoTrace(ops: seq<TestAllTypesMutation>)
    requires forall i :: 0 <= i < |ops| ==> ops[i].WritesImplicitField()
    requires LastOr(Writes(ops, WrittenFixed32), 0) == 0
    requires LastOr(Writes(ops, WrittenBool), false) == false
    requires LastOr(Writes(ops, WrittenBytes), []) == []
    requires LastOr(Writes(ops, WrittenString), "") == ""
    requires LastOr(Writes(ops, WrittenNestedEnum), DefaultNestedEnum) == DefaultNestedEnum
    requires LastOr(Writes(ops, WrittenForeignEnum), DefaultForeignEnum) == DefaultForeignEnum
    ensures Run(NewTestAllTypes(), ops) == NewTestAllTypes()
  {
    var m := NewTestAllTypes();
    RunReadsLastWrites(m, ops);
    RunKeepsUntouchedOneof(m, ops);
    NoNestedMessageWrites(ops);
  }

  /** Calls that only write implicit-presence fields never write the
      sub-message. */
  lemma {:induction false} NoNestedMessageWrites(ops: seq<TestAllTypesMutation>)
    requires forall i :: 0 <= i < |ops| ==> ops[i].WritesImplicitField()
    ensures Writes(ops, WrittenNestedMessage) == []
    decreases |ops|
  {
    if ops != [] {
      NoNestedMessageWrites(ops[1..]);
    }
  }

  /** Last write wins on `oneof_field`: after a call that makes a member active,
      followed by any calls that do not touch the union, that member is the
      active one and every other member reports `Unset` with its default. */
  lemma OneofLastWriteWins(m: TestAllTypesView, before: seq<TestAllTypesMutation>,
                           op: TestAllTypesMutation, after: seq<TestAllTypesMutation>)
    requires op.SetOneofUint32? || op.SetOneofBytes? || op.OneofNestedMessageMutOrDefault?
    requires forall i :: 0 <= i < |after| ==> !after[i].TouchesOneof()
    ensures Run(m, before + [op] + after).oneofField.OneofUint32Opt()
            == if op.SetOneofUint32? then Set(op.uint32) else Unset(0)
    ensures Run(m, before + [op] + after).oneofField.OneofBytesOpt()
            == if op.SetOneofBytes? then Set(op.bytes) else Unset([])
    ensures Run(m, before + [op] + after).oneofField.OneofNestedMessageOpt().IsSet()
            <==> op.OneofNestedMessageMutOrDefault?
  {
    var mid := Run(m, before);
    RunConcat(m, before + [op], after);
    RunConcat(m, before, [op]);
    assert Run(mid, [op]) == mid.Apply(op);
    RunKeepsUntouchedOneof(mid.Apply(op), after);
  }
}
