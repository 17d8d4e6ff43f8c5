/** Value types of the Rust protobuf runtime as the generated accessors use
    them: fixed-width integers, byte strings, and the `Optional` that the
    `_opt` accessors of explicit-presence fields return. */
module Protobuf {

  /** Rust `u32`: the type of `fixed32` and `uint32` fields. */
  type uint32 = x: int | 0 <= x < 0x1_0000_0000

  /** Rust `i32`: the type of `int32` fields. */
  type int32 = x: int | -0x8000_0000 <= x < 0x8000_0000

  /** Rust `u8`. */
  type uint8 = x: int | 0 <= x < 0x100

  /** The contents of a `bytes` field: any sequence of octets, UTF-8 or not. */
  type Bytes = seq<uint8>

  /** What an `_opt` accessor returns. `Unset` still carries a value, the
      field's default, so that a caller can use it without branching. */
  datatype Optional<T> = Set(v: T) | Unset(v: T) {

    /** True when the field has been explicitly set (to any value, its
        default included). */
    predicate IsSet() {
      Set?
    }

    /** The value the plain getter returns: the stored value if set, the
        default otherwise. */
    function IntoInner(): T {
      v
    }
  }
}

/** Helpers for reasoning about sequences of writes to one field. */
module History {

  datatype Option<T> = None | Some(value: T)

  /** The values that the operations in `ops` write to one field, in order;
      `written(op)` says what one operation writes there, if anything. */
  function Writes<Op, T>(ops: seq<Op>, written: Op -> Option<T>): seq<T>
    decreases |ops|
  {
    if ops == [] then []
    else
      (match written(ops[0]) case Some(x) => [x] case None => [])
      + Writes(ops[1..], written)
  }

  /** The last value in `writes`, or `init` when there is none. */
  function LastOr<T>(writes: seq<T>, init: T): T {
    if writes == [] then init else writes[|writes| - 1]
  }

  /** The writes of `a + b` are the writes of `a` followed by those of `b`,
      in that order. */
  lemma {:induction false} WritesConcat<Op, T>(a: seq<Op>, b: seq<Op>, written: Op -> Option<T>)
    ensures Writes(a + b, written) == Writes(a, written) + Writes(b, written)
    decreases |a|
  {
    if a == [] {
      assert a + b == b;
    } else {
      assert (a + b)[1..] == a[1..] + b;
      WritesConcat(a[1..], b, written);
    }
  }

  /** The last write of `ops` when its first operation leaves `next`: the
      last write of the rest, starting from `next`. */
  lemma LastWriteStep<Op, T>(ops: seq<Op>, written: Op -> Option<T>, init: T, next: T)
    requires ops != []
    requires next == LastOr(Writes([ops[0]], written), init)
    ensures LastOr(Writes(ops, written), init) == LastOr(Writes(ops[1..], written), next)
  {
    assert ops == [ops[0]] + ops[1..];
    WritesConcat([ops[0]], ops[1..], written);
    LastOrAppend(Writes([ops[0]], written), Writes(ops[1..], written), init);
  }

  /** Writing `first` and then `rest` leaves what `rest` leaves, starting
      from what `first` left. */
  lemma LastOrAppend<T>(first: seq<T>, rest: seq<T>, init: T)
    ensures LastOr(first + rest, init) == LastOr(rest, LastOr(first, init))
  {
    if rest != [] {
      assert (first + rest)[|first + rest| - 1] == rest[|rest| - 1];
    }
  }
}
