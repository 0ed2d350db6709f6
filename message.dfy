/**
 * The structured-message iterator that the lookup table writes to and reads
 * from (IBusMessageIter over a D-Bus message). The message body is modelled
 * as a tree of values (the D-Bus type system: basic values, and Variant,
 * Struct and Array containers carrying their children).
 *
 * Writing: a MessageWriter holds the values already written at the level of
 * the caller's iterator and the stack of containers opened below it, innermost
 * last; this stack is the chain of sub-iterators that open_container and
 * close_container create and retire. Every primitive call is numbered, and
 * the calls whose numbers are in `faults` fail (no effect, result false):
 * the model of whatever makes a real primitive fail.
 *
 * Reading: a read iterator is the sequence of values from its current
 * position to the end of its container.
 */
module IBusMessage {
  import opened IBusAttrList

  datatype Option<T> = None | Some(value: T)

  newtype int32 = x: int | -0x8000_0000 <= x < 0x8000_0000

  datatype Kind = Variant | Struct | Array

  datatype Value =
    | Int32(i: int32)
    | Boolean(b: bool)
    | Str(s: string)
      /** An attribute list, as written by its own serializer (kept abstract). */
    | AttrListValue(attributes: seq<Attribute>)
    | Container(kind: Kind, signature: string, items: seq<Value>)

  // ---------------------------------------------------------------- writing

  datatype Frame = Frame(kind: Kind, signature: string, items: seq<Value>)

  /** `items`: what has been written at the caller's level; `open`: the open containers, innermost last. */
  datatype WriterState = WriterState(items: seq<Value>, open: seq<Frame>)

  /** Appends `vs` to the innermost open container, or to the caller's level when none is open. */
  function Emit(s: WriterState, vs: seq<Value>): WriterState {
    if s.open == [] then s.(items := s.items + vs)
    else
      var top := s.open[|s.open| - 1];
      s.(open := s.open[..|s.open| - 1] + [top.(items := top.items + vs)])
  }

  function Put(s: WriterState, v: Value): WriterState {
    Emit(s, [v])
  }

  function Push(s: WriterState, kind: Kind, signature: string): WriterState {
    s.(open := s.open + [Frame(kind, signature, [])])
  }

  /** Closes the innermost open container and writes it, complete, into its parent. */
  function Pop(s: WriterState): WriterState
    requires s.open != []
  {
    var top := s.open[|s.open| - 1];
    Put(s.(open := s.open[..|s.open| - 1]), Container(top.kind, top.signature, top.items))
  }

  /** One primitive call. `checked` is false for a write whose result the caller ignores. */
  datatype Op = Open(kind: Kind, signature: string) | Write(v: Value, checked: bool) | Close

  predicate Checked(op: Op) {
    !op.Write? || op.checked
  }

  /** The effect of a primitive that is not faulted; closing with nothing open has none. */
  function Perform(s: WriterState, op: Op): Option<WriterState> {
    match op
    case Open(kind, signature) => Some(Push(s, kind, signature))
    case Write(v, _) => Some(Put(s, v))
    case Close => if s.open == [] then None else Some(Pop(s))
  }

  predicate Succeeds(s: WriterState, calls: nat, faults: set<nat>, op: Op) {
    calls !in faults && Perform(s, op).Some?
  }

  function After(s: WriterState, calls: nat, faults: set<nat>, op: Op): WriterState {
    if Succeeds(s, calls, faults, op) then Perform(s, op).value else s
  }

  datatype Outcome = Outcome(ok: bool, state: WriterState, calls: nat)

  /**
   * Issues `ops` in order, starting at call number `calls`, and stops at the
   * first checked primitive that fails, without undoing anything.
   */
  function Run(s: WriterState, calls: nat, faults: set<nat>, ops: seq<Op>): Outcome
    decreases |ops|
  {
    if ops == [] then Outcome(true, s, calls)
    else if Checked(ops[0]) && !Succeeds(s, calls, faults, ops[0]) then Outcome(false, s, calls + 1)
    else Run(After(s, calls, faults, ops[0]), calls + 1, faults, ops[1..])
  }

  class MessageWriter {
    var state: WriterState
    var calls: nat
    const faults: set<nat>

    /** An empty message body whose primitive calls numbered in `faults` will fail. */
    constructor (faults: set<nat>)
      ensures state == WriterState([], []) && calls == 0 && this.faults == faults
    {
      state := WriterState([], []);
      calls := 0;
      this.faults := faults;
    }

    /** ibus_message_iter_open_container on the innermost iterator. */
    method OpenContainer(kind: Kind, signature: string) returns (ok: bool)
      modifies this
      ensures ok == Succeeds(old(state), old(calls), faults, Open(kind, signature))
      ensures state == After(old(state), old(calls), faults, Open(kind, signature))
      ensures calls == old(calls) + 1
    {
      ok := calls !in faults;
      if ok {
        state := Push(state, kind, signature);
      }
      calls := calls + 1;
    }

    /** ibus_message_iter_append of one basic value on the innermost iterator. */
    method Append(v: Value) returns (ok: bool)
      modifies this
      ensures ok == Succeeds(old(state), old(calls), faults, Write(v, true))
      ensures state == After(old(state), old(calls), faults, Write(v, true))
      ensures calls == old(calls) + 1
    {
      ok := calls !in faults;
      if ok {
        state := Put(state, v);
      }
      calls := calls + 1;
    }

    /** ibus_message_iter_close_container of the innermost iterator into its parent. */
    method CloseContainer() returns (ok: bool)
      modifies this
      ensures ok == Succeeds(old(state), old(calls), faults, Close)
      ensures state == After(old(state), old(calls), faults, Close)
      ensures calls == old(calls) + 1
    {
      ok := calls !in faults && state.open != [];
      if ok {
        state := Pop(state);
      }
      calls := calls + 1;
    }
  }

  // ---------------------------------------------------------------- reading

  datatype TypeCode = InvalidType | Int32Type | BooleanType | StringType | AttrListType | ContainerType(kind: Kind)

  /** ibus_message_iter_get_arg_type: InvalidType once the iterator is past the last value. */
  function ArgType(it: seq<Value>): TypeCode {
    if it == [] then InvalidType
    else match it[0]
      case Int32(_) => Int32Type
      case Boolean(_) => BooleanType
      case Str(_) => StringType
      case AttrListValue(_) => AttrListType
      case Container(kind, _, _) => ContainerType(kind)
  }

  /** ibus_message_iter_recurse: an iterator over the current container's children; `it` stays where it is. */
  function Recurse(it: seq<Value>, kind: Kind): Option<seq<Value>> {
    if ArgType(it) == ContainerType(kind) then Some(it[0].items) else None
  }

  /** ibus_message_iter_next. */
  function Next(it: seq<Value>): seq<Value> {
    if it == [] then [] else it[1..]
  }

  // ibus_message_iter_get for each basic type: the value, and the iterator moved past it.

  function GetInt32(it: seq<Value>): Option<(int32, seq<Value>)> {
    if ArgType(it) == Int32Type then Some((it[0].i, it[1..])) else None
  }

  function GetBoolean(it: seq<Value>): Option<(bool, seq<Value>)> {
    if ArgType(it) == BooleanType then Some((it[0].b, it[1..])) else None
  }

  function GetString(it: seq<Value>): Option<(string, seq<Value>)> {
    if ArgType(it) == StringType then Some((it[0].s, it[1..])) else None
  }

  /** ibus_message_iter_get of an attribute list: its deserializer builds a fresh list with one reference. */
  method GetAttrList(it: seq<Value>) returns (a: AttrList?, rest: seq<Value>)
    ensures a == null <==> ArgType(it) != AttrListType
    ensures a != null ==> fresh(a) && a.attributes == it[0].attributes && a.refcount == 1 && rest == it[1..]
  {
    if ArgType(it) == AttrListType {
      a := new AttrList.Decoded(it[0].attributes);
      rest := it[1..];
    } else {
      a, rest := null, it;
    }
  }
}
