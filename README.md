# IBus lookup table, modelled in Dafny

This project models the lookup table of the IBus input-method framework,
`src/ibuslookuptable.c`. A lookup table is a reference-counted record. It holds
a page size, a cursor position, a cursor-visible flag and an ordered array of
candidates. Each candidate is a text plus a shared, reference-counted
attribute list. The file also holds an encoder and a decoder between a table
and a nested D-Bus value. The value follows the "Type System" section of the
D-Bus Specification:

    Variant "(iiba(sv))"
      Struct
        Int32 page_size, Int32 cursor_pos, Boolean cursor_visible,
        Array "(sv)" of Struct(String text, attribute list), one per candidate

Modules, one file each:

- `attr_list.dfy` (`IBusAttrList`): the attribute list, a collaborator kept
  opaque. It has an identity, a reference count, its entries (compared by
  value only) and an emptiness test.
- `message.dfy` (`IBusMessage`): the message iterator the table uses.
  - A message body is a tree of `Value`s.
  - A `MessageWriter` holds the values written at the caller's level and the
    stack of containers still open. That stack is the chain of sub-iterators
    of the source.
  - Each primitive call has a number. The calls numbered in the writer's
    `faults` set fail. A faulted call is modelled as having no effect: it
    writes nothing and returns false.
  - `Run` is the reference meaning of a sequence of calls. It stops at the
    first checked call that fails, as `g_return_val_if_fail` does.
  - Reader primitives are functions on the sequence of values from the
    iterator's position to the end of its container.
- `lookup_table.dfy` (`IBusLookupTable`): the `LookupTable` class.
  - Its methods are new, copy, ref, unref and append_candidate.
  - Releasing memory is modelled by ghost logs. `freed` marks that the table
    itself was released. `releasedTexts` and `releasedAttrLists` record each
    text freed and each attribute-list reference given back, in order.
  - `Image()` is the part of a table that the wire format carries.
- `wire.dfy` (`LookupTableWire`): the wire grammar, as pure definitions.
  - `Script` is the sequence of calls the encoder makes.
  - `Encode` is the tree those calls build.
  - `Decode` is the reading the decoder performs.
  - The lemmas tie these three together for every fault set.
- `codec.dfy` (`LookupTableCodec`): the encoder and decoder as imperative
  methods.
  - `Serialize` is proved to make the calls of `Script` in order, stopping at
    the first checked one that fails.
  - `Deserialize` is proved to build a table exactly when `Decode` reads one.
  - A few client methods replay the scenarios of the file's API.

Quirks of the source that the model keeps:

- copy drops the candidates.
- The three scalar writes are unchecked. A failed one still lets serialize
  report success. Under the fault model above it leaves a value that does not decode
  (`LookupTableWire.UncheckedScalarFault`).
- The decoder ignores signatures and any trailing fields.
- A decoder failure inside the candidate loop drops the table already built.
  That table is never released.

The decoder's reading of the iterator primitives is inferred from how this
file uses them, because `ibusmessage.c` is not part of this model. A get reads
one value and moves past it. `recurse` gives an iterator over the current
container's children and leaves the parent where it is: the loop at
src/ibuslookuptable.c:145-161 moves along the array with an explicit
`ibus_message_iter_next`.

## Model

| member | source | states |
|---|---|---|
| IBusAttrList.AttrList.New | src/ibuslookuptable.c:109 | a list made for a candidate given no list is empty and has one reference |
| IBusAttrList.AttrList.Decoded | src/ibuslookuptable.c:156 | a list read from a message carries the entries read and has one reference |
| IBusAttrList.AttrList.Ref | src/ibuslookuptable.c:107 | taking a reference raises the list's count by exactly one |
| IBusAttrList.AttrList.Unref | src/ibuslookuptable.c:87 | giving a reference back lowers the list's count by exactly one |
| IBusMessage.MessageWriter.constructor | src/ibuslookuptable.c:167-168 | a writer over an empty body: nothing written, nothing open, no call made yet |
| IBusMessage.MessageWriter.OpenContainer | src/ibuslookuptable.c:177-191 | the result is true exactly when the call is not faulted; the new container is then open innermost, and otherwise nothing changes |
| IBusMessage.MessageWriter.Append | src/ibuslookuptable.c:183-198 | the result is true exactly when the call is not faulted; the value is then written into the innermost open container, and otherwise nothing changes |
| IBusMessage.MessageWriter.CloseContainer | src/ibuslookuptable.c:201-211 | the result is true exactly when the call is not faulted and a container is open; the innermost container is then written, complete, into its parent |
| IBusMessage.GetAttrList | src/ibuslookuptable.c:156-157 | fails exactly when the current value is not an attribute list; otherwise returns a fresh list with one reference holding that value's entries |
| IBusLookupTable.LookupTable.constructor | src/ibuslookuptable.c:44-56 | a live table with one reference, the given page size, cursor position and flag, and no candidates |
| IBusLookupTable.LookupTable.Copy | src/ibuslookuptable.c:58-63 | a fresh live table with one reference and the same three scalars, but no candidates whatever the source holds |
| IBusLookupTable.Ref | src/ibuslookuptable.c:65-73 | returns its argument; on a table, the count rises by exactly one, no other field changes and liveness is kept |
| IBusLookupTable.Unref | src/ibuslookuptable.c:75-93 | the count drops by one; while it stays positive nothing else changes; at zero or below every text is released and every list reference given back, once each and in order, each list's count drops by how often the table held it, and the table is freed |
| IBusLookupTable.LookupTable.AppendCandidate | src/ibuslookuptable.c:95-112 | exactly one candidate is added, last, with the given text; earlier candidates, scalars, count and release logs are unchanged; its list is the given one with one more reference, or a fresh empty list with one reference |
| IBusMessage.Run | src/ibuslookuptable.c:177-212 | the meaning of a sequence of primitive calls: each call runs in turn from the state the previous one left; a checked call that fails ends the run at once with false and nothing undone, as each `g_return_val_if_fail` does; a write whose result is ignored never ends it |
| IBusMessage.ArgType | src/ibuslookuptable.c:145 | the type of the value at the iterator's position, and the invalid type once the iterator is past the last value of its container |
| IBusMessage.Recurse | src/ibuslookuptable.c:125-128 | entering a container of the expected kind gives an iterator over its children, and fails on any other value; the parent iterator does not move (also used at src/ibuslookuptable.c:140 and :150) |
| IBusMessage.Next | src/ibuslookuptable.c:160 | moves the iterator past the current value |
| IBusMessage.GetInt32 | src/ibuslookuptable.c:131-135 | reads an Int32 at the iterator's position and moves past it; fails on any other value |
| IBusMessage.GetBoolean | src/ibuslookuptable.c:137-138 | reads a Boolean at the iterator's position and moves past it; fails on any other value |
| IBusMessage.GetString | src/ibuslookuptable.c:153-154 | reads a String at the iterator's position and moves past it; fails on any other value |
| LookupTableWire.Header | src/ibuslookuptable.c:177-187 | the encoder's first six calls: open the Variant with signature `(iiba(sv))`, open the Struct, write page_size, cursor_pos and cursor_visible with results ignored, open the Array with signature `(sv)` |
| LookupTableWire.EntryOps | src/ibuslookuptable.c:191-202 | one candidate's four checked calls: open a Struct, write the text, write the attribute list, close the Struct |
| LookupTableWire.EntriesOps | src/ibuslookuptable.c:190-203 | the candidates' calls, one group of four per candidate, in index order |
| LookupTableWire.Trailer | src/ibuslookuptable.c:205-212 | three checked closes: the Array, then the Struct, then the Variant |
| LookupTableWire.Script | src/ibuslookuptable.c:177-212 | every call serialize makes, in order: the header, the candidates' calls, the three closes |
| LookupTableWire.Encode | src/ibuslookuptable.c:177-212 | the tree a successful serialize writes: Variant `(iiba(sv))` holding a Struct of the kept scalars and an Array `(sv)` of one Struct(text, attribute list) per candidate |
| LookupTableWire.DecodeEntry | src/ibuslookuptable.c:150-157 | one array element is read as a candidate when it is a Struct whose first two values are a String and an attribute list; anything after them is ignored |
| LookupTableWire.DecodeEntries | src/ibuslookuptable.c:145-161 | the elements of the Array are read in order until the end of the Array, and the whole read fails if one element fails |
| LookupTableWire.Decode | src/ibuslookuptable.c:125-161 | a table is read from a Variant whose first value is a Struct starting with Int32, Int32, Boolean and an Array whose elements all read as candidates; any other shape is rejected, and signatures and trailing values are not looked at |
| LookupTableWire.RunAfterFailure | src/ibuslookuptable.c:177-212 | once a checked call has failed, the calls that would follow are never made and nothing more changes |
| LookupTableWire.RunAppend | src/ibuslookuptable.c:177-212 | running two call sequences one after the other: the second starts where the first stopped, and only when the first succeeded |
| LookupTableWire.RunUncheckedWrite | src/ibuslookuptable.c:183-185 | a scalar write whose result is ignored never stops the run; its value is written only when that call is not faulted |
| LookupTableWire.RunEntry | src/ibuslookuptable.c:190-203 | one candidate's four calls either all succeed and write its Struct (text, attribute list), or stop the run without closing anything |
| LookupTableWire.RunEntries | src/ibuslookuptable.c:190-203 | the candidates' calls, four each: if none is faulted they write every candidate's Struct in index order, otherwise the run stops with containers still open |
| LookupTableWire.RunHeader | src/ibuslookuptable.c:177-188 | the opening calls: a fault opening the Variant, the Struct or the Array stops the run at that point; otherwise the three kept scalars are written and the Array is open |
| LookupTableWire.RunTrailer | src/ibuslookuptable.c:205-214 | the three closing calls succeed exactly when none is faulted; the tree is then complete at the caller's level, and a closing fault leaves containers open |
| LookupTableWire.ScriptEntryFails | src/ibuslookuptable.c:190-203 | after the three opens succeed, a failed candidate call makes serialize fail with the Variant still open |
| LookupTableWire.ScriptEntriesSucceed | src/ibuslookuptable.c:190-214 | after every candidate call succeeds, serialize succeeds exactly when the three closes do, and then writes the whole encoding |
| LookupTableWire.ScriptRun | src/ibuslookuptable.c:166-215 | for every fault set: the script has 9 + 4n calls; serialize makes all of them and succeeds exactly when none of them except the three scalar writes is faulted; on success it adds exactly one value, the table's encoding minus any scalar whose write failed; a failure after the Variant opened leaves containers open |
| LookupTableWire.DecodeEntryValues | src/ibuslookuptable.c:145-161 | the decoder's loop reads the encoded candidates back, all of them and in order |
| LookupTableWire.DecodeEntriesAllOrNothing | src/ibuslookuptable.c:145-161 | the candidate array fails to decode exactly when some element fails; otherwise it yields one entry per element, in order |
| LookupTableWire.DecodeEncode | src/ibuslookuptable.c:114-215 | decoding the encoding of a table gives back its three scalars and its candidate entries in order, whatever follows it |
| LookupTableWire.SerializeDecodes | src/ibuslookuptable.c:114-215 | when no call is faulted, serialize succeeds, appends exactly the encoding, and that encoding decodes to the table |
| LookupTableWire.DecodeRejectsDroppedScalar | src/ibuslookuptable.c:131-138 | an encoding that lacks a scalar is rejected by the decoder |
| LookupTableWire.UncheckedScalarFault | src/ibuslookuptable.c:183-185 | when only a scalar write fails, serialize still reports success, and what it wrote does not decode |
| LookupTableWire.DecodeIgnoresTrailing | src/ibuslookuptable.c:140-164 | the decoder accepts any Variant, Array and outer Struct signature and a separate signature for each element Struct, and ignores extra fields after the Array, after the Struct, after each element's attribute list (different ones per element) and after the Variant |
| LookupTableWire.DecodeRejectsMissingArray | src/ibuslookuptable.c:140-141 | a Struct with no candidate Array after the scalars is rejected |
| LookupTableWire.DecodeRejectsWrongVisibleKind | src/ibuslookuptable.c:137-138 | a cursor_visible that is not a Boolean is rejected |
| LookupTableCodec.WriteCandidate | src/ibuslookuptable.c:191-202 | one loop iteration makes exactly the candidate's four calls, in order, and stops at the first one that fails |
| LookupTableCodec.AppendUnchecked | src/ibuslookuptable.c:183-185 | a write whose result is ignored; the remaining calls follow whether or not it took effect |
| LookupTableCodec.CandidateStep | src/ibuslookuptable.c:190-203 | after the `i`th candidate's calls, the remaining calls run only if those all succeeded |
| LookupTableCodec.Serialize | src/ibuslookuptable.c:166-215 | the result and the writer's new state are exactly those of `Script(table.Image())` run from the old state, so `ScriptRun` and `SerializeDecodes` describe it |
| LookupTableCodec.PrefixedStep | src/ibuslookuptable.c:150-160 | decoding one element moves its entry from the elements left to the entries already built |
| LookupTableCodec.Deserialize | src/ibuslookuptable.c:114-164 | returns null exactly when `Decode` rejects the value; otherwise a fresh live table with one reference whose scalars and candidates are what `Decode` reads |
| LookupTableCodec.RoundTrip | src/ibuslookuptable.c:114-215 | deserialize after a fault-free serialize succeeds and gives a fresh table with the original's scalars and candidate entries in order |
| LookupTableCodec.BuildAlphaBeta | src/ibuslookuptable.c:44-112 | new(5, 0, true), then "alpha" appended without a list and "beta" with a given list, gives those two candidates; the given list gains one reference |
| LookupTableCodec.AlphaBetaRoundTrip | src/ibuslookuptable.c:114-215 | that table round-trips through the encoder and decoder to its scalars and both entries, in order |
| LookupTableCodec.AlphaBetaRelease | src/ibuslookuptable.c:65-93 | ref and then two unrefs free the table and release "alpha" and "beta" once each; the fresh list drops to zero and the given list returns to its old count |
| LookupTableCodec.AlphaBetaCopy | src/ibuslookuptable.c:58-63 | copying a table that holds two candidates gives the same scalars and no candidates |

## Left out

- `ibus_lookup_table_get_type` (src/ibuslookuptable.c:28-42) is left out. It registers copy and unref as the GLib boxed-type functions and serialize and deserialize as the message-type functions. That is foreign code with static global state.
- The internals of the message iterator (`ibusmessage.c`) are not part of this model. Each primitive is reduced to its effect on the value tree, and primitive failures are modelled by the fault set. The get and recurse semantics are inferred as described above.
- The attribute list's own encoding, contents and reference-count code are not part of this model. Its value on the wire is the `AttrListValue` of its entries.
- Memory allocation and release (`g_slice_*`, `g_free`, `g_strdup`, `g_array_*`) are modelled by the ghost release logs. No memory is modelled.
- The `g_assert` checks that the table, text and iterator are non-null are enforced by the Dafny types, which have no null there. The logging done by `g_return_val_if_fail` is left out; only its early return is kept.
- Thread safety of the reference count is left out. The source does nothing for it.
- IBusLookupTable.Ref, IBusLookupTable.Unref: the count is an unbounded integer, so `gint` wrap-around of `refcount` is not modelled, neither on the increment at src/ibuslookuptable.c:70 nor on the decrement at :80.
- IBusLookupTable.LookupTable.AppendCandidate, LookupTableCodec.Serialize: a text is modelled as a Dafny string, a sequence of Unicode characters. The NUL-terminated byte string of the source is not modelled: a Dafny text may hold NUL, which `g_strdup` at src/ibuslookuptable.c:105 would cut short. libdbus rejecting a text that is not valid UTF-8 in the checked write at src/ibuslookuptable.c:195 is also not modelled; such a rejection appears only as a fault on that call.
- IBusLookupTable.LookupTable: `cursor_visible` is a `gboolean`, that is a `gint`, but only TRUE and FALSE are modelled. The round trip (`DecodeEncode`, `SerializeDecodes`, `RoundTrip`) is stated for those two values. A table built with another value, such as 2, would not get it back from a D-Bus Boolean.
- LookupTableWire.UncheckedScalarFault: its "does not decode" holds under the model in which a failed primitive writes nothing. A primitive that fails after a partial write, or that leaves the message unusable, is not modelled.
- LookupTableCodec.Deserialize: when it fails inside the candidate loop, its contract does not mention the table already built. That table is simply never released, as in the source.
- LookupTableCodec.Deserialize: nothing is stated about who owns the attribute list read at src/ibuslookuptable.c:156. append_candidate takes one more reference to it, and whether that reference leaks depends on code that is not part of this model.
- LookupTableCodec.RoundTrip: the round trip gives back each candidate's attribute entries, not the identity of its list object. The decoder builds new lists.
