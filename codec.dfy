/**
 * The encoder and decoder of src/ibuslookuptable.c, written against the
 * message primitives, each proved to follow the wire grammar: `Serialize`
 * issues exactly the calls of `Script`, stopping at the first checked one that
 * fails, and `Deserialize` builds a table exactly when `Decode` reads one,
 * holding what `Decode` reads.
 */
module LookupTableCodec {
  import opened IBusAttrList
  import opened IBusMessage
  import opened IBusLookupTable
  import opened LookupTableWire

  /**
   * One iteration of the candidate loop of ibus_lookup_table_serialize: a
   * Struct holding the text and the attribute list; any failed call ends it.
   */
  method WriteCandidate(w: MessageWriter, candidate: Candidate) returns (ok: bool)
    modifies w
    ensures Outcome(ok, w.state, w.calls) == Run(old(w.state), old(w.calls), w.faults, EntryOps(EntryOf(candidate)))
  {
    var text, attributes := Str(candidate.text), AttrListValue(candidate.attrList.attributes);
    assert EntryOps(EntryOf(candidate)) == [Open(Struct, "")] + [Write(text, true), Write(attributes, true), Close];
    RunCons(w.state, w.calls, w.faults, Open(Struct, ""), [Write(text, true), Write(attributes, true), Close]);
    ok := w.OpenContainer(Struct, "");
    if !ok { return; }
    assert [Write(text, true), Write(attributes, true), Close] == [Write(text, true)] + [Write(attributes, true), Close];
    RunCons(w.state, w.calls, w.faults, Write(text, true), [Write(attributes, true), Close]);
    ok := w.Append(text);
    if !ok { return; }
    assert [Write(attributes, true), Close] == [Write(attributes, true)] + [Close];
    RunCons(w.state, w.calls, w.faults, Write(attributes, true), [Close]);
    ok := w.Append(attributes);
    if !ok { return; }
    assert [Close] == [Close] + [];
    RunCons(w.state, w.calls, w.faults, Close, []);
    ok := w.CloseContainer();
  }

  /**
   * A write whose result is ignored: the next calls follow whether or not it
   * took effect.
   */
  method AppendUnchecked(w: MessageWriter, v: Value, ghost goal: Outcome, ghost rest: seq<Op>)
    modifies w
    requires goal == Run(w.state, w.calls, w.faults, [Write(v, false)] + rest)
    ensures goal == Run(w.state, w.calls, w.faults, rest)
    ensures w.state == After(old(w.state), old(w.calls), w.faults, Write(v, false)) && w.calls == old(w.calls) + 1
  {
    RunCons(w.state, w.calls, w.faults, Write(v, false), rest);
    var _ := w.Append(v);
  }

  /** The remaining script after the `i`th candidate's calls: the rest runs only when they all succeeded. */
  lemma CandidateStep(s: WriterState, c: nat, f: set<nat>, es: seq<Entry>, i: nat, out: Outcome)
    requires i < |es| && out == Run(s, c, f, EntryOps(es[i]))
    ensures Run(s, c, f, EntriesOps(es[i..]) + Trailer)
         == if out.ok then Run(out.state, out.calls, f, EntriesOps(es[i + 1..]) + Trailer) else out
  {
    assert es[i..][1..] == es[i + 1..];
    assert EntriesOps(es[i..]) + Trailer == EntryOps(es[i]) + (EntriesOps(es[i + 1..]) + Trailer);
    RunAppend(s, c, f, EntryOps(es[i]), EntriesOps(es[i + 1..]) + Trailer);
  }

  /**
   * ibus_lookup_table_serialize: opens the Variant and the Struct, writes the
   * three scalars without looking at the results, opens the Array, writes one
   * Struct per candidate in order, and closes the containers innermost first;
   * the first open, close or candidate write that fails makes it return false
   * at once, with the containers it opened left open.
   */
  method Serialize(table: LookupTable, w: MessageWriter) returns (ok: bool)
    modifies w
    ensures Outcome(ok, w.state, w.calls) == Run(old(w.state), old(w.calls), w.faults, Script(table.Image()))
  {
    ghost var img := table.Image();
    ghost var es := img.entries;
    ghost var goal := Run(w.state, w.calls, w.faults, Script(img));
    ghost var tail := EntriesOps(es) + Trailer;
    ghost var r5 := [Open(Array, CandidateSignature)] + tail;
    ghost var r4 := [Write(Boolean(img.cursorVisible), false)] + r5;
    ghost var r3 := [Write(Int32(img.cursorPos), false)] + r4;
    ghost var r2 := [Write(Int32(img.pageSize), false)] + r3;
    ghost var r1 := [Open(Struct, "")] + r2;
    assert Script(img) == [Open(Variant, TableSignature)] + r1;

    ghost var st, calls := w.state, w.calls;
    ok := w.OpenContainer(Variant, TableSignature);
    assert goal == (if ok then Run(w.state, w.calls, w.faults, r1) else Outcome(false, w.state, w.calls)) by {
      RunCons(st, calls, w.faults, Open(Variant, TableSignature), r1);
    }
    if !ok { return; }
    st, calls := w.state, w.calls;
    ok := w.OpenContainer(Struct, "");
    assert goal == (if ok then Run(w.state, w.calls, w.faults, r2) else Outcome(false, w.state, w.calls)) by {
      RunCons(st, calls, w.faults, Open(Struct, ""), r2);
    }
    if !ok { return; }
    AppendUnchecked(w, Int32(table.pageSize), goal, r3);
    AppendUnchecked(w, Int32(table.cursorPos), goal, r4);
    AppendUnchecked(w, Boolean(table.cursorVisible), goal, r5);
    st, calls := w.state, w.calls;
    ok := w.OpenContainer(Array, CandidateSignature);
    assert goal == (if ok then Run(w.state, w.calls, w.faults, tail) else Outcome(false, w.state, w.calls)) by {
      RunCons(st, calls, w.faults, Open(Array, CandidateSignature), tail);
    }
    if !ok { return; }
    assert es[0..] == es;

    var i := 0;
    while i < |table.candidates|
      invariant 0 <= i <= |table.candidates| == |es|
      invariant goal == Run(w.state, w.calls, w.faults, EntriesOps(es[i..]) + Trailer)
    {
      var candidate := table.candidates[i];
      ghost var before, callsBefore := w.state, w.calls;
      ok := WriteCandidate(w, candidate);
      CandidateStep(before, callsBefore, w.faults, es, i, Outcome(ok, w.state, w.calls));
      if !ok { return; }
      i := i + 1;
    }
    assert es[i..] == [] && EntriesOps(es[i..]) + Trailer == [Close, Close, Close];

    st, calls := w.state, w.calls;
    ok := w.CloseContainer();
    assert goal == (if ok then Run(w.state, w.calls, w.faults, [Close, Close]) else Outcome(false, w.state, w.calls)) by {
      RunCons(st, calls, w.faults, Close, [Close, Close]);
    }
    if !ok { return; }
    st, calls := w.state, w.calls;
    ok := w.CloseContainer();
    assert goal == (if ok then Run(w.state, w.calls, w.faults, [Close]) else Outcome(false, w.state, w.calls)) by {
      RunCons(st, calls, w.faults, Close, [Close]);
    }
    if !ok { return; }
    st, calls := w.state, w.calls;
    ok := w.CloseContainer();
    assert goal == Outcome(ok, w.state, w.calls) by {
      RunCons(st, calls, w.faults, Close, []);
    }
  }

  /** `done` followed by whatever the remaining elements decode to. */
  function Prefixed(done: seq<Entry>, rest: Option<seq<Entry>>): Option<seq<Entry>> {
    match rest
    case None => None
    case Some(es) => Some(done + es)
  }

  /** Decoding the first element as `e` moves `e` from the remaining elements to the entries already built. */
  lemma PrefixedStep(done: seq<Entry>, elements: seq<Value>, e: Entry)
    requires elements != [] && DecodeEntry(elements[0]) == Some(e)
    ensures Prefixed(done, DecodeEntries(elements)) == Prefixed(done + [e], DecodeEntries(elements[1..]))
  {
    if DecodeEntries(elements[1..]).Some? {
      var es := DecodeEntries(elements[1..]).value;
      assert done + ([e] + es) == (done + [e]) + es;
    }
  }

  /**
   * ibus_lookup_table_deserialize: enters the Variant and its Struct, reads
   * page_size, cursor_pos and cursor_visible, enters the Array, builds the
   * table, and appends one candidate per element until the end of the Array.
   * Any failed step returns null; a table already built is then dropped
   * without being released.
   */
  method Deserialize(it: seq<Value>) returns (table: LookupTable?)
    ensures table == null <==> Decode(it).None?
    ensures table != null ==>
      fresh(table) && table.Live() && table.refcount == 1 && table.Image() == Decode(it).value
  {
    var variant := Recurse(it, Variant);
    if variant.None? { return null; }
    var fields := Recurse(variant.value, Struct);
    if fields.None? { return null; }
    var pageSize := GetInt32(fields.value);
    if pageSize.None? { return null; }
    var cursorPos := GetInt32(pageSize.value.1);
    if cursorPos.None? { return null; }
    var cursorVisible := GetBoolean(cursorPos.value.1);
    if cursorVisible.None? { return null; }
    var entries := Recurse(cursorVisible.value.1, Array);
    if entries.None? { return null; }

    table := new LookupTable(pageSize.value.0, cursorPos.value.0, cursorVisible.value.0);

    var elements := entries.value;
    ghost var done: seq<Entry> := [];
    ghost var decoded := Decode(it);
    ghost var scalars := fields.value;
    assert variant.value == it[0].items && scalars == variant.value[0].items;
    assert pageSize.value.1 == scalars[1..] && scalars[0] == Int32(pageSize.value.0);
    assert cursorPos.value.1 == scalars[2..] && scalars[1] == Int32(cursorPos.value.0);
    assert cursorVisible.value.1 == scalars[3..] && scalars[2] == Boolean(cursorVisible.value.0);
    assert elements == scalars[3].items && scalars[3].Container? && scalars[3].kind == Array;
    assert decoded == match DecodeEntries(elements)
      case None => None
      case Some(es) => Some(TableImage(pageSize.value.0, cursorPos.value.0, cursorVisible.value.0, es));
    assert Prefixed(done, DecodeEntries(elements)) == DecodeEntries(elements) by {
      if DecodeEntries(elements).Some? {
        assert done + DecodeEntries(elements).value == DecodeEntries(elements).value;
      }
    }
    while ArgType(elements) != InvalidType
      invariant fresh(table) && table.Live() && table.refcount == 1
      invariant table.Image() == TableImage(pageSize.value.0, cursorPos.value.0, cursorVisible.value.0, done)
      invariant decoded == match Prefixed(done, DecodeEntries(elements))
        case None => None
        case Some(es) => Some(TableImage(pageSize.value.0, cursorPos.value.0, cursorVisible.value.0, es))
      decreases |elements|
    {
      var entry := Recurse(elements, Struct);
      if entry.None? { return null; }
      var text := GetString(entry.value);
      if text.None? { return null; }
      var attrList, _ := GetAttrList(text.value.1);
      if attrList == null { return null; }
      ghost var e := Entry(text.value.0, attrList.attributes);
      PrefixedStep(done, elements, e);
      table.AppendCandidate(text.value.0, attrList);
      done := done + [e];
      elements := Next(elements);
    }
    assert done + [] == done;
  }

  // ---------------------------------------------------------------- clients

  /** deserialize(serialize(t)) on a message whose primitives all succeed gives back t's scalars and entries. */
  method RoundTrip(table: LookupTable) returns (ok: bool, copy: LookupTable?)
    ensures ok && copy != null && fresh(copy) && copy.Live() && copy.Image() == table.Image()
  {
    var w := new MessageWriter({});
    ok := Serialize(table, w);
    SerializeDecodes(table.Image(), WriterState([], []), 0, {});
    copy := Deserialize(w.state.items);
  }

  /** Tables built by new and append_candidate: "alpha" without attributes, then "beta" with a given list. */
  method BuildAlphaBeta(attrsB: AttrList) returns (t: LookupTable)
    modifies attrsB
    ensures fresh(t) && t.Live() && t.refcount == 1 && |t.candidates| == 2
    ensures t.Image() == TableImage(5, 0, true, [Entry("alpha", []), Entry("beta", attrsB.attributes)])
    ensures fresh(t.candidates[0].attrList) && t.candidates[0].attrList.refcount == 1
    ensures t.candidates[1].attrList == attrsB && attrsB.refcount == old(attrsB.refcount) + 1
  {
    t := new LookupTable(5, 0, true);
    t.AppendCandidate("alpha", null);
    t.AppendCandidate("beta", attrsB);
  }

  /** Encoding such a table and decoding the result gives the scalars and both candidates back, in order. */
  method AlphaBetaRoundTrip(attrsB: AttrList) returns (decoded: LookupTable?)
    modifies attrsB
    ensures decoded != null
    ensures decoded.Image() == TableImage(5, 0, true, [Entry("alpha", []), Entry("beta", attrsB.attributes)])
  {
    var t := BuildAlphaBeta(attrsB);
    var ok;
    ok, decoded := RoundTrip(t);
  }

  /** ref then two unrefs: the count goes 1, 2, 1, 0 and each text and each list reference is released once. */
  method AlphaBetaRelease(attrsB: AttrList) returns (t: LookupTable)
    modifies attrsB
    ensures |t.candidates| == 2 && t.freed && t.releasedTexts == ["alpha", "beta"]
    ensures t.releasedAttrLists == [t.candidates[0].attrList, attrsB]
    ensures t.candidates[0].attrList.refcount == 0 && attrsB.refcount == old(attrsB.refcount)
  {
    t := BuildAlphaBeta(attrsB);
    var alphaList := t.candidates[0].attrList;
    assert EntriesOf(t.candidates)[0].text == "alpha" && EntriesOf(t.candidates)[1].text == "beta";
    ghost var texts := [t.candidates[0].text, t.candidates[1].text];
    assert texts == ["alpha", "beta"];
    var _ := Ref(t);
    assert t.refcount == 2;
    Unref(t);
    assert t.refcount == 1 && !t.freed;
    Unref(t);
    assert AttrLists(t.candidates) == [alphaList, attrsB];
    assert alphaList in AttrListSet(t.candidates) && attrsB in AttrListSet(t.candidates);
    assert Texts(t.candidates) == texts;
  }

  /** copy keeps the scalars of a table that holds candidates, and none of its candidates. */
  method AlphaBetaCopy(attrsB: AttrList) returns (t: LookupTable, c: LookupTable)
    modifies attrsB
    ensures |t.candidates| == 2 && c.candidates == [] && c.refcount == 1
    ensures c.Image() == TableImage(5, 0, true, [])
  {
    t := BuildAlphaBeta(attrsB);
    c := t.Copy();
  }
}
