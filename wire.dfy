/**
 * The wire grammar of a lookup table, following the D-Bus type system:
 *
 *   Variant "(iiba(sv))"
 *     Struct
 *       Int32 page_size, Int32 cursor_pos, Boolean cursor_visible,
 *       Array "(sv)" of Struct(String text, attribute list), one per candidate
 *
 * `Script` is the sequence of primitive calls the encoder issues, `Encode`
 * the tree those calls build, and `Decode` the reading of that tree that the
 * decoder performs. The lemmas relate the three.
 */
module LookupTableWire {
  import opened IBusMessage
  import opened IBusLookupTable

  const TableSignature: string := "(iiba(sv))"
  const CandidateSignature: string := "(sv)"

  // ---------------------------------------------------------------- encoding

  /** Which of the three scalar writes, whose results the encoder ignores, took effect. */
  datatype Kept = Kept(pageSize: bool, cursorPos: bool, cursorVisible: bool)

  const AllKept := Kept(true, true, true)

  /** The scalar writes of a script starting at call number `c` that the fault set leaves alone. */
  function KeptBy(faults: set<nat>, c: nat): Kept {
    Kept(c + 2 !in faults, c + 3 !in faults, c + 4 !in faults)
  }

  function Optional(present: bool, v: Value): seq<Value> {
    if present then [v] else []
  }

  function Scalars(img: TableImage, kept: Kept): seq<Value> {
    Optional(kept.pageSize, Int32(img.pageSize))
    + Optional(kept.cursorPos, Int32(img.cursorPos))
    + Optional(kept.cursorVisible, Boolean(img.cursorVisible))
  }

  function EntryValue(e: Entry): Value {
    Container(Struct, "", [Str(e.text), AttrListValue(e.attributes)])
  }

  function EntryValues(es: seq<Entry>): seq<Value> {
    if es == [] then [] else [EntryValue(es[0])] + EntryValues(es[1..])
  }

  function Encode(img: TableImage, kept: Kept): Value {
    Container(Variant, TableSignature, [
      Container(Struct, "", Scalars(img, kept) + [Container(Array, CandidateSignature, EntryValues(img.entries))])
    ])
  }

  function Header(img: TableImage): seq<Op> {
    [ Open(Variant, TableSignature), Open(Struct, ""),
      Write(Int32(img.pageSize), false), Write(Int32(img.cursorPos), false),
      Write(Boolean(img.cursorVisible), false),
      Open(Array, CandidateSignature) ]
  }

  function EntryOps(e: Entry): seq<Op> {
    [Open(Struct, ""), Write(Str(e.text), true), Write(AttrListValue(e.attributes), true), Close]
  }

  function EntriesOps(es: seq<Entry>): seq<Op> {
    if es == [] then [] else EntryOps(es[0]) + EntriesOps(es[1..])
  }

  /** Closes the Array, the Struct and the Variant, innermost first. */
  const Trailer: seq<Op> := [Close, Close, Close]

  function Script(img: TableImage): seq<Op> {
    Header(img) + EntriesOps(img.entries) + Trailer
  }

  // ---------------------------------------------------------------- decoding

  /** One array element: a Struct whose first two fields are a String and an attribute list. */
  function DecodeEntry(v: Value): Option<Entry> {
    if v.Container? && v.kind == Struct && |v.items| >= 2 && v.items[0].Str? && v.items[1].AttrListValue?
    then Some(Entry(v.items[0].s, v.items[1].attributes))
    else None
  }

  function DecodeEntries(vs: seq<Value>): Option<seq<Entry>> {
    if vs == [] then Some([])
    else match (DecodeEntry(vs[0]), DecodeEntries(vs[1..]))
      case (Some(e), Some(es)) => Some([e] + es)
      case _ => None
  }

  /** The table at the current position of a read iterator; nothing after the fields it needs is looked at. */
  function Decode(it: seq<Value>): Option<TableImage> {
    if it == [] || !(it[0].Container? && it[0].kind == Variant) then None
    else
      var inner := it[0].items;
      if inner == [] || !(inner[0].Container? && inner[0].kind == Struct) then None
      else
        var fields := inner[0].items;
        if |fields| < 4 || !fields[0].Int32? || !fields[1].Int32? || !fields[2].Boolean?
           || !(fields[3].Container? && fields[3].kind == Array)
        then None
        else match DecodeEntries(fields[3].items)
          case None => None
          case Some(es) => Some(TableImage(fields[0].i, fields[1].i, fields[2].b, es))
  }

  // ---------------------------------------------------------------- running primitives

  /** No call numbered in [lo, hi) is faulted. */
  ghost predicate Clear(faults: set<nat>, lo: int, hi: int) {
    forall k: nat :: lo <= k < hi ==> k !in faults
  }

  lemma ClearSplit(faults: set<nat>, lo: int, mid: int, hi: int)
    requires lo <= mid <= hi
    ensures Clear(faults, lo, hi) <==> Clear(faults, lo, mid) && Clear(faults, mid, hi)
  {
  }

  lemma RunCons(s: WriterState, c: nat, f: set<nat>, op: Op, rest: seq<Op>)
    ensures Run(s, c, f, [op] + rest) ==
      if Checked(op) && !Succeeds(s, c, f, op) then Outcome(false, s, c + 1)
      else Run(After(s, c, f, op), c + 1, f, rest)
  {
    assert ([op] + rest)[0] == op;
    assert ([op] + rest)[1..] == rest;
  }

  /** Once a checked primitive has failed, the calls that would have followed are never made. */
  lemma {:induction false} RunAfterFailure(s: WriterState, c: nat, f: set<nat>, done: seq<Op>, todo: seq<Op>)
    requires !Run(s, c, f, done).ok
    ensures Run(s, c, f, done + todo) == Run(s, c, f, done)
    decreases |done|
  {
    assert done != [];
    RunCons(s, c, f, done[0], done[1..] + todo);
    assert done + todo == [done[0]] + (done[1..] + todo);
    if !(Checked(done[0]) && !Succeeds(s, c, f, done[0])) {
      RunAfterFailure(After(s, c, f, done[0]), c + 1, f, done[1..], todo);
    }
  }

  /** Running `a` then `b`: `b` starts where `a` left off, and only when `a` did not fail. */
  lemma {:induction false} RunAppend(s: WriterState, c: nat, f: set<nat>, a: seq<Op>, b: seq<Op>)
    ensures Run(s, c, f, a + b) == (var r := Run(s, c, f, a); if r.ok then Run(r.state, r.calls, f, b) else r)
    decreases |a|
  {
    if a == [] {
      assert a + b == b;
    } else {
      assert a + b == [a[0]] + (a[1..] + b);
      assert a == [a[0]] + a[1..];
      RunCons(s, c, f, a[0], a[1..] + b);
      RunCons(s, c, f, a[0], a[1..]);
      if !(Checked(a[0]) && !Succeeds(s, c, f, a[0])) {
        RunAppend(After(s, c, f, a[0]), c + 1, f, a[1..], b);
      }
    }
  }

  lemma EmitNil(s: WriterState)
    ensures Emit(s, []) == s
  {
    if s.open != [] {
      var n := |s.open|;
      assert s.open[n - 1].(items := s.open[n - 1].items + []) == s.open[n - 1];
      assert s.open[..n - 1] + [s.open[n - 1]] == s.open;
    } else {
      assert s.items + [] == s.items;
    }
  }

  lemma EmitConcat(s: WriterState, a: seq<Value>, b: seq<Value>)
    ensures Emit(Emit(s, a), b) == Emit(s, a + b)
    ensures |Emit(s, a).open| == |s.open|
  {
    if s.open != [] {
      var n := |s.open|;
      var s1 := Emit(s, a);
      assert s1.open[..n - 1] == s.open[..n - 1];
      assert s1.open[n - 1].items == s.open[n - 1].items + a;
      assert s.open[n - 1].items + a + b == s.open[n - 1].items + (a + b);
    } else {
      assert s.items + a + b == s.items + (a + b);
    }
  }

  /** Closing a container that holds exactly `vs` writes it, complete, where it was opened. */
  lemma PopAfterPush(s: WriterState, kind: Kind, signature: string, vs: seq<Value>)
    ensures Emit(Push(s, kind, signature), vs).open != []
    ensures Pop(Emit(Push(s, kind, signature), vs)) == Put(s, Container(kind, signature, vs))
  {
    var p := Push(s, kind, signature);
    var e := Emit(p, vs);
    assert p.open[..|p.open| - 1] == s.open;
    assert [] + vs == vs;
    assert e.open[|e.open| - 1] == Frame(kind, signature, vs);
    assert e.open[..|e.open| - 1] == s.open;
    assert e.(open := s.open) == s;
  }

  /** An unchecked write that fails is passed over. */
  lemma RunUncheckedWrite(s: WriterState, c: nat, f: set<nat>, v: Value, present: bool, rest: seq<Op>)
    requires present == (c !in f)
    ensures Run(s, c, f, [Write(v, false)] + rest) == Run(Emit(s, Optional(present, v)), c + 1, f, rest)
  {
    RunCons(s, c, f, Write(v, false), rest);
    if c in f {
      EmitNil(s);
    }
  }

  // ---------------------------------------------------------------- the encoder's calls

  /** One candidate's four calls: all succeed and write its Struct, or the run stops with nothing closed. */
  lemma RunEntry(s: WriterState, c: nat, f: set<nat>, e: Entry, rest: seq<Op>)
    ensures var r := Run(s, c, f, EntryOps(e) + rest);
      if Clear(f, c, c + 4) then r == Run(Put(s, EntryValue(e)), c + 4, f, rest)
      else !r.ok && |r.state.open| >= |s.open|
  {
    var s1 := Push(s, Struct, "");
    var s2 := Put(s1, Str(e.text));
    var s3 := Put(s2, AttrListValue(e.attributes));
    var r3 := [Close] + rest;
    var r2 := [Write(AttrListValue(e.attributes), true)] + r3;
    var r1 := [Write(Str(e.text), true)] + r2;
    assert EntryOps(e) + rest == [Open(Struct, "")] + r1;
    RunCons(s, c, f, Open(Struct, ""), r1);
    RunCons(s1, c + 1, f, Write(Str(e.text), true), r2);
    RunCons(s2, c + 2, f, Write(AttrListValue(e.attributes), true), r3);
    EmitConcat(s1, [Str(e.text)], [AttrListValue(e.attributes)]);
    EmitConcat(s2, [AttrListValue(e.attributes)], []);
    assert [Str(e.text)] + [AttrListValue(e.attributes)] == [Str(e.text), AttrListValue(e.attributes)];
    PopAfterPush(s, Struct, "", [Str(e.text), AttrListValue(e.attributes)]);
    RunCons(s3, c + 3, f, Close, rest);
    if !Clear(f, c, c + 4) {
      assert c in f || c + 1 in f || c + 2 in f || c + 3 in f;
    }
  }

  lemma {:induction false} RunEntries(s: WriterState, c: nat, f: set<nat>, es: seq<Entry>, rest: seq<Op>)
    ensures |EntriesOps(es)| == 4 * |es|
    ensures var r := Run(s, c, f, EntriesOps(es) + rest);
      if Clear(f, c, c + 4 * |es|) then r == Run(Emit(s, EntryValues(es)), c + 4 * |es|, f, rest)
      else !r.ok && |r.state.open| >= |s.open|
    decreases |es|
  {
    if es == [] {
      assert EntriesOps(es) + rest == rest;
      EmitNil(s);
    } else {
      var tail := EntriesOps(es[1..]) + rest;
      assert EntriesOps(es) + rest == EntryOps(es[0]) + tail;
      RunEntry(s, c, f, es[0], tail);
      var s1 := Put(s, EntryValue(es[0]));
      RunEntries(s1, c + 4, f, es[1..], rest);
      EmitConcat(s, [EntryValue(es[0])], EntryValues(es[1..]));
      ClearSplit(f, c, c + 4, c + 4 * |es|);
    }
  }

  lemma RunHeader(img: TableImage, s: WriterState, c: nat, f: set<nat>, rest: seq<Op>)
    ensures var r := Run(s, c, f, Header(img) + rest);
      var s1 := Push(s, Variant, TableSignature);
      var s3 := Emit(Push(s1, Struct, ""), Scalars(img, KeptBy(f, c)));
      if c in f then r == Outcome(false, s, c + 1)
      else if c + 1 in f then r == Outcome(false, s1, c + 2)
      else if c + 5 in f then r == Outcome(false, s3, c + 6)
      else r == Run(Push(s3, Array, CandidateSignature), c + 6, f, rest)
  {
    var kept := KeptBy(f, c);
    var s1 := Push(s, Variant, TableSignature);
    var s2 := Push(s1, Struct, "");
    var o1 := Optional(kept.pageSize, Int32(img.pageSize));
    var o2 := Optional(kept.cursorPos, Int32(img.cursorPos));
    var o3 := Optional(kept.cursorVisible, Boolean(img.cursorVisible));
    var w1 := Emit(s2, o1);
    var w2 := Emit(w1, o2);
    var w3 := Emit(w2, o3);
    var r6 := [Open(Array, CandidateSignature)] + rest;
    var r5 := [Write(Boolean(img.cursorVisible), false)] + r6;
    var r4 := [Write(Int32(img.cursorPos), false)] + r5;
    var r3 := [Write(Int32(img.pageSize), false)] + r4;
    var r2 := [Open(Struct, "")] + r3;
    assert Header(img) + rest == [Open(Variant, TableSignature)] + r2;
    RunCons(s, c, f, Open(Variant, TableSignature), r2);
    RunCons(s1, c + 1, f, Open(Struct, ""), r3);
    RunUncheckedWrite(s2, c + 2, f, Int32(img.pageSize), kept.pageSize, r4);
    RunUncheckedWrite(w1, c + 3, f, Int32(img.cursorPos), kept.cursorPos, r5);
    RunUncheckedWrite(w2, c + 4, f, Boolean(img.cursorVisible), kept.cursorVisible, r6);
    RunCons(w3, c + 5, f, Open(Array, CandidateSignature), rest);
    EmitConcat(s2, o1, o2);
    EmitConcat(s2, o1 + o2, o3);
  }

  /** The three closing calls after the candidates: each one closes the innermost container. */
  lemma RunTrailer(s: WriterState, t: nat, f: set<nat>, sc: seq<Value>, ev: seq<Value>)
    ensures var s1 := Push(s, Variant, TableSignature);
      var s3 := Emit(Push(s1, Struct, ""), sc);
      var r := Run(Emit(Push(s3, Array, CandidateSignature), ev), t, f, Trailer);
      var whole := Container(Variant, TableSignature,
                     [Container(Struct, "", sc + [Container(Array, CandidateSignature, ev)])]);
      && (r.ok <==> Clear(f, t, t + 3))
      && (r.ok ==> r.state == Put(s, whole) && r.calls == t + 3)
      && (!r.ok ==> |r.state.open| > |s.open|)
  {
    var s1 := Push(s, Variant, TableSignature);
    var s2 := Push(s1, Struct, "");
    var s3 := Emit(s2, sc);
    var s4 := Push(s3, Array, CandidateSignature);
    var s5 := Emit(s4, ev);
    var arr := Container(Array, CandidateSignature, ev);
    var st := Container(Struct, "", sc + [arr]);
    EmitConcat(s2, sc, [arr]);
    EmitConcat(s4, ev, []);
    EmitConcat(s1, [], []);
    EmitConcat(s, [], []);
    PopAfterPush(s3, Array, CandidateSignature, ev);
    var t1 := Pop(s5);
    assert t1 == Emit(s2, sc + [arr]);
    PopAfterPush(s1, Struct, "", sc + [arr]);
    var t2 := Pop(t1);
    assert t2 == Emit(s1, [st]);
    PopAfterPush(s, Variant, TableSignature, [st]);
    assert Trailer == [Close] + [Close, Close];
    assert [Close, Close] == [Close] + [Close];
    assert [Close] == [Close] + [];
    RunCons(s5, t, f, Close, [Close, Close]);
    RunCons(t1, t + 1, f, Close, [Close]);
    RunCons(t2, t + 2, f, Close, []);
    if !Clear(f, t, t + 3) {
      assert t in f || t + 1 in f || t + 2 in f;
    }
  }

  /** Once the Variant, the Struct and the Array are open, a failing candidate call stops the run with all three open. */
  lemma ScriptEntryFails(img: TableImage, s: WriterState, c: nat, f: set<nat>)
    requires c !in f && c + 1 !in f && c + 5 !in f
    requires !Clear(f, c + 6, c + 6 + 4 * |img.entries|)
    ensures var r := Run(s, c, f, Script(img));
      !r.ok && |r.state.open| > |s.open|
  {
    var es := img.entries;
    var sc := Scalars(img, KeptBy(f, c));
    var s1 := Push(s, Variant, TableSignature);
    var s4 := Push(Emit(Push(s1, Struct, ""), sc), Array, CandidateSignature);
    assert Script(img) == Header(img) + (EntriesOps(es) + Trailer);
    RunHeader(img, s, c, f, EntriesOps(es) + Trailer);
    RunEntries(s4, c + 6, f, es, Trailer);
    EmitConcat(Push(s1, Struct, ""), sc, []);
  }

  /** Once every call up to the last candidate has succeeded, only the three closing calls decide. */
  lemma ScriptEntriesSucceed(img: TableImage, s: WriterState, c: nat, f: set<nat>)
    requires c !in f && c + 1 !in f && c + 5 !in f
    requires Clear(f, c + 6, c + 6 + 4 * |img.entries|)
    ensures var t := c + 6 + 4 * |img.entries|;
      var r := Run(s, c, f, Script(img));
      && (r.ok <==> Clear(f, t, t + 3))
      && (r.ok ==> r.state == Put(s, Encode(img, KeptBy(f, c))) && r.calls == t + 3)
      && (!r.ok ==> |r.state.open| > |s.open|)
  {
    var es := img.entries;
    var t := c + 6 + 4 * |es|;
    var sc := Scalars(img, KeptBy(f, c));
    var s4 := Push(Emit(Push(Push(s, Variant, TableSignature), Struct, ""), sc), Array, CandidateSignature);
    var s5 := Emit(s4, EntryValues(es));
    assert Run(s, c, f, Script(img)) == Run(s5, t, f, Trailer) by {
      assert Script(img) == Header(img) + (EntriesOps(es) + Trailer);
      RunHeader(img, s, c, f, EntriesOps(es) + Trailer);
      RunEntries(s4, c + 6, f, es, Trailer);
    }
    RunTrailer(s, t, f, sc, EntryValues(es));
  }

  /**
   * What the encoder's calls do, for every fault set: they succeed exactly
   * when no checked call fails (the three scalar writes at offsets 2, 3 and 4
   * are not checked); on success exactly one value is written at the caller's
   * level, the table's encoding without the scalars whose writes failed; on a
   * failure after the Variant was opened, containers are left open.
   */
  lemma ScriptRun(img: TableImage, s: WriterState, c: nat, f: set<nat>)
    ensures |Script(img)| == 9 + 4 * |img.entries|
    ensures var r := Run(s, c, f, Script(img));
      && (r.ok <==> Clear(f, c, c + 2) && Clear(f, c + 5, c + |Script(img)|))
      && (r.ok ==> r.state == Put(s, Encode(img, KeptBy(f, c))) && r.calls == c + |Script(img)|)
      && (!r.ok && c !in f ==> |r.state.open| > |s.open|)
  {
    var es := img.entries;
    var n := 4 * |es|;
    RunEntries(Push(s, Variant, TableSignature), c, f, es, Trailer);
    assert |Script(img)| == 9 + n;
    ClearSplit(f, c, c + 2, c + 5);
    ClearSplit(f, c + 5, c + 6, c + 9 + n);
    if c in f || c + 1 in f || c + 5 in f {
      var sc := Scalars(img, KeptBy(f, c));
      var s1 := Push(s, Variant, TableSignature);
      assert Script(img) == Header(img) + (EntriesOps(es) + Trailer);
      RunHeader(img, s, c, f, EntriesOps(es) + Trailer);
      EmitConcat(Push(s1, Struct, ""), sc, []);
      assert !Clear(f, c, c + 2) || !Clear(f, c + 5, c + 6);
    } else {
      assert Clear(f, c, c + 2) && Clear(f, c + 5, c + 6);
      ClearSplit(f, c + 6, c + 6 + n, c + 9 + n);
      if Clear(f, c + 6, c + 6 + n) {
        ScriptEntriesSucceed(img, s, c, f);
      } else {
        ScriptEntryFails(img, s, c, f);
      }
    }
  }

  // ---------------------------------------------------------------- decoding the encoding

  lemma {:induction false} DecodeEntryValues(es: seq<Entry>)
    ensures DecodeEntries(EntryValues(es)) == Some(es)
  {
    if es != [] {
      var vs := EntryValues(es);
      assert vs[0] == EntryValue(es[0]);
      assert vs[1..] == EntryValues(es[1..]);
      DecodeEntryValues(es[1..]);
      assert [es[0]] + es[1..] == es;
    }
  }

  /** The elements are decoded in order, and the array fails as a whole when any one of them fails. */
  lemma {:induction false} DecodeEntriesAllOrNothing(vs: seq<Value>)
    ensures DecodeEntries(vs).None? <==> exists i :: 0 <= i < |vs| && DecodeEntry(vs[i]).None?
    ensures DecodeEntries(vs).Some? ==>
      |DecodeEntries(vs).value| == |vs|
      && forall i :: 0 <= i < |vs| ==> DecodeEntry(vs[i]) == Some(DecodeEntries(vs).value[i])
    decreases |vs|
  {
    if vs != [] {
      DecodeEntriesAllOrNothing(vs[1..]);
      if DecodeEntry(vs[0]).None? {
        assert DecodeEntries(vs).None?;
      } else if DecodeEntries(vs[1..]).None? {
        var j :| 0 <= j < |vs[1..]| && DecodeEntry(vs[1..][j]).None?;
        assert DecodeEntry(vs[j + 1]).None?;
      } else {
        var es := DecodeEntries(vs).value;
        forall i | 0 <= i < |vs| ensures DecodeEntry(vs[i]) == Some(es[i]) {
          if i > 0 {
            assert vs[i] == vs[1..][i - 1];
          }
        }
      }
    }
  }

  /** decode(encode(t)) gives back the three scalars and the candidate entries in order. */
  lemma DecodeEncode(img: TableImage, rest: seq<Value>)
    ensures Decode([Encode(img, AllKept)] + rest) == Some(img)
  {
    DecodeEntryValues(img.entries);
  }

  /** A scalar whose write failed unnoticed makes the encoding unreadable. */
  lemma DecodeRejectsDroppedScalar(img: TableImage, kept: Kept, rest: seq<Value>)
    requires kept != AllKept
    ensures Decode([Encode(img, kept)] + rest) == None
  {
    assert |Scalars(img, kept)| < 3;
  }

  /**
   * The round trip through the encoder's calls: when none of them fails, the
   * caller's level receives one more value, and decoding it gives the table back.
   */
  lemma SerializeDecodes(img: TableImage, s: WriterState, c: nat, f: set<nat>)
    requires Clear(f, c, c + |Script(img)|)
    ensures var r := Run(s, c, f, Script(img));
      r.ok && r.state == Put(s, Encode(img, AllKept))
      && (s.open == [] ==> r.state.items == s.items + [Encode(img, AllKept)])
      && Decode([Encode(img, AllKept)]) == Some(img)
  {
    ScriptRun(img, s, c, f);
    ClearSplit(f, c, c + 2, c + |Script(img)|);
    ClearSplit(f, c + 2, c + 5, c + |Script(img)|);
    assert c + 2 !in f && c + 3 !in f && c + 4 !in f;
    assert KeptBy(f, c) == AllKept;
    DecodeEncode(img, []);
    assert [Encode(img, AllKept)] + [] == [Encode(img, AllKept)];
  }

  /**
   * The encoder reports success although one of its unchecked scalar writes
   * failed, and what it wrote then does not decode.
   */
  lemma UncheckedScalarFault(img: TableImage, s: WriterState, c: nat, f: set<nat>)
    requires Clear(f, c, c + 2) && Clear(f, c + 5, c + |Script(img)|)
    requires c + 2 in f || c + 3 in f || c + 4 in f
    ensures var r := Run(s, c, f, Script(img));
      r.ok && r.state == Put(s, Encode(img, KeptBy(f, c))) && Decode([Encode(img, KeptBy(f, c))]) == None
  {
    ScriptRun(img, s, c, f);
    DecodeRejectsDroppedScalar(img, KeptBy(f, c), []);
    assert [Encode(img, KeptBy(f, c))] + [] == [Encode(img, KeptBy(f, c))];
  }

  // ---------------------------------------------------------------- the decoder's leniency and its failures

  /**
   * The decoder ignores signatures, anything after the Array in the Struct,
   * anything after the Struct in the Variant, anything after an element's
   * attribute list, and whatever follows the Variant. `sigs` gives the
   * Variant's, the Array's and the outer Struct's signatures; element `i` has
   * its own signature `elementSig(i)` and its own trailing values `elementExtra(i)`.
   */
  lemma DecodeIgnoresTrailing(img: TableImage, sigs: (string, string, string),
                              elementSig: int -> string, elementExtra: int -> seq<Value>,
                              extraFields: seq<Value>, extraInner: seq<Value>, rest: seq<Value>)
    ensures var elems := seq(|img.entries|, i requires 0 <= i < |img.entries| =>
                               Container(Struct, elementSig(i), [Str(img.entries[i].text),
                                 AttrListValue(img.entries[i].attributes)] + elementExtra(i)));
      var fields := Scalars(img, AllKept) + [Container(Array, sigs.1, elems)] + extraFields;
      Decode([Container(Variant, sigs.0, [Container(Struct, sigs.2, fields)] + extraInner)] + rest) == Some(img)
  {
    var elems := seq(|img.entries|, i requires 0 <= i < |img.entries| =>
                       Container(Struct, elementSig(i), [Str(img.entries[i].text),
                         AttrListValue(img.entries[i].attributes)] + elementExtra(i)));
    DecodeEntriesAllOrNothing(elems);
    forall i | 0 <= i < |elems| ensures DecodeEntry(elems[i]) == Some(img.entries[i]) {
      assert elems[i].items[..2] == [Str(img.entries[i].text), AttrListValue(img.entries[i].attributes)];
    }
    var d := DecodeEntries(elems);
    assert d.Some?;
    assert d.value == img.entries;
  }

  /** A wire value without the candidate Array after the three scalars is rejected. */
  lemma DecodeRejectsMissingArray(img: TableImage, rest: seq<Value>)
    ensures Decode([Container(Variant, TableSignature, [Container(Struct, "", Scalars(img, AllKept))])] + rest) == None
  {
  }

  /** A wire value carrying cursor_visible as anything but a Boolean is rejected. */
  lemma DecodeRejectsWrongVisibleKind(img: TableImage, visible: Value, rest: seq<Value>)
    requires !visible.Boolean?
    ensures var fields := [Int32(img.pageSize), Int32(img.cursorPos), visible,
                           Container(Array, CandidateSignature, EntryValues(img.entries))];
      Decode([Container(Variant, TableSignature, [Container(Struct, "", fields)])] + rest) == None
  {
  }
}
