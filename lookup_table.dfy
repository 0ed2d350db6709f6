/**
 * The lookup table (IBusLookupTable): a reference-counted record of paging and
 * cursor state plus an ordered sequence of candidates. Memory release is
 * modelled by ghost logs: `freed` records that the table itself was released,
 * and `releasedTexts` / `releasedAttrLists` record, in order, every candidate
 * text freed and every attribute-list reference given back.
 */
module IBusLookupTable {
  import opened IBusAttrList
  import opened IBusMessage

  /** A candidate owns its text and shares its attribute list, which is never null. */
  datatype Candidate = Candidate(text: string, attrList: AttrList)

  /** What a candidate carries by value: its text and its attribute entries. */
  datatype Entry = Entry(text: string, attributes: seq<Attribute>)

  /** The value of a table that the wire format carries. */
  datatype TableImage = TableImage(pageSize: int32, cursorPos: int32, cursorVisible: bool, entries: seq<Entry>)

  function EntryOf(c: Candidate): Entry {
    Entry(c.text, c.attrList.attributes)
  }

  function EntriesOf(cs: seq<Candidate>): seq<Entry> {
    seq(|cs|, i requires 0 <= i < |cs| => EntryOf(cs[i]))
  }

  function Texts(cs: seq<Candidate>): seq<string> {
    seq(|cs|, i requires 0 <= i < |cs| => cs[i].text)
  }

  function AttrLists(cs: seq<Candidate>): seq<AttrList> {
    seq(|cs|, i requires 0 <= i < |cs| => cs[i].attrList)
  }

  function AttrListSet(cs: seq<Candidate>): set<AttrList> {
    set i | 0 <= i < |cs| :: cs[i].attrList
  }

  class LookupTable {
    var refcount: int
    var pageSize: int32
    var cursorPos: int32
    var cursorVisible: bool
    var candidates: seq<Candidate>
    ghost var freed: bool
    ghost var releasedTexts: seq<string>
    ghost var releasedAttrLists: seq<AttrList>

    /** A table some owner still holds: not released, with at least one reference. */
    ghost predicate Live()
      reads this
    {
      !freed && refcount >= 1 && releasedTexts == [] && releasedAttrLists == []
    }

    function Image(): TableImage
      reads this
    {
      TableImage(pageSize, cursorPos, cursorVisible, EntriesOf(candidates))
    }

    /** ibus_lookup_table_new. */
    constructor (pageSize: int32, cursorPos: int32, cursorVisible: bool)
      ensures Live() && refcount == 1
      ensures this.pageSize == pageSize && this.cursorPos == cursorPos && this.cursorVisible == cursorVisible
      ensures candidates == []
    {
      refcount := 1;
      this.pageSize := pageSize;
      this.cursorPos := cursorPos;
      this.cursorVisible := cursorVisible;
      candidates := [];
      freed := false;
      releasedTexts := [];
      releasedAttrLists := [];
    }

    /** ibus_lookup_table_copy: the three scalars only; the candidates are not carried over. */
    method Copy() returns (t: LookupTable)
      ensures fresh(t) && t.Live() && t.refcount == 1
      ensures t.pageSize == pageSize && t.cursorPos == cursorPos && t.cursorVisible == cursorVisible
      ensures t.candidates == []
    {
      t := new LookupTable(pageSize, cursorPos, cursorVisible);
    }

    /**
     * ibus_lookup_table_append_candidate: a copy of `text` becomes the last
     * candidate, sharing `attrList` (one more reference taken) or, when none
     * is given, owning a fresh empty list.
     */
    method AppendCandidate(text: string, attrList: AttrList?)
      modifies this, attrList
      ensures |candidates| == |old(candidates)| + 1
      ensures candidates[..|old(candidates)|] == old(candidates)
      ensures candidates[|old(candidates)|].text == text
      ensures attrList != null ==>
        candidates[|old(candidates)|].attrList == attrList && attrList.refcount == old(attrList.refcount) + 1
      ensures attrList == null ==>
        var added := candidates[|old(candidates)|].attrList;
        fresh(added) && added.IsEmpty() && added.refcount == 1
      ensures Image() == old(Image()).(entries := old(Image()).entries + [EntryOf(candidates[|old(candidates)|])])
      ensures refcount == old(refcount) && pageSize == old(pageSize) && cursorPos == old(cursorPos)
      ensures cursorVisible == old(cursorVisible)
      ensures freed == old(freed) && releasedTexts == old(releasedTexts) && releasedAttrLists == old(releasedAttrLists)
    {
      var list: AttrList;
      if attrList != null {
        attrList.Ref();
        list := attrList;
      } else {
        list := new AttrList.New();
      }
      candidates := candidates + [Candidate(text, list)];
      assert EntriesOf(candidates) == EntriesOf(old(candidates)) + [EntryOf(Candidate(text, list))];
    }
  }

  /** ibus_lookup_table_ref: one more reference; null is passed through. */
  method Ref(t: LookupTable?) returns (r: LookupTable?)
    modifies t
    ensures r == t
    ensures t != null ==> t.refcount == old(t.refcount) + 1
    ensures t != null ==> t.pageSize == old(t.pageSize) && t.cursorPos == old(t.cursorPos)
    ensures t != null ==> t.cursorVisible == old(t.cursorVisible) && t.candidates == old(t.candidates)
    ensures t != null ==> t.freed == old(t.freed) && t.releasedTexts == old(t.releasedTexts)
    ensures t != null ==> t.releasedAttrLists == old(t.releasedAttrLists)
    ensures t != null && old(t.Live()) ==> t.Live()
  {
    if t == null {
      return null;
    }
    t.refcount := t.refcount + 1;
    return t;
  }

  /**
   * ibus_lookup_table_unref: gives one reference back. Once the count is zero
   * or less, every candidate's text is freed and its attribute-list reference
   * given back, one candidate at a time in order, and then the table is freed.
   */
  method Unref(t: LookupTable?)
    requires t != null ==> !t.freed
    modifies t, if t == null then {} else AttrListSet(t.candidates)
    ensures t != null ==> t.refcount == old(t.refcount) - 1 && t.candidates == old(t.candidates)
    ensures t != null ==> t.pageSize == old(t.pageSize) && t.cursorPos == old(t.cursorPos)
    ensures t != null ==> t.cursorVisible == old(t.cursorVisible)
    ensures t != null && t.refcount > 0 ==>
      !t.freed && t.releasedTexts == old(t.releasedTexts) && t.releasedAttrLists == old(t.releasedAttrLists)
    ensures t != null && t.refcount > 0 ==>
      forall a :: a in AttrListSet(t.candidates) ==> a.refcount == old(a.refcount)
    ensures t != null && old(t.Live()) && t.refcount > 0 ==> t.Live()
    ensures t != null && t.refcount <= 0 ==>
      t.freed && t.releasedTexts == old(t.releasedTexts) + Texts(t.candidates)
      && t.releasedAttrLists == old(t.releasedAttrLists) + AttrLists(t.candidates)
    ensures t != null && t.refcount <= 0 ==>
      forall a :: a in AttrListSet(t.candidates) ==>
        a.refcount == old(a.refcount) - multiset(AttrLists(t.candidates))[a]
  {
    if t == null {
      return;
    }
    t.refcount := t.refcount - 1;
    if t.refcount <= 0 {
      ghost var texts0, lists0 := t.releasedTexts, t.releasedAttrLists;
      var i := 0;
      while i < |t.candidates|
        invariant 0 <= i <= |t.candidates|
        invariant t.candidates == old(t.candidates) && t.refcount == old(t.refcount) - 1
        invariant t.pageSize == old(t.pageSize) && t.cursorPos == old(t.cursorPos)
        invariant t.cursorVisible == old(t.cursorVisible) && !t.freed
        invariant t.releasedTexts == texts0 + Texts(t.candidates[..i])
        invariant t.releasedAttrLists == lists0 + AttrLists(t.candidates[..i])
        invariant forall a :: a in AttrListSet(t.candidates) ==>
          a.refcount == old(a.refcount) - multiset(AttrLists(t.candidates[..i]))[a]
      {
        var candidate := t.candidates[i];
        assert candidate.attrList in AttrListSet(t.candidates);
        assert Texts(t.candidates[..i + 1]) == Texts(t.candidates[..i]) + [candidate.text];
        assert AttrLists(t.candidates[..i + 1]) == AttrLists(t.candidates[..i]) + [candidate.attrList];
        t.releasedTexts := t.releasedTexts + [candidate.text];
        candidate.attrList.Unref();
        t.releasedAttrLists := t.releasedAttrLists + [candidate.attrList];
        i := i + 1;
      }
      assert t.candidates[..i] == t.candidates;
      t.freed := true;
    }
  }
}
