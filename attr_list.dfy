/**
 * The attribute list attached to each lookup-table candidate (IBusAttrList).
 * It belongs to a collaborator of the lookup table: only what the table
 * relies on is kept, namely an object identity, a reference count, the
 * attribute entries it carries (compared by value, never inspected) and
 * whether it is empty.
 */
module IBusAttrList {

  /** One text decoration; its fields are carried along, never interpreted. */
  datatype Attribute = Attribute(kind: nat, value: nat, startIndex: nat, endIndex: nat)

  class AttrList {
    const attributes: seq<Attribute>
    var refcount: int

    /** A fresh list with no entries and one reference (ibus_attr_list_new). */
    constructor New()
      ensures IsEmpty() && refcount == 1
    {
      attributes := [];
      refcount := 1;
    }

    /** A fresh list holding the entries read from a message, with one reference. */
    constructor Decoded(entries: seq<Attribute>)
      ensures attributes == entries && refcount == 1
    {
      attributes := entries;
      refcount := 1;
    }

    predicate IsEmpty() {
      attributes == []
    }

    /** Takes one more reference (ibus_attr_list_ref). */
    method Ref()
      modifies this
      ensures refcount == old(refcount) + 1
    {
      refcount := refcount + 1;
    }

    /** Gives one reference back (ibus_attr_list_unref). */
    method Unref()
      modifies this
      ensures refcount == old(refcount) - 1
    {
      refcount := refcount - 1;
    }
  }
}
