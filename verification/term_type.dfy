/**
 * TermType: one analysed token captured as (field, type label, term bytes).
 * The Java object holds a BytesRef, a window onto a byte array that the token
 * stream reuses and overwrites on every advance; the constructor therefore
 * deep-copies it, while setBytes stores the reference it is given.
 */
module TermTypes {

  import opened Wrappers
  import opened Values

  /** An immutable snapshot of a TermType: what a position group holds. */
  datatype TermUnit = TermUnit(field: string, ttype: string, bytes: Option<Bytes>)

  /** A BytesRef: the bytes `[offset, offset + length)` of an array that may be shared. */
  class BytesRef {
    var bytes: array<bv8>
    var offset: nat
    var length: nat

    ghost predicate Valid()
      reads this
    {
      offset + length <= bytes.Length
    }

    /** The bytes the window currently shows. */
    function Content(): Bytes
      reads this, bytes
      requires Valid()
    {
      bytes[offset..offset + length]
    }

    /** A BytesRef over a fresh array holding `content`. */
    constructor (content: Bytes)
      ensures Valid() && Content() == content
      ensures fresh(bytes)
    {
      bytes := new bv8[|content|](i requires 0 <= i < |content| => content[i]);
      offset := 0;
      length := |content|;
    }

    /** A BytesRef viewing the whole of `a`, without copying it. */
    constructor Wrap(a: array<bv8>)
      ensures bytes == a && offset == 0 && length == a.Length
      ensures Valid()
    {
      bytes := a;
      offset := 0;
      length := a.Length;
    }
  }

  /** BytesRef.deepCopyOf: a new BytesRef over a new array with the same content. */
  method DeepCopyOf(src: BytesRef) returns (copy: BytesRef)
    requires src.Valid()
    ensures copy.Valid() && copy.Content() == src.Content()
    ensures copy != src && copy.bytes != src.bytes
    ensures fresh(copy) && fresh(copy.bytes)
  {
    var a := new bv8[src.length];
    var i := 0;
    while i < src.length
      invariant 0 <= i <= src.length
      invariant forall k :: 0 <= k < i ==> a[k] == src.bytes[src.offset + k]
    {
      a[i] := src.bytes[src.offset + i];
      i := i + 1;
    }
    copy := new BytesRef.Wrap(a);
    assert copy.Content() == a[..];
  }

  /** The mutable TermType object. */
  class TermType {
    var field: string
    var ttype: string
    var bytes: BytesRef?

    /** Stores field and type as given; copies `src` so that the stream's buffer is never aliased. */
    constructor (fld: string, ttype: string, src: BytesRef?)
      requires src != null ==> src.Valid()
      ensures field == fld && this.ttype == ttype
      ensures src == null ==> bytes == null
      ensures src != null ==> bytes != null && bytes.Valid() && bytes.Content() == src.Content()
      ensures src != null ==> bytes != src && bytes.bytes != src.bytes
      ensures src != null ==> fresh(bytes) && fresh(bytes.bytes)
    {
      field := fld;
      this.ttype := ttype;
      if src == null {
        bytes := null;
      } else {
        var copy := DeepCopyOf(src);
        bytes := copy;
      }
    }

    /** Holds when the bytes, if any, are a well-formed window. */
    ghost predicate Valid()
      reads this, bytes
    {
      bytes != null ==> bytes.Valid()
    }

    /** What the object currently shows: its field, its type and the bytes its window shows now. */
    ghost function View(): TermUnit
      reads this, bytes, if bytes == null then {} else {bytes.bytes}
      requires Valid()
    {
      TermUnit(field, ttype, if bytes == null then None else Some(bytes.Content()))
    }

    function GetField(): string
      reads this
    {
      field
    }

    function GetType(): string
      reads this
    {
      ttype
    }

    function GetBytes(): BytesRef?
      reads this
    {
      bytes
    }

    method SetField(f: string)
      modifies this
      ensures GetField() == f
      ensures GetType() == old(GetType()) && GetBytes() == old(GetBytes())
    {
      field := f;
    }

    method SetType(t: string)
      modifies this
      ensures GetType() == t
      ensures GetField() == old(GetField()) && GetBytes() == old(GetBytes())
    {
      ttype := t;
    }

    /** Stores the reference itself: unlike the constructor, no copy is made. */
    method SetBytes(b: BytesRef?)
      modifies this
      ensures GetBytes() == b
      ensures GetField() == old(GetField()) && GetType() == old(GetType())
    {
      bytes := b;
    }
  }

  /**
   * The aliasing regression: a TermType built from the stream's buffer keeps the
   * bytes it saw, although the stream then overwrites that buffer.
   */
  method CopySurvivesOverwrite(fld: string, ttype: string, content: Bytes, junk: bv8)
    returns (stored: Bytes, overwritten: Bytes)
    requires |content| > 0
    ensures stored == content
    ensures overwritten == [junk] + content[1..]
  {
    var buffer := new BytesRef(content);
    var t := new TermType(fld, ttype, buffer);
    buffer.bytes[buffer.offset] := junk;
    overwritten := buffer.Content();
    stored := t.bytes.Content();
  }

  /**
   * The contrast: after setBytes, the TermType shares the caller's buffer, so an
   * overwrite of that buffer shows through.
   */
  method SetBytesShares(fld: string, ttype: string, content: Bytes, junk: bv8)
    returns (stored: Bytes)
    requires |content| > 0
    ensures stored == [junk] + content[1..]
  {
    var t := new TermType(fld, ttype, null);
    var buffer := new BytesRef(content);
    t.SetBytes(buffer);
    buffer.bytes[buffer.offset] := junk;
    stored := t.GetBytes().Content();
  }
}
