/**
 * Record identifiers of the document store: twelve bytes written as 24
 * hexadecimal digits. Parsing accepts either case and yields the canonical
 * lower-case form, which is also how an identifier is printed.
 */
module ObjectIds {
  import opened Common

  predicate IsHexDigit(c: char)
  {
    ('0' <= c <= '9') || ('a' <= c <= 'f') || ('A' <= c <= 'F')
  }

  predicate IsLowerHexDigit(c: char)
  {
    ('0' <= c <= '9') || ('a' <= c <= 'f')
  }

  /** The printed form of an identifier: exactly 24 lower-case hex digits. */
  predicate IsCanonical(s: string)
  {
    |s| == 24 && forall i :: 0 <= i < |s| ==> IsLowerHexDigit(s[i])
  }

  type ObjectId = s: string | IsCanonical(s) witness "000000000000000000000000"

  function LowerHex(c: char): (d: char)
    requires IsHexDigit(c)
    ensures IsLowerHexDigit(d)
    ensures IsLowerHexDigit(c) ==> d == c
  {
    if 'A' <= c <= 'F' then (c as int - 'A' as int + 'a' as int) as char else c
  }

  /** Parse an identifier; anything but 24 hex digits is malformed. */
  function Parse(s: string): (r: Option<ObjectId>)
    ensures r.Some? <==> |s| == 24 && forall i :: 0 <= i < |s| ==> IsHexDigit(s[i])
    ensures r.Some? ==> forall i :: 0 <= i < |s| ==> r.value[i] == LowerHex(s[i])
  {
    if |s| == 24 && forall i :: 0 <= i < |s| ==> IsHexDigit(s[i]) then
      var t := seq(|s|, i requires 0 <= i < |s| => LowerHex(s[i]));
      Some(t)
    else None
  }

  /** Printing an identifier and parsing it back gives the same identifier. */
  lemma ParsePrinted(id: ObjectId)
    ensures Parse(id) == Some(id)
  {
    var r := Parse(id);
    assert r.Some?;
    assert r.value == id;
  }
}
