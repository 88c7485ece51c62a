/** String tests the services rely on: the case-insensitive location match,
    the well-formedness test for ids and id equality. */
module Text {

  /** ASCII case folding: upper-case letters become lower-case, every other
      character is left alone. */
  function Lower(c: char): (r: char)
    ensures !('A' <= r <= 'Z')
    ensures !('A' <= c <= 'Z') ==> r == c
  {
    if 'A' <= c <= 'Z' then (c as int - 'A' as int + 'a' as int) as char else c
  }

  function LowerAll(s: string): (r: string)
    ensures |r| == |s|
    ensures forall i | 0 <= i < |s| :: r[i] == Lower(s[i])
  {
    seq(|s|, i requires 0 <= i < |s| => Lower(s[i]))
  }

  /** `needle` occurs in `hay` starting at position `i`. */
  predicate OccursAt(needle: string, hay: string, i: int) {
    0 <= i && i + |needle| <= |hay| && hay[i..i + |needle|] == needle
  }

  predicate Contains(hay: string, needle: string) {
    exists i | 0 <= i <= |hay| :: OccursAt(needle, hay, i)
  }

  /** The location test: `needle` is a substring of `hay` once both are case
      folded. `getAllListings` hands the query text to the store as a regular
      expression with the `i` flag; only literal text is modelled. */
  predicate ContainsIgnoringCase(hay: string, needle: string) {
    Contains(LowerAll(hay), LowerAll(needle))
  }

  /** A window of `hay` that equals `needle` letter by letter up to case is a
      match, and every match is such a window. */
  lemma ContainsIgnoringCaseAt(hay: string, needle: string)
    ensures ContainsIgnoringCase(hay, needle) <==>
      exists i | 0 <= i && i + |needle| <= |hay| :: SameUpToCaseAt(hay, needle, i)
  {
    var h, n := LowerAll(hay), LowerAll(needle);
    if ContainsIgnoringCase(hay, needle) {
      var i :| 0 <= i <= |h| && OccursAt(n, h, i);
      forall k | 0 <= k < |needle| ensures Lower(hay[i + k]) == Lower(needle[k]) {
        assert h[i..i + |n|][k] == n[k];
      }
      assert SameUpToCaseAt(hay, needle, i);
    }
    if exists i | 0 <= i && i + |needle| <= |hay| :: SameUpToCaseAt(hay, needle, i) {
      var i :| 0 <= i && i + |needle| <= |hay| && SameUpToCaseAt(hay, needle, i);
      assert h[i..i + |n|] == n;
      assert OccursAt(n, h, i);
    }
  }

  /** The letters of `hay` from position `i` on agree with `needle` up to case. */
  predicate SameUpToCaseAt(hay: string, needle: string, i: int)
    requires 0 <= i && i + |needle| <= |hay|
  {
    forall k | 0 <= k < |needle| :: Lower(hay[i + k]) == Lower(needle[k])
  }

  /** Folding the query text first does not change the answer. */
  lemma {:induction false} CaseOfNeedleIrrelevant(hay: string, needle: string)
    ensures ContainsIgnoringCase(hay, LowerAll(needle)) == ContainsIgnoringCase(hay, needle)
  {
    assert LowerAll(LowerAll(needle)) == LowerAll(needle);
  }

  predicate IsHexDigit(c: char) {
    '0' <= c <= '9' || 'a' <= c <= 'f' || 'A' <= c <= 'F'
  }

  /** The well-formedness test for an id string: exactly 24 hexadecimal
      digits, in either case. This approximates the id library's own test. */
  predicate IsObjectId(s: string) {
    |s| == 24 && forall i | 0 <= i < |s| :: IsHexDigit(s[i])
  }

  /** Two id strings denote the same ObjectId. The store casts an id to the
      twelve bytes its hex digits encode and compares those, so spellings that
      differ only in the case of their letters name the same document. */
  predicate SameObjectId(a: string, b: string) {
    LowerAll(a) == LowerAll(b)
  }

  /** Two spellings that agree letter by letter up to case are the same id,
      and two ids of different lengths never are. */
  lemma SameObjectIdUpToCase(a: string, b: string)
    ensures (|a| == |b| && forall i | 0 <= i < |a| :: Lower(a[i]) == Lower(b[i])) <==> SameObjectId(a, b)
  {
    if SameObjectId(a, b) {
      forall i | 0 <= i < |a| ensures Lower(a[i]) == Lower(b[i]) {
        assert LowerAll(a)[i] == LowerAll(b)[i];
      }
    }
  }

  /** A spelling of a well-formed id is itself well-formed. */
  lemma SameObjectIdKeepsWellFormed(a: string, b: string)
    requires IsObjectId(a) && SameObjectId(a, b)
    ensures IsObjectId(b)
  {
    SameObjectIdUpToCase(a, b);
    forall i | 0 <= i < |b| ensures IsHexDigit(b[i]) {
      assert Lower(a[i]) == Lower(b[i]);
    }
  }
}
