/**
 * Whitespace trimming on the ASCII range: the space character and the control
 * characters tab, line feed, vertical tab, form feed and carriage return are
 * removed from both ends. Both JavaScript's `String.prototype.trim` and
 * Python's `str.strip()` also remove non-ASCII spaces, and Python removes the
 * separators U+001C to U+001F too; this model keeps all of those.
 */
module Text {

  predicate IsSpace(c: char) {
    c == ' ' || '\t' <= c <= '\r'
  }

  /** Drops the leading whitespace of `s`. */
  function TrimStart(s: string): (r: string)
    ensures |r| <= |s| && r == s[|s| - |r|..]
    ensures forall i :: 0 <= i < |s| - |r| ==> IsSpace(s[i])
    ensures |r| > 0 ==> !IsSpace(r[0])
  {
    if |s| > 0 && IsSpace(s[0]) then TrimStart(s[1..]) else s
  }

  /** Drops the trailing whitespace of `s`. */
  function TrimEnd(s: string): (r: string)
    ensures |r| <= |s| && r == s[..|r|]
    ensures forall i :: |r| <= i < |s| ==> IsSpace(s[i])
    ensures |r| > 0 ==> !IsSpace(r[|r| - 1])
  {
    if |s| > 0 && IsSpace(s[|s| - 1]) then TrimEnd(s[..|s| - 1]) else s
  }

  /** Both ends trimmed: `text.trim()` in the client, `query.strip()` in the server. */
  function Trim(s: string): (r: string)
    ensures |r| <= |s|
  {
    TrimStart(TrimEnd(s))
  }

  /** Where the trimmed text sits in the input: between two cut points with
      only whitespace outside them. */
  lemma TrimBounds(s: string) returns (i: nat, j: nat)
    ensures i <= j <= |s| && Trim(s) == s[i..j]
    ensures forall p :: 0 <= p < i ==> IsSpace(s[p])
    ensures forall p :: j <= p < |s| ==> IsSpace(s[p])
  {
    var e := TrimEnd(s);
    var r := TrimStart(e);
    i, j := |e| - |r|, |e|;
    assert r == s[i..j] by {
      assert e == s[..j] && r == e[i..];
    }
    forall p | 0 <= p < i
      ensures IsSpace(s[p])
    {
      assert e[p] == s[p];
    }
  }

  /** The trimmed text is a slice of the input with no whitespace at either end,
      and everything cut away was whitespace. */
  lemma TrimIsInnerSlice(s: string)
    ensures exists i, j ::
              && 0 <= i <= j <= |s| && Trim(s) == s[i..j]
              && (forall p :: 0 <= p < i ==> IsSpace(s[p]))
              && (forall p :: j <= p < |s| ==> IsSpace(s[p]))
    ensures |Trim(s)| > 0 ==> !IsSpace(Trim(s)[0]) && !IsSpace(Trim(s)[|Trim(s)| - 1])
  {
    var i, j := TrimBounds(s);
    var e, r := TrimEnd(s), Trim(s);
    if |r| > 0 {
      assert r == e[|e| - |r|..];
      assert r[|r| - 1] == e[|e| - 1];
    }
  }

  /** Trimming twice is trimming once. */
  lemma TrimIdempotent(s: string)
    ensures Trim(Trim(s)) == Trim(s)
  {
    var t := Trim(s);
    TrimIsInnerSlice(s);
    if |t| > 0 {
      assert TrimEnd(t) == t;
    }
  }
}
