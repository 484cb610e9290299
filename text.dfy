/**
 * String trimming as JavaScript's String.prototype.trim performs it: leading and
 * trailing white space and line terminators are removed, nothing else changes.
 */
module Text {

  /** The code points ECMAScript counts as WhiteSpace or LineTerminator. */
  const SpaceChars: set<char> := {
    '\t', '\n', '\U{B}', '\U{C}', '\r', ' ', '\U{A0}', '\U{1680}',
    '\U{2000}', '\U{2001}', '\U{2002}', '\U{2003}', '\U{2004}', '\U{2005}',
    '\U{2006}', '\U{2007}', '\U{2008}', '\U{2009}', '\U{200A}',
    '\U{2028}', '\U{2029}', '\U{202F}', '\U{205F}', '\U{3000}', '\U{FEFF}'
  }

  predicate IsSpace(c: char) {
    c in SpaceChars
  }

  /** Every character of `s` is white space (vacuously true of the empty string). */
  predicate AllSpace(s: string) {
    forall i :: 0 <= i < |s| ==> IsSpace(s[i])
  }

  /** A string with no white space at either end. */
  predicate Trimmed(s: string) {
    s == [] || (!IsSpace(s[0]) && !IsSpace(s[|s| - 1]))
  }

  /** `s` without its trailing white space: a prefix of `s` whose dropped suffix is all white space. */
  function TrimEnd(s: string): (r: string)
    ensures |r| <= |s| && r == s[..|r|]
    ensures AllSpace(s[|r|..])
    ensures r == [] || !IsSpace(r[|r| - 1])
  {
    if s == [] || !IsSpace(s[|s| - 1]) then s
    else
      var r := TrimEnd(s[..|s| - 1]);
      var k := |r|;
      assert s[..|s| - 1][..k] == s[..k];
      assert AllSpace(s[k..]) by {
        forall i | 0 <= i < |s| - k ensures IsSpace(s[k..][i]) {
          if i < |s| - 1 - k { assert s[k..][i] == s[..|s| - 1][k..][i]; }
        }
      }
      r
  }

  /**
   * JavaScript's `s.trim()`: leading white space is skipped, then trailing white
   * space is cut. The result has no white space at either end, and it is empty
   * exactly when `s` is all white space.
   */
  function Trim(s: string): (r: string)
    ensures |r| <= |s|
    ensures Trimmed(r)
    ensures r == [] <==> AllSpace(s)
  {
    if s != [] && IsSpace(s[0]) then
      var r := Trim(s[1..]);
      assert AllSpace(s) <==> AllSpace(s[1..]) by {
        if AllSpace(s[1..]) {
          forall i | 0 < i < |s| ensures IsSpace(s[i]) { assert s[i] == s[1..][i - 1]; }
        }
      }
      r
    else
      var r := TrimEnd(s);
      assert s != [] ==> s[0..] == s;
      r
  }

  /** Leading white space makes no difference to the trimmed result. */
  lemma {:induction false} TrimSkipsLeading(lead: string, t: string)
    requires AllSpace(lead)
    requires t == [] || !IsSpace(t[0])
    ensures Trim(lead + t) == TrimEnd(t)
  {
    if lead != [] {
      assert (lead + t)[1..] == lead[1..] + t;
      TrimSkipsLeading(lead[1..], t);
    } else {
      assert lead + t == t;
    }
  }

  /** Dropping trailing white space stops at the last non-space character. */
  lemma {:induction false} TrimEndSkips(t: string, trail: string)
    requires AllSpace(trail)
    requires t == [] || !IsSpace(t[|t| - 1])
    ensures TrimEnd(t + trail) == t
  {
    if trail != [] {
      var last := |trail| - 1;
      assert (t + trail)[..|t + trail| - 1] == t + trail[..last];
      TrimEndSkips(t, trail[..last]);
    } else {
      assert t + trail == t;
    }
  }

  /**
   * An independent description of trimming: surrounding a string that has no white
   * space at its ends with any white space, then trimming, gives that string back.
   */
  lemma {:induction false} TrimStripsSurroundingSpace(lead: string, core: string, trail: string)
    requires AllSpace(lead) && AllSpace(trail)
    requires Trimmed(core)
    ensures Trim(lead + core + trail) == core
  {
    if core == [] {
      assert lead + core + trail == lead + trail;
      assert AllSpace(lead + trail);
    } else {
      assert lead + core + trail == lead + (core + trail);
      TrimSkipsLeading(lead, core + trail);
      TrimEndSkips(core, trail);
    }
  }

  /** Trimming twice is trimming once. */
  lemma TrimIdempotent(s: string)
    ensures Trim(Trim(s)) == Trim(s)
  {
  }
}
