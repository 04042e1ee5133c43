/**
 * String operations that the schemas apply: the `trim` and `lowercase`
 * setters and the e-mail pattern `^\S+@\S+\.\S+$` of the User schema.
 */
module Text {

  /** The whitespace characters removed by `String.prototype.trim` and excluded by `\S` (the common ones). */
  predicate IsSpace(c: char)
  {
    c == ' ' || c == '\t' || c == '\n' || c == '\r' || c == '\U{000B}' || c == '\U{000C}'
    || c == '\U{00A0}' || c == '\U{FEFF}' || c == '\U{2028}' || c == '\U{2029}'
  }

  /** Drops leading whitespace: the result is a suffix that does not start with whitespace. */
  function TrimStart(s: string): (r: string)
    ensures |r| <= |s| && r == s[|s| - |r|..]
    ensures r == [] || !IsSpace(r[0])
    ensures forall k :: 0 <= k < |s| - |r| ==> IsSpace(s[k])
  {
    if s != [] && IsSpace(s[0]) then TrimStart(s[1..]) else s
  }

  /** Drops trailing whitespace: the result is a prefix that does not end with whitespace. */
  function TrimEnd(s: string): (r: string)
    ensures |r| <= |s| && r == s[..|r|]
    ensures r == [] || !IsSpace(r[|r| - 1])
    ensures forall k :: |r| <= k < |s| ==> IsSpace(s[k])
  {
    if s != [] && IsSpace(s[|s| - 1]) then TrimEnd(s[..|s| - 1]) else s
  }

  /** A string with no whitespace at either end. */
  predicate Trimmed(s: string)
  {
    s == [] || (!IsSpace(s[0]) && !IsSpace(s[|s| - 1]))
  }

  /** The `trim` setter: drops whitespace at both ends. */
  function Trim(s: string): (r: string)
    ensures Trimmed(r)
  {
    var t := TrimStart(s);
    var r := TrimEnd(t);
    assert r != [] ==> r[0] == t[0];
    r
  }

  /** `r` is `s[i..i + |r|]` and everything outside that slice is whitespace. */
  ghost predicate CutAt(s: string, r: string, i: int)
  {
    0 <= i <= |s| - |r| && r == s[i..i + |r|]
    && (forall k :: 0 <= k < i ==> IsSpace(s[k]))
    && (forall k :: i + |r| <= k < |s| ==> IsSpace(s[k]))
  }

  /** `trim` only removes whitespace: its result is a slice of the input with only whitespace outside it. */
  lemma TrimOnlyCutsSpace(s: string)
    ensures exists i :: CutAt(s, Trim(s), i)
  {
    var t := TrimStart(s);
    assert CutAt(s, Trim(s), |s| - |t|);
  }

  /** Trimming a string that is already trimmed changes nothing. */
  lemma TrimFixesTrimmed(s: string)
    requires Trimmed(s)
    ensures Trim(s) == s
  {
    assert TrimStart(s) == s;
    assert TrimEnd(s) == s;
  }

  /** The `trim` setter is idempotent, so re-saving a stored value leaves it alone. */
  lemma TrimIdempotent(s: string)
    ensures Trim(Trim(s)) == Trim(s)
  {
    TrimFixesTrimmed(Trim(s));
  }

  function Lower(c: char): (d: char)
    ensures IsSpace(d) == IsSpace(c)
  {
    if 'A' <= c <= 'Z' then (c as int + 32) as char else c
  }

  /** The `lowercase` setter, on ASCII letters: same length, each letter lowered. */
  function ToLower(s: string): (r: string)
    ensures |r| == |s| && forall k :: 0 <= k < |s| ==> r[k] == Lower(s[k])
  {
    if s == [] then [] else [Lower(s[0])] + ToLower(s[1..])
  }

  /** What the `trim` + `lowercase` setters of the `email` path store. */
  function NormalizeEmail(s: string): string
  {
    ToLower(Trim(s))
  }

  /** Every letter is already lower-case. */
  predicate LowerCase(s: string)
  {
    forall k :: 0 <= k < |s| ==> Lower(s[k]) == s[k]
  }

  /** A value is a fixed point of the `trim` + `lowercase` setters exactly when it is trimmed and lower-case. */
  lemma NormalizedEmailIff(s: string)
    ensures NormalizeEmail(s) == s <==> Trimmed(s) && LowerCase(s)
  {
    if Trimmed(s) && LowerCase(s) {
      TrimFixesTrimmed(s);
      assert ToLower(s) == s;
    }
    if NormalizeEmail(s) == s {
      var t := Trim(s);
      assert |ToLower(t)| == |t|;
      forall k | 0 <= k < |s|
        ensures Lower(s[k]) == s[k]
      {
        assert s[k] == Lower(t[k]);
      }
      if s != [] {
        assert s[0] == Lower(t[0]) && s[|s| - 1] == Lower(t[|t| - 1]);
      }
    }
  }

  /** Storing an e-mail that was stored before yields the same value again. */
  lemma NormalizeEmailIdempotent(s: string)
    ensures NormalizeEmail(NormalizeEmail(s)) == NormalizeEmail(s)
  {
    var t := Trim(s);
    var n := ToLower(t);
    assert Trimmed(n) by {
      if n != [] {
        assert n[0] == Lower(t[0]) && n[|n| - 1] == Lower(t[|t| - 1]);
      }
    }
    TrimFixesTrimmed(n);
    ToLowerIdempotent(t);
  }

  /** What the `email` setters store is trimmed and lower-case. */
  lemma NormalizeEmailNormalized(s: string)
    ensures Trimmed(NormalizeEmail(s)) && LowerCase(NormalizeEmail(s))
  {
    NormalizeEmailIdempotent(s);
    NormalizedEmailIff(NormalizeEmail(s));
  }

  lemma ToLowerIdempotent(s: string)
    ensures ToLower(ToLower(s)) == ToLower(s)
  {
    var l := ToLower(s);
    var ll := ToLower(l);
    assert |ll| == |l|;
    forall k | 0 <= k < |l|
      ensures ll[k] == l[k]
    {
    }
  }

  predicate NoSpace(s: string)
  {
    forall k :: 0 <= k < |s| ==> !IsSpace(s[k])
  }

  /**
   * The pattern `^\S+@\S+\.\S+$`: no whitespace, an `@` after at least one
   * character, and a `.` with at least one character on each side after it.
   */
  predicate EmailShaped(s: string)
  {
    NoSpace(s) && exists a, d :: 1 <= a && a + 2 <= d && d + 2 <= |s| && s[a] == '@' && s[d] == '.'
  }

  /** Lower-casing keeps an address matching the pattern (the setter cannot break a valid address). */
  lemma LowerKeepsEmailShape(s: string)
    requires EmailShaped(s)
    ensures EmailShaped(ToLower(s))
  {
    var a, d :| 1 <= a && a + 2 <= d && d + 2 <= |s| && s[a] == '@' && s[d] == '.';
    var l := ToLower(s);
    forall k | 0 <= k < |l|
      ensures !IsSpace(l[k])
    {
      assert l[k] == Lower(s[k]);
    }
    assert l[a] == '@' && l[d] == '.';
    assert NoSpace(l);
  }
}
