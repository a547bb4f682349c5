/** JavaScript string behaviour the site relies on: `String.prototype.trim`,
    `String.prototype.includes`, and the whitespace set shared by `trim`
    and the regular-expression class `\s`. */
module JsText {

  /** ECMAScript WhiteSpace and LineTerminator code points: the set that
      `trim` strips and that `\s` matches (`\S` is its complement). */
  predicate IsWhitespace(c: char) {
    var n := c as int;
    n == 0x09 || n == 0x0A || n == 0x0B || n == 0x0C || n == 0x0D || n == 0x20 ||
    n == 0xA0 || n == 0x1680 || (0x2000 <= n <= 0x200A) ||
    n == 0x2028 || n == 0x2029 || n == 0x202F || n == 0x205F || n == 0x3000 || n == 0xFEFF
  }

  /** Blank strings: those for which `!s.trim()` holds (see TrimEmptyIff). */
  predicate AllWhitespace(s: string) {
    forall i :: 0 <= i < |s| ==> IsWhitespace(s[i])
  }

  /** Drops leading whitespace: the result is the suffix of `s` that starts
      at its first non-whitespace character. */
  function TrimStart(s: string): (r: string)
    ensures |r| <= |s| && r == s[|s| - |r|..]
    ensures r == [] || !IsWhitespace(r[0])
    ensures AllWhitespace(s[..|s| - |r|])
  {
    if s == [] || !IsWhitespace(s[0]) then s
    else
      var r := TrimStart(s[1..]);
      assert s[..|s| - |r|] == [s[0]] + s[1..][..|s| - 1 - |r|];
      r
  }

  /** Drops trailing whitespace: the result is the prefix of `s` that ends
      at its last non-whitespace character. */
  function TrimEnd(s: string): (r: string)
    ensures |r| <= |s| && r == s[..|r|]
    ensures r == [] || !IsWhitespace(r[|r| - 1])
    ensures AllWhitespace(s[|r|..])
  {
    if s == [] || !IsWhitespace(s[|s| - 1]) then s
    else
      var r := TrimEnd(s[..|s| - 1]);
      assert s[|r|..] == s[..|s| - 1][|r|..] + [s[|s| - 1]];
      r
  }

  /** The string with leading and trailing whitespace removed: the slice of
      `s` starting at `k`, with no whitespace at either end, everything cut
      away before and after it being whitespace. */
  function Trim(s: string): (r: string)
    ensures |r| <= |s|
    ensures r == [] || (!IsWhitespace(r[0]) && !IsWhitespace(r[|r| - 1]))
    ensures var k := |s| - |TrimStart(s)|;
      && k + |r| <= |s|
      && r == s[k..k + |r|]
      && AllWhitespace(s[..k])
      && AllWhitespace(s[k + |r|..])
  {
    TrimSlice(s);
    TrimEnd(TrimStart(s))
  }

  /** The facts behind Trim's contract, about its two halves. */
  lemma TrimSlice(s: string)
    ensures var t := TrimStart(s); var r := TrimEnd(t); var k := |s| - |t|;
      && k + |r| <= |s|
      && r == s[k..k + |r|]
      && AllWhitespace(s[..k])
      && AllWhitespace(s[k + |r|..])
      && (r == [] || (!IsWhitespace(r[0]) && !IsWhitespace(r[|r| - 1])))
  {
    var t := TrimStart(s);
    var r := TrimEnd(t);
    var k := |s| - |t|;
    assert s[k + |r|..] == t[|r|..];
    assert r == [] || r[0] == t[0];
  }

  /** `!s.trim()` holds exactly for strings made only of whitespace
      (the empty string included). */
  lemma TrimEmptyIff(s: string)
    ensures Trim(s) == [] <==> AllWhitespace(s)
  {
    var t := TrimStart(s);
    var k := |s| - |t|;
    assert s == s[..k] + t;
    if Trim(s) == [] {
      assert AllWhitespace(t[0..]);
      assert t == [];
      assert s == s[..k];
    } else {
      var r := Trim(s);
      assert r == t[..|r|];
      assert s[k] == t[0] == r[0];
    }
  }

  /** `p` occurs in `s` starting at index `i`. */
  predicate OccursAt(s: string, p: string, i: int) {
    0 <= i && i + |p| <= |s| && s[i..i + |p|] == p
  }

  /** Past a first character that does not start a match, the occurrences
      of `p` in `s` are those in `s[1..]`, one index later. */
  lemma OccursShifted(s: string, p: string)
    requires |p| <= |s| && s[..|p|] != p
    ensures (exists i :: OccursAt(s, p, i)) <==> (exists i :: OccursAt(s[1..], p, i))
  {
    forall i ensures OccursAt(s[1..], p, i) <==> OccursAt(s, p, i + 1) {
      if 0 <= i && i + |p| <= |s| - 1 {
        assert s[1..][i..i + |p|] == s[i + 1..i + 1 + |p|];
      }
    }
    if exists i :: OccursAt(s, p, i) {
      var i :| OccursAt(s, p, i);
      assert i != 0;
      assert OccursAt(s[1..], p, i - 1);
    }
  }

  /** The case-sensitive substring test of `includes`: true exactly when `p`
      occurs somewhere in `s`. */
  function Contains(s: string, p: string): (r: bool)
    ensures r <==> exists i :: OccursAt(s, p, i)
  {
    if |p| > |s| then
      assert forall i :: !OccursAt(s, p, i);
      false
    else if s[..|p|] == p then
      assert OccursAt(s, p, 0);
      true
    else
      var r := Contains(s[1..], p);
      OccursShifted(s, p);
      r
  }
}
