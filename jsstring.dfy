/**
 * `String.prototype.trim`: removes the white space and line terminators of
 * ECMAScript (section 22.1.3.32 of ECMA-262, with the WhiteSpace and
 * LineTerminator productions of section 12) from both ends of a string.
 */
module JsString {

  /** WhiteSpace or LineTerminator of ECMAScript, including the Unicode Zs category. */
  predicate IsTrimmable(c: char) {
    c == '\t' || c == '\n' || c == '\U{000B}' || c == '\U{000C}' || c == '\r' || c == ' '
    || c == '\U{00A0}' || c == '\U{1680}' || ('\U{2000}' <= c <= '\U{200A}')
    || c == '\U{2028}' || c == '\U{2029}' || c == '\U{202F}' || c == '\U{205F}'
    || c == '\U{3000}' || c == '\U{FEFF}'
  }

  predicate AllTrimmable(s: string) {
    forall k :: 0 <= k < |s| ==> IsTrimmable(s[k])
  }

  /** Number of trimmable characters at the front of `s`. */
  function LeadingRun(s: string): (k: nat)
    ensures k <= |s|
  {
    if |s| > 0 && IsTrimmable(s[0]) then 1 + LeadingRun(s[1..]) else 0
  }

  /** The leading run is all trimmable, and the character after it is not. */
  lemma {:induction false} LeadingRunIsMaximal(s: string)
    ensures AllTrimmable(s[..LeadingRun(s)])
    ensures LeadingRun(s) < |s| ==> !IsTrimmable(s[LeadingRun(s)])
  {
    if |s| > 0 && IsTrimmable(s[0]) {
      LeadingRunIsMaximal(s[1..]);
      var k := LeadingRun(s);
      assert s[..k] == [s[0]] + s[1..][..k - 1];
    }
  }

  /** Number of trimmable characters at the back of `s`. */
  function TrailingRun(s: string): (k: nat)
    ensures k <= |s|
  {
    if |s| > 0 && IsTrimmable(s[|s| - 1]) then 1 + TrailingRun(s[..|s| - 1]) else 0
  }

  /** The trailing run is all trimmable, and the character before it is not. */
  lemma {:induction false} TrailingRunIsMaximal(s: string)
    ensures AllTrimmable(s[|s| - TrailingRun(s)..])
    ensures TrailingRun(s) < |s| ==> !IsTrimmable(s[|s| - 1 - TrailingRun(s)])
  {
    if |s| > 0 && IsTrimmable(s[|s| - 1]) {
      TrailingRunIsMaximal(s[..|s| - 1]);
      var k := TrailingRun(s);
      assert s[|s| - k..] == s[..|s| - 1][|s| - k..] + [s[|s| - 1]];
    }
  }

  /** `s.trim()`: the slice of `s` between its leading and its trailing trimmable runs. */
  function Trim(s: string): (t: string)
    ensures |t| <= |s|
  {
    var i := LeadingRun(s);
    var k := TrailingRun(s[i..]);
    s[i..|s| - k]
  }

  /**
   * The trim is the slice of `s` left when trimmable runs at both ends are
   * cut off, and it neither starts nor ends with a trimmable character.
   */
  lemma TrimIsCore(s: string)
    ensures var t := Trim(s);
      (exists i, j :: 0 <= i <= j <= |s| && t == s[i..j] && AllTrimmable(s[..i]) && AllTrimmable(s[j..]))
      && (|t| > 0 ==> !IsTrimmable(t[0]) && !IsTrimmable(t[|t| - 1]))
  {
    TrimIsSlice(s);
    TrimEnds(s);
  }

  lemma TrimIsSlice(s: string)
    ensures exists i, j :: 0 <= i <= j <= |s| && Trim(s) == s[i..j] && AllTrimmable(s[..i]) && AllTrimmable(s[j..])
  {
    var i := LeadingRun(s);
    var rest := s[i..];
    var k := TrailingRun(rest);
    var j := |s| - k;
    LeadingRunIsMaximal(s);
    TrailingRunIsMaximal(rest);
    assert rest[|rest| - k..] == s[j..];
    assert 0 <= i <= j <= |s| && Trim(s) == s[i..j] && AllTrimmable(s[..i]) && AllTrimmable(s[j..]);
  }

  lemma TrimEnds(s: string)
    ensures var t := Trim(s); |t| > 0 ==> !IsTrimmable(t[0]) && !IsTrimmable(t[|t| - 1])
  {
    var i := LeadingRun(s);
    var rest := s[i..];
    var k := TrailingRun(rest);
    var t := Trim(s);
    if |t| > 0 {
      LeadingRunIsMaximal(s);
      TrailingRunIsMaximal(rest);
      assert t == s[i..|s| - k];
      assert t[0] == s[i];
      assert t[|t| - 1] == rest[|rest| - 1 - k];
    }
  }

  /** Trimming is empty exactly when the whole string is trimmable. */
  lemma TrimEmptyIff(s: string)
    ensures Trim(s) == "" <==> AllTrimmable(s)
  {
    var i := LeadingRun(s);
    LeadingRunIsMaximal(s);
    if AllTrimmable(s) {
      assert i == |s|;
    } else {
      assert s[..|s|] == s;
      assert i < |s|;
      var rest := s[i..];
      var k := TrailingRun(rest);
      TrailingRunIsMaximal(rest);
      assert rest[0] == s[i];
      assert k < |rest|;
    }
  }

  /** A string with no trimmable character at either end is its own trim. */
  lemma TrimOfTrimmed(s: string)
    requires |s| > 0 ==> !IsTrimmable(s[0]) && !IsTrimmable(s[|s| - 1])
    ensures Trim(s) == s
  {
    assert LeadingRun(s) == 0;
    assert s[0..] == s;
    assert TrailingRun(s) == 0;
    assert s[..|s|] == s;
  }

  /** Trimming twice is trimming once. */
  lemma TrimIdempotent(s: string)
    ensures Trim(Trim(s)) == Trim(s)
  {
    TrimIsCore(s);
    TrimOfTrimmed(Trim(s));
  }
}
