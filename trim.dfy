/**
 * The blank-draft test of the messaging page, `messageValue.trim() === ""`.
 *
 * String.prototype.trim removes, from both ends of a string, every code point
 * that ECMA-262 classifies as WhiteSpace (section 12.2) or LineTerminator
 * (section 12.3). A Dafny `char` is one code point; every code point that
 * trim removes is in the Basic Multilingual Plane, so the test agrees with
 * the one over UTF-16 code units.
 */
module EcmaTrim {

  /** WhiteSpace, ECMA-262 section 12.2: TAB, VT, FF, ZWNBSP and every
      code point of Unicode category Zs (space separators). */
  predicate IsWhiteSpace(c: char) {
    var u := c as int;
    u == 0x0009 || u == 0x000B || u == 0x000C || u == 0xFEFF ||
    u == 0x0020 || u == 0x00A0 || u == 0x1680 ||
    (0x2000 <= u <= 0x200A) ||
    u == 0x202F || u == 0x205F || u == 0x3000
  }

  /** LineTerminator, ECMA-262 section 12.3: LF, CR, LS and PS. */
  predicate IsLineTerminator(c: char) {
    var u := c as int;
    u == 0x000A || u == 0x000D || u == 0x2028 || u == 0x2029
  }

  /** The code points that the TrimString operation strips. */
  predicate IsTrimmable(c: char) {
    IsWhiteSpace(c) || IsLineTerminator(c)
  }

  /** Number of trimmable characters at the start of `s`. */
  function LeadingSpace(s: string): (k: nat)
    ensures k <= |s|
    ensures forall i :: 0 <= i < k ==> IsTrimmable(s[i])
    ensures k < |s| ==> !IsTrimmable(s[k])
  {
    if |s| > 0 && IsTrimmable(s[0]) then 1 + LeadingSpace(s[1..]) else 0
  }

  /** Number of trimmable characters at the end of `s`. */
  function TrailingSpace(s: string): (k: nat)
    ensures k <= |s|
    ensures forall i :: |s| - k <= i < |s| ==> IsTrimmable(s[i])
    ensures k < |s| ==> !IsTrimmable(s[|s| - 1 - k])
  {
    if |s| > 0 && IsTrimmable(s[|s| - 1]) then 1 + TrailingSpace(s[..|s| - 1]) else 0
  }

  /** String.prototype.trim: the part of `s` left after its leading and
      trailing white space is removed. The result is the slice of `s` that
      starts after the leading white space; everything after it is white
      space; and it neither starts nor ends with white space. */
  function Trim(s: string): (t: string)
    ensures LeadingSpace(s) + |t| <= |s|
    ensures t == s[LeadingSpace(s)..LeadingSpace(s) + |t|]
    ensures forall i :: LeadingSpace(s) + |t| <= i < |s| ==> IsTrimmable(s[i])
    ensures t != [] ==> !IsTrimmable(t[0]) && !IsTrimmable(t[|t| - 1])
  {
    var rest := s[LeadingSpace(s)..];
    rest[..|rest| - TrailingSpace(rest)]
  }

  /** `s.trim() === ""`: true exactly when every character of `s` is white
      space or a line terminator (so the empty string is blank too). */
  predicate IsBlank(s: string)
    ensures IsBlank(s) <==> forall i :: 0 <= i < |s| ==> IsTrimmable(s[i])
  {
    Trim(s) == ""
  }
}
