/**
 * The few Python string built-ins that the bot relies on: `str.isspace`,
 * `str.strip`, `str.startswith` and `str.join`, over strings of code points.
 */
module PyStrings {

  /** The code points for which Python's `str.isspace()` holds: the characters `str.strip()` removes. */
  const Whitespace: set<char> := {'\t', '\n', '\U{000B}', '\U{000C}', '\r', '\U{001C}', '\U{001D}', '\U{001E}', '\U{001F}', ' ',
    '\U{0085}', '\U{00A0}', '\U{1680}', '\U{2000}', '\U{2001}', '\U{2002}', '\U{2003}', '\U{2004}', '\U{2005}', '\U{2006}',
    '\U{2007}', '\U{2008}', '\U{2009}', '\U{200A}', '\U{2028}', '\U{2029}', '\U{202F}', '\U{205F}', '\U{3000}'}
  /** `c.isspace()` for a single code point. */
  predicate IsSpace(c: char) {
    c in Whitespace
  }

  /** `s.lstrip()`: drops every leading whitespace character and nothing else. */
  function StripLeading(s: string): (r: string)
    ensures |r| <= |s| && r == s[|s| - |r|..]
    ensures forall i :: 0 <= i < |s| - |r| ==> IsSpace(s[i])
    ensures r != [] ==> !IsSpace(r[0])
  {
    if s != [] && IsSpace(s[0]) then
      var r := StripLeading(s[1..]);
      assert s[1..][|s| - 1 - |r|..] == s[|s| - |r|..];
      assert forall i :: 1 <= i < |s| - |r| ==> s[i] == s[1..][i - 1];
      r
    else s
  }

  /** `s.rstrip()`: drops every trailing whitespace character and nothing else. */
  function StripTrailing(s: string): (r: string)
    ensures |r| <= |s| && r == s[..|r|]
    ensures forall i :: |r| <= i < |s| ==> IsSpace(s[i])
    ensures r != [] ==> !IsSpace(r[|r| - 1])
  {
    if s != [] && IsSpace(s[|s| - 1]) then
      var r := StripTrailing(s[..|s| - 1]);
      assert s[..|s| - 1][..|r|] == s[..|r|];
      assert forall i :: |r| <= i < |s| - 1 ==> s[i] == s[..|s| - 1][i];
      r
    else s
  }

  /**
   * `s.strip()`: the result is the contiguous middle part of `s` left once the
   * whitespace at both ends is removed, and it neither starts nor ends with whitespace.
   */
  function Strip(s: string): (r: string)
    ensures var j := |StripTrailing(s)|;
      && |r| <= j <= |s|
      && r == s[j - |r|..j]
      && (forall k :: 0 <= k < j - |r| ==> IsSpace(s[k]))
      && (forall k :: j <= k < |s| ==> IsSpace(s[k]))
    ensures r != [] ==> !IsSpace(r[0]) && !IsSpace(r[|r| - 1])
  {
    var right := StripTrailing(s);
    var r := StripLeading(right);
    StripComposes(s, right, r);
    r
  }

  /** Stripping the front of a prefix of `s` leaves a slice of `s` whose dropped front is whitespace. */
  lemma StripComposes(s: string, right: string, r: string)
    requires |right| <= |s| && right == s[..|right|]
    requires |r| <= |right| && r == right[|right| - |r|..]
    requires forall i :: 0 <= i < |right| - |r| ==> IsSpace(right[i])
    ensures r == s[|right| - |r|..|right|]
    ensures forall k :: 0 <= k < |right| - |r| ==> IsSpace(s[k])
  {
    assert forall k :: 0 <= k < |right| ==> s[k] == right[k];
  }

  /** `s.startswith(prefix)`. */
  predicate StartsWith(s: string, prefix: string) {
    |prefix| <= |s| && s[..|prefix|] == prefix
  }

  /** `sep.join(parts)`. */
  function Join(sep: string, parts: seq<string>): (r: string)
    ensures parts == [] ==> r == ""
    ensures |parts| == 1 ==> r == parts[0]
  {
    if parts == [] then ""
    else if |parts| == 1 then parts[0]
    else parts[0] + sep + Join(sep, parts[1..])
  }

  /** Adding a part to a non-empty list adds the separator and then the part at the end. */
  lemma {:induction false} JoinSnoc(sep: string, ps: seq<string>, p: string)
    requires ps != []
    ensures Join(sep, ps + [p]) == Join(sep, ps) + sep + p
  {
    if |ps| > 1 {
      assert (ps + [p])[1..] == ps[1..] + [p];
      JoinSnoc(sep, ps[1..], p);
    }
  }
}
