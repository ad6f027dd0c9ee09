/** String helpers of the route generator: slash stripping and upper-casing. */
module Text {

  predicate HasLeadingSlash(s: string) {
    |s| > 0 && s[0] == '/'
  }

  predicate HasTrailingSlash(s: string) {
    |s| > 0 && s[|s| - 1] == '/'
  }

  /** `strip_slashes`: drops one '/' from the start, then one '/' from the end
      of what is left. */
  function StripSlashes(name: string): (r: string)
    ensures |name| - 2 <= |r| <= |name|
    ensures HasLeadingSlash(name) || HasTrailingSlash(name) ==> |r| < |name|
    ensures 2 <= |name| && HasLeadingSlash(name) && HasTrailingSlash(name) ==> |r| == |name| - 2
    ensures !HasTrailingSlash(name) ==> |r| == |name| - (if HasLeadingSlash(name) then 1 else 0)
    ensures !HasLeadingSlash(name) && HasTrailingSlash(name) ==> |r| == |name| - 1
    ensures forall k :: 0 <= k < |r| ==> r[k] == name[k + if HasLeadingSlash(name) then 1 else 0]
    ensures !HasLeadingSlash(name) && !HasTrailingSlash(name) ==> r == name
  {
    var s := if HasLeadingSlash(name) then name[1..] else name;
    if HasTrailingSlash(s) then s[..|s| - 1] else s
  }

  /** A slash added at the end of a name that had none is stripped again. */
  lemma StripSlashesIgnoresTrailingSlash(s: string)
    requires !HasTrailingSlash(s)
    ensures StripSlashes(s + "/") == StripSlashes(s)
  {
    var t := s + "/";
    if HasLeadingSlash(s) {
      assert |s| >= 2;
      assert t[1..] == s[1..] + "/";
      assert t[1..][..|t[1..]| - 1] == s[1..];
    } else {
      assert t[..|t| - 1] == s;
    }
  }

  /** A slash added at the start of a name that had none is stripped again. */
  lemma StripSlashesIgnoresLeadingSlash(s: string)
    requires !HasLeadingSlash(s)
    ensures StripSlashes("/" + s) == StripSlashes(s)
  {
    assert ("/" + s)[1..] == s;
  }

  predicate IsLower(c: char) {
    'a' <= c <= 'z'
  }

  /** No lower-case ASCII letter in `s`. */
  predicate IsUpper(s: string) {
    forall i :: 0 <= i < |s| ==> !IsLower(s[i])
  }

  function UpperChar(c: char): char {
    if IsLower(c) then (c as int - 32) as char else c
  }

  /** Python's `str.upper()`, restricted to ASCII letters. */
  function Upper(s: string): (r: string)
    ensures |r| == |s| && IsUpper(r)
    ensures forall i :: 0 <= i < |s| && !IsLower(s[i]) ==> r[i] == s[i]
    ensures forall i :: 0 <= i < |s| && IsLower(s[i]) ==> r[i] as int == s[i] as int - 32
  {
    seq(|s|, i requires 0 <= i < |s| => UpperChar(s[i]))
  }

  /** Upper-casing a string that has no lower-case letter changes nothing. */
  lemma UpperKeepsUpper(s: string)
    requires IsUpper(s)
    ensures Upper(s) == s
  {
  }

  /** The HTTP verbs the defaults use are already upper-case. */
  lemma UpperVerbs()
    ensures Upper("GET") == "GET" && Upper("POST") == "POST"
    ensures Upper("PUT") == "PUT" && Upper("DELETE") == "DELETE"
  {
    UpperKeepsUpper("GET");
    UpperKeepsUpper("POST");
    UpperKeepsUpper("PUT");
    UpperKeepsUpper("DELETE");
  }
}
