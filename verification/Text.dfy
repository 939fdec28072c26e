/**
 Strings as the source normalises them: `trim()` and `toUpperCase()`.
 Letters outside ASCII are left alone.
 */
module Text {

  predicate IsSpace(c: char) {
    c == ' ' || c == '\t' || c == '\n' || c == '\r'
  }

  function TrimStart(s: string): (r: string)
    ensures |r| <= |s|
    ensures r == "" || !IsSpace(r[0])
  {
    if s != "" && IsSpace(s[0]) then TrimStart(s[1..]) else s
  }

  function TrimEnd(s: string): (r: string)
    ensures |r| <= |s| && r == s[..|r|]
    ensures r == "" || !IsSpace(r[|r| - 1])
  {
    if s != "" && IsSpace(s[|s| - 1]) then TrimEnd(s[..|s| - 1]) else s
  }

  function Trim(s: string): (r: string)
    ensures |r| <= |s|
    ensures Clean(r)
  {
    TrimEnd(TrimStart(s))
  }

  /** A string that `trim()` leaves alone. */
  predicate Clean(s: string) {
    s == "" || (!IsSpace(s[0]) && !IsSpace(s[|s| - 1]))
  }

  lemma TrimFixesClean(s: string)
    requires Clean(s)
    ensures Trim(s) == s
  {
  }

  function UpperChar(c: char): char {
    if 'a' <= c <= 'z' then (c as int - 32) as char else c
  }

  function Upper(s: string): (r: string)
    ensures |r| == |s|
    ensures forall i :: 0 <= i < |s| ==> r[i] == UpperChar(s[i])
  {
    seq(|s|, i requires 0 <= i < |s| => UpperChar(s[i]))
  }

  /** The source's currency normaliser: trim, then upper-case. */
  function Norm(s: string): string {
    Upper(Trim(s))
  }

  /** A string already in normal form. */
  predicate Normal(s: string) {
    Clean(s) && Upper(s) == s
  }

  lemma NormFixesNormal(s: string)
    requires Normal(s)
    ensures Norm(s) == s
  {
    TrimFixesClean(s);
  }

  /** A text without a colon, a colon and any text: both parts can be read back. */
  lemma SplitAtColon(x: string, y: string, u: string, v: string)
    requires ':' !in x && ':' !in u && x + ":" + y == u + ":" + v
    ensures x == u && y == v
  {
    var s := x + ":" + y;
    assert s[|x|] == ':' && s[|u|] == ':';
    assert forall i :: 0 <= i < |x| ==> s[i] == x[i];
    assert forall i :: 0 <= i < |u| ==> s[i] == u[i];
    assert |x| == |u|;
    assert s[..|x|] == x && s[..|u|] == u;
    assert s[|x| + 1..] == y && s[|u| + 1..] == v;
  }
}
