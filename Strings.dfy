/** The two string operations the file system layer relies on: Java's
    String.startsWith, compared character by character, and the split of a
    file name at its last '/' separator. */
module Strings {

  import opened Wrappers

  /** Java's s.startsWith(p): the characters of p, in order, begin s.
      Matching is literal: no case folding, no trimming. */
  predicate StartsWith(s: string, p: string)
    decreases |p|
  {
    if p == [] then true
    else if s == [] then false
    else s[0] == p[0] && StartsWith(s[1..], p[1..])
  }

  /** The character loop agrees with Dafny's sequence-prefix relation. */
  lemma {:induction false} StartsWithIsPrefix(s: string, p: string)
    ensures StartsWith(s, p) <==> p <= s
    decreases |p|
  {
    if p != [] && s != [] {
      StartsWithIsPrefix(s[1..], p[1..]);
      if s[0] == p[0] {
        assert p <= s <==> p[1..] <= s[1..];
      }
    }
  }

  /** Two prefixes of one string are comparable: the shorter begins the longer. */
  lemma PrefixesOfOneString(s: string, p: string, q: string)
    requires p <= s && q <= s && |p| <= |q|
    ensures p <= q
  {
    assert forall i :: 0 <= i < |p| ==> p[i] == s[i] == q[i];
  }

  /** The text Java's string concatenation uses for a reference: the string
      itself, or "null" for a null reference. */
  function ConcatText(s: Option<string>): string
  {
    match s
    case None => "null"
    case Some(t) => t
  }

  /** Index of the last '/' in s, if any. */
  function LastSeparator(s: string): (r: Option<nat>)
    ensures r.Some? ==> r.value < |s| && s[r.value] == '/'
    ensures r.Some? ==> forall j :: r.value < j < |s| ==> s[j] != '/'
    ensures r.None? ==> forall j :: 0 <= j < |s| ==> s[j] != '/'
    decreases |s|
  {
    if s == [] then None
    else if s[|s| - 1] == '/' then Some(|s| - 1)
    else LastSeparator(s[..|s| - 1])
  }

  /** The directory part of a file name: everything before its last '/'
      (empty when there is none). */
  function DirectoryPart(fileName: string): (r: string)
    ensures r <= fileName
  {
    match LastSeparator(fileName)
    case None => []
    case Some(i) => fileName[..i]
  }

  /** The last segment of a file name: everything after its last '/'. */
  function FileNamePart(fileName: string): (r: string)
    ensures forall j :: 0 <= j < |r| ==> r[j] != '/'
  {
    match LastSeparator(fileName)
    case None => fileName
    case Some(i) => fileName[i + 1..]
  }

  /** Appending "/" and a segment without separators, then splitting again,
      gives back the directory and the segment. */
  lemma {:induction false} SplitAppended(dir: string, segment: string)
    requires forall j :: 0 <= j < |segment| ==> segment[j] != '/'
    ensures DirectoryPart(dir + "/" + segment) == dir
    ensures FileNamePart(dir + "/" + segment) == segment
  {
    var f := dir + "/" + segment;
    assert f[|dir|] == '/';
    assert forall j :: |dir| < j < |f| ==> f[j] == segment[j - |dir| - 1];
    assert LastSeparator(f) == Some(|dir|);
    assert f[..|dir|] == dir;
    assert f[|dir| + 1..] == segment;
  }
}
