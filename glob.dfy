/** Python's glob.glob over a given listing of the working tree. The order in which
    glob returns paths (the order the operating system lists directories in) is the
    order of the listing. */
module Globbing {
  import opened Summaries

  /** fnmatch-style matching of a relative path against a pattern: `*` matches any run
      of characters and `?` any one character, neither of them crossing a `/` (glob
      matches one path component at a time); every other character matches itself. */
  predicate Matches(pattern: string, path: string)
    decreases |pattern| + |path|
  {
    if pattern == [] then path == []
    else if pattern[0] == '*' then
      Matches(pattern[1..], path) || (path != [] && path[0] != '/' && Matches(pattern, path[1..]))
    else if pattern[0] == '?' then
      path != [] && path[0] != '/' && Matches(pattern[1..], path[1..])
    else
      path != [] && path[0] == pattern[0] && Matches(pattern[1..], path[1..])
  }

  /** The number of times c occurs in s. */
  function Count(c: char, s: string): nat
  {
    if s == [] then 0 else (if s[0] == c then 1 else 0) + Count(c, s[1..])
  }

  /** A matched path has exactly as many `/` as the pattern: the wildcards never match
      one, so a path lies exactly as many directories deep as its pattern says. */
  lemma {:induction false} MatchKeepsDepth(pattern: string, path: string)
    requires Matches(pattern, path)
    ensures Count('/', path) == Count('/', pattern)
    decreases |pattern| + |path|
  {
    if pattern == [] {
    } else if pattern[0] == '*' {
      if Matches(pattern[1..], path) {
        MatchKeepsDepth(pattern[1..], path);
      } else {
        MatchKeepsDepth(pattern, path[1..]);
      }
    } else {
      MatchKeepsDepth(pattern[1..], path[1..]);
    }
  }

  /** `glob.glob(pattern)`: the listed files whose path matches, in listing order. */
  function Glob(pattern: string, listing: seq<SummaryFile>): (found: seq<SummaryFile>)
    ensures forall f :: f in found <==> f in listing && Matches(pattern, f.path)
  {
    if listing == [] then []
    else
      var rest := Glob(pattern, listing[1..]);
      assert forall f :: f in listing <==> f == listing[0] || f in listing[1..];
      if Matches(pattern, listing[0].path) then [listing[0]] + rest else rest
  }

  /** Globbing a listing that is extended at the end extends the result at the end. */
  lemma {:induction false} GlobAppend(pattern: string, a: seq<SummaryFile>, b: seq<SummaryFile>)
    ensures Glob(pattern, a + b) == Glob(pattern, a) + Glob(pattern, b)
  {
    if a == [] {
      assert a + b == b;
    } else {
      assert (a + b)[0] == a[0] && (a + b)[1..] == a[1..] + b;
      GlobAppend(pattern, a[1..], b);
    }
  }

  /** Files none of which matches add nothing to what glob finds. */
  lemma {:induction false} GlobNoneMatch(pattern: string, files: seq<SummaryFile>)
    requires forall i :: 0 <= i < |files| ==> !Matches(pattern, files[i].path)
    ensures Glob(pattern, files) == []
  {
    if files != [] {
      GlobNoneMatch(pattern, files[1..]);
    }
  }
}
