/** The Python string operations the scripts rely on: str.strip(), str.upper(),
    str.lower(), slicing s[:n], str.split(sep), sep.join(parts), shell word
    splitting, and the regular expression `^(.*?)_` used to derive a group key. */
module Text {
  import opened Outcomes

  /** The characters Python's str.isspace() accepts, i.e. those str.strip() removes. */
  predicate IsSpace(c: char)
  {
    || c == ' '
    || ('\t' <= c <= '\r')
    || ('\U{1C}' <= c <= '\U{1F}')
    || c == '\U{85}' || c == '\U{A0}' || c == '\U{1680}'
    || ('\U{2000}' <= c <= '\U{200A}')
    || c == '\U{2028}' || c == '\U{2029}' || c == '\U{202F}' || c == '\U{205F}' || c == '\U{3000}'
  }

  /** The number of white-space characters s starts with. */
  function LeadingSpaces(s: string): (n: nat)
    ensures n <= |s| && (forall k :: 0 <= k < n ==> IsSpace(s[k])) && (n < |s| ==> !IsSpace(s[n]))
  {
    if s != [] && IsSpace(s[0]) then 1 + LeadingSpaces(s[1..]) else 0
  }

  /** The number of white-space characters s ends with. */
  function TrailingSpaces(s: string): (n: nat)
    ensures n <= |s| && (forall k :: |s| - n <= k < |s| ==> IsSpace(s[k]))
    ensures n < |s| ==> !IsSpace(s[|s| - n - 1])
  {
    if s != [] && IsSpace(s[|s| - 1]) then 1 + TrailingSpaces(s[..|s| - 1]) else 0
  }

  /** Python's s.strip(). */
  function Strip(s: string): string
  {
    var i := LeadingSpaces(s);
    s[i..|s| - TrailingSpaces(s[i..])]
  }

  /** Strip gives the infix of s left when the white space at both ends is cut away:
      everything cut is white space, and the result neither starts nor ends with it. */
  lemma StripCutsOnlySpaces(s: string)
    ensures exists i, j :: 0 <= i <= j <= |s| && Strip(s) == s[i..j]
                           && (forall k :: 0 <= k < i ==> IsSpace(s[k]))
                           && (forall k :: j <= k < |s| ==> IsSpace(s[k]))
    ensures var r := Strip(s); r == [] || (!IsSpace(r[0]) && !IsSpace(r[|r| - 1]))
  {
    var i := LeadingSpaces(s);
    var j := |s| - TrailingSpaces(s[i..]);
    assert forall k :: j <= k < |s| ==> s[k] == s[i..][k - i];
    assert Strip(s) == s[i..j];
  }

  /** Strip depends on s only through which of its characters are white space. */
  lemma {:induction false} LeadingSpacesAgree(s: string, t: string)
    requires |s| == |t| && forall k :: 0 <= k < |s| ==> IsSpace(s[k]) == IsSpace(t[k])
    ensures LeadingSpaces(s) == LeadingSpaces(t)
  {
    if s != [] {
      LeadingSpacesAgree(s[1..], t[1..]);
    }
  }

  lemma {:induction false} TrailingSpacesAgree(s: string, t: string)
    requires |s| == |t| && forall k :: 0 <= k < |s| ==> IsSpace(s[k]) == IsSpace(t[k])
    ensures TrailingSpaces(s) == TrailingSpaces(t)
  {
    if s != [] {
      TrailingSpacesAgree(s[..|s| - 1], t[..|t| - 1]);
    }
  }

  /** Upper case of one character, as Python's str.upper() gives it for the characters
      whose upper case is a single ASCII letter; every other character is kept. */
  function UpperChar(c: char): char
  {
    if 'a' <= c <= 'z' then (c as int - 32) as char
    else if c == '\U{17F}' then 'S'   // LATIN SMALL LETTER LONG S
    else if c == '\U{131}' then 'I'   // LATIN SMALL LETTER DOTLESS I
    else c
  }

  /** Lower case of one ASCII character; every other character is kept. */
  function LowerChar(c: char): char
  {
    if 'A' <= c <= 'Z' then (c as int + 32) as char else c
  }

  /** Python's s.upper(), character by character. */
  function Upper(s: string): string
  {
    seq(|s|, i requires 0 <= i < |s| => UpperChar(s[i]))
  }

  /** Python's s.lower() on ASCII text. */
  function Lower(s: string): string
  {
    seq(|s|, i requires 0 <= i < |s| => LowerChar(s[i]))
  }

  /** How both scripts read a prompt answer: `input().strip().upper()`. */
  function Normalize(s: string): string
  {
    Upper(Strip(s))
  }

  /** Two strings with white space at the same positions are stripped at the same
      positions. */
  lemma StripAtSamePositions(s: string, t: string)
    requires |s| == |t| && forall k :: 0 <= k < |s| ==> IsSpace(s[k]) == IsSpace(t[k])
    ensures LeadingSpaces(s) == LeadingSpaces(t)
    ensures TrailingSpaces(s[LeadingSpaces(s)..]) == TrailingSpaces(t[LeadingSpaces(t)..])
  {
    LeadingSpacesAgree(s, t);
    var i := LeadingSpaces(s);
    TrailingSpacesAgree(s[i..], t[i..]);
  }

  lemma LowerKeepsSpaces(s: string)
    ensures |Lower(s)| == |s| && forall k :: 0 <= k < |s| ==> IsSpace(s[k]) == IsSpace(Lower(s)[k])
  {
    forall k | 0 <= k < |s| ensures IsSpace(s[k]) == IsSpace(Lower(s)[k]) {
      assert Lower(s)[k] == LowerChar(s[k]);
    }
  }

  lemma LowerSlice(s: string, i: nat, j: nat)
    requires i <= j <= |s|
    ensures Lower(s)[i..j] == Lower(s[i..j])
  {
  }

  /** Lower-casing does not change which characters are white space, so it commutes
      with Strip. */
  lemma StripLower(s: string)
    ensures Strip(Lower(s)) == Lower(Strip(s))
  {
    var l := Lower(s);
    var i := LeadingSpaces(s);
    var j := |s| - TrailingSpaces(s[i..]);
    assert LeadingSpaces(l) == i && TrailingSpaces(l[i..]) == |s| - j by {
      LowerKeepsSpaces(s);
      StripAtSamePositions(s, l);
    }
    LowerSlice(s, i, j);
  }

  /** Both scripts accept their answers in any letter case: lower-casing the answer
      first gives the same normalised value. */
  lemma NormalizeIgnoresCase(s: string)
    ensures Normalize(Lower(s)) == Normalize(s)
  {
    StripLower(s);
    var t := Strip(s);
    assert forall k :: 0 <= k < |t| ==> UpperChar(LowerChar(t[k])) == UpperChar(t[k]);
    assert Upper(Lower(t)) == Upper(t);
  }

  /** Python's s[:n]: the first n characters, or all of s when it is shorter. */
  function Take(s: string, n: nat): (r: string)
    ensures |r| == if |s| < n then |s| else n
    ensures r <= s
  {
    if |s| <= n then s else s[..n]
  }

  /** Equal texts with a common start and middle parts of one length agree on the
      middle parts and on what follows them. */
  lemma CancelPrefix(p: string, x1: string, y1: string, x2: string, y2: string)
    requires p + x1 + y1 == p + x2 + y2 && |x1| == |x2|
    ensures x1 == x2 && y1 == y2
  {
    assert x1 == (p + x1 + y1)[|p|..|p| + |x1|];
    assert x2 == (p + x2 + y2)[|p|..|p| + |x2|];
    assert y1 == (p + x1 + y1)[|p| + |x1|..];
    assert y2 == (p + x2 + y2)[|p| + |x2|..];
  }

  /** Python's s.split(sep) for a one-character separator: the maximal pieces of s
      between separators, so that there is always one piece more than separators. */
  function Split(s: string, sep: char): (r: seq<string>)
    ensures |r| >= 1
  {
    if s == [] then [[]]
    else
      var rest := Split(s[1..], sep);
      if s[0] == sep then [[]] + rest else [[s[0]] + rest[0]] + rest[1..]
  }

  /** Python's sep.join(parts). */
  function Join(parts: seq<string>, sep: string): string
  {
    if parts == [] then []
    else if |parts| == 1 then parts[0]
    else parts[0] + sep + Join(parts[1..], sep)
  }

  /** A string without the separator splits into itself. */
  lemma {:induction false} SplitWithoutSeparator(s: string, sep: char)
    requires sep !in s
    ensures Split(s, sep) == [s]
  {
    if s != [] {
      assert sep !in s[1..] by { assert forall k :: 0 <= k < |s[1..]| ==> s[1..][k] == s[k + 1]; }
      SplitWithoutSeparator(s[1..], sep);
      assert [s[0]] + s[1..] == s;
    }
  }

  /** Splitting at one separator splits each side on its own. */
  lemma {:induction false} SplitAround(a: string, sep: char, b: string)
    ensures Split(a + [sep] + b, sep) == Split(a, sep) + Split(b, sep)
  {
    if a == [] {
      assert ([sep] + b)[1..] == b;
    } else {
      assert (a + [sep] + b)[1..] == a[1..] + [sep] + b;
      SplitAround(a[1..], sep, b);
    }
  }

  /** Joining with a one-character separator and splitting at it gives the parts back,
      provided there is at least one part and no part contains the separator. */
  lemma {:induction false} SplitJoin(parts: seq<string>, sep: char)
    requires parts != []
    requires forall i :: 0 <= i < |parts| ==> sep !in parts[i]
    ensures Split(Join(parts, [sep]), sep) == parts
  {
    if |parts| == 1 {
      SplitWithoutSeparator(parts[0], sep);
    } else {
      SplitWithoutSeparator(parts[0], sep);
      SplitJoin(parts[1..], sep);
      SplitAround(parts[0], sep, Join(parts[1..], [sep]));
    }
  }

  /** The joined text ends with the last part: no separator is added after it. */
  lemma {:induction false} JoinEndsWithLastPart(parts: seq<string>, sep: string)
    requires parts != []
    ensures |Join(parts, sep)| >= |parts[|parts| - 1]|
    ensures Join(parts, sep)[|Join(parts, sep)| - |parts[|parts| - 1]|..] == parts[|parts| - 1]
  {
    if |parts| > 1 {
      JoinEndsWithLastPart(parts[1..], sep);
      var j := Join(parts[1..], sep);
      var last := parts[|parts| - 1];
      assert parts[1..][|parts[1..]| - 1] == last;
      assert Join(parts, sep) == parts[0] + sep + j;
      assert (parts[0] + sep + j)[|parts[0] + sep + j| - |last|..] == j[|j| - |last|..];
    }
  }

  /** The pieces that are not empty, in order. */
  function NonEmpty(pieces: seq<string>): (r: seq<string>)
    ensures forall i :: 0 <= i < |r| ==> r[i] != []
  {
    if pieces == [] then []
    else if pieces[0] == [] then NonEmpty(pieces[1..])
    else [pieces[0]] + NonEmpty(pieces[1..])
  }

  lemma {:induction false} NonEmptyAppend(a: seq<string>, b: seq<string>)
    ensures NonEmpty(a + b) == NonEmpty(a) + NonEmpty(b)
  {
    if a == [] {
      assert a + b == b;
    } else {
      assert (a + b)[0] == a[0];
      assert (a + b)[1..] == a[1..] + b;
      NonEmptyAppend(a[1..], b);
      if a[0] != [] {
        assert NonEmpty(a) + NonEmpty(b) == [a[0]] + (NonEmpty(a[1..]) + NonEmpty(b));
      }
    }
  }

  /** The words a POSIX shell splits an unquoted command line into at spaces; runs of
      spaces count as one. (Quote removal is not part of this function.) */
  function Words(s: string): seq<string>
  {
    NonEmpty(Split(s, ' '))
  }

  /** Words on both sides of a space are the words of each side. */
  lemma WordsAround(a: string, b: string)
    ensures Words(a + " " + b) == Words(a) + Words(b)
  {
    SplitAround(a, ' ', b);
    NonEmptyAppend(Split(a, ' '), Split(b, ' '));
  }

  /** A nonempty string without spaces is one word; the empty string has none. */
  lemma OneWord(s: string)
    requires ' ' !in s
    ensures Words(s) == if s == [] then [] else [s]
  {
    SplitWithoutSeparator(s, ' ');
    assert [s][0] == s && [s][1..] == [];
    assert NonEmpty([]) == [];
  }

  /** pandas `str.extract(r"^(.*?)_")`: the shortest prefix of s followed by an
      underscore, provided that prefix has no line break (`.` does not match one);
      None (a missing value) when there is no such prefix. */
  function BeforeUnderscore(s: string): (r: Option<string>)
    ensures r.Some? ==> r.value + "_" <= s && '_' !in r.value && '\n' !in r.value
  {
    if s == [] then None
    else if s[0] == '_' then Some([])
    else if s[0] == '\n' then None
    else
      match BeforeUnderscore(s[1..])
      case None => None
      case Some(p) =>
        assert [s[0]] + p + "_" == [s[0]] + (p + "_");
        Some([s[0]] + p)
  }

  /** A name made of a key without underscore or line break, an underscore and
      anything else yields that key (`"ABC123_def.pod5"` yields `"ABC123"`). */
  lemma {:induction false} BeforeUnderscoreOfKey(key: string, rest: string)
    requires '_' !in key && '\n' !in key
    ensures BeforeUnderscore(key + "_" + rest) == Some(key)
  {
    var s := key + "_" + rest;
    if key != [] {
      assert s[0] == key[0] && s[1..] == key[1..] + "_" + rest;
      BeforeUnderscoreOfKey(key[1..], rest);
      assert [key[0]] + key[1..] == key;
    }
  }

  /** The expression finds no key exactly when a line break comes before every underscore. */
  lemma {:induction false} BeforeUnderscoreNone(s: string)
    ensures BeforeUnderscore(s).None? <==> forall i :: 0 <= i < |s| && s[i] == '_' ==> '\n' in s[..i]
  {
    if s != [] && s[0] != '_' && s[0] != '\n' {
      BeforeUnderscoreNone(s[1..]);
      forall i | 1 <= i < |s|
        ensures ('\n' in s[..i]) == ('\n' in s[1..][..i - 1])
      {
        assert s[..i] == [s[0]] + s[1..][..i - 1];
      }
      if BeforeUnderscore(s).Some? {
        var p := BeforeUnderscore(s).value;
        assert s[|p|] == '_' by { assert (p + "_")[|p|] == '_'; }
        assert s[..|p|] == p;
      }
    } else if s != [] && s[0] == '_' {
      assert s[..0] == [];
    }
  }
}
