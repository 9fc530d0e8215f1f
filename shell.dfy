/** Command lines as the scripts write them: parts separated by single spaces, read
    back by the shell as words. */
module Shell {
  import opened Text

  /** A command line made of the given parts, one space between neighbours (the
      scripts' f-strings put exactly one space after each part but the last). */
  function Line(parts: seq<string>): string
  {
    Join(parts, " ")
  }

  /** The words of each part, one part after the other. */
  function AllWords(parts: seq<string>): seq<string>
  {
    if parts == [] then [] else Words(parts[0]) + AllWords(parts[1..])
  }

  /** The shell reads a command line as the words of its parts, in order: a part that
      is empty contributes no word, and one with spaces contributes several. */
  lemma {:induction false} WordsOfLine(parts: seq<string>)
    ensures Words(Line(parts)) == AllWords(parts)
  {
    if parts == [] {
      assert Split([], ' ') == [[]];
      assert NonEmpty([[]]) == NonEmpty([]) == [];
    } else if |parts| == 1 {
      assert AllWords(parts) == Words(parts[0]) + AllWords([]);
    } else {
      WordsAround(parts[0], Line(parts[1..]));
      WordsOfLine(parts[1..]);
    }
  }

  /** A nonempty part without spaces: the shell reads it as one word. */
  predicate IsWord(s: string)
  {
    s != [] && ' ' !in s
  }

  /** Parts that are single words are read back unchanged. */
  lemma {:induction false} PlainParts(parts: seq<string>)
    requires forall i :: 0 <= i < |parts| ==> IsWord(parts[i])
    ensures AllWords(parts) == parts
  {
    if parts != [] {
      OneWord(parts[0]);
      PlainParts(parts[1..]);
    }
  }

  /** Parts read back one after the other. */
  lemma {:induction false} AllWordsAppend(a: seq<string>, b: seq<string>)
    ensures AllWords(a + b) == AllWords(a) + AllWords(b)
  {
    if a == [] {
      assert a + b == b;
    } else {
      assert (a + b)[0] == a[0] && (a + b)[1..] == a[1..] + b;
      AllWordsAppend(a[1..], b);
    }
  }

  lemma AllWordsOne(part: string)
    ensures AllWords([part]) == Words(part)
  {
    assert AllWords([part]) == Words(part) + AllWords([]);
  }

  /** Step 4 of both scripts: link every raw pod5 file of the runs (directories named
      `2025*`) into `all_pod5/`. */
  const LinkCommand: string := "find 2025*/pod5* -name '*.pod5' -exec ln -s $(realpath {}) all_pod5/ \\;"
}
