/** The few pieces of Python's `str` the configuration reader relies on:
    `strip()`, `split()` with no argument, `split(sep, 1)`, and splitting a
    text into lines. */
module Text {
  import opened Wrappers
  import opened Seqs

  /** The characters Python's `str.isspace()` accepts, which are the ones
      `strip()` and `split()` remove: the ASCII controls tab to carriage
      return and the four separators 0x1C-0x1F, the space, and the Unicode
      spaces and line separators. */
  predicate IsSpace(c: char) {
    || '\t' <= c <= '\r'
    || '\U{001C}' <= c <= ' '
    || c == '\U{0085}' || c == '\U{00A0}' || c == '\U{1680}'
    || '\U{2000}' <= c <= '\U{200A}'
    || c == '\U{2028}' || c == '\U{2029}' || c == '\U{202F}' || c == '\U{205F}' || c == '\U{3000}'
  }

  predicate AllSpace(s: string) {
    forall k :: 0 <= k < |s| ==> IsSpace(s[k])
  }

  /** A non-empty run of non-space characters. */
  predicate IsWord(w: string) {
    |w| > 0 && forall k :: 0 <= k < |w| ==> !IsSpace(w[k])
  }

  /** Text that survives `strip()` unchanged and is not empty. */
  predicate Stripped(s: string) {
    |s| > 0 && !IsSpace(s[0]) && !IsSpace(s[|s| - 1])
  }

  /** `s.lstrip()`: the longest suffix of `s` that does not start with a space. */
  function TrimLeft(s: string): (r: string)
    ensures |r| <= |s| && r == s[|s| - |r|..]
    ensures AllSpace(s[..|s| - |r|])
    ensures r == [] || !IsSpace(r[0])
    decreases |s|
  {
    if |s| > 0 && IsSpace(s[0]) then
      var r := TrimLeft(s[1..]);
      SpaceThenSpaces(s, |s| - 1 - |r|);
      r
    else s
  }

  /** A leading space followed by `n` more spaces is `n + 1` spaces. */
  lemma SpaceThenSpaces(s: string, n: nat)
    requires |s| > 0 && IsSpace(s[0]) && n < |s| && AllSpace(s[1..][..n])
    ensures AllSpace(s[..n + 1]) && s[1..][n..] == s[n + 1..]
  {
    var front, rest := s[..n + 1], s[1..][..n];
    forall k | 0 <= k < |front|
      ensures IsSpace(front[k])
    {
      if k > 0 {
        assert front[k] == rest[k - 1];
      }
    }
  }

  /** `s.rstrip()`: the longest prefix of `s` that does not end with a space. */
  function TrimRight(s: string): (r: string)
    ensures |r| <= |s| && r == s[..|r|]
    ensures AllSpace(s[|r|..])
    ensures r == [] || !IsSpace(r[|r| - 1])
    decreases |s|
  {
    if |s| > 0 && IsSpace(s[|s| - 1]) then
      var r := TrimRight(s[..|s| - 1]);
      SpacesThenSpace(s, |r|);
      r
    else s
  }

  /** Spaces from `n` up to a trailing space are spaces from `n` to the end. */
  lemma SpacesThenSpace(s: string, n: nat)
    requires |s| > 0 && IsSpace(s[|s| - 1]) && n < |s| && AllSpace(s[..|s| - 1][n..])
    ensures AllSpace(s[n..]) && s[..|s| - 1][..n] == s[..n]
  {
    var back, rest := s[n..], s[..|s| - 1][n..];
    forall k | 0 <= k < |back|
      ensures IsSpace(back[k])
    {
      if k < |back| - 1 {
        assert back[k] == rest[k];
      }
    }
  }

  /** `s.strip()`. */
  function Trim(s: string): string {
    TrimRight(TrimLeft(s))
  }

  /** `s.strip()` cuts only spaces, and only at the two ends: the result is a
      slice of `s` framed by spaces, and neither of its ends is a space. */
  lemma TrimIsFramedSlice(s: string)
    ensures exists i, j :: 0 <= i <= j <= |s| && Trim(s) == s[i..j]
                           && AllSpace(s[..i]) && AllSpace(s[j..])
    ensures Trim(s) == [] || (!IsSpace(Trim(s)[0]) && !IsSpace(Trim(s)[|Trim(s)| - 1]))
  {
    var l := TrimLeft(s);
    var i := |s| - |l|;
    var r := TrimRight(l);
    var j := i + |r|;
    SliceOfSuffix(s, i, |r|);
    assert r == s[i..j];
    assert AllSpace(s[j..]) by {
      assert s[j..] == l[|r|..];
    }
    assert r != [] ==> r[0] == l[0];
  }

  lemma SliceOfSuffix(s: string, i: nat, n: nat)
    requires i + n <= |s|
    ensures s[i..][..n] == s[i..i + n] && s[i..][n..] == s[i + n..]
  {
  }

  /** Stripping twice is stripping once. */
  lemma TrimIdempotent(s: string)
    ensures Trim(Trim(s)) == Trim(s)
  {
    var t := Trim(s);
    assert TrimLeft(t) == t;
  }

  /** Spaces around a body that neither starts nor ends with a space are
      exactly what `strip()` removes. */
  lemma {:induction false} TrimFramed(pre: string, body: string, post: string)
    requires AllSpace(pre) && AllSpace(post)
    requires body == [] || (!IsSpace(body[0]) && !IsSpace(body[|body| - 1]))
    ensures Trim(pre + body + post) == body
  {
    var tail := body + post;
    assert pre + body + post == pre + tail;
    TrimLeftSpaces(pre, tail);
    if body == [] {
      assert tail == post;
      TrimLeftAllSpace(post);
    } else {
      assert tail[0] == body[0];
      TrimLeftNoSpace(tail);
      TrimRightSpaces(body, post);
    }
  }

  /** Text without spaces at its ends is its own strip. */
  lemma TrimNoEnds(s: string)
    requires s == [] || (!IsSpace(s[0]) && !IsSpace(s[|s| - 1]))
    ensures Trim(s) == s
  {
    TrimLeftNoSpace(s);
    TrimRightSpaces(s, []);
    assert s + [] == s;
  }

  /** One leading space is stripped as well. */
  lemma TrimSpaceBefore(s: string)
    requires s == [] || (!IsSpace(s[0]) && !IsSpace(s[|s| - 1]))
    ensures Trim(" " + s) == s
  {
    assert AllSpace(" ") by {
      assert " "[0] == ' ';
    }
    TrimLeftSpaces(" ", s);
    TrimNoEnds(s);
    assert Trim(" " + s) == TrimRight(TrimLeft(s));
  }

  lemma {:induction false} TrimLeftSpaces(pre: string, s: string)
    requires AllSpace(pre)
    ensures TrimLeft(pre + s) == TrimLeft(s)
    decreases |pre|
  {
    if |pre| > 0 {
      var ps := pre + s;
      assert ps[0] == pre[0] && IsSpace(ps[0]);
      assert ps[1..] == pre[1..] + s;
      TrimLeftSpaces(pre[1..], s);
    } else {
      assert pre + s == s;
    }
  }

  lemma {:induction false} TrimLeftAllSpace(s: string)
    requires AllSpace(s)
    ensures TrimLeft(s) == [] && TrimRight([]) == []
  {
  }

  lemma {:induction false} TrimRightSpaces(s: string, post: string)
    requires AllSpace(post)
    requires s == [] || !IsSpace(s[|s| - 1])
    ensures TrimRight(s + post) == s
    decreases |post|
  {
    if |post| > 0 {
      var sp := s + post;
      assert sp[..|sp| - 1] == s + post[..|post| - 1];
      TrimRightSpaces(s, post[..|post| - 1]);
    } else {
      assert s + post == s;
    }
  }

  /** The position of the first occurrence of `c` in `s`, if any. */
  function IndexOf(s: string, c: char): (r: Option<nat>)
    ensures r.None? <==> c !in s
    ensures r.Some? ==> r.value < |s| && s[r.value] == c && c !in s[..r.value]
    decreases |s|
  {
    if |s| == 0 then None
    else if s[0] == c then Some(0)
    else
      match IndexOf(s[1..], c)
      case None => None
      case Some(i) => Some(i + 1)
  }

  /** `s.split(sep, 1)`, or None when `sep` does not occur: the text before the
      first separator and everything after it. */
  function SplitFirst(s: string, sep: char): (r: Option<(string, string)>)
    ensures r.None? <==> sep !in s
    ensures r.Some? ==> s == r.value.0 + [sep] + r.value.1 && sep !in r.value.0
  {
    match IndexOf(s, sep)
    case None => None
    case Some(i) =>
      assert s == s[..i] + [sep] + s[i + 1..];
      Some((s[..i], s[i + 1..]))
  }

  /** Splitting at a separator the head does not contain gives head and rest. */
  lemma SplitFirstAt(head: string, sep: char, rest: string)
    requires sep !in head
    ensures SplitFirst(head + [sep] + rest, sep) == Some((head, rest))
  {
    var s := head + [sep] + rest;
    IndexOfFirst(s, sep, |head|);
    assert s[..|head|] == head && s[|head| + 1..] == rest;
  }

  lemma {:induction false} IndexOfFirst(s: string, c: char, i: nat)
    requires i < |s| && s[i] == c && c !in s[..i]
    ensures IndexOf(s, c) == Some(i)
    decreases i
  {
    if i > 0 {
      assert s[0] in s[..i];
      assert s[1..][..i - 1] == s[1..i];
      IndexOfFirst(s[1..], c, i - 1);
    }
  }

  /** `s.split(sep)`: the pieces between separators, never an empty list. */
  function Split(s: string, sep: char): (r: seq<string>)
    ensures |r| > 0
    ensures forall k :: 0 <= k < |r| ==> sep !in r[k]
    decreases |s|
  {
    match SplitFirst(s, sep)
    case None => [s]
    case Some((head, rest)) => [head] + Split(rest, sep)
  }

  /** `sep.join(parts)`. */
  function Join(parts: seq<string>, sep: char): string
    decreases |parts|
  {
    if |parts| == 0 then ""
    else if |parts| == 1 then parts[0]
    else parts[0] + [sep] + Join(parts[1..], sep)
  }

  /** Splitting loses nothing: joining the pieces back gives the text. */
  lemma {:induction false} JoinSplit(s: string, sep: char)
    ensures Join(Split(s, sep), sep) == s
    decreases |s|
  {
    match SplitFirst(s, sep)
    case None =>
    case Some((head, rest)) =>
      JoinSplit(rest, sep);
      assert Split(s, sep) == [head] + Split(rest, sep);
  }

  /** Splitting a joined list of separator-free pieces gives the pieces back. */
  lemma {:induction false} SplitJoin(parts: seq<string>, sep: char)
    requires |parts| > 0
    requires forall k :: 0 <= k < |parts| ==> sep !in parts[k]
    ensures Split(Join(parts, sep), sep) == parts
    decreases |parts|
  {
    if |parts| == 1 {
      assert sep !in Join(parts, sep);
    } else {
      var s := Join(parts, sep);
      var tail := Join(parts[1..], sep);
      assert s == parts[0] + [sep] + tail;
      var i := |parts[0]|;
      assert s[i] == sep && s[..i] == parts[0];
      assert IndexOf(s, sep) == Some(i);
      assert s[i + 1..] == tail;
      SplitJoin(parts[1..], sep);
    }
  }

  /** Lines of a text file whose line breaks are all `'\n'`, as iterating
      over the open file yields them (the break itself is dropped; every
      caller strips lines anyway). A lone `'\r'` stays inside its line. */
  function Lines(text: string): seq<string> {
    Split(text, '\n')
  }

  /** Length of the leading run of non-space characters of `t`. */
  function WordLength(t: string): (n: nat)
    ensures n <= |t|
    ensures forall k :: 0 <= k < n ==> !IsSpace(t[k])
    ensures n == |t| || IsSpace(t[n])
    decreases |t|
  {
    if |t| == 0 || IsSpace(t[0]) then 0 else 1 + WordLength(t[1..])
  }

  /** `s.split()`: the maximal runs of non-space characters, in order. */
  function Words(s: string): (r: seq<string>)
    ensures forall k :: 0 <= k < |r| ==> IsWord(r[k])
    decreases |s|
  {
    var t := TrimLeft(s);
    if |t| == 0 then []
    else
      var n := WordLength(t);
      assert n > 0;
      assert IsWord(t[..n]);
      [t[..n]] + Words(t[n..])
  }

  /** `" ".join(words)`. */
  function JoinWords(words: seq<string>): string
    decreases |words|
  {
    if |words| == 0 then ""
    else if |words| == 1 then words[0]
    else words[0] + " " + JoinWords(words[1..])
  }

  /** The leading run of non-space characters is determined by where the
      first space (or the end) is. */
  lemma {:induction false} WordLengthAt(t: string, n: nat)
    requires n <= |t|
    requires forall k :: 0 <= k < n ==> !IsSpace(t[k])
    requires n == |t| || IsSpace(t[n])
    ensures WordLength(t) == n
    decreases |t|
  {
    if n > 0 {
      WordLengthAt(t[1..], n - 1);
    }
  }

  /** A space-joined list ends where its last word ends. */
  lemma {:induction false} JoinWordsEnd(words: seq<string>)
    requires |words| > 0 && IsWord(words[|words| - 1])
    ensures |JoinWords(words)| > 0
    ensures JoinWords(words)[|JoinWords(words)| - 1] == words[|words| - 1][|words[|words| - 1]| - 1]
    decreases |words|
  {
    if |words| > 1 {
      JoinWordsEnd(words[1..]);
    }
  }

  /** A character other than the space occurs in a space-joined list only if
      it occurs in one of the words. */
  lemma {:induction false} JoinWordsAvoids(words: seq<string>, c: char)
    requires c != ' '
    requires forall k :: 0 <= k < |words| ==> c !in words[k]
    ensures c !in JoinWords(words)
    decreases |words|
  {
    if |words| > 1 {
      JoinWordsAvoids(words[1..], c);
    }
  }

  lemma {:induction false} JoinWordsStart(words: seq<string>)
    requires |words| > 0 && IsWord(words[0])
    ensures |JoinWords(words)| > 0 && JoinWords(words)[0] == words[0][0]
  {
  }

  lemma TrimLeftNoSpace(s: string)
    requires |s| == 0 || !IsSpace(s[0])
    ensures TrimLeft(s) == s
  {
  }

  /** Tokenising a space-joined list of words gives the words back. */
  lemma {:induction false} WordsOfJoinWords(words: seq<string>)
    requires forall k :: 0 <= k < |words| ==> IsWord(words[k])
    ensures Words(JoinWords(words)) == words
    decreases |words|
  {
    if |words| == 0 {
      WordsOfNone(words);
    } else if |words| == 1 {
      WordsOfSingle(words);
    } else {
      forall k | 0 <= k < |words[1..]|
        ensures IsWord(words[1..][k])
      {
        assert words[1..][k] == words[k + 1];
      }
      WordsOfJoinWords(words[1..]);
      WordsOfFront(words);
    }
  }

  lemma WordsOfNone(words: seq<string>)
    requires |words| == 0
    ensures Words(JoinWords(words)) == words
  {
  }

  lemma WordsOfSingle(words: seq<string>)
    requires |words| == 1 && IsWord(words[0])
    ensures Words(JoinWords(words)) == words
  {
    WordsOfSingleAt(words, words[0]);
  }

  lemma WordsOfSingleAt(words: seq<string>, w: string)
    requires words == [w] && IsWord(w)
    ensures Words(JoinWords(words)) == words
  {
    WordsOfOne(w);
  }

  lemma WordsOfFront(words: seq<string>)
    requires |words| > 1 && IsWord(words[0]) && IsWord(words[1])
    requires Words(JoinWords(words[1..])) == words[1..]
    ensures Words(JoinWords(words)) == words
  {
    WordsOfJoinWordsStep(words[0], words[1..]);
    assert [words[0]] + words[1..] == words;
  }

  lemma WordsOfJoinWordsStep(w: string, rest: seq<string>)
    requires IsWord(w) && |rest| > 0 && IsWord(rest[0])
    requires Words(JoinWords(rest)) == rest
    ensures Words(JoinWords([w] + rest)) == [w] + rest
  {
    var tail := JoinWords(rest);
    assert ([w] + rest)[1..] == rest;
    assert JoinWords([w] + rest) == w + " " + tail;
    JoinWordsStart(rest);
    WordsAfterWord(w, tail);
  }

  lemma WordsOfOne(w: string)
    requires IsWord(w)
    ensures Words(JoinWords([w])) == [w]
  {
    assert JoinWords([w]) == w;
    WordsOfWord(w);
  }

  lemma WordsOfWord(w: string)
    requires IsWord(w)
    ensures Words(w) == [w]
  {
    TrimLeftNoSpace(w);
    WordLengthAt(w, |w|);
    assert w[..|w|] == w && w[|w|..] == [];
    assert Words(w) == [w] + Words([]);
  }

  /** A word, a space and a text that does not start with a space: the word
      comes first, then the words of the text. */
  lemma WordsAfterWord(w: string, tail: string)
    requires IsWord(w)
    requires |tail| > 0 && !IsSpace(tail[0])
    ensures Words(w + " " + tail) == [w] + Words(tail)
  {
    var rest := " " + tail;
    assert rest[0] == ' ';
    WordLengthOfWord(w, rest);
    WordsOfWordThen(w + rest, w, rest);
    WordsSkipSpace(tail);
    ConcatAssociates(w, " ", tail);
  }

  /** A text that starts with a whole word: that word, then the rest's words. */
  lemma WordsOfWordThen(s: string, w: string, rest: string)
    requires IsWord(w) && s == w + rest && WordLength(s) == |w|
    ensures Words(s) == [w] + Words(rest)
  {
    TrimLeftNoSpace(s);
    WordsStep(s);
    assert s[..|w|] == w && s[|w|..] == rest;
  }

  /** One step of `split()` on a text that is not blank. */
  lemma WordsStep(s: string)
    requires |TrimLeft(s)| > 0
    ensures Words(s) == [TrimLeft(s)[..WordLength(TrimLeft(s))]] + Words(TrimLeft(s)[WordLength(TrimLeft(s))..])
  {
  }

  /** A leading space changes nothing `split()` returns. */
  lemma WordsSkipSpace(s: string)
    ensures Words(" " + s) == Words(s)
  {
    assert AllSpace(" ") by {
      assert " "[0] == ' ';
    }
    TrimLeftSpaces(" ", s);
  }

  /** A word followed by a space or by nothing is one leading run. */
  lemma {:induction false} WordLengthOfWord(w: string, rest: string)
    requires IsWord(w)
    requires rest == [] || IsSpace(rest[0])
    ensures WordLength(w + rest) == |w|
    decreases |w|
  {
    var t := w + rest;
    assert t[0] == w[0] && t[1..] == w[1..] + rest;
    if |w| == 1 {
      assert w[1..] + rest == rest;
    } else {
      assert IsWord(w[1..]) by {
        forall k | 0 <= k < |w[1..]| ensures !IsSpace(w[1..][k]) {
          assert w[1..][k] == w[k + 1];
        }
      }
      WordLengthOfWord(w[1..], rest);
    }
  }
}
