/** Small facts about sequences, kept apart so that a proof can take them
    as given instead of rediscovering them next to larger definitions. */
module Seqs {

  /** A non-empty sequence is its front followed by its last element. */
  lemma LastSplit<T>(s: seq<T>)
    requires |s| > 0
    ensures s == s[..|s| - 1] + [s[|s| - 1]]
  {
  }

  /** A non-empty sequence is its first element followed by the rest. */
  lemma FirstSplit<T>(s: seq<T>)
    requires |s| > 0
    ensures s == [s[0]] + s[1..]
  {
  }

  lemma ConcatAssociates<T>(a: seq<T>, b: seq<T>, c: seq<T>)
    ensures (a + b) + c == a + (b + c)
  {
  }

  /** The front of a sequence with one more element is the sequence. */
  lemma FrontOfSnoc<T>(s: seq<T>, x: T)
    ensures (s + [x])[..|s|] == s && (s + [x])[|s|] == x
  {
  }

  /** Prefixes within the original part are unchanged by one more element. */
  lemma PrefixOfSnoc<T>(s: seq<T>, x: T, i: nat)
    requires i < |s|
    ensures (s + [x])[..i] == s[..i] && (s + [x])[i] == s[i]
  {
  }

  lemma TakeAll<T>(s: seq<T>)
    ensures s[..|s|] == s
  {
  }

  /** The prefix of length `i + 1` is the prefix of length `i` and one more. */
  lemma TakeOneMore<T>(s: seq<T>, i: nat)
    requires i < |s|
    ensures s[..i + 1][..i] == s[..i] && s[..i + 1][i] == s[i] && |s[..i + 1]| == i + 1
  {
  }

  lemma OneElement<T>(s: seq<T>)
    requires |s| == 1
    ensures s == [s[0]]
  {
  }
}
