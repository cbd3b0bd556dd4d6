/** Generic facts about slicing, kept apart so that no element quantifier is in scope
    while they are proved. */
module Seqs {

  /** A sequence is its prefix, one element and its suffix. */
  lemma SplitAround<T>(s: seq<T>, i: nat)
    requires i < |s|
    ensures s == s[..i] + [s[i]] + s[i + 1..]
  {
  }

  /** Extending a prefix by the next element gives the next prefix. */
  lemma PrefixSnoc<T>(s: seq<T>, i: nat)
    requires i < |s|
    ensures s[..i] + [s[i]] == s[..i + 1]
  {
  }

  /** The full prefix is the sequence itself. */
  lemma PrefixAll<T>(s: seq<T>)
    ensures s[..|s|] == s
  {
  }

  /** The last element of a sequence occurs in every rearrangement of it. */
  lemma LastOccurs<T>(a: seq<T>, b: seq<T>)
    requires |a| > 0 && multiset(a) == multiset(b)
    ensures exists i :: 0 <= i < |b| && b[i] == a[|a| - 1]
  {
    assert a[|a| - 1] in multiset(a);
  }

  /** Dropping the last element of a and a matching element of b keeps them rearrangements
      of each other. */
  lemma MultisetRemove<T>(a: seq<T>, b: seq<T>, i: nat)
    requires |a| > 0 && i < |b| && b[i] == a[|a| - 1]
    requires multiset(a) == multiset(b)
    ensures multiset(a[..|a| - 1]) == multiset(b[..i] + b[i + 1..])
  {
    var x := b[i];
    SplitAround(b, i);
    assert multiset(b) == multiset(b[..i]) + multiset{x} + multiset(b[i + 1..]);
    assert a == a[..|a| - 1] + [x];
    assert multiset(a) == multiset(a[..|a| - 1]) + multiset{x};
    assert multiset(b[..i] + b[i + 1..]) == multiset(b[..i]) + multiset(b[i + 1..]);
    assert multiset(a[..|a| - 1]) == multiset(a) - multiset{x};
    assert multiset(b[..i] + b[i + 1..]) == multiset(b) - multiset{x};
  }
}
