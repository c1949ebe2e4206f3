
/** Character-sequence helpers shared by the validator and the artifact readers. */
module Strings {

  /** Position of the first `c` in `s` at or after `i`, or `|s|` when there is none. */
  function IndexFrom(s: string, c: char, i: nat): (k: nat)
    requires i <= |s|
    ensures i <= k <= |s|
    ensures k < |s| ==> s[k] == c
    decreases |s| - i
  {
    if i == |s| then i
    else if s[i] == c then i
    else IndexFrom(s, c, i + 1)
  }

  /** Position of the first `c` in `s`, or `|s|` when `s` has none. */
  function IndexOf(s: string, c: char): (k: nat)
    ensures k <= |s|
    ensures k < |s| ==> s[k] == c
  {
    IndexFrom(s, c, 0)
  }

  /** The search passes over positions that do not hold `c`. */
  lemma {:induction false} IndexFromSkips(s: string, c: char, i: nat, k: nat)
    requires i <= k <= |s|
    requires forall j :: i <= j < k ==> s[j] != c
    ensures IndexFrom(s, c, i) == IndexFrom(s, c, k)
    decreases k - i
  {
    if i < k {
      IndexFromSkips(s, c, i + 1, k);
    }
  }

  /** No `c` comes before the position found from `i`. */
  lemma {:induction false} IndexFromFirst(s: string, c: char, i: nat)
    requires i <= |s|
    ensures forall j :: i <= j < IndexFrom(s, c, i) ==> s[j] != c
    decreases |s| - i
  {
    if i < |s| && s[i] != c {
      IndexFromFirst(s, c, i + 1);
    }
  }

  /** No `c` comes before the position `IndexOf` finds. */
  lemma IndexOfFirst(s: string, c: char)
    ensures c !in s[..IndexOf(s, c)]
  {
    var k := IndexOf(s, c);
    IndexFromFirst(s, c, 0);
    assert forall j :: 0 <= j < k ==> s[..k][j] == s[j];
  }

  /** In `a + [c] + b` with no `c` in `a`, the first `c` is the one right after `a`. */
  lemma IndexOfAfter(a: string, c: char, b: string)
    requires c !in a
    ensures IndexOf(a + [c] + b, c) == |a|
  {
    var s := a + [c] + b;
    assert forall j :: 0 <= j < |a| ==> s[j] == a[j];
    IndexFromSkips(s, c, 0, |a|);
    assert s[|a|] == c;
  }

  /** A text that starts with `head` and ends with `tail` is the two around what lies between. */
  lemma Unframe(s: string, head: string, tail: string)
    requires |s| >= |head| + |tail| && s[..|head|] == head && s[|s| - |tail|..] == tail
    ensures s == head + s[|head|..|s| - |tail|] + tail
  {
    assert s == s[..|head|] + s[|head|..|s| - |tail|] + s[|s| - |tail|..];
  }

  /** A text framed by a head and a tail gives back each of the three parts. */
  lemma Framed(head: string, middle: string, tail: string)
    ensures |head + middle + tail| >= |head| + |tail|
    ensures (head + middle + tail)[..|head|] == head
    ensures (head + middle + tail)[|head + middle + tail| - |tail|..] == tail
    ensures (head + middle + tail)[|head|..|head + middle + tail| - |tail|] == middle
  {
    var s := head + middle + tail;
    assert s[..|head|] == head;
    assert s[|s| - |tail|..] == tail;
    assert s[|head|..|s| - |tail|] == middle;
  }
}
