/** Facts about the log of host callbacks a modal has invoked, and about
    the sequence of user events that drove it: how many entries satisfy a
    predicate, and whether every entry of one kind is immediately followed
    by a given entry. */
module CallLog {

  /** Number of entries of `s` that satisfy `p`. */
  function Count<T>(s: seq<T>, p: T -> bool): (n: nat)
    ensures n <= |s|
    ensures n == 0 <== (forall i :: 0 <= i < |s| ==> !p(s[i]))
  {
    if s == [] then 0 else (if p(s[0]) then 1 else 0) + Count(s[1..], p)
  }

  /** Counting distributes over concatenation. */
  lemma {:induction false} CountAppend<T>(a: seq<T>, b: seq<T>, p: T -> bool)
    ensures Count(a + b, p) == Count(a, p) + Count(b, p)
  {
    if a == [] {
      assert a + b == b;
    } else {
      assert (a + b)[1..] == a[1..] + b;
      CountAppend(a[1..], b, p);
    }
  }

  /** Every entry that satisfies `p` has `next` right after it. */
  predicate EachFollowedBy<T(==)>(s: seq<T>, p: T -> bool, next: T)
  {
    forall i :: 0 <= i < |s| && p(s[i]) ==> i + 1 < |s| && s[i + 1] == next
  }

  /** Appending a log that keeps the pairing to one that keeps it keeps it. */
  lemma EachFollowedByAppend<T>(a: seq<T>, b: seq<T>, p: T -> bool, next: T)
    requires EachFollowedBy(a, p, next) && EachFollowedBy(b, p, next)
    ensures EachFollowedBy(a + b, p, next)
  {
    forall i | 0 <= i < |a + b| && p((a + b)[i])
      ensures i + 1 < |a + b| && (a + b)[i + 1] == next
    {
      if i < |a| {
        assert a[i] == (a + b)[i];
      } else {
        assert b[i - |a|] == (a + b)[i];
      }
    }
  }
}
