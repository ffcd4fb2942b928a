/** Reference definitions over sequences that the list and iterator
    operations are specified against, with the facts about them the proofs
    use. */
module ListSpec {

  function Min(a: int, b: int): int { if a <= b then a else b }

  function Max(a: int, b: int): int { if a >= b then a else b }

  /** `n` forced into `[lo, hi]`. */
  function Clamp(n: int, lo: int, hi: int): (r: int)
    requires lo <= hi
    ensures lo <= r <= hi
    ensures lo <= n <= hi ==> r == n
  {
    if n < lo then lo else if n > hi then hi else n
  }

  /** The first `n` elements, or all of them, or none for `n <= 0`. */
  function Taken<E>(s: seq<E>, n: int): seq<E> { s[..Clamp(n, 0, |s|)] }

  /** All but the first `n` elements. */
  function Dropped<E>(s: seq<E>, n: int): seq<E> { s[Clamp(n, 0, |s|)..] }

  /** The last `n` elements. */
  function TakenRight<E>(s: seq<E>, n: int): seq<E> { s[|s| - Clamp(n, 0, |s|)..] }

  /** All but the last `n` elements. */
  function DroppedRight<E>(s: seq<E>, n: int): seq<E> { s[..|s| - Clamp(n, 0, |s|)] }

  /** Taking and dropping the same count splits a sequence, from either end. */
  lemma TakeDropSplit<E>(s: seq<E>, n: int)
    ensures Taken(s, n) + Dropped(s, n) == s
    ensures DroppedRight(s, n) + TakenRight(s, n) == s
    ensures |Taken(s, n)| == Clamp(n, 0, |s|) == |TakenRight(s, n)|
    ensures |Dropped(s, n)| == |s| - Clamp(n, 0, |s|) == |DroppedRight(s, n)|
  {
  }

  /** `n` copies of `x`. */
  function Repeat<E>(x: E, n: nat): (r: seq<E>)
    ensures |r| == n && forall i :: 0 <= i < n ==> r[i] == x
  {
    if n == 0 then [] else Repeat(x, n - 1) + [x]
  }

  /** `f` applied to every element, in order. */
  function Mapped<E, R>(s: seq<E>, f: E -> R): (r: seq<R>)
    ensures |r| == |s| && forall i :: 0 <= i < |s| ==> r[i] == f(s[i])
  {
    seq(|s|, i requires 0 <= i < |s| => f(s[i]))
  }

  /** The concatenation of the sequences in `ss`, in order. */
  function Flattened<E>(ss: seq<seq<E>>): seq<E>
  {
    if ss == [] then [] else ss[0] + Flattened(ss[1..])
  }

  lemma {:induction false} FlattenedAppend<E>(a: seq<seq<E>>, b: seq<seq<E>>)
    ensures Flattened(a + b) == Flattened(a) + Flattened(b)
    decreases |a|
  {
    if a == [] {
      assert a + b == b;
    } else {
      assert (a + b)[1..] == a[1..] + b;
      FlattenedAppend(a[1..], b);
    }
  }

  lemma FlattenedSnoc<E>(ss: seq<seq<E>>, x: seq<E>)
    ensures Flattened(ss + [x]) == Flattened(ss) + x
  {
    FlattenedAppend(ss, [x]);
    assert Flattened([x]) == x + Flattened([x][1..]);
  }

  /** The strings in `ss` with `sep` between consecutive ones and none at
      either end. */
  function Joined(ss: seq<string>, sep: string): string
  {
    if |ss| == 0 then ""
    else if |ss| == 1 then ss[0]
    else Joined(ss[..|ss| - 1], sep) + sep + ss[|ss| - 1]
  }

  /** Joining two non-empty runs puts exactly one separator at the seam. */
  lemma {:induction false} JoinedConcat(a: seq<string>, b: seq<string>, sep: string)
    requires a != [] && b != []
    ensures Joined(a + b, sep) == Joined(a, sep) + sep + Joined(b, sep)
    decreases |b|
  {
    var ab := a + b;
    assert ab[..|ab| - 1] == a + b[..|b| - 1];
    if |b| == 1 {
      assert ab[..|ab| - 1] == a;
    } else {
      JoinedConcat(a, b[..|b| - 1], sep);
    }
  }

  /** With an empty separator, joining is plain concatenation. */
  lemma {:induction false} JoinedEmptySeparator(ss: seq<string>)
    ensures Joined(ss, "") == Flattened(ss)
    decreases |ss|
  {
    if |ss| == 1 {
      assert Flattened(ss) == ss[0] + Flattened([]);
    } else if |ss| > 1 {
      var init := ss[..|ss| - 1];
      JoinedEmptySeparator(init);
      assert ss == init + [ss[|ss| - 1]];
      FlattenedSnoc(init, ss[|ss| - 1]);
    }
  }

  /** The elements of `s` from last to first. */
  function Reversed<E>(s: seq<E>): (r: seq<E>)
    ensures |r| == |s|
  {
    if s == [] then [] else [s[|s| - 1]] + Reversed(s[..|s| - 1])
  }

  lemma {:induction false} ReversedCons<E>(x: E, s: seq<E>)
    ensures Reversed([x] + s) == Reversed(s) + [x]
    decreases |s|
  {
    var t := [x] + s;
    if s != [] {
      assert t[..|t| - 1] == [x] + s[..|s| - 1];
      ReversedCons(x, s[..|s| - 1]);
    } else {
      assert t[..|t| - 1] == [];
    }
  }

  /** Element `k` of the reversal is element `|s| - 1 - k` of `s`. */
  lemma {:induction false} ReversedAt<E>(s: seq<E>, k: int)
    requires 0 <= k < |s|
    ensures Reversed(s)[k] == s[|s| - 1 - k]
    decreases |s|
  {
    if k > 0 {
      ReversedAt(s[..|s| - 1], k - 1);
    }
  }

  /** Reversing twice gives back the original. */
  lemma {:induction false} ReversedTwice<E>(s: seq<E>)
    ensures Reversed(Reversed(s)) == s
    decreases |s|
  {
    if s != [] {
      var init := s[..|s| - 1];
      ReversedCons(s[|s| - 1], Reversed(init));
      ReversedTwice(init);
      assert s == init + [s[|s| - 1]];
    }
  }

  /** `s` without its first occurrence of `x` (unchanged if there is none). */
  function RemoveFirst<E(==)>(s: seq<E>, x: E): (r: seq<E>)
    ensures |r| == if x in s then |s| - 1 else |s|
  {
    if s == [] then [] else if s[0] == x then s[1..] else [s[0]] + RemoveFirst(s[1..], x)
  }

  lemma {:induction false} RemoveFirstCounts<E>(s: seq<E>, x: E)
    ensures x in s ==> multiset(RemoveFirst(s, x)) == multiset(s) - multiset{x}
    ensures x !in s ==> RemoveFirst(s, x) == s
    decreases |s|
  {
    if s != [] {
      assert s == [s[0]] + s[1..];
      if s[0] != x {
        RemoveFirstCounts(s[1..], x);
      }
    }
  }

  /** The elements of `s` whose membership in `es` is `inside`, in their
      order: `removeAll(es)` keeps those outside, `retainAll(es)` those
      inside. */
  function FilteredBy<E(==)>(s: seq<E>, es: seq<E>, inside: bool): seq<E>
  {
    if s == [] then [] else (if (s[0] in es) == inside then [s[0]] else []) + FilteredBy(s[1..], es, inside)
  }

  lemma {:induction false} FilteredByMembers<E>(s: seq<E>, es: seq<E>, inside: bool, x: E)
    ensures x in FilteredBy(s, es, inside) <==> x in s && (x in es) == inside
    decreases |s|
  {
    if s != [] {
      FilteredByMembers(s[1..], es, inside, x);
      assert s == [s[0]] + s[1..];
    }
  }

  /** Filtering never lengthens, and keeps the length exactly when every
      element passes. */
  lemma {:induction false} FilteredByLength<E>(s: seq<E>, es: seq<E>, inside: bool)
    ensures |FilteredBy(s, es, inside)| <= |s|
    ensures |FilteredBy(s, es, inside)| == |s| <==> forall i :: 0 <= i < |s| ==> (s[i] in es) == inside
    decreases |s|
  {
    if s != [] {
      FilteredByLength(s[1..], es, inside);
      if |FilteredBy(s, es, inside)| == |s| {
        assert forall i :: 1 <= i < |s| ==> s[i] == s[1..][i - 1];
      }
    }
  }
}
