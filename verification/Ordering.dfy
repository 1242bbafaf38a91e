/** Orders on text and on sequences, and the stable sort the source takes from its language. */
module Ordering {

  /** Text is compared character by character; a proper prefix comes first. */
  predicate LexLe(a: string, b: string) {
    if a == [] then true
    else if b == [] then false
    else a[0] < b[0] || (a[0] == b[0] && LexLe(a[1..], b[1..]))
  }

  lemma {:induction false} LexTotal(a: string, b: string)
    ensures LexLe(a, b) || LexLe(b, a)
    ensures LexLe(a, b) && LexLe(b, a) ==> a == b
  {
    if a != [] && b != [] {
      LexTotal(a[1..], b[1..]);
      assert a == [a[0]] + a[1..] && b == [b[0]] + b[1..];
    }
  }

  lemma {:induction false} LexTransitive(a: string, b: string, c: string)
    requires LexLe(a, b) && LexLe(b, c)
    ensures LexLe(a, c)
  {
    if a != [] && a[0] == b[0] && b[0] == c[0] {
      LexTransitive(a[1..], b[1..], c[1..]);
    }
  }

  ghost predicate TotalPreorder<T(!new)>(le: (T, T) -> bool) {
    && (forall x, y :: le(x, y) || le(y, x))
    && (forall x, y, z :: le(x, y) && le(y, z) ==> le(x, z))
  }

  ghost predicate SortedBy<T>(s: seq<T>, le: (T, T) -> bool) {
    forall i, j :: 0 <= i < j < |s| ==> le(s[i], s[j])
  }

  /** No two different elements of the sequence are equivalent. */
  ghost predicate StrictOn<T>(s: seq<T>, le: (T, T) -> bool) {
    forall x, y :: x in s && y in s && le(x, y) && le(y, x) ==> x == y
  }

  /** Put x behind every element that is not greater. */
  function Insert<T>(x: T, s: seq<T>, le: (T, T) -> bool): seq<T> {
    if s == [] then [x]
    else if le(s[|s| - 1], x) then s + [x]
    else Insert(x, s[..|s| - 1], le) + [s[|s| - 1]]
  }

  function Sort<T>(s: seq<T>, le: (T, T) -> bool): seq<T> {
    if s == [] then [] else Insert(s[|s| - 1], Sort(s[..|s| - 1], le), le)
  }

  lemma {:induction false} InsertKeeps<T(!new)>(x: T, s: seq<T>, le: (T, T) -> bool)
    requires TotalPreorder(le) && SortedBy(s, le)
    ensures SortedBy(Insert(x, s, le), le)
    ensures multiset(Insert(x, s, le)) == multiset(s) + multiset{x}
  {
    if s != [] {
      var last := s[|s| - 1];
      var front := s[..|s| - 1];
      assert s == front + [last];
      if !le(last, x) {
        InsertKeeps(x, front, le);
        var r := Insert(x, front, le);
        forall y | y in r ensures le(y, last) {
          assert y in multiset(r);
        }
      } else {
        forall y | y in s ensures le(y, x) {
          if y != last { assert y in front; }
        }
      }
    }
  }

  lemma {:induction false} SortSorts<T(!new)>(s: seq<T>, le: (T, T) -> bool)
    requires TotalPreorder(le)
    ensures SortedBy(Sort(s, le), le)
    ensures multiset(Sort(s, le)) == multiset(s)
  {
    if s != [] {
      var front, last := s[..|s| - 1], s[|s| - 1];
      assert multiset(s) == multiset(front) + multiset{last} by { assert s == front + [last]; }
      SortSorts(front, le);
      InsertKeeps(last, Sort(front, le), le);
    }
  }

  lemma {:induction false} InSame<T>(a: seq<T>, b: seq<T>, x: T)
    requires multiset(a) == multiset(b) && x in a
    ensures x in b
  {
    assert x in multiset(a);
  }

  lemma {:induction false} LeastFirst<T(!new)>(a: seq<T>, b: seq<T>, le: (T, T) -> bool)
    requires a != [] && SortedBy(a, le) && multiset(a) == multiset(b) && forall x :: le(x, x)
    ensures b != [] && le(a[0], b[0])
  {
    InSame(a, b, a[0]);
    InSame(b, a, b[0]);
  }

  lemma {:induction false} TailOf<T(!new)>(a: seq<T>, le: (T, T) -> bool)
    requires a != [] && SortedBy(a, le) && StrictOn(a, le)
    ensures SortedBy(a[1..], le) && StrictOn(a[1..], le)
  {
    assert forall x :: x in a[1..] ==> x in a;
  }

  lemma {:induction false} SameHead<T(!new)>(a: seq<T>, b: seq<T>, le: (T, T) -> bool)
    requires SortedBy(a, le) && SortedBy(b, le) && multiset(a) == multiset(b) && a != []
    requires StrictOn(a, le) && forall x :: le(x, x)
    ensures b != [] && a[0] == b[0]
  {
    LeastFirst(a, b, le);
    LeastFirst(b, a, le);
    InSame(b, a, b[0]);
  }

  lemma {:induction false} SameTail<T>(a: seq<T>, b: seq<T>)
    requires multiset(a) == multiset(b) && a != [] && b != [] && a[0] == b[0]
    ensures multiset(a[1..]) == multiset(b[1..])
  {
    assert multiset(a) == multiset{a[0]} + multiset(a[1..]) by { assert a == [a[0]] + a[1..]; }
    assert multiset(b) == multiset{b[0]} + multiset(b[1..]) by { assert b == [b[0]] + b[1..]; }
    assert multiset(a[1..]) == multiset(a) - multiset{a[0]};
    assert multiset(b[1..]) == multiset(b) - multiset{b[0]};
  }

  /** A sorted arrangement is unique when no two different elements are equivalent. */
  lemma {:induction false} SortedUnique<T(!new)>(a: seq<T>, b: seq<T>, le: (T, T) -> bool)
    requires SortedBy(a, le) && SortedBy(b, le) && multiset(a) == multiset(b)
    requires StrictOn(a, le) && StrictOn(b, le) && forall x :: le(x, x)
    ensures a == b
  {
    assert |multiset(a)| == |a| && |multiset(b)| == |b|;
    if a != [] {
      SameHead(a, b, le);
      SameTail(a, b);
      TailOf(a, le);
      TailOf(b, le);
      SortedUnique(a[1..], b[1..], le);
      assert a == [a[0]] + a[1..] && b == [b[0]] + b[1..];
    }
  }

  /** Sorting forgets the order of its input when no two different elements are equivalent. */
  lemma {:induction false} SortIgnoresOrder<T(!new)>(a: seq<T>, b: seq<T>, le: (T, T) -> bool)
    requires TotalPreorder(le) && multiset(a) == multiset(b) && StrictOn(a, le)
    ensures Sort(a, le) == Sort(b, le)
  {
    SortSorts(a, le);
    SortSorts(b, le);
    forall x | x in Sort(a, le) || x in Sort(b, le) ensures x in a {
      if x in Sort(a, le) { InSame(Sort(a, le), a, x); } else { InSame(Sort(b, le), a, x); }
    }
    SortedUnique(Sort(a, le), Sort(b, le), le);
  }

  lemma {:induction false} SortMembers<T(!new)>(s: seq<T>, le: (T, T) -> bool, x: T)
    requires TotalPreorder(le)
    ensures x in Sort(s, le) <==> x in s
  {
    SortSorts(s, le);
    assert x in Sort(s, le) <==> x in multiset(Sort(s, le));
  }
}
