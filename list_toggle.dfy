/** The remove-or-append toggle that both the day screen (completed habit ids)
    and the new-habit form (selected weekday indices) apply to a list:
    an element already present is filtered out, an absent one is appended. */
module ListToggle {

  /** The list holds no element twice. */
  predicate NoDup<T(==,!new)>(s: seq<T>) {
    s == [] || (s[0] !in s[1..] && NoDup(s[1..]))
  }

  /** `s.filter(y => y !== x)`: every occurrence of `x` goes, the rest stay. */
  function Remove<T(==,!new)>(s: seq<T>, x: T): (r: seq<T>)
    ensures x !in r
    ensures forall y :: y != x ==> (y in r <==> y in s)
    ensures multiset(r) == multiset(s)[x := 0]
    ensures |r| <= |s|
  {
    if s == [] then []
    else
      assert s == [s[0]] + s[1..];
      if s[0] == x then Remove(s[1..], x) else [s[0]] + Remove(s[1..], x)
  }

  /** Remove x if it is present, append it at the end otherwise. */
  function Toggle<T(==,!new)>(s: seq<T>, x: T): (r: seq<T>)
    ensures x in s ==> r == Remove(s, x)
    ensures x in s ==> x !in r && multiset(r) == multiset(s)[x := 0]
    ensures x !in s ==> r == s + [x]
    ensures (x in r) <==> (x !in s)
    ensures forall y :: y != x ==> (y in r <==> y in s)
  {
    if x in s then Remove(s, x) else s + [x]
  }

  /** Filtering distributes over concatenation, so the surviving elements
      keep their relative order. */
  lemma {:induction false} RemoveConcat<T(!new)>(a: seq<T>, b: seq<T>, x: T)
    ensures Remove(a + b, x) == Remove(a, x) + Remove(b, x)
  {
    if a == [] {
      assert a + b == b;
    } else {
      assert (a + b)[0] == a[0];
      assert (a + b)[1..] == a[1..] + b;
      RemoveConcat(a[1..], b, x);
    }
  }

  /** Filtering out an absent element leaves the list as it was. */
  lemma {:induction false} RemoveAbsent<T(!new)>(s: seq<T>, x: T)
    requires x !in s
    ensures Remove(s, x) == s
  {
    if s != [] {
      assert s[0] != x;
      assert x !in s[1..];
      RemoveAbsent(s[1..], x);
      assert s == [s[0]] + s[1..];
    }
  }

  /** Filtering a one-element list keeps that element exactly when it differs. */
  lemma RemoveSingleton<T(!new)>(y: T, x: T)
    ensures Remove([y], x) == if y == x then [] else [y]
  {
  }

  /** In a duplicate-free list, each present element occurs exactly once. */
  lemma {:induction false} NoDupOccursOnce<T(!new)>(s: seq<T>, x: T)
    requires NoDup(s) && x in s
    ensures multiset(s)[x] == 1
  {
    assert s == [s[0]] + s[1..];
    if s[0] == x {
      assert x !in multiset(s[1..]);
    } else {
      NoDupOccursOnce(s[1..], x);
    }
  }

  /** Filtering keeps a duplicate-free list duplicate-free. */
  lemma {:induction false} RemoveKeepsNoDup<T(!new)>(s: seq<T>, x: T)
    requires NoDup(s)
    ensures NoDup(Remove(s, x))
  {
    if s != [] {
      RemoveKeepsNoDup(s[1..], x);
      if s[0] != x {
        var r := Remove(s, x);
        assert r == [s[0]] + Remove(s[1..], x);
        assert r[1..] == Remove(s[1..], x);
        assert s[0] !in r[1..];
      }
    }
  }

  /** Appending an absent element keeps a duplicate-free list duplicate-free. */
  lemma {:induction false} AppendKeepsNoDup<T(!new)>(s: seq<T>, x: T)
    requires NoDup(s) && x !in s
    ensures NoDup(s + [x])
  {
    if s == [] {
      assert [x][1..] == [];
    } else {
      var t := s + [x];
      assert t[0] == s[0];
      assert t[1..] == s[1..] + [x];
      AppendKeepsNoDup(s[1..], x);
      assert s[0] != x;
      assert s[0] !in s[1..];
    }
  }

  /** A toggle keeps a duplicate-free list duplicate-free. */
  lemma ToggleKeepsNoDup<T(!new)>(s: seq<T>, x: T)
    requires NoDup(s)
    ensures NoDup(Toggle(s, x))
  {
    if x in s {
      RemoveKeepsNoDup(s, x);
    } else {
      AppendKeepsNoDup(s, x);
    }
  }

  /** A toggle with an element drawn from `universe` keeps every element of
      the list inside `universe`. */
  lemma ToggleKeepsWithin<T(!new)>(s: seq<T>, x: T, universe: set<T>)
    requires forall y :: y in s ==> y in universe
    requires x in universe
    ensures forall y :: y in Toggle(s, x) ==> y in universe
  {
  }

  /** Toggling the same element twice restores its membership; on an absent
      element it restores the list itself, and on a duplicate-free list it
      restores the contents (the element moves to the end). */
  lemma ToggleTwice<T(!new)>(s: seq<T>, x: T)
    ensures (x in Toggle(Toggle(s, x), x)) <==> (x in s)
    ensures x !in s ==> Toggle(Toggle(s, x), x) == s
    ensures NoDup(s) ==> multiset(Toggle(Toggle(s, x), x)) == multiset(s)
  {
    if x !in s {
      RemoveConcat(s, [x], x);
      RemoveAbsent(s, x);
      RemoveSingleton(x, x);
      assert s + [] == s;
    } else if NoDup(s) {
      NoDupOccursOnce(s, x);
      var r := Remove(s, x);
      assert Toggle(Toggle(s, x), x) == r + [x];
      assert multiset(r + [x]) == multiset(s)[x := 0] + multiset{x};
    }
  }
}
