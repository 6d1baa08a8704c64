/** `Array.prototype.filter` and `map`, newest-first sorting and the documents of a collection as a sequence. */
module Listing {

  /** Keeps, in order, the elements that satisfy `p`. */
  function Filter<T(==,!new)>(s: seq<T>, p: T -> bool): (r: seq<T>)
    ensures |r| <= |s|
    ensures forall i :: 0 <= i < |r| ==> p(r[i])
    ensures forall x :: multiset(r)[x] == if p(x) then multiset(s)[x] else 0
    ensures forall x :: x in r <==> x in s && p(x)
  {
    if s == [] then []
    else
      var rest := Filter(s[1..], p);
      var r := if p(s[0]) then [s[0]] + rest else rest;
      assert forall x :: multiset(r)[x] == if p(x) then multiset(s)[x] else 0 by {
        FilterCountStep(s, p, rest);
      }
      assert forall x :: x in r <==> x in s && p(x) by {
        forall x ensures x in r <==> x in s && p(x) {
          assert x in r <==> multiset(r)[x] > 0;
          assert x in s <==> multiset(s)[x] > 0;
        }
      }
      r
  }

  /** One step of `Filter`: how the head changes the multiset of what is kept. */
  lemma FilterCountStep<T>(s: seq<T>, p: T -> bool, rest: seq<T>)
    requires s != []
    requires forall x :: multiset(rest)[x] == if p(x) then multiset(s[1..])[x] else 0
    ensures forall x :: multiset(if p(s[0]) then [s[0]] + rest else rest)[x] == if p(x) then multiset(s)[x] else 0
  {
    assert s == [s[0]] + s[1..];
    assert multiset(s) == multiset{s[0]} + multiset(s[1..]);
    assert multiset([s[0]] + rest) == multiset{s[0]} + multiset(rest);
  }

  lemma {:induction false} FilterConcat<T(!new)>(a: seq<T>, b: seq<T>, p: T -> bool)
    ensures Filter(a + b, p) == Filter(a, p) + Filter(b, p)
  {
    if a == [] {
      assert a + b == b;
    } else {
      assert (a + b)[1..] == a[1..] + b;
      FilterConcat(a[1..], b, p);
    }
  }

  lemma {:induction false} FilterAll<T(!new)>(s: seq<T>, p: T -> bool)
    requires forall i :: 0 <= i < |s| ==> p(s[i])
    ensures Filter(s, p) == s
  {
    if s != [] {
      FilterAll(s[1..], p);
    }
  }

  /** Two tests that agree on every element keep the same elements. */
  lemma {:induction false} FilterSame<T(!new)>(s: seq<T>, p: T -> bool, q: T -> bool)
    requires forall i :: 0 <= i < |s| ==> p(s[i]) == q(s[i])
    ensures Filter(s, p) == Filter(s, q)
  {
    if s != [] {
      FilterSame(s[1..], p, q);
    }
  }

  /** How often `x` occurs in `[h] + t`. */
  lemma CountCons<T>(h: T, t: seq<T>, x: T)
    ensures multiset([h] + t)[x] == (if h == x then 1 else 0) + multiset(t)[x]
  {
    assert multiset([h] + t) == multiset{h} + multiset(t);
  }

  /**
   * A position-wise edit `t` of `s` that leaves unselected elements alone and keeps selected
   * ones selected keeps the count of every unselected value.
   */
  lemma {:induction false} EditKeepsCount<T>(s: seq<T>, t: seq<T>, sel: T -> bool, x: T)
    requires |t| == |s|
    requires forall i :: 0 <= i < |s| ==> if sel(s[i]) then sel(t[i]) else t[i] == s[i]
    requires !sel(x)
    ensures multiset(t)[x] == multiset(s)[x]
  {
    if s != [] {
      assert multiset(s)[x] == (if s[0] == x then 1 else 0) + multiset(s[1..])[x] by {
        assert s == [s[0]] + s[1..];
        CountCons(s[0], s[1..], x);
      }
      assert multiset(t)[x] == (if t[0] == x then 1 else 0) + multiset(t[1..])[x] by {
        assert t == [t[0]] + t[1..];
        CountCons(t[0], t[1..], x);
      }
      assert s[0] == x <==> t[0] == x;
      EditKeepsCount(s[1..], t[1..], sel, x);
    }
  }

  lemma FilterSingle<T(!new)>(x: T, p: T -> bool)
    ensures Filter([x], p) == if p(x) then [x] else []
  {
    assert [x][1..] == [];
  }

  /** Filtering out the one element that fails leaves the others, in order. */
  lemma FilterDropOne<T(!new)>(a: seq<T>, x: T, b: seq<T>, p: T -> bool)
    requires forall i :: 0 <= i < |a| ==> p(a[i])
    requires forall i :: 0 <= i < |b| ==> p(b[i])
    requires !p(x)
    ensures Filter(a + [x] + b, p) == a + b
  {
    FilterAll(a, p);
    FilterSingle(x, p);
    FilterConcat(a, [x], p);
    assert Filter(a + [x], p) == a;
    FilterAll(b, p);
    FilterConcat(a + [x], b, p);
  }

  /** `map` then `filter(Boolean)`: each element becomes what `f` keeps of it, in order. */
  function FlatMap<T>(s: seq<T>, f: T -> seq<T>): seq<T>
  {
    if s == [] then [] else f(s[0]) + FlatMap(s[1..], f)
  }

  lemma {:induction false} FlatMapConcat<T>(a: seq<T>, b: seq<T>, f: T -> seq<T>)
    ensures FlatMap(a + b, f) == FlatMap(a, f) + FlatMap(b, f)
  {
    if a == [] {
      assert a + b == b;
    } else {
      assert (a + b)[0] == a[0] && (a + b)[1..] == a[1..] + b;
      FlatMapConcat(a[1..], b, f);
    }
  }

  lemma FlatMapSingle<T>(x: T, f: T -> seq<T>)
    ensures FlatMap([x], f) == f(x)
  {
    assert [x][1..] == [];
  }

  /** A callback that keeps at most one element per element never lengthens the sequence. */
  lemma {:induction false} FlatMapShorter<T>(s: seq<T>, f: T -> seq<T>)
    requires forall x :: |f(x)| <= 1
    ensures |FlatMap(s, f)| <= |s|
  {
    if s != [] {
      FlatMapShorter(s[1..], f);
    }
  }

  /** A callback that keeps every element as it is changes nothing. */
  lemma {:induction false} FlatMapKeepAll<T>(s: seq<T>, f: T -> seq<T>)
    requires forall i :: 0 <= i < |s| ==> f(s[i]) == [s[i]]
    ensures FlatMap(s, f) == s
  {
    if s != [] {
      FlatMapKeepAll(s[1..], f);
      assert s == [s[0]] + s[1..];
    }
  }

  /** A sequence is what comes before position `i`, the element there, and what follows. */
  lemma Around<T>(s: seq<T>, i: nat)
    requires i < |s|
    ensures s == s[..i] + [s[i]] + s[i + 1..]
    ensures s[i := s[i]] == s
  {
  }

  /** Replacing the element at `i` splices the new one between the same neighbours. */
  lemma Splice<T>(s: seq<T>, i: nat, x: T)
    requires i < |s|
    ensures s[i := x] == s[..i] + [x] + s[i + 1..]
  {
  }

  /** `sort({ createdAt: -1 })`: larger creation times come first. */
  ghost predicate NewestFirst<T>(s: seq<T>, created: T -> int)
  {
    forall i, j :: 0 <= i < j < |s| ==> created(s[i]) >= created(s[j])
  }

  /** The first element of a newest-first sequence is at least as new as every later one. */
  lemma HeadBound<T>(s: seq<T>, created: T -> int)
    requires s != [] && NewestFirst(s, created)
    ensures forall y :: y in s[1..] ==> created(s[0]) >= created(y)
  {
    forall y | y in s[1..] ensures created(s[0]) >= created(y) {
      var j :| 0 <= j < |s[1..]| && s[1..][j] == y;
      assert s[j + 1] == y;
    }
  }

  /** Putting an element at least as new as all others in front keeps the order. */
  lemma NewestFirstCons<T>(h: T, t: seq<T>, created: T -> int)
    requires NewestFirst(t, created)
    requires forall y :: y in t ==> created(h) >= created(y)
    ensures NewestFirst([h] + t, created)
  {
    forall i, j | 0 <= i < j < |[h] + t| ensures created(([h] + t)[i]) >= created(([h] + t)[j]) {
      if i == 0 {
        assert ([h] + t)[j] == t[j - 1];
        assert t[j - 1] in t;
      } else {
        assert ([h] + t)[i] == t[i - 1] && ([h] + t)[j] == t[j - 1];
      }
    }
  }

  function Insert<T(==,!new)>(x: T, s: seq<T>, created: T -> int): (r: seq<T>)
    requires NewestFirst(s, created)
    ensures NewestFirst(r, created)
    ensures multiset(r) == multiset(s) + multiset{x}
    ensures forall y :: y in r <==> y == x || y in s
  {
    if s == [] || created(x) >= created(s[0]) then
      assert forall y :: y in s ==> created(x) >= created(y) by {
        if s != [] {
          HeadBound(s, created);
          assert s == [s[0]] + s[1..];
        }
      }
      NewestFirstCons(x, s, created);
      [x] + s
    else
      var rest := Insert(x, s[1..], created);
      assert s == [s[0]] + s[1..];
      HeadBound(s, created);
      NewestFirstCons(s[0], rest, created);
      [s[0]] + rest
  }

  /** A newest-first arrangement of `s` (ties keep their relative order). */
  function SortNewestFirst<T(==,!new)>(s: seq<T>, created: T -> int): (r: seq<T>)
    ensures NewestFirst(r, created)
    ensures multiset(r) == multiset(s)
    ensures |r| == |s|
    ensures forall x :: x in r <==> x in s
  {
    if s == [] then []
    else
      assert s == [s[0]] + s[1..];
      var rest := SortNewestFirst(s[1..], created);
      assert forall x :: x in s <==> x == s[0] || x in s[1..];
      Insert(s[0], rest, created)
  }

  /** The documents of a collection, in some order, each once. */
  ghost function Values<K(!new), V(!new)>(m: map<K, V>): (r: seq<V>)
    ensures |r| == |m|
    ensures forall v :: v in r <==> v in m.Values
    ensures Injective(m) ==> forall v :: multiset(r)[v] == if v in m.Values then 1 else 0
    decreases |m|
  {
    if |m| == 0 then []
    else
      var k :| k in m;
      var rest := m - {k};
      assert rest.Keys == m.Keys - {k};
      assert forall v :: v in m.Values <==> v == m[k] || v in rest.Values by {
        forall v ensures v in m.Values <==> v == m[k] || v in rest.Values {
          if v in m.Values {
            var k' :| k' in m && m[k'] == v;
            if k' != k {
              assert k' in rest;
            }
          }
        }
      }
      assert Injective(m) ==> Injective(rest) && m[k] !in rest.Values by {
        if Injective(m) {
          forall a, b | a in rest && b in rest && rest[a] == rest[b] ensures a == b {
            assert m[a] == m[b];
          }
        }
      }
      assert multiset([m[k]] + Values(rest)) == multiset{m[k]} + multiset(Values(rest));
      [m[k]] + Values(rest)
  }

  /** No two keys hold the same value. */
  ghost predicate Injective<K, V>(m: map<K, V>)
  {
    forall a, b :: a in m && b in m && m[a] == m[b] ==> a == b
  }
}
