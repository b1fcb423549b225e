/**
 * Orders on text and on sort keys, stable sorting by a key, and what a
 * reordering of a sequence cannot change.
 */
module Ordering {

  // ----- Orders

  ghost predicate IsOrder<T(!new)>(leq: (T, T) -> bool) {
    && (forall x, y :: leq(x, y) || leq(y, x))
    && (forall x, y :: leq(x, y) && leq(y, x) ==> x == y)
    && (forall x, y, z :: leq(x, y) && leq(y, z) ==> leq(x, z))
  }

  /** Element by element, a proper prefix first: how sequences of one type compare. */
  predicate Lexicographic<T(==)>(a: seq<T>, b: seq<T>, leq: (T, T) -> bool) {
    if a == [] then true
    else if b == [] then false
    else if a[0] == b[0] then Lexicographic(a[1..], b[1..], leq)
    else leq(a[0], b[0])
  }

  lemma {:induction false} LexicographicTotal<T(!new)>(a: seq<T>, b: seq<T>, leq: (T, T) -> bool)
    requires IsOrder(leq)
    ensures Lexicographic(a, b, leq) || Lexicographic(b, a, leq)
    ensures Lexicographic(a, b, leq) && Lexicographic(b, a, leq) ==> a == b
  {
    if a != [] && b != [] && a[0] == b[0] {
      LexicographicTotal(a[1..], b[1..], leq);
      assert a == [a[0]] + a[1..] && b == [b[0]] + b[1..];
    }
  }

  lemma {:induction false} LexicographicTransitive<T(!new)>(a: seq<T>, b: seq<T>, c: seq<T>, leq: (T, T) -> bool)
    requires IsOrder(leq) && Lexicographic(a, b, leq) && Lexicographic(b, c, leq)
    ensures Lexicographic(a, c, leq)
  {
    if a != [] {
      assert leq(a[0], b[0]) && leq(b[0], a[0]) ==> a[0] == b[0];
      if a[0] == b[0] == c[0] {
        LexicographicTransitive(a[1..], b[1..], c[1..], leq);
      }
    }
  }

  predicate CharLeq(a: char, b: char) { a <= b }

  predicate TextLeq(a: string, b: string) { Lexicographic(a, b, CharLeq) }

  /** One component of a sort key. */
  datatype Part = Number(n: int) | Text(s: string)

  type Key = seq<Part>

  predicate PartLeq(a: Part, b: Part) {
    match (a, b)
    case (Number(m), Number(n)) => m <= n
    case (Text(s), Text(t)) => TextLeq(s, t)
    case (Number(_), Text(_)) => true
    case (Text(_), Number(_)) => false
  }

  /** Tuples of numbers and texts compare component by component. */
  predicate KeyLeq(a: Key, b: Key) { Lexicographic(a, b, PartLeq) }

  lemma {:induction false} TextIsOrder()
    ensures IsOrder(TextLeq)
  {
    assert IsOrder(CharLeq);
    forall a, b ensures TextLeq(a, b) || TextLeq(b, a)
      ensures TextLeq(a, b) && TextLeq(b, a) ==> a == b
    {
      LexicographicTotal(a, b, CharLeq);
    }
    forall a, b, c | TextLeq(a, b) && TextLeq(b, c) ensures TextLeq(a, c) {
      LexicographicTransitive(a, b, c, CharLeq);
    }
  }

  lemma {:induction false} PartIsOrder()
    ensures IsOrder(PartLeq)
  {
    hide TextLeq;
    TextIsOrder();
  }

  lemma {:induction false} KeyIsOrder()
    ensures IsOrder(KeyLeq)
  {
    hide PartLeq;
    PartIsOrder();
    forall a, b ensures KeyLeq(a, b) || KeyLeq(b, a)
      ensures KeyLeq(a, b) && KeyLeq(b, a) ==> a == b
    {
      LexicographicTotal(a, b, PartLeq);
    }
    forall a, b, c | KeyLeq(a, b) && KeyLeq(b, c) ensures KeyLeq(a, c) {
      LexicographicTransitive(a, b, c, PartLeq);
    }
  }

  lemma {:induction false} TextReflexive(s: string)
    ensures TextLeq(s, s)
  {
    hide TextLeq;
    TextIsOrder();
  }

  lemma {:induction false} LexicographicStep(a: Key, b: Key)
    requires a != [] && b != []
    ensures KeyLeq(a, b) <==> if a[0] == b[0] then KeyLeq(a[1..], b[1..]) else PartLeq(a[0], b[0])
    ensures |a| > 1 ==> a[1..][1..] == a[2..]
  {
  }

  /** Keys of one text are in the order of their texts. */
  lemma {:induction false} TextKeyMeans(s: string, t: string)
    ensures KeyLeq([Text(s)], [Text(t)]) <==> TextLeq(s, t)
  {
    hide TextLeq;
    TextReflexive(s);
    LexicographicStep([Text(s)], [Text(t)]);
    assert [Text(s)][1..] == [] && [Text(t)][1..] == [];
  }

  lemma {:induction false} KeyTotal(a: Key, b: Key)
    ensures KeyLeq(a, b) || KeyLeq(b, a)
    ensures KeyLeq(a, b) && KeyLeq(b, a) ==> a == b
  {
    hide KeyLeq;
    KeyIsOrder();
  }

  lemma {:induction false} KeyTransitive(a: Key, b: Key, c: Key)
    requires KeyLeq(a, b) && KeyLeq(b, c)
    ensures KeyLeq(a, c)
  {
    hide KeyLeq;
    KeyIsOrder();
  }

  // ----- Reordering

  function Map<T, U>(f: T -> U, xs: seq<T>): (ys: seq<U>)
    ensures |ys| == |xs|
    ensures forall i :: 0 <= i < |xs| ==> ys[i] == f(xs[i])
  {
    if xs == [] then [] else [f(xs[0])] + Map(f, xs[1..])
  }

  function Filter<T>(p: T -> bool, xs: seq<T>): (ys: seq<T>)
    ensures |ys| <= |xs|
    ensures forall i :: 0 <= i < |ys| ==> ys[i] in xs && p(ys[i])
    ensures forall i :: 0 <= i < |xs| && p(xs[i]) ==> xs[i] in ys
  {
    if xs == [] then []
    else if p(xs[0]) then [xs[0]] + Filter(p, xs[1..])
    else Filter(p, xs[1..])
  }

  function Sum<T>(f: T -> int, xs: seq<T>): int {
    if xs == [] then 0 else f(xs[0]) + Sum(f, xs[1..])
  }

  ghost predicate Permuted<T>(a: seq<T>, b: seq<T>) { multiset(a) == multiset(b) }

  ghost predicate Distinct<T>(xs: seq<T>) { forall i, j :: 0 <= i < j < |xs| ==> xs[i] != xs[j] }

  lemma {:induction false} PermutedBasics<T>(a: seq<T>, b: seq<T>)
    requires Permuted(a, b)
    ensures |a| == |b|
    ensures forall x :: x in a <==> x in b
    ensures forall i :: 0 <= i < |a| ==> a[i] in b
  {
    assert |multiset(a)| == |a| && |multiset(b)| == |b|;
    forall x ensures x in a <==> x in b {
      assert x in multiset(a) <==> x in a;
      assert x in multiset(b) <==> x in b;
    }
    forall i | 0 <= i < |a| ensures a[i] in b {
      assert a[i] in multiset(a);
    }
  }

  lemma {:induction false} WithoutAt<T>(b: seq<T>, j: nat)
    requires j < |b|
    ensures multiset(b[..j] + b[j + 1..]) == multiset(b) - multiset{b[j]}
  {
    assert b == b[..j] + [b[j]] + b[j + 1..];
  }

  lemma {:induction false} HeadTail<T>(a: seq<T>)
    requires a != []
    ensures multiset(a) == multiset{a[0]} + multiset(a[1..])
  {
    assert a == [a[0]] + a[1..];
  }

  /** A reordering of `[x] + rest` puts `x` somewhere and reorders `rest` around it. */
  lemma {:induction false} FindHead<T>(a: seq<T>, b: seq<T>) returns (j: nat)
    requires a != [] && Permuted(a, b)
    ensures j < |b| && b[j] == a[0] && Permuted(a[1..], b[..j] + b[j + 1..])
  {
    PermutedBasics(a, b);
    assert a[0] in a;
    j :| 0 <= j < |b| && b[j] == a[0];
    HeadTail(a);
    WithoutAt(b, j);
  }

  lemma {:induction false} MapAppend<T, U>(f: T -> U, a: seq<T>, b: seq<T>)
    ensures Map(f, a + b) == Map(f, a) + Map(f, b)
  {
  }

  lemma {:induction false} MapWithout<T, U>(f: T -> U, b: seq<T>, j: nat)
    requires j < |b|
    ensures multiset(Map(f, b)) == multiset{f(b[j])} + multiset(Map(f, b[..j] + b[j + 1..]))
  {
    hide Map;
    WithoutAt(Map(f, b), j);
    assert Map(f, b[..j] + b[j + 1..]) == Map(f, b)[..j] + Map(f, b)[j + 1..];
  }

  lemma {:induction false} MapPermuted<T, U>(f: T -> U, a: seq<T>, b: seq<T>)
    requires Permuted(a, b)
    ensures Permuted(Map(f, a), Map(f, b))
  {
    if a == [] {
      PermutedBasics(a, b);
    } else {
      var j := FindHead(a, b);
      MapPermuted(f, a[1..], b[..j] + b[j + 1..]);
      MapWithout(f, b, j);
    }
  }

  lemma {:induction false} MapCount<T(!new), U>(f: T -> U, xs: seq<T>, x: T)
    requires forall y, z :: f(y) == f(z) ==> y == z
    ensures multiset(Map(f, xs))[f(x)] == multiset(xs)[x]
  {
    if xs != [] {
      MapCount(f, xs[1..], x);
      HeadTail(xs);
    }
  }

  /** An injective image shows a sequence up to order. */
  lemma {:induction false} MapReflects<T(!new), U>(f: T -> U, a: seq<T>, b: seq<T>)
    requires forall y, z :: f(y) == f(z) ==> y == z
    ensures Permuted(Map(f, a), Map(f, b)) <==> Permuted(a, b)
  {
    hide Map;
    if Permuted(a, b) {
      MapPermuted(f, a, b);
    }
    if Permuted(Map(f, a), Map(f, b)) {
      forall x ensures multiset(a)[x] == multiset(b)[x] {
        MapCount(f, a, x);
        MapCount(f, b, x);
      }
    }
  }

  lemma {:induction false} SumAppend<T>(f: T -> int, a: seq<T>, b: seq<T>)
    ensures Sum(f, a + b) == Sum(f, a) + Sum(f, b)
  {
    if a == [] {
      assert a + b == b;
    } else {
      assert (a + b)[1..] == a[1..] + b;
      SumAppend(f, a[1..], b);
    }
  }

  lemma {:induction false} SumPermuted<T>(f: T -> int, a: seq<T>, b: seq<T>)
    requires Permuted(a, b)
    ensures Sum(f, a) == Sum(f, b)
  {
    if a == [] {
      PermutedBasics(a, b);
    } else {
      var j := FindHead(a, b);
      SumPermuted(f, a[1..], b[..j] + b[j + 1..]);
      SumAppend(f, b[..j], b[j + 1..]);
      SumAppend(f, b[..j], b[j..]);
      assert b == b[..j] + b[j..];
      assert b[j..][1..] == b[j + 1..];
    }
  }

  lemma {:induction false} FilterAppend<T>(p: T -> bool, a: seq<T>, b: seq<T>)
    ensures Filter(p, a + b) == Filter(p, a) + Filter(p, b)
  {
    if a == [] {
      assert a + b == b;
    } else {
      assert (a + b)[1..] == a[1..] + b;
      FilterAppend(p, a[1..], b);
    }
  }

  lemma {:induction false} FilterSnoc<T>(p: T -> bool, xs: seq<T>, i: nat)
    requires i < |xs|
    ensures Filter(p, xs[..i + 1]) == Filter(p, xs[..i]) + if p(xs[i]) then [xs[i]] else []
  {
    FilterAppend(p, xs[..i], [xs[i]]);
    assert xs[..i + 1] == xs[..i] + [xs[i]];
    assert [xs[i]][1..] == [];
  }

  lemma {:induction false} FilterCount<T>(p: T -> bool, xs: seq<T>, x: T)
    ensures multiset(Filter(p, xs))[x] == if p(x) then multiset(xs)[x] else 0
  {
    if xs != [] {
      FilterCount(p, xs[1..], x);
      HeadTail(xs);
    }
  }

  lemma {:induction false} FilterPermuted<T>(p: T -> bool, a: seq<T>, b: seq<T>)
    requires Permuted(a, b)
    ensures Permuted(Filter(p, a), Filter(p, b))
  {
    forall x ensures multiset(Filter(p, a))[x] == multiset(Filter(p, b))[x] {
      FilterCount(p, a, x);
      FilterCount(p, b, x);
    }
  }

  lemma {:induction false} DistinctCount<T>(xs: seq<T>, x: T)
    requires Distinct(xs)
    ensures multiset(xs)[x] <= 1
  {
    if xs != [] {
      HeadTail(xs);
      DistinctCount(xs[1..], x);
      assert forall i :: 1 <= i < |xs| ==> xs[0] != xs[i];
      assert xs[0] !in xs[1..];
    }
  }

  lemma {:induction false} RepeatedCount<T>(xs: seq<T>, i: nat, j: nat)
    requires i < j < |xs| && xs[i] == xs[j]
    ensures multiset(xs)[xs[i]] >= 2
  {
    assert xs == xs[..j] + xs[j..];
    assert xs[..j][i] == xs[j..][0] == xs[i];
  }

  lemma {:induction false} DistinctPermuted<T>(a: seq<T>, b: seq<T>)
    requires Permuted(a, b) && Distinct(a)
    ensures Distinct(b)
  {
    forall i, j | 0 <= i < j < |b| ensures b[i] != b[j] {
      DistinctCount(a, b[i]);
      if b[i] == b[j] {
        RepeatedCount(b, i, j);
        assert false;
      }
    }
  }

  lemma {:induction false} DistinctHead<T>(xs: seq<T>)
    requires xs != []
    ensures Distinct(xs) <==> xs[0] !in xs[1..] && Distinct(xs[1..])
  {
    var rest := xs[1..];
    assert forall i :: 0 <= i < |rest| ==> rest[i] == xs[i + 1];
    if xs[0] in rest {
      var i :| 0 <= i < |rest| && rest[i] == xs[0];
      assert xs[0] == xs[i + 1];
    }
    if xs[0] !in rest && Distinct(rest) {
      forall i, j | 0 <= i < j < |xs| ensures xs[i] != xs[j] {
        assert xs[j] == rest[j - 1];
        assert i > 0 ==> xs[i] == rest[i - 1];
      }
    }
  }

  lemma {:induction false} SetHead<T>(xs: seq<T>)
    requires xs != []
    ensures (set x | x in xs) == {xs[0]} + set x | x in xs[1..]
  {
    assert xs == [xs[0]] + xs[1..];
  }

  /** `len(xs) == len(set(xs))`. */
  lemma {:induction false} DistinctCardinality<T>(xs: seq<T>)
    ensures |set x | x in xs| <= |xs|
    ensures Distinct(xs) <==> |set x | x in xs| == |xs|
  {
    hide Distinct;
    if xs == [] {
      assert Distinct(xs) by { NoneRepeated<T>(); }
    } else {
      DistinctCardinality(xs[1..]);
      DistinctHead(xs);
      SetHead(xs);
      assert xs[0] in xs[1..] ==> (set x | x in xs) == set x | x in xs[1..];
    }
  }

  lemma {:induction false} NoneRepeated<T>()
    ensures Distinct<T>([])
  {
  }

  /** Pigeonhole: distinct elements that all occur in an equally long sequence are all of it. */
  lemma {:induction false} Pigeonhole<T>(a: seq<T>, b: seq<T>)
    requires Distinct(a) && |a| == |b| && forall x :: x in a ==> x in b
    ensures Permuted(a, b)
  {
    if a != [] {
      assert a[0] in a;
      var j :| 0 <= j < |b| && b[j] == a[0];
      var rest := b[..j] + b[j + 1..];
      forall x | x in a[1..] ensures x in rest {
        var i :| 0 <= i < |a| - 1 && a[1..][i] == x;
        assert a[0] != a[i + 1] && a[i + 1] in a;
        var k :| 0 <= k < |b| && b[k] == x;
        assert k < j ==> rest[k] == x;
        assert k > j ==> rest[k - 1] == x;
      }
      Pigeonhole(a[1..], rest);
      HeadTail(a);
      WithoutAt(b, j);
    }
  }

  // ----- Dictionaries

  /** `{key(x): x for x in xs}`: a later element replaces an earlier one with its key. */
  function Dict<T, K>(key: T -> K, xs: seq<T>): (m: map<K, T>)
    ensures m == map[] <==> xs == []
  {
    if xs == [] then map[]
    else
      var n := |xs| - 1;
      var m := Dict(key, xs[..n])[key(xs[n]) := xs[n]];
      assert key(xs[n]) in m;
      m
  }

  lemma {:induction false} DistinctAt<T, K>(key: T -> K, xs: seq<T>, i: nat, j: nat)
    requires Distinct(Map(key, xs)) && i < j < |xs|
    ensures key(xs[i]) != key(xs[j])
  {
    hide Map;
    assert Map(key, xs)[i] != Map(key, xs)[j];
  }

  lemma {:induction false} DistinctFront<T>(xs: seq<T>, n: nat)
    requires Distinct(xs) && n <= |xs|
    ensures Distinct(xs[..n])
  {
  }

  /** With distinct keys a dictionary holds exactly the elements it was built from. */
  lemma {:induction false} DictHolds<T, K>(key: T -> K, xs: seq<T>)
    requires Distinct(Map(key, xs))
    ensures forall i :: 0 <= i < |xs| ==> key(xs[i]) in Dict(key, xs) && Dict(key, xs)[key(xs[i])] == xs[i]
    ensures forall k :: k in Dict(key, xs).Keys ==> Dict(key, xs)[k] in xs && key(Dict(key, xs)[k]) == k
  {
    hide Map;
    if xs != [] {
      var n := |xs| - 1;
      var front := xs[..n];
      assert Map(key, front) == Map(key, xs)[..n];
      DistinctFront(Map(key, xs), n);
      DictHolds(key, front);
      forall i | 0 <= i < |xs| ensures key(xs[i]) in Dict(key, xs) && Dict(key, xs)[key(xs[i])] == xs[i] {
        if i < n {
          assert Map(key, xs)[i] != Map(key, xs)[n];
          assert front[i] == xs[i];
        }
      }
      forall k | k in Dict(key, xs).Keys ensures Dict(key, xs)[k] in xs && key(Dict(key, xs)[k]) == k {
        if k != key(xs[n]) {
          assert k in Dict(key, front).Keys && Dict(key, front)[k] in front;
        }
      }
    }
  }

  lemma {:induction false} DictCovers<T, K>(key: T -> K, a: seq<T>, b: seq<T>)
    requires Distinct(Map(key, a)) && Distinct(Map(key, b)) && forall x | x in a :: x in b
    ensures forall k :: k in Dict(key, a).Keys ==> k in Dict(key, b) && Dict(key, b)[k] == Dict(key, a)[k]
  {
    hide Map, Dict, Distinct;
    DictHolds(key, a);
    DictHolds(key, b);
    forall k | k in Dict(key, a).Keys ensures k in Dict(key, b) && Dict(key, b)[k] == Dict(key, a)[k] {
      var x := Dict(key, a)[k];
      var j :| 0 <= j < |b| && b[j] == x;
    }
  }

  /** Reordering elements with distinct keys gives the same dictionary. */
  lemma {:induction false} DictPermuted<T, K>(key: T -> K, a: seq<T>, b: seq<T>)
    requires Permuted(a, b) && Distinct(Map(key, a))
    ensures Distinct(Map(key, b)) && Dict(key, a) == Dict(key, b)
  {
    hide Map, Dict, Distinct;
    MapPermuted(key, a, b);
    DistinctPermuted(Map(key, a), Map(key, b));
    PermutedBasics(a, b);
    DictCovers(key, a, b);
    DictCovers(key, b, a);
  }

  // ----- Sorting

  /** Insertion before the first element with a key at least as large, so equal keys keep their order. */
  function Insert<T>(x: T, xs: seq<T>, key: T -> Key): seq<T> {
    if xs == [] || KeyLeq(key(x), key(xs[0])) then [x] + xs
    else [xs[0]] + Insert(x, xs[1..], key)
  }

  /** `sorted(xs, key=key)`. */
  function Sort<T>(xs: seq<T>, key: T -> Key): seq<T> {
    if xs == [] then [] else Insert(xs[0], Sort(xs[1..], key), key)
  }

  ghost predicate SortedBy<T(!new)>(xs: seq<T>, key: T -> Key) {
    forall i, j :: 0 <= i < j < |xs| ==> KeyLeq(key(xs[i]), key(xs[j]))
  }

  lemma {:induction false} InsertPermutes<T>(x: T, xs: seq<T>, key: T -> Key)
    ensures multiset(Insert(x, xs, key)) == multiset{x} + multiset(xs)
  {
    hide KeyLeq;
    if xs != [] {
      InsertPermutes(x, xs[1..], key);
      HeadTail(xs);
    }
  }

  lemma {:induction false} InsertSorted<T(!new)>(x: T, xs: seq<T>, key: T -> Key)
    requires SortedBy(xs, key)
    ensures SortedBy(Insert(x, xs, key), key)
  {
    hide KeyLeq;
    if xs != [] {
      KeyTotal(key(x), key(xs[0]));
      if KeyLeq(key(x), key(xs[0])) {
        forall j | 0 <= j < |xs| ensures KeyLeq(key(x), key(xs[j])) {
          if j > 0 {
            KeyTransitive(key(x), key(xs[0]), key(xs[j]));
          }
        }
      } else {
        InsertSorted(x, xs[1..], key);
        var rest := Insert(x, xs[1..], key);
        InsertPermutes(x, xs[1..], key);
        forall j | 0 <= j < |rest| ensures KeyLeq(key(xs[0]), key(rest[j])) {
          assert rest[j] in multiset(rest);
          assert rest[j] == x || rest[j] in xs[1..];
        }
      }
    }
  }

  lemma {:induction false} SortPermutes<T>(xs: seq<T>, key: T -> Key)
    ensures Permuted(Sort(xs, key), xs)
  {
    hide Insert;
    if xs != [] {
      SortPermutes(xs[1..], key);
      InsertPermutes(xs[0], Sort(xs[1..], key), key);
      HeadTail(xs);
    }
  }

  lemma {:induction false} SortSorts<T(!new)>(xs: seq<T>, key: T -> Key)
    ensures SortedBy(Sort(xs, key), key)
  {
    hide Insert;
    if xs != [] {
      SortSorts(xs[1..], key);
      InsertSorted(xs[0], Sort(xs[1..], key), key);
    }
  }

  /** Sorting something sorted changes nothing. */
  lemma {:induction false} SortIdempotent<T(!new)>(xs: seq<T>, key: T -> Key)
    requires SortedBy(xs, key)
    ensures Sort(xs, key) == xs
  {
    hide KeyLeq;
    if xs != [] {
      SortIdempotent(xs[1..], key);
      if |xs| > 1 {
        assert KeyLeq(key(xs[0]), key(xs[1]));
      }
    }
  }

  ghost predicate KeyTells<T(!new)>(xs: seq<T>, key: T -> Key) {
    forall x, y :: x in xs && y in xs && key(x) == key(y) ==> x == y
  }

  lemma {:induction false} SortedHead<T(!new)>(a: seq<T>, b: seq<T>, key: T -> Key)
    requires SortedBy(a, key) && SortedBy(b, key) && Permuted(a, b) && a != [] && b != []
    ensures key(a[0]) == key(b[0])
  {
    hide KeyLeq;
    PermutedBasics(a, b);
    KeyTotal(key(a[0]), key(a[0]));
    KeyTotal(key(b[0]), key(b[0]));
    assert a[0] in b by { assert a[0] in a; }
    assert b[0] in a by { assert b[0] in b; }
    var i :| 0 <= i < |a| && a[i] == b[0];
    var j :| 0 <= j < |b| && b[j] == a[0];
    KeyTotal(key(a[0]), key(b[0]));
  }

  /** Two sorted reorderings of each other are equal when equal keys mean equal elements. */
  lemma {:induction false} SortedUnique<T(!new)>(a: seq<T>, b: seq<T>, key: T -> Key)
    requires SortedBy(a, key) && SortedBy(b, key) && Permuted(a, b) && KeyTells(a, key)
    ensures a == b
  {
    hide KeyLeq, SortedBy;
    PermutedBasics(a, b);
    if a != [] {
      SortedHead(a, b, key);
      assert b[0] in a by { assert b[0] in b; }
      HeadTail(a);
      HeadTail(b);
      assert multiset(a[1..]) == multiset(a) - multiset{a[0]};
      SortedTail(a, key);
      SortedTail(b, key);
      SortedUnique(a[1..], b[1..], key);
    }
  }

  lemma {:induction false} SortedTail<T(!new)>(xs: seq<T>, key: T -> Key)
    requires SortedBy(xs, key) && xs != []
    ensures SortedBy(xs[1..], key)
  {
  }

  /** What is sorted by a telling key does not depend on the order it came in. */
  lemma {:induction false} SortInvariant<T(!new)>(a: seq<T>, b: seq<T>, key: T -> Key)
    requires Permuted(a, b) && KeyTells(a, key)
    ensures Sort(a, key) == Sort(b, key)
  {
    SortPermutes(a, key);
    SortPermutes(b, key);
    SortSorts(a, key);
    SortSorts(b, key);
    PermutedBasics(Sort(a, key), a);
    SortedUnique(Sort(a, key), Sort(b, key), key);
  }

  /** With a telling key, sorted forms are equal exactly for reorderings. */
  lemma {:induction false} SortCanonical<T(!new)>(a: seq<T>, b: seq<T>, key: T -> Key)
    requires KeyTells(a, key)
    ensures Sort(a, key) == Sort(b, key) <==> Permuted(a, b)
  {
    SortPermutes(a, key);
    SortPermutes(b, key);
    if Permuted(a, b) {
      SortInvariant(a, b, key);
    }
  }

  lemma {:induction false} DistinctKeysTell<T(!new)>(xs: seq<T>, key: T -> Key)
    requires Distinct(Map(key, xs))
    ensures Distinct(xs) && KeyTells(xs, key)
  {
    hide Map;
    forall i, j | 0 <= i < j < |xs| ensures key(xs[i]) != key(xs[j]) {
      assert Map(key, xs)[i] != Map(key, xs)[j];
    }
    forall x, y | x in xs && y in xs && key(x) == key(y) ensures x == y {
      var i :| 0 <= i < |xs| && xs[i] == x;
      var j :| 0 <= j < |xs| && xs[j] == y;
    }
  }

  /** Lists sorted by distinct keys are equal when they hold the same elements. */
  lemma {:induction false} KeyedUnique<T(!new)>(x: seq<T>, y: seq<T>, key: T -> Key)
    requires SortedBy(x, key) && SortedBy(y, key) && Distinct(Map(key, x)) && Distinct(Map(key, y))
    requires forall i :: 0 <= i < |x| ==> x[i] in y
    requires forall i :: 0 <= i < |y| ==> y[i] in x
    ensures x == y
  {
    hide Map, SortedBy, Distinct, KeyTells;
    DistinctKeysTell(x, key);
    DistinctKeysTell(y, key);
    DistinctCardinality(x);
    DistinctCardinality(y);
    assert (set e | e in x) == set e | e in y;
    Pigeonhole(x, y);
    SortedUnique(x, y, key);
  }

  /** The values of a dictionary filed under their own keys, in key order: `[d[k] for k in sorted(d)]`. */
  method SortedValues<T(!new)>(kept: map<Key, T>, key: T -> Key) returns (result: seq<T>)
    requires forall k :: k in kept ==> key(kept[k]) == k
    ensures SortedBy(result, key) && Distinct(Map(key, result))
    ensures forall i :: 0 <= i < |result| ==> key(result[i]) in kept && kept[key(result[i])] == result[i]
    ensures forall k :: k in kept ==> k in Map(key, result)
  {
    hide Map, SortedBy;
    var values: seq<T> := [];
    var left := kept.Keys;
    while left != {}
      invariant left <= kept.Keys
      invariant Distinct(Map(key, values))
      invariant forall i :: 0 <= i < |values| ==> key(values[i]) in kept.Keys - left && values[i] == kept[key(values[i])]
      invariant forall k :: k in kept.Keys - left ==> k in Map(key, values)
    {
      var k :| k in left;
      ghost var before := Map(key, values);
      values := values + [kept[k]];
      assert Map(key, values) == before + [k];
      left := left - {k};
    }
    result := Sort(values, key);
    SortPermutes(values, key);
    SortSorts(values, key);
    PermutedBasics(result, values);
    MapPermuted(key, values, result);
    DistinctPermuted(Map(key, values), Map(key, result));
    PermutedBasics(Map(key, values), Map(key, result));
    forall i | 0 <= i < |result| ensures key(result[i]) in kept && kept[key(result[i])] == result[i] {
      var j :| 0 <= j < |values| && values[j] == result[i];
    }
  }

  // ----- Decimal text

  const DIGITS := "0123456789"

  /** `str(n)`. */
  function Decimal(n: int): string {
    if n < 0 then "-" + Digits(-n) else Digits(n)
  }

  function Digits(n: nat): (s: string)
    ensures s != [] && forall c :: c in s ==> c in DIGITS
  {
    if n < 10 then [DIGITS[n]] else Digits(n / 10) + [DIGITS[n % 10]]
  }

  function DigitValue(c: char): nat { if '0' <= c <= '9' then c as nat - '0' as nat else 0 }

  function Parse(s: string): nat {
    if s == [] then 0 else 10 * Parse(s[..|s| - 1]) + DigitValue(s[|s| - 1])
  }

  lemma {:induction false} DigitOf(n: nat)
    requires n < 10
    ensures DigitValue(DIGITS[n]) == n
  {
  }

  lemma {:induction false} ParseDigits(n: nat)
    ensures Parse(Digits(n)) == n
  {
    if n < 10 {
      DigitOf(n);
      assert Digits(n)[..0] == [];
    } else {
      ParseDigits(n / 10);
      DigitOf(n % 10);
      assert (Digits(n / 10) + [DIGITS[n % 10]])[..|Digits(n / 10)|] == Digits(n / 10);
    }
  }

  lemma {:induction false} DecimalSign(n: int)
    ensures Decimal(n) != [] && (Decimal(n)[0] == '-' <==> n < 0)
  {
    if n >= 0 {
      assert Digits(n)[0] in Digits(n);
      assert '-' !in DIGITS;
    }
  }

  lemma {:induction false} DecimalInjective(m: int, n: int)
    requires Decimal(m) == Decimal(n)
    ensures m == n
  {
    DecimalSign(m);
    DecimalSign(n);
    ParseDigits(if m < 0 then -m else m);
    ParseDigits(if n < 0 then -n else n);
    assert m < 0 ==> Decimal(m)[1..] == Digits(-m) && Decimal(n)[1..] == Digits(-n);
  }
}
