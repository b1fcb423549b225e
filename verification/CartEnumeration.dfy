/**
 * Every way of allocating one candidate to each requested item: `itertools.product`
 * over ordered candidate sets, and the planner's running estimate of how many.
 */
module CartEnumeration {
  import opened Outcomes
  import opened Ordering
  import opened CartPlans

  /** Ordered candidates for one requested item; the validator fixes item, variant and quantity. */
  datatype AllocationSet = AllocationSet(key: ItemKey, quantity: int, candidates: seq<Candidate>)

  // ----- The product

  function Prepend<T>(x: T): seq<T> -> seq<T> { (row: seq<T>) => [x] + row }

  function Rows<T>(heads: seq<T>, tails: seq<seq<T>>): seq<seq<T>> {
    if heads == [] then [] else Map(Prepend(heads[0]), tails) + Rows(heads[1..], tails)
  }

  /** `product(*sets)`: the last factor varies fastest. */
  function Product<T>(sets: seq<seq<T>>): seq<seq<T>> {
    if sets == [] then [[]] else Rows(sets[0], Product(sets[1..]))
  }

  function Size<T>(xs: seq<T>): nat { |xs| }

  function Times(sizes: seq<nat>): nat {
    if sizes == [] then 1 else sizes[0] * Times(sizes[1..])
  }

  function Combinations<T>(sets: seq<seq<T>>): nat { Times(Map((s: seq<T>) => Size(s), sets)) }

  lemma {:induction false} CombinationsStep<T>(sets: seq<seq<T>>)
    requires sets != []
    ensures Combinations(sets) == |sets[0]| * Combinations(sets[1..])
  {
  }

  lemma {:induction false} RowsAt<T>(heads: seq<T>, tails: seq<seq<T>>, i: nat, j: nat)
    requires i < |heads| && j < |tails|
    ensures 0 <= i * |tails| + j < |Rows(heads, tails)|
    ensures Rows(heads, tails)[i * |tails| + j] == [heads[i]] + tails[j]
  {
    hide Map;
    var first, others := Map(Prepend(heads[0]), tails), Rows(heads[1..], tails);
    if i == 0 {
      assert (first + others)[j] == first[j];
    } else {
      RowsAt(heads[1..], tails, i - 1, j);
      var k := (i - 1) * |tails| + j;
      assert i * |tails| + j == |tails| + k;
      assert (first + others)[|tails| + k] == others[k];
    }
  }

  lemma {:induction false} RowsSize<T>(heads: seq<T>, tails: seq<seq<T>>)
    ensures |Rows(heads, tails)| == |heads| * |tails|
  {
    if heads != [] {
      RowsSize(heads[1..], tails);
      assert |heads| * |tails| == |tails| + (|heads| - 1) * |tails|;
    }
  }

  /** There are as many combinations as the product of the candidate counts. */
  lemma {:induction false} ProductSize<T>(sets: seq<seq<T>>)
    ensures |Product(sets)| == Combinations(sets)
  {
    if sets != [] {
      ProductSize(sets[1..]);
      RowsSize(sets[0], Product(sets[1..]));
      CombinationsStep(sets);
    }
  }

  // ----- Positional choices

  ghost predicate Choice<T>(sets: seq<seq<T>>, index: seq<nat>) {
    |index| == |sets| && forall i :: 0 <= i < |sets| ==> index[i] < |sets[i]|
  }

  ghost function Pick<T>(sets: seq<seq<T>>, index: seq<nat>): (row: seq<T>)
    requires Choice(sets, index)
    ensures |row| == |sets| && forall i :: 0 <= i < |sets| ==> row[i] == sets[i][index[i]]
  {
    if sets == [] then [] else [sets[0][index[0]]] + Pick(sets[1..], index[1..])
  }

  /** Where the product lists the combination chosen by `index`. */
  ghost function Position<T>(sets: seq<seq<T>>, index: seq<nat>): nat
    requires Choice(sets, index)
  {
    if sets == [] then 0 else index[0] * Combinations(sets[1..]) + Position(sets[1..], index[1..])
  }

  /** The choice behind the combination listed at `k`. */
  ghost function ChoiceAt<T>(sets: seq<seq<T>>, k: nat): seq<nat>
    requires k < Combinations(sets)
  {
    if sets == [] then []
    else
      var rest := Combinations(sets[1..]);
      CombinationsStep(sets);
      SplitIndex(k, |sets[0]|, rest);
      [k / rest] + ChoiceAt(sets[1..], k % rest)
  }

  lemma {:induction false} SplitIndex(k: nat, heads: nat, rest: nat)
    requires k < heads * rest
    ensures rest > 0 && k / rest < heads && k % rest < rest && k == (k / rest) * rest + k % rest
  {
    assert rest > 0;
    assert (k / rest) * rest <= k;
  }

  lemma {:induction false} MultipleGrows(d: int, rest: int)
    requires rest >= 0
    ensures d >= 1 ==> d * rest >= rest
    ensures d <= -1 ==> d * rest <= -rest
  {
  }

  lemma {:induction false} JoinIndex(i: nat, j: nat, heads: nat, rest: nat)
    requires i < heads && j < rest
    ensures i * rest + j < heads * rest && (i * rest + j) / rest == i && (i * rest + j) % rest == j
  {
    var k := i * rest + j;
    var d := k / rest - i;
    assert d * rest == (k / rest) * rest - i * rest == j - k % rest;
    MultipleGrows(d, rest);
    MultipleGrows(heads - i, rest);
    assert (heads - i) * rest == heads * rest - i * rest;
  }

  /** The combination listed at a choice's position is the one the choice picks. */
  lemma {:induction false} ProductAt<T>(sets: seq<seq<T>>, index: seq<nat>)
    requires Choice(sets, index)
    ensures Position(sets, index) < |Product(sets)| && Product(sets)[Position(sets, index)] == Pick(sets, index)
  {
    hide Rows, Combinations;
    if sets != [] {
      ProductAt(sets[1..], index[1..]);
      ProductSize(sets[1..]);
      RowsAt(sets[0], Product(sets[1..]), index[0], Position(sets[1..], index[1..]));
    }
  }

  lemma {:induction false} ChoiceOfPosition<T>(sets: seq<seq<T>>, index: seq<nat>)
    requires Choice(sets, index)
    ensures Position(sets, index) < Combinations(sets) && ChoiceAt(sets, Position(sets, index)) == index
  {
    if sets != [] {
      ChoiceOfPosition(sets[1..], index[1..]);
      CombinationsStep(sets);
      JoinIndex(index[0], Position(sets[1..], index[1..]), |sets[0]|, Combinations(sets[1..]));
      assert index == [index[0]] + index[1..];
    }
  }

  lemma {:induction false} PositionOfChoice<T>(sets: seq<seq<T>>, k: nat)
    requires k < Combinations(sets)
    ensures Choice(sets, ChoiceAt(sets, k)) && Position(sets, ChoiceAt(sets, k)) == k
  {
    if sets != [] {
      var rest := Combinations(sets[1..]);
      CombinationsStep(sets);
      SplitIndex(k, |sets[0]|, rest);
      PositionOfChoice(sets[1..], k % rest);
      assert ChoiceAt(sets, k)[1..] == ChoiceAt(sets[1..], k % rest);
    }
  }

  /**
   * Choices and listed combinations correspond one to one: each place in the list
   * belongs to exactly one positional choice, and holds what that choice picks.
   */
  lemma {:induction false} EachChoiceOnce<T>(sets: seq<seq<T>>, k: nat, index: seq<nat>)
    requires k < |Product(sets)|
    ensures k < Combinations(sets)
    ensures Choice(sets, index) && Position(sets, index) == k <==> index == ChoiceAt(sets, k)
    ensures Choice(sets, ChoiceAt(sets, k)) && Product(sets)[k] == Pick(sets, ChoiceAt(sets, k))
  {
    hide Product, ChoiceAt, Combinations, Pick, Position, Choice;
    ProductSize(sets);
    PositionOfChoice(sets, k);
    ProductAt(sets, ChoiceAt(sets, k));
    if Choice(sets, index) {
      ChoiceOfPosition(sets, index);
    }
  }

  // ----- The planner's limit

  lemma {:induction false} TimesSnoc(sizes: seq<nat>, n: nat)
    ensures Times(sizes + [n]) == Times(sizes) * n
  {
    if sizes == [] {
      assert [n][1..] == [];
    } else {
      assert (sizes + [n])[1..] == sizes[1..] + [n];
      TimesSnoc(sizes[1..], n);
      assert sizes[0] * (Times(sizes[1..]) * n) == (sizes[0] * Times(sizes[1..])) * n;
    }
  }

  lemma {:induction false} TimesGrows(sizes: seq<nat>, more: seq<nat>)
    requires forall i :: 0 <= i < |more| ==> more[i] > 0
    ensures Times(sizes) <= Times(sizes + more)
  {
    if more == [] {
      assert sizes + more == sizes;
    } else {
      hide Times;
      var front, last := more[..|more| - 1], more[|more| - 1];
      TimesGrows(sizes, front);
      TimesSnoc(sizes + front, last);
      assert sizes + more == (sizes + front) + [last];
      MultipleGrows(last, Times(sizes + front));
      assert Times(sizes + more) == last * Times(sizes + front);
    }
  }

  /**
   * The planner's early exit: the running product passes the limit exactly when
   * the number of combinations does. Every item has a candidate by then.
   */
  method ExceedsLimit(sets: seq<AllocationSet>, limit: nat) returns (exceeded: bool)
    requires forall i :: 0 <= i < |sets| ==> sets[i].candidates != []
    ensures sets != [] ==> (exceeded <==> Combinations(Map(Candidates, sets)) > limit)
    ensures sets == [] ==> !exceeded
  {
    var estimated := 1;
    ghost var sizes := Map((s: seq<Candidate>) => Size(s), Map(Candidates, sets));
    for i := 0 to |sets|
      invariant estimated == Times(sizes[..i])
      invariant i > 0 ==> estimated <= limit
    {
      estimated := estimated * |sets[i].candidates|;
      TimesSnoc(sizes[..i], sizes[i]);
      assert sizes[..i + 1] == sizes[..i] + [sizes[i]];
      if estimated > limit {
        TimesGrows(sizes[..i + 1], sizes[i + 1..]);
        assert sizes == sizes[..i + 1] + sizes[i + 1..];
        return true;
      }
    }
    assert sizes[..|sets|] == sizes;
    return false;
  }

  function Candidates(s: AllocationSet): seq<Candidate> { s.candidates }

  // ----- The enumeration service

  function BySetKey(s: AllocationSet): Key { [Text(s.key.itemId), Text(s.key.variant)] }

  function ByJson(json: Candidate -> string): Candidate -> Key { (c: Candidate) => [Text(json(c))] }

  function OrderedCandidates(json: Candidate -> string): AllocationSet -> seq<Candidate> {
    (s: AllocationSet) => Sort(s.candidates, ByJson(json))
  }

  /** The factors of the product, items by id and candidates by their JSON. */
  function Factors(sets: seq<AllocationSet>, json: Candidate -> string): seq<seq<Candidate>> {
    Map(OrderedCandidates(json), Sort(sets, BySetKey))
  }

  function EnumerateAllocations(sets: seq<AllocationSet>, json: Candidate -> string): Option<seq<seq<Candidate>>> {
    if sets == [] || exists i :: 0 <= i < |sets| && sets[i].candidates == [] then None
    else Some(Product(Factors(sets, json)))
  }

  /** The same set, its candidates in whatever order. */
  ghost predicate SameSet(a: AllocationSet, b: AllocationSet) {
    a.key == b.key && a.quantity == b.quantity && Permuted(a.candidates, b.candidates)
  }

  ghost predicate SameSets(a: seq<AllocationSet>, b: seq<AllocationSet>) {
    |a| == |b| && forall i :: 0 <= i < |a| ==> SameSet(a[i], b[i])
  }

  ghost predicate Injective(json: Candidate -> string) { forall a, b :: json(a) == json(b) ==> a == b }

  function Tidy(json: Candidate -> string): AllocationSet -> AllocationSet {
    (s: AllocationSet) => s.(candidates := Sort(s.candidates, ByJson(json)))
  }

  lemma {:induction false} JsonTells(json: Candidate -> string, candidates: seq<Candidate>)
    requires Injective(json)
    ensures KeyTells(candidates, ByJson(json))
  {
    forall x, y | x in candidates && y in candidates && ByJson(json)(x) == ByJson(json)(y) ensures x == y {
      assert ByJson(json)(x)[0] == Text(json(x)) && ByJson(json)(y)[0] == Text(json(y));
    }
  }

  lemma {:induction false} TidySame(json: Candidate -> string, a: seq<AllocationSet>, b: seq<AllocationSet>)
    requires Injective(json) && SameSets(a, b)
    ensures Map(Tidy(json), a) == Map(Tidy(json), b)
  {
    hide Sort, ByJson, Injective;
    forall i | 0 <= i < |a| ensures Tidy(json)(a[i]) == Tidy(json)(b[i]) {
      assert SameSet(a[i], b[i]);
      JsonTells(json, a[i].candidates);
      SortInvariant(a[i].candidates, b[i].candidates, ByJson(json));
    }
  }

  lemma {:induction false} TidyKeys(json: Candidate -> string, sets: seq<AllocationSet>)
    ensures Map(BySetKey, Map(Tidy(json), sets)) == Map(BySetKey, sets)
  {
    hide Sort;
  }

  /** The factors are the candidates of the tidied sets in key order. */
  lemma {:induction false} FactorsTidy(json: Candidate -> string, sets: seq<AllocationSet>)
    requires Distinct(Map(BySetKey, sets))
    ensures Factors(sets, json) == Map(Candidates, Sort(Map(Tidy(json), sets), BySetKey))
  {
    hide Sort, Map, BySetKey;
    var sorted, tidied := Sort(sets, BySetKey), Map(Tidy(json), sets);
    SortPermutes(sets, BySetKey);
    SortSorts(sets, BySetKey);
    SortPermutes(tidied, BySetKey);
    SortSorts(tidied, BySetKey);
    MapPermuted(Tidy(json), sorted, sets);
    TidyKeys(json, sets);
    TidyKeys(json, sorted);
    DistinctKeysTell(tidied, BySetKey);
    SortedAlike(sorted, Map(Tidy(json), sorted));
    PermutedBasics(Map(Tidy(json), sorted), tidied);
    SortedUnique(Map(Tidy(json), sorted), Sort(tidied, BySetKey), BySetKey);
    assert Map(Candidates, Map(Tidy(json), sorted)) == Map(OrderedCandidates(json), sorted);
  }

  lemma {:induction false} SortedAlike(a: seq<AllocationSet>, b: seq<AllocationSet>)
    requires Map(BySetKey, a) == Map(BySetKey, b) && SortedBy(a, BySetKey)
    ensures SortedBy(b, BySetKey)
  {
    hide KeyLeq, BySetKey;
    var x, y := Map(BySetKey, a), Map(BySetKey, b);
    assert |x| == |a| && |y| == |b|;
    forall i, j | 0 <= i < j < |b| ensures KeyLeq(BySetKey(b[i]), BySetKey(b[j])) {
      assert x[i] == y[i] && x[j] == y[j];
    }
  }

  lemma {:induction false} SetKeysTell(sets: seq<AllocationSet>)
    requires forall i, j :: 0 <= i < j < |sets| ==> sets[i].key != sets[j].key
    ensures Distinct(Map(BySetKey, sets))
  {
    forall i, j | 0 <= i < j < |sets| ensures BySetKey(sets[i]) != BySetKey(sets[j]) {
      assert BySetKey(sets[i])[0] == Text(sets[i].key.itemId) && BySetKey(sets[j])[0] == Text(sets[j].key.itemId);
      assert BySetKey(sets[i])[1] == Text(sets[i].key.variant) && BySetKey(sets[j])[1] == Text(sets[j].key.variant);
    }
  }

  /** With one set per key, neither the order of the sets nor that of their candidates changes the enumeration. */
  lemma {:induction false} EnumerationIgnoresOrder(
    json: Candidate -> string, a: seq<AllocationSet>, b: seq<AllocationSet>, c: seq<AllocationSet>)
    requires Injective(json) && SameSets(a, b) && Permuted(b, c)
    requires forall i, j :: 0 <= i < j < |a| ==> a[i].key != a[j].key
    ensures EnumerateAllocations(a, json) == EnumerateAllocations(c, json)
  {
    hide Sort, Map, BySetKey, Product, Factors, Injective, Permuted;
    assert forall i, j :: 0 <= i < j < |b| ==> b[i].key != b[j].key by {
      assert forall i :: 0 <= i < |a| ==> SameSet(a[i], b[i]);
    }
    SetKeysTell(a);
    SetKeysTell(b);
    FactorsTidy(json, a);
    FactorsTidy(json, b);
    TidySame(json, a, b);
    DistinctKeysTell(b, BySetKey);
    SortInvariant(b, c, BySetKey);
    assert Factors(b, json) == Factors(c, json) by { FactorsFromSorted(json, b, c); }
    PermutedBasics(b, c);
    forall i | 0 <= i < |a| ensures a[i].candidates == [] <==> b[i].candidates == [] {
      assert SameSet(a[i], b[i]);
      PermutedBasics(a[i].candidates, b[i].candidates);
    }
    EmptyAlike(b, c);
  }

  lemma {:induction false} FactorsFromSorted(json: Candidate -> string, b: seq<AllocationSet>, c: seq<AllocationSet>)
    requires Sort(b, BySetKey) == Sort(c, BySetKey)
    ensures Factors(b, json) == Factors(c, json)
  {
  }

  lemma {:induction false} EmptyAlike(b: seq<AllocationSet>, c: seq<AllocationSet>)
    requires Permuted(b, c)
    ensures (exists i :: 0 <= i < |b| && b[i].candidates == []) <==> (exists i :: 0 <= i < |c| && c[i].candidates == [])
  {
    PermutedBasics(b, c);
    if i :| 0 <= i < |b| && b[i].candidates == [] {
      assert b[i] in c;
    }
    if i :| 0 <= i < |c| && c[i].candidates == [] {
      assert c[i] in c && c[i] in b;
    }
  }

  lemma {:induction false} TimesPermuted(a: seq<nat>, b: seq<nat>)
    requires Permuted(a, b)
    ensures Times(a) == Times(b)
  {
    if a == [] {
      PermutedBasics(a, b);
    } else {
      var j := FindHead(a, b);
      TimesPermuted(a[1..], b[..j] + b[j + 1..]);
      TimesWithout(b, j);
    }
  }

  lemma {:induction false} TimesWithout(b: seq<nat>, j: nat)
    requires j < |b|
    ensures Times(b) == b[j] * Times(b[..j] + b[j + 1..])
  {
    if j == 0 {
      assert b[..0] + b[1..] == b[1..];
    } else {
      TimesWithout(b[1..], j - 1);
      var rest := b[..j] + b[j + 1..];
      assert rest[1..] == b[1..][..j - 1] + b[1..][j..];
      assert b[0] * (b[j] * Times(rest[1..])) == b[j] * (b[0] * Times(rest[1..]));
    }
  }

  /** The enumeration has as many combinations as the candidate counts of the given sets multiply to. */
  lemma {:induction false} EnumerationSize(sets: seq<AllocationSet>, json: Candidate -> string)
    requires EnumerateAllocations(sets, json).Some?
    ensures |EnumerateAllocations(sets, json).value| == Combinations(Map(Candidates, sets))
  {
    hide Product, Sort, Times, Map;
    ProductSize(Factors(sets, json));
    var size := (s: seq<Candidate>) => Size(s);
    var sorted := Sort(sets, BySetKey);
    SortPermutes(sets, BySetKey);
    MapPermuted(Candidates, sorted, sets);
    MapPermuted(size, Map(Candidates, sorted), Map(Candidates, sets));
    TimesPermuted(Map(size, Map(Candidates, sorted)), Map(size, Map(Candidates, sets)));
    forall i | 0 <= i < |sorted| ensures |Factors(sets, json)[i]| == |sorted[i].candidates| {
      SortPermutes(sorted[i].candidates, ByJson(json));
      PermutedBasics(Sort(sorted[i].candidates, ByJson(json)), sorted[i].candidates);
    }
    assert Map(size, Factors(sets, json)) == Map(size, Map(Candidates, sorted));
  }
}
