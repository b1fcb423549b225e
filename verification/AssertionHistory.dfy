/**
 * Canonical assertions about products and variants: canonicalise a request, plan
 * both revisions, commit them together, and keep what they replace.
 */
module AssertionHistory {
  import opened Outcomes
  import opened Ordering
  import opened Texts

  /** `detail` is the capture time and note, which are kept as they come. */
  datatype EvidenceRef = EvidenceRef(sourceType: string, sourceId: string, detail: string)

  datatype Attribute = Attribute(
    role: string, name: string, value: string, qualifier: Option<string>, status: string, evidence: seq<EvidenceRef>)

  datatype Measurement = Measurement(value: int, unit: string, dimension: string, basis: string, status: string)

  datatype Component = Component(caption: string, quantityText: Option<string>, quantity: Option<Measurement>)

  /** `rest` is everything canonicalization leaves alone. */
  datatype Product = Product(
    id: string, brandEvidence: seq<EvidenceRef>, identity: seq<Attribute>, descriptive: seq<Attribute>,
    evidence: seq<EvidenceRef>, rest: string)

  datatype Variant = Variant(
    id: string, productId: string, identity: seq<Attribute>, components: seq<Component>,
    evidence: seq<EvidenceRef>, rest: string)

  datatype Request = Request(
    product: Option<Product>, variant: Option<Variant>, evidence: seq<EvidenceRef>, decisions: seq<string>)

  datatype Revision<E> = Revision(entity: E, evidence: seq<EvidenceRef>, decisions: seq<string>)

  datatype EntityState<E> = EntityState(current: Revision<E>, history: seq<Revision<E>>)

  datatype AssertionError =
    | BlankEvidence | BlankDecision | NothingAsserted | NoEvidence | NoDecision | ProductMismatch

  /** `product:...`, `variant:...`, or both joined. */
  datatype Response = Response(product: Option<Product>, variant: Option<Variant>, reference: string)

  // ----- Canonical evidence: the first reference of each key, in key order

  function RefKey(e: EvidenceRef): Key { [Text(e.sourceType), Text(e.sourceId)] }

  function StripRef(e: EvidenceRef): EvidenceRef {
    e.(sourceType := Strip(e.sourceType), sourceId := Strip(e.sourceId))
  }

  predicate RefsPresent(refs: seq<EvidenceRef>) {
    forall i :: 0 <= i < |refs| ==> !Blank(refs[i].sourceType) && !Blank(refs[i].sourceId)
  }

  /** The elements no earlier one shares a key with. */
  function FirstPerKey<T>(xs: seq<T>, key: T -> Key): seq<T> {
    if xs == [] then []
    else
      var n := |xs| - 1;
      FirstPerKey(xs[..n], key) + if key(xs[n]) in Map(key, xs[..n]) then [] else [xs[n]]
  }

  function CanonicalEvidence(refs: seq<EvidenceRef>): seq<EvidenceRef> {
    Sort(FirstPerKey(Map(StripRef, refs), RefKey), RefKey)
  }

  ghost predicate FirstOfItsKey<T>(xs: seq<T>, key: T -> Key, x: T) {
    exists i :: 0 <= i < |xs| && xs[i] == x && forall j :: 0 <= j < i ==> key(xs[j]) != key(x)
  }

  /** One element per key, the first, in key order. */
  ghost predicate Firsts<T(!new)>(xs: seq<T>, key: T -> Key, result: seq<T>) {
    && SortedBy(result, key)
    && Distinct(Map(key, result))
    && (forall i :: 0 <= i < |result| ==> FirstOfItsKey(xs, key, result[i]))
    && (forall i :: 0 <= i < |xs| ==> key(xs[i]) in Map(key, result))
  }

  lemma {:induction false} StillFirst<T(!new)>(xs: seq<T>, n: nat, key: T -> Key, x: T)
    requires n <= |xs| && FirstOfItsKey(xs[..n], key, x)
    ensures FirstOfItsKey(xs, key, x)
  {
    var front := xs[..n];
    var k :| 0 <= k < |front| && front[k] == x && forall j :: 0 <= j < k ==> key(front[j]) != key(x);
    assert xs[k] == x && forall j :: 0 <= j < k ==> xs[j] == front[j];
  }

  lemma {:induction false} LastIsFirst<T(!new)>(xs: seq<T>, key: T -> Key)
    requires xs != [] && key(xs[|xs| - 1]) !in Map(key, xs[..|xs| - 1])
    ensures FirstOfItsKey(xs, key, xs[|xs| - 1])
  {
    hide Map;
    var front := xs[..|xs| - 1];
    assert forall j :: 0 <= j < |front| ==> Map(key, front)[j] == key(xs[j]);
  }

  lemma {:induction false} FirstPerKeySnoc<T>(xs: seq<T>, n: nat, key: T -> Key)
    requires n < |xs|
    ensures FirstPerKey(xs[..n + 1], key) ==
      FirstPerKey(xs[..n], key) + if key(xs[n]) in Map(key, xs[..n]) then [] else [xs[n]]
  {
    assert xs[..n + 1][..n] == xs[..n];
  }

  lemma {:induction false} FirstPerKeyFirst<T(!new)>(xs: seq<T>, key: T -> Key)
    ensures forall i :: 0 <= i < |FirstPerKey(xs, key)| ==> FirstOfItsKey(xs, key, FirstPerKey(xs, key)[i])
  {
    hide Map;
    hide FirstOfItsKey;
    if xs != [] {
      var n := |xs| - 1;
      var front := xs[..n];
      FirstPerKeyFirst(front, key);
      var before, after := FirstPerKey(front, key), FirstPerKey(xs, key);
      assert after == before + if key(xs[n]) in Map(key, front) then [] else [xs[n]];
      forall i | 0 <= i < |after| ensures FirstOfItsKey(xs, key, after[i]) {
        if i < |before| {
          StillFirst(xs, n, key, before[i]);
        } else {
          LastIsFirst(xs, key);
        }
      }
    }
  }

  lemma {:induction false} FirstPerKeyCovers<T(!new)>(xs: seq<T>, key: T -> Key)
    ensures forall i :: 0 <= i < |xs| ==> key(xs[i]) in Map(key, FirstPerKey(xs, key))
  {
    if xs != [] {
      var n := |xs| - 1;
      var front := xs[..n];
      FirstPerKeyCovers(front, key);
      var before := FirstPerKey(front, key);
      var last := if key(xs[n]) in Map(key, front) then [] else [xs[n]];
      assert FirstPerKey(xs, key) == before + last;
      MapAppend(key, before, last);
      forall i | 0 <= i < |xs| ensures key(xs[i]) in Map(key, before) + Map(key, last) {
        if i < n {
          assert key(front[i]) in Map(key, before);
        } else if key(xs[n]) in Map(key, front) {
          var k :| 0 <= k < n && Map(key, front)[k] == key(xs[n]);
          assert key(front[k]) in Map(key, before);
        } else {
          assert Map(key, last)[0] == key(xs[n]);
        }
      }
    }
  }

  lemma {:induction false} FirstPerKeyDistinct<T(!new)>(xs: seq<T>, key: T -> Key)
    ensures Distinct(Map(key, FirstPerKey(xs, key)))
  {
    hide Map;
    if xs != [] {
      var n := |xs| - 1;
      var front := xs[..n];
      FirstPerKeyDistinct(front, key);
      var before := FirstPerKey(front, key);
      if key(xs[n]) !in Map(key, front) {
        FirstPerKeyFirst(front, key);
        NewKey(front, key, before, key(xs[n]));
        assert Map(key, before + [xs[n]]) == Map(key, before) + [key(xs[n])];
      } else {
        assert before + [] == before;
      }
    }
  }

  lemma {:induction false} FirstPerKeyHolds<T(!new)>(xs: seq<T>, key: T -> Key)
    ensures Distinct(Map(key, FirstPerKey(xs, key)))
    ensures forall i :: 0 <= i < |FirstPerKey(xs, key)| ==> FirstOfItsKey(xs, key, FirstPerKey(xs, key)[i])
    ensures forall i :: 0 <= i < |xs| ==> key(xs[i]) in Map(key, FirstPerKey(xs, key))
  {
    hide Map, FirstPerKey, FirstOfItsKey, Distinct;
    FirstPerKeyFirst(xs, key);
    FirstPerKeyCovers(xs, key);
    FirstPerKeyDistinct(xs, key);
  }

  lemma {:induction false} NewKey<T(!new)>(front: seq<T>, key: T -> Key, before: seq<T>, k: Key)
    requires forall i :: 0 <= i < |before| ==> FirstOfItsKey(front, key, before[i])
    requires k !in Map(key, front)
    ensures k !in Map(key, before)
  {
    hide Map;
    forall i | 0 <= i < |before| ensures Map(key, before)[i] != k {
      var j :| 0 <= j < |front| && front[j] == before[i];
      assert Map(key, front)[j] != k;
    }
  }

  /** Sorting the first of each key gives exactly the canonical list. */
  lemma {:induction false} SortedFirsts<T(!new)>(xs: seq<T>, key: T -> Key)
    ensures Firsts(xs, key, Sort(FirstPerKey(xs, key), key))
  {
    hide Map, Sort, SortedBy, FirstOfItsKey;
    FirstPerKeyHolds(xs, key);
    var first := FirstPerKey(xs, key);
    var result := Sort(first, key);
    SortPermutes(first, key);
    SortSorts(first, key);
    PermutedBasics(result, first);
    MapPermuted(key, first, result);
    DistinctPermuted(Map(key, first), Map(key, result));
    PermutedBasics(Map(key, first), Map(key, result));
    forall i | 0 <= i < |result| ensures FirstOfItsKey(xs, key, result[i]) {
      var j :| 0 <= j < |first| && first[j] == result[i];
    }
  }

  lemma {:induction false} FirstsContain<T(!new)>(xs: seq<T>, key: T -> Key, x: seq<T>, y: seq<T>, i: nat)
    requires Firsts(xs, key, x) && Firsts(xs, key, y) && i < |x|
    ensures x[i] in y
  {
    hide Map, SortedBy;
    assert FirstOfItsKey(xs, key, x[i]);
    var n :| 0 <= n < |xs| && xs[n] == x[i] && forall j :: 0 <= j < n ==> key(xs[j]) != key(x[i]);
    var k :| 0 <= k < |y| && Map(key, y)[k] == key(xs[n]);
    assert FirstOfItsKey(xs, key, y[k]);
    var m :| 0 <= m < |xs| && xs[m] == y[k] && forall j :: 0 <= j < m ==> key(xs[j]) != key(y[k]);
    assert m == n;
  }

  lemma {:induction false} FirstsUnique<T(!new)>(xs: seq<T>, key: T -> Key, x: seq<T>, y: seq<T>)
    requires Firsts(xs, key, x) && Firsts(xs, key, y)
    ensures x == y
  {
    hide Map, SortedBy, Firsts, FirstOfItsKey;
    forall i | 0 <= i < |x| ensures x[i] in y {
      FirstsContain(xs, key, x, y, i);
    }
    forall i | 0 <= i < |y| ensures y[i] in x {
      FirstsContain(xs, key, y, x, i);
    }
    assert SortedBy(x, key) && Distinct(Map(key, x)) by { FirstsSorted(xs, key, x); }
    assert SortedBy(y, key) && Distinct(Map(key, y)) by { FirstsSorted(xs, key, y); }
    KeyedUnique(x, y, key);
  }

  lemma {:induction false} FirstsSorted<T(!new)>(xs: seq<T>, key: T -> Key, x: seq<T>)
    requires Firsts(xs, key, x)
    ensures SortedBy(x, key) && Distinct(Map(key, x))
  {
  }

  /** Merging what a merge produced into its first group again changes nothing. */
  lemma {:induction false} FirstsAgain<T(!new)>(a: seq<T>, b: seq<T>, key: T -> Key, m: seq<T>)
    requires Firsts(a + b, key, m)
    ensures Firsts(a + m, key, m)
  {
    hide Map, SortedBy;
    forall i | 0 <= i < |m| ensures FirstOfItsKey(a + m, key, m[i]) {
      var n :| 0 <= n < |a + b| && (a + b)[n] == m[i] && forall j :: 0 <= j < n ==> key((a + b)[j]) != key(m[i]);
      if n < |a| {
        assert (a + m)[n] == m[i];
        assert forall j :: 0 <= j < n ==> (a + m)[j] == (a + b)[j];
      } else {
        assert (a + m)[|a| + i] == m[i];
        forall j | 0 <= j < |a| + i ensures key((a + m)[j]) != key(m[i]) {
          if j < |a| {
            assert (a + m)[j] == (a + b)[j];
          } else {
            assert Map(key, m)[j - |a|] != Map(key, m)[i];
          }
        }
      }
    }
    forall i | 0 <= i < |a + m| ensures key((a + m)[i]) in Map(key, m) {
      if i < |a| {
        assert (a + m)[i] == (a + b)[i];
      } else {
        assert Map(key, m)[i - |a|] == key((a + m)[i]);
      }
    }
  }

  lemma {:induction false} StripRefTwice(e: EvidenceRef)
    ensures StripRef(StripRef(e)) == StripRef(e)
  {
    StripIdempotent(e.sourceType);
    StripIdempotent(e.sourceId);
  }

  lemma {:induction false} Stripped(a: seq<EvidenceRef>, b: seq<EvidenceRef>, m: seq<EvidenceRef>)
    requires m == CanonicalEvidence(a + b)
    ensures Map(StripRef, a + m) == Map(StripRef, a) + m
  {
    hide Map, Sort, StripRef, FirstOfItsKey;
    var all := Map(StripRef, a + b);
    SortedFirsts(all, RefKey);
    forall i | 0 <= i < |m| ensures StripRef(m[i]) == m[i] {
      assert m[i] in all by { FirstIsIn(all, RefKey, m, i); }
      var k :| 0 <= k < |all| && all[k] == m[i];
      StripRefTwice((a + b)[k]);
    }
    assert Map(StripRef, a + m) == Map(StripRef, a) + m;
  }

  lemma {:induction false} FirstIsIn<T(!new)>(xs: seq<T>, key: T -> Key, m: seq<T>, i: nat)
    requires Firsts(xs, key, m) && i < |m|
    ensures m[i] in xs
  {
    assert FirstOfItsKey(xs, key, m[i]);
  }

  /** Canonical evidence merged again behind the evidence it already contains stays as it is. */
  lemma {:induction false} MergeTwice(a: seq<EvidenceRef>, b: seq<EvidenceRef>)
    ensures CanonicalEvidence(a + CanonicalEvidence(a + b)) == CanonicalEvidence(a + b)
  {
    hide Map, Sort, FirstPerKey, Firsts;
    var m := CanonicalEvidence(a + b);
    var x, y := Map(StripRef, a), Map(StripRef, b);
    assert Map(StripRef, a + b) == x + y;
    Stripped(a, b, m);
    SortedFirsts(x + y, RefKey);
    FirstsAgain(x, y, RefKey, m);
    SortedFirsts(x + m, RefKey);
    FirstsUnique(x + m, RefKey, CanonicalEvidence(a + m), m);
  }

  lemma {:induction false} EvidenceIdempotent(refs: seq<EvidenceRef>)
    ensures CanonicalEvidence(CanonicalEvidence(refs)) == CanonicalEvidence(refs)
  {
    hide CanonicalEvidence;
    MergeTwice([], refs);
    assert [] + refs == refs;
    assert [] + CanonicalEvidence(refs) == CanonicalEvidence(refs);
  }

  lemma {:induction false} RefsStayPresent(refs: seq<EvidenceRef>)
    requires RefsPresent(refs)
    ensures RefsPresent(CanonicalEvidence(refs))
    ensures CanonicalEvidence(refs) == [] <==> refs == []
  {
    hide Map, Sort, Strip, Blank;
    var all := Map(StripRef, refs);
    var m := CanonicalEvidence(refs);
    SortedFirsts(all, RefKey);
    forall i | 0 <= i < |m| ensures !Blank(m[i].sourceType) && !Blank(m[i].sourceId) {
      FirstIsIn(all, RefKey, m, i);
      var k :| 0 <= k < |all| && all[k] == m[i];
      StripTrims(refs[k].sourceType);
      StripTrims(Strip(refs[k].sourceType));
      StripIdempotent(refs[k].sourceType);
      StripTrims(refs[k].sourceId);
      StripTrims(Strip(refs[k].sourceId));
      StripIdempotent(refs[k].sourceId);
    }
    if refs != [] {
      assert RefKey(all[0]) in Map(RefKey, m);
    } else {
      assert FirstPerKey(all, RefKey) == [];
      SortPermutes(FirstPerKey(all, RefKey), RefKey);
      PermutedBasics(m, FirstPerKey(all, RefKey));
    }
  }

  // ----- Canonical decisions: stripped, each once, in order

  function TextKey(s: string): Key { [Text(s)] }

  function StripText(s: string): string { Strip(s) }

  predicate DecisionsPresent(decisions: seq<string>) {
    forall i :: 0 <= i < |decisions| ==> !Blank(decisions[i])
  }

  function CanonicalDecisions(decisions: seq<string>): seq<string> {
    Sort(FirstPerKey(Map(StripText, decisions), TextKey), TextKey)
  }

  // ----- Canonical entities

  function AttributeKey(a: Attribute): Key {
    [Text(a.role), Text(a.name), Text(a.value), Text(if a.qualifier.Some? then a.qualifier.value else ""), Text(a.status)]
  }

  function CleanAttribute(a: Attribute): Attribute { a.(evidence := CanonicalEvidence(a.evidence)) }

  function CanonicalAttributes(attributes: seq<Attribute>): seq<Attribute> {
    Sort(Map(CleanAttribute, attributes), AttributeKey)
  }

  /** `_measurement_key`: the empty tuple sorts before every measurement. */
  function MeasurementKey(m: Option<Measurement>): Key {
    if m.None? then []
    else [Number(m.value.value), Text(m.value.unit), Text(m.value.dimension), Text(m.value.basis), Text(m.value.status)]
  }

  function ComponentKey(c: Component): Key {
    [Text(c.caption), Text(if c.quantityText.Some? then c.quantityText.value else "")] + MeasurementKey(c.quantity)
  }

  function CanonicalProduct(p: Product): Product {
    p.(brandEvidence := CanonicalEvidence(p.brandEvidence), identity := CanonicalAttributes(p.identity),
       descriptive := CanonicalAttributes(p.descriptive), evidence := CanonicalEvidence(p.evidence))
  }

  function CanonicalVariant(v: Variant): Variant {
    v.(identity := CanonicalAttributes(v.identity), components := Sort(v.components, ComponentKey),
       evidence := CanonicalEvidence(v.evidence))
  }

  predicate AttributesPresent(attributes: seq<Attribute>) {
    forall i :: 0 <= i < |attributes| ==> RefsPresent(attributes[i].evidence)
  }

  predicate ProductPresent(p: Product) {
    RefsPresent(p.brandEvidence) && AttributesPresent(p.identity) && AttributesPresent(p.descriptive) && RefsPresent(p.evidence)
  }

  predicate VariantPresent(v: Variant) { AttributesPresent(v.identity) && RefsPresent(v.evidence) }

  lemma {:induction false} AttributesTwice(attributes: seq<Attribute>)
    ensures CanonicalAttributes(CanonicalAttributes(attributes)) == CanonicalAttributes(attributes)
    ensures AttributesPresent(attributes) ==> AttributesPresent(CanonicalAttributes(attributes))
  {
    hide Map, Sort, CanonicalEvidence, AttributeKey, RefsPresent;
    var cleaned := Map(CleanAttribute, attributes);
    var result := Sort(cleaned, AttributeKey);
    SortPermutes(cleaned, AttributeKey);
    SortSorts(cleaned, AttributeKey);
    PermutedBasics(result, cleaned);
    forall i | 0 <= i < |result|
      ensures CleanAttribute(result[i]) == result[i]
      ensures AttributesPresent(attributes) ==> RefsPresent(result[i].evidence)
    {
      var k :| 0 <= k < |cleaned| && cleaned[k] == result[i];
      EvidenceIdempotent(attributes[k].evidence);
      if AttributesPresent(attributes) {
        RefsStayPresent(attributes[k].evidence);
      }
    }
    assert Map(CleanAttribute, result) == result;
    SortIdempotent(result, AttributeKey);
  }

  lemma {:induction false} ProductTwice(p: Product)
    ensures CanonicalProduct(CanonicalProduct(p)) == CanonicalProduct(p)
    ensures ProductPresent(p) ==> ProductPresent(CanonicalProduct(p))
  {
    hide CanonicalEvidence, CanonicalAttributes, RefsPresent, AttributesPresent;
    EvidenceIdempotent(p.brandEvidence);
    EvidenceIdempotent(p.evidence);
    AttributesTwice(p.identity);
    AttributesTwice(p.descriptive);
    if ProductPresent(p) {
      RefsStayPresent(p.brandEvidence);
      RefsStayPresent(p.evidence);
    }
  }

  lemma {:induction false} VariantTwice(v: Variant)
    ensures CanonicalVariant(CanonicalVariant(v)) == CanonicalVariant(v)
    ensures VariantPresent(v) ==> VariantPresent(CanonicalVariant(v))
  {
    hide CanonicalEvidence, CanonicalAttributes, RefsPresent, AttributesPresent, Sort, ComponentKey;
    EvidenceIdempotent(v.evidence);
    AttributesTwice(v.identity);
    SortSorts(v.components, ComponentKey);
    SortIdempotent(Sort(v.components, ComponentKey), ComponentKey);
    if VariantPresent(v) {
      RefsStayPresent(v.evidence);
    }
  }

  // ----- Planning and commit

  /** The product revision a request asks for: its canonical form with the request's evidence merged in front. */
  function PlannedProduct(p: Product, evidence: seq<EvidenceRef>, decisions: seq<string>): Revision<Product> {
    var canonical := CanonicalProduct(p);
    var merged := CanonicalEvidence(CanonicalEvidence(evidence) + canonical.evidence);
    Revision(canonical.(evidence := merged), merged, CanonicalDecisions(decisions))
  }

  function PlannedVariant(v: Variant, evidence: seq<EvidenceRef>, decisions: seq<string>): Revision<Variant> {
    var canonical := CanonicalVariant(v);
    var merged := CanonicalEvidence(CanonicalEvidence(evidence) + canonical.evidence);
    Revision(canonical.(evidence := merged), merged, CanonicalDecisions(decisions))
  }

  /** `_commit_revision`: the replaced revision goes to the history when it differs. */
  function Committed<E(==)>(states: map<string, EntityState<E>>, id: string, revision: Revision<E>): map<string, EntityState<E>> {
    if id !in states then states[id := EntityState(revision, [])]
    else if states[id].current != revision then
      states[id := EntityState(revision, states[id].history + [states[id].current])]
    else states
  }

  predicate Accepted(request: Request) {
    && (request.product.Some? || request.variant.Some?)
    && (request.product.Some? ==> ProductPresent(request.product.value))
    && (request.variant.Some? ==> VariantPresent(request.variant.value))
    && request.evidence != [] && RefsPresent(request.evidence)
    && request.decisions != [] && DecisionsPresent(request.decisions)
    && (request.product.Some? && request.variant.Some? ==> request.variant.value.productId == request.product.value.id)
  }

  /** The first reason a request is refused for, in the order the checks are made. */
  function Refusal(request: Request): Option<AssertionError> {
    if request.product.Some? && !ProductPresent(request.product.value) then Some(BlankEvidence)
    else if request.variant.Some? && !VariantPresent(request.variant.value) then Some(BlankEvidence)
    else if !RefsPresent(request.evidence) then Some(BlankEvidence)
    else if !DecisionsPresent(request.decisions) then Some(BlankDecision)
    else if request.product.None? && request.variant.None? then Some(NothingAsserted)
    else if request.evidence == [] then Some(NoEvidence)
    else if request.decisions == [] then Some(NoDecision)
    else if request.product.Some? && request.variant.Some? && request.variant.value.productId != request.product.value.id
    then Some(ProductMismatch)
    else None
  }

  datatype Store = Store(products: map<string, EntityState<Product>>, variants: map<string, EntityState<Variant>>)

  /** What one request makes of the store: nothing at all, or both of its revisions. */
  function Applied(store: Store, request: Request): Store {
    if !Accepted(request) then store
    else
      Store(
        if request.product.Some? then
          Committed(store.products, request.product.value.id, PlannedProduct(request.product.value, request.evidence, request.decisions))
        else store.products,
        if request.variant.Some? then
          Committed(store.variants, request.variant.value.id, PlannedVariant(request.variant.value, request.evidence, request.decisions))
        else store.variants)
  }

  // ----- The passes of one call, each of which can raise

  datatype Plans = Plans(product: Option<Revision<Product>>, variant: Option<Revision<Variant>>)

  function NormalizedRequest(request: Request): Result<Request, AssertionError> {
    if request.product.Some? && !ProductPresent(request.product.value) then Err(BlankEvidence)
    else if request.variant.Some? && !VariantPresent(request.variant.value) then Err(BlankEvidence)
    else if !RefsPresent(request.evidence) then Err(BlankEvidence)
    else if !DecisionsPresent(request.decisions) then Err(BlankDecision)
    else
      Ok(Request(
        if request.product.Some? then Some(CanonicalProduct(request.product.value)) else None,
        if request.variant.Some? then Some(CanonicalVariant(request.variant.value)) else None,
        CanonicalEvidence(request.evidence), CanonicalDecisions(request.decisions)))
  }

  /** `_validate_request`, which canonicalises evidence and decisions once more. */
  function Invalid(request: Request): Option<AssertionError> {
    if request.product.None? && request.variant.None? then Some(NothingAsserted)
    else if !RefsPresent(request.evidence) then Some(BlankEvidence)
    else if CanonicalEvidence(request.evidence) == [] then Some(NoEvidence)
    else if !DecisionsPresent(request.decisions) then Some(BlankDecision)
    else if CanonicalDecisions(request.decisions) == [] then Some(NoDecision)
    else None
  }

  /** `_plan_product_revision`: another pass over the product, and the merge of all evidence. */
  function PlanProduct(p: Product, evidence: seq<EvidenceRef>, decisions: seq<string>): Result<Revision<Product>, AssertionError> {
    if !ProductPresent(p) || !RefsPresent(evidence + CanonicalProduct(p).evidence) then Err(BlankEvidence)
    else if !DecisionsPresent(decisions) then Err(BlankDecision)
    else
      var merged := CanonicalEvidence(evidence + CanonicalProduct(p).evidence);
      Ok(Revision(CanonicalProduct(p).(evidence := merged), merged, CanonicalDecisions(decisions)))
  }

  function PlanVariant(v: Variant, evidence: seq<EvidenceRef>, decisions: seq<string>): Result<Revision<Variant>, AssertionError> {
    if !VariantPresent(v) || !RefsPresent(evidence + CanonicalVariant(v).evidence) then Err(BlankEvidence)
    else if !DecisionsPresent(decisions) then Err(BlankDecision)
    else
      var merged := CanonicalEvidence(evidence + CanonicalVariant(v).evidence);
      Ok(Revision(CanonicalVariant(v).(evidence := merged), merged, CanonicalDecisions(decisions)))
  }

  /** Everything before the commits, on the normalised request: validation, a further canonical pass, and both plans. */
  function Planned(n: Request): Result<Plans, AssertionError> {
    if Invalid(n).Some? then Err(Invalid(n).value)
    else if n.product.Some? && !ProductPresent(n.product.value) then Err(BlankEvidence)
    else if n.variant.Some? && !VariantPresent(n.variant.value) then Err(BlankEvidence)
    else if n.product.Some? && n.variant.Some? && n.variant.value.productId != n.product.value.id then Err(ProductMismatch)
    else
      var product := if n.product.Some? then Some(PlanProduct(CanonicalProduct(n.product.value), n.evidence, n.decisions)) else None;
      var variant := if n.variant.Some? then Some(PlanVariant(CanonicalVariant(n.variant.value), n.evidence, n.decisions)) else None;
      if product.Some? && product.value.Err? then Err(product.value.error)
      else if variant.Some? && variant.value.Err? then Err(variant.value.error)
      else
        Ok(Plans(if product.Some? then Some(product.value.value) else None, if variant.Some? then Some(variant.value.value) else None))
  }

  /** The first error of any pass, or the revisions to commit. */
  function Attempted(request: Request): Result<Plans, AssertionError> {
    var normalized :- NormalizedRequest(request);
    Planned(normalized)
  }

  /** The commits. */
  function CommittedPlans(store: Store, request: Request, plans: Plans): Store
    requires plans.product.Some? <==> request.product.Some?
    requires plans.variant.Some? <==> request.variant.Some?
  {
    Store(
      if plans.product.Some? then Committed(store.products, request.product.value.id, plans.product.value) else store.products,
      if plans.variant.Some? then Committed(store.variants, request.variant.value.id, plans.variant.value) else store.variants)
  }

  function Reference(request: Request): string
    requires request.product.Some? || request.variant.Some?
  {
    if request.product.Some? && request.variant.Some? then "product:" + request.product.value.id + "|variant:" + request.variant.value.id
    else if request.product.Some? then "product:" + request.product.value.id
    else "variant:" + request.variant.value.id
  }

  function AppliedAll(store: Store, requests: seq<Request>): Store {
    if requests == [] then store else Applied(AppliedAll(store, requests[..|requests| - 1]), requests[|requests| - 1])
  }

  // ----- The guarantees

  /** Every earlier revision of `before` is still in `after`, in order: history, then the then-current one. */
  ghost predicate Extends<E>(before: EntityState<E>, after: EntityState<E>) {
    before.history + [before.current] <= after.history + [after.current]
  }

  ghost predicate StoreExtends(before: Store, after: Store) {
    && (forall id :: id in before.products ==> id in after.products && Extends(before.products[id], after.products[id]))
    && (forall id :: id in before.variants ==> id in after.variants && Extends(before.variants[id], after.variants[id]))
  }

  /** At most `id` has changed, and what it replaced is the latest entry of its history. */
  ghost predicate Replaces<E(!new)>(before: map<string, EntityState<E>>, id: string, after: map<string, EntityState<E>>) {
    && (forall k :: k != id ==> (k in after <==> k in before) && (k in before ==> after[k] == before[k]))
    && id in after
    && (id !in before ==> |after[id].history| == 0)
    && (id in before ==>
          || after[id] == before[id]
          || (after[id].history == before[id].history + [before[id].current] && after[id].current != before[id].current))
  }

  lemma {:induction false} CommitReplaces<E(!new)>(states: map<string, EntityState<E>>, id: string, revision: Revision<E>)
    ensures Replaces(states, id, Committed(states, id, revision))
  {
  }

  /** Each entity of the request, and no other, has got a revision. */
  ghost predicate ReplacesOnly(before: Store, request: Request, after: Store) {
    && (request.product.Some? ==> Replaces(before.products, request.product.value.id, after.products))
    && (request.product.None? ==> after.products == before.products)
    && (request.variant.Some? ==> Replaces(before.variants, request.variant.value.id, after.variants))
    && (request.variant.None? ==> after.variants == before.variants)
  }

  predicate RefersTo(request: Request, reference: string) {
    (request.product.Some? || request.variant.Some?) &&
    match (request.product, request.variant)
    case (Some(p), Some(v)) => reference == "product:" + p.id + "|variant:" + v.id
    case (Some(p), None) => reference == "product:" + p.id
    case (None, Some(v)) => reference == "variant:" + v.id
    case (None, None) => reference == ""
  }

  lemma {:induction false} CommitExtends<E>(states: map<string, EntityState<E>>, id: string, revision: Revision<E>)
    ensures var after := Committed(states, id, revision);
      && (forall k :: k in states ==> k in after && Extends(states[k], after[k]))
      && id in after && after[id].current == revision
  {
  }

  /** History is append-only: whatever requests are applied, no earlier revision is lost or changed. */
  lemma {:induction false} HistoryOnlyGrows(store: Store, requests: seq<Request>)
    ensures StoreExtends(store, AppliedAll(store, requests))
  {
    hide Accepted, PlannedProduct, PlannedVariant, Committed;
    if requests != [] {
      var before := AppliedAll(store, requests[..|requests| - 1]);
      var request := requests[|requests| - 1];
      HistoryOnlyGrows(store, requests[..|requests| - 1]);
      if Accepted(request) && request.product.Some? {
        CommitExtends(before.products, request.product.value.id, PlannedProduct(request.product.value, request.evidence, request.decisions));
      }
      if Accepted(request) && request.variant.Some? {
        CommitExtends(before.variants, request.variant.value.id, PlannedVariant(request.variant.value, request.evidence, request.decisions));
      }
    }
  }

  // ----- What a revision carries, field by field

  predicate SameSource(e: EvidenceRef, c: EvidenceRef) { c.sourceType == Strip(e.sourceType) && c.sourceId == Strip(e.sourceId) }

  /** `c` is the first of the references from its source, its source stripped and its detail kept. */
  ghost predicate FirstFrom(refs: seq<EvidenceRef>, c: EvidenceRef) {
    exists i :: 0 <= i < |refs| && SameSource(refs[i], c) && c.detail == refs[i].detail && forall j :: 0 <= j < i ==> !SameSource(refs[j], c)
  }

  ghost predicate From(c: EvidenceRef, refs: seq<EvidenceRef>) { exists i :: 0 <= i < |refs| && SameSource(c, refs[i]) }

  ghost predicate InSourceOrder(refs: seq<EvidenceRef>) {
    forall i, j :: 0 <= i < j < |refs| ==>
      && (refs[i].sourceType != refs[j].sourceType || refs[i].sourceId != refs[j].sourceId)
      && KeyLeq([Text(refs[i].sourceType), Text(refs[i].sourceId)], [Text(refs[j].sourceType), Text(refs[j].sourceId)])
  }

  /** Each source once, by its first reference, in the order of the sources. */
  ghost predicate EvidenceKept(refs: seq<EvidenceRef>, kept: seq<EvidenceRef>) {
    && InSourceOrder(kept)
    && (forall i :: 0 <= i < |kept| ==> FirstFrom(refs, kept[i]))
    && (forall i :: 0 <= i < |refs| ==> From(refs[i], kept))
  }

  /** Everything as it was, with the evidence kept per source. */
  ghost predicate AttributeIs(a: Attribute, b: Attribute) {
    && b.role == a.role && b.name == a.name && b.value == a.value && b.qualifier == a.qualifier && b.status == a.status
    && EvidenceKept(a.evidence, b.evidence)
  }

  ghost predicate Cleaned(xs: seq<Attribute>, ys: seq<Attribute>) {
    |ys| == |xs| && forall i :: 0 <= i < |xs| ==> AttributeIs(xs[i], ys[i])
  }

  /** The attributes one by one, reordered. */
  ghost predicate AttributesKept(xs: seq<Attribute>, ys: seq<Attribute>) {
    && (forall i, j :: 0 <= i < j < |ys| ==> AttributeBefore(ys[i], ys[j]))
    && exists zs :: Permuted(ys, zs) && Cleaned(xs, zs)
  }

  function TextOr(s: Option<string>): string { if s.Some? then s.value else "" }

  /** By role, name, value, qualifier, with an absent one counting as empty, and status. */
  ghost predicate AttributeBefore(a: Attribute, b: Attribute) {
    if a.role != b.role then TextLeq(a.role, b.role)
    else if a.name != b.name then TextLeq(a.name, b.name)
    else if a.value != b.value then TextLeq(a.value, b.value)
    else if TextOr(a.qualifier) != TextOr(b.qualifier) then TextLeq(TextOr(a.qualifier), TextOr(b.qualifier))
    else TextLeq(a.status, b.status)
  }

  lemma {:induction false} AttributeOrderMeans(a: Attribute, b: Attribute)
    ensures KeyLeq(AttributeKey(a), AttributeKey(b)) <==> AttributeBefore(a, b)
  {
    hide TextLeq;
    var x, y := AttributeKey(a), AttributeKey(b);
    TextReflexive(a.status);
    assert |x| == |y| == 5;
    LexicographicStep(x, y);
    LexicographicStep(x[1..], y[1..]);
    LexicographicStep(x[2..], y[2..]);
    LexicographicStep(x[3..], y[3..]);
    LexicographicStep(x[4..], y[4..]);
    assert x[5..] == [] && y[5..] == [];
  }

  /** By value, unit, dimension, basis and status; an absent measurement comes first. */
  ghost predicate MeasurementBefore(a: Option<Measurement>, b: Option<Measurement>) {
    if a.None? then true
    else if b.None? then false
    else if a.value.value != b.value.value then a.value.value <= b.value.value
    else if a.value.unit != b.value.unit then TextLeq(a.value.unit, b.value.unit)
    else if a.value.dimension != b.value.dimension then TextLeq(a.value.dimension, b.value.dimension)
    else if a.value.basis != b.value.basis then TextLeq(a.value.basis, b.value.basis)
    else TextLeq(a.value.status, b.value.status)
  }

  lemma {:induction false} MeasurementOrderMeans(a: Option<Measurement>, b: Option<Measurement>)
    ensures KeyLeq(MeasurementKey(a), MeasurementKey(b)) <==> MeasurementBefore(a, b)
  {
    hide TextLeq;
    if a.Some? && b.Some? {
      var x, y := MeasurementKey(a), MeasurementKey(b);
      TextReflexive(a.value.status);
      assert |x| == |y| == 5;
      LexicographicStep(x, y);
      LexicographicStep(x[1..], y[1..]);
      LexicographicStep(x[2..], y[2..]);
      LexicographicStep(x[3..], y[3..]);
      LexicographicStep(x[4..], y[4..]);
      assert x[5..] == [] && y[5..] == [];
    }
  }

  /** By caption, quantity text, with an absent one counting as empty, and measurement. */
  ghost predicate ComponentBefore(a: Component, b: Component) {
    if a.caption != b.caption then TextLeq(a.caption, b.caption)
    else if TextOr(a.quantityText) != TextOr(b.quantityText) then TextLeq(TextOr(a.quantityText), TextOr(b.quantityText))
    else MeasurementBefore(a.quantity, b.quantity)
  }

  lemma {:induction false} ComponentOrderMeans(a: Component, b: Component)
    ensures KeyLeq(ComponentKey(a), ComponentKey(b)) <==> ComponentBefore(a, b)
  {
    hide TextLeq, MeasurementKey, MeasurementBefore;
    var x, y := ComponentKey(a), ComponentKey(b);
    MeasurementOrderMeans(a.quantity, b.quantity);
    assert |x| >= 2 && |y| >= 2;
    LexicographicStep(x, y);
    LexicographicStep(x[1..], y[1..]);
    assert x[2..] == MeasurementKey(a.quantity) && y[2..] == MeasurementKey(b.quantity);
  }

  ghost predicate DecisionsKept(decisions: seq<string>, kept: seq<string>) {
    && (forall i, j :: 0 <= i < j < |kept| ==> kept[i] != kept[j] && KeyLeq([Text(kept[i])], [Text(kept[j])]))
    && (forall d :: d in kept <==> exists i :: 0 <= i < |decisions| && Strip(decisions[i]) == d)
  }

  ghost predicate ProductIs(p: Product, evidence: seq<EvidenceRef>, decisions: seq<string>, n: Revision<Product>) {
    && n.entity.id == p.id && n.entity.rest == p.rest
    && EvidenceKept(p.brandEvidence, n.entity.brandEvidence)
    && AttributesKept(p.identity, n.entity.identity) && AttributesKept(p.descriptive, n.entity.descriptive)
    && n.entity.evidence == n.evidence && EvidenceKept(evidence + p.evidence, n.evidence)
    && DecisionsKept(decisions, n.decisions)
  }

  ghost predicate VariantIs(v: Variant, evidence: seq<EvidenceRef>, decisions: seq<string>, n: Revision<Variant>) {
    && n.entity.id == v.id && n.entity.productId == v.productId && n.entity.rest == v.rest
    && AttributesKept(v.identity, n.entity.identity)
    && Permuted(n.entity.components, v.components)
    && (forall i, j :: 0 <= i < j < |n.entity.components| ==> ComponentBefore(n.entity.components[i], n.entity.components[j]))
    && n.entity.evidence == n.evidence && EvidenceKept(evidence + v.evidence, n.evidence)
    && DecisionsKept(decisions, n.decisions)
  }

  lemma {:induction false} SourceKeys(e: EvidenceRef, c: EvidenceRef)
    ensures RefKey(StripRef(e)) == RefKey(c) <==> SameSource(e, c)
    ensures RefKey(e) == RefKey(c) <==> e.sourceType == c.sourceType && e.sourceId == c.sourceId
  {
    hide Strip;
    var s := StripRef(e);
    assert RefKey(s)[0] == Text(s.sourceType) && RefKey(s)[1] == Text(s.sourceId);
    assert RefKey(e)[0] == Text(e.sourceType) && RefKey(e)[1] == Text(e.sourceId);
    assert RefKey(c)[0] == Text(c.sourceType) && RefKey(c)[1] == Text(c.sourceId);
  }

  lemma {:induction false} FirstsAreKept(refs: seq<EvidenceRef>, kept: seq<EvidenceRef>)
    requires Firsts(Map(StripRef, refs), RefKey, kept)
    ensures EvidenceKept(refs, kept)
  {
    hide Firsts, FirstFrom, From, KeyLeq, Map;
    var all := Map(StripRef, refs);
    forall i, j | 0 <= i < j < |kept|
      ensures kept[i].sourceType != kept[j].sourceType || kept[i].sourceId != kept[j].sourceId
      ensures KeyLeq([Text(kept[i].sourceType), Text(kept[i].sourceId)], [Text(kept[j].sourceType), Text(kept[j].sourceId)])
    {
      KeptOrder(all, kept, i, j);
    }
    forall i | 0 <= i < |kept| ensures FirstFrom(refs, kept[i]) {
      FirstIsFrom(refs, kept, i);
    }
    forall i | 0 <= i < |refs| ensures From(refs[i], kept) {
      IsFrom(refs, kept, i);
    }
  }

  lemma {:induction false} FirstIsFrom(refs: seq<EvidenceRef>, kept: seq<EvidenceRef>, i: nat)
    requires Firsts(Map(StripRef, refs), RefKey, kept) && i < |kept|
    ensures FirstFrom(refs, kept[i])
  {
    hide Map, RefKey, Strip, SortedBy, Distinct, SameSource;
    var all := Map(StripRef, refs);
    assert FirstOfItsKey(all, RefKey, kept[i]);
    var k :| 0 <= k < |all| && all[k] == kept[i] && forall j :: 0 <= j < k ==> RefKey(all[j]) != RefKey(kept[i]);
    SourceKeys(refs[k], kept[i]);
    forall j | 0 <= j < k ensures !SameSource(refs[j], kept[i]) {
      assert all[j] == StripRef(refs[j]);
      SourceKeys(refs[j], kept[i]);
    }
  }

  lemma {:induction false} IsFrom(refs: seq<EvidenceRef>, kept: seq<EvidenceRef>, i: nat)
    requires Firsts(Map(StripRef, refs), RefKey, kept) && i < |refs|
    ensures From(refs[i], kept)
  {
    hide RefKey, Strip, SortedBy, SameSource, FirstOfItsKey;
    var all := Map(StripRef, refs);
    assert RefKey(all[i]) in Map(RefKey, kept);
    var k :| 0 <= k < |kept| && Map(RefKey, kept)[k] == RefKey(all[i]);
    SourceKeys(refs[i], kept[k]);
  }

  lemma {:induction false} KeptOrder(all: seq<EvidenceRef>, kept: seq<EvidenceRef>, i: nat, j: nat)
    requires Firsts(all, RefKey, kept) && i < j < |kept|
    ensures kept[i].sourceType != kept[j].sourceType || kept[i].sourceId != kept[j].sourceId
    ensures KeyLeq([Text(kept[i].sourceType), Text(kept[i].sourceId)], [Text(kept[j].sourceType), Text(kept[j].sourceId)])
  {
    hide KeyLeq, FirstOfItsKey;
    assert KeyLeq(RefKey(kept[i]), RefKey(kept[j]));
    assert Map(RefKey, kept)[i] != Map(RefKey, kept)[j];
  }

  lemma {:induction false} EvidenceHolds(refs: seq<EvidenceRef>)
    ensures EvidenceKept(refs, CanonicalEvidence(refs))
  {
    hide Map, Sort, FirstPerKey, Firsts, EvidenceKept;
    SortedFirsts(Map(StripRef, refs), RefKey);
    FirstsAreKept(refs, CanonicalEvidence(refs));
  }

  /** The first of each key among the firsts of two lists is the first of its key in the two lists. */
  lemma {:induction false} FirstsOfFirsts<T(!new)>(a: seq<T>, b: seq<T>, key: T -> Key, x: seq<T>, y: seq<T>, m: seq<T>)
    requires Firsts(a, key, x) && Firsts(b, key, y) && Firsts(x + y, key, m)
    ensures Firsts(a + b, key, m)
  {
    hide Map, SortedBy, Distinct;
    forall i | 0 <= i < |m| ensures FirstOfItsKey(a + b, key, m[i]) {
      FirstOfFirst(a, b, key, x, y, m[i]);
    }
    forall i | 0 <= i < |a + b| ensures key((a + b)[i]) in Map(key, m) {
      var k: nat;
      if i < |a| {
        k :| 0 <= k < |x| && Map(key, x)[k] == key(a[i]);
        assert (x + y)[k] == x[k];
      } else {
        var n :| 0 <= n < |y| && Map(key, y)[n] == key(b[i - |a|]);
        k := |x| + n;
        assert (x + y)[k] == y[n];
      }
      assert key((x + y)[k]) in Map(key, m);
    }
  }

  lemma {:induction false} FirstOfFirst<T(!new)>(a: seq<T>, b: seq<T>, key: T -> Key, x: seq<T>, y: seq<T>, c: T)
    requires Firsts(a, key, x) && Firsts(b, key, y) && FirstOfItsKey(x + y, key, c)
    ensures FirstOfItsKey(a + b, key, c)
  {
    hide Map, SortedBy, Distinct;
    var n :| 0 <= n < |x + y| && (x + y)[n] == c && forall j :: 0 <= j < n ==> key((x + y)[j]) != key(c);
    if n < |x| {
      assert FirstOfItsKey(a, key, x[n]);
      assert (a + b)[..|a|] == a;
      StillFirst(a + b, |a|, key, c);
    } else {
      assert FirstOfItsKey(b, key, y[n - |x|]);
      var k :| 0 <= k < |b| && b[k] == c && forall j :: 0 <= j < k ==> key(b[j]) != key(c);
      assert (a + b)[|a| + k] == c;
      forall j | 0 <= j < |a| + k ensures key((a + b)[j]) != key(c) {
        if j < |a| {
          var q :| 0 <= q < |x| && Map(key, x)[q] == key(a[j]);
          assert (x + y)[q] == x[q];
        } else {
          assert (a + b)[j] == b[j - |a|];
        }
      }
    }
  }

  /** Merging two canonical lists keeps what merging the two lists as they came would. */
  lemma {:induction false} MergedHolds(a: seq<EvidenceRef>, b: seq<EvidenceRef>)
    ensures EvidenceKept(a + b, CanonicalEvidence(CanonicalEvidence(a) + CanonicalEvidence(b)))
  {
    hide Map, Sort, FirstPerKey, Firsts, EvidenceKept, StripRef;
    var x, y := CanonicalEvidence(a), CanonicalEvidence(b);
    var m := CanonicalEvidence(x + y);
    StrippedAlready(a);
    StrippedAlready(b);
    assert Map(StripRef, x + y) == x + y;
    SortedFirsts(Map(StripRef, a), RefKey);
    SortedFirsts(Map(StripRef, b), RefKey);
    SortedFirsts(x + y, RefKey);
    FirstsOfFirsts(Map(StripRef, a), Map(StripRef, b), RefKey, x, y, m);
    assert Map(StripRef, a + b) == Map(StripRef, a) + Map(StripRef, b);
    FirstsAreKept(a + b, m);
  }

  lemma {:induction false} StrippedAlready(refs: seq<EvidenceRef>)
    ensures var kept := CanonicalEvidence(refs); forall i :: 0 <= i < |kept| ==> StripRef(kept[i]) == kept[i]
  {
    hide Map, CanonicalEvidence, StripRef;
    var kept := CanonicalEvidence(refs);
    assert [] + refs == refs;
    Stripped([], refs, kept);
    assert [] + kept == kept;
    assert Map(StripRef, kept) == kept;
  }

  lemma {:induction false} AttributesHold(attributes: seq<Attribute>)
    ensures AttributesKept(attributes, CanonicalAttributes(attributes))
  {
    hide Map, Sort, CanonicalEvidence, AttributeKey, AttributeBefore, EvidenceKept, KeyLeq;
    var cleaned := Map(CleanAttribute, attributes);
    SortPermutes(cleaned, AttributeKey);
    SortSorts(cleaned, AttributeKey);
    forall i | 0 <= i < |attributes| ensures AttributeIs(attributes[i], cleaned[i]) {
      EvidenceHolds(attributes[i].evidence);
    }
    assert Cleaned(attributes, cleaned);
    var sorted := Sort(cleaned, AttributeKey);
    forall i, j | 0 <= i < j < |sorted| ensures AttributeBefore(sorted[i], sorted[j]) {
      AttributeOrderMeans(sorted[i], sorted[j]);
    }
  }

  lemma {:induction false} DecisionsHold(decisions: seq<string>)
    ensures DecisionsKept(decisions, CanonicalDecisions(decisions))
  {
    hide Map, Sort, Strip, FirstPerKey, KeyLeq, TextKey;
    var all := Map(StripText, decisions);
    var kept := CanonicalDecisions(decisions);
    SortedFirsts(all, TextKey);
    forall i, j | 0 <= i < j < |kept| ensures kept[i] != kept[j] && KeyLeq([Text(kept[i])], [Text(kept[j])]) {
      assert Map(TextKey, kept)[i] != Map(TextKey, kept)[j];
      DecisionOrder(kept, i, j);
    }
    forall d ensures d in kept <==> exists i :: 0 <= i < |decisions| && Strip(decisions[i]) == d {
      if d in kept {
        var n :| 0 <= n < |kept| && kept[n] == d;
        FirstIsDecision(all, kept, n);
        var k :| 0 <= k < |all| && all[k] == d;
        assert Strip(decisions[k]) == d;
      }
      if i :| 0 <= i < |decisions| && Strip(decisions[i]) == d {
        assert all[i] == d;
        SeenIffKeyed(kept, d);
      }
    }
  }

  lemma {:induction false} DecisionOrder(kept: seq<string>, i: nat, j: nat)
    requires i < j < |kept| && SortedBy(kept, TextKey)
    ensures KeyLeq([Text(kept[i])], [Text(kept[j])])
  {
    hide KeyLeq;
    assert KeyLeq(TextKey(kept[i]), TextKey(kept[j]));
  }

  lemma {:induction false} FirstIsDecision(all: seq<string>, kept: seq<string>, n: nat)
    requires Firsts(all, TextKey, kept) && n < |kept|
    ensures kept[n] in all
  {
    hide Map, TextKey;
    assert FirstOfItsKey(all, TextKey, kept[n]);
  }

  /** The planned product has every attribute and all evidence of the one asserted, and nothing else of it is changed. */
  lemma {:induction false} PlannedProductHolds(p: Product, evidence: seq<EvidenceRef>, decisions: seq<string>)
    ensures ProductIs(p, evidence, decisions, PlannedProduct(p, evidence, decisions))
  {
    hide CanonicalEvidence, CanonicalAttributes, CanonicalDecisions, EvidenceKept, AttributesKept, DecisionsKept;
    EvidenceHolds(p.brandEvidence);
    AttributesHold(p.identity);
    AttributesHold(p.descriptive);
    MergedHolds(evidence, p.evidence);
    DecisionsHold(decisions);
  }

  /** So has the planned variant, with its components reordered. */
  lemma {:induction false} PlannedVariantHolds(v: Variant, evidence: seq<EvidenceRef>, decisions: seq<string>)
    ensures VariantIs(v, evidence, decisions, PlannedVariant(v, evidence, decisions))
  {
    hide CanonicalEvidence, CanonicalAttributes, CanonicalDecisions, EvidenceKept, AttributesKept, DecisionsKept, Sort, ComponentKey, ComponentBefore, KeyLeq;
    AttributesHold(v.identity);
    SortPermutes(v.components, ComponentKey);
    SortSorts(v.components, ComponentKey);
    var sorted := Sort(v.components, ComponentKey);
    forall i, j | 0 <= i < j < |sorted| ensures ComponentBefore(sorted[i], sorted[j]) {
      ComponentOrderMeans(sorted[i], sorted[j]);
    }
    MergedHolds(evidence, v.evidence);
    DecisionsHold(decisions);
  }

  ghost predicate CarriesProduct(store: Store, request: Request) {
    request.product.Some? ==>
      var id := request.product.value.id;
      && id in store.products
      && store.products[id].current == PlannedProduct(request.product.value, request.evidence, request.decisions)
      && ProductIs(request.product.value, request.evidence, request.decisions, store.products[id].current)
  }

  ghost predicate CarriesVariant(store: Store, request: Request) {
    request.variant.Some? ==>
      var id := request.variant.value.id;
      && id in store.variants
      && store.variants[id].current == PlannedVariant(request.variant.value, request.evidence, request.decisions)
      && VariantIs(request.variant.value, request.evidence, request.decisions, store.variants[id].current)
  }

  /** Either both entities of a request carry its revisions afterwards, or nothing has changed. */
  lemma {:induction false} AllOrNothing(store: Store, request: Request)
    ensures if Accepted(request) then CarriesProduct(Applied(store, request), request) && CarriesVariant(Applied(store, request), request)
            else Applied(store, request) == store
    ensures Accepted(request) ==> ReplacesOnly(store, request, Applied(store, request))
  {
    hide Accepted, PlannedProduct, PlannedVariant, Committed, ProductIs, VariantIs, Replaces;
    if Accepted(request) && request.product.Some? {
      PlannedProductHolds(request.product.value, request.evidence, request.decisions);
      CommitExtends(store.products, request.product.value.id, PlannedProduct(request.product.value, request.evidence, request.decisions));
      CommitReplaces(store.products, request.product.value.id, PlannedProduct(request.product.value, request.evidence, request.decisions));
    }
    if Accepted(request) && request.variant.Some? {
      PlannedVariantHolds(request.variant.value, request.evidence, request.decisions);
      CommitExtends(store.variants, request.variant.value.id, PlannedVariant(request.variant.value, request.evidence, request.decisions));
      CommitReplaces(store.variants, request.variant.value.id, PlannedVariant(request.variant.value, request.evidence, request.decisions));
    }
  }

  /** The request with the product and variant it produced put in their place. */
  function Substituted(request: Request): Request {
    request.(
      product := if request.product.Some? then
          Some(PlannedProduct(request.product.value, request.evidence, request.decisions).entity) else None,
      variant := if request.variant.Some? then
          Some(PlannedVariant(request.variant.value, request.evidence, request.decisions).entity) else None)
  }

  lemma {:induction false} PlannedProductAgain(p: Product, evidence: seq<EvidenceRef>, decisions: seq<string>)
    ensures var planned := PlannedProduct(p, evidence, decisions);
      PlannedProduct(planned.entity, evidence, decisions) == planned
    ensures RefsPresent(evidence) && ProductPresent(p) ==> ProductPresent(PlannedProduct(p, evidence, decisions).entity)
  {
    hide CanonicalEvidence, CanonicalAttributes, CanonicalDecisions, RefsPresent, AttributesPresent;
    ProductTwice(p);
    var a, b := CanonicalEvidence(evidence), CanonicalProduct(p).evidence;
    MergeTwice(a, b);
    EvidenceIdempotent(a + b);
    if RefsPresent(evidence) && ProductPresent(p) {
      RefsStayPresent(evidence);
      PresentAppend(a, b);
      RefsStayPresent(a + b);
    }
  }

  lemma {:induction false} PresentAppend(a: seq<EvidenceRef>, b: seq<EvidenceRef>)
    requires RefsPresent(a) && RefsPresent(b)
    ensures RefsPresent(a + b)
  {
  }

  lemma {:induction false} PlannedVariantAgain(v: Variant, evidence: seq<EvidenceRef>, decisions: seq<string>)
    ensures var planned := PlannedVariant(v, evidence, decisions);
      PlannedVariant(planned.entity, evidence, decisions) == planned
    ensures RefsPresent(evidence) && VariantPresent(v) ==> VariantPresent(PlannedVariant(v, evidence, decisions).entity)
  {
    hide CanonicalEvidence, CanonicalAttributes, CanonicalDecisions, RefsPresent, AttributesPresent, Sort, ComponentKey;
    VariantTwice(v);
    var a, b := CanonicalEvidence(evidence), CanonicalVariant(v).evidence;
    MergeTwice(a, b);
    EvidenceIdempotent(a + b);
    if RefsPresent(evidence) && VariantPresent(v) {
      RefsStayPresent(evidence);
      PresentAppend(a, b);
      RefsStayPresent(a + b);
    }
  }

  /**
   * Applying a request again changes nothing, and neither does applying it with the
   * returned product and variant substituted: current revisions and history stay.
   */
  lemma {:induction false} ReapplyChangesNothing(store: Store, request: Request)
    ensures Applied(Applied(store, request), request) == Applied(store, request)
    ensures Accepted(request) ==>
      Accepted(Substituted(request)) && Applied(Applied(store, request), Substituted(request)) == Applied(store, request)
  {
    hide PlannedProduct, PlannedVariant, ProductPresent, VariantPresent, RefsPresent, DecisionsPresent, Strip;
    if request.product.Some? {
      PlannedProductAgain(request.product.value, request.evidence, request.decisions);
      assert PlannedProduct(request.product.value, request.evidence, request.decisions).entity.id == request.product.value.id by {
        PlannedIds(request.product.value, request.evidence, request.decisions);
      }
    }
    if request.variant.Some? {
      PlannedVariantAgain(request.variant.value, request.evidence, request.decisions);
      PlannedVariantIds(request.variant.value, request.evidence, request.decisions);
    }
  }

  lemma {:induction false} PlannedIds(p: Product, evidence: seq<EvidenceRef>, decisions: seq<string>)
    ensures PlannedProduct(p, evidence, decisions).entity.id == p.id
  {
  }

  lemma {:induction false} PlannedVariantIds(v: Variant, evidence: seq<EvidenceRef>, decisions: seq<string>)
    ensures PlannedVariant(v, evidence, decisions).entity.id == v.id
    ensures PlannedVariant(v, evidence, decisions).entity.productId == v.productId
  {
  }

  lemma {:induction false} DecisionsTwice(decisions: seq<string>)
    ensures CanonicalDecisions(CanonicalDecisions(decisions)) == CanonicalDecisions(decisions)
    ensures CanonicalDecisions(decisions) == [] <==> decisions == []
  {
    hide Map, Sort, FirstPerKey, Strip, FirstOfItsKey, SortedBy;
    var all := Map(StripText, decisions);
    var m := CanonicalDecisions(decisions);
    SortedFirsts(all, TextKey);
    forall i | 0 <= i < |m| ensures StripText(m[i]) == m[i] {
      FirstIsIn(all, TextKey, m, i);
      var k :| 0 <= k < |all| && all[k] == m[i];
      StripIdempotent(decisions[k]);
    }
    assert Map(StripText, m) == m;
    assert [] + all == all && [] + m == m;
    FirstsAgain([], all, TextKey, m);
    SortedFirsts(m, TextKey);
    FirstsUnique(m, TextKey, CanonicalDecisions(m), m);
    if m != [] {
      FirstIsIn(all, TextKey, m, 0);
    }
    if decisions != [] {
      assert TextKey(all[0]) in Map(TextKey, m);
    }
  }

  lemma {:induction false} DecisionsStayPresent(decisions: seq<string>)
    requires DecisionsPresent(decisions)
    ensures DecisionsPresent(CanonicalDecisions(decisions))
  {
    hide Map, Sort, FirstPerKey, Strip, Blank, FirstOfItsKey, SortedBy;
    var all := Map(StripText, decisions);
    var m := CanonicalDecisions(decisions);
    SortedFirsts(all, TextKey);
    forall i | 0 <= i < |m| ensures !Blank(m[i]) {
      FirstIsIn(all, TextKey, m, i);
      var k :| 0 <= k < |all| && all[k] == m[i];
      StripTrims(decisions[k]);
      StripTrims(Strip(decisions[k]));
      StripIdempotent(decisions[k]);
    }
  }

  lemma {:induction false} ProductPlanned(p: Product, evidence: seq<EvidenceRef>, decisions: seq<string>)
    requires ProductPresent(p) && RefsPresent(evidence) && DecisionsPresent(decisions)
    ensures var n := CanonicalProduct(p);
      && ProductPresent(n) && n.id == p.id
      && PlanProduct(CanonicalProduct(n), CanonicalEvidence(evidence), CanonicalDecisions(decisions))
        == Ok(PlannedProduct(p, evidence, decisions))
  {
    hide CanonicalEvidence, CanonicalAttributes, CanonicalDecisions, RefsPresent, AttributesPresent, DecisionsPresent;
    ProductTwice(p);
    RefsStayPresent(evidence);
    PresentAppend(CanonicalEvidence(evidence), CanonicalProduct(p).evidence);
    DecisionsStayPresent(decisions);
    DecisionsTwice(decisions);
  }

  lemma {:induction false} VariantPlanned(v: Variant, evidence: seq<EvidenceRef>, decisions: seq<string>)
    requires VariantPresent(v) && RefsPresent(evidence) && DecisionsPresent(decisions)
    ensures var n := CanonicalVariant(v);
      && VariantPresent(n) && n.productId == v.productId
      && PlanVariant(CanonicalVariant(n), CanonicalEvidence(evidence), CanonicalDecisions(decisions))
        == Ok(PlannedVariant(v, evidence, decisions))
  {
    hide CanonicalEvidence, CanonicalAttributes, CanonicalDecisions, RefsPresent, AttributesPresent, DecisionsPresent, Sort, ComponentKey;
    VariantTwice(v);
    RefsStayPresent(evidence);
    PresentAppend(CanonicalEvidence(evidence), CanonicalVariant(v).evidence);
    DecisionsStayPresent(decisions);
    DecisionsTwice(decisions);
  }

  /**
   * Once a request has been normalised, none of the passes that canonicalise it again
   * raises for a blank part: the call fails for exactly the reasons a request is
   * refused for, and otherwise plans the revisions asked for.
   */
  lemma {:induction false} LaterPassesRaiseNothing(request: Request)
    ensures Accepted(request) <==> Refusal(request).None?
    ensures Attempted(request) == if Refusal(request).Some? then Err(Refusal(request).value) else
      Ok(Plans(
        if request.product.Some? then Some(PlannedProduct(request.product.value, request.evidence, request.decisions)) else None,
        if request.variant.Some? then Some(PlannedVariant(request.variant.value, request.evidence, request.decisions)) else None))
  {
    hide CanonicalEvidence, CanonicalProduct, CanonicalVariant, CanonicalDecisions, RefsPresent, ProductPresent, VariantPresent,
      DecisionsPresent, PlanProduct, PlanVariant, PlannedProduct, PlannedVariant;
    if NormalizedRequest(request).Ok? {
      RefsStayPresent(request.evidence);
      RefsStayPresent(CanonicalEvidence(request.evidence));
      DecisionsStayPresent(request.decisions);
      DecisionsTwice(request.decisions);
      if request.product.Some? {
        ProductPlanned(request.product.value, request.evidence, request.decisions);
      }
      if request.variant.Some? {
        VariantPlanned(request.variant.value, request.evidence, request.decisions);
      }
    }
  }

  // ----- The manager

  ghost predicate KeepsFirst(seen: seq<EvidenceRef>, kept: map<Key, EvidenceRef>) {
    && (forall k :: k in kept ==> RefKey(kept[k]) == k && FirstOfItsKey(seen, RefKey, kept[k]))
    && (forall i :: 0 <= i < |seen| ==> RefKey(seen[i]) in kept)
  }

  lemma {:induction false} KeepNext(all: seq<EvidenceRef>, i: nat, kept: map<Key, EvidenceRef>)
    requires i < |all| && KeepsFirst(all[..i], kept)
    ensures KeepsFirst(all[..i + 1], if RefKey(all[i]) in kept then kept else kept[RefKey(all[i]) := all[i]])
  {
    hide RefKey;
    var before, seen := all[..i], all[..i + 1];
    var next := if RefKey(all[i]) in kept then kept else kept[RefKey(all[i]) := all[i]];
    assert seen == before + [all[i]];
    forall k | k in next ensures RefKey(next[k]) == k && FirstOfItsKey(seen, RefKey, next[k]) {
      if k in kept {
        var n :| 0 <= n < |before| && before[n] == kept[k] && forall j :: 0 <= j < n ==> RefKey(before[j]) != RefKey(kept[k]);
        assert seen[n] == kept[k];
      } else {
        assert forall j :: 0 <= j < i ==> seen[j] == before[j] && RefKey(before[j]) in kept;
        assert seen[i] == next[k];
      }
    }
    forall n | 0 <= n < |seen| ensures RefKey(seen[n]) in next {
      assert n < i ==> seen[n] == before[n];
    }
  }

  lemma {:induction false} KeptAreFirsts(all: seq<EvidenceRef>, kept: map<Key, EvidenceRef>, result: seq<EvidenceRef>)
    requires KeepsFirst(all, kept) && SortedBy(result, RefKey) && Distinct(Map(RefKey, result))
    requires forall i :: 0 <= i < |result| ==> RefKey(result[i]) in kept && kept[RefKey(result[i])] == result[i]
    requires forall k :: k in kept ==> k in Map(RefKey, result)
    ensures Firsts(all, RefKey, result)
  {
    hide Map, RefKey, FirstOfItsKey, SortedBy, Distinct;
  }

  lemma {:induction false} NothingKept()
    ensures KeepsFirst([], map[])
  {
  }

  lemma {:induction false} KeptUnderKeys(all: seq<EvidenceRef>, kept: map<Key, EvidenceRef>)
    requires KeepsFirst(all, kept)
    ensures forall k :: k in kept ==> RefKey(kept[k]) == k
  {
  }

  /** `_canonical_evidence_references`: the loop keeps the first reference it sees under each key. */
  method CanonicalizeEvidence(refs: seq<EvidenceRef>) returns (r: Option<seq<EvidenceRef>>)
    ensures r.Some? <==> RefsPresent(refs)
    ensures r.Some? ==> r.value == CanonicalEvidence(refs)
  {
    hide Map, RefKey, Firsts, Sort, FirstPerKey, KeepsFirst, Strip, Blank;
    ghost var all := Map(StripRef, refs);
    var kept: map<Key, EvidenceRef> := map[];
    NothingKept();
    assert all[..0] == [];
    for i := 0 to |refs|
      invariant forall k :: 0 <= k < i ==> !Blank(refs[k].sourceType) && !Blank(refs[k].sourceId)
      invariant KeepsFirst(all[..i], kept)
    {
      StripTrims(refs[i].sourceType);
      StripTrims(refs[i].sourceId);
      if Strip(refs[i].sourceType) == [] || Strip(refs[i].sourceId) == [] {
        return None;
      }
      KeepNext(all, i, kept);
      var reference := refs[i].(sourceType := Strip(refs[i].sourceType), sourceId := Strip(refs[i].sourceId));
      if RefKey(reference) !in kept {
        kept := kept[RefKey(reference) := reference];
      }
    }
    assert all[..|refs|] == all;
    KeptUnderKeys(all, kept);
    var listed := SortedValues(kept, RefKey);
    KeptAreFirsts(all, kept, listed);
    SortedFirsts(all, RefKey);
    FirstsUnique(all, RefKey, listed, CanonicalEvidence(refs));
    return Some(listed);
  }

  lemma {:induction false} NoneFirst()
    ensures FirstPerKey([], TextKey) == []
  {
  }

  /** `_canonical_decision_references`. */
  method CanonicalizeDecisions(decisions: seq<string>) returns (r: Option<seq<string>>)
    ensures r.Some? <==> DecisionsPresent(decisions)
    ensures r.Some? ==> r.value == CanonicalDecisions(decisions)
  {
    hide Map, Sort, Strip, Blank, TextKey, FirstPerKey;
    NoneFirst();
    ghost var all := Map(StripText, decisions);
    var canonical: seq<string> := [];
    var seen: set<string> := {};
    assert all[..0] == [];
    for i := 0 to |decisions|
      invariant forall k :: 0 <= k < i ==> !Blank(decisions[k])
      invariant canonical == FirstPerKey(all[..i], TextKey)
      invariant seen == set t | t in all[..i]
    {
      StripTrims(decisions[i]);
      var normalized := Strip(decisions[i]);
      if normalized == [] {
        return None;
      }
      SeenIffKeyed(all[..i], normalized);
      FirstPerKeySnoc(all, i, TextKey);
      assert all[..i + 1] == all[..i] + [all[i]];
      if normalized !in seen {
        seen := seen + {normalized};
        canonical := canonical + [normalized];
      }
    }
    assert all[..|decisions|] == all;
    return Some(Sort(canonical, TextKey));
  }

  lemma {:induction false} SeenIffKeyed(texts: seq<string>, t: string)
    ensures t in texts <==> TextKey(t) in Map(TextKey, texts)
  {
    hide Map;
    if t in texts {
      var i :| 0 <= i < |texts| && texts[i] == t;
      assert Map(TextKey, texts)[i] == TextKey(t);
    }
    if TextKey(t) in Map(TextKey, texts) {
      var i :| 0 <= i < |texts| && Map(TextKey, texts)[i] == TextKey(t);
      assert TextKey(texts[i])[0] == TextKey(t)[0];
    }
  }

  /** `_canonical_attributes`. */
  method CanonicalizeAttributes(attributes: seq<Attribute>) returns (r: Option<seq<Attribute>>)
    ensures r.Some? <==> AttributesPresent(attributes)
    ensures r.Some? ==> r.value == CanonicalAttributes(attributes)
  {
    hide Sort, AttributeKey, CanonicalEvidence, RefsPresent, Map;
    var canonical: seq<Attribute> := [];
    for i := 0 to |attributes|
      invariant |canonical| == i
      invariant forall k :: 0 <= k < i ==> RefsPresent(attributes[k].evidence) && canonical[k] == CleanAttribute(attributes[k])
    {
      var evidence := CanonicalizeEvidence(attributes[i].evidence);
      if evidence.None? {
        return None;
      }
      canonical := canonical + [attributes[i].(evidence := evidence.value)];
    }
    assert canonical == Map(CleanAttribute, attributes);
    return Some(Sort(canonical, AttributeKey));
  }

  /** `_canonical_product`. */
  method CanonicalizeProduct(p: Product) returns (r: Option<Product>)
    ensures r.Some? <==> ProductPresent(p)
    ensures r.Some? ==> r.value == CanonicalProduct(p)
  {
    hide CanonicalEvidence, CanonicalAttributes, RefsPresent, AttributesPresent;
    var brand := CanonicalizeEvidence(p.brandEvidence);
    if brand.None? {
      return None;
    }
    var identity := CanonicalizeAttributes(p.identity);
    if identity.None? {
      return None;
    }
    var descriptive := CanonicalizeAttributes(p.descriptive);
    if descriptive.None? {
      return None;
    }
    var evidence := CanonicalizeEvidence(p.evidence);
    if evidence.None? {
      return None;
    }
    return Some(p.(brandEvidence := brand.value, identity := identity.value, descriptive := descriptive.value, evidence := evidence.value));
  }

  /** `_canonical_variant`. */
  method CanonicalizeVariant(v: Variant) returns (r: Option<Variant>)
    ensures r.Some? <==> VariantPresent(v)
    ensures r.Some? ==> r.value == CanonicalVariant(v)
  {
    hide CanonicalEvidence, CanonicalAttributes, RefsPresent, AttributesPresent, Sort, ComponentKey;
    var identity := CanonicalizeAttributes(v.identity);
    if identity.None? {
      return None;
    }
    var evidence := CanonicalizeEvidence(v.evidence);
    if evidence.None? {
      return None;
    }
    return Some(v.(identity := identity.value, components := Sort(v.components, ComponentKey), evidence := evidence.value));
  }

  class AssertionManager {
    var products: map<string, EntityState<Product>>
    var variants: map<string, EntityState<Variant>>

    ghost function Stored(): Store reads this { Store(products, variants) }

    constructor ()
      ensures products == map[] && variants == map[]
    {
      products, variants := map[], map[];
    }

    /** `_normalize_request`: everything canonical, or the first error. */
    method NormalizeRequest(request: Request) returns (r: Result<Request, AssertionError>)
      ensures r == NormalizedRequest(request)
    {
      hide CanonicalEvidence, CanonicalProduct, CanonicalVariant, CanonicalDecisions, RefsPresent, ProductPresent, VariantPresent, DecisionsPresent;
      var product: Option<Product> := None;
      if request.product.Some? {
        product := CanonicalizeProduct(request.product.value);
        if product.None? {
          return Err(BlankEvidence);
        }
      }
      var variant: Option<Variant> := None;
      if request.variant.Some? {
        variant := CanonicalizeVariant(request.variant.value);
        if variant.None? {
          return Err(BlankEvidence);
        }
      }
      var evidence := CanonicalizeEvidence(request.evidence);
      if evidence.None? {
        return Err(BlankEvidence);
      }
      var decisions := CanonicalizeDecisions(request.decisions);
      if decisions.None? {
        return Err(BlankDecision);
      }
      return Ok(Request(product, variant, evidence.value, decisions.value));
    }

    /** `_validate_request`: no error exactly for an entity with evidence and decisions, none of them blank. */
    method ValidateRequest(request: Request) returns (r: Option<AssertionError>)
      ensures r == Invalid(request)
      ensures r.None? <==>
        && (request.product.Some? || request.variant.Some?)
        && request.evidence != [] && RefsPresent(request.evidence)
        && request.decisions != [] && DecisionsPresent(request.decisions)
    {
      hide CanonicalEvidence, CanonicalDecisions, RefsPresent, DecisionsPresent;
      if RefsPresent(request.evidence) {
        RefsStayPresent(request.evidence);
      }
      DecisionsTwice(request.decisions);
      if request.product.None? && request.variant.None? {
        return Some(NothingAsserted);
      }
      var evidence := CanonicalizeEvidence(request.evidence);
      if evidence.None? {
        return Some(BlankEvidence);
      }
      if evidence.value == [] {
        return Some(NoEvidence);
      }
      var decisions := CanonicalizeDecisions(request.decisions);
      if decisions.None? {
        return Some(BlankDecision);
      }
      return if decisions.value == [] then Some(NoDecision) else None;
    }

    /** `_plan_product_revision`. */
    method PlanProductRevision(p: Product, evidence: seq<EvidenceRef>, decisions: seq<string>)
      returns (r: Result<Revision<Product>, AssertionError>)
      ensures r == PlanProduct(p, evidence, decisions)
    {
      hide CanonicalEvidence, CanonicalProduct, CanonicalDecisions, RefsPresent, ProductPresent, DecisionsPresent;
      var canonical := CanonicalizeProduct(p);
      if canonical.None? {
        return Err(BlankEvidence);
      }
      var merged := CanonicalizeEvidence(evidence + canonical.value.evidence);
      if merged.None? {
        return Err(BlankEvidence);
      }
      var references := CanonicalizeDecisions(decisions);
      if references.None? {
        return Err(BlankDecision);
      }
      return Ok(Revision(canonical.value.(evidence := merged.value), merged.value, references.value));
    }

    /** `_plan_variant_revision`. */
    method PlanVariantRevision(v: Variant, evidence: seq<EvidenceRef>, decisions: seq<string>)
      returns (r: Result<Revision<Variant>, AssertionError>)
      ensures r == PlanVariant(v, evidence, decisions)
    {
      hide CanonicalEvidence, CanonicalVariant, CanonicalDecisions, RefsPresent, VariantPresent, DecisionsPresent;
      var canonical := CanonicalizeVariant(v);
      if canonical.None? {
        return Err(BlankEvidence);
      }
      var merged := CanonicalizeEvidence(evidence + canonical.value.evidence);
      if merged.None? {
        return Err(BlankEvidence);
      }
      var references := CanonicalizeDecisions(decisions);
      if references.None? {
        return Err(BlankDecision);
      }
      return Ok(Revision(canonical.value.(evidence := merged.value), merged.value, references.value));
    }

    /** From the normalised request to the two revisions, before anything is committed. */
    method PlanRevisions(n: Request) returns (r: Result<Plans, AssertionError>)
      ensures r == Planned(n)
    {
      hide PlanProduct, PlanVariant, ProductPresent, VariantPresent, Invalid, CanonicalProduct, CanonicalVariant;
      var invalid := ValidateRequest(n);
      if invalid.Some? {
        return Err(invalid.value);
      }
      var product: Option<Product> := None;
      if n.product.Some? {
        product := CanonicalizeProduct(n.product.value);
        if product.None? {
          return Err(BlankEvidence);
        }
      }
      var variant: Option<Variant> := None;
      if n.variant.Some? {
        variant := CanonicalizeVariant(n.variant.value);
        if variant.None? {
          return Err(BlankEvidence);
        }
      }
      if product.Some? && variant.Some? && n.variant.value.productId != n.product.value.id {
        return Err(ProductMismatch);
      }
      var plans := Plans(None, None);
      if product.Some? {
        var planned :- PlanProductRevision(product.value, n.evidence, n.decisions);
        plans := plans.(product := Some(planned));
      }
      if variant.Some? {
        var planned :- PlanVariantRevision(variant.value, n.evidence, n.decisions);
        plans := plans.(variant := Some(planned));
      }
      return Ok(plans);
    }

    /** `_commit_revision`, for whichever of the two there are. */
    method CommitPlans(request: Request, plans: Plans)
      requires (plans.product.Some? <==> request.product.Some?) && (plans.variant.Some? <==> request.variant.Some?)
      modifies this
      ensures Stored() == CommittedPlans(old(Stored()), request, plans)
    {
      if plans.product.Some? {
        var id, revision := request.product.value.id, plans.product.value;
        if id !in products {
          products := products[id := EntityState(revision, [])];
        } else if products[id].current != revision {
          products := products[id := EntityState(revision, products[id].history + [products[id].current])];
        }
      }
      if plans.variant.Some? {
        var id, revision := request.variant.value.id, plans.variant.value;
        if id !in variants {
          variants := variants[id := EntityState(revision, [])];
        } else if variants[id].current != revision {
          variants := variants[id := EntityState(revision, variants[id].history + [variants[id].current])];
        }
      }
    }

    /** The body of `apply`, in the order of its passes: whichever of them raises, nothing has been committed. */
    method Attempt(request: Request) returns (r: Result<Response, AssertionError>)
      modifies this
      ensures match Attempted(request)
        case Err(error) => r == Err(error) && Stored() == old(Stored())
        case Ok(plans) =>
          && (plans.product.Some? <==> request.product.Some?) && (plans.variant.Some? <==> request.variant.Some?)
          && (request.product.Some? || request.variant.Some?)
          && Stored() == CommittedPlans(old(Stored()), request, plans)
          && r == Ok(Response(
               if plans.product.Some? then Some(plans.product.value.entity) else None,
               if plans.variant.Some? then Some(plans.variant.value.entity) else None, Reference(request)))
    {
      hide PlanProduct, PlanVariant, ProductPresent, VariantPresent, CanonicalProduct, CanonicalVariant, RefsPresent,
        DecisionsPresent, CanonicalEvidence, CanonicalDecisions;
      var normalized :- NormalizeRequest(request);
      var plans :- PlanRevisions(normalized);
      CommitPlans(request, plans);
      return Ok(Response(
        if plans.product.Some? then Some(products[request.product.value.id].current.entity) else None,
        if plans.variant.Some? then Some(variants[request.variant.value.id].current.entity) else None, Reference(request)));
    }

    /**
     * `apply`: all or nothing. It fails exactly for the reasons a request is refused
     * for, and then the store is as it was; otherwise both entities of the request
     * carry its revisions and the response shows them.
     */
    method Apply(request: Request) returns (r: Result<Response, AssertionError>)
      modifies this
      ensures r.Ok? <==> Accepted(request)
      ensures r.Err? ==> Refusal(request) == Some(r.error) && Stored() == old(Stored())
      ensures r.Ok? ==> CarriesProduct(Stored(), request) && CarriesVariant(Stored(), request)
      ensures r.Ok? ==> ReplacesOnly(old(Stored()), request, Stored()) && RefersTo(request, r.value.reference)
      ensures Stored() == Applied(old(Stored()), request)
      ensures r.Ok? ==> r.value == Response(Substituted(request).product, Substituted(request).variant, Reference(request))
    {
      hide Refusal, Attempted, Committed, PlannedProduct, PlannedVariant, ProductPresent, VariantPresent, RefsPresent, DecisionsPresent;
      r := Attempt(request);
      LaterPassesRaiseNothing(request);
      AllOrNothing(old(Stored()), request);
    }
  }
}
