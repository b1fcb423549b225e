/**
 * The canonical form of a checkout observation, behind its content-derived id: what
 * it is, that it exists once, and that neither the order nor a second pass changes it.
 */
module CheckoutObservations {
  import opened Outcomes
  import opened Ordering
  import opened Texts
  import opened CartPlans

  /** An instant with the offset it was written in; naive when there is none. */
  datatype Timestamp = Timestamp(instant: int, offset: Option<int>)

  datatype Evidence = Evidence(sourceType: string, sourceId: string, captured: Option<Timestamp>, note: Option<string>)

  /** One observed line, fee, offer, membership, payment method, threshold or total; absent fields stay absent. */
  datatype Child = Child(
    caption: string, rawText: Option<string>, quantityText: Option<string>,
    amount: Option<Money>, referencePrice: Option<Money>)

  datatype Observation = Observation(
    platform: string,
    artifact: string,
    captured: Timestamp,
    parserVersion: string,
    context: Option<string>,
    evidence: seq<Evidence>,
    lineItems: seq<Child>,
    fees: seq<Child>,
    offers: seq<Child>,
    memberships: seq<Child>,
    payments: seq<Child>,
    thresholds: seq<Child>,
    totals: seq<Child>)

  /** Canonical JSON, one-to-one on what it serializes. */
  datatype Json = Json(child: Child -> string, evidence: Evidence -> string)

  ghost predicate Faithful(json: Json) {
    && (forall x, y :: json.child(x) == json.child(y) ==> x == y)
    && (forall x, y :: json.evidence(x) == json.evidence(y) ==> x == y)
  }

  // ----- Normal forms of the parts

  function Utc(t: Timestamp): Option<Timestamp> {
    if t.offset.None? then None else Some(Timestamp(t.instant, Some(0)))
  }

  function NormalEvidence(e: Evidence): Option<Evidence> {
    var sourceType, sourceId := RequiredText(e.sourceType), RequiredText(e.sourceId);
    if sourceType.None? || sourceId.None? || (e.captured.Some? && Utc(e.captured.value).None?) then None
    else
      Some(Evidence(sourceType.value, sourceId.value,
                    if e.captured.Some? then Utc(e.captured.value) else None, OptionalText(e.note)))
  }

  function NormalChild(c: Child): Option<Child> {
    var caption := RequiredText(c.caption);
    if caption.None? then None
    else Some(c.(caption := caption.value, rawText := OptionalText(c.rawText), quantityText := OptionalText(c.quantityText)))
  }

  lemma {:induction false} NormalTwice(e: Evidence, c: Child)
    ensures NormalEvidence(e).Some? ==> NormalEvidence(NormalEvidence(e).value) == NormalEvidence(e)
    ensures NormalChild(c).Some? ==> NormalChild(NormalChild(c).value) == NormalChild(c)
  {
    hide Strip, Lower;
    NormalTexts(e.sourceType, e.note);
    NormalTexts(e.sourceId, None);
    NormalTexts(c.caption, c.rawText);
    NormalTexts(c.caption, c.quantityText);
  }

  function OrElse<T>(normal: T -> Option<T>): T -> T { (x: T) => if normal(x).Some? then normal(x).value else x }

  function ByChildJson(json: Json): Child -> Key { (c: Child) => [Text(json.child(c))] }

  function EvidenceKey(e: Evidence): Key { [Text(e.sourceType), Text(e.sourceId)] }

  function EvidencePayload(json: Json, e: Evidence): string { json.evidence(e) }

  // ----- What the canonical form is

  /** `items` with each child normalised (or not), in the order of their JSON. */
  ghost predicate CanonicalChildren(json: Json, deep: bool, items: seq<Child>, result: seq<Child>) {
    && (deep ==> forall i :: 0 <= i < |items| ==> NormalChild(items[i]).Some?)
    && Permuted(result, if deep then Map(OrElse(NormalChild), items) else items)
    && SortedBy(result, ByChildJson(json))
  }

  /** `r` has the least payload of all references with its key. */
  ghost predicate LeastOfItsKey(json: Json, all: seq<Evidence>, r: Evidence) {
    r in all && forall i :: 0 <= i < |all| && EvidenceKey(all[i]) == EvidenceKey(r) ==>
      TextLeq(EvidencePayload(json, r), EvidencePayload(json, all[i]))
  }

  /** One reference per key, the one with the least payload, in key order. */
  ghost predicate Survivors(json: Json, all: seq<Evidence>, result: seq<Evidence>) {
    && SortedBy(result, EvidenceKey)
    && Distinct(Map(EvidenceKey, result))
    && (forall i :: 0 <= i < |result| ==> LeastOfItsKey(json, all, result[i]))
    && (forall i :: 0 <= i < |all| ==> EvidenceKey(all[i]) in Map(EvidenceKey, result))
  }

  ghost predicate CanonicalEvidence(json: Json, references: seq<Evidence>, result: seq<Evidence>) {
    && (forall i :: 0 <= i < |references| ==> NormalEvidence(references[i]).Some?)
    && Survivors(json, Map(OrElse(NormalEvidence), references), result)
  }

  ghost predicate Canonical(json: Json, deep: bool, o: Observation, c: Observation) {
    && PlatformText(o.platform) == Some(c.platform)
    && RequiredText(o.artifact) == Some(c.artifact)
    && RequiredText(o.parserVersion) == Some(c.parserVersion)
    && OptionalText(o.context) == c.context
    && Utc(o.captured) == Some(c.captured)
    && CanonicalEvidence(json, o.evidence, c.evidence)
    && CanonicalChildren(json, deep, o.lineItems, c.lineItems)
    && CanonicalChildren(json, deep, o.fees, c.fees)
    && CanonicalChildren(json, deep, o.offers, c.offers)
    && CanonicalChildren(json, deep, o.memberships, c.memberships)
    && CanonicalChildren(json, deep, o.payments, c.payments)
    && CanonicalChildren(json, deep, o.thresholds, c.thresholds)
    && CanonicalChildren(json, deep, o.totals, c.totals)
  }

  predicate Childless(o: Observation) {
    o.lineItems == o.fees == o.offers == o.memberships == o.payments == o.thresholds == o.totals == []
  }

  // ----- The canonical form is unique

  lemma {:induction false} JsonTells(json: Json, xs: seq<Child>)
    requires Faithful(json)
    ensures KeyTells(xs, ByChildJson(json))
  {
    forall x, y | ByChildJson(json)(x) == ByChildJson(json)(y) ensures x == y {
      assert ByChildJson(json)(x)[0] == ByChildJson(json)(y)[0];
    }
  }

  lemma {:induction false} ChildrenUnique(json: Json, deep: bool, items: seq<Child>, x: seq<Child>, y: seq<Child>)
    requires Faithful(json) && CanonicalChildren(json, deep, items, x) && CanonicalChildren(json, deep, items, y)
    ensures x == y
  {
    hide Map, SortedBy, Faithful, ByChildJson;
    JsonTells(json, x);
    SortedUnique(x, y, ByChildJson(json));
  }

  lemma {:induction false} SurvivorSurvives(json: Json, all: seq<Evidence>, x: seq<Evidence>, y: seq<Evidence>, i: nat)
    requires Faithful(json) && Survivors(json, all, x) && Survivors(json, all, y) && i < |x|
    ensures x[i] in y
  {
    hide Map, EvidenceKey, TextLeq, SortedBy, Distinct;
    assert LeastOfItsKey(json, all, x[i]);
    var n :| 0 <= n < |all| && all[n] == x[i];
    var j :| 0 <= j < |y| && Map(EvidenceKey, y)[j] == EvidenceKey(all[n]);
    assert LeastOfItsKey(json, all, y[j]);
    var m :| 0 <= m < |all| && all[m] == y[j];
    TextIsOrder();
    assert TextLeq(json.evidence(x[i]), json.evidence(y[j])) && TextLeq(json.evidence(y[j]), json.evidence(x[i]));
  }

  /** The keep-least loop has one possible outcome, whichever order the references come in. */
  lemma {:induction false} SurvivorsUnique(json: Json, all: seq<Evidence>, x: seq<Evidence>, y: seq<Evidence>)
    requires Faithful(json) && Survivors(json, all, x) && Survivors(json, all, y)
    ensures x == y
  {
    hide Map, EvidenceKey, TextLeq, SortedBy, Distinct, LeastOfItsKey, Faithful;
    forall i | 0 <= i < |x| ensures x[i] in y {
      SurvivorSurvives(json, all, x, y, i);
    }
    forall i | 0 <= i < |y| ensures y[i] in x {
      SurvivorSurvives(json, all, y, x, i);
    }
    KeyedUnique(x, y, EvidenceKey);
  }

  /** An observation has at most one canonical form. */
  lemma {:induction false} CanonicalUnique(json: Json, deep: bool, o: Observation, c: Observation, d: Observation)
    requires Faithful(json) && Canonical(json, deep, o, c) && Canonical(json, deep, o, d)
    ensures c == d
  {
    hide CanonicalChildren, Survivors, Faithful, PlatformText, RequiredText, OptionalText, NormalEvidence;
    SurvivorsUnique(json, Map(OrElse(NormalEvidence), o.evidence), c.evidence, d.evidence);
    ChildrenUnique(json, deep, o.lineItems, c.lineItems, d.lineItems);
    ChildrenUnique(json, deep, o.fees, c.fees, d.fees);
    ChildrenUnique(json, deep, o.offers, c.offers, d.offers);
    ChildrenUnique(json, deep, o.memberships, c.memberships, d.memberships);
    ChildrenUnique(json, deep, o.payments, c.payments, d.payments);
    ChildrenUnique(json, deep, o.thresholds, c.thresholds, d.thresholds);
    ChildrenUnique(json, deep, o.totals, c.totals, d.totals);
  }

  // ----- The order the parts come in

  ghost predicate Reordered(a: Observation, b: Observation) {
    && a.platform == b.platform && a.artifact == b.artifact && a.captured == b.captured
    && a.parserVersion == b.parserVersion && a.context == b.context
    && Permuted(a.evidence, b.evidence) && Permuted(a.lineItems, b.lineItems) && Permuted(a.fees, b.fees)
    && Permuted(a.offers, b.offers) && Permuted(a.memberships, b.memberships) && Permuted(a.payments, b.payments)
    && Permuted(a.thresholds, b.thresholds) && Permuted(a.totals, b.totals)
  }

  lemma {:induction false} ChildrenReordered(json: Json, deep: bool, a: seq<Child>, b: seq<Child>, result: seq<Child>)
    requires Permuted(a, b) && CanonicalChildren(json, deep, a, result)
    ensures CanonicalChildren(json, deep, b, result)
  {
    hide Map, SortedBy, NormalChild, ByChildJson;
    MapPermuted(OrElse(NormalChild), a, b);
    PermutedBasics(b, a);
    forall i | deep && 0 <= i < |b| ensures NormalChild(b[i]).Some? {
      var j :| 0 <= j < |a| && a[j] == b[i];
    }
  }

  lemma {:induction false} EvidenceReordered(json: Json, a: seq<Evidence>, b: seq<Evidence>, result: seq<Evidence>)
    requires Permuted(a, b) && CanonicalEvidence(json, a, result)
    ensures CanonicalEvidence(json, b, result)
  {
    hide Map, SortedBy, NormalEvidence, EvidenceKey, TextLeq, Distinct;
    PermutedBasics(b, a);
    forall i | 0 <= i < |b| ensures NormalEvidence(b[i]).Some? {
      var j :| 0 <= j < |a| && a[j] == b[i];
    }
    var x, y := Map(OrElse(NormalEvidence), a), Map(OrElse(NormalEvidence), b);
    MapPermuted(OrElse(NormalEvidence), a, b);
    PermutedBasics(x, y);
    PermutedBasics(y, x);
    forall i | 0 <= i < |result| ensures LeastOfItsKey(json, y, result[i]) {
      LeastReordered(json, x, y, result[i]);
    }
    forall i | 0 <= i < |y| ensures EvidenceKey(y[i]) in Map(EvidenceKey, result) {
      var j :| 0 <= j < |x| && x[j] == y[i];
    }
  }

  lemma {:induction false} LeastReordered(json: Json, x: seq<Evidence>, y: seq<Evidence>, r: Evidence)
    requires Permuted(x, y) && LeastOfItsKey(json, x, r)
    ensures LeastOfItsKey(json, y, r)
  {
    hide EvidenceKey, TextLeq;
    PermutedBasics(x, y);
    PermutedBasics(y, x);
    forall i | 0 <= i < |y| && EvidenceKey(y[i]) == EvidenceKey(r)
      ensures TextLeq(EvidencePayload(json, r), EvidencePayload(json, y[i]))
    {
      var j :| 0 <= j < |x| && x[j] == y[i];
    }
  }

  /**
   * Reordering children or evidence references gives the same canonical form, down
   * to which of several references under one key survives.
   */
  lemma {:induction false} OrderIsIrrelevant(json: Json, deep: bool, a: Observation, b: Observation, c: Observation)
    requires Reordered(a, b) && Canonical(json, deep, a, c)
    ensures Canonical(json, deep, b, c)
  {
    hide CanonicalChildren, CanonicalEvidence, PlatformText, RequiredText, OptionalText, Permuted;
    EvidenceReordered(json, a.evidence, b.evidence, c.evidence);
    ChildrenReordered(json, deep, a.lineItems, b.lineItems, c.lineItems);
    ChildrenReordered(json, deep, a.fees, b.fees, c.fees);
    ChildrenReordered(json, deep, a.offers, b.offers, c.offers);
    ChildrenReordered(json, deep, a.memberships, b.memberships, c.memberships);
    ChildrenReordered(json, deep, a.payments, b.payments, c.payments);
    ChildrenReordered(json, deep, a.thresholds, b.thresholds, c.thresholds);
    ChildrenReordered(json, deep, a.totals, b.totals, c.totals);
  }

  // ----- A second pass

  lemma {:induction false} MapFixed<T>(f: T -> T, xs: seq<T>)
    requires forall i :: 0 <= i < |xs| ==> f(xs[i]) == xs[i]
    ensures Map(f, xs) == xs
  {
  }

  lemma {:induction false} ChildrenTwice(json: Json, deep: bool, items: seq<Child>, result: seq<Child>)
    requires CanonicalChildren(json, deep, items, result)
    ensures CanonicalChildren(json, deep, result, result)
  {
    hide Map, SortedBy, NormalChild, ByChildJson;
    if deep {
      var normal := Map(OrElse(NormalChild), items);
      PermutedBasics(result, normal);
      forall i | 0 <= i < |result| ensures NormalChild(result[i]) == Some(result[i]) {
        assert result[i] in normal;
        var j :| 0 <= j < |normal| && normal[j] == result[i];
        NormalTwice(Evidence("", "", None, None), items[j]);
      }
      MapFixed(OrElse(NormalChild), result);
    }
  }

  lemma {:induction false} EvidenceTwice(json: Json, references: seq<Evidence>, result: seq<Evidence>)
    requires CanonicalEvidence(json, references, result)
    ensures CanonicalEvidence(json, result, result)
  {
    hide Map, SortedBy, NormalEvidence, NormalChild, EvidenceKey, TextLeq;
    var normal := Map(OrElse(NormalEvidence), references);
    forall i | 0 <= i < |result| ensures NormalEvidence(result[i]) == Some(result[i]) {
      assert LeastOfItsKey(json, normal, result[i]);
      var j :| 0 <= j < |normal| && normal[j] == result[i];
      NormalTwice(references[j], Child("", None, None, None, None));
    }
    MapFixed(OrElse(NormalEvidence), result);
    forall i | 0 <= i < |result| ensures LeastOfItsKey(json, result, result[i]) {
      assert LeastOfItsKey(json, normal, result[i]);
      forall k | 0 <= k < |result| && EvidenceKey(result[k]) == EvidenceKey(result[i])
        ensures TextLeq(EvidencePayload(json, result[i]), EvidencePayload(json, result[k]))
      {
        assert LeastOfItsKey(json, normal, result[k]);
        var j :| 0 <= j < |normal| && normal[j] == result[k];
      }
    }
    forall i | 0 <= i < |result| ensures EvidenceKey(result[i]) in Map(EvidenceKey, result) {
      assert Map(EvidenceKey, result)[i] == EvidenceKey(result[i]);
    }
  }

  /** A canonical observation is its own canonical form. */
  lemma {:induction false} CanonicalTwice(json: Json, deep: bool, o: Observation, c: Observation)
    requires Canonical(json, deep, o, c)
    ensures Canonical(json, deep, c, c)
  {
    hide CanonicalChildren, CanonicalEvidence, PlatformText, RequiredText, OptionalText;
    NormalTexts(o.platform, o.context);
    NormalTexts(o.artifact, None);
    NormalTexts(o.parserVersion, None);
    EvidenceTwice(json, o.evidence, c.evidence);
    ChildrenTwice(json, deep, o.lineItems, c.lineItems);
    ChildrenTwice(json, deep, o.fees, c.fees);
    ChildrenTwice(json, deep, o.offers, c.offers);
    ChildrenTwice(json, deep, o.memberships, c.memberships);
    ChildrenTwice(json, deep, o.payments, c.payments);
    ChildrenTwice(json, deep, o.thresholds, c.thresholds);
    ChildrenTwice(json, deep, o.totals, c.totals);
  }

  // ----- The canonicalizer as it runs

  /** `_canonicalize_sequence`: normalise each child, then sort by JSON and position. */
  method CanonicalizeChildren(json: Json, deep: bool, items: seq<Child>) returns (r: Option<seq<Child>>)
    ensures r.Some? <==> (deep ==> forall i :: 0 <= i < |items| ==> NormalChild(items[i]).Some?)
    ensures r.Some? ==> CanonicalChildren(json, deep, items, r.value)
    ensures r.Some? ==> if deep then ChildrenFields(items, r.value) else Permuted(r.value, items)
  {
    hide Map, Sort, NormalChild, ChildrenFields;
    if deep && exists i :: 0 <= i < |items| && NormalChild(items[i]).None? {
      return None;
    }
    var canonical := if deep then Map(OrElse(NormalChild), items) else items;
    SortPermutes(canonical, ByChildJson(json));
    SortSorts(canonical, ByChildJson(json));
    if deep {
      ChildrenHaveFields(json, items, Sort(canonical, ByChildJson(json)));
    }
    return Some(Sort(canonical, ByChildJson(json)));
  }

  /** `existing is None or payload < existing[0]`. */
  predicate Replaces(json: Json, kept: map<Key, Evidence>, e: Evidence) {
    EvidenceKey(e) !in kept || !TextLeq(json.evidence(kept[EvidenceKey(e)]), json.evidence(e))
  }

  /** `_canonicalize_evidence_references`: keep the least payload per key, then list by key. */
  method CanonicalizeEvidence(json: Json, references: seq<Evidence>) returns (r: Option<seq<Evidence>>)
    ensures r.Some? <==> forall i :: 0 <= i < |references| ==> NormalEvidence(references[i]).Some?
    ensures r.Some? ==> CanonicalEvidence(json, references, r.value)
  {
    hide Map, NormalEvidence, EvidenceKey, KeepsLeast, Replaces, Survivors;
    var kept: map<Key, Evidence> := map[];
    NothingKept(json);
    ghost var all := Map(OrElse(NormalEvidence), references);
    assert all[..0] == [];
    for i := 0 to |references|
      invariant forall k :: 0 <= k < i ==> NormalEvidence(references[k]).Some?
      invariant KeepsLeast(json, all[..i], kept)
    {
      var normal := NormalEvidence(references[i]);
      if normal.None? {
        return None;
      }
      KeepNext(json, all, i, kept);
      if Replaces(json, kept, normal.value) {
        kept := kept[EvidenceKey(normal.value) := normal.value];
      }
    }
    assert all[..|references|] == all;
    KeptUnderKeys(json, all, kept);
    var listed := SortedValues(kept, EvidenceKey);
    KeptSurvive(json, all, kept, listed);
    return Some(listed);
  }

  ghost predicate KeepsLeast(json: Json, seen: seq<Evidence>, kept: map<Key, Evidence>) {
    && (forall k :: k in kept ==> EvidenceKey(kept[k]) == k && LeastOfItsKey(json, seen, kept[k]))
    && (forall i :: 0 <= i < |seen| ==> EvidenceKey(seen[i]) in kept)
  }

  lemma {:induction false} NothingKept(json: Json)
    ensures KeepsLeast(json, [], map[])
  {
  }

  lemma {:induction false} KeepNext(json: Json, all: seq<Evidence>, i: nat, kept: map<Key, Evidence>)
    requires i < |all| && KeepsLeast(json, all[..i], kept)
    ensures var e := all[i];
      KeepsLeast(json, all[..i + 1], if Replaces(json, kept, e) then kept[EvidenceKey(e) := e] else kept)
  {
    hide EvidenceKey, TextLeq;
    var e := all[i];
    var before, seen := all[..i], all[..i + 1];
    assert seen == before + [e];
    var next := if Replaces(json, kept, e) then kept[EvidenceKey(e) := e] else kept;
    TextIsOrder();
    forall k | k in next ensures EvidenceKey(next[k]) == k && LeastOfItsKey(json, seen, next[k]) {
      assert k in kept ==> LeastOfItsKey(json, before, kept[k]);
      forall n | 0 <= n < |seen| && EvidenceKey(seen[n]) == k
        ensures TextLeq(EvidencePayload(json, next[k]), EvidencePayload(json, seen[n]))
      {
        assert n < i ==> seen[n] == before[n] && EvidenceKey(before[n]) in kept;
      }
    }
    forall n | 0 <= n < |seen| ensures EvidenceKey(seen[n]) in next {
      assert n < i ==> seen[n] == before[n];
    }
  }

  lemma {:induction false} KeptSurvive(json: Json, all: seq<Evidence>, kept: map<Key, Evidence>, result: seq<Evidence>)
    requires KeepsLeast(json, all, kept) && SortedBy(result, EvidenceKey) && Distinct(Map(EvidenceKey, result))
    requires forall i :: 0 <= i < |result| ==> EvidenceKey(result[i]) in kept && kept[EvidenceKey(result[i])] == result[i]
    requires forall k :: k in kept ==> k in Map(EvidenceKey, result)
    ensures Survivors(json, all, result)
  {
    hide Map, EvidenceKey, LeastOfItsKey, SortedBy, Distinct;
  }

  lemma {:induction false} KeptUnderKeys(json: Json, all: seq<Evidence>, kept: map<Key, Evidence>)
    requires KeepsLeast(json, all, kept)
    ensures forall k :: k in kept ==> EvidenceKey(kept[k]) == k
  {
  }

  /** Every part of `o` has a normal form. */
  ghost predicate Normalizable(deep: bool, o: Observation) {
    && PlatformText(o.platform).Some? && RequiredText(o.artifact).Some? && RequiredText(o.parserVersion).Some?
    && Utc(o.captured).Some?
    && (forall i :: 0 <= i < |o.evidence| ==> NormalEvidence(o.evidence[i]).Some?)
    && (deep ==> forall c :: c in Children(o) ==> NormalChild(c).Some?)
  }

  function Children(o: Observation): seq<Child> {
    o.lineItems + o.fees + o.offers + o.memberships + o.payments + o.thresholds + o.totals
  }

  lemma {:induction false} ChildrenSplit(o: Observation)
    ensures (forall c :: c in Children(o) ==> NormalChild(c).Some?) <==>
      && AllNormal(o.lineItems) && AllNormal(o.fees) && AllNormal(o.offers) && AllNormal(o.memberships)
      && AllNormal(o.payments) && AllNormal(o.thresholds) && AllNormal(o.totals)
  {
    hide NormalChild;
    if forall c :: c in Children(o) ==> NormalChild(c).Some? {
      assert forall c :: c in o.lineItems || c in o.fees || c in o.offers || c in o.memberships ==> c in Children(o);
      assert forall c :: c in o.payments || c in o.thresholds || c in o.totals ==> c in Children(o);
    }
  }

  ghost predicate AllNormal(items: seq<Child>) { forall i :: 0 <= i < |items| ==> NormalChild(items[i]).Some? }

  /**
   * `_canonicalize_observation`: the canonical form, or an error exactly when some
   * part has no normal form or, where validation is asked for, evidence or children
   * are missing altogether.
   */
  method Canonicalize(json: Json, o: Observation, validate: bool, deep: bool) returns (r: Option<Observation>)
    ensures r.Some? <==> Normalizable(deep, o) && (validate ==> o.evidence != [] && !Childless(o))
    ensures r.Some? ==> Canonical(json, deep, o, r.value)
  {
    hide CanonicalChildren, CanonicalEvidence, PlatformText, RequiredText, OptionalText, NormalChild, NormalEvidence, Utc, Children;
    ChildrenSplit(o);
    var platform, artifact, parser := PlatformText(o.platform), RequiredText(o.artifact), RequiredText(o.parserVersion);
    var captured := Utc(o.captured);
    if platform.None? || artifact.None? || parser.None? || captured.None? {
      return None;
    }
    var evidence := CanonicalizeEvidence(json, o.evidence);
    var lineItems := CanonicalizeChildren(json, deep, o.lineItems);
    var fees := CanonicalizeChildren(json, deep, o.fees);
    var offers := CanonicalizeChildren(json, deep, o.offers);
    var memberships := CanonicalizeChildren(json, deep, o.memberships);
    var payments := CanonicalizeChildren(json, deep, o.payments);
    var thresholds := CanonicalizeChildren(json, deep, o.thresholds);
    var totals := CanonicalizeChildren(json, deep, o.totals);
    if evidence.None? || lineItems.None? || fees.None? || offers.None? || memberships.None? || payments.None?
       || thresholds.None? || totals.None? {
      return None;
    }
    var canonical := Observation(
      platform.value, artifact.value, captured.value, parser.value, OptionalText(o.context), evidence.value,
      lineItems.value, fees.value, offers.value, memberships.value, payments.value, thresholds.value, totals.value);
    EmptyEvidence(json, o.evidence, canonical.evidence);
    ChildlessKept(json, deep, o, canonical);
    if validate && (canonical.evidence == [] || Childless(canonical)) {
      return None;
    }
    return Some(canonical);
  }

  lemma {:induction false} EmptyEvidence(json: Json, references: seq<Evidence>, result: seq<Evidence>)
    requires CanonicalEvidence(json, references, result)
    ensures result == [] <==> references == []
  {
    hide EvidenceKey, NormalEvidence;
    var all := Map(OrElse(NormalEvidence), references);
    assert result != [] ==> LeastOfItsKey(json, all, result[0]);
    if references != [] {
      assert EvidenceKey(all[0]) in Map(EvidenceKey, result);
    }
  }

  lemma {:induction false} ChildrenCount(json: Json, deep: bool, items: seq<Child>, result: seq<Child>)
    requires CanonicalChildren(json, deep, items, result)
    ensures |result| == |items|
  {
    hide Map;
    PermutedBasics(result, if deep then Map(OrElse(NormalChild), items) else items);
  }

  lemma {:induction false} ChildlessKept(json: Json, deep: bool, o: Observation, c: Observation)
    requires Canonical(json, deep, o, c)
    ensures Childless(c) <==> Childless(o)
  {
    hide CanonicalChildren;
    ChildrenCount(json, deep, o.lineItems, c.lineItems);
    ChildrenCount(json, deep, o.fees, c.fees);
    ChildrenCount(json, deep, o.offers, c.offers);
    ChildrenCount(json, deep, o.memberships, c.memberships);
    ChildrenCount(json, deep, o.payments, c.payments);
    ChildrenCount(json, deep, o.thresholds, c.thresholds);
    ChildrenCount(json, deep, o.totals, c.totals);
  }

  /**
   * After a deep canonicalization the validator's label and text checks cannot
   * fail: every label is present and no optional text is blank.
   */
  lemma {:induction false} CanonicalLabelsAreValid(json: Json, items: seq<Child>, result: seq<Child>, i: nat)
    requires CanonicalChildren(json, true, items, result) && i < |result|
    ensures !Blank(result[i].caption)
    ensures result[i].rawText.Some? ==> !Blank(result[i].rawText.value)
    ensures result[i].quantityText.Some? ==> !Blank(result[i].quantityText.value)
  {
    hide Map, Strip;
    var normal := Map(OrElse(NormalChild), items);
    PermutedBasics(result, normal);
    var j :| 0 <= j < |normal| && normal[j] == result[i];
    var c := items[j];
    StripTrims(c.caption);
    StripTrims(Strip(c.caption));
    StripIdempotent(c.caption);
    if c.rawText.Some? {
      StripTrims(Strip(c.rawText.value));
      StripIdempotent(c.rawText.value);
    }
    if c.quantityText.Some? {
      StripTrims(Strip(c.quantityText.value));
      StripIdempotent(c.quantityText.value);
    }
  }

  lemma {:induction false} CanonicalMeansAccepted(json: Json, o: Observation, c: Observation)
    requires Canonical(json, true, o, c)
    ensures Normalizable(true, o)
    ensures o.evidence != [] <==> c.evidence != []
    ensures Childless(o) <==> Childless(c)
  {
    hide NormalChild, NormalEvidence, PlatformText, RequiredText, OptionalText, Permuted, SortedBy, Survivors, Children;
    ChildrenSplit(o);
    EmptyEvidence(json, o.evidence, c.evidence);
    ChildlessKept(json, true, o, c);
  }

  /** Whether an observation is accepted does not depend on the order of its parts either. */
  lemma {:induction false} AcceptanceIgnoresOrder(json: Json, a: Observation, b: Observation, c: Observation)
    requires Reordered(a, b) && Canonical(json, true, a, c)
    requires Normalizable(true, a) && a.evidence != [] && !Childless(a)
    ensures Normalizable(true, b) && b.evidence != [] && !Childless(b)
  {
    hide Canonical, Normalizable, Reordered;
    OrderIsIrrelevant(json, true, a, b, c);
    CanonicalMeansAccepted(json, a, c);
    CanonicalMeansAccepted(json, b, c);
  }

  lemma {:induction false} ReorderedSymmetric(a: Observation, b: Observation)
    requires Reordered(a, b)
    ensures Reordered(b, a)
  {
  }

  // ----- The canonical form field by field

  /** Optional text: absent when it was absent or blank, otherwise stripped. */
  ghost predicate OptionalIs(o: Option<string>, n: Option<string>) {
    if o.None? || Blank(o.value) then n.None? else n == Some(Strip(o.value))
  }

  /** A child keeps its amounts; its label is stripped, and its texts are stripped or dropped. */
  ghost predicate ChildIs(c: Child, n: Child) {
    && !Blank(c.caption) && n.caption == Strip(c.caption)
    && OptionalIs(c.rawText, n.rawText) && OptionalIs(c.quantityText, n.quantityText)
    && n.amount == c.amount && n.referencePrice == c.referencePrice
  }

  /** A reference keeps its instant, in UTC; its identifying texts are stripped, its note stripped or dropped. */
  ghost predicate EvidenceIs(e: Evidence, n: Evidence) {
    && !Blank(e.sourceType) && n.sourceType == Strip(e.sourceType)
    && !Blank(e.sourceId) && n.sourceId == Strip(e.sourceId)
    && OptionalIs(e.note, n.note)
    && if e.captured.None? then n.captured.None?
       else e.captured.value.offset.Some? && n.captured == Some(Timestamp(e.captured.value.instant, Some(0)))
  }

  /** Neither text is blank and the time, if any, has a zone. */
  predicate Presentable(e: Evidence) {
    !Blank(e.sourceType) && !Blank(e.sourceId) && (e.captured.Some? ==> e.captured.value.offset.Some?)
  }

  /** `normal` are the items one by one, and `result` is some order of them. */
  ghost predicate ChildrenAre(items: seq<Child>, normal: seq<Child>, result: seq<Child>) {
    && |normal| == |items| && (forall i :: 0 <= i < |items| ==> ChildIs(items[i], normal[i]))
    && Permuted(result, normal)
  }

  ghost predicate ChildrenFields(items: seq<Child>, result: seq<Child>) { exists normal :: ChildrenAre(items, normal, result) }

  /** Of the references with its source type and id, `n` is the one whose JSON is least. */
  ghost predicate LeastReference(json: Json, references: seq<Evidence>, n: Evidence) {
    && (exists i :: 0 <= i < |references| && EvidenceIs(references[i], n))
    && (forall i, m | 0 <= i < |references| && EvidenceIs(references[i], m) ::
          m.sourceType == n.sourceType && m.sourceId == n.sourceId ==> TextLeq(json.evidence(n), json.evidence(m)))
  }

  ghost predicate EvidenceFields(json: Json, references: seq<Evidence>, result: seq<Evidence>) {
    && (forall i :: 0 <= i < |references| ==> Presentable(references[i]))
    && (forall n :: n in result <==> LeastReference(json, references, n))
  }

  /** What the canonical observation `c` has in each of its fields. */
  ghost predicate Fields(json: Json, o: Observation, c: Observation) {
    && !Blank(o.platform) && c.platform == Lower(Strip(o.platform))
    && !Blank(o.artifact) && c.artifact == Strip(o.artifact)
    && !Blank(o.parserVersion) && c.parserVersion == Strip(o.parserVersion)
    && OptionalIs(o.context, c.context)
    && o.captured.offset.Some? && c.captured == Timestamp(o.captured.instant, Some(0))
    && EvidenceFields(json, o.evidence, c.evidence)
    && ChildrenFields(o.lineItems, c.lineItems) && ChildrenFields(o.fees, c.fees) && ChildrenFields(o.offers, c.offers)
    && ChildrenFields(o.memberships, c.memberships) && ChildrenFields(o.payments, c.payments)
    && ChildrenFields(o.thresholds, c.thresholds) && ChildrenFields(o.totals, c.totals)
  }

  lemma {:induction false} RequiredIs(s: string, t: string)
    ensures RequiredText(s) == Some(t) <==> !Blank(s) && t == Strip(s)
    ensures PlatformText(s) == Some(t) <==> !Blank(s) && t == Lower(Strip(s))
  {
    StripTrims(s);
  }

  lemma {:induction false} OptionalTextIs(o: Option<string>, n: Option<string>)
    ensures OptionalText(o) == n <==> OptionalIs(o, n)
  {
    if o.Some? {
      StripTrims(o.value);
    }
  }

  lemma {:induction false} NormalChildIs(c: Child, n: Child)
    ensures NormalChild(c) == Some(n) <==> ChildIs(c, n)
    ensures NormalChild(c).Some? <==> !Blank(c.caption)
  {
    hide Strip, Blank, OptionalText, OptionalIs;
    RequiredIs(c.caption, n.caption);
    StripTrims(c.caption);
    OptionalTextIs(c.rawText, n.rawText);
    OptionalTextIs(c.quantityText, n.quantityText);
  }

  lemma {:induction false} NormalEvidenceIs(e: Evidence, n: Evidence)
    ensures NormalEvidence(e) == Some(n) <==> EvidenceIs(e, n)
  {
    hide Strip, Blank, OptionalText, OptionalIs, RequiredText;
    RequiredIs(e.sourceType, n.sourceType);
    RequiredIs(e.sourceId, n.sourceId);
    OptionalTextIs(e.note, n.note);
    RequiredPresent(e.sourceType);
    RequiredPresent(e.sourceId);
  }

  lemma {:induction false} RequiredPresent(s: string)
    ensures RequiredText(s).Some? ==> RequiredText(s) == Some(Strip(s))
    ensures RequiredText(s).Some? <==> !Blank(s)
  {
    StripTrims(s);
  }

  lemma {:induction false} ChildrenHaveFields(json: Json, items: seq<Child>, result: seq<Child>)
    requires CanonicalChildren(json, true, items, result)
    ensures ChildrenFields(items, result)
  {
    hide NormalChild, ChildIs, SortedBy, Map;
    var normal := Map(OrElse(NormalChild), items);
    forall i | 0 <= i < |items| ensures ChildIs(items[i], normal[i]) {
      NormalChildIs(items[i], normal[i]);
    }
    assert ChildrenAre(items, normal, result);
  }

  lemma {:induction false} EvidenceHasFields(json: Json, references: seq<Evidence>, result: seq<Evidence>)
    requires Faithful(json) && CanonicalEvidence(json, references, result)
    ensures EvidenceFields(json, references, result)
  {
    hide NormalEvidence, EvidenceIs, SortedBy, Map, TextLeq, Distinct, Survivors, LeastOfItsKey;
    var all := Map(OrElse(NormalEvidence), references);
    forall i | 0 <= i < |references| ensures EvidenceIs(references[i], all[i]) {
      NormalEvidenceIs(references[i], all[i]);
    }
    forall i, n | 0 <= i < |references| && EvidenceIs(references[i], n) ensures n == all[i] {
      NormalEvidenceIs(references[i], n);
    }
    forall n ensures LeastReference(json, references, n) <==> LeastOfItsKey(json, all, n) {
      LeastIs(json, references, all, n);
    }
    SurvivorsAreLeast(json, all, result);
    forall i | 0 <= i < |references| ensures Presentable(references[i]) {
      OnlyPresentable(references[i], all[i]);
    }
  }

  lemma {:induction false} OnlyPresentable(e: Evidence, n: Evidence)
    requires EvidenceIs(e, n)
    ensures Presentable(e)
  {
  }

  lemma {:induction false} LeastIs(json: Json, references: seq<Evidence>, all: seq<Evidence>, n: Evidence)
    requires |all| == |references|
    requires forall i, m :: 0 <= i < |references| ==> (EvidenceIs(references[i], m) <==> m == all[i])
    ensures LeastReference(json, references, n) <==> LeastOfItsKey(json, all, n)
  {
    hide EvidenceIs, TextLeq;
    forall m ensures EvidenceKey(m) == EvidenceKey(n) <==> m.sourceType == n.sourceType && m.sourceId == n.sourceId {
      assert EvidenceKey(m)[0] == Text(m.sourceType) && EvidenceKey(m)[1] == Text(m.sourceId);
      assert EvidenceKey(n)[0] == Text(n.sourceType) && EvidenceKey(n)[1] == Text(n.sourceId);
    }
    if n in all {
      var k :| 0 <= k < |all| && all[k] == n;
      assert EvidenceIs(references[k], n);
    }
    if LeastReference(json, references, n) {
      forall i | 0 <= i < |all| && EvidenceKey(all[i]) == EvidenceKey(n)
        ensures TextLeq(EvidencePayload(json, n), EvidencePayload(json, all[i]))
      {
        assert EvidenceIs(references[i], all[i]);
      }
    }
  }

  /** The survivors are all the least references, not only some. */
  lemma {:induction false} SurvivorsAreLeast(json: Json, all: seq<Evidence>, result: seq<Evidence>)
    requires Faithful(json) && Survivors(json, all, result)
    ensures forall n :: n in result <==> LeastOfItsKey(json, all, n)
  {
    hide EvidenceKey, TextLeq, SortedBy, Map, Distinct;
    TextIsOrder();
    forall n | LeastOfItsKey(json, all, n) ensures n in result {
      var k :| 0 <= k < |all| && all[k] == n;
      var j :| 0 <= j < |result| && Map(EvidenceKey, result)[j] == EvidenceKey(all[k]);
      assert LeastOfItsKey(json, all, result[j]);
      var m :| 0 <= m < |all| && all[m] == result[j];
      assert TextLeq(json.evidence(n), json.evidence(result[j])) && TextLeq(json.evidence(result[j]), json.evidence(n));
    }
    forall n | n in result ensures LeastOfItsKey(json, all, n) {
      var j :| 0 <= j < |result| && result[j] == n;
    }
  }

  /** The canonical form has in each field what was observed, up to blanks, case, time zone, order and duplicates. */
  lemma {:induction false} CanonicalHasFields(json: Json, o: Observation, c: Observation)
    requires Faithful(json) && Canonical(json, true, o, c)
    ensures Fields(json, o, c)
  {
    hide CanonicalChildren, CanonicalEvidence, ChildrenFields, EvidenceFields, PlatformText, RequiredText, OptionalText, OptionalIs,
      Strip, Lower, Blank, Faithful;
    RequiredIs(o.platform, c.platform);
    RequiredIs(o.artifact, c.artifact);
    RequiredIs(o.parserVersion, c.parserVersion);
    OptionalTextIs(o.context, c.context);
    EvidenceHasFields(json, o.evidence, c.evidence);
    ChildrenHaveFields(json, o.lineItems, c.lineItems);
    ChildrenHaveFields(json, o.fees, c.fees);
    ChildrenHaveFields(json, o.offers, c.offers);
    ChildrenHaveFields(json, o.memberships, c.memberships);
    ChildrenHaveFields(json, o.payments, c.payments);
    ChildrenHaveFields(json, o.thresholds, c.thresholds);
    ChildrenHaveFields(json, o.totals, c.totals);
  }

  /** What an observation must show to be registered. */
  ghost predicate Admissible(o: Observation) {
    && !Blank(o.platform) && !Blank(o.artifact) && !Blank(o.parserVersion) && o.captured.offset.Some?
    && o.evidence != [] && (forall i :: 0 <= i < |o.evidence| ==> Presentable(o.evidence[i]))
    && Children(o) != [] && (forall c :: c in Children(o) ==> !Blank(c.caption))
  }

  lemma {:induction false} AdmissibleIff(o: Observation)
    ensures Admissible(o) <==> Normalizable(true, o) && o.evidence != [] && !Childless(o)
  {
    hide PlatformText, RequiredText, NormalChild, NormalEvidence, Presentable, Blank;
    RequiredIs(o.platform, Lower(Strip(o.platform)));
    RequiredIs(o.artifact, Strip(o.artifact));
    RequiredIs(o.parserVersion, Strip(o.parserVersion));
    PlatformPresent(o.platform);
    RequiredPresent(o.artifact);
    RequiredPresent(o.parserVersion);
    forall i | 0 <= i < |o.evidence| ensures NormalEvidence(o.evidence[i]).Some? <==> Presentable(o.evidence[i]) {
      NormalizableEvidence(o.evidence[i]);
    }
    forall c ensures NormalChild(c).Some? <==> !Blank(c.caption) {
      NormalChildIs(c, c);
    }
    assert Childless(o) <==> Children(o) == [] by {
      assert |Children(o)| == |o.lineItems| + |o.fees| + |o.offers| + |o.memberships| + |o.payments| + |o.thresholds| + |o.totals|;
    }
  }

  lemma {:induction false} PlatformPresent(s: string)
    ensures PlatformText(s).Some? <==> !Blank(s)
  {
    StripTrims(s);
  }

  lemma {:induction false} NormalizableEvidence(e: Evidence)
    ensures NormalEvidence(e).Some? <==> Presentable(e)
  {
    hide Blank, RequiredText;
    RequiredPresent(e.sourceType);
    RequiredPresent(e.sourceId);
  }

  // ----- Which observations are one

  /** The same children one by one, up to their order. */
  ghost predicate SameChildren(a: seq<Child>, b: seq<Child>) {
    exists x, y :: ChildrenAre(a, x, y) && ChildrenAre(b, y, y)
  }

  ghost predicate SameEvidence(json: Json, a: seq<Evidence>, b: seq<Evidence>) {
    forall n :: LeastReference(json, a, n) <==> LeastReference(json, b, n)
  }

  ghost predicate SameOptional(a: Option<string>, b: Option<string>) {
    exists n :: OptionalIs(a, n) && OptionalIs(b, n)
  }

  /** They agree in every field up to blanks, the platform's case, the time zone, order and which duplicates there are. */
  ghost predicate Agree(json: Json, a: Observation, b: Observation) {
    && Lower(Strip(a.platform)) == Lower(Strip(b.platform))
    && Strip(a.artifact) == Strip(b.artifact) && Strip(a.parserVersion) == Strip(b.parserVersion)
    && SameOptional(a.context, b.context)
    && a.captured.instant == b.captured.instant
    && SameEvidence(json, a.evidence, b.evidence)
    && SameChildren(a.lineItems, b.lineItems) && SameChildren(a.fees, b.fees) && SameChildren(a.offers, b.offers)
    && SameChildren(a.memberships, b.memberships) && SameChildren(a.payments, b.payments)
    && SameChildren(a.thresholds, b.thresholds) && SameChildren(a.totals, b.totals)
  }

  lemma {:induction false} ChildrenIff(json: Json, a: seq<Child>, b: seq<Child>, x: seq<Child>, y: seq<Child>)
    requires Faithful(json) && CanonicalChildren(json, true, a, x) && CanonicalChildren(json, true, b, y)
    ensures x == y <==> SameChildren(a, b)
  {
    hide NormalChild, ChildIs, SortedBy, Map, ByChildJson, Faithful;
    var u, v := Map(OrElse(NormalChild), a), Map(OrElse(NormalChild), b);
    OneByOne(a, u);
    OneByOne(b, v);
    if x == y {
      assert Permuted(u, v);
      assert ChildrenAre(a, u, v) && ChildrenAre(b, v, v);
    }
    if SameChildren(a, b) {
      var p, q :| ChildrenAre(a, p, q) && ChildrenAre(b, q, q);
      OnlyOnes(a, u, p);
      OnlyOnes(b, v, q);
      JsonTells(json, x);
      assert Permuted(x, y);
      SortedUnique(x, y, ByChildJson(json));
    }
  }

  lemma {:induction false} OneByOne(items: seq<Child>, normal: seq<Child>)
    requires normal == Map(OrElse(NormalChild), items) && forall i :: 0 <= i < |items| ==> NormalChild(items[i]).Some?
    ensures ChildrenAre(items, normal, normal)
  {
    hide NormalChild, ChildIs, Map;
    forall i | 0 <= i < |items| ensures ChildIs(items[i], normal[i]) {
      NormalChildIs(items[i], normal[i]);
    }
  }

  lemma {:induction false} OnlyOnes(items: seq<Child>, x: seq<Child>, y: seq<Child>)
    requires |x| == |y| == |items|
    requires forall i :: 0 <= i < |items| ==> ChildIs(items[i], x[i]) && ChildIs(items[i], y[i])
    ensures x == y
  {
    hide ChildIs;
    forall i | 0 <= i < |items| ensures x[i] == y[i] {
      NormalChildIs(items[i], x[i]);
      NormalChildIs(items[i], y[i]);
    }
  }

  lemma {:induction false} EvidenceIff(json: Json, a: seq<Evidence>, b: seq<Evidence>, x: seq<Evidence>, y: seq<Evidence>)
    requires Faithful(json) && CanonicalEvidence(json, a, x) && CanonicalEvidence(json, b, y)
    ensures x == y <==> SameEvidence(json, a, b)
  {
    hide LeastReference, Faithful, NormalEvidence, EvidenceIs, SortedBy, Map, LeastOfItsKey, EvidenceKey, Distinct;
    EvidenceHasFields(json, a, x);
    EvidenceHasFields(json, b, y);
    if SameEvidence(json, a, b) {
      forall i | 0 <= i < |x| ensures x[i] in y {
        assert x[i] in x;
      }
      forall i | 0 <= i < |y| ensures y[i] in x {
        assert y[i] in y;
      }
      KeyedUnique(x, y, EvidenceKey);
    }
  }

  lemma {:induction false} OptionalIff(a: Option<string>, b: Option<string>)
    ensures OptionalText(a) == OptionalText(b) <==> SameOptional(a, b)
  {
    hide OptionalText, OptionalIs;
    OptionalTextIs(a, OptionalText(a));
    OptionalTextIs(b, OptionalText(b));
    if n :| OptionalIs(a, n) && OptionalIs(b, n) {
      OptionalTextIs(a, n);
      OptionalTextIs(b, n);
    }
  }

  /** Two observations have one canonical form exactly when they agree field by field. */
  lemma {:induction false} SameFormIff(json: Json, a: Observation, b: Observation, c: Observation, d: Observation)
    requires Faithful(json) && Canonical(json, true, a, c) && Canonical(json, true, b, d)
    ensures c == d <==> Agree(json, a, b)
  {
    hide CanonicalChildren, CanonicalEvidence, SameChildren, SameEvidence, PlatformText, RequiredText, OptionalText, SameOptional,
      Strip, Lower, Faithful;
    RequiredIs(a.platform, c.platform);
    RequiredIs(b.platform, d.platform);
    RequiredIs(a.artifact, c.artifact);
    RequiredIs(b.artifact, d.artifact);
    RequiredIs(a.parserVersion, c.parserVersion);
    RequiredIs(b.parserVersion, d.parserVersion);
    OptionalIff(a.context, b.context);
    EvidenceIff(json, a.evidence, b.evidence, c.evidence, d.evidence);
    ChildrenIff(json, a.lineItems, b.lineItems, c.lineItems, d.lineItems);
    ChildrenIff(json, a.fees, b.fees, c.fees, d.fees);
    ChildrenIff(json, a.offers, b.offers, c.offers, d.offers);
    ChildrenIff(json, a.memberships, b.memberships, c.memberships, d.memberships);
    ChildrenIff(json, a.payments, b.payments, c.payments, d.payments);
    ChildrenIff(json, a.thresholds, b.thresholds, c.thresholds, d.thresholds);
    ChildrenIff(json, a.totals, b.totals, c.totals, d.totals);
  }

  // ----- The registry

  class CheckoutObservationRegistry {
    const json: Json
    /** By observation id, the digest of the canonical observation. */
    var records: map<Digest<Observation>, Observation>

    constructor (json: Json)
      ensures this.json == json && records == map[]
    {
      this.json, records := json, map[];
    }

    ghost predicate Valid() reads this {
      && Faithful(json)
      && forall id :: id in records ==> id == Sha256(records[id]) && Canonical(json, true, records[id], records[id])
    }

    /**
     * `register`. The id is the canonical form's own, so registering any
     * reordering of an observation again finds it and stores nothing.
     */
    method Register(o: Observation) returns (r: Option<Digest<Observation>>)
      requires Valid()
      modifies this
      ensures Valid()
      ensures r.Some? <==> Admissible(o)
      ensures r.None? ==> records == old(records)
      ensures r.Some? ==>
        exists c :: Canonical(json, true, o, c) && Fields(json, o, c) && r.value == Sha256(c) && records == old(records)[r.value := c]
      ensures r.Some? && r.value in old(records) ==> records == old(records)
    {
      hide Canonical, Normalizable, Faithful, Fields, Admissible;
      AdmissibleIff(o);
      var canonical := Canonicalize(json, o, true, true);
      if canonical.None? {
        return None;
      }
      CanonicalHasFields(json, o, canonical.value);
      CanonicalTwice(json, true, o, canonical.value);
      var id := Sha256(canonical.value);
      if id !in records {
        records := records[id := canonical.value];
      } else {
        assert records == records[id := canonical.value];
      }
      return Some(id);
    }

    /** Two accepted observations are registered under one id exactly when they agree field by field. */
    method RegisterBoth(a: Observation, b: Observation) returns (x: Option<Digest<Observation>>, y: Option<Digest<Observation>>)
      requires Valid()
      modifies this
      ensures Valid()
      ensures x.Some? && y.Some? ==> (x == y <==> Agree(json, a, b))
    {
      hide Canonical, Normalizable, Faithful, Childless, Fields, Agree, Admissible;
      x := Register(a);
      y := Register(b);
      if x.Some? && y.Some? {
        ghost var c :| Canonical(json, true, a, c) && x.value == Sha256(c);
        ghost var d :| Canonical(json, true, b, d) && y.value == Sha256(d);
        SameFormIff(json, a, b, c, d);
      }
    }

    /** Two registrations of one observation, in whatever order its parts come, give one id and one record. */
    method RegisterTwice(a: Observation, b: Observation) returns (x: Option<Digest<Observation>>, y: Option<Digest<Observation>>)
      requires Valid() && Reordered(a, b)
      modifies this
      ensures Valid()
      ensures x == y && (x.Some? ==> x.value in records)
    {
      hide Canonical, Normalizable, Faithful, Reordered, Childless, Fields, Admissible;
      AdmissibleIff(a);
      AdmissibleIff(b);
      x := Register(a);
      y := Register(b);
      ReorderedSymmetric(a, b);
      if x.Some? {
        ghost var c :| Canonical(json, true, a, c);
        AcceptanceIgnoresOrder(json, a, b, c);
      } else if y.Some? {
        ghost var d :| Canonical(json, true, b, d);
        AcceptanceIgnoresOrder(json, b, a, d);
      }
      if x.Some? && y.Some? {
        ghost var c :| Canonical(json, true, a, c) && x.value == Sha256(c);
        ghost var d :| Canonical(json, true, b, d) && y.value == Sha256(d);
        OrderIsIrrelevant(json, true, a, b, c);
        CanonicalUnique(json, true, b, c, d);
      }
    }
  }
}
