/**
 * The effective cost of one checkout: subtotal extraction, the unknown-propagation
 * policy and the aggregation, and when the cost they produce is known.
 */
module EffectiveCost {
  import opened Outcomes
  import opened Ordering
  import opened CartPlans
  import CartOptimization

  /** A displayed total; `priority` is its label's class, absent for labels that are not a subtotal's. */
  datatype Total = Total(priority: Option<nat>, amount: Option<Money>)

  datatype OfferType = FIXED_DISCOUNT | PERCENTAGE_DISCOUNT | CASHBACK | WALLET_CREDIT | UNKNOWN_OFFER

  datatype Offer = Offer(
    reference: string, kind: OfferType, applicable: Option<bool>,
    immediateDiscount: Option<Money>, deferredValue: Option<Money>)

  datatype Fee = Fee(reference: string, known: bool, applicable: Option<bool>, amount: Option<Money>)

  datatype Membership = Membership(reference: string, eligible: Option<bool>, benefit: Option<Money>)

  datatype Checkout = Checkout(
    totals: seq<Total>, offers: seq<Offer>, fees: seq<Fee>, memberships: seq<Membership>)

  datatype CostResult = CostResult(
    subtotal: Option<Money>, discounts: seq<Money>, fees: seq<Money>,
    cost: Option<Money>, deferred: Option<Money>, unknowns: seq<string>)

  // ----- The subtotal

  predicate IsCandidate(t: Total) { t.priority.Some? && t.amount.Some? }

  /** Total `i` shows `m`, no other has a better priority, and those of the same priority show `m` too. */
  ghost predicate BestAt(totals: seq<Total>, i: int, m: Money) {
    && 0 <= i < |totals| && IsCandidate(totals[i]) && totals[i].amount.value == m
    && forall j :: 0 <= j < |totals| && IsCandidate(totals[j]) ==>
         && totals[i].priority.value <= totals[j].priority.value
         && (totals[i].priority.value == totals[j].priority.value ==> totals[j].amount.value == m)
  }

  /** `m` is what every total of the best priority shows. */
  ghost predicate Agreed(totals: seq<Total>, m: Money) { exists i :: BestAt(totals, i, m) }

  function BestPriority(candidates: seq<(nat, Money)>): (p: nat)
    requires candidates != []
    ensures exists i :: 0 <= i < |candidates| && candidates[i].0 == p
    ensures forall i :: 0 <= i < |candidates| ==> p <= candidates[i].0
  {
    if |candidates| == 1 then candidates[0].0
    else
      var rest := BestPriority(candidates[1..]);
      if candidates[0].0 < rest then candidates[0].0 else rest
  }

  /** The first loop: every labelled total with an amount, with its priority. */
  method CollectCandidates(totals: seq<Total>) returns (candidates: seq<(nat, Money)>)
    ensures Lists(totals, candidates)
  {
    candidates := [];
    for n := 0 to |totals|
      invariant Lists(totals[..n], candidates)
    {
      if totals[n].amount.Some? && totals[n].priority.Some? {
        ListsSnoc(totals, n, candidates);
        candidates := candidates + [(totals[n].priority.value, totals[n].amount.value)];
      } else {
        assert totals[..n + 1] == totals[..n] + [totals[n]];
      }
    }
    assert totals[..|totals|] == totals;
  }

  /** The candidates are the labelled totals that show an amount. */
  ghost predicate Lists(totals: seq<Total>, candidates: seq<(nat, Money)>) {
    && (forall k :: 0 <= k < |candidates| ==> Total(Some(candidates[k].0), Some(candidates[k].1)) in totals)
    && (forall i :: 0 <= i < |totals| && IsCandidate(totals[i]) ==>
          (totals[i].priority.value, totals[i].amount.value) in candidates)
  }

  lemma {:induction false} ListsSnoc(totals: seq<Total>, n: nat, candidates: seq<(nat, Money)>)
    requires n < |totals| && IsCandidate(totals[n]) && Lists(totals[..n], candidates)
    ensures Lists(totals[..n + 1], candidates + [(totals[n].priority.value, totals[n].amount.value)])
  {
    var next := candidates + [(totals[n].priority.value, totals[n].amount.value)];
    assert totals[..n + 1] == totals[..n] + [totals[n]];
    forall k | 0 <= k < |next| ensures Total(Some(next[k].0), Some(next[k].1)) in totals[..n + 1] {
      if k < |candidates| {
        assert next[k] == candidates[k];
      }
    }
    var seen := totals[..n + 1];
    forall i | 0 <= i < |seen| && IsCandidate(seen[i]) ensures (seen[i].priority.value, seen[i].amount.value) in next {
      if i < n {
        assert totals[..n][i] == totals[i];
      }
    }
  }

  /** `SubtotalExtractor.extract`. */
  method ExtractSubtotal(totals: seq<Total>) returns (r: Option<Money>)
    ensures forall m :: r == Some(m) <==> Agreed(totals, m)
  {
    hide Agreed, Lists, Filter;
    var candidates := CollectCandidates(totals);
    if candidates == [] {
      NothingListed(totals);
      return None;
    }
    var best := BestPriority(candidates);
    var valid := Filter(HasPriority(best), candidates);
    var b :| 0 <= b < |candidates| && candidates[b].0 == best;
    assert candidates[b] in valid;
    var first := valid[0].1;
    for k := 1 to |valid|
      invariant forall i :: 0 <= i < k ==> valid[i].1 == first
    {
      if valid[k].1 != first {
        Disagreeing(totals, candidates, best, valid[0], valid[k]);
        return None;
      }
    }
    AgreeingTotals(totals, candidates, best, valid, first);
    return Some(first);
  }

  function HasPriority(p: nat): ((nat, Money)) -> bool { (c: (nat, Money)) => c.0 == p }

  lemma {:induction false} NothingListed(totals: seq<Total>)
    requires Lists(totals, [])
    ensures forall m :: !Agreed(totals, m)
  {
  }

  lemma {:induction false} TotalOf(totals: seq<Total>, candidates: seq<(nat, Money)>, c: (nat, Money)) returns (i: nat)
    requires Lists(totals, candidates) && c in candidates
    ensures i < |totals| && totals[i] == Total(Some(c.0), Some(c.1)) && IsCandidate(totals[i])
  {
    var k :| 0 <= k < |candidates| && candidates[k] == c;
    assert Total(Some(candidates[k].0), Some(candidates[k].1)) in totals;
    i :| 0 <= i < |totals| && totals[i] == Total(Some(c.0), Some(c.1));
  }

  lemma {:induction false} Disagreeing(totals: seq<Total>, candidates: seq<(nat, Money)>, best: nat, x: (nat, Money), y: (nat, Money))
    requires Lists(totals, candidates) && x in candidates && y in candidates
    requires x.0 == y.0 == best && x.1 != y.1 && forall k :: 0 <= k < |candidates| ==> best <= candidates[k].0
    ensures forall m :: !Agreed(totals, m)
  {
    var i := TotalOf(totals, candidates, x);
    var j := TotalOf(totals, candidates, y);
    forall m ensures !Agreed(totals, m) {
      forall n ensures !BestAt(totals, n, m) {
        if 0 <= n < |totals| && IsCandidate(totals[n]) {
          assert (totals[n].priority.value, totals[n].amount.value) in candidates;
          var k :| 0 <= k < |candidates| && candidates[k] == (totals[n].priority.value, totals[n].amount.value);
          assert best <= totals[n].priority.value;
        }
      }
    }
  }

  lemma {:induction false} AgreeingTotals(totals: seq<Total>, candidates: seq<(nat, Money)>, best: nat, valid: seq<(nat, Money)>, first: Money)
    requires Lists(totals, candidates) && valid == Filter(HasPriority(best), candidates) && valid != []
    requires forall k :: 0 <= k < |candidates| ==> best <= candidates[k].0
    requires forall i :: 0 <= i < |valid| ==> valid[i].1 == first
    ensures forall m :: m == first <==> Agreed(totals, m)
  {
    hide Filter;
    var i0 := TotalOf(totals, candidates, valid[0]);
    forall j | 0 <= j < |totals| && IsCandidate(totals[j])
      ensures best <= totals[j].priority.value
      ensures totals[j].priority.value == best ==> totals[j].amount.value == first
    {
      var k :| 0 <= k < |candidates| && candidates[k] == (totals[j].priority.value, totals[j].amount.value);
      if totals[j].priority.value == best {
        assert candidates[k] in valid;
        var v :| 0 <= v < |valid| && valid[v] == candidates[k];
      }
    }
    assert BestAt(totals, i0, first);
    forall m | Agreed(totals, m) ensures m == first {
      AgreedOnce(totals, m, first);
    }
  }

  lemma {:induction false} AgreedOnce(totals: seq<Total>, m: Money, n: Money)
    requires Agreed(totals, m) && Agreed(totals, n)
    ensures m == n
  {
    var i :| BestAt(totals, i, m);
    var k :| BestAt(totals, k, n);
    assert totals[i].priority.value <= totals[k].priority.value <= totals[i].priority.value;
  }

  /** Reordering the totals cannot change what they agree on. */
  lemma {:induction false} AgreedReordered(a: seq<Total>, b: seq<Total>, m: Money)
    requires Permuted(a, b) && Agreed(a, m)
    ensures Agreed(b, m)
  {
    PermutedBasics(a, b);
    var i :| BestAt(a, i, m);
    assert a[i] in b;
    var k :| 0 <= k < |b| && b[k] == a[i];
    forall j | 0 <= j < |b| && IsCandidate(b[j])
      ensures b[k].priority.value <= b[j].priority.value
      ensures b[k].priority.value == b[j].priority.value ==> b[j].amount.value == m
    {
      assert b[j] in b;
      var n :| 0 <= n < |a| && a[n] == b[j];
    }
    assert BestAt(b, k, m);
  }

  /**
   * One more total: of a worse class it changes nothing, of a better one it is the
   * subtotal, and of the same class it must show the same amount.
   */
  lemma {:induction false} OneMoreTotal(totals: seq<Total>, i: nat, m: Money, priority: nat, n: Money)
    requires BestAt(totals, i, m)
    ensures var best, next := totals[i].priority.value, totals + [Total(Some(priority), Some(n))];
      && (priority > best ==> Agreed(next, m))
      && (priority < best ==> Agreed(next, n))
      && (priority == best ==> if m == n then Agreed(next, m) else forall x :: !Agreed(next, x))
  {
    var best, next := totals[i].priority.value, totals + [Total(Some(priority), Some(n))];
    assert forall j :: 0 <= j < |totals| ==> next[j] == totals[j];
    if priority < best {
      assert BestAt(next, |totals|, n);
    } else if priority > best || m == n {
      assert BestAt(next, i, m);
    } else {
      forall x, k ensures !BestAt(next, k, x) {
        assert next[i] == totals[i] && next[|totals|] == Total(Some(priority), Some(n));
      }
    }
  }

  /** A total of no class, or that shows no amount, changes nothing. */
  lemma {:induction false} OtherTotal(totals: seq<Total>, t: Total, m: Money)
    requires t.priority.None? || t.amount.None?
    ensures Agreed(totals + [t], m) <==> Agreed(totals, m)
  {
    var next := totals + [t];
    assert forall j :: 0 <= j < |totals| ==> next[j] == totals[j];
    if i :| BestAt(totals, i, m) {
      assert BestAt(next, i, m);
    }
    if i :| BestAt(next, i, m) {
      assert BestAt(totals, i, m);
    }
  }

  // ----- What counts, what blocks

  /** The immediate discount an offer contributes. */
  function DiscountOf(o: Offer): Option<Money> {
    if o.kind.FIXED_DISCOUNT? && o.applicable.Some? then o.immediateDiscount else None
  }

  function BenefitOf(m: Membership): Option<Money> {
    if m.eligible == Some(true) then m.benefit else None
  }

  function AmountOf(f: Fee): Option<Money> {
    if f.known && f.applicable.Some? then f.amount else None
  }

  function DeferredOf(o: Offer): Option<Money> {
    if o.kind.CASHBACK? || o.kind.WALLET_CREDIT? then o.deferredValue else None
  }

  /** The offer's unknown could change the cost. */
  ghost predicate OfferBlocks(o: Offer) {
    match o.kind
    case UNKNOWN_OFFER => true
    case FIXED_DISCOUNT => o.applicable.None? || o.immediateDiscount.None?
    case PERCENTAGE_DISCOUNT => o.applicable.None?
    case _ => false
  }

  ghost predicate FeeBlocks(f: Fee) { !f.known || f.applicable.None? || f.amount.None? }

  ghost predicate MembershipBlocks(m: Membership) {
    m.eligible.None? || (m.eligible == Some(true) && m.benefit.None?)
  }

  /** `_offer_state`. */
  function OfferState(o: Offer): (seq<string>, bool) {
    if o.kind.UNKNOWN_OFFER? then (["offer:" + o.reference + ":unresolved"], true)
    else if o.kind.FIXED_DISCOUNT? && (o.applicable.None? || o.immediateDiscount.None?) then
      (["offer:" + o.reference + ":immediate_discount"], true)
    else if o.kind.CASHBACK? || o.kind.WALLET_CREDIT? then
      if o.deferredValue.None? then (["offer:" + o.reference + ":deferred_value"], false) else ([], false)
    else if o.applicable.None? then (["offer:" + o.reference + ":unresolved"], true)
    else ([], false)
  }

  /** `_fee_state`. */
  function FeeState(f: Fee): (seq<string>, bool) {
    if !f.known || f.applicable.None? then (["fee:" + f.reference + ":unresolved"], true)
    else if f.amount.None? then (["fee:" + f.reference + ":fee_amount"], true)
    else ([], false)
  }

  /** `_membership_state`. */
  function MembershipState(m: Membership): (seq<string>, bool) {
    if m.eligible.None? then (["membership:" + m.reference + ":unresolved"], true)
    else if m.eligible == Some(true) && m.benefit.None? then (["membership:" + m.reference + ":benefit_value"], true)
    else ([], false)
  }

  ghost predicate Blocked(c: Checkout) {
    || (exists o :: o in c.offers && OfferBlocks(o))
    || (exists f :: f in c.fees && FeeBlocks(f))
    || (exists m :: m in c.memberships && MembershipBlocks(m))
  }

  /** An offer whose deferred value is not known; it blocks nothing. */
  ghost predicate DeferredUnknown(o: Offer) { (o.kind.CASHBACK? || o.kind.WALLET_CREDIT?) && o.deferredValue.None? }

  ghost predicate NoneOf<T(!new)>(xs: seq<T>, p: T -> bool) { forall i :: 0 <= i < |xs| ==> !p(xs[i]) }

  lemma {:induction false} NoneSnoc<T(!new)>(xs: seq<T>, i: nat, p: T -> bool)
    requires i < |xs|
    ensures NoneOf(xs[..i + 1], p) <==> NoneOf(xs[..i], p) && !p(xs[i])
  {
    assert xs[..i + 1] == xs[..i] + [xs[i]];
    if NoneOf(xs[..i + 1], p) {
      assert forall k :: 0 <= k < i ==> xs[..i + 1][k] == xs[..i][k];
      assert xs[..i + 1][i] == xs[i];
    }
  }

  /** The passes over one list: what it adds to the unknowns, and whether it blocks. */
  method CollectStates<T(!new)>(xs: seq<T>, state: T -> (seq<string>, bool)) returns (unknowns: seq<string>, blocking: bool)
    ensures blocking <==> !NoneOf(xs, (x: T) => state(x).1)
    ensures unknowns == [] <==> NoneOf(xs, (x: T) => state(x).0 != [])
  {
    ghost var blocks, shows := (x: T) => state(x).1, (x: T) => state(x).0 != [];
    unknowns, blocking := [], false;
    for i := 0 to |xs|
      invariant blocking <==> !NoneOf(xs[..i], blocks)
      invariant unknowns == [] <==> NoneOf(xs[..i], shows)
    {
      NoneSnoc(xs, i, blocks);
      NoneSnoc(xs, i, shows);
      unknowns := unknowns + state(xs[i]).0;
      blocking := blocking || state(xs[i]).1;
    }
    assert xs[..|xs|] == xs;
  }

  /** `UnknownPropagationPolicy.evaluate`: one pass over each list, collecting unknowns and the blocking flag. */
  method PropagateUnknowns(subtotal: Option<Money>, c: Checkout) returns (unknowns: seq<string>, blocking: bool)
    ensures blocking <==> subtotal.None? || Blocked(c)
    ensures unknowns == [] <==> subtotal.Some? && !Blocked(c) && forall o :: o in c.offers ==> !DeferredUnknown(o)
  {
    var offerUnknowns, offerBlocks := CollectStates(c.offers, OfferState);
    var feeUnknowns, feeBlocks := CollectStates(c.fees, FeeState);
    var membershipUnknowns, membershipBlocks := CollectStates(c.memberships, MembershipState);
    OffersState(c.offers);
    FeesState(c.fees);
    MembershipsState(c.memberships);
    unknowns := (if subtotal.None? then ["subtotal"] else []) + offerUnknowns + feeUnknowns + membershipUnknowns;
    blocking := subtotal.None? || offerBlocks || feeBlocks || membershipBlocks;
  }

  lemma {:induction false} OffersState(offers: seq<Offer>)
    ensures NoneOf(offers, (o: Offer) => OfferState(o).1) <==> forall o :: o in offers ==> !OfferBlocks(o)
    ensures NoneOf(offers, (o: Offer) => OfferState(o).0 != []) <==>
      forall o :: o in offers ==> !OfferBlocks(o) && !DeferredUnknown(o)
  {
    assert forall i :: 0 <= i < |offers| ==> offers[i] in offers;
  }

  lemma {:induction false} FeesState(fees: seq<Fee>)
    ensures NoneOf(fees, (f: Fee) => FeeState(f).1) <==> forall f :: f in fees ==> !FeeBlocks(f)
    ensures NoneOf(fees, (f: Fee) => FeeState(f).0 != []) <==> forall f :: f in fees ==> !FeeBlocks(f)
  {
    assert forall i :: 0 <= i < |fees| ==> fees[i] in fees;
  }

  lemma {:induction false} MembershipsState(memberships: seq<Membership>)
    ensures NoneOf(memberships, (m: Membership) => MembershipState(m).1) <==> forall m :: m in memberships ==> !MembershipBlocks(m)
    ensures NoneOf(memberships, (m: Membership) => MembershipState(m).0 != []) <==> forall m :: m in memberships ==> !MembershipBlocks(m)
  {
    assert forall i :: 0 <= i < |memberships| ==> memberships[i] in memberships;
  }

  // ----- Aggregation

  function Units(m: Option<Money>): int { if m.Some? then m.value.minorUnits else 0 }

  function MinorUnits(m: Money): int { m.minorUnits }

  /** The amounts of a list, in order, skipping absent ones. */
  function Present<T>(amount: T -> Option<Money>, xs: seq<T>): seq<Money> {
    if xs == [] then []
    else
      var n := |xs| - 1;
      Present(amount, xs[..n]) + if amount(xs[n]).Some? then [amount(xs[n]).value] else []
  }

  function Contribution<T>(amount: T -> Option<Money>): T -> int { (x: T) => Units(amount(x)) }

  lemma {:induction false} SumOne<T>(f: T -> int, x: T)
    ensures Sum(f, [x]) == f(x)
  {
    assert [x][1..] == [];
  }

  lemma {:induction false} PresentSum<T>(amount: T -> Option<Money>, xs: seq<T>)
    ensures Sum(MinorUnits, Present(amount, xs)) == Sum(Contribution(amount), xs)
  {
    if xs != [] {
      hide Sum;
      var n := |xs| - 1;
      PresentSum(amount, xs[..n]);
      assert xs == xs[..n] + [xs[n]];
      SumAppend(Contribution(amount), xs[..n], [xs[n]]);
      SumOne(Contribution(amount), xs[n]);
      if amount(xs[n]).Some? {
        SumAppend(MinorUnits, Present(amount, xs[..n]), [amount(xs[n]).value]);
        SumOne(MinorUnits, amount(xs[n]).value);
      } else {
        assert Present(amount, xs) == Present(amount, xs[..n]);
      }
    }
  }

  ghost predicate AllIn<T>(amount: T -> Option<Money>, xs: seq<T>, currency: string) {
    forall i :: 0 <= i < |xs| && amount(xs[i]).Some? ==> amount(xs[i]).value.currency == currency
  }

  lemma {:induction false} PresentCurrency<T>(amount: T -> Option<Money>, xs: seq<T>, currency: string)
    ensures (forall i :: 0 <= i < |Present(amount, xs)| ==> Present(amount, xs)[i].currency == currency) <==>
      AllIn(amount, xs, currency)
  {
    if xs != [] {
      var n := |xs| - 1;
      PresentCurrency(amount, xs[..n], currency);
      var front := Present(amount, xs[..n]);
      if AllIn(amount, xs, currency) {
        assert AllIn(amount, xs[..n], currency);
      } else if AllIn(amount, xs[..n], currency) {
        assert amount(xs[n]).Some?;
        assert Present(amount, xs)[|front|] == amount(xs[n]).value;
      } else {
        var i :| 0 <= i < |front| && front[i].currency != currency;
        assert Present(amount, xs)[i] == front[i];
      }
    }
  }

  /** The collecting loops. */
  method CollectDiscounts(offers: seq<Offer>, memberships: seq<Membership>) returns (discounts: seq<Money>)
    ensures discounts == Present(DiscountOf, offers) + Present(BenefitOf, memberships)
  {
    discounts := [];
    for i := 0 to |offers|
      invariant discounts == Present(DiscountOf, offers[..i])
    {
      assert offers[..i + 1][..i] == offers[..i];
      var offer := offers[i];
      if !(offer.kind.UNKNOWN_OFFER? || offer.applicable.None?) {
        if offer.kind.FIXED_DISCOUNT? && offer.immediateDiscount.Some? {
          discounts := discounts + [offer.immediateDiscount.value];
        }
      }
    }
    assert offers[..|offers|] == offers;
    for i := 0 to |memberships|
      invariant discounts == Present(DiscountOf, offers) + Present(BenefitOf, memberships[..i])
    {
      assert memberships[..i + 1][..i] == memberships[..i];
      var membership := memberships[i];
      if membership.eligible == Some(true) && membership.benefit.Some? {
        discounts := discounts + [membership.benefit.value];
      }
    }
    assert memberships[..|memberships|] == memberships;
  }

  method CollectFees(fees: seq<Fee>) returns (amounts: seq<Money>)
    ensures amounts == Present(AmountOf, fees)
  {
    amounts := [];
    for i := 0 to |fees|
      invariant amounts == Present(AmountOf, fees[..i])
    {
      assert fees[..i + 1][..i] == fees[..i];
      var fee := fees[i];
      if fee.known && fee.applicable.Some? && fee.amount.Some? {
        amounts := amounts + [fee.amount.value];
      }
    }
    assert fees[..|fees|] == fees;
  }

  method CollectDeferred(offers: seq<Offer>) returns (deferred: Option<Money>)
    ensures deferred == SumMoney(Present(DeferredOf, offers)) && DeferredSum(offers, deferred)
  {
    var values := [];
    for i := 0 to |offers|
      invariant values == Present(DeferredOf, offers[..i])
    {
      assert offers[..i + 1][..i] == offers[..i];
      var offer := offers[i];
      if (offer.kind.CASHBACK? || offer.kind.WALLET_CREDIT?) && offer.deferredValue.Some? {
        values := values + [offer.deferredValue.value];
      }
    }
    assert offers[..|offers|] == offers;
    deferred := SumMoney(values);
    DeferredIs(offers);
  }

  predicate Compatible(values: seq<Money>) {
    forall i :: 0 <= i < |values| ==> values[i].currency == values[0].currency
  }

  function SumMoney(values: seq<Money>): Option<Money> {
    if values == [] || !Compatible(values) then None
    else Some(Money(values[0].currency, Sum(MinorUnits, values)))
  }

  function CalculateCost(subtotal: Option<Money>, discounts: seq<Money>, fees: seq<Money>, blocking: bool): Option<Money> {
    if subtotal.None? then None
    else if blocking then None
    else if !Compatible([subtotal.value] + discounts + fees) then None
    else Some(Money(subtotal.value.currency,
                    subtotal.value.minorUnits - Sum(MinorUnits, discounts) + Sum(MinorUnits, fees)))
  }

  // ----- The composition

  /** All amounts that count are in `currency`. */
  ghost predicate OneCurrency(c: Checkout, currency: string) {
    AllIn(DiscountOf, c.offers, currency) && AllIn(BenefitOf, c.memberships, currency) && AllIn(AmountOf, c.fees, currency)
  }

  /** Subtotal, minus every fixed discount and eligible benefit, plus every fee, each counted once. */
  ghost function Payable(c: Checkout, subtotal: Money): Money {
    Money(subtotal.currency,
          subtotal.minorUnits - Sum(Contribution(DiscountOf), c.offers) - Sum(Contribution(BenefitOf), c.memberships)
          + Sum(Contribution(AmountOf), c.fees))
  }

  lemma {:induction false} CostIs(c: Checkout, subtotal: Money, discounts: seq<Money>, fees: seq<Money>)
    requires discounts == Present(DiscountOf, c.offers) + Present(BenefitOf, c.memberships)
    requires fees == Present(AmountOf, c.fees)
    ensures Compatible([subtotal] + discounts + fees) <==> OneCurrency(c, subtotal.currency)
    ensures subtotal.minorUnits - Sum(MinorUnits, discounts) + Sum(MinorUnits, fees) == Payable(c, subtotal).minorUnits
  {
    hide Present, Sum;
    var offers, memberships := Present(DiscountOf, c.offers), Present(BenefitOf, c.memberships);
    PresentSum(DiscountOf, c.offers);
    PresentSum(BenefitOf, c.memberships);
    PresentSum(AmountOf, c.fees);
    SumAppend(MinorUnits, offers, memberships);
    CompatibleParts(subtotal, offers, memberships, fees);
    PresentCurrency(DiscountOf, c.offers, subtotal.currency);
    PresentCurrency(BenefitOf, c.memberships, subtotal.currency);
    PresentCurrency(AmountOf, c.fees, subtotal.currency);
  }

  ghost predicate InCurrency(values: seq<Money>, currency: string) {
    forall i :: 0 <= i < |values| ==> values[i].currency == currency
  }

  lemma {:induction false} CompatibleParts(subtotal: Money, a: seq<Money>, b: seq<Money>, c: seq<Money>)
    ensures Compatible([subtotal] + (a + b) + c) <==>
      InCurrency(a, subtotal.currency) && InCurrency(b, subtotal.currency) && InCurrency(c, subtotal.currency)
  {
    var all := [subtotal] + (a + b) + c;
    assert forall i :: 0 <= i < |a| ==> all[1 + i] == a[i];
    assert forall i :: 0 <= i < |b| ==> all[1 + |a| + i] == b[i];
    assert forall i :: 0 <= i < |c| ==> all[1 + |a| + |b| + i] == c[i];
  }

  /**
   * `evaluate`: the cost is known exactly when the totals agree on a subtotal,
   * nothing blocks and every amount is in the subtotal's currency, and it is then
   * what is payable. Whether anything is unknown at all is a stricter question.
   */
  method EvaluateCost(c: Checkout) returns (r: CostResult)
    ensures forall m :: r.subtotal == Some(m) <==> Agreed(c.totals, m)
    ensures r.cost.Some? <==> r.subtotal.Some? && !Blocked(c) && OneCurrency(c, r.subtotal.value.currency)
    ensures r.cost.Some? ==> r.cost.value == Payable(c, r.subtotal.value)
    ensures r.unknowns == [] <==> r.subtotal.Some? && !Blocked(c) && forall o :: o in c.offers ==> !DeferredUnknown(o)
    ensures r.deferred == SumMoney(Present(DeferredOf, c.offers))
    ensures r.discounts == Present(DiscountOf, c.offers) + Present(BenefitOf, c.memberships)
    ensures r.fees == Present(AmountOf, c.fees)
  {
    hide Agreed, Blocked, Present, Sum, OneCurrency, Payable, Compatible;
    var subtotal := ExtractSubtotal(c.totals);
    var discounts := CollectDiscounts(c.offers, c.memberships);
    var fees := CollectFees(c.fees);
    var deferred := CollectDeferred(c.offers);
    var unknowns, blocking := PropagateUnknowns(subtotal, c);
    if subtotal.Some? {
      CostIs(c, subtotal.value, discounts, fees);
      assert Payable(c, subtotal.value).currency == subtotal.value.currency by { PayableCurrency(c, subtotal.value); }
    }
    var cost := CalculateCost(subtotal, discounts, fees, blocking);
    return CostResult(subtotal, discounts, fees, cost, deferred, unknowns);
  }

  lemma {:induction false} PayableCurrency(c: Checkout, subtotal: Money)
    ensures Payable(c, subtotal).currency == subtotal.currency
  {
  }

  // ----- What the cost depends on

  /** The cost as a function of the checkout, through the contract of `evaluate`. */
  ghost predicate CostIsKnown(c: Checkout, cost: Money) {
    exists m :: Agreed(c.totals, m) && !Blocked(c) && OneCurrency(c, m.currency) && cost == Payable(c, m)
  }

  ghost predicate Reordered(a: Checkout, b: Checkout) {
    && Permuted(a.totals, b.totals) && Permuted(a.offers, b.offers)
    && Permuted(a.fees, b.fees) && Permuted(a.memberships, b.memberships)
  }

  lemma {:induction false} AllInReordered<T>(amount: T -> Option<Money>, a: seq<T>, b: seq<T>, currency: string)
    requires Permuted(a, b) && AllIn(amount, a, currency)
    ensures AllIn(amount, b, currency)
  {
    PermutedBasics(b, a);
    forall i | 0 <= i < |b| && amount(b[i]).Some? ensures amount(b[i]).value.currency == currency {
      var j :| 0 <= j < |a| && a[j] == b[i];
    }
  }

  /** The order of totals, offers, fees and memberships changes neither whether the cost is known nor the cost. */
  lemma {:induction false} CostIgnoresOrder(a: Checkout, b: Checkout, cost: Money)
    requires Reordered(a, b) && CostIsKnown(a, cost)
    ensures CostIsKnown(b, cost)
  {
    hide Agreed, Sum, AllIn;
    var m :| Agreed(a.totals, m) && !Blocked(a) && OneCurrency(a, m.currency) && cost == Payable(a, m);
    AgreedReordered(a.totals, b.totals, m);
    PermutedBasics(a.offers, b.offers);
    PermutedBasics(a.fees, b.fees);
    PermutedBasics(a.memberships, b.memberships);
    AllInReordered(DiscountOf, a.offers, b.offers, m.currency);
    AllInReordered(BenefitOf, a.memberships, b.memberships, m.currency);
    AllInReordered(AmountOf, a.fees, b.fees, m.currency);
    SumPermuted(Contribution(DiscountOf), a.offers, b.offers);
    SumPermuted(Contribution(BenefitOf), a.memberships, b.memberships);
    SumPermuted(Contribution(AmountOf), a.fees, b.fees);
    assert !Blocked(b) && OneCurrency(b, m.currency) && cost == Payable(b, m);
  }

  /** The same offers up to what they pay back later. */
  ghost predicate SameUpToDeferred(a: Checkout, b: Checkout) {
    && a.totals == b.totals && a.fees == b.fees && a.memberships == b.memberships
    && |a.offers| == |b.offers|
    && forall i :: 0 <= i < |a.offers| ==> a.offers[i] == b.offers[i].(deferredValue := a.offers[i].deferredValue)
  }

  lemma {:induction false} DiscountsIgnoreDeferred(a: seq<Offer>, b: seq<Offer>)
    requires |a| == |b| && forall i :: 0 <= i < |a| ==> a[i] == b[i].(deferredValue := a[i].deferredValue)
    ensures Sum(Contribution(DiscountOf), a) == Sum(Contribution(DiscountOf), b)
  {
    if a != [] {
      assert DiscountOf(a[0]) == DiscountOf(b[0]);
      DiscountsIgnoreDeferred(a[1..], b[1..]);
      assert Sum(Contribution(DiscountOf), a) == Contribution(DiscountOf)(a[0]) + Sum(Contribution(DiscountOf), a[1..]);
      assert Sum(Contribution(DiscountOf), b) == Contribution(DiscountOf)(b[0]) + Sum(Contribution(DiscountOf), b[1..]);
    }
  }

  /** Deferred values, known or unknown, never enter the cost. */
  lemma {:induction false} CostIgnoresDeferred(a: Checkout, b: Checkout, cost: Money)
    requires SameUpToDeferred(a, b) && CostIsKnown(a, cost)
    ensures CostIsKnown(b, cost)
  {
    hide Agreed, Sum;
    var m :| Agreed(a.totals, m) && !Blocked(a) && OneCurrency(a, m.currency) && cost == Payable(a, m);
    DiscountsIgnoreDeferred(a.offers, b.offers);
    forall o | o in b.offers ensures !OfferBlocks(o) {
      var i :| 0 <= i < |b.offers| && b.offers[i] == o;
      assert a.offers[i] in a.offers;
    }
    assert AllIn(DiscountOf, b.offers, m.currency) by {
      forall i | 0 <= i < |b.offers| && DiscountOf(b.offers[i]).Some?
        ensures DiscountOf(b.offers[i]).value.currency == m.currency
      {
        assert DiscountOf(a.offers[i]) == DiscountOf(b.offers[i]);
      }
    }
    assert !Blocked(b) && OneCurrency(b, m.currency) && cost == Payable(b, m);
  }

  /** The cost, once known, is one amount. */
  lemma {:induction false} CostIsUnique(c: Checkout, x: Money, y: Money)
    requires CostIsKnown(c, x) && CostIsKnown(c, y)
    ensures x == y
  {
    hide Blocked, OneCurrency, Payable;
    var m :| Agreed(c.totals, m) && !Blocked(c) && OneCurrency(c, m.currency) && x == Payable(c, m);
    var n :| Agreed(c.totals, n) && !Blocked(c) && OneCurrency(c, n.currency) && y == Payable(c, n);
    AgreedOnce(c.totals, m, n);
  }

  // ----- What one more entry does to a known cost

  ghost predicate NoCost(c: Checkout) { forall m :: !CostIsKnown(c, m) }

  /** The cost is what it was plus `change`, if `m` is in its currency; in another currency it is no longer known. */
  ghost predicate Shifts(c: Checkout, cost: Money, m: Money, change: int) {
    if m.currency == cost.currency then CostIsKnown(c, Money(cost.currency, cost.minorUnits + change)) else NoCost(c)
  }

  lemma {:induction false} AllInSnoc<T>(amount: T -> Option<Money>, xs: seq<T>, x: T, currency: string)
    ensures AllIn(amount, xs + [x], currency) <==> AllIn(amount, xs, currency) && (amount(x).Some? ==> amount(x).value.currency == currency)
  {
    var all := xs + [x];
    assert all[|xs|] == x && forall i :: 0 <= i < |xs| ==> all[i] == xs[i];
  }

  lemma {:induction false} SumSnoc<T>(f: T -> int, xs: seq<T>, x: T)
    ensures Sum(f, xs + [x]) == Sum(f, xs) + f(x)
  {
    SumAppend(f, xs, [x]);
    SumOne(f, x);
  }

  /** Two checkouts with one subtotal, the second neither blocked nor mixed where the first is not: their costs are payable. */
  lemma {:induction false} Reprice(c: Checkout, d: Checkout, cost: Money, change: int)
    requires CostIsKnown(c, cost) && d.totals == c.totals
    requires forall m :: Payable(d, m).minorUnits == Payable(c, m).minorUnits + change
    requires !Blocked(d) && OneCurrency(d, cost.currency)
    ensures CostIsKnown(d, Money(cost.currency, cost.minorUnits + change))
  {
    hide Agreed, Blocked, OneCurrency, Sum;
    var m :| Agreed(c.totals, m) && !Blocked(c) && OneCurrency(c, m.currency) && cost == Payable(c, m);
    assert Payable(d, m) == Money(cost.currency, cost.minorUnits + change);
  }

  lemma {:induction false} Unpriced(c: Checkout, d: Checkout, cost: Money)
    requires CostIsKnown(c, cost) && d.totals == c.totals
    requires Blocked(d) || !OneCurrency(d, cost.currency)
    ensures NoCost(d)
  {
    hide Agreed, Blocked, OneCurrency, Sum;
    var m :| Agreed(c.totals, m) && !Blocked(c) && OneCurrency(c, m.currency) && cost == Payable(c, m);
    forall x | CostIsKnown(d, x) ensures false {
      var n :| Agreed(d.totals, n) && !Blocked(d) && OneCurrency(d, n.currency) && x == Payable(d, n);
      AgreedOnce(c.totals, m, n);
    }
  }

  lemma {:induction false} KnownParts(c: Checkout, cost: Money)
    requires CostIsKnown(c, cost)
    ensures !Blocked(c) && OneCurrency(c, cost.currency)
  {
    hide Agreed, Blocked, OneCurrency, Sum;
  }

  /** A fee is added when its type, applicability and amount are known; otherwise the cost is not known. */
  lemma {:induction false} OneMoreFee(c: Checkout, f: Fee, cost: Money)
    requires CostIsKnown(c, cost)
    ensures var d := c.(fees := c.fees + [f]);
      if f.known && f.applicable.Some? && f.amount.Some? then Shifts(d, cost, f.amount.value, f.amount.value.minorUnits) else NoCost(d)
  {
    hide Agreed, Sum, AllIn, CostIsKnown, NoCost, OfferBlocks, MembershipBlocks;
    var d := c.(fees := c.fees + [f]);
    KnownParts(c, cost);
    AllInSnoc(AmountOf, c.fees, f, cost.currency);
    SumSnoc(Contribution(AmountOf), c.fees, f);
    assert f in d.fees && forall g :: g in d.fees ==> g in c.fees || g == f;
    if FeeBlocks(f) || f.amount.value.currency != cost.currency {
      Unpriced(c, d, cost);
    } else {
      Reprice(c, d, cost, f.amount.value.minorUnits);
    }
  }

  /** An eligible benefit is taken off, an ineligible one is not; with either unknown the cost is not known. */
  lemma {:induction false} OneMoreMembership(c: Checkout, m: Membership, cost: Money)
    requires CostIsKnown(c, cost)
    ensures var d := c.(memberships := c.memberships + [m]);
      if m.eligible == Some(false) then CostIsKnown(d, cost)
      else if m.eligible == Some(true) && m.benefit.Some? then Shifts(d, cost, m.benefit.value, -m.benefit.value.minorUnits)
      else NoCost(d)
  {
    hide Agreed, Sum, AllIn, CostIsKnown, NoCost, OfferBlocks, FeeBlocks;
    var d := c.(memberships := c.memberships + [m]);
    KnownParts(c, cost);
    AllInSnoc(BenefitOf, c.memberships, m, cost.currency);
    SumSnoc(Contribution(BenefitOf), c.memberships, m);
    assert m in d.memberships && forall n :: n in d.memberships ==> n in c.memberships || n == m;
    assert m.eligible.None? || m.eligible.value == true || m.eligible.value == false;
    if m.eligible == Some(false) {
      Reprice(c, d, cost, 0);
    } else if MembershipBlocks(m) || m.benefit.value.currency != cost.currency {
      Unpriced(c, d, cost);
    } else {
      Reprice(c, d, cost, -m.benefit.value.minorUnits);
    }
  }

  /** A fixed discount is taken off when its applicability and amount are known; percentages of known applicability and later rewards change nothing. */
  lemma {:induction false} OneMoreOffer(c: Checkout, o: Offer, cost: Money)
    requires CostIsKnown(c, cost)
    ensures var d := c.(offers := c.offers + [o]);
      match o.kind
      case FIXED_DISCOUNT =>
        if o.applicable.Some? && o.immediateDiscount.Some?
        then Shifts(d, cost, o.immediateDiscount.value, -o.immediateDiscount.value.minorUnits) else NoCost(d)
      case PERCENTAGE_DISCOUNT => if o.applicable.Some? then CostIsKnown(d, cost) else NoCost(d)
      case CASHBACK => CostIsKnown(d, cost)
      case WALLET_CREDIT => CostIsKnown(d, cost)
      case UNKNOWN_OFFER => NoCost(d)
  {
    hide Agreed, Sum, AllIn, CostIsKnown, NoCost, MembershipBlocks, FeeBlocks;
    var d := c.(offers := c.offers + [o]);
    KnownParts(c, cost);
    AllInSnoc(DiscountOf, c.offers, o, cost.currency);
    SumSnoc(Contribution(DiscountOf), c.offers, o);
    assert o in d.offers && forall n :: n in d.offers ==> n in c.offers || n == o;
    if OfferBlocks(o) {
      Unpriced(c, d, cost);
    } else if !o.kind.FIXED_DISCOUNT? {
      Reprice(c, d, cost, 0);
    } else if o.immediateDiscount.value.currency != cost.currency {
      Unpriced(c, d, cost);
    } else {
      Reprice(c, d, cost, -o.immediateDiscount.value.minorUnits);
    }
  }

  // ----- The deferred value

  predicate PaysBack(o: Offer) { (o.kind.CASHBACK? || o.kind.WALLET_CREDIT?) && o.deferredValue.Some? }

  function BackUnits(o: Offer): int { if PaysBack(o) then o.deferredValue.value.minorUnits else 0 }

  /** It is the sum of all cashback and wallet credit of known value, if there is any and it is all in one currency. */
  ghost predicate DeferredSum(offers: seq<Offer>, deferred: Option<Money>) {
    && (deferred.Some? <==>
          (exists o :: o in offers && PaysBack(o))
          && (forall o, p :: o in offers && p in offers && PaysBack(o) && PaysBack(p) ==>
                o.deferredValue.value.currency == p.deferredValue.value.currency))
    && (deferred.Some? ==> deferred.value.minorUnits == Sum(BackUnits, offers))
    && (deferred.Some? ==> forall o :: o in offers && PaysBack(o) ==> o.deferredValue.value.currency == deferred.value.currency)
  }

  lemma {:induction false} SameSum<T>(f: T -> int, g: T -> int, xs: seq<T>)
    requires forall x :: x in xs ==> f(x) == g(x)
    ensures Sum(f, xs) == Sum(g, xs)
  {
    if xs != [] {
      SameSum(f, g, xs[1..]);
    }
  }

  /** The sum has the members' own currency, and is there exactly when some member is and all agree. */
  lemma {:induction false} SumMoneyIs(values: seq<Money>)
    ensures SumMoney(values).Some? <==> values != [] && forall m, n :: m in values && n in values ==> m.currency == n.currency
    ensures SumMoney(values).Some? ==> forall m :: m in values ==> m.currency == SumMoney(values).value.currency
  {
    if values != [] {
      assert values[0] in values;
      if !Compatible(values) {
        var i :| 0 <= i < |values| && values[i].currency != values[0].currency;
        assert values[i] in values;
      }
    }
  }

  lemma {:induction false} PresentMembers(offers: seq<Offer>, m: Money)
    ensures m in Present(DeferredOf, offers) <==> exists o :: o in offers && PaysBack(o) && o.deferredValue.value == m
  {
    if offers != [] {
      var n := |offers| - 1;
      PresentMembers(offers[..n], m);
      assert offers == offers[..n] + [offers[n]];
    }
  }

  lemma {:induction false} DeferredIs(offers: seq<Offer>)
    ensures DeferredSum(offers, SumMoney(Present(DeferredOf, offers)))
  {
    hide Present, Sum;
    var values := Present(DeferredOf, offers);
    PresentSum(DeferredOf, offers);
    forall o | o in offers ensures Contribution(DeferredOf)(o) == BackUnits(o) {
      assert Contribution(DeferredOf)(o) == Units(DeferredOf(o));
    }
    SameSum(Contribution(DeferredOf), BackUnits, offers);
    forall m ensures m in values <==> exists o :: o in offers && PaysBack(o) && o.deferredValue.value == m {
      PresentMembers(offers, m);
    }
    SumMoneyIs(values);
    forall o | o in offers && PaysBack(o) ensures o.deferredValue.value in values {
    }
    if values != [] {
      assert values[0] in values;
    }
  }

  // ----- Fees and discounts that do not apply

  predicate FeeApplies(f: Fee) { !InapplicableFee(f) }

  predicate InapplicableFee(f: Fee) { f.known && f.applicable == Some(false) }

  predicate DiscountApplies(o: Offer) { !InapplicableDiscount(o) }

  predicate InapplicableDiscount(o: Offer) { o.kind.FIXED_DISCOUNT? && o.applicable == Some(false) }

  function WithoutFees(c: Checkout): Checkout { c.(fees := Filter(FeeApplies, c.fees)) }

  function WithoutDiscounts(c: Checkout): Checkout { c.(offers := Filter(DiscountApplies, c.offers)) }

  lemma {:induction false} SumSplit<T>(f: T -> int, p: T -> bool, q: T -> bool, xs: seq<T>)
    requires forall i :: 0 <= i < |xs| ==> q(xs[i]) == !p(xs[i])
    ensures Sum(f, xs) == Sum(f, Filter(p, xs)) + Sum(f, Filter(q, xs))
  {
    if xs != [] {
      SumSplit(f, p, q, xs[1..]);
      SumAppend(f, [xs[0]], Filter(p, xs[1..]));
      SumAppend(f, [xs[0]], Filter(q, xs[1..]));
      assert [xs[0]][1..] == [];
    }
  }

  lemma {:induction false} AllInSplit<T>(amount: T -> Option<Money>, p: T -> bool, xs: seq<T>, currency: string)
    ensures AllIn(amount, xs, currency) <==>
      AllIn(amount, Filter(p, xs), currency)
      && (forall i :: 0 <= i < |xs| && !p(xs[i]) && amount(xs[i]).Some? ==> amount(xs[i]).value.currency == currency)
  {
    var kept := Filter(p, xs);
    if AllIn(amount, xs, currency) {
      forall i | 0 <= i < |kept| && amount(kept[i]).Some? ensures amount(kept[i]).value.currency == currency {
        var j :| 0 <= j < |xs| && xs[j] == kept[i];
      }
    } else {
      var i :| 0 <= i < |xs| && amount(xs[i]).Some? && amount(xs[i]).value.currency != currency;
      if p(xs[i]) {
        var j :| 0 <= j < |kept| && kept[j] == xs[i];
      }
    }
  }

  /** Every amount of the fees that do not apply is shown, in the currency of the rest. */
  ghost predicate InapplicableFeesIn(c: Checkout, currency: string) {
    forall i :: 0 <= i < |c.fees| && InapplicableFee(c.fees[i]) ==>
      c.fees[i].amount.Some? && c.fees[i].amount.value.currency == currency
  }

  ghost predicate InapplicableDiscountsIn(c: Checkout, currency: string) {
    forall i :: 0 <= i < |c.offers| && InapplicableDiscount(c.offers[i]) ==>
      c.offers[i].immediateDiscount.Some? && c.offers[i].immediateDiscount.value.currency == currency
  }

  lemma {:induction false} FeesBlockSplit(fees: seq<Fee>)
    ensures (forall f :: f in fees ==> !FeeBlocks(f)) <==>
      (forall f :: f in Filter(FeeApplies, fees) ==> !FeeBlocks(f))
      && (forall i :: 0 <= i < |fees| && InapplicableFee(fees[i]) ==> fees[i].amount.Some?)
  {
    assert forall i :: 0 <= i < |fees| ==> fees[i] in fees;
  }

  lemma {:induction false} FeesSplit(c: Checkout, m: Money)
    ensures !Blocked(c) && OneCurrency(c, m.currency) <==>
      !Blocked(WithoutFees(c)) && OneCurrency(WithoutFees(c), m.currency) && InapplicableFeesIn(c, m.currency)
    ensures Payable(c, m).minorUnits == Payable(WithoutFees(c), m).minorUnits
      + Sum(Contribution(AmountOf), Filter(InapplicableFee, c.fees))
  {
    hide Sum, Filter, OfferBlocks, MembershipBlocks, FeeBlocks, AllIn;
    SumSplit(Contribution(AmountOf), FeeApplies, InapplicableFee, c.fees);
    AllInSplit(AmountOf, FeeApplies, c.fees, m.currency);
    FeesBlockSplit(c.fees);
  }

  /**
   * A fee that does not apply is charged all the same. The cost is what it would be
   * without those fees, plus their amounts; so the two are equal exactly when these
   * amounts add up to nothing.
   */
  lemma {:induction false} InapplicableFeesAreCharged(c: Checkout, cost: Money)
    requires CostIsKnown(c, cost)
    ensures var charged := Sum(Contribution(AmountOf), Filter(InapplicableFee, c.fees));
      && CostIsKnown(WithoutFees(c), Money(cost.currency, cost.minorUnits - charged))
      && (CostIsKnown(WithoutFees(c), cost) <==> charged == 0)
  {
    hide Agreed, Blocked, OneCurrency, InapplicableFeesIn, Sum;
    var m :| Agreed(c.totals, m) && !Blocked(c) && OneCurrency(c, m.currency) && cost == Payable(c, m);
    FeesSplit(c, m);
    var charged := Sum(Contribution(AmountOf), Filter(InapplicableFee, c.fees));
    var less := Money(cost.currency, cost.minorUnits - charged);
    assert less == Payable(WithoutFees(c), m);
    if CostIsKnown(WithoutFees(c), cost) {
      CostIsUnique(WithoutFees(c), cost, less);
    }
  }

  /**
   * A fee that does not apply can also make the cost unknown: where it is known
   * without those fees, it is known with them exactly when each shows an amount in
   * the currency of the rest.
   */
  lemma {:induction false} InapplicableFeesCanHideTheCost(c: Checkout, cost: Money)
    requires CostIsKnown(WithoutFees(c), cost)
    ensures (exists m :: CostIsKnown(c, m)) <==> InapplicableFeesIn(c, cost.currency)
  {
    hide Agreed, Blocked, OneCurrency, InapplicableFeesIn, Sum;
    var w := WithoutFees(c);
    var m :| Agreed(w.totals, m) && !Blocked(w) && OneCurrency(w, m.currency) && cost == Payable(w, m);
    FeesSplit(c, m);
    if InapplicableFeesIn(c, cost.currency) {
      assert CostIsKnown(c, Payable(c, m));
    }
    if x :| CostIsKnown(c, x) {
      var n :| Agreed(c.totals, n) && !Blocked(c) && OneCurrency(c, n.currency) && x == Payable(c, n);
      AgreedOnce(c.totals, m, n);
    }
  }

  lemma {:induction false} DiscountsBlockSplit(offers: seq<Offer>)
    ensures (forall o :: o in offers ==> !OfferBlocks(o)) <==>
      (forall o :: o in Filter(DiscountApplies, offers) ==> !OfferBlocks(o))
      && (forall i :: 0 <= i < |offers| && InapplicableDiscount(offers[i]) ==> offers[i].immediateDiscount.Some?)
  {
    assert forall i :: 0 <= i < |offers| ==> offers[i] in offers;
  }

  lemma {:induction false} DiscountsSplit(c: Checkout, m: Money)
    ensures !Blocked(c) && OneCurrency(c, m.currency) <==>
      !Blocked(WithoutDiscounts(c)) && OneCurrency(WithoutDiscounts(c), m.currency) && InapplicableDiscountsIn(c, m.currency)
    ensures Payable(c, m).minorUnits == Payable(WithoutDiscounts(c), m).minorUnits
      - Sum(Contribution(DiscountOf), Filter(InapplicableDiscount, c.offers))
  {
    hide Sum, Filter, OfferBlocks, MembershipBlocks, FeeBlocks, AllIn;
    SumSplit(Contribution(DiscountOf), DiscountApplies, InapplicableDiscount, c.offers);
    AllInSplit(DiscountOf, DiscountApplies, c.offers, m.currency);
    DiscountsBlockSplit(c.offers);
  }

  /** A fixed discount that does not apply is taken off all the same, and can hide the cost in the same way. */
  lemma {:induction false} InapplicableDiscountsAreTaken(c: Checkout, cost: Money)
    requires CostIsKnown(c, cost)
    ensures var taken := Sum(Contribution(DiscountOf), Filter(InapplicableDiscount, c.offers));
      && CostIsKnown(WithoutDiscounts(c), Money(cost.currency, cost.minorUnits + taken))
      && (CostIsKnown(WithoutDiscounts(c), cost) <==> taken == 0)
  {
    hide Agreed, Blocked, OneCurrency, InapplicableDiscountsIn, Sum;
    var m :| Agreed(c.totals, m) && !Blocked(c) && OneCurrency(c, m.currency) && cost == Payable(c, m);
    DiscountsSplit(c, m);
    var taken := Sum(Contribution(DiscountOf), Filter(InapplicableDiscount, c.offers));
    var more := Money(cost.currency, cost.minorUnits + taken);
    assert more == Payable(WithoutDiscounts(c), m);
    if CostIsKnown(WithoutDiscounts(c), cost) {
      CostIsUnique(WithoutDiscounts(c), cost, more);
    }
  }

  lemma {:induction false} InapplicableDiscountsCanHideTheCost(c: Checkout, cost: Money)
    requires CostIsKnown(WithoutDiscounts(c), cost)
    ensures (exists m :: CostIsKnown(c, m)) <==> InapplicableDiscountsIn(c, cost.currency)
  {
    hide Agreed, Blocked, OneCurrency, InapplicableDiscountsIn, Sum;
    var w := WithoutDiscounts(c);
    var m :| Agreed(w.totals, m) && !Blocked(w) && OneCurrency(w, m.currency) && cost == Payable(w, m);
    DiscountsSplit(c, m);
    if InapplicableDiscountsIn(c, cost.currency) {
      assert CostIsKnown(c, Payable(c, m));
    }
    if x :| CostIsKnown(c, x) {
      var n :| Agreed(c.totals, n) && !Blocked(c) && OneCurrency(c, n.currency) && x == Payable(c, n);
      AgreedOnce(c.totals, m, n);
    }
  }

  // ----- Checkouts on which the two promises fail

  const SUBTOTAL := Total(Some(0), Some(Money("INR", 100)))

  lemma {:induction false} SubtotalAgreed()
    ensures Agreed([SUBTOTAL], Money("INR", 100))
  {
    assert BestAt([SUBTOTAL], 0, Money("INR", 100));
  }

  /** A fee of 50 that does not apply makes a subtotal of 100 cost 150. */
  lemma {:induction false} InapplicableFeeIsCharged()
    ensures var c := Checkout([SUBTOTAL], [], [Fee("fee", true, Some(false), Some(Money("INR", 50)))], []);
      CostIsKnown(c, Money("INR", 150)) && CostIsKnown(WithoutFees(c), Money("INR", 100))
  {
    hide Agreed;
    SubtotalAgreed();
    var f := Fee("fee", true, Some(false), Some(Money("INR", 50)));
    var c, m := Checkout([SUBTOTAL], [], [f], []), Money("INR", 100);
    SumOne(Contribution(AmountOf), f);
    assert Filter(FeeApplies, [f]) == [] by { assert [f][1..] == []; }
    assert !Blocked(c) && OneCurrency(c, m.currency) && Money("INR", 150) == Payable(c, m);
    assert !Blocked(WithoutFees(c)) && OneCurrency(WithoutFees(c), m.currency) && m == Payable(WithoutFees(c), m);
  }

  /** The cost is known, and so is every cashback and wallet credit. */
  ghost predicate CostSettled(c: Checkout) {
    (exists m :: CostIsKnown(c, m)) && forall o :: o in c.offers ==> !DeferredUnknown(o)
  }

  const CASHBACK_CHECKOUT := Checkout([SUBTOTAL], [Offer("cashback", CASHBACK, Some(true), None, None)], [], [])

  /** A cashback of unknown value leaves the cost known, and yet the evaluation has an unknown. */
  lemma {:induction false} UnknownCashbackUnsettles()
    ensures CostIsKnown(CASHBACK_CHECKOUT, Money("INR", 100)) && !CostSettled(CASHBACK_CHECKOUT)
    ensures EvaluatedFrom(Evaluation("evaluation", Some(Money("INR", 100)), ["offer:cashback:deferred_value"]), CASHBACK_CHECKOUT)
  {
    hide Agreed;
    SubtotalAgreed();
    var o := Offer("cashback", CASHBACK, Some(true), None, None);
    var c, m := Checkout([SUBTOTAL], [o], [], []), Money("INR", 100);
    SumOne(Contribution(DiscountOf), o);
    assert !Blocked(c) && OneCurrency(c, m.currency) && m == Payable(c, m);
    assert o in c.offers && DeferredUnknown(o);
  }

  // ----- What planning is given

  /** The evaluation of this checkout: its cost where that is known, and unknowns exactly where some value is. */
  ghost predicate EvaluatedFrom(e: Evaluation, c: Checkout) {
    && (e.cost.Some? <==> exists m :: CostIsKnown(c, m))
    && (e.cost.Some? ==> CostIsKnown(c, e.cost.value))
    && (e.unknowns == [] <==>
          (exists m :: Agreed(c.totals, m)) && !Blocked(c) && forall o :: o in c.offers ==> !DeferredUnknown(o))
  }

  /** It can back a feasible plan exactly when the checkout is settled: an unknown that cannot change the cost still counts. */
  lemma {:induction false} BacksIffSettled(e: Evaluation, c: Checkout)
    requires EvaluatedFrom(e, c)
    ensures CartOptimization.KnownCost(e) <==> CostSettled(c)
  {
    hide Blocked, OneCurrency, Payable, Agreed;
  }

  /** `evaluate_observation`, what planning attaches to a plan. */
  method EvaluateForPlan(id: string, c: Checkout) returns (e: Evaluation)
    ensures e.id == id && EvaluatedFrom(e, c)
    ensures CartOptimization.KnownCost(e) <==> CostSettled(c)
  {
    hide Agreed, Blocked, OneCurrency, Payable, CostSettled;
    var r := EvaluateCost(c);
    e := Evaluation(id, r.cost, r.unknowns);
    if r.cost.Some? {
      assert CostIsKnown(c, r.cost.value);
    }
    forall m | CostIsKnown(c, m) ensures r.cost.Some? {
      var subtotal :| Agreed(c.totals, subtotal) && !Blocked(c) && OneCurrency(c, subtotal.currency) && m == Payable(c, subtotal);
      assert r.subtotal == Some(subtotal);
    }
    assert r.subtotal.Some? <==> exists m :: Agreed(c.totals, m) by {
      assert r.subtotal.Some? ==> Agreed(c.totals, r.subtotal.value);
    }
    BacksIffSettled(e, c);
  }
}
