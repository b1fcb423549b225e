/** The process-local sliding window and the shared fixed window, against what they admit over time. */
module RateLimits {
  import opened Outcomes

  /** Each client has its own window on each path. */
  datatype Caller = Caller(client: string, path: string)

  // ----- The sliding window

  predicate IsRecent(value: real, now: real, window: real) { now - value < window }

  /** `[value for value in values if now - value < window]`. */
  function Recent(values: seq<real>, now: real, window: real): (r: seq<real>)
    ensures |r| <= |values|
  {
    if values == [] then []
    else
      var n := |values| - 1;
      Recent(values[..n], now, window) + if IsRecent(values[n], now, window) then [values[n]] else []
  }

  /** Pruning at an earlier time first makes no difference. */
  lemma {:induction false} PruneTwice(values: seq<real>, earlier: real, now: real, window: real)
    requires earlier <= now
    ensures Recent(Recent(values, earlier, window), now, window) == Recent(values, now, window)
  {
    if values != [] {
      var n := |values| - 1;
      PruneTwice(values[..n], earlier, now, window);
      var kept := Recent(values[..n], earlier, window);
      if IsRecent(values[n], earlier, window) {
        assert (kept + [values[n]])[..|kept|] == kept;
      } else {
        assert kept + [] == kept;
      }
    }
  }

  /** What a limiter that never forgets would decide. */
  predicate Admits(history: seq<real>, now: real, limit: nat, window: real) {
    |Recent(history, now, window)| < limit
  }

  /** How many of the times have not yet been `window` ago at `now`. */
  ghost function Standing(times: seq<real>, now: real, window: real): nat {
    |set i | 0 <= i < |times| && now < times[i] + window|
  }

  lemma {:induction false} RecentCounts(times: seq<real>, now: real, window: real)
    ensures |Recent(times, now, window)| == Standing(times, now, window)
  {
    if times != [] {
      var n := |times| - 1;
      RecentCounts(times[..n], now, window);
      var before := set i | 0 <= i < n && now < times[..n][i] + window;
      var all := set i | 0 <= i < |times| && now < times[i] + window;
      assert all == before + if now < times[n] + window then {n} else {};
    }
  }

  /** A request is admitted exactly while fewer than `limit` admissions stand. */
  lemma {:induction false} AdmitsIff(history: seq<real>, now: real, limit: nat, window: real)
    ensures Admits(history, now, limit, window) <==> Standing(history, now, window) < limit
  {
    hide Recent;
    RecentCounts(history, now, window);
  }

  ghost predicate Increasing(times: seq<real>) {
    forall i, j :: 0 <= i < j < |times| ==> times[i] <= times[j]
  }

  /** Each time was admitted given the ones before it. */
  ghost predicate Admitted(times: seq<real>, limit: nat, window: real) {
    && Increasing(times)
    && forall k :: 0 <= k < |times| ==> Admits(times[..k], times[k], limit, window)
  }

  function InWindow(times: seq<real>, start: real, window: real): nat {
    if times == [] then 0
    else
      var n := |times| - 1;
      InWindow(times[..n], start, window) + if start <= times[n] < start + window then 1 else 0
  }

  /** Of increasing times, those since `start` are among those recent at any moment of the window. */
  lemma {:induction false} WindowIsRecent(times: seq<real>, start: real, now: real, window: real)
    requires start <= now < start + window
    ensures InWindow(times, start, window) <= |Recent(times, now, window)|
  {
    if times != [] {
      WindowIsRecent(times[..|times| - 1], start, now, window);
    }
  }

  /** At most `limit` admissions fall into any window of the configured length. */
  lemma {:induction false} SlidingWindowBound(times: seq<real>, limit: nat, window: real, start: real)
    requires Admitted(times, limit, window)
    ensures InWindow(times, start, window) <= limit
  {
    hide Recent;
    if times != [] {
      var n := |times| - 1;
      forall k | 0 <= k < n ensures Admits(times[..n][..k], times[..n][k], limit, window) {
        assert times[..n][..k] == times[..k];
      }
      SlidingWindowBound(times[..n], limit, window, start);
      if start <= times[n] < start + window {
        WindowIsRecent(times[..n], start, times[n], window);
      }
    }
  }

  /** The bound is reached: `limit` callers at one moment all get in. */
  lemma {:induction false} SlidingWindowBoundIsMet(limit: nat, window: real) returns (times: seq<real>)
    requires window > 0.0
    ensures Admitted(times, limit, window) && InWindow(times, 0.0, window) == limit == |times|
    ensures forall i :: 0 <= i < |times| ==> times[i] == 0.0
    ensures |Recent(times, 0.0, window)| == limit
  {
    if limit == 0 {
      times := [];
    } else {
      var front := SlidingWindowBoundIsMet(limit - 1, window);
      times := front + [0.0];
      assert times[..|front|] == front;
      forall k | 0 <= k < |times| ensures Admits(times[..k], times[k], limit, window) {
        assert times[..k] == front[..k];
        assert k == |front| ==> front[..k] == front;
      }
    }
  }

  // ----- Any readings of the clock

  /** An admission and the latest reading made for its caller since, if any. */
  datatype Entry = Entry(time: real, since: Option<real>)

  function Later(since: Option<real>, now: real): Option<real> {
    if since.Some? && now <= since.value then since else Some(now)
  }

  function Times(all: seq<Entry>): seq<real> { seq(|all|, i requires 0 <= i < |all| => all[i].time) }

  function Raise(all: seq<Entry>, now: real): seq<Entry> {
    seq(|all|, i requires 0 <= i < |all| => all[i].(since := Later(all[i].since, now)))
  }

  /** No reading since has put the admission out of the window. */
  predicate StillKept(e: Entry, window: real) { e.since.None? || e.since.value - e.time < window }

  /** What is left in the list: the admissions no later reading has pruned. */
  function Kept(all: seq<Entry>, window: real): seq<real> {
    if all == [] then []
    else
      var n := |all| - 1;
      Kept(all[..n], window) + if StillKept(all[n], window) then [all[n].time] else []
  }

  /** The limiter on one caller's readings: every admission it made, with the latest reading since. */
  function Trace(readings: seq<real>, limit: nat, window: real): seq<Entry> {
    if readings == [] then []
    else
      var n := |readings| - 1;
      var before := Raise(Trace(readings[..n], limit, window), readings[n]);
      before + if |Kept(before, window)| < limit then [Entry(readings[n], None)] else []
  }

  /** The admissions a limiter that never forgets would make. */
  function Ideal(readings: seq<real>, limit: nat, window: real): seq<real> {
    if readings == [] then []
    else
      var n := |readings| - 1;
      var before := Ideal(readings[..n], limit, window);
      before + if Admits(before, readings[n], limit, window) then [readings[n]] else []
  }

  /** A later reading has pruned it, and the clock has stepped back so far that it would count again. */
  predicate Forgotten(e: Entry, now: real, window: real) { !StillKept(e, window) && IsRecent(e.time, now, window) }

  function CountForgotten(all: seq<Entry>, now: real, window: real): nat {
    if all == [] then 0
    else
      var n := |all| - 1;
      CountForgotten(all[..n], now, window) + if Forgotten(all[n], now, window) then 1 else 0
  }

  lemma {:induction false} RecentSnoc(values: seq<real>, value: real, now: real, window: real)
    ensures Recent(values + [value], now, window) ==
      Recent(values, now, window) + if IsRecent(value, now, window) then [value] else []
  {
    assert (values + [value])[..|values|] == values;
  }

  lemma {:induction false} KeptSnoc(all: seq<Entry>, e: Entry, now: real, window: real)
    ensures Kept(all + [e], window) == Kept(all, window) + if StillKept(e, window) then [e.time] else []
    ensures CountForgotten(all + [e], now, window) == CountForgotten(all, now, window) + if Forgotten(e, now, window) then 1 else 0
    ensures Times(all + [e]) == Times(all) + [e.time]
    ensures Raise(all + [e], now) == Raise(all, now) + [e.(since := Later(e.since, now))]
  {
    assert (all + [e])[..|all|] == all;
  }

  /** Pruning the list at `now` is raising every admission to `now`. */
  lemma {:induction false} PruneIsRaise(all: seq<Entry>, now: real, window: real)
    ensures Recent(Kept(all, window), now, window) == Kept(Raise(all, now), window)
    ensures |Recent(Times(all), now, window)| == |Kept(Raise(all, now), window)| + CountForgotten(all, now, window)
  {
    if all != [] {
      hide Recent, Kept, CountForgotten, Times, Raise;
      var front, e := all[..|all| - 1], all[|all| - 1];
      var raised := e.(since := Later(e.since, now));
      PruneIsRaise(front, now, window);
      assert all == front + [e];
      KeptSnoc(front, e, now, window);
      KeptSnoc(Raise(front, now), raised, now, window);
      RecentSnoc(Kept(front, window), e.time, now, window);
      RecentSnoc(Times(front), e.time, now, window);
      assert Kept(front, window) + [] == Kept(front, window);
    }
  }

  /** What a limiter answers to a reading, given what its caller has been answered so far. */
  predicate Answers(all: seq<Entry>, now: real, limit: nat, window: real) { Admits(Kept(all, window), now, limit, window) }

  /** The admissions pruned by a later reading that count again are at least as many as the free places. */
  predicate Overlooks(all: seq<Entry>, now: real, limit: nat, window: real) {
    0 < limit - |Kept(Raise(all, now), window)| <= CountForgotten(all, now, window)
  }

  /**
   * At any reading, whatever the clock has shown before, the pruned list admits what
   * the full history of admissions refuses exactly when it overlooks enough; it never
   * refuses what the full history admits.
   */
  lemma {:induction false} ClockStepBackIff(all: seq<Entry>, now: real, limit: nat, window: real)
    ensures Answers(all, now, limit, window) && !Admits(Times(all), now, limit, window) <==> Overlooks(all, now, limit, window)
    ensures Admits(Times(all), now, limit, window) ==> Answers(all, now, limit, window)
  {
    hide Recent, Kept, CountForgotten;
    PruneIsRaise(all, now, window);
  }

  lemma {:induction false} TraceSnoc(readings: seq<real>, n: nat, limit: nat, window: real)
    requires n < |readings|
    ensures var all := Trace(readings[..n], limit, window);
      Times(Trace(readings[..n + 1], limit, window)) ==
        Times(all) + if Answers(all, readings[n], limit, window) then [readings[n]] else []
    ensures var before := Ideal(readings[..n], limit, window);
      Ideal(readings[..n + 1], limit, window) ==
        before + if Admits(before, readings[n], limit, window) then [readings[n]] else []
  {
    hide Recent, Kept;
    assert readings[..n + 1][..n] == readings[..n];
    PruneIsRaise(Trace(readings[..n], limit, window), readings[n], window);
  }

  ghost predicate SameSoFar(readings: seq<real>, k: nat, limit: nat, window: real)
    requires k <= |readings|
  {
    Times(Trace(readings[..k], limit, window)) == Ideal(readings[..k], limit, window)
  }

  ghost predicate OverlooksAt(readings: seq<real>, k: nat, limit: nat, window: real)
    requires k < |readings|
  {
    Overlooks(Trace(readings[..k], limit, window), readings[k], limit, window)
  }

  lemma {:induction false} SameStep(readings: seq<real>, k: nat, limit: nat, window: real)
    requires k < |readings| && SameSoFar(readings, k, limit, window)
    ensures SameSoFar(readings, k + 1, limit, window) <==> !OverlooksAt(readings, k, limit, window)
  {
    hide Trace, Ideal, Answers, Overlooks, Admits;
    TraceSnoc(readings, k, limit, window);
    ClockStepBackIff(Trace(readings[..k], limit, window), readings[k], limit, window);
    var before := Ideal(readings[..k], limit, window);
    assert |before + [readings[k]]| != |before + []|;
  }

  /**
   * Over every sequence of readings the limiter makes, all along, the admissions of
   * one that never forgets exactly if at no reading it overlooks enough.
   */
  lemma {:induction false} AgreesThroughoutIff(readings: seq<real>, n: nat, limit: nat, window: real)
    requires n <= |readings|
    ensures (forall k: nat :: k <= n ==> SameSoFar(readings, k, limit, window)) <==>
      (forall k: nat :: k < n ==> !OverlooksAt(readings, k, limit, window))
  {
    hide SameSoFar, OverlooksAt;
    if n == 0 {
      assert SameSoFar(readings, 0, limit, window) by { NothingYet(readings, limit, window); }
    } else {
      AgreesThroughoutIff(readings, n - 1, limit, window);
      if SameSoFar(readings, n - 1, limit, window) {
        SameStep(readings, n - 1, limit, window);
      }
      if forall k: nat :: k < n ==> !OverlooksAt(readings, k, limit, window) {
        assert forall k: nat :: k <= n - 1 ==> SameSoFar(readings, k, limit, window);
      }
    }
  }

  lemma {:induction false} NothingYet(readings: seq<real>, limit: nat, window: real)
    ensures SameSoFar(readings, 0, limit, window)
  {
    assert readings[..0] == [];
  }

  lemma {:induction false} ExampleTrace()
    ensures Trace([0.0, 20.0], 2, 10.0) == [Entry(0.0, Some(20.0)), Entry(20.0, None)]
  {
    hide Kept;
    assert [0.0][..0] == [] && [0.0, 20.0][..1] == [0.0];
    assert Kept([], 10.0) == [] && |Kept(Raise([], 0.0), 10.0)| == 0 by { NothingKept(); }
    assert Trace([0.0], 2, 10.0) == [Entry(0.0, None)];
    var raised := Raise([Entry(0.0, None)], 20.0);
    assert raised == [] + [Entry(0.0, Some(20.0))];
    KeptSnoc([], Entry(0.0, Some(20.0)), 20.0, 10.0);
  }

  lemma {:induction false} NothingKept()
    ensures Kept([], 10.0) == [] && Raise([], 0.0) == [] && CountForgotten([], 5.0, 10.0) == 0
  {
  }

  /** Readings 0, 20 and 5, with two places in a window of 10: the third request is admitted, though 0 and 20 both count at 5. */
  lemma {:induction false} ClockStepBackAdmitsMore()
    ensures var all := Trace([0.0, 20.0], 2, 10.0);
      Times(all) == [0.0, 20.0] && Answers(all, 5.0, 2, 10.0) && !Admits(Times(all), 5.0, 2, 10.0)
  {
    hide Kept, CountForgotten, Answers, Admits, Trace;
    ExampleTrace();
    NothingKept();
    var a, b := Entry(0.0, Some(20.0)), Entry(20.0, None);
    var all := [a, b];
    assert all == [a] + [b] && [a] == [] + [a];
    KeptSnoc([], a, 5.0, 10.0);
    KeptSnoc([a], b, 5.0, 10.0);
    assert Raise(all, 5.0) == [a] + [Entry(20.0, Some(5.0))];
    KeptSnoc([a], Entry(20.0, Some(5.0)), 5.0, 10.0);
    ClockStepBackIff(all, 5.0, 2, 10.0);
  }

  // ----- Readings in order

  /** No reading since an admission is later than `now`. */
  ghost predicate Settled(all: seq<Entry>, now: real) {
    forall i :: 0 <= i < |all| ==> all[i].time <= now && (all[i].since.Some? ==> all[i].since.value <= now)
  }

  lemma {:induction false} NothingForgotten(all: seq<Entry>, now: real, window: real)
    requires Settled(all, now)
    ensures CountForgotten(all, now, window) == 0
  {
    if all != [] {
      NothingForgotten(all[..|all| - 1], now, window);
    }
  }

  lemma {:induction false} InOrderSettled(readings: seq<real>, now: real, limit: nat, window: real)
    requires Increasing(readings) && forall i :: 0 <= i < |readings| ==> readings[i] <= now
    ensures Settled(Trace(readings, limit, window), now)
  {
    hide Kept;
    if readings != [] {
      InOrderSettled(readings[..|readings| - 1], now, limit, window);
    }
  }

  /** With readings in order the pruned list answers as the full history of admissions. */
  lemma {:induction false} InOrderAnswer(readings: seq<real>, now: real, limit: nat, window: real)
    requires Increasing(readings + [now])
    ensures var all := Trace(readings, limit, window);
      Answers(all, now, limit, window) <==> Admits(Times(all), now, limit, window)
  {
    hide Trace, Answers, Admits, CountForgotten, Kept;
    var next := readings + [now];
    assert forall i :: 0 <= i < |readings| ==> next[i] == readings[i];
    assert next[|readings|] == now;
    InOrderSettled(readings, now, limit, window);
    NothingForgotten(Trace(readings, limit, window), now, window);
    ClockStepBackIff(Trace(readings, limit, window), now, limit, window);
  }

  lemma {:induction false} InOrderAdmitted(readings: seq<real>, limit: nat, window: real)
    requires Increasing(readings)
    ensures Admitted(Times(Trace(readings, limit, window)), limit, window)
  {
    hide Trace, Answers, Admits, Increasing;
    if readings == [] {
      assert Times(Trace(readings, limit, window)) == [] by { EmptyTrace(limit, window); }
      AdmittedEmpty(limit, window);
    } else {
      var n := |readings| - 1;
      var all := Trace(readings[..n], limit, window);
      IncreasingFront(readings, n);
      InOrderAdmitted(readings[..n], limit, window);
      assert readings[..n + 1] == readings == readings[..n] + [readings[n]];
      TraceSnoc(readings, n, limit, window);
      InOrderAnswer(readings[..n], readings[n], limit, window);
      InOrderSettled(readings[..n], readings[n], limit, window);
      if Answers(all, readings[n], limit, window) {
        AdmittedSnoc(Times(all), readings[n], limit, window);
      } else {
        assert Times(all) + [] == Times(all);
      }
    }
  }

  lemma {:induction false} EmptyTrace(limit: nat, window: real)
    ensures Times(Trace([], limit, window)) == []
  {
  }

  lemma {:induction false} AdmittedEmpty(limit: nat, window: real)
    ensures Admitted([], limit, window)
  {
  }

  lemma {:induction false} IncreasingFront(readings: seq<real>, n: nat)
    requires Increasing(readings) && n == |readings| - 1
    ensures Increasing(readings[..n]) && forall i :: 0 <= i < n ==> readings[..n][i] <= readings[n]
  {
  }

  lemma {:induction false} AdmittedSnoc(times: seq<real>, now: real, limit: nat, window: real)
    requires Admitted(times, limit, window) && Admits(times, now, limit, window)
    requires forall i :: 0 <= i < |times| ==> times[i] <= now
    ensures Admitted(times + [now], limit, window)
  {
    hide Admits;
    var next := times + [now];
    forall k | 0 <= k < |next| ensures Admits(next[..k], next[k], limit, window) {
      assert next[..k] == times[..k];
      assert k == |times| ==> times[..k] == times;
    }
  }

  // ----- The limiter

  ghost predicate Follows(kept: seq<real>, readings: seq<real>, limit: nat, window: real) {
    kept == Kept(Trace(readings, limit, window), window)
  }

  /** One more reading: prune, answer, and append what is admitted. */
  lemma {:induction false} FollowsNext(kept: seq<real>, readings: seq<real>, now: real, limit: nat, window: real)
    requires Follows(kept, readings, limit, window)
    ensures Admits(kept, now, limit, window) <==> Answers(Trace(readings, limit, window), now, limit, window)
    ensures Follows(
      Recent(kept, now, window) + (if Admits(kept, now, limit, window) then [now] else []), readings + [now], limit, window)
  {
    hide Recent, CountForgotten;
    var all := Trace(readings, limit, window);
    assert (readings + [now])[..|readings|] == readings;
    PruneIsRaise(all, now, window);
    var raised := Raise(all, now);
    var next := raised + [Entry(now, None)];
    assert next[..|raised|] == raised;
    assert raised + [] == raised && Kept(raised, window) + [] == Kept(raised, window);
  }

  function ReadingsOf(requests: seq<(Caller, real)>, caller: Caller): seq<real> {
    if requests == [] then []
    else
      var n := |requests| - 1;
      ReadingsOf(requests[..n], caller) + if requests[n].0 == caller then [requests[n].1] else []
  }

  function Of(table: map<Caller, seq<real>>, caller: Caller): seq<real> { if caller in table then table[caller] else [] }

  class InMemoryRateLimiter {
    const limit: nat
    const window: real
    var entries: map<Caller, seq<real>>
      /** The clock at every request of each caller. */
    ghost var readings: map<Caller, seq<real>>

    /** Whatever the clock has shown, a caller's list is what its readings leave. */
    ghost predicate Valid() reads this {
      forall caller :: Follows(Of(entries, caller), Of(readings, caller), limit, window)
    }

    constructor (limit: nat, window: real)
      ensures Valid() && this.limit == limit && this.window == window && readings == map[]
    {
      this.limit, this.window, entries, readings := limit, window, map[], map[];
    }

    /**
     * `allow`, at whatever time the clock shows: the answer is the one the caller's
     * readings call for. Where they have not stepped back it is the one the full
     * history of the caller's admissions calls for.
     */
    method Allow(caller: Caller, now: real) returns (allowed: bool)
      requires Valid()
      modifies this
      ensures Valid() && readings == old(readings)[caller := Of(old(readings), caller) + [now]]
      ensures allowed <==> Answers(Trace(Of(old(readings), caller), limit, window), now, limit, window)
      ensures Increasing(Of(readings, caller)) ==>
        (allowed <==> Standing(Times(Trace(Of(old(readings), caller), limit, window)), now, window) < limit)
      ensures entries == old(entries)[caller :=
        Recent(Of(old(entries), caller), now, window) + if allowed then [now] else []]
    {
      hide Recent, Follows, Answers, Trace, Increasing;
      ghost var before := Of(readings, caller);
      assert Follows(Of(entries, caller), before, limit, window);
      FollowsNext(Of(entries, caller), before, now, limit, window);
      if Increasing(before + [now]) {
        InOrderAnswer(before, now, limit, window);
        AdmitsIff(Times(Trace(before, limit, window)), now, limit, window);
      }
      var values := Recent(Of(entries, caller), now, window);
      allowed := |values| < limit;
      if allowed {
        values := values + [now];
      } else {
        assert values == values + [];
      }
      entries := entries[caller := values];
      readings := readings[caller := before + [now]];
      forall other ensures Follows(Of(entries, other), Of(readings, other), limit, window) {
        if other != caller {
          assert Of(entries, other) == Of(old(entries), other) && Of(readings, other) == Of(old(readings), other);
          assert Follows(Of(old(entries), other), Of(old(readings), other), limit, window);
        }
      }
    }

    /**
     * Any requests, at any readings: every caller is answered as its own readings call
     * for, and one whose readings have not stepped back gets at most `limit` into any
     * window.
     */
    method Serve(requests: seq<(Caller, real)>, caller: Caller, start: real)
      requires Valid()
      modifies this
      ensures Valid() && Of(readings, caller) == Of(old(readings), caller) + ReadingsOf(requests, caller)
      ensures Increasing(Of(readings, caller)) ==>
        InWindow(Times(Trace(Of(readings, caller), limit, window)), start, window) <= limit
    {
      hide Follows, Trace, Increasing, Recent, Answers, Standing, Times, InWindow, Admitted;
      for i := 0 to |requests|
        invariant Valid() && Of(readings, caller) == Of(old(readings), caller) + ReadingsOf(requests[..i], caller)
      {
        assert requests[..i + 1][..i] == requests[..i];
        var _ := Allow(requests[i].0, requests[i].1);
      }
      assert requests[..|requests|] == requests;
      if Increasing(Of(readings, caller)) {
        InOrderAdmitted(Of(readings, caller), limit, window);
        SlidingWindowBound(Times(Trace(Of(readings, caller), limit, window)), limit, window, start);
      }
    }
  }

  // ----- The fixed window

  /** A counter with an expiry: it is gone once its time to live has elapsed. */
  datatype Counter = Counter(current: nat, expiresAt: real)

  /** `INCR`, and `EXPIRE` when the increment made it 1. */
  function Increment(stored: Option<Counter>, now: real, window: real): Counter {
    if stored.None? || stored.value.expiresAt <= now then Counter(1, now + window)
    else Counter(stored.value.current + 1, stored.value.expiresAt)
  }

  /** An admitted request with the counter value it got. */
  datatype Admission = Admission(time: real, current: nat, expiresAt: real)

  ghost predicate WellFormed(a: Admission, limit: nat, window: real) {
    && 1 <= a.current <= limit
    && a.expiresAt - window <= a.time < a.expiresAt
    && (a.current == 1 ==> a.time == a.expiresAt - window)
  }

  /** Later admissions count on in the same window, or are in one that began after the earlier had ended. */
  ghost predicate Ordered(a: Admission, b: Admission, window: real) {
    && a.time <= b.time
    && (a.expiresAt == b.expiresAt ==> a.current < b.current)
    && (a.expiresAt != b.expiresAt ==> a.expiresAt + window <= b.expiresAt)
  }

  ghost predicate Windowed(log: seq<Admission>, limit: nat, window: real) {
    && (forall i :: 0 <= i < |log| ==> WellFormed(log[i], limit, window))
    && (forall i, j :: 0 <= i < j < |log| ==> Ordered(log[i], log[j], window))
  }

  function Within(log: seq<Admission>, start: real, window: real): seq<Admission> {
    if log == [] then []
    else if start <= log[0].time < start + window then [log[0]] + Within(log[1..], start, window)
    else Within(log[1..], start, window)
  }

  lemma {:induction false} WithinWindowed(log: seq<Admission>, limit: nat, window: real, start: real)
    requires Windowed(log, limit, window)
    ensures Windowed(Within(log, start, window), limit, window)
    ensures forall i :: 0 <= i < |Within(log, start, window)| ==>
      start <= Within(log, start, window)[i].time < start + window && Within(log, start, window)[i] in log
  {
    if log != [] {
      assert forall i :: 0 <= i < |log| - 1 ==> log[1..][i] == log[i + 1];
      WithinWindowed(log[1..], limit, window, start);
      var rest := Within(log[1..], start, window);
      forall i | 0 <= i < |rest| ensures Ordered(log[0], rest[i], window) {
        var j :| 0 <= j < |log| - 1 && log[1..][j] == rest[i];
        assert Ordered(log[0], log[j + 1], window);
      }
    }
  }

  /** Admissions of one fixed window have different counter values, from `low` up. */
  lemma {:induction false} OneWindowBound(log: seq<Admission>, limit: nat, window: real, low: nat)
    requires Windowed(log, limit, window) && low >= 1
    requires forall i, j :: 0 <= i < j < |log| ==> log[i].expiresAt == log[j].expiresAt
    requires forall i :: 0 <= i < |log| ==> low <= log[i].current
    ensures log != [] ==> |log| <= limit - low + 1
  {
    if log != [] {
      assert Ordered(log[0], log[0], window) || |log| >= 1;
      forall i | 1 <= i < |log| ensures low + 1 <= log[i].current {
        assert Ordered(log[0], log[i], window);
      }
      assert forall i :: 0 <= i < |log| - 1 ==> log[1..][i] == log[i + 1];
      assert WellFormed(log[0], limit, window);
      OneWindowBound(log[1..], limit, window, low + 1);
    }
  }

  /** The admissions of the first fixed window, then the rest. */
  lemma {:induction false} SplitAtWindow(log: seq<Admission>, limit: nat, window: real) returns (n: nat)
    requires Windowed(log, limit, window) && log != []
    ensures 1 <= n <= |log|
    ensures forall i :: 0 <= i < n ==> log[i].expiresAt == log[0].expiresAt
    ensures forall i :: n <= i < |log| ==> log[0].expiresAt + window <= log[i].expiresAt
  {
    n := 1;
    while n < |log| && log[n].expiresAt == log[0].expiresAt
      invariant 1 <= n <= |log|
      invariant forall i :: 0 <= i < n ==> log[i].expiresAt == log[0].expiresAt
    {
      n := n + 1;
    }
    forall i | n <= i < |log| ensures log[0].expiresAt + window <= log[i].expiresAt {
      assert Ordered(log[0], log[n], window) && (n < i ==> Ordered(log[n], log[i], window));
      assert WellFormed(log[0], limit, window);
    }
  }

  lemma {:induction false} WindowedPart(log: seq<Admission>, limit: nat, window: real, from: nat, to: nat)
    requires Windowed(log, limit, window) && from <= to <= |log|
    ensures Windowed(log[from..to], limit, window)
  {
    assert forall i :: 0 <= i < to - from ==> log[from..to][i] == log[from + i];
  }

  /**
   * Any window of the configured length meets at most two fixed windows, and the
   * first request of the earlier one lies before it: so at most twice the limit,
   * less one, is admitted in it.
   */
  lemma {:induction false} FixedWindowBound(log: seq<Admission>, limit: nat, window: real, start: real)
    requires Windowed(log, limit, window) && limit >= 1
    ensures |Within(log, start, window)| <= 2 * limit - 1
  {
    var hits := Within(log, start, window);
    WithinWindowed(log, limit, window, start);
    if hits != [] {
      var n := SplitAtWindow(hits, limit, window);
      var first, second := hits[0..n], hits[n..|hits|];
      WindowedPart(hits, limit, window, 0, n);
      WindowedPart(hits, limit, window, n, |hits|);
      assert hits == first + second;
      if second == [] {
        OneWindowBound(first, limit, window, 1);
      } else {
        SecondIsOneWindow(hits, limit, window, start, n);
        OneWindowBound(second, limit, window, 1);
        OneWindowBound(first, limit, window, 2);
      }
    }
  }

  lemma {:induction false} SecondIsOneWindow(hits: seq<Admission>, limit: nat, window: real, start: real, n: nat)
    requires Windowed(hits, limit, window) && 1 <= n < |hits|
    requires forall i :: 0 <= i < |hits| ==> start <= hits[i].time < start + window
    requires forall i :: 0 <= i < n ==> hits[i].expiresAt == hits[0].expiresAt
    requires forall i :: n <= i < |hits| ==> hits[0].expiresAt + window <= hits[i].expiresAt
    ensures forall i, j :: n <= i < j < |hits| ==> hits[i].expiresAt == hits[j].expiresAt
    ensures forall i :: 0 <= i < n ==> 2 <= hits[i].current
  {
    forall i, j | n <= i < j < |hits| ensures hits[i].expiresAt == hits[j].expiresAt {
      assert Ordered(hits[i], hits[j], window);
      assert WellFormed(hits[j], limit, window) && WellFormed(hits[0], limit, window);
    }
    forall i | 0 <= i < n ensures 2 <= hits[i].current {
      assert WellFormed(hits[n], limit, window) && WellFormed(hits[i], limit, window);
    }
  }

  class RedisRateLimiter {
    var counters: map<string, Counter>
    ghost var log: map<string, seq<Admission>>
    ghost var clock: real

    function Stored(key: string): Option<Counter> reads this { if key in counters then Some(counters[key]) else None }

    ghost function Admissions(key: string): seq<Admission> reads this { if key in log then log[key] else [] }

    ghost predicate Valid(limit: nat, window: real) reads this {
      forall key :: Consistent(Stored(key), Admissions(key), limit, window, clock)
    }

    constructor (limit: nat, window: real)
      ensures Valid(limit, window) && clock == 0.0 && forall key :: Admissions(key) == [] && Stored(key) == None
    {
      counters, log, clock := map[], map[], 0.0;
    }

    /** `allow`: run the script, then decide from the value it returned. */
    method Allow(key: string, limit: nat, window: real, now: real) returns (allowed: bool, remaining: nat)
      requires Valid(limit, window) && clock <= now && window > 0.0
      modifies this
      ensures Valid(limit, window) && clock == now
      ensures var counter := Increment(old(Stored(key)), now, window);
        && Stored(key) == Some(counter)
        && (allowed <==> counter.current <= limit)
        && remaining == (if counter.current <= limit then limit - counter.current else 0)
        && Admissions(key) == old(Admissions(key)) +
             if allowed then [Admission(now, counter.current, counter.expiresAt)] else []
      ensures counters == old(counters)[key := Increment(old(Stored(key)), now, window)]
      ensures log == old(log)[key := Admissions(key)]
    {
      hide Consistent;
      var counter := Increment(Stored(key), now, window);
      CountOn(Stored(key), Admissions(key), limit, window, clock, now);
      forall other ensures Consistent(Stored(other), Admissions(other), limit, window, now) {
        TimePasses(Stored(other), Admissions(other), limit, window, clock, now);
      }
      allowed := counter.current <= limit;
      remaining := if allowed then limit - counter.current else 0;
      log := log[key := Admissions(key) + if allowed then [Admission(now, counter.current, counter.expiresAt)] else []];
      counters := counters[key := counter];
      clock := now;
      forall other ensures Consistent(Stored(other), Admissions(other), limit, window, now) {
        assert other != key ==> Stored(other) == old(Stored(other)) && Admissions(other) == old(Admissions(other));
      }
    }

    /** Over any non-decreasing sequence of requests, a key gets at most twice its limit, less one, into any window. */
    method Serve(requests: seq<(string, real)>, limit: nat, window: real, key: string, start: real)
      requires Valid(limit, window) && window > 0.0 && limit >= 1 && (requests != [] ==> clock <= requests[0].1)
      requires forall i, j :: 0 <= i < j < |requests| ==> requests[i].1 <= requests[j].1
      modifies this
      ensures Valid(limit, window)
      ensures |Within(Admissions(key), start, window)| <= 2 * limit - 1
    {
      for i := 0 to |requests|
        invariant Valid(limit, window) && (i < |requests| ==> clock <= requests[i].1)
      {
        var _, _ := Allow(requests[i].0, limit, window, requests[i].1);
      }
      assert Consistent(Stored(key), Admissions(key), limit, window, clock);
      FixedWindowBound(Admissions(key), limit, window, start);
    }
  }

  lemma {:induction false} WithinAppend(log: seq<Admission>, a: Admission, start: real, window: real)
    ensures Within(log + [a], start, window) ==
      Within(log, start, window) + if start <= a.time < start + window then [a] else []
  {
    if log == [] {
      assert [a][1..] == [] && [] + [a] == [a];
    } else {
      WithinAppend(log[1..], a, start, window);
      assert (log + [a])[1..] == log[1..] + [a];
    }
  }

  /** The bound is reached: one request, the rest of the limit half a window later, and the whole limit after expiry. */
  method MeetFixedWindowBound(limit: nat, window: real, key: string) returns (limiter: RedisRateLimiter)
    requires limit >= 1 && window > 0.0
    ensures limiter.Valid(limit, window)
    ensures |Within(limiter.Admissions(key), window / 2.0, window)| == 2 * limit - 1
  {
    hide Consistent, Within;
    limiter := new RedisRateLimiter(limit, window);
    ghost var half := window / 2.0;
    WithinAppend([], Admission(0.0, 1, window), half, window);
    NothingWithin(half, window);
    var _, _ := limiter.Allow(key, limit, window, 0.0);
    for i := 1 to limit
      invariant limiter.Valid(limit, window) && limiter.clock <= half && fresh(limiter)
      invariant limiter.Stored(key) == Some(Counter(i, window))
      invariant |Within(limiter.Admissions(key), half, window)| == i - 1
    {
      WithinAppend(limiter.Admissions(key), Admission(half, i + 1, window), half, window);
      var _, _ := limiter.Allow(key, limit, window, window / 2.0);
    }
    for i := 0 to limit
      invariant limiter.Valid(limit, window) && limiter.clock <= window && fresh(limiter)
      invariant limiter.Stored(key) == Some(if i == 0 then Counter(limit, window) else Counter(i, window + window))
      invariant |Within(limiter.Admissions(key), half, window)| == limit - 1 + i
    {
      WithinAppend(limiter.Admissions(key), Admission(window, i + 1, window + window), half, window);
      var _, _ := limiter.Allow(key, limit, window, window);
    }
  }

  lemma {:induction false} NothingWithin(start: real, window: real)
    ensures Within([], start, window) == []
  {
  }

  /** The stored counter continues the latest fixed window of the log. */
  ghost predicate Consistent(stored: Option<Counter>, log: seq<Admission>, limit: nat, window: real, clock: real) {
    && Windowed(log, limit, window)
    && (forall i :: 0 <= i < |log| ==> log[i].time <= clock)
    && (stored.Some? ==> stored.value.current >= 1 && stored.value.expiresAt <= clock + window)
    && (forall i :: 0 <= i < |log| ==>
          && stored.Some? && log[i].expiresAt <= stored.value.expiresAt
          && (log[i].expiresAt == stored.value.expiresAt ==> log[i].current <= stored.value.current)
          && (log[i].expiresAt != stored.value.expiresAt ==> log[i].expiresAt + window <= stored.value.expiresAt))
  }

  lemma {:induction false} TimePasses(stored: Option<Counter>, log: seq<Admission>, limit: nat, window: real, clock: real, now: real)
    requires Consistent(stored, log, limit, window, clock) && clock <= now
    ensures Consistent(stored, log, limit, window, now)
  {
  }

  lemma {:induction false} CountOn(stored: Option<Counter>, log: seq<Admission>, limit: nat, window: real, clock: real, now: real)
    requires Consistent(stored, log, limit, window, clock) && clock <= now && window > 0.0
    ensures var counter := Increment(stored, now, window);
      Consistent(Some(counter),
        log + if counter.current <= limit then [Admission(now, counter.current, counter.expiresAt)] else [], limit, window, now)
  {
    var counter := Increment(stored, now, window);
    if counter.current <= limit {
      var a := Admission(now, counter.current, counter.expiresAt);
      var log' := log + [a];
      assert WellFormed(a, limit, window);
      forall i | 0 <= i < |log| ensures Ordered(log[i], a, window) {
      }
    } else {
      assert log + [] == log;
    }
  }
}
