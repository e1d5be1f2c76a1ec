/** The decision core of the auto-scheduler (app/services/scheduler.py): who is overdue, in what order, and
    which priority lane the next admission goes to. */
module Scheduler {
  import opened Text
  import opened Sorting

  datatype Candidate = Candidate(pubkey: string, priority: nat, interval: real, lastPublished: Option<real>,
                                 lastFailed: Option<real>, enabled: bool)

  const RETRY_BACKOFF: real := 3600.0

  type Counts = map<nat, nat>

  // --- Lanes ---

  function Weight(p: nat): (w: nat)
    ensures w >= 1
  {
    p + 1
  }

  function Admitted(counts: Counts, p: nat): nat {
    if p in counts then counts[p] else 0
  }

  function TotalWeight(active: seq<nat>): (w: nat)
    ensures active != [] ==> w >= 1
  {
    if active == [] then 0 else Weight(active[0]) + TotalWeight(active[1..])
  }

  function TotalAdmitted(active: seq<nat>, counts: Counts): nat {
    if active == [] then 0 else Admitted(counts, active[0]) + TotalAdmitted(active[1..], counts)
  }

  /** How far lane `p` is below its weight-proportional share. */
  function Deficit(active: seq<nat>, counts: Counts, p: nat): real
    requires active != []
  {
    var total := TotalAdmitted(active, counts);
    Weight(p) as real / TotalWeight(active) as real
    - if total > 0 then Admitted(counts, p) as real / total as real else 0.0
  }

  predicate Behind(active: seq<nat>, counts: Counts, p: nat, q: nat)
    requires active != []
  {
    var dp, dq := Deficit(active, counts, p), Deficit(active, counts, q);
    dp > dq || (dp == dq && p >= q)
  }

  /** `max(active, key=(deficit, p))`, over the first `n` lanes. */
  function MostBehind(active: seq<nat>, counts: Counts, n: nat): (p: nat)
    requires 0 < n <= |active|
    ensures p in active[..n] && forall q :: q in active[..n] ==> Behind(active, counts, p, q)
  {
    if n == 1 then active[0]
    else
      var p := MostBehind(active, counts, n - 1);
      assert active[..n] == active[..n - 1] + [active[n - 1]];
      if Behind(active, counts, p, active[n - 1]) then p else active[n - 1]
  }

  function ChooseLane(active: seq<nat>, counts: Counts): (p: nat)
    requires active != []
    ensures p in active && forall q :: q in active ==> Behind(active, counts, p, q)
  {
    assert active[..|active|] == active;
    MostBehind(active, counts, |active|)
  }

  function Admit(counts: Counts, p: nat): Counts {
    counts[p := Admitted(counts, p) + 1]
  }

  /** `k` admissions in a row over the same active lanes. */
  function AdmitMany(active: seq<nat>, counts: Counts, k: nat): Counts
    requires active != []
  {
    if k == 0 then counts
    else
      var before := AdmitMany(active, counts, k - 1);
      Admit(before, ChooseLane(active, before))
  }

  // --- Fairness ---

  /** The scaled deficit: weight share minus count, times total weight. */
  ghost function Lag(active: seq<nat>, counts: Counts, p: nat): int {
    TotalAdmitted(active, counts) * Weight(p) - TotalWeight(active) * Admitted(counts, p)
  }

  lemma DeficitScales(t: nat, w: nat, wp: nat, wq: nat, cp: nat, cq: nat)
    requires t > 0 && w > 0
    ensures wp as real / w as real - cp as real / t as real >= wq as real / w as real - cq as real / t as real
            ==> t * wp - w * cp >= t * wq - w * cq
  {
    var d := (wp as real / w as real - cp as real / t as real) - (wq as real / w as real - cq as real / t as real);
    calc {
      d * (t as real * w as real);
      wp as real * t as real - cp as real * w as real - (wq as real * t as real - cq as real * w as real);
      (wp * t - cp * w - (wq * t - cq * w)) as real;
    }
    if d >= 0.0 {
      assert d * (t as real * w as real) >= 0.0;
    }
  }

  /** The lane chosen lags most. */
  lemma ChosenLagsMost(active: seq<nat>, counts: Counts, q: nat)
    requires active != [] && q in active && TotalAdmitted(active, counts) > 0
    ensures Lag(active, counts, ChooseLane(active, counts)) >= Lag(active, counts, q)
  {
    var p := ChooseLane(active, counts);
    assert Behind(active, counts, p, q);
    DeficitScales(TotalAdmitted(active, counts), TotalWeight(active), Weight(p), Weight(q), Admitted(counts, p), Admitted(counts, q));
  }

  ghost function LagOf(t: int, w: int, counts: Counts, p: nat): int {
    t * Weight(p) - w * Admitted(counts, p)
  }

  ghost function SumLag(lanes: seq<nat>, t: int, w: int, counts: Counts): int {
    if lanes == [] then 0 else LagOf(t, w, counts, lanes[0]) + SumLag(lanes[1..], t, w, counts)
  }

  lemma {:induction false} SumLagIs(lanes: seq<nat>, t: int, w: int, counts: Counts)
    ensures SumLag(lanes, t, w, counts) == t * TotalWeight(lanes) - w * TotalAdmitted(lanes, counts)
  {
    if lanes != [] {
      SumLagIs(lanes[1..], t, w, counts);
    }
  }

  /** What lags and what is ahead cancel. */
  lemma LagsCancel(active: seq<nat>, counts: Counts)
    ensures SumLag(active, TotalAdmitted(active, counts), TotalWeight(active), counts) == 0
  {
    SumLagIs(active, TotalAdmitted(active, counts), TotalWeight(active), counts);
  }

  lemma {:induction false} SomeLags(lanes: seq<nat>, t: int, w: int, counts: Counts)
    requires lanes != [] && forall i :: 0 <= i < |lanes| ==> LagOf(t, w, counts, lanes[i]) < 0
    ensures SumLag(lanes, t, w, counts) < 0
  {
    if |lanes| > 1 {
      SomeLags(lanes[1..], t, w, counts);
    }
  }

  /** If no lane is `b` or more ahead, none lags by more than the others' leads together. */
  lemma {:induction false} LagBound(lanes: seq<nat>, t: int, w: int, counts: Counts, b: nat, i: nat)
    requires i < |lanes| && forall j :: 0 <= j < |lanes| ==> LagOf(t, w, counts, lanes[j]) + b >= 0
    ensures SumLag(lanes, t, w, counts) >= LagOf(t, w, counts, lanes[i]) - (|lanes| - 1) * b
  {
    if i == 0 {
      SumAtLeast(lanes[1..], t, w, counts, b);
    } else {
      LagBound(lanes[1..], t, w, counts, b, i - 1);
      assert (|lanes| - 1) * b == (|lanes| - 2) * b + b;
    }
  }

  lemma {:induction false} SumAtLeast(lanes: seq<nat>, t: int, w: int, counts: Counts, b: nat)
    requires forall j :: 0 <= j < |lanes| ==> LagOf(t, w, counts, lanes[j]) + b >= 0
    ensures SumLag(lanes, t, w, counts) + |lanes| * b >= 0
  {
    if lanes != [] {
      SumAtLeast(lanes[1..], t, w, counts, b);
      assert |lanes| * b == (|lanes| - 1) * b + b;
    }
  }

  lemma {:induction false} AdmitTotal(active: seq<nat>, counts: Counts, p: nat)
    requires Distinct(active)
    ensures TotalAdmitted(active, Admit(counts, p)) == TotalAdmitted(active, counts) + if p in active then 1 else 0
  {
    if active != [] {
      AdmitTotal(active[1..], counts, p);
      assert active == [active[0]] + active[1..];
    }
  }

  /** One admission: the chosen lane moves up by a whole slot, and every lane falls back by its share. */
  lemma LagStep(active: seq<nat>, counts: Counts, q: nat)
    requires active != [] && Distinct(active)
    ensures var p := ChooseLane(active, counts);
            Lag(active, Admit(counts, p), q) == Lag(active, counts, q) + Weight(q) - if q == p then TotalWeight(active) else 0
  {
    var p := ChooseLane(active, counts);
    AdmitTotal(active, counts, p);
    OneMore(TotalAdmitted(active, counts), TotalWeight(active), Weight(q), Admitted(counts, q));
  }

  lemma OneMore(t: int, w: int, wq: int, c: int)
    ensures (t + 1) * wq - w * c == t * wq - w * c + wq
    ensures (t + 1) * wq - w * (c + 1) == t * wq - w * c + wq - w
  {
  }

  /** No lane is a whole slot ahead of its share. */
  ghost predicate NoneAhead(active: seq<nat>, counts: Counts) {
    forall q :: q in active ==> Lag(active, counts, q) + TotalWeight(active) > 0
  }

  lemma ChosenNotAhead(active: seq<nat>, counts: Counts)
    requires active != [] && Distinct(active) && (TotalAdmitted(active, counts) == 0 ==> forall q :: q in active ==> Admitted(counts, q) == 0)
    ensures Lag(active, counts, ChooseLane(active, counts)) >= 0
  {
    var p := ChooseLane(active, counts);
    var t, w := TotalAdmitted(active, counts), TotalWeight(active);
    if t > 0 && Lag(active, counts, p) < 0 {
      forall i | 0 <= i < |active| ensures LagOf(t, w, counts, active[i]) < 0 {
        ChosenLagsMost(active, counts, active[i]);
      }
      SomeLags(active, t, w, counts);
      LagsCancel(active, counts);
    }
  }

  lemma {:induction false} ZeroTotal(active: seq<nat>, counts: Counts, q: nat)
    requires q in active && TotalAdmitted(active, counts) == 0
    ensures Admitted(counts, q) == 0
  {
    if q != active[0] {
      ZeroTotal(active[1..], counts, q);
    }
  }

  lemma NoneAheadStep(active: seq<nat>, counts: Counts)
    requires active != [] && Distinct(active) && NoneAhead(active, counts)
    ensures NoneAhead(active, Admit(counts, ChooseLane(active, counts)))
  {
    forall q | q in active && TotalAdmitted(active, counts) == 0 ensures Admitted(counts, q) == 0 {
      ZeroTotal(active, counts, q);
    }
    ChosenNotAhead(active, counts);
    forall q | q in active ensures Lag(active, Admit(counts, ChooseLane(active, counts)), q) + TotalWeight(active) > 0 {
      LagStep(active, counts, q);
    }
  }

  lemma {:induction false} NothingAdmitted(active: seq<nat>)
    ensures TotalAdmitted(active, map[]) == 0
  {
    if active != [] {
      NothingAdmitted(active[1..]);
    }
  }

  /** Kept over any number of further admissions, so over any number of cycles with the same active lanes. */
  lemma {:induction false} NoneAheadKept(active: seq<nat>, counts: Counts, k: nat)
    requires active != [] && Distinct(active) && NoneAhead(active, counts)
    ensures NoneAhead(active, AdmitMany(active, counts, k))
    ensures TotalAdmitted(active, AdmitMany(active, counts, k)) == TotalAdmitted(active, counts) + k
  {
    if k > 0 {
      var before := AdmitMany(active, counts, k - 1);
      NoneAheadKept(active, counts, k - 1);
      NoneAheadStep(active, before);
      AdmitTotal(active, before, ChooseLane(active, before));
    }
  }

  /** Where no lane is a whole slot ahead, none of the `n` lanes is more than n - 1 slots behind. */
  lemma FairShare(active: seq<nat>, counts: Counts, p: nat)
    requires p in active && NoneAhead(active, counts)
    ensures var t, c, w := TotalAdmitted(active, counts), Admitted(counts, p), TotalWeight(active);
            w * c < t * Weight(p) + w && w * c >= t * Weight(p) - (|active| - 1) * w
  {
    var t, w := TotalAdmitted(active, counts), TotalWeight(active);
    assert Lag(active, counts, p) + w > 0;
    var i :| 0 <= i < |active| && active[i] == p;
    forall j | 0 <= j < |active| ensures LagOf(t, w, counts, active[j]) + w >= 0 {
      assert Lag(active, counts, active[j]) + w > 0;
    }
    LagBound(active, t, w, counts, w, i);
    LagsCancel(active, counts);
  }

  /** What the lanes may claim together: each lane its priority and one more. */
  function Claims(active: seq<nat>): nat {
    if active == [] then 0 else Claims(active[..|active| - 1]) + active[|active| - 1] + 1
  }

  lemma {:induction false} TotalConcat(a: seq<nat>, b: seq<nat>)
    ensures TotalWeight(a + b) == TotalWeight(a) + TotalWeight(b)
  {
    if a == [] {
      assert a + b == b;
    } else {
      assert (a + b)[0] == a[0] && (a + b)[1..] == a[1..] + b;
      TotalConcat(a[1..], b);
    }
  }

  lemma {:induction false} TotalIsClaims(active: seq<nat>)
    ensures TotalWeight(active) == Claims(active)
  {
    if active != [] {
      var n := |active| - 1;
      assert active == active[..n] + [active[n]];
      TotalConcat(active[..n], [active[n]]);
      TotalIsClaims(active[..n]);
    }
  }

  /** Weighted fairness: after any number `k` of admissions from zero counts, each of the `n` active lanes'
      count is less than 1 above and at most n - 1 below its share, `p + 1` of what all claim together. */
  lemma WeightedFairness(active: seq<nat>, k: nat, p: nat)
    requires Distinct(active) && p in active
    ensures var c, w := Admitted(AdmitMany(active, map[], k), p), Claims(active);
            && w * c < k * (p + 1) + w
            && w * c >= k * (p + 1) - (|active| - 1) * w
  {
    NothingAdmitted(active);
    NoneAheadKept(active, map[], k);
    FairShare(active, AdmitMany(active, map[], k), p);
    TotalIsClaims(active);
  }

  /** A lane is never passed over for long: within `k` admissions, `k * (p + 1)` at least `n` times all the
      claims, from any point of such a run, it is served. */
  lemma ServedWithin(active: seq<nat>, t: nat, k: nat, p: nat)
    requires Distinct(active) && p in active && k * (p + 1) >= |active| * Claims(active)
    ensures Admitted(AdmitMany(active, map[], t + k), p) > Admitted(AdmitMany(active, map[], t), p)
  {
    WeightedFairness(active, t, p);
    WeightedFairness(active, t + k, p);
    ShareGrows(Claims(active), p + 1, |active|, t, k,
               Admitted(AdmitMany(active, map[], t), p), Admitted(AdmitMany(active, map[], t + k), p));
  }

  lemma ShareGrows(w: nat, wp: nat, n: nat, t: nat, k: nat, a: nat, b: nat)
    requires w * a < t * wp + w && w * b >= (t + k) * wp - (n - 1) * w && k * wp >= n * w
    ensures b > a
  {
    assert (t + k) * wp == t * wp + k * wp;
    assert (n - 1) * w == n * w - w;
    assert w * b > w * a;
  }

  // --- From any counts ---

  /** No lane is more than `b`, scaled, ahead of its share. */
  ghost predicate AheadAtMost(active: seq<nat>, counts: Counts, b: nat) {
    forall q :: q in active ==> Lag(active, counts, q) + b >= 0
  }

  /** Whoever is ahead only falls back until its turn, and a turn puts nobody a whole slot ahead. */
  lemma AheadStep(active: seq<nat>, counts: Counts, b: nat)
    requires active != [] && Distinct(active) && AheadAtMost(active, counts, b) && b >= TotalWeight(active)
    ensures AheadAtMost(active, Admit(counts, ChooseLane(active, counts)), b)
  {
    forall q | q in active && TotalAdmitted(active, counts) == 0 ensures Admitted(counts, q) == 0 {
      ZeroTotal(active, counts, q);
    }
    ChosenNotAhead(active, counts);
    forall q | q in active ensures Lag(active, Admit(counts, ChooseLane(active, counts)), q) + b >= 0 {
      LagStep(active, counts, q);
    }
  }

  lemma {:induction false} AheadKept(active: seq<nat>, counts: Counts, b: nat, k: nat)
    requires active != [] && Distinct(active) && AheadAtMost(active, counts, b) && b >= TotalWeight(active)
    ensures AheadAtMost(active, AdmitMany(active, counts, k), b)
  {
    if k > 0 {
      AheadKept(active, counts, b, k - 1);
      AheadStep(active, AdmitMany(active, counts, k - 1), b);
    }
  }

  /** Nobody lags by more than the others' leads together. */
  lemma LagAtMost(active: seq<nat>, counts: Counts, b: nat, p: nat)
    requires p in active && AheadAtMost(active, counts, b)
    ensures Lag(active, counts, p) <= (|active| - 1) * b
  {
    var t, w := TotalAdmitted(active, counts), TotalWeight(active);
    var i :| 0 <= i < |active| && active[i] == p;
    forall j | 0 <= j < |active| ensures LagOf(t, w, counts, active[j]) + b >= 0 {
      assert Lag(active, counts, active[j]) + b >= 0;
    }
    LagBound(active, t, w, counts, b, i);
    LagsCancel(active, counts);
  }

  lemma {:induction false} CountsGrow(active: seq<nat>, counts: Counts, k: nat, p: nat)
    requires active != []
    ensures Admitted(AdmitMany(active, counts, k), p) >= Admitted(counts, p)
  {
    if k > 0 {
      CountsGrow(active, counts, k - 1, p);
    }
  }

  lemma {:induction false} TotalGrows(active: seq<nat>, counts: Counts, k: nat)
    requires active != [] && Distinct(active)
    ensures TotalAdmitted(active, AdmitMany(active, counts, k)) == TotalAdmitted(active, counts) + k
  {
    if k > 0 {
      var before := AdmitMany(active, counts, k - 1);
      TotalGrows(active, counts, k - 1);
      AdmitTotal(active, before, ChooseLane(active, before));
    }
  }

  lemma LagSpread(t: int, k: int, w: int, x: int)
    ensures (t + k) * w - x == t * w - x + k * w
  {
  }

  /** A lane passed over lags by its weight more with every admission. */
  lemma PassedOver(active: seq<nat>, counts: Counts, after: Counts, k: nat, p: nat)
    requires TotalAdmitted(active, after) == TotalAdmitted(active, counts) + k && Admitted(after, p) == Admitted(counts, p)
    ensures Lag(active, after, p) == Lag(active, counts, p) + k * Weight(p)
  {
    LagSpread(TotalAdmitted(active, counts), k, Weight(p), TotalWeight(active) * Admitted(counts, p));
  }

  /** From any counts, however far ahead some lanes are: with nobody more than `b` ahead, a lane is served
      within `k` admissions once its lag and `k` times its weight exceed the others' `b` together. */
  lemma ServedFrom(active: seq<nat>, counts: Counts, b: nat, k: nat, p: nat)
    requires Distinct(active) && p in active && AheadAtMost(active, counts, b) && b >= TotalWeight(active)
    requires Lag(active, counts, p) + k * Weight(p) > (|active| - 1) * b
    ensures Admitted(AdmitMany(active, counts, k), p) > Admitted(counts, p)
  {
    CountsGrow(active, counts, k, p);
    AheadKept(active, counts, b, k);
    LagAtMost(active, AdmitMany(active, counts, k), b, p);
    TotalGrows(active, counts, k);
    if Admitted(AdmitMany(active, counts, k), p) == Admitted(counts, p) {
      PassedOver(active, counts, AdmitMany(active, counts, k), k, p);
    }
  }

  // --- The budget and the ranking ---

  function Budget(target: nat, inflight: nat, interactive: bool): (b: nat)
    ensures inflight + b <= if inflight > target then inflight else target
    ensures interactive ==> b == 0
    ensures !interactive && inflight <= target ==> inflight + b == target
  {
    if interactive || target < inflight then 0 else target - inflight
  }

  predicate Overdue(c: Candidate, now: real) {
    c.lastPublished.None? || now - c.lastPublished.value >= c.interval
  }

  predicate InBackoff(c: Candidate, now: real, backoff: real) {
    c.lastFailed.Some? && now - c.lastFailed.value < backoff
  }

  predicate Eligible(c: Candidate, now: real, backoff: real) {
    c.enabled && Overdue(c, now) && !InBackoff(c, now, backoff)
  }

  /** The moment from which a candidate may run: its interval after the last publish and the backoff after the
      last failure, whichever is later; None where neither holds it back. */
  function DueFrom(c: Candidate, backoff: real): Option<real> {
    var published := if c.lastPublished.Some? then Some(c.lastPublished.value + c.interval) else None;
    var failed := if c.lastFailed.Some? then Some(c.lastFailed.value + backoff) else None;
    if published.None? then failed
    else if failed.None? || failed.value <= published.value then published
    else failed
  }

  /** It is enabled and that moment has come. */
  predicate Due(c: Candidate, now: real, backoff: real) {
    c.enabled && (DueFrom(c, backoff).Some? ==> DueFrom(c, backoff).value <= now)
  }

  /** An enabled candidate is eligible from that moment on, for good, and not before; a disabled one never. */
  lemma EligibleFrom(c: Candidate, now: real, later: real, backoff: real)
    requires now <= later
    ensures Eligible(c, now, backoff) <==> Due(c, now, backoff)
    ensures Eligible(c, now, backoff) ==> Eligible(c, later, backoff)
    ensures c.enabled && DueFrom(c, backoff).Some? ==> Eligible(c, DueFrom(c, backoff).value, backoff)
  {
  }

  function EligibleOf(candidates: seq<Candidate>, now: real, backoff: real): (r: seq<Candidate>)
    ensures forall c :: c in r <==> c in candidates && Eligible(c, now, backoff)
    ensures Distinct(candidates) ==> Distinct(r)
  {
    if candidates == [] then []
    else
      var n := |candidates| - 1;
      assert candidates == candidates[..n] + [candidates[n]];
      var front := EligibleOf(candidates[..n], now, backoff);
      assert Distinct(candidates) ==> candidates[n] !in candidates[..n];
      if Eligible(candidates[n], now, backoff) then front + [candidates[n]] else front
  }

  /** Published longer ago; never published is longest ago. */
  predicate LongerAgo(a: Candidate, b: Candidate) {
    a.lastPublished.None? || (b.lastPublished.Some? && a.lastPublished.value <= b.lastPublished.value)
  }

  predicate Before(a: Candidate, b: Candidate) {
    a.priority > b.priority || (a.priority == b.priority && LongerAgo(a, b))
  }

  function RankOverdue(candidates: seq<Candidate>, now: real, backoff: real): seq<Candidate> {
    Sort(Before, EligibleOf(candidates, now, backoff))
  }

  lemma {:induction false} DistinctCounts<T(!new)>(xs: seq<T>)
    ensures Distinct(xs) <==> forall x :: multiset(xs)[x] <= 1
  {
    if xs != [] {
      var n := |xs| - 1;
      DistinctCounts(xs[..n]);
      assert xs == xs[..n] + [xs[n]];
      assert multiset(xs) == multiset(xs[..n]) + multiset{xs[n]};
      assert forall x :: multiset(xs)[x] == multiset(xs[..n])[x] + if x == xs[n] then 1 else 0;
      assert Distinct(xs) <==> Distinct(xs[..n]) && xs[n] !in xs[..n] by {
        if Distinct(xs[..n]) && xs[n] !in xs[..n] {
          assert forall i :: 0 <= i < n ==> xs[i] in xs[..n];
        }
      }
      assert xs[n] !in xs[..n] <==> multiset(xs[..n])[xs[n]] == 0;
      assert (forall x :: multiset(xs)[x] <= 1) ==> multiset(xs)[xs[n]] <= 1 && forall x :: multiset(xs[..n])[x] <= multiset(xs)[x];
    }
  }

  /** No candidate comes after one of lower priority, nor, within a priority, after one published later; those
      never published come first. */
  ghost predicate HighestThenLongestAgo(ranked: seq<Candidate>) {
    forall i, j :: 0 <= i < j < |ranked| ==>
      var a, b := ranked[i], ranked[j];
      && a.priority >= b.priority
      && (a.priority == b.priority && a.lastPublished.Some? ==>
            b.lastPublished.Some? && a.lastPublished.value <= b.lastPublished.value)
  }

  /** Exactly the enabled candidates whose moment has come, each once, highest tier first and longest ago
      first within a tier. */
  lemma RankExact(candidates: seq<Candidate>, now: real, backoff: real)
    ensures forall c :: c in RankOverdue(candidates, now, backoff) <==> c in candidates && Due(c, now, backoff)
    ensures Sorted(Before, RankOverdue(candidates, now, backoff)) && HighestThenLongestAgo(RankOverdue(candidates, now, backoff))
    ensures Distinct(candidates) ==> Distinct(RankOverdue(candidates, now, backoff))
  {
    var eligible := EligibleOf(candidates, now, backoff);
    forall c | c in candidates ensures Eligible(c, now, backoff) <==> Due(c, now, backoff) {
      EligibleFrom(c, now, now, backoff);
    }
    SortMembers(Before, eligible);
    SortSorted(Before, eligible);
    assert forall i, j :: 0 <= i < j < |Sort(Before, eligible)| ==> Before(Sort(Before, eligible)[i], Sort(Before, eligible)[j]);
    SortPermutes(Before, eligible);
    DistinctCounts(eligible);
    DistinctCounts(Sort(Before, eligible));
  }
}
