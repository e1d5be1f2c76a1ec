/** One cycle of the auto-scheduler (app/cronjobs/scheduler.py): ranked candidates are bucketed into priority
    lanes and admitted one by one until the budget is spent. */
module SchedulerCycle {
  import opened Sorting
  import opened Scheduler

  type Lanes = map<nat, seq<Candidate>>

  function LaneOf(cs: seq<Candidate>, p: nat): seq<Candidate> {
    if cs == [] then []
    else
      var n := |cs| - 1;
      if cs[n].priority == p then LaneOf(cs[..n], p) + [cs[n]] else LaneOf(cs[..n], p)
  }

  /** The candidates the scheduler would run: those who follow someone. */
  function Grown(has: string -> bool, cs: seq<Candidate>): seq<Candidate> {
    if cs == [] then []
    else
      var n := |cs| - 1;
      if has(cs[n].pubkey) then Grown(has, cs[..n]) + [cs[n]] else Grown(has, cs[..n])
  }

  lemma {:induction false} LaneMembers(cs: seq<Candidate>, p: nat, c: Candidate)
    ensures c in LaneOf(cs, p) <==> c in cs && c.priority == p
  {
    if cs != [] {
      var n := |cs| - 1;
      LaneMembers(cs[..n], p, c);
      assert cs == cs[..n] + [cs[n]];
    }
  }

  lemma {:induction false} GrownMembers(has: string -> bool, cs: seq<Candidate>, c: Candidate)
    ensures c in Grown(has, cs) <==> c in cs && has(c.pubkey)
  {
    if cs != [] {
      var n := |cs| - 1;
      GrownMembers(has, cs[..n], c);
      assert cs == cs[..n] + [cs[n]];
    }
  }

  lemma LaneOfNext(cs: seq<Candidate>, c: Candidate, p: nat)
    ensures LaneOf(cs + [c], p) == if c.priority == p then LaneOf(cs, p) + [c] else LaneOf(cs, p)
  {
    assert (cs + [c])[..|cs|] == cs;
  }

  lemma GrownNext(has: string -> bool, cs: seq<Candidate>, c: Candidate)
    ensures Grown(has, cs + [c]) == if has(c.pubkey) then Grown(has, cs) + [c] else Grown(has, cs)
  {
    assert (cs + [c])[..|cs|] == cs;
  }

  lemma LaneOfOne(c: Candidate, p: nat)
    ensures LaneOf([c], p) == if c.priority == p then [c] else []
  {
    assert [c] == [] + [c];
    LaneOfNext([], c, p);
  }

  lemma {:induction false} LaneOfCons(c: Candidate, cs: seq<Candidate>, p: nat)
    ensures LaneOf([c] + cs, p) == LaneOf([c], p) + LaneOf(cs, p)
    decreases |cs|
  {
    if cs == [] {
      assert [c] + cs == [c];
    } else {
      var n := |cs| - 1;
      var front, last := cs[..n], cs[n];
      LaneOfCons(c, front, p);
      assert cs == front + [last] && [c] + cs == ([c] + front) + [last];
      LaneOfNext([c] + front, last, p);
      LaneOfNext(front, last, p);
    }
  }

  lemma {:induction false} GrownAppend(has: string -> bool, xs: seq<Candidate>, ys: seq<Candidate>)
    ensures Grown(has, xs + ys) == Grown(has, xs) + Grown(has, ys)
    decreases |ys|
  {
    if ys == [] {
      assert xs + ys == xs;
    } else {
      var n := |ys| - 1;
      GrownAppend(has, xs, ys[..n]);
      assert ys == ys[..n] + [ys[n]] && xs + ys == (xs + ys[..n]) + [ys[n]];
      GrownNext(has, xs + ys[..n], ys[n]);
      GrownNext(has, ys[..n], ys[n]);
    }
  }

  // --- Bucketing ---

  ghost predicate Buckets(cs: seq<Candidate>, order: seq<nat>, lanes: Lanes) {
    && Distinct(order)
    && (forall p :: p in order <==> p in lanes)
    && (forall c :: c in cs ==> c.priority in lanes)
    && forall p :: p in lanes ==> lanes[p] == LaneOf(cs, p)
  }

  method Bucket(ranked: seq<Candidate>) returns (order: seq<nat>, lanes: Lanes)
    ensures Buckets(ranked, order, lanes)
  {
    order, lanes := [], map[];
    for i := 0 to |ranked|
      invariant Buckets(ranked[..i], order, lanes)
    {
      var c := ranked[i];
      var queue := if c.priority in lanes then lanes[c.priority] else [];
      BucketNext(ranked[..i], order, lanes, c);
      assert ranked[..i + 1] == ranked[..i] + [c];
      if c.priority !in lanes {
        order := order + [c.priority];
      }
      lanes := lanes[c.priority := queue + [c]];
    }
    assert ranked[..|ranked|] == ranked;
  }

  lemma BucketNext(cs: seq<Candidate>, order: seq<nat>, lanes: Lanes, c: Candidate)
    requires Buckets(cs, order, lanes)
    ensures var queue := if c.priority in lanes then lanes[c.priority] else [];
            Buckets(cs + [c], if c.priority in lanes then order else order + [c.priority], lanes[c.priority := queue + [c]])
  {
    if c.priority !in lanes {
      NoLane(cs, c.priority);
    }
    forall p | p in lanes || p == c.priority
      ensures LaneOf(cs + [c], p) == if c.priority == p then LaneOf(cs, p) + [c] else LaneOf(cs, p)
    {
      LaneOfNext(cs, c, p);
    }
  }

  lemma NoLane(cs: seq<Candidate>, p: nat)
    requires forall c :: c in cs ==> c.priority != p
    ensures LaneOf(cs, p) == []
  {
    if LaneOf(cs, p) != [] {
      LaneMembers(cs, p, LaneOf(cs, p)[0]);
    }
  }

  /** The lanes with someone left. */
  function Active(order: seq<nat>, lanes: Lanes): (r: seq<nat>)
    requires forall p :: p in order ==> p in lanes
    ensures forall p :: p in r <==> p in order && lanes[p] != []
    ensures (forall p :: p in order ==> lanes[p] != []) ==> r == order
  {
    if order == [] then []
    else
      var n := |order| - 1;
      assert order == order[..n] + [order[n]];
      var front := Active(order[..n], lanes);
      if lanes[order[n]] != [] then front + [order[n]] else front
  }

  function MaxOf(xs: seq<nat>): (m: nat)
    requires xs != []
    ensures m in xs && forall x :: x in xs ==> x <= m
  {
    if |xs| == 1 then xs[0]
    else
      var n := |xs| - 1;
      assert xs == xs[..n] + [xs[n]];
      var m := MaxOf(xs[..n]);
      if m >= xs[n] then m else xs[n]
  }

  /** How many are left in all lanes. */
  function Left(order: seq<nat>, lanes: Lanes): nat
    requires forall p :: p in order ==> p in lanes
  {
    if order == [] then 0
    else
      var n := |order| - 1;
      assert order == order[..n] + [order[n]];
      Left(order[..n], lanes) + |lanes[order[n]]|
  }

  lemma {:induction false} PopShrinks(order: seq<nat>, lanes: Lanes, p: nat)
    requires Distinct(order) && (forall q :: q in order ==> q in lanes) && p in lanes && lanes[p] != []
    ensures Left(order, lanes[p := lanes[p][1..]]) == Left(order, lanes) - if p in order then 1 else 0
  {
    if order != [] {
      var n := |order| - 1;
      assert order == order[..n] + [order[n]];
      PopShrinks(order[..n], lanes, p);
    }
  }

  // --- What the loop keeps ---

  /** One lane: what was popped is the head of the queue, and whoever of it has a grapevine was admitted. */
  ghost predicate InTurn(has: string -> bool, all: seq<Candidate>, left: seq<Candidate>, admitted: seq<Candidate>) {
    && |left| <= |all|
    && left == all[|all| - |left|..]
    && admitted == Grown(has, all[..|all| - |left|])
  }

  ghost predicate LaneInTurn(has: string -> bool, ranked: seq<Candidate>, lanes: Lanes, admitted: seq<Candidate>, p: nat)
    requires p in lanes
  {
    InTurn(has, LaneOf(ranked, p), lanes[p], LaneOf(admitted, p))
  }

  ghost predicate AllInTurn(has: string -> bool, ranked: seq<Candidate>, lanes: Lanes, admitted: seq<Candidate>) {
    && (forall p :: p in lanes ==> LaneInTurn(has, ranked, lanes, admitted, p))
    && forall c :: c in admitted ==> c.priority in lanes
  }

  lemma PopInTurn(has: string -> bool, all: seq<Candidate>, left: seq<Candidate>, admitted: seq<Candidate>)
    requires InTurn(has, all, left, admitted) && left != []
    ensures InTurn(has, all, left[1..], if has(left[0].pubkey) then admitted + [left[0]] else admitted)
  {
    var k := |all| - |left|;
    assert left[0] == all[k] && all[..k + 1] == all[..k] + [all[k]];
    GrownNext(has, all[..k], all[k]);
  }

  lemma HeadInLane(has: string -> bool, ranked: seq<Candidate>, lane: seq<Candidate>, admitted: seq<Candidate>, p: nat)
    requires InTurn(has, LaneOf(ranked, p), lane, admitted) && lane != []
    ensures lane[0].priority == p && lane[0] in ranked
  {
    var all := LaneOf(ranked, p);
    assert lane[0] == all[|all| - |lane|];
    LaneMembers(ranked, p, lane[0]);
  }

  /** The admitted once `c` was popped. */
  function Took(has: string -> bool, admitted: seq<Candidate>, c: Candidate): seq<Candidate> {
    if has(c.pubkey) then admitted + [c] else admitted
  }

  lemma PopOwn(has: string -> bool, ranked: seq<Candidate>, lane: seq<Candidate>, admitted: seq<Candidate>, p: nat)
    requires InTurn(has, LaneOf(ranked, p), lane, LaneOf(admitted, p)) && lane != []
    ensures lane[0].priority == p
    ensures InTurn(has, LaneOf(ranked, p), lane[1..], LaneOf(Took(has, admitted, lane[0]), p))
  {
    HeadInLane(has, ranked, lane, LaneOf(admitted, p), p);
    PopInTurn(has, LaneOf(ranked, p), lane, LaneOf(admitted, p));
    LaneOfNext(admitted, lane[0], p);
  }

  lemma PopOther(has: string -> bool, ranked: seq<Candidate>, lanes: Lanes, admitted: seq<Candidate>, p: nat, q: nat)
    requires p in lanes && lanes[p] != [] && lanes[p][0].priority == p && q in lanes && q != p
    requires LaneInTurn(has, ranked, lanes, admitted, q)
    ensures LaneInTurn(has, ranked, lanes[p := lanes[p][1..]], Took(has, admitted, lanes[p][0]), q)
  {
    LaneOfNext(admitted, lanes[p][0], q);
  }

  lemma PopAllInTurn(has: string -> bool, ranked: seq<Candidate>, lanes: Lanes, admitted: seq<Candidate>, p: nat)
    requires AllInTurn(has, ranked, lanes, admitted) && p in lanes && lanes[p] != []
    ensures lanes[p][0].priority == p
    ensures AllInTurn(has, ranked, lanes[p := lanes[p][1..]], Took(has, admitted, lanes[p][0]))
  {
    var c := lanes[p][0];
    var lanes', admitted' := lanes[p := lanes[p][1..]], Took(has, admitted, c);
    assert LaneInTurn(has, ranked, lanes, admitted, p);
    PopOwn(has, ranked, lanes[p], admitted, p);
    assert LaneInTurn(has, ranked, lanes', admitted', p);
    forall q | q in lanes' && q != p ensures LaneInTurn(has, ranked, lanes', admitted', q) {
      PopOther(has, ranked, lanes, admitted, p, q);
    }
    assert forall d :: d in admitted' ==> d in admitted || d == c;
  }

  /** With strict priority the candidates leave in ranked order. */
  ghost predicate InRankOrder(has: string -> bool, ranked: seq<Candidate>, lanes: Lanes, admitted: seq<Candidate>, k: nat) {
    && k <= |ranked|
    && (forall p :: p in lanes ==> lanes[p] == LaneOf(ranked[k..], p))
    && admitted == Grown(has, ranked[..k])
  }

  lemma HeadIsTop(ranked: seq<Candidate>, order: seq<nat>, lanes: Lanes, k: nat)
    requires Sorted(Before, ranked) && k <= |ranked| && (forall p :: p in lanes ==> lanes[p] == LaneOf(ranked[k..], p))
    requires (forall p :: p in order <==> p in lanes) && (forall c :: c in ranked ==> c.priority in lanes)
    requires Active(order, lanes) != []
    ensures k < |ranked| && MaxOf(Active(order, lanes)) == ranked[k].priority
  {
    var p := MaxOf(Active(order, lanes));
    var first := lanes[p][0];
    LaneMembers(ranked[k..], p, first);
    var j :| 0 <= j < |ranked[k..]| && ranked[k..][j] == first;
    var c := ranked[k];
    assert c == ranked[k..][0];
    LaneMembers(ranked[k..], c.priority, c);
    assert c.priority in Active(order, lanes);
    assert ranked[k + j].priority == p;
    assert j > 0 ==> Before(ranked[k], ranked[k + j]);
  }

  lemma PopInRankOrder(has: string -> bool, ranked: seq<Candidate>, lanes: Lanes, admitted: seq<Candidate>, k: nat)
    requires InRankOrder(has, ranked, lanes, admitted, k) && k < |ranked| && ranked[k].priority in lanes
    ensures var p := ranked[k].priority;
            && lanes[p] != []
            && InRankOrder(has, ranked, lanes[p := lanes[p][1..]], Took(has, admitted, lanes[p][0]), k + 1)
  {
    var c := ranked[k];
    assert ranked[k..] == [c] + ranked[k + 1..];
    forall q | q in lanes
      ensures lanes[q] == if q == c.priority then [c] + LaneOf(ranked[k + 1..], q) else LaneOf(ranked[k + 1..], q)
    {
      LaneOfCons(c, ranked[k + 1..], q);
      LaneOfOne(c, q);
    }
    assert ranked[..k + 1] == ranked[..k] + [c];
    GrownNext(has, ranked[..k], c);
  }

  // --- The cycle ---

  /** What the admitted are, whichever way lanes are chosen. */
  ghost predicate Admissible(has: string -> bool, ranked: seq<Candidate>, budget: nat, admitted: seq<Candidate>) {
    && |admitted| <= budget
    && (forall p :: LaneOf(admitted, p) <= Grown(has, LaneOf(ranked, p)))
    && (|admitted| < budget ==> forall p :: LaneOf(admitted, p) == Grown(has, LaneOf(ranked, p)))
  }

  lemma InTurnIsPrefix(has: string -> bool, all: seq<Candidate>, left: seq<Candidate>, admitted: seq<Candidate>)
    requires InTurn(has, all, left, admitted)
    ensures admitted <= Grown(has, all) && (left == [] ==> admitted == Grown(has, all))
  {
    var k := |all| - |left|;
    assert all == all[..k] + all[k..];
    GrownAppend(has, all[..k], all[k..]);
    assert left == [] ==> all[..k] == all;
  }

  lemma EndIsAdmissible(has: string -> bool, ranked: seq<Candidate>, lanes: Lanes, admitted: seq<Candidate>, budget: nat)
    requires AllInTurn(has, ranked, lanes, admitted) && |admitted| <= budget
    requires forall c :: c in ranked ==> c.priority in lanes
    requires |admitted| < budget ==> forall p :: p in lanes ==> lanes[p] == []
    ensures Admissible(has, ranked, budget, admitted)
  {
    forall p ensures LaneOf(admitted, p) <= Grown(has, LaneOf(ranked, p))
      && (|admitted| < budget ==> LaneOf(admitted, p) == Grown(has, LaneOf(ranked, p)))
    {
      if p in lanes {
        assert LaneInTurn(has, ranked, lanes, admitted, p);
        InTurnIsPrefix(has, LaneOf(ranked, p), lanes[p], LaneOf(admitted, p));
      } else {
        NoLane(ranked, p);
        NoLane(admitted, p);
      }
    }
  }

  lemma EndInRankOrder(has: string -> bool, ranked: seq<Candidate>, lanes: Lanes, admitted: seq<Candidate>, k: nat, budget: nat)
    requires InRankOrder(has, ranked, lanes, admitted, k) && |admitted| <= budget
    requires forall c :: c in ranked ==> c.priority in lanes
    requires |admitted| < budget ==> forall p :: p in lanes ==> lanes[p] == []
    ensures admitted == FirstOf(budget, Grown(has, ranked))
  {
    assert ranked == ranked[..k] + ranked[k..];
    GrownAppend(has, ranked[..k], ranked[k..]);
    if k < |ranked| {
      assert ranked[k] == ranked[k..][0];
      LaneMembers(ranked[k..], ranked[k].priority, ranked[k]);
    }
  }

  function FirstOf(n: nat, cs: seq<Candidate>): seq<Candidate> {
    if |cs| <= n then cs else cs[..n]
  }

  /** Who was admitted: only those waiting with a grapevine and, short of the budget, all of them. */
  lemma AdmittedMembers(has: string -> bool, ranked: seq<Candidate>, budget: nat, admitted: seq<Candidate>, c: Candidate)
    requires Admissible(has, ranked, budget, admitted)
    ensures c in admitted ==> c in ranked && has(c.pubkey)
    ensures |admitted| < budget && c in ranked && has(c.pubkey) ==> c in admitted
  {
    var p := c.priority;
    LaneMembers(admitted, p, c);
    LaneMembers(ranked, p, c);
    GrownMembers(has, LaneOf(ranked, p), c);
  }

  lemma {:induction false} LaneDistinct(cs: seq<Candidate>, p: nat)
    requires Distinct(cs)
    ensures Distinct(LaneOf(cs, p))
  {
    if cs != [] {
      var n := |cs| - 1;
      LaneDistinct(cs[..n], p);
      LaneMembers(cs[..n], p, cs[n]);
      assert cs[n] !in cs[..n];
    }
  }

  lemma {:induction false} GrownDistinct(has: string -> bool, cs: seq<Candidate>)
    requires Distinct(cs)
    ensures Distinct(Grown(has, cs))
  {
    if cs != [] {
      var n := |cs| - 1;
      GrownDistinct(has, cs[..n]);
      GrownMembers(has, cs[..n], cs[n]);
      assert cs[n] !in cs[..n];
    }
  }

  lemma {:induction false} DistinctByLane(cs: seq<Candidate>)
    requires forall p :: Distinct(LaneOf(cs, p))
    ensures Distinct(cs)
  {
    if cs != [] {
      var n := |cs| - 1;
      var front, c := cs[..n], cs[n];
      assert cs == front + [c];
      forall p ensures Distinct(LaneOf(front, p)) {
        assert Distinct(LaneOf(cs, p));
        LaneOfNext(front, c, p);
        if c.priority == p {
          NotInFront(LaneOf(front, p), c);
        }
      }
      DistinctByLane(front);
      assert Distinct(LaneOf(front, c.priority) + [c]) by {
        assert Distinct(LaneOf(cs, c.priority));
        LaneOfNext(front, c, c.priority);
      }
      NotInFront(LaneOf(front, c.priority), c);
      LaneMembers(front, c.priority, c);
      assert forall i :: 0 <= i < n ==> cs[i] in front;
    }
  }

  lemma NotInFront(xs: seq<Candidate>, c: Candidate)
    requires Distinct(xs + [c])
    ensures Distinct(xs) && c !in xs
  {
    var ys := xs + [c];
    assert forall i :: 0 <= i < |xs| ==> xs[i] == ys[i];
    assert ys[|xs|] == c;
  }

  /** Nobody is admitted twice. */
  lemma AdmittedOnce(has: string -> bool, ranked: seq<Candidate>, budget: nat, admitted: seq<Candidate>)
    requires Admissible(has, ranked, budget, admitted) && Distinct(ranked)
    ensures Distinct(admitted)
  {
    forall p ensures Distinct(LaneOf(admitted, p)) {
      LaneDistinct(ranked, p);
      GrownDistinct(has, LaneOf(ranked, p));
    }
    DistinctByLane(admitted);
  }

  class Cron {
    /** `_admitted_counts` */
    var counts: Counts

    constructor ()
      ensures counts == map[]
    {
      counts := map[];
    }

    /** The admission loop. */
    method AdmitFrom(ranked: seq<Candidate>, budget: nat, has: string -> bool, fair: bool)
      returns (admitted: seq<Candidate>, order: seq<nat>, lanes: Lanes, ghost popped: seq<Candidate>)
      requires Sorted(Before, ranked)
      modifies this
      ensures Admissible(has, ranked, budget, admitted)
      ensures !fair ==> admitted == FirstOf(budget, Grown(has, ranked))
      ensures Counted(old(counts), counts, admitted)
      ensures Distinct(order) && forall p :: p in order <==> p in lanes
      ensures fair && Unspent(order, lanes) ==> counts == AdmitMany(order, old(counts), |admitted|)
      ensures Replayed(fair, has, ranked, order, old(counts), popped, lanes, admitted, counts)
    {
      order, lanes := Bucket(ranked);
      admitted, popped := [], [];
      ghost var k := 0;
      assert ranked[0..] == ranked;
      NothingReplayed(fair, has, ranked, order, counts, lanes);
      while |admitted| < budget && Active(order, lanes) != []
        invariant Laid(ranked, order, lanes) && |admitted| <= budget
        invariant AllInTurn(has, ranked, lanes, admitted)
        invariant !fair ==> InRankOrder(has, ranked, lanes, admitted, k)
        invariant Tallied(fair, old(counts), counts, order, lanes, admitted)
        invariant Replayed(fair, has, ranked, order, old(counts), popped, lanes, admitted, counts)
        decreases Left(order, lanes)
      {
        var lane := Choose(fair, Active(order, lanes), counts);
        var candidate := lanes[lane][0];
        StepKeeps(has, fair, counts, ranked, order, lanes, admitted, k);
        PopTallied(has, fair, old(counts), counts, order, lanes, admitted, lane);
        PopShrinks(order, lanes, lane);
        ReplayNext(fair, has, ranked, order, old(counts), popped, lanes, admitted, counts);
        popped := popped + [candidate];
        lanes := lanes[lane := lanes[lane][1..]];
        k := k + 1;
        if has(candidate.pubkey) {
          admitted := admitted + [candidate];
          counts := Admit(counts, lane);
        }
      }
      assert |admitted| < budget ==> forall p :: p in lanes ==> lanes[p] == [];
      EndIsAdmissible(has, ranked, lanes, admitted, budget);
      if !fair {
        EndInRankOrder(has, ranked, lanes, admitted, k, budget);
      }
    }

    /** A whole cycle: nobody while an interactive run is in the pipeline or no default policy exists, never
        beyond the in-flight target, nobody twice and nobody not due, and short of the budget only when
        everyone due who has a grapevine was admitted. */
    method RunCycle(target: nat, inflight: nat, interactive: bool, hasDefault: bool, candidates: seq<Candidate>, now: real,
                    has: string -> bool, fair: bool)
      returns (admitted: seq<Candidate>)
      modifies this
      ensures inflight + |admitted| <= if inflight > target then inflight else target
      ensures interactive || !hasDefault ==> admitted == [] && counts == old(counts)
      ensures Counted(old(counts), counts, admitted)
      ensures forall c :: c in admitted ==> c in candidates && Due(c, now, RETRY_BACKOFF) && has(c.pubkey)
      ensures Distinct(candidates) ==> Distinct(admitted)
      ensures var ranked, budget := RankOverdue(candidates, now, RETRY_BACKOFF), Budget(target, inflight, interactive);
              hasDefault ==>
                && Admissible(has, ranked, budget, admitted)
                && (!fair ==> admitted == FirstOf(budget, Grown(has, ranked)))
                && (|admitted| < budget ==>
                      forall c :: c in candidates && Due(c, now, RETRY_BACKOFF) && has(c.pubkey) ==> c in admitted)
    {
      var budget := Budget(target, inflight, interactive);
      ghost var due := RankOverdue(candidates, now, RETRY_BACKOFF);
      RankExact(candidates, now, RETRY_BACKOFF);
      if budget == 0 || !hasDefault {
        admitted := [];
        assert forall p :: LaneOf([], p) == [];
        return;
      }
      var ranked := RankOverdue(candidates, now, RETRY_BACKOFF);
      var order, lanes;
      ghost var popped;
      admitted, order, lanes, popped := AdmitFrom(ranked, budget, has, fair);
      forall c ensures (c in admitted ==> c in ranked && has(c.pubkey)) && (|admitted| < budget && c in ranked && has(c.pubkey) ==> c in admitted) {
        AdmittedMembers(has, ranked, budget, admitted, c);
      }
      if Distinct(ranked) {
        AdmittedOnce(has, ranked, budget, admitted);
      }
    }
  }

  function Choose(fair: bool, active: seq<nat>, counts: Counts): (p: nat)
    requires active != []
    ensures p in active
  {
    if fair then ChooseLane(active, counts) else MaxOf(active)
  }

  lemma StepKeeps(has: string -> bool, fair: bool, counts: Counts, ranked: seq<Candidate>, order: seq<nat>, lanes: Lanes,
                  admitted: seq<Candidate>, k: nat)
    requires Sorted(Before, ranked) && Laid(ranked, order, lanes) && Active(order, lanes) != []
    requires AllInTurn(has, ranked, lanes, admitted) && (!fair ==> InRankOrder(has, ranked, lanes, admitted, k))
    ensures var p := Choose(fair, Active(order, lanes), counts);
            && p in lanes && lanes[p] != [] && lanes[p][0].priority == p
            && AllInTurn(has, ranked, lanes[p := lanes[p][1..]], Took(has, admitted, lanes[p][0]))
            && (!fair ==> InRankOrder(has, ranked, lanes[p := lanes[p][1..]], Took(has, admitted, lanes[p][0]), k + 1))
  {
    if !fair {
      HeadIsTop(ranked, order, lanes, k);
      PopInRankOrder(has, ranked, lanes, admitted, k);
    }
    PopAllInTurn(has, ranked, lanes, admitted, Choose(fair, Active(order, lanes), counts));
  }

  /** The counts after a run of admissions: every one counted in its lane and, as long as no lane ran out,
      in the order of `AdmitMany`. */
  ghost predicate Tallied(fair: bool, before: Counts, after: Counts, order: seq<nat>, lanes: Lanes, admitted: seq<Candidate>)
    requires forall p :: p in order ==> p in lanes
  {
    Counted(before, after, admitted) && (fair && Unspent(order, lanes) ==> after == AdmitMany(order, before, |admitted|))
  }

  lemma PopTallied(has: string -> bool, fair: bool, before: Counts, after: Counts, order: seq<nat>, lanes: Lanes, admitted: seq<Candidate>, p: nat)
    requires (forall q :: q in order ==> q in lanes) && Active(order, lanes) != []
    requires p == Choose(fair, Active(order, lanes), after) && p in lanes && lanes[p] != [] && lanes[p][0].priority == p
    requires Tallied(fair, before, after, order, lanes, admitted)
    ensures Tallied(fair, before, if has(lanes[p][0].pubkey) then Admit(after, p) else after, order, lanes[p := lanes[p][1..]],
                    Took(has, admitted, lanes[p][0]))
  {
    var c, lanes' := lanes[p][0], lanes[p := lanes[p][1..]];
    CountNext(before, after, admitted, c);
    if fair && Unspent(order, lanes') {
      PopUnspent(order, lanes, p);
      OneAdmitted(order, before, |admitted|);
    }
  }

  lemma OneAdmitted(active: seq<nat>, counts: Counts, k: nat)
    requires active != []
    ensures var before := AdmitMany(active, counts, k); AdmitMany(active, counts, k + 1) == Admit(before, ChooseLane(active, before))
  {
  }

  // --- The loop replayed from what it popped ---

  function From(xs: seq<Candidate>, n: nat): seq<Candidate> {
    if n <= |xs| then xs[n..] else []
  }

  /** Who is left in each lane once `popped` is gone. */
  function Rest(ranked: seq<Candidate>, order: seq<nat>, popped: seq<Candidate>): Lanes {
    map p | p in order :: From(LaneOf(ranked, p), |LaneOf(popped, p)|)
  }

  /** The counts once all these were admitted. */
  function Tally(before: Counts, admitted: seq<Candidate>): Counts {
    if admitted == [] then before
    else Admit(Tally(before, admitted[..|admitted| - 1]), admitted[|admitted| - 1].priority)
  }

  /** Pop `j` took the head of the lane chosen among those with someone left at that moment, by the counts of
      that moment. */
  ghost predicate PoppedInTurn(fair: bool, has: string -> bool, ranked: seq<Candidate>, order: seq<nat>, before: Counts,
                               popped: seq<Candidate>, j: nat)
    requires j < |popped|
  {
    var lanes := Rest(ranked, order, popped[..j]);
    var active := Active(order, lanes);
    && active != []
    && popped[j].priority == Choose(fair, active, Tally(before, Grown(has, popped[..j])))
    && popped[j] == lanes[popped[j].priority][0]
  }

  /** The loop so far: every pop in turn, the lanes and counts as the pops left them, and admitted exactly
      those popped who have a grapevine. */
  ghost predicate Replayed(fair: bool, has: string -> bool, ranked: seq<Candidate>, order: seq<nat>, before: Counts,
                           popped: seq<Candidate>, lanes: Lanes, admitted: seq<Candidate>, counts: Counts)
  {
    && lanes == Rest(ranked, order, popped)
    && admitted == Grown(has, popped) && counts == Tally(before, admitted)
    && forall j :: 0 <= j < |popped| ==> PoppedInTurn(fair, has, ranked, order, before, popped, j)
  }

  lemma NothingReplayed(fair: bool, has: string -> bool, ranked: seq<Candidate>, order: seq<nat>, before: Counts, lanes: Lanes)
    requires Buckets(ranked, order, lanes)
    ensures Replayed(fair, has, ranked, order, before, [], lanes, [], before)
  {
    assert forall p :: p in order ==> From(LaneOf(ranked, p), |LaneOf([], p)|) == LaneOf(ranked, p);
  }

  lemma RestNext(ranked: seq<Candidate>, order: seq<nat>, popped: seq<Candidate>, c: Candidate)
    requires c.priority in order && Rest(ranked, order, popped)[c.priority] != []
    ensures var lanes := Rest(ranked, order, popped);
            Rest(ranked, order, popped + [c]) == lanes[c.priority := lanes[c.priority][1..]]
  {
    var lanes := Rest(ranked, order, popped);
    forall p | p in order
      ensures Rest(ranked, order, popped + [c])[p] == if p == c.priority then lanes[p][1..] else lanes[p]
    {
      LaneOfNext(popped, c, p);
    }
  }

  lemma TallyNext(before: Counts, admitted: seq<Candidate>, c: Candidate)
    ensures Tally(before, admitted + [c]) == Admit(Tally(before, admitted), c.priority)
  {
    assert (admitted + [c])[..|admitted|] == admitted;
  }

  lemma ReplayNext(fair: bool, has: string -> bool, ranked: seq<Candidate>, order: seq<nat>, before: Counts,
                   popped: seq<Candidate>, lanes: Lanes, admitted: seq<Candidate>, counts: Counts)
    requires (forall p :: p in order <==> p in lanes) && Active(order, lanes) != []
    requires Replayed(fair, has, ranked, order, before, popped, lanes, admitted, counts)
    requires var p := Choose(fair, Active(order, lanes), counts); lanes[p] != [] && lanes[p][0].priority == p
    ensures var p := Choose(fair, Active(order, lanes), counts);
            var c := lanes[p][0];
            Replayed(fair, has, ranked, order, before, popped + [c], lanes[p := lanes[p][1..]], Took(has, admitted, c),
                     if has(c.pubkey) then Admit(counts, p) else counts)
  {
    var p := Choose(fair, Active(order, lanes), counts);
    var c := lanes[p][0];
    RestNext(ranked, order, popped, c);
    GrownNext(has, popped, c);
    TallyNext(before, admitted, c);
    var after := popped + [c];
    forall j | 0 <= j < |after| ensures PoppedInTurn(fair, has, ranked, order, before, after, j) {
      PopsKept(fair, has, ranked, order, before, popped, c, j);
    }
  }

  lemma PopsKept(fair: bool, has: string -> bool, ranked: seq<Candidate>, order: seq<nat>, before: Counts,
                 popped: seq<Candidate>, c: Candidate, j: nat)
    requires j <= |popped|
    requires j < |popped| ==> PoppedInTurn(fair, has, ranked, order, before, popped, j)
    requires var lanes := Rest(ranked, order, popped);
             j == |popped| ==>
               && Active(order, lanes) != []
               && c.priority == Choose(fair, Active(order, lanes), Tally(before, Grown(has, popped)))
               && c == lanes[c.priority][0]
    ensures PoppedInTurn(fair, has, ranked, order, before, popped + [c], j)
  {
    assert (popped + [c])[..j] == popped[..j];
    if j == |popped| {
      assert popped[..j] == popped;
    }
  }

  ghost predicate Laid(ranked: seq<Candidate>, order: seq<nat>, lanes: Lanes) {
    Distinct(order) && (forall p :: p in order <==> p in lanes) && (forall c :: c in ranked ==> c.priority in lanes)
  }

  /** Every admission was counted in its lane. */
  ghost predicate Counted(before: Counts, after: Counts, admitted: seq<Candidate>) {
    forall p :: Admitted(after, p) == Admitted(before, p) + |LaneOf(admitted, p)|
  }

  lemma CountNext(before: Counts, after: Counts, admitted: seq<Candidate>, c: Candidate)
    requires Counted(before, after, admitted)
    ensures Counted(before, Admit(after, c.priority), admitted + [c])
  {
    forall p ensures Admitted(Admit(after, c.priority), p) == Admitted(before, p) + |LaneOf(admitted + [c], p)| {
      LaneOfNext(admitted, c, p);
    }
  }

  /** No lane has run out. */
  ghost predicate Unspent(order: seq<nat>, lanes: Lanes)
    requires forall p :: p in order ==> p in lanes
  {
    order != [] && forall p :: p in order ==> lanes[p] != []
  }

  /** A lane only ever gets shorter: if none has run out after a pop, none had before. */
  lemma PopUnspent(order: seq<nat>, lanes: Lanes, p: nat)
    requires (forall q :: q in order ==> q in lanes) && p in lanes && lanes[p] != []
    ensures Unspent(order, lanes[p := lanes[p][1..]]) ==> Unspent(order, lanes) && Active(order, lanes) == order
  {
    if Unspent(order, lanes[p := lanes[p][1..]]) {
      forall q | q in order ensures lanes[q] != [] {
        assert lanes[p := lanes[p][1..]][q] != [];
      }
    }
  }
}
