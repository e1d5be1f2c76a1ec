/** How long a paying user keeps the plan: which subscription decides, which endings take the policy away and
    which answers give it, in every reachable state. */
module BillingTenure {
  import opened Text
  import opened Billing

  // --- Which subscription decides ---

  /** Whether a sync falls back on the subscription on file, Flash having none by reference. */
  predicate FromFile(u: User, w: World, id: Option<string>) {
    id.None? && w.byRef.None? && u.row.Some?
  }

  /** What Flash answers a sync: the subscription asked for by id, else the user's by reference, else the one on
      file. */
  function Reply(u: User, w: World, id: Option<string>): Option<Subscription> {
    if id.Some? then Lookup(w, id.value)
    else if w.byRef.Some? then w.byRef
    else if u.row.Some? then Lookup(w, u.row.value.subId)
    else None
  }

  /** The reply is about this user: it names them, or names nobody and came from the file or an administrator. */
  predicate Attributable(u: User, w: World, id: Option<string>, allow: bool, reply: Subscription) {
    if reply.ref == "" then allow || FromFile(u, w, id) else reply.ref == u.pubkey
  }

  /** `sub` decides: it is an attributable reply, or the user's current one where the reply is not the one on file. */
  predicate Decides(u: User, w: World, id: Option<string>, allow: bool, sub: Subscription) {
    var reply := Reply(u, w, id);
    && reply.Some? && Attributable(u, w, id, allow, reply.value)
    && (|| (reply.value == sub && (w.byRef.None? || !OnAnother(u, sub)))
        || (w.byRef == Some(sub) && OnAnother(u, reply.value)))
  }

  lemma ChooseDecides(u: User, w: World, id: Option<string>, allow: bool, sub: Subscription)
    ensures Decides(u, w, id, allow, sub) <==> Choose(u, w, id, allow) == Use(sub)
  {
  }

  /** An answer that names somebody else, or that is not there, leaves the user's policy and grant alone. */
  lemma ForeignMovesNobody(s: State, w: World, id: Option<string>, allow: bool, now: Time)
    requires var reply := Reply(s.user, w, id); reply.None? || (reply.value.ref != "" && reply.value.ref != s.user.pubkey)
    ensures Apply(s, Sync(w, id, allow), now).user == s.user
    ensures id.None? ==> var v := Apply(s, Reconcile(w), now).user;
              v.source == s.user.source && v.policy == s.user.policy && Granted(v) == Granted(s.user)
  {
  }

  /** Whatever decides names this user, or nobody where that is allowed; save that what Flash gives for the
      user's own reference is taken at its word when it replaces a subscription that is not the one on file. */
  lemma DecidingIsOwn(u: User, w: World, id: Option<string>, allow: bool, sub: Subscription)
    requires Decides(u, w, id, allow, sub)
    ensures || sub.ref == u.pubkey
            || (sub.ref == "" && (allow || FromFile(u, w, id)))
            || (w.byRef == Some(sub) && OnAnother(u, Reply(u, w, id).value))
  {
  }

  // --- When it is over ---

  /** No end date after `now`. */
  predicate RunOut(cancelAt: Option<Time>, periodEnd: Option<Time>, now: Time) {
    match EndDate(cancelAt, periodEnd)
    case Some(end) => end <= now
    case None => true
  }

  /** The ending is not in doubt. */
  predicate Over(status: Status, cancelAt: Option<Time>, periodEnd: Option<Time>, lifecycle: Lifecycle, now: Time) {
    match status
    case Expired => true
    case Paused => true
    case Canceled => lifecycle.endsAtOnce || RunOut(cancelAt, periodEnd, now)
    case PastDue =>
      && lifecycle.cancelsAfterFinalFailure == Some(false)
      && lifecycle.maxAttempts.Some? && lifecycle.attempts.Some? && lifecycle.maxAttempts.value <= lifecycle.attempts.value
    case _ => false
  }

  predicate SubscriptionOver(sub: Subscription, now: Time) {
    Over(sub.status, sub.cancelAt, sub.periodEnd, sub.lifecycle, now)
  }

  predicate Running(sub: Subscription) {
    sub.status.Active? || sub.status.Trial?
  }

  lemma EntitleMeans(sub: Subscription, now: Time)
    ensures Entitle(sub.status, sub.cancelAt, sub.periodEnd, now, sub.lifecycle) ==
            if SubscriptionOver(sub, now) then Revoke else if Running(sub) then Grant else Hold
  {
  }

  // --- What a step does to a paying user ---

  /** Billing has nothing more to do with the user. */
  predicate Ended(u: User) {
    u.source.Default? && u.policy.None? && Granted(u).None?
  }

  predicate OnPlan(u: User, plan: int) {
    u.source.Paid? && u.policy == Some(plan) && Granted(u) == Some(plan)
  }

  /** What a settled answer leaves of a paying user: nothing where the subscription is over, its plan where it
      is running, and what they had where neither is sure. */
  predicate Settles(u: User, v: User, sub: Subscription, plan: int, now: Time) {
    if SubscriptionOver(sub, now) then Ended(v)
    else if Running(sub) then OnPlan(v, plan)
    else v.source.Paid? && v.policy == u.policy && Granted(v) == Granted(u)
  }

  lemma AnswerSettles(u: User, w: World, id: Option<string>, allow: bool, now: Time, sub: Subscription)
    requires Sound(u) && u.source.Paid? && Decides(u, w, id, allow, sub) && sub.plan in w.plans
    ensures Settles(u, ApplyEntitlement(u, w, id, allow, now).0, sub, w.plans[sub.plan], now)
    ensures ApplyEntitlement(u, w, id, allow, now).1.None?
  {
    ChooseDecides(u, w, id, allow, sub);
    EntitleMeans(sub, now);
  }

  /** Where no subscription for a mapped plan decides, nothing is settled. */
  lemma NoAnswerSettlesNothing(u: User, w: World, id: Option<string>, allow: bool, now: Time)
    requires forall sub :: Decides(u, w, id, allow, sub) ==> sub.plan !in w.plans
    ensures ApplyEntitlement(u, w, id, allow, now).0 == u && ApplyEntitlement(u, w, id, allow, now).1.Some?
  {
    var c := Choose(u, w, id, allow);
    if c.Use? {
      ChooseDecides(u, w, id, allow, c.sub);
    }
  }

  /** A sync takes a paying user's policy: a subscription for a mapped plan decides, and it is over. */
  ghost predicate SyncEnds(u: User, w: World, id: Option<string>, allow: bool, now: Time) {
    exists sub :: Decides(u, w, id, allow, sub) && sub.plan in w.plans && SubscriptionOver(sub, now)
  }

  lemma SyncTakes(u: User, w: World, id: Option<string>, allow: bool, now: Time)
    requires Sound(u) && u.source.Paid?
    ensures var v := ApplyEntitlement(u, w, id, allow, now).0;
            if SyncEnds(u, w, id, allow, now) then Ended(v) else v.source.Paid?
  {
    if sub :| Decides(u, w, id, allow, sub) && sub.plan in w.plans {
      ChooseDecides(u, w, id, allow, sub);
      AnswerSettles(u, w, id, allow, now, sub);
      forall other | Decides(u, w, id, allow, other) ensures other == sub {
        ChooseDecides(u, w, id, allow, other);
      }
    } else {
      NoAnswerSettlesNothing(u, w, id, allow, now);
    }
  }

  /** The step takes a paying user's policy: a sync whose deciding subscription is over; a sweep that finds the
      stored row over, though it knows nothing of how it ends; word that it expired; or a block. */
  ghost predicate Takes(u: User, step: Step, now: Time) {
    match step
    case Sync(w, id, allow) => SyncEnds(u, w, id, allow, now)
    case Reconcile(w) => SyncEnds(u, w, None, false, now)
    case Lapse =>
      u.row.Some? && Over(u.row.value.status, u.row.value.cancelAt, u.row.value.periodEnd, UNKNOWN_LIFECYCLE, now)
    case Fallback(event) => event.SubscriptionExpired?
    case Block(blocked) => blocked
    case _ => false
  }

  lemma LapseTakes(u: User, now: Time)
    requires Sound(u) && u.source.Paid?
    ensures if Takes(u, Lapse, now) then Ended(LapseSweep(u, now)) else LapseSweep(u, now) == u
  {
    var r := u.row.value;
    EntitleMeans(Subscription("", "", "", r.status, r.cancelAt, r.periodEnd, UNKNOWN_LIFECYCLE), now);
  }

  lemma StepTakes(s: State, step: Step, now: Time)
    requires Sound(s.user) && s.user.source.Paid? && ByBilling(step)
    ensures var v := Apply(s, step, now).user; if Takes(s.user, step, now) then Ended(v) else v.source.Paid?
  {
    match step
    case Sync(w, id, allow) => SyncTakes(s.user, w, id, allow, now);
    case Reconcile(w) =>
      SyncTakes(s.user, w, None, false, now);
      if ApplyEntitlement(s.user, w, None, false, now).1.Some? {
        RefusedKeeps(s.user, w, None, false, now);
      }
    case Lapse => LapseTakes(s.user, now);
    case _ =>
  }

  lemma RefusedKeeps(u: User, w: World, id: Option<string>, allow: bool, now: Time)
    requires ApplyEntitlement(u, w, id, allow, now).1.Some?
    ensures ApplyEntitlement(u, w, id, allow, now).0 == u
  {
  }

  // --- Over every run ---

  /** In every reachable state a paying user loses the policy at a billing step if and only if the step takes
      it, in the sense of `Takes`; losing it leaves nothing recorded as granted. */
  lemma PolicyTakenWhen(pubkey: Pubkey, steps: seq<(Step, Time)>, step: Step, now: Time)
    requires Run(pubkey, steps + [(step, now)]).Some? && ByBilling(step)
    ensures Run(pubkey, steps).Some?
    ensures var u, v := Run(pubkey, steps).value.user, Run(pubkey, steps + [(step, now)]).value.user;
            u.source.Paid? ==> if Takes(u, step, now) then Ended(v) else v.source.Paid?
  {
    var all := steps + [(step, now)];
    assert all[..|steps|] == steps && all[|all| - 1] == (step, now);
    RunSound(pubkey, steps);
    if Run(pubkey, steps).value.user.source.Paid? {
      StepTakes(Run(pubkey, steps).value, step, now);
    }
  }

  /** An active or trial answer for a mapped plan gives a user who is not blocked that plan, under the
      administrator's hold where there is one; a blocked user stays as they were. */
  lemma RunningGivesPlan(s: State, w: World, id: Option<string>, allow: bool, now: Time, sub: Subscription)
    requires Decides(s.user, w, id, allow, sub) && sub.plan in w.plans && Running(sub)
    ensures Given(s.user, Apply(s, Sync(w, id, allow), now).user, w.plans[sub.plan])
    ensures id.None? && !allow ==> Given(s.user, Apply(s, Reconcile(w), now).user, w.plans[sub.plan])
  {
    ChooseDecides(s.user, w, id, allow, sub);
  }

  predicate Given(u: User, v: User, plan: int) {
    if u.blocked then v.policy == u.policy && v.source == u.source && Granted(v) == Granted(u)
    else v.policy == Some(plan) && Granted(v) == Some(plan) && v.source == if u.source.Admin? then Admin else Paid
  }

  /** Step `i` of the stretch does not take the policy. */
  ghost predicate Spares(pubkey: Pubkey, before: seq<(Step, Time)>, after: seq<(Step, Time)>, i: nat)
    requires i < |after|
  {
    var s := Run(pubkey, before + after[..i]);
    s.Some? && ByBilling(after[i].0) && !Takes(s.value.user, after[i].0, after[i].1)
  }

  /** Over any stretch of billing steps, none of which takes it, a paying user stays on a paid plan. */
  lemma {:induction false} PlanLasts(pubkey: Pubkey, before: seq<(Step, Time)>, after: seq<(Step, Time)>)
    requires Run(pubkey, before).Some? && Run(pubkey, before).value.user.source.Paid?
    requires Run(pubkey, before + after).Some? && forall i: nat :: i < |after| ==> Spares(pubkey, before, after, i)
    ensures Run(pubkey, before + after).value.user.source.Paid?
    decreases |after|
  {
    if after == [] {
      assert before + after == before;
    } else {
      var n := |after| - 1;
      assert Spares(pubkey, before, after, n);
      assert before + after == before + after[..n] + [after[n]];
      forall i: nat | i < n ensures Spares(pubkey, before, after[..n], i) {
        assert Spares(pubkey, before, after, i) && after[..n][..i] == after[..i];
      }
      PlanLasts(pubkey, before, after[..n]);
      PolicyTakenWhen(pubkey, before + after[..n], after[n].0, after[n].1);
    }
  }

  /** Word from Flash of a cancellation or a failed payment takes nothing at once. What the sweep then does is up
      to the dates on file: a cancellation ends when they have run out, and a failed payment never by the sweep. */
  lemma WordOfEnding(u: User, event: Event, later: Time)
    requires Sound(u) && u.source.Paid? && (event.SubscriptionCanceled? || event.SubscriptionPastDue?)
    ensures var v := PayloadFallback(u, event);
            && v.source == u.source && v.policy == u.policy && Granted(v) == Granted(u) && v.row.Some?
            && (Takes(v, Lapse, later) <==>
                  event.SubscriptionCanceled? && RunOut(u.row.value.cancelAt, u.row.value.periodEnd, later))
  {
  }

  /** What a settled answer leaves for the sweep: from then on it goes by that subscription's own status and
      dates, whatever was on file before. */
  lemma SweepGoesByAnswer(u: User, w: World, id: Option<string>, allow: bool, now: Time, sub: Subscription, later: Time)
    requires Decides(u, w, id, allow, sub) && sub.plan in w.plans
    ensures var v := ApplyEntitlement(u, w, id, allow, now).0;
            && v.row.Some? && v.row.value.subId == sub.id
            && (Takes(v, Lapse, later) <==> Over(sub.status, sub.cancelAt, sub.periodEnd, UNKNOWN_LIFECYCLE, later))
  {
    ChooseDecides(u, w, id, allow, sub);
  }
}
