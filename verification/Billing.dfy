/** Who is on which scheduling policy and why: the billing decision tables and, per user, every step that
    moves policy, source, block or recorded grant (app/services/billing_service.py,
    app/services/billing_sync_service.py, app/repos/user_subscription_repo.py, app/routers/admin/users/router.py). */
module Billing {
  import opened Text

  type Pubkey = string
  type Time = int

  // --- What Flash says ---

  /** How Flash says a subscription ends: a cancellation mode of `immediate` or any other, and the dunning; None is
      what it did not tell. */
  datatype Lifecycle = Lifecycle(endsAtOnce: bool, maxAttempts: Option<int>, attempts: Option<int>,
                                 cancelsAfterFinalFailure: Option<bool>)

  /** Flash's status set is open: anything unlisted is held. */
  datatype Status = Active | Trial | Expired | Paused | PastDue | Canceled | Pending | OtherStatus(name: string)

  const UNKNOWN_LIFECYCLE := Lifecycle(false, None, None, None)

  datatype Subscription = Subscription(id: string, ref: string, plan: string, status: Status, cancelAt: Option<Time>,
                                       periodEnd: Option<Time>, lifecycle: Lifecycle)

  /** Flash's answers by reference and by id, and the plans mapped here to a policy. */
  datatype World = World(byRef: Option<Subscription>, byId: map<string, Subscription>, plans: map<string, int>)

  // --- What is stored of one user ---

  /** Why the last sync of a row settled nothing: Flash's answer, or that it could not be asked. */
  datatype SyncError = Answer(reason: Reason) | Message(text: string)

  datatype Source = Default | Paid | Admin

  datatype Row = Row(subId: string, granted: Option<int>, status: Status, periodEnd: Option<Time>, cancelAt: Option<Time>,
                     error: Option<SyncError>, errorSince: Option<Time>)

  datatype User = User(pubkey: Pubkey, source: Source, policy: Option<int>, blocked: bool, row: Option<Row>)

  function Granted(u: User): Option<int> {
    if u.row.Some? then u.row.value.granted else None
  }

  // --- Decisions ---

  datatype Decision = Grant | Hold | Revoke

  datatype Reason = GrantedPlan | Revoked | Held | Blocked | AdminOverride | NoReference | UnknownPlan | UnknownSubscription | ReferenceMismatch

  function Entitle(status: Status, cancelAt: Option<Time>, periodEnd: Option<Time>, now: Time, lifecycle: Lifecycle): Decision {
    match status
    case Active => Grant
    case Trial => Grant
    case Expired => Revoke
    case Paused => Revoke
    case PastDue => EntitlePastDue(lifecycle)
    case Canceled => EntitleCancelled(lifecycle, cancelAt, periodEnd, now)
    case _ => Hold
  }

  function EntitlePastDue(lifecycle: Lifecycle): Decision {
    if lifecycle.cancelsAfterFinalFailure != Some(false) || lifecycle.attempts.None? || lifecycle.maxAttempts.None? then Hold
    else if lifecycle.attempts.value >= lifecycle.maxAttempts.value then Revoke
    else Hold
  }

  function EntitleCancelled(lifecycle: Lifecycle, cancelAt: Option<Time>, periodEnd: Option<Time>, now: Time): Decision {
    var endsAt := if cancelAt.Some? then cancelAt else periodEnd;
    if lifecycle.endsAtOnce then Revoke
    else if endsAt.Some? && now < endsAt.value then Hold
    else Revoke
  }

  /** The sweep, which knows nothing of how a subscription ends, is conservative: where it revokes, a full
      answer from Flash with the same status and dates revokes too. */
  lemma SweepIsConservative(status: Status, cancelAt: Option<Time>, periodEnd: Option<Time>, now: Time, lifecycle: Lifecycle)
    requires Entitle(status, cancelAt, periodEnd, now, UNKNOWN_LIFECYCLE).Revoke?
    ensures Entitle(status, cancelAt, periodEnd, now, lifecycle).Revoke?
    ensures !status.PastDue?
  {
  }

  /** When a cancellation takes effect that is not at once: the date Flash gives for it, else the end of the
      paid period. */
  function EndDate(cancelAt: Option<Time>, periodEnd: Option<Time>): Option<Time> {
    if cancelAt.Some? then cancelAt else periodEnd
  }

  /** As time passes, what was granted stays granted and what was revoked stays revoked. Only a hold can end,
      and it ends by time alone exactly for a cancellation whose end date comes due in between. */
  lemma DecisionsOnlyEnd(status: Status, cancelAt: Option<Time>, periodEnd: Option<Time>, now: Time, later: Time, lifecycle: Lifecycle)
    requires now <= later
    ensures var d, e := Entitle(status, cancelAt, periodEnd, now, lifecycle), Entitle(status, cancelAt, periodEnd, later, lifecycle);
            && (d.Grant? <==> e.Grant?) && (d.Revoke? ==> e.Revoke?) && (e.Hold? ==> d.Hold?)
            && (d.Hold? && e.Revoke? <==>
                  && status.Canceled? && !lifecycle.endsAtOnce
                  && EndDate(cancelAt, periodEnd).Some? && now < EndDate(cancelAt, periodEnd).value <= later)
  {
  }

  datatype Resolution = Resolution(write: bool, policy: Option<int>, source: Source, granted: Option<int>, reason: Reason)

  function Resolve(d: Decision, blocked: bool, adminHeld: bool, plan: int, existing: Option<int>): Resolution {
    match d
    case Grant =>
      if blocked then Resolution(false, None, Default, existing, Blocked)
      else Resolution(true, Some(plan), if adminHeld then Admin else Paid, Some(plan), GrantedPlan)
    case Revoke =>
      if adminHeld then Resolution(false, None, Default, existing, AdminOverride)
      else Resolution(true, None, Default, None, Revoked)
    case Hold => Resolution(false, None, Default, existing, Held)
  }

  function Write(u: User, r: Resolution): User {
    if r.write then u.(policy := r.policy, source := r.source) else u
  }

  // --- Reading Flash ---

  datatype Choice = Use(sub: Subscription) | Refuse(reason: Reason)

  /** Which subscription decides: by id where one is given, else by reference, else the one on file; refused
      where it names nobody or somebody else, and replaced by the current one where it is not the one on file. */
  function Choose(u: User, w: World, id: Option<string>, allowUnreferenced: bool): Choice {
    var asked := if id.Some? then Lookup(w, id.value) else w.byRef;
    var stored := asked.None? && id.None? && u.row.Some?;
    var found := if stored then Lookup(w, u.row.value.subId) else asked;
    if found.None? then Refuse(UnknownSubscription)
    else if found.value.ref == "" && !allowUnreferenced && !stored then Refuse(NoReference)
    else if found.value.ref != "" && found.value.ref != u.pubkey then Refuse(ReferenceMismatch)
    else if OnAnother(u, found.value) && w.byRef.Some? then Use(w.byRef.value)
    else Use(found.value)
  }

  function Lookup(w: World, id: string): Option<Subscription> {
    if id in w.byId then Some(w.byId[id]) else None
  }

  predicate OnAnother(u: User, sub: Subscription) {
    sub.ref != "" && u.row.Some? && u.row.value.subId != "" && u.row.value.subId != sub.id
  }

  function Record(sub: Subscription, granted: Option<int>): Row {
    Row(sub.id, granted, sub.status, sub.periodEnd, sub.cancelAt, None, None)
  }

  function GrantAndRecord(u: User, sub: Subscription, plan: int, now: Time): User {
    var r := Resolve(Entitle(sub.status, sub.cancelAt, sub.periodEnd, now, sub.lifecycle), u.blocked, u.source.Admin?, plan, Granted(u));
    Write(u, r).(row := Some(Record(sub, r.granted)))
  }

  /** `apply_entitlement`: the user after it, and the reason where nothing was settled. */
  function ApplyEntitlement(u: User, w: World, id: Option<string>, allowUnreferenced: bool, now: Time): (User, Option<Reason>) {
    match Choose(u, w, id, allowUnreferenced)
    case Refuse(reason) => (u, Some(reason))
    case Use(sub) =>
      if sub.plan !in w.plans then (u, Some(UnknownPlan))
      else (GrantAndRecord(u, sub, w.plans[sub.plan], now), None)
  }

  // --- The other steps ---

  function Revocation(u: User): User {
    var r := Resolve(Revoke, false, u.source.Admin?, 0, Granted(u));
    if r.write then ClearGrant(Write(u, r)) else u
  }

  function ClearGrant(u: User): User {
    if u.row.Some? then u.(row := Some(u.row.value.(granted := None))) else u
  }

  predicate Lapsed(u: User, now: Time) {
    && Granted(u).Some?
    && Entitle(u.row.value.status, u.row.value.cancelAt, u.row.value.periodEnd, now, UNKNOWN_LIFECYCLE).Revoke?
  }

  function LapseSweep(u: User, now: Time): User {
    if Lapsed(u, now) then Revocation(u) else u
  }

  datatype Event = SubscriptionExpired | SubscriptionCanceled | SubscriptionPastDue | OtherEvent(name: string)

  function FallbackStatus(event: Event): Option<Status> {
    match event
    case SubscriptionExpired => Some(Expired)
    case SubscriptionCanceled => Some(Canceled)
    case SubscriptionPastDue => Some(PastDue)
    case OtherEvent(_) => None
  }

  function PayloadFallback(u: User, event: Event): User {
    var status := FallbackStatus(event);
    if status.None? || u.row.None? then u
    else
      var v := if status.value.Expired? then Revocation(u) else u;
      var row := v.row.value;
      var cancelAt := if status.value.Canceled? && row.cancelAt.None? then row.periodEnd else row.cancelAt;
      v.(row := Some(row.(status := status.value, cancelAt := cancelAt)))
  }

  function SetBlock(u: User, blocked: bool): User {
    var v := u.(blocked := blocked);
    if blocked && u.source.Paid? then ClearGrant(v.(policy := None, source := Default)) else v
  }

  function Assign(u: User, policy: int): User {
    u.(policy := Some(policy), source := Admin)
  }

  // --- The failure clock ---

  function RecordFailure(u: User, reason: SyncError, now: Time): User {
    if u.row.None? then u
    else
      var row := u.row.value;
      var since := if row.error == Some(reason) && row.errorSince.Some? then row.errorSince else Some(now);
      u.(row := Some(row.(error := Some(reason), errorSince := since)))
  }

  predicate Abandoned(row: Row, after: Time, now: Time) {
    && row.status.Pending? && row.granted.None?
    && row.error == Some(Answer(UnknownSubscription)) && row.errorSince.Some? && row.errorSince.value <= now - after
  }

  // --- Runs ---

  /** What a sync of the row left behind: an answer that was written, or a failure and its reason. */
  datatype Entry = Settled | Failed(reason: SyncError, at: Time)

  datatype State = State(user: User, log: seq<Entry>, clock: Time)

  datatype Step =
    | Sync(w: World, id: Option<string>, allowUnreferenced: bool)
    | Reconcile(w: World)
    | Outage(message: string)
    | Lapse
    | Fallback(event: Event)
    | Block(blocked: bool)
    | AdminAssign(policy: int)
    | AdminRelease(world: Option<World>)

  function Synced(s: State, out: (User, Option<Reason>)): State {
    s.(user := out.0, log := if out.1.None? then s.log + [Settled] else s.log)
  }

  function Failing(s: State, reason: SyncError): State {
    if s.user.row.None? then s
    else s.(user := RecordFailure(s.user, reason, s.clock), log := s.log + [Failed(reason, s.clock)])
  }

  /** One step at time `now`, never earlier than the last. */
  function Apply(s0: State, step: Step, now: Time): State {
    var s := s0.(clock := now);
    match step
    case Sync(w, id, allow) => Synced(s, ApplyEntitlement(s.user, w, id, allow, now))
    case Reconcile(w) =>
      var out := ApplyEntitlement(s.user, w, None, false, now);
      if out.1.Some? then Failing(s, Answer(out.1.value)) else Synced(s, out)
    case Outage(message) => Failing(s, Message(message))
    case Lapse => s.(user := LapseSweep(s.user, now))
    case Fallback(event) => s.(user := PayloadFallback(s.user, event))
    case Block(blocked) => s.(user := SetBlock(s.user, blocked))
    case AdminAssign(policy) => s.(user := Assign(s.user, policy))
    case AdminRelease(w) =>
      var v := s.user.(policy := None, source := Default);
      if w.Some? then Synced(s, ApplyEntitlement(v, w.value, None, false, now)) else s.(user := v)
  }

  predicate Enabled(s: State, step: Step, now: Time) {
    s.clock <= now
  }

  function Start(pubkey: Pubkey): State {
    State(User(pubkey, Default, None, false, None), [], 0)
  }

  function Run(pubkey: Pubkey, steps: seq<(Step, Time)>): Option<State> {
    if steps == [] then Some(Start(pubkey))
    else
      var n := |steps| - 1;
      var s := Run(pubkey, steps[..n]);
      if s.Some? && Enabled(s.value, steps[n].0, steps[n].1) then Some(Apply(s.value, steps[n].0, steps[n].1)) else None
  }

  // --- Entitlement over every run ---

  /** Paid means the recorded grant is the live policy and nobody barred it; default means no policy; an
      administrator's choice is a policy. */
  predicate Sound(u: User) {
    && (u.source.Paid? ==> u.policy.Some? && Granted(u) == u.policy && !u.blocked)
    && (u.source.Default? ==> u.policy.None?)
    && (u.source.Admin? ==> u.policy.Some?)
  }

  /** Nothing is recorded as granted to a user on the default policy. */
  predicate Clean(u: User) {
    u.source.Default? ==> Granted(u).None?
  }

  lemma EntitlementSound(u: User, w: World, id: Option<string>, allow: bool, now: Time)
    requires Sound(u)
    ensures Sound(ApplyEntitlement(u, w, id, allow, now).0)
    ensures Clean(u) ==> Clean(ApplyEntitlement(u, w, id, allow, now).0)
    ensures u.source.Admin? ==> ApplyEntitlement(u, w, id, allow, now).0.source.Admin?
  {
  }

  lemma StepSound(s: State, step: Step, now: Time)
    requires Sound(s.user)
    ensures Sound(Apply(s, step, now).user)
  {
    match step
    case Sync(w, id, allow) => EntitlementSound(s.user, w, id, allow, now);
    case Reconcile(w) => EntitlementSound(s.user, w, None, false, now);
    case AdminRelease(w) => if w.Some? { EntitlementSound(s.user.(policy := None, source := Default), w.value, None, false, now); }
    case _ =>
  }

  /** Only a release can record a default user with a grant. */
  lemma StepClean(s: State, step: Step, now: Time)
    requires Sound(s.user) && Clean(s.user) && !step.AdminRelease?
    ensures Clean(Apply(s, step, now).user)
  {
    match step
    case Sync(w, id, allow) => EntitlementSound(s.user, w, id, allow, now);
    case Reconcile(w) => EntitlementSound(s.user, w, None, false, now);
    case _ =>
  }

  /** In every reachable state: a billing-sourced policy is the recorded grant of a user nobody blocked, and a
      default-sourced one is no policy. */
  lemma {:induction false} RunSound(pubkey: Pubkey, steps: seq<(Step, Time)>)
    requires Run(pubkey, steps).Some?
    ensures Sound(Run(pubkey, steps).value.user)
  {
    if steps != [] {
      var n := |steps| - 1;
      RunSound(pubkey, steps[..n]);
      StepSound(Run(pubkey, steps[..n]).value, steps[n].0, steps[n].1);
    }
  }

  ghost predicate NoReleases(steps: seq<(Step, Time)>) {
    forall i :: 0 <= i < |steps| ==> !steps[i].0.AdminRelease?
  }

  /** Without releases, default also means nothing recorded as granted. */
  lemma {:induction false} RunClean(pubkey: Pubkey, steps: seq<(Step, Time)>)
    requires Run(pubkey, steps).Some? && NoReleases(steps)
    ensures Clean(Run(pubkey, steps).value.user)
  {
    if steps != [] {
      var n := |steps| - 1;
      RunClean(pubkey, steps[..n]);
      RunSound(pubkey, steps[..n]);
      StepClean(Run(pubkey, steps[..n]).value, steps[n].0, steps[n].1);
    }
  }

  predicate ByBilling(step: Step) {
    !step.AdminAssign? && !step.AdminRelease?
  }

  /** Billing never takes an admin-held user back to the default: only an administrator ends the hold. */
  lemma AdminHoldStands(s: State, step: Step, now: Time)
    requires Sound(s.user) && s.user.source.Admin? && ByBilling(step)
    ensures Apply(s, step, now).user.source.Admin? && Apply(s, step, now).user.policy.Some?
  {
    StepSound(s, step, now);
    match step
    case Sync(w, id, allow) => EntitlementSound(s.user, w, id, allow, now);
    case Reconcile(w) => EntitlementSound(s.user, w, None, false, now);
    case _ =>
  }

  /** The same over any stretch of billing steps. */
  lemma {:induction false} AdminHoldLasts(pubkey: Pubkey, before: seq<(Step, Time)>, after: seq<(Step, Time)>)
    requires Run(pubkey, before).Some? && Run(pubkey, before).value.user.source.Admin?
    requires Run(pubkey, before + after).Some? && forall i :: 0 <= i < |after| ==> ByBilling(after[i].0)
    ensures Run(pubkey, before + after).value.user.source.Admin?
    decreases |after|
  {
    if after == [] {
      assert before + after == before;
    } else {
      var n := |after| - 1;
      var steps := before + after;
      assert steps[..|steps| - 1] == before + after[..n] && steps[|steps| - 1] == after[n];
      AdminHoldLasts(pubkey, before, after[..n]);
      RunSound(pubkey, before + after[..n]);
      AdminHoldStands(Run(pubkey, before + after[..n]).value, after[n].0, after[n].1);
    }
  }

  // --- Where a release leaves a grant behind ---

  /** Flash's answer decides, and what it decides. */
  function FlashDecides(u: User, w: Option<World>, now: Time): Option<Decision> {
    if w.None? then None
    else
      match Choose(u, w.value, None, false)
      case Refuse(_) => None
      case Use(sub) => if sub.plan in w.value.plans then Some(Entitle(sub.status, sub.cancelAt, sub.periodEnd, now, sub.lifecycle)) else None
  }

  /** A release is clean if and only if nothing was recorded as granted, or Flash's answer takes it back, or
      grants again to a user not blocked. */
  lemma ReleaseCleanWhen(s: State, w: Option<World>, now: Time)
    requires Sound(s.user)
    ensures Clean(Apply(s, AdminRelease(w), now).user) <==>
            Granted(s.user).None? || FlashDecides(s.user, w, now) == Some(Revoke) || (FlashDecides(s.user, w, now) == Some(Grant) && !s.user.blocked)
  {
    var v := s.user.(policy := None, source := Default);
    assert w.Some? ==> Choose(v, w.value, None, false) == Choose(s.user, w.value, None, false);
  }

  /** The documented state of a user who never subscribed, no policy and no grant, fails after a release that
      Flash could not be asked about. */
  lemma ReleaseLeavesGrant() returns (steps: seq<(Step, Time)>)
    ensures Run("u", steps).Some?
    ensures Run("u", steps).value.user.source.Default? && Granted(Run("u", steps).value.user) == Some(7)
  {
    var sub := Subscription("s", "u", "p", Active, None, None, UNKNOWN_LIFECYCLE);
    var w := World(Some(sub), map["s" := sub], map["p" := 7]);
    var a, b, c := (Sync(w, None, false), 1), (AdminAssign(9), 2), (AdminRelease(None), 3);
    steps := [a, b, c];
    assert steps[..2] == [a, b] && steps[..1] == [a] && steps[..0] == [];
    assert [a, b][..1] == steps[..1] && [a][..0] == steps[..0];
    var s1 := Apply(Start("u"), a.0, 1);
    assert Run("u", [a]) == Some(s1);
    assert Granted(s1.user) == Some(7);
    var s2 := Apply(s1, b.0, 2);
    assert Run("u", [a, b]) == Some(s2);
  }

  /** The recorded billing grant is the policy in force. */
  predicate OnGrant(u: User) {
    u.policy.Some? && Granted(u) == u.policy
  }

  /** A block leaves nobody on a billing-sourced policy. The plan billing granted stays in force through it if
      and only if an administrator holds the user and it was in force. */
  lemma BlockTakesBack(u: User)
    requires Sound(u)
    ensures var v := SetBlock(u, true);
            && v.blocked && !v.source.Paid?
            && (OnGrant(v) <==> u.source.Admin? && OnGrant(u))
            && (u.source.Admin? ==> v == u.(blocked := true))
            && (u.source.Paid? ==> v.policy.None? && Granted(v).None?)
  {
  }

  /** So a block does not take back every policy billing granted: one granted to an admin-held user stays. */
  lemma BlockLeavesGrant() returns (steps: seq<(Step, Time)>)
    ensures Run("u", steps).Some? && Run("u", steps).value.user.blocked
    ensures Run("u", steps).value.user.policy == Granted(Run("u", steps).value.user) == Some(7)
  {
    var sub := Subscription("s", "u", "p", Active, None, None, UNKNOWN_LIFECYCLE);
    var w := World(Some(sub), map["s" := sub], map["p" := 7]);
    var a: (Step, Time), b: (Step, Time), c: (Step, Time) := (AdminAssign(9), 1), (Sync(w, None, false), 2), (Block(true), 3);
    steps := [a, b, c];
    assert steps[..2] == [a, b] && [a, b][..1] == [a] && [a][..0] == steps[..0];
    var s1 := Apply(Start("u"), a.0, 1);
    assert Run("u", [a]) == Some(s1);
    assert s1.user == User("u", Admin, Some(9), false, None);
    var s2 := Apply(s1, b.0, 2);
    assert Run("u", [a, b]) == Some(s2);
    assert s2.user == User("u", Admin, Some(7), false, Some(Record(sub, Some(7))));
  }

  // --- The failure clock over every run ---

  /** The time of the first failure in the unbroken run of the same reason the log ends with. */
  ghost function FailingSince(log: seq<Entry>): Option<(SyncError, Time)> {
    if log == [] || log[|log| - 1].Settled? then None
    else
      var last := log[|log| - 1];
      var before := FailingSince(log[..|log| - 1]);
      if before.Some? && before.value.0 == last.reason then before else Some((last.reason, last.at))
  }

  /** Which is: all entries from some index on failed for that reason, the first of them at that time, and the
      entry before it, if any, did not. */
  lemma {:induction false} FailingSinceIs(log: seq<Entry>) returns (i: nat)
    requires FailingSince(log).Some?
    ensures i < |log| && log[i] == Failed(FailingSince(log).value.0, FailingSince(log).value.1)
    ensures forall j :: i <= j < |log| ==> log[j].Failed? && log[j].reason == FailingSince(log).value.0
    ensures i > 0 ==> log[i - 1].Settled? || log[i - 1].reason != FailingSince(log).value.0
  {
    var n := |log| - 1;
    var front := log[..n];
    if FailingSince(front).Some? {
      var k := FailingSinceIs(front);
      if FailingSince(front).value.0 == log[n].reason {
        i := k;
      } else {
        i := n;
        assert front[n - 1] == log[n - 1];
      }
    } else {
      i := n;
      if n > 0 {
        assert front[n - 1] == log[n - 1];
      }
    }
  }

  /** The stored clock is the one the log gives, and times only grow. */
  ghost predicate Clocked(s: State) {
    && (s.user.row.None? ==> s.log == [])
    && (s.user.row.Some? ==>
          match FailingSince(s.log)
          case None => s.user.row.value.error.None? && s.user.row.value.errorSince.None?
          case Some(f) => s.user.row.value.error == Some(f.0) && s.user.row.value.errorSince == Some(f.1))
    && InTime(s.log, s.clock)
  }

  ghost predicate InTime(log: seq<Entry>, clock: Time) {
    && (forall i :: 0 <= i < |log| && log[i].Failed? ==> log[i].at <= clock)
    && (forall i, j :: 0 <= i < j < |log| && log[i].Failed? && log[j].Failed? ==> log[i].at <= log[j].at)
  }

  lemma SettledClocked(s: State, user: User)
    requires InTime(s.log, s.clock) && user.row.Some? && user.row.value.error.None? && user.row.value.errorSince.None?
    ensures Clocked(s.(user := user, log := s.log + [Settled]))
  {
  }

  lemma FailingClocked(s: State, reason: SyncError)
    requires Clocked(s)
    ensures Clocked(Failing(s, reason))
  {
    if s.user.row.Some? {
      var log' := s.log + [Failed(reason, s.clock)];
      assert log'[..|log'| - 1] == s.log;
    }
  }

  lemma SyncedClocked(s: State, u: User, w: World, id: Option<string>, allow: bool)
    requires Clocked(s) && u.row == s.user.row
    ensures Clocked(Synced(s, ApplyEntitlement(u, w, id, allow, s.clock)))
  {
    var out := ApplyEntitlement(u, w, id, allow, s.clock);
    if out.1.None? {
      SettledClocked(s, out.0);
    }
  }

  /** The steps that leave a row's failure fields alone. */
  lemma SameClocked(s: State, user: User)
    requires Clocked(s) && user.row.Some? == s.user.row.Some?
    requires user.row.Some? ==> user.row.value.error == s.user.row.value.error && user.row.value.errorSince == s.user.row.value.errorSince
    ensures Clocked(s.(user := user))
  {
  }

  lemma StepClocked(s0: State, step: Step, now: Time)
    requires Clocked(s0) && Enabled(s0, step, now)
    ensures Clocked(Apply(s0, step, now))
  {
    var s := s0.(clock := now);
    assert Clocked(s);
    match step
    case Sync(w, id, allow) => SyncedClocked(s, s.user, w, id, allow);
    case Reconcile(w) =>
      var out := ApplyEntitlement(s.user, w, None, false, now);
      if out.1.Some? {
        FailingClocked(s, Answer(out.1.value));
      } else {
        SyncedClocked(s, s.user, w, None, false);
      }
    case Outage(message) => FailingClocked(s, Message(message));
    case Lapse => SameClocked(s, LapseSweep(s.user, now));
    case Fallback(event) => SameClocked(s, PayloadFallback(s.user, event));
    case Block(blocked) => SameClocked(s, SetBlock(s.user, blocked));
    case AdminAssign(policy) => SameClocked(s, Assign(s.user, policy));
    case AdminRelease(w) =>
      var v := s.user.(policy := None, source := Default);
      if w.Some? {
        SyncedClocked(s, v, w.value, None, false);
      } else {
        SameClocked(s, v);
      }
  }

  /** In every reachable state the stored clock tells since when the row has been failing for its last reason
      without a break. */
  lemma {:induction false} RunClocked(pubkey: Pubkey, steps: seq<(Step, Time)>)
    requires Run(pubkey, steps).Some?
    ensures Clocked(Run(pubkey, steps).value)
  {
    if steps != [] {
      var n := |steps| - 1;
      RunClocked(pubkey, steps[..n]);
      StepClocked(Run(pubkey, steps[..n]).value, steps[n].0, steps[n].1);
    }
  }

  /** From some sync at least `after` ago, every one recorded answered that Flash knows no subscription. */
  ghost predicate UnknownThroughout(log: seq<Entry>, due: Time) {
    exists i :: 0 <= i < |log| && log[i].Failed? && log[i].at <= due
      && forall j :: i <= j < |log| ==> log[j].Failed? && log[j].reason == Answer(UnknownSubscription)
  }

  lemma {:induction false} SuffixFails(log: seq<Entry>, i: nat)
    requires i < |log| && forall j :: i <= j < |log| ==> log[j].Failed? && log[j].reason == Answer(UnknownSubscription)
    ensures FailingSince(log).Some? && FailingSince(log).value.0 == Answer(UnknownSubscription)
    decreases |log|
  {
  }

  lemma UnknownSince(log: seq<Entry>, clock: Time, due: Time)
    requires InTime(log, clock)
    ensures UnknownThroughout(log, due) <==>
            FailingSince(log).Some? && FailingSince(log).value.0 == Answer(UnknownSubscription) && FailingSince(log).value.1 <= due
  {
    if UnknownThroughout(log, due) {
      var i :| 0 <= i < |log| && log[i].Failed? && log[i].at <= due
        && forall j :: i <= j < |log| ==> log[j].Failed? && log[j].reason == Answer(UnknownSubscription);
      SuffixFails(log, i);
      var k := FailingSinceIs(log);
      assert k <= i ==> log[k].at <= log[i].at;
      assert k <= i;
    }
    if FailingSince(log).Some? && FailingSince(log).value.0 == Answer(UnknownSubscription) && FailingSince(log).value.1 <= due {
      var k := FailingSinceIs(log);
    }
  }

  /** A row is written off exactly when it is pending, holds no grant, and through the whole window every
      recorded sync answered that Flash knows no subscription. */
  lemma AbandonedMeans(pubkey: Pubkey, steps: seq<(Step, Time)>, after: Time, now: Time)
    requires Run(pubkey, steps).Some? && Run(pubkey, steps).value.user.row.Some?
    ensures var s := Run(pubkey, steps).value;
            Abandoned(s.user.row.value, after, now) <==>
              s.user.row.value.status.Pending? && s.user.row.value.granted.None? && UnknownThroughout(s.log, now - after)
  {
    var s := Run(pubkey, steps).value;
    RunClocked(pubkey, steps);
    UnknownSince(s.log, s.clock, now - after);
  }

  /** That such a row never granted anything is not so: one whose subscription granted and expired, and whose
      subscriber came back to a checkout never paid, is written off alike. */
  lemma AbandonedOnceGranted() returns (steps: seq<(Step, Time)>)
    ensures |steps| == 4 && Run("u", steps[..1]).Some? && Granted(Run("u", steps[..1]).value.user) == Some(7)
    ensures Run("u", steps).Some? && Run("u", steps).value.user.row.Some?
    ensures Abandoned(Run("u", steps).value.user.row.value, 10, 14)
  {
    var active := Subscription("s", "u", "p", Active, None, None, UNKNOWN_LIFECYCLE);
    var expired, pending := active.(status := Expired), active.(id := "t", status := Pending);
    var w1 := World(Some(active), map[], map["p" := 7]);
    var w2, w3, none := w1.(byRef := Some(expired)), w1.(byRef := Some(pending)), w1.(byRef := None);
    var a: (Step, Time), b: (Step, Time) := (Sync(w1, None, false), 1), (Sync(w2, None, false), 2);
    var c: (Step, Time), d: (Step, Time) := (Sync(w3, None, false), 3), (Reconcile(none), 4);
    steps := [a, b, c, d];
    var s1 := State(User("u", Paid, Some(7), false, Some(Record(active, Some(7)))), [Settled], 1);
    var s2 := State(User("u", Default, None, false, Some(Record(expired, None))), [Settled, Settled], 2);
    var s3 := State(User("u", Default, None, false, Some(Record(pending, None))), [Settled, Settled, Settled], 3);
    assert Apply(Start("u"), a.0, 1) == s1;
    assert Apply(s1, b.0, 2) == s2;
    assert Apply(s2, c.0, 3) == s3;
    FourSteps(a, b, c, d, s1, s2, s3);
  }

  lemma FourSteps(a: (Step, Time), b: (Step, Time), c: (Step, Time), d: (Step, Time), s1: State, s2: State, s3: State)
    requires a.1 == 1 && b.1 == 2 && c.1 == 3 && d.1 == 4
    requires s1 == Apply(Start("u"), a.0, 1) && s2 == Apply(s1, b.0, 2) && s3 == Apply(s2, c.0, 3)
    requires s1.clock == 1 && s2.clock == 2 && s3.clock == 3
    ensures Run("u", [a, b, c, d][..1]) == Some(s1)
    ensures Run("u", [a, b, c, d]) == Some(Apply(s3, d.0, 4))
  {
    RunOn("u", [], Start("u"), a);
    assert [] + [a] == [a] == [a, b, c, d][..1];
    RunOn("u", [a], s1, b);
    assert [a] + [b] == [a, b];
    RunOn("u", [a, b], s2, c);
    assert [a, b] + [c] == [a, b, c];
    RunOn("u", [a, b, c], s3, d);
    assert [a, b, c] + [d] == [a, b, c, d];
  }

  lemma RunOn(pubkey: Pubkey, steps: seq<(Step, Time)>, s: State, next: (Step, Time))
    requires Run(pubkey, steps) == Some(s) && s.clock <= next.1
    ensures Run(pubkey, steps + [next]) == Some(Apply(s, next.0, next.1))
  {
    assert (steps + [next])[..|steps|] == steps;
  }

  // --- Who ever granted ---

  /** The guard of the granting branch: the subscription that decides is for a mapped plan and entitles, and
      the user is not barred. */
  predicate Entitles(u: User, w: World, id: Option<string>, allow: bool, now: Time) {
    var c := Choose(u, w, id, allow);
    && !u.blocked && c.Use? && c.sub.plan in w.plans
    && Entitle(c.sub.status, c.sub.cancelAt, c.sub.periodEnd, now, c.sub.lifecycle).Grant?
  }

  /** The step grants a plan. */
  predicate Grants(s: State, step: Step, now: Time) {
    match step
    case Sync(w, id, allow) => Entitles(s.user, w, id, allow, now)
    case Reconcile(w) => Entitles(s.user, w, None, false, now)
    case AdminRelease(w) => w.Some? && Entitles(s.user, w.value, None, false, now)
    case _ => false
  }

  /** A grant is recorded by a granting step, and by no other. */
  lemma GrantStep(s: State, step: Step, now: Time)
    ensures Grants(s, step, now) ==> Granted(Apply(s, step, now).user).Some?
    ensures Granted(Apply(s, step, now).user).Some? ==> Granted(s.user).Some? || Grants(s, step, now)
  {
  }

  /** At some point of the run the row held a grant. */
  ghost predicate EverGranted(pubkey: Pubkey, steps: seq<(Step, Time)>) {
    exists k: nat :: k <= |steps| && HeldAt(pubkey, steps, k)
  }

  ghost predicate HeldAt(pubkey: Pubkey, steps: seq<(Step, Time)>, k: nat)
    requires k <= |steps|
  {
    Run(pubkey, steps[..k]).Some? && Granted(Run(pubkey, steps[..k]).value.user).Some?
  }

  /** Step `i` of the run grants. */
  ghost predicate GrantsAt(pubkey: Pubkey, steps: seq<(Step, Time)>, i: nat)
    requires i < |steps|
  {
    Run(pubkey, steps[..i]).Some? && Grants(Run(pubkey, steps[..i]).value, steps[i].0, steps[i].1)
  }

  /** Each prefix of a run is a run, one step shorter than the next. */
  lemma {:induction false} RunPrefix(pubkey: Pubkey, steps: seq<(Step, Time)>, k: nat)
    requires Run(pubkey, steps).Some? && k <= |steps|
    ensures Run(pubkey, steps[..k]).Some?
    ensures k > 0 ==> Run(pubkey, steps[..k - 1]).Some? &&
                      Run(pubkey, steps[..k]).value == Apply(Run(pubkey, steps[..k - 1]).value, steps[k - 1].0, steps[k - 1].1)
    decreases |steps| - k
  {
    if k == |steps| {
      assert steps[..k] == steps;
    } else {
      RunPrefix(pubkey, steps, k + 1);
    }
    if k > 0 {
      assert steps[..k][..k - 1] == steps[..k - 1];
    }
  }

  /** What is held at some point was granted at an earlier one. */
  lemma {:induction false} HeldWasGranted(pubkey: Pubkey, steps: seq<(Step, Time)>, k: nat)
    requires Run(pubkey, steps).Some? && k <= |steps| && HeldAt(pubkey, steps, k)
    ensures exists i: nat :: i < k && GrantsAt(pubkey, steps, i)
  {
    RunPrefix(pubkey, steps, k);
    if k > 0 {
      GrantStep(Run(pubkey, steps[..k - 1]).value, steps[k - 1].0, steps[k - 1].1);
      if HeldAt(pubkey, steps, k - 1) {
        HeldWasGranted(pubkey, steps, k - 1);
      } else {
        assert GrantsAt(pubkey, steps, k - 1);
      }
    }
  }

  /** A row ever held a grant if and only if some step of its run grants. */
  lemma EverGrantedMeans(pubkey: Pubkey, steps: seq<(Step, Time)>)
    requires Run(pubkey, steps).Some?
    ensures EverGranted(pubkey, steps) <==> exists i: nat :: i < |steps| && GrantsAt(pubkey, steps, i)
  {
    if EverGranted(pubkey, steps) {
      var k: nat :| k <= |steps| && HeldAt(pubkey, steps, k);
      HeldWasGranted(pubkey, steps, k);
    }
    if i: nat :| i < |steps| && GrantsAt(pubkey, steps, i) {
      RunPrefix(pubkey, steps, i + 1);
      GrantStep(Run(pubkey, steps[..i]).value, steps[i].0, steps[i].1);
      assert HeldAt(pubkey, steps, i + 1);
    }
  }

  /** Written-off rows as the rule describes them, never granted anything: a row is written off and never
      granted if and only if it is pending, through the whole window every recorded sync answered that Flash
      knows no subscription, and no step of its run grants. */
  lemma AbandonedNeverGranted(pubkey: Pubkey, steps: seq<(Step, Time)>, after: Time, now: Time)
    requires Run(pubkey, steps).Some? && Run(pubkey, steps).value.user.row.Some?
    ensures var s := Run(pubkey, steps).value;
            Abandoned(s.user.row.value, after, now) && !EverGranted(pubkey, steps) <==>
              && s.user.row.value.status.Pending? && UnknownThroughout(s.log, now - after)
              && forall i: nat :: i < |steps| ==> !GrantsAt(pubkey, steps, i)
  {
    AbandonedMeans(pubkey, steps, after, now);
    EverGrantedMeans(pubkey, steps);
    assert steps[..|steps|] == steps;
    assert !EverGranted(pubkey, steps) ==> !HeldAt(pubkey, steps, |steps|);
  }
}
