/** The billing loops over stored users (app/services/billing_sync_service.py): the lapse sweep and the
    reconcile batch, each row written and counted in turn. */
module BillingTask {
  import opened Text
  import opened Sorting
  import opened Billing

  type Users = map<Pubkey, User>

  /** How Flash meets one row of a reconcile batch. */
  datatype Reply = Answered(w: World) | Unreachable(message: string) | CredentialsRefused

  function Swept(users: Users, ps: set<Pubkey>, now: Time): Users {
    map p | p in users :: if p in ps then LapseSweep(users[p], now) else users[p]
  }

  /** The rows a sweep takes back: lapsed and not held by an administrator. */
  ghost function TakenBack(users: Users, now: Time): set<Pubkey> {
    set p | p in users && Lapsed(users[p], now) && !users[p].source.Admin?
  }

  class Ledger {
    var users: Users

    constructor ()
      ensures users == map[]
    {
      users := map[];
    }

    /** Rows with a recorded grant, in some order. */
    method Candidates() returns (ps: seq<Pubkey>)
      ensures Distinct(ps) && forall p :: p in ps <==> p in users && Granted(users[p]).Some?
    {
      var rest := set p | p in users && Granted(users[p]).Some?;
      ghost var all := rest;
      ps := [];
      while rest != {}
        invariant rest <= all && Distinct(ps) && forall p :: p in ps <==> p in all && p !in rest
        decreases rest
      {
        var p :| p in rest;
        ps, rest := ps + [p], rest - {p};
      }
    }

    /** One row of the sweep. */
    method SweepRow(p: Pubkey, now: Time) returns (taken: bool)
      requires p in users && Granted(users[p]).Some?
      modifies this
      ensures users == old(users)[p := LapseSweep(old(users)[p], now)]
      ensures taken <==> Lapsed(old(users)[p], now) && !old(users)[p].source.Admin?
    {
      var u := users[p];
      taken := false;
      if Entitle(u.row.value.status, u.row.value.cancelAt, u.row.value.periodEnd, now, UNKNOWN_LIFECYCLE).Revoke? {
        var r := Resolve(Revoke, false, u.source.Admin?, u.row.value.granted.value, u.row.value.granted);
        if r.write {
          users := users[p := ClearGrant(Write(u, r))];
          taken := true;
        }
      }
      assert users[p] == LapseSweep(u, now);
    }

    /** The sweep leaves every user as their own lapse would, takes back exactly the lapsed grants no
        administrator holds, and counts them. */
    method RevokeLapsed(now: Time) returns (revoked: nat)
      modifies this
      ensures users == Swept(old(users), old(users).Keys, now)
      ensures revoked == |TakenBack(old(users), now)|
      ensures forall p :: p in users ==> Lapsed(users[p], now) ==> users[p].source.Admin?
      ensures forall p :: p in users && Sound(old(users)[p]) ==> Sound(users[p])
    {
      var ps := Candidates();
      revoked := 0;
      ghost var was := users;
      for i := 0 to |ps|
        invariant SweepDone(was, Members(ps[..i]), now, users, revoked)
      {
        NextListed(ps, i);
        SweepNext(was, Members(ps[..i]), ps[i], now, users, revoked);
        var taken := SweepRow(ps[i], now);
        if taken {
          revoked := revoked + 1;
        }
      }
      assert ps[..|ps|] == ps;
      SweepEnd(was, Members(ps), now, users, revoked);
      SweptSound(was, now);
    }

    /** One row's turn: an answer that settles nothing and an outage are recorded against it. */
    method ReconcileRow(p: Pubkey, reply: Reply, now: Time) returns (settled: bool)
      requires p in users
      modifies this
      ensures users == old(users)[p := Reconciled(old(users)[p], reply, now)]
      ensures settled == Settles(old(users)[p], reply, now)
    {
      settled := false;
      var u := users[p];
      match reply {
        case Answered(w) =>
          var out := ApplyEntitlement(u, w, None, false, now);
          settled := out.1.None?;
          users := users[p := if settled then out.0 else RecordFailure(u, Answer(out.1.value), now)];
        case Unreachable(message) => users := users[p := RecordFailure(u, Message(message), now)];
        case CredentialsRefused => users := users[p := RecordFailure(u, Message(CREDENTIALS_REFUSED), now)];
      }
    }

    /** A reconcile batch: the rows are asked about in turn until refused credentials end it, and every row
        asked about counts once, as reconciled or as failed. */
    method ReconcileBatch(ps: seq<Pubkey>, replies: seq<Reply>, now: Time) returns (reconciled: nat, failed: nat)
      requires |replies| == |ps| && Known(users, ps)
      modifies this
      ensures reconciled + failed == Asked(replies) && Done(old(users), ps, replies, reconciled + failed, now, users, reconciled)
      ensures forall p :: p in users && p in old(users) && Sound(old(users)[p]) ==> Sound(users[p])
    {
      reconciled, failed := 0, 0;
      ghost var was := users;
      forall k: nat, p | k <= |ps| && p in was && Sound(was[p]) ensures Sound(Batch(was, ps, replies, k, now)[p]) {
        BatchSound(was, ps, replies, k, now, p);
      }
      var k := 0;
      while k < |ps|
        invariant reconciled + failed == k <= |ps| && Done(was, ps, replies, k, now, users, reconciled)
        invariant Asked(replies) == k + Asked(replies[k..])
      {
        DoneNext(was, ps, replies, k, now, users, reconciled);
        AskedNext(replies, k);
        var settled := ReconcileRow(ps[k], replies[k], now);
        if settled {
          reconciled := reconciled + 1;
        } else {
          failed := failed + 1;
        }
        if replies[k].CredentialsRefused? {
          return;
        }
        k := k + 1;
      }
    }
  }

  /** How many rows of a batch are asked about: all of them, or up to the first refusal of credentials. */
  function Asked(replies: seq<Reply>): (k: nat)
    ensures k <= |replies| && (forall i :: 0 <= i < k - 1 ==> !replies[i].CredentialsRefused?)
    ensures k < |replies| ==> k > 0 && replies[k - 1].CredentialsRefused?
  {
    if replies == [] then 0 else if replies[0].CredentialsRefused? then 1 else 1 + Asked(replies[1..])
  }

  lemma AskedNext(replies: seq<Reply>, k: nat)
    requires k < |replies|
    ensures Asked(replies[k..]) == if replies[k].CredentialsRefused? then 1 else 1 + Asked(replies[k + 1..])
  {
    assert replies[k..][1..] == replies[k + 1..];
  }

  /** Flash's answer was written. */
  predicate Settles(u: User, reply: Reply, now: Time) {
    reply.Answered? && ApplyEntitlement(u, reply.w, None, false, now).1.None?
  }

  /** How many of the first `k` rows were settled in their turn. */
  ghost function SettledCount(users: Users, ps: seq<Pubkey>, replies: seq<Reply>, k: nat, now: Time): nat
    requires k <= |ps| == |replies| && Known(users, ps)
  {
    if k == 0 then 0
    else
      SettledCount(users, ps, replies, k - 1, now)
      + if Settles(Batch(users, ps, replies, k - 1, now)[ps[k - 1]], replies[k - 1], now) then 1 else 0
  }

  ghost predicate Done(was: Users, ps: seq<Pubkey>, replies: seq<Reply>, k: nat, now: Time, users: Users, settled: nat)
    requires k <= |ps| == |replies|
  {
    Known(was, ps) && users == Batch(was, ps, replies, k, now) && settled == SettledCount(was, ps, replies, k, now)
  }

  lemma DoneNext(was: Users, ps: seq<Pubkey>, replies: seq<Reply>, k: nat, now: Time, users: Users, settled: nat)
    requires k < |ps| == |replies| && Done(was, ps, replies, k, now, users, settled)
    ensures ps[k] in users
    ensures Done(was, ps, replies, k + 1, now, users[ps[k] := Reconciled(users[ps[k]], replies[k], now)],
                 settled + if Settles(users[ps[k]], replies[k], now) then 1 else 0)
  {
  }

  ghost predicate Known(users: Users, ps: seq<Pubkey>) {
    forall i :: 0 <= i < |ps| ==> ps[i] in users
  }

  /** The users after the first `k` rows of a batch. */
  ghost function Batch(users: Users, ps: seq<Pubkey>, replies: seq<Reply>, k: nat, now: Time): (r: Users)
    requires k <= |ps| == |replies| && Known(users, ps)
    ensures r.Keys == users.Keys
  {
    if k == 0 then users
    else
      var b := Batch(users, ps, replies, k - 1, now);
      b[ps[k - 1] := Reconciled(b[ps[k - 1]], replies[k - 1], now)]
  }

  lemma {:induction false} BatchElsewhere(users: Users, ps: seq<Pubkey>, replies: seq<Reply>, k: nat, now: Time, p: Pubkey)
    requires k <= |ps| == |replies| && Known(users, ps) && p in users && forall i :: 0 <= i < k ==> ps[i] != p
    ensures Batch(users, ps, replies, k, now)[p] == users[p]
  {
    if k > 0 {
      BatchElsewhere(users, ps, replies, k - 1, now, p);
    }
  }

  /** Each row of a batch is moved by its own reply alone. */
  lemma {:induction false} BatchEach(users: Users, ps: seq<Pubkey>, replies: seq<Reply>, k: nat, now: Time, i: nat)
    requires i < k <= |ps| == |replies| && Known(users, ps) && Distinct(ps)
    ensures Batch(users, ps, replies, k, now)[ps[i]] == Reconciled(users[ps[i]], replies[i], now)
  {
    if i == k - 1 {
      BatchElsewhere(users, ps, replies, k - 1, now, ps[i]);
    } else {
      BatchEach(users, ps, replies, k - 1, now, i);
    }
  }

  /** And every user stays sound. */
  lemma {:induction false} BatchSound(users: Users, ps: seq<Pubkey>, replies: seq<Reply>, k: nat, now: Time, p: Pubkey)
    requires k <= |ps| == |replies| && Known(users, ps) && p in users && Sound(users[p])
    ensures Sound(Batch(users, ps, replies, k, now)[p])
  {
    if k > 0 {
      BatchSound(users, ps, replies, k - 1, now, p);
      ReconciledSound(Batch(users, ps, replies, k - 1, now)[p], replies[k - 1], now);
    }
  }

  const CREDENTIALS_REFUSED := "credentials refused"

  /** What one row's turn does. */
  function Reconciled(u: User, reply: Reply, now: Time): User {
    match reply
    case Answered(w) =>
      var out := ApplyEntitlement(u, w, None, false, now);
      if out.1.Some? then RecordFailure(u, Answer(out.1.value), now) else out.0
    case Unreachable(message) => RecordFailure(u, Message(message), now)
    case CredentialsRefused => RecordFailure(u, Message(CREDENTIALS_REFUSED), now)
  }

  lemma ReconciledSound(u: User, reply: Reply, now: Time)
    ensures Sound(u) ==> Sound(Reconciled(u, reply, now))
  {
    if Sound(u) && reply.Answered? {
      EntitlementSound(u, reply.w, None, false, now);
    }
  }

  ghost function Members(ps: seq<Pubkey>): set<Pubkey> {
    set p | p in ps
  }

  lemma NextListed(ps: seq<Pubkey>, i: nat)
    requires i < |ps| && Distinct(ps)
    ensures ps[i] !in ps[..i] && Members(ps[..i + 1]) == Members(ps[..i]) + {ps[i]}
  {
    assert ps[..i + 1] == ps[..i] + [ps[i]];
  }

  /** The sweep so far, over the rows in `done`. */
  ghost predicate SweepDone(was: Users, done: set<Pubkey>, now: Time, users: Users, revoked: nat) {
    && done <= was.Keys
    && users == Swept(was, done, now)
    && revoked == |done * TakenBack(was, now)|
  }

  lemma SweepNext(was: Users, done: set<Pubkey>, p: Pubkey, now: Time, users: Users, revoked: nat)
    requires SweepDone(was, done, now, users, revoked) && p in was && p !in done
    ensures p in users && users[p] == was[p]
    ensures SweepDone(was, done + {p}, now, users[p := LapseSweep(was[p], now)],
                      revoked + if Lapsed(was[p], now) && !was[p].source.Admin? then 1 else 0)
  {
    SweptNext(was, done, p, now);
    NextTaken(done, TakenBack(was, now), p);
  }

  lemma SweepEnd(was: Users, done: set<Pubkey>, now: Time, users: Users, revoked: nat)
    requires SweepDone(was, done, now, users, revoked) && forall p :: p in was && Granted(was[p]).Some? ==> p in done
    ensures users == Swept(was, was.Keys, now) && revoked == |TakenBack(was, now)|
  {
    SweptRest(was, done, now);
    assert done * TakenBack(was, now) == TakenBack(was, now);
  }

  lemma SweptSound(users: Users, now: Time)
    ensures var swept := Swept(users, users.Keys, now);
            forall p :: p in swept ==>
              (Sound(users[p]) ==> Sound(swept[p])) && (Lapsed(swept[p], now) ==> swept[p].source.Admin?)
  {
    forall p | p in users ensures (Sound(users[p]) ==> Sound(LapseSweep(users[p], now)))
      && (Lapsed(LapseSweep(users[p], now), now) ==> LapseSweep(users[p], now).source.Admin?)
    {
      SweepOne(users[p], now);
    }
  }

  lemma SweptNext(users: Users, done: set<Pubkey>, p: Pubkey, now: Time)
    requires p in users && p !in done
    ensures Swept(users, done, now)[p] == users[p]
    ensures Swept(users, done, now)[p := LapseSweep(users[p], now)] == Swept(users, done + {p}, now)
  {
  }

  lemma NextTaken(done: set<Pubkey>, all: set<Pubkey>, p: Pubkey)
    requires p !in done
    ensures |(done + {p}) * all| == |done * all| + if p in all then 1 else 0
  {
    assert (done + {p}) * all == done * all + if p in all then {p} else {};
  }

  /** Rows with no grant are not for the sweep to touch. */
  lemma SweptRest(users: Users, ps: set<Pubkey>, now: Time)
    requires forall p :: p in users && p !in ps ==> Granted(users[p]).None?
    ensures Swept(users, ps, now) == Swept(users, users.Keys, now)
  {
  }

  lemma SweepOne(u: User, now: Time)
    ensures (Sound(u) ==> Sound(LapseSweep(u, now))) && (Lapsed(LapseSweep(u, now), now) ==> LapseSweep(u, now).source.Admin?)
  {
  }
}
