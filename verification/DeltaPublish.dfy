/** Publishing one observer's scores run after run: each run sends only the changed ones, unless an earlier
    one failed (app/message_queue_tasks/upload_nostr_events.py, app/repos/brainstorm_request_repo.py). */
module DeltaPublish {
  import opened Text
  import opened Numbers

  type Observee = string

  datatype Status = Ongoing | Success | Failure

  /** A row of brainstorm_request, as far as the relay publish reads it. */
  datatype Row = Row(id: nat, forceFull: bool, status: Status)

  /** What an assertion carries besides the rank. */
  datatype Facts = Facts(followers: int, reporters: int, muters: int, hops: int)

  datatype Score = Score(influence: real, facts: Facts)

  datatype Assertion = Assertion(rank: int, facts: Facts)

  /** The relay's assertions by observee, the observer's rows, `last_published_pubkeys`, and the scores of the
      preceding run, against which the next run's changed set is drawn up. */
  datatype State = State(relay: map<Observee, Assertion>, rows: seq<Row>, baseline: set<Observee>, scores: map<Observee, Score>)

  /** How the relay took the events: all of them, or the run failed after some. */
  datatype Outcome = Acked | Broken(landed: set<Observee>, deleted: set<Observee>)

  datatype Run = Run(id: nat, forceFull: bool, settingFull: bool, sweep: bool,
                     scores: map<Observee, Score>, changed: set<Observee>, outcome: Outcome)

  const Init := State(map[], [], {}, map[])

  // --- Ranks and the cutoff ---

  /** `round(influence * 100)` */
  function Rank(influence: real): (r: int)
    ensures Nearest(influence * 100.0, r)
  {
    RoundHalfEven(influence * 100.0)
  }

  function AssertionOf(score: Score): Assertion {
    Assertion(Rank(score.influence), score.facts)
  }

  predicate AtLeast(cutoff: real, influence: real) {
    Rank(influence) as real / 100.0 >= cutoff
  }

  function Above(cutoff: real, scores: map<Observee, Score>): set<Observee> {
    set o | o in scores && AtLeast(cutoff, scores[o].influence)
  }

  function Below(cutoff: real, scores: map<Observee, Score>): set<Observee> {
    set o | o in scores && !AtLeast(cutoff, scores[o].influence)
  }

  /** An influence clears the cutoff: with `c` hundredths the least that reach it, it is above `c - 1/2`
      hundredths, or exactly there and `c` is even. At a cutoff of 0.02 that is 0.015 and up. */
  predicate Clears(cutoff: real, influence: real) {
    var c := Ceiling(cutoff * 100.0);
    influence * 100.0 > c as real - 0.5 || (influence * 100.0 == c as real - 0.5 && c % 2 == 0)
  }

  lemma AtLeastClears(cutoff: real, influence: real)
    ensures AtLeast(cutoff, influence) <==> Clears(cutoff, influence)
  {
    var r, c := Rank(influence), Ceiling(cutoff * 100.0);
    NearestAtLeast(influence * 100.0, r, c);
    assert r as real / 100.0 >= cutoff <==> r as real >= cutoff * 100.0;
    if r < c {
      assert r as real <= c as real - 1.0;
    } else {
      assert r as real >= c as real;
    }
  }

  /** A cutoff of `c` hundredths lets through exactly those whose nearest hundredth is at least `c`. */
  lemma ClearsHundredths(c: int, influence: real, nearest: int)
    requires Nearest(influence * 100.0, nearest)
    ensures Clears(c as real / 100.0, influence) <==> nearest >= c
    ensures Clears(0.02, influence) <==> influence >= 0.015
  {
    assert c as real / 100.0 * 100.0 == c as real;
    assert Ceiling(c as real / 100.0 * 100.0) == c;
    assert Ceiling(0.02 * 100.0) == 2;
    NearestAtLeast(influence * 100.0, nearest, c);
  }

  /** The scored observees whose influence clears the cutoff. */
  ghost function Clearing(cutoff: real, scores: map<Observee, Score>): set<Observee> {
    set o | o in scores && Clears(cutoff, scores[o].influence)
  }

  lemma AboveIsClearing(cutoff: real, scores: map<Observee, Score>)
    ensures Above(cutoff, scores) == Clearing(cutoff, scores)
    ensures Below(cutoff, scores) == scores.Keys - Clearing(cutoff, scores)
  {
    forall o | o in scores ensures AtLeast(cutoff, scores[o].influence) <==> Clears(cutoff, scores[o].influence) {
      AtLeastClears(cutoff, scores[o].influence);
    }
  }

  // --- The publish gap ---

  predicate FullOk(r: Row) {
    r.forceFull && r.status.Success?
  }

  /** The largest id below `before` of a successful full run, 0 where there is none. */
  function LastFullOk(rows: seq<Row>, before: nat): (id: nat)
    ensures forall r :: r in rows && FullOk(r) && r.id < before ==> r.id <= id
    ensures id == 0 || exists r :: r in rows && FullOk(r) && r.id == id
  {
    if rows == [] then 0
    else
      var n := |rows| - 1;
      var id := LastFullOk(rows[..n], before);
      assert rows == rows[..n] + [rows[n]];
      if FullOk(rows[n]) && id < rows[n].id < before then rows[n].id else id
  }

  predicate GapPending(rows: seq<Row>, before: nat) {
    exists r :: r in rows && LastFullOk(rows, before) < r.id < before && r.status.Failure?
  }

  // --- One run ---

  /** What may come next: a newer run, whose changed set names every observee scored differently from the
      preceding run, and which lands nothing it does not send. */
  ghost predicate Enabled(cutoff: real, s: State, run: Run) {
    && run.id > 0 && run.scores != map[]
    && (forall r :: r in s.rows ==> r.id < run.id)
    && (forall o :: o in run.scores && (o !in s.scores || s.scores[o].influence != run.scores[o].influence) ==> o in run.changed)
    && (run.outcome.Broken? ==> run.outcome.landed <= Sent(cutoff, s, run) && run.outcome.deleted <= Deletes(cutoff, s, run))
  }

  predicate Forced(run: Run) {
    run.settingFull || run.forceFull
  }

  /** Whether the run asserts every above-cutoff score, not only the changed ones. */
  predicate Full(s: State, run: Run) {
    Forced(run) || GapPending(s.rows, run.id)
  }

  function Sent(cutoff: real, s: State, run: Run): set<Observee> {
    set o | o in Above(cutoff, run.scores) && (Full(s, run) || o in run.changed)
  }

  function Deletes(cutoff: real, s: State, run: Run): set<Observee> {
    (s.baseline - Above(cutoff, run.scores)) + (if run.sweep then Below(cutoff, run.scores) else {})
  }

  function Land(relay: map<Observee, Assertion>, scores: map<Observee, Score>, landed: set<Observee>, deleted: set<Observee>): map<Observee, Assertion>
    requires landed <= scores.Keys
  {
    (map o | o in relay.Keys + landed :: if o in landed then AssertionOf(scores[o]) else relay[o]) - deleted
  }

  /** The row the run leaves: a run that found a gap is marked full. */
  function RowOf(s: State, run: Run): Row {
    Row(run.id, run.forceFull || (!Forced(run) && GapPending(s.rows, run.id)),
        if run.outcome.Acked? then Success else Failure)
  }

  function Process(cutoff: real, s: State, run: Run): State
    requires Enabled(cutoff, s, run)
  {
    match run.outcome
    case Acked =>
      State(Land(s.relay, run.scores, Sent(cutoff, s, run), Deletes(cutoff, s, run)),
            s.rows + [RowOf(s, run)], Above(cutoff, run.scores), run.scores)
    case Broken(landed, deleted) =>
      State(Land(s.relay, run.scores, landed, deleted), s.rows + [RowOf(s, run)], s.baseline, run.scores)
  }

  ghost function History(cutoff: real, runs: seq<Run>): Option<State> {
    if runs == [] then Some(Init)
    else
      var s := History(cutoff, runs[..|runs| - 1]);
      if s.Some? && Enabled(cutoff, s.value, runs[|runs| - 1]) then Some(Process(cutoff, s.value, runs[|runs| - 1])) else None
  }

  // --- What every history keeps ---

  /** The relay holds exactly the rank of every above-cutoff observee. */
  ghost predicate Fresh(cutoff: real, relay: map<Observee, Assertion>, scores: map<Observee, Score>) {
    forall o :: o in Above(cutoff, scores) ==> o in relay && relay[o].rank == Rank(scores[o].influence)
  }

  /** A failed run that no later successful full run made good. */
  ghost predicate Gap(rows: seq<Row>) {
    exists r :: r in rows && r.status.Failure? && forall f :: f in rows && FullOk(f) ==> f.id < r.id
  }

  ghost predicate Positive(rows: seq<Row>) {
    forall r :: r in rows ==> r.id > 0
  }

  /** The query finds a gap exactly where there is one. */
  lemma GapPendingIsGap(rows: seq<Row>, before: nat)
    requires Positive(rows) && forall r :: r in rows ==> r.id < before
    ensures GapPending(rows, before) <==> Gap(rows)
  {
    var last := LastFullOk(rows, before);
    if GapPending(rows, before) {
      var r :| r in rows && last < r.id < before && r.status.Failure?;
      assert forall f :: f in rows && FullOk(f) ==> f.id < r.id;
    }
    if Gap(rows) {
      var r :| r in rows && r.status.Failure? && forall f :: f in rows && FullOk(f) ==> f.id < r.id;
      assert last < r.id < before;
    }
  }

  lemma GapAfter(rows: seq<Row>, row: Row)
    requires forall r :: r in rows ==> r.id < row.id
    ensures row.status.Failure? ==> Gap(rows + [row])
    ensures FullOk(row) ==> !Gap(rows + [row])
    ensures row.status.Success? && !row.forceFull ==> (Gap(rows + [row]) <==> Gap(rows))
  {
    var rows' := rows + [row];
    assert forall r :: r in rows' <==> r in rows || r == row;
    if row.status.Failure? {
      assert row in rows';
    }
    if row.status.Success? && !row.forceFull {
      assert Gap(rows) ==> Gap(rows') by {
        if Gap(rows) {
          var r :| r in rows && r.status.Failure? && forall f :: f in rows && FullOk(f) ==> f.id < r.id;
          assert r in rows';
        }
      }
    }
  }

  ghost predicate Inv(cutoff: real, s: State) {
    Positive(s.rows) && (!Gap(s.rows) ==> Fresh(cutoff, s.relay, s.scores))
  }

  /** A run the relay acked leaves every above-cutoff rank fresh: what a delta run does not send, the
      preceding run had left there. */
  lemma AckedIsFresh(cutoff: real, s: State, run: Run)
    requires Inv(cutoff, s) && Enabled(cutoff, s, run) && run.outcome.Acked?
    ensures Fresh(cutoff, Process(cutoff, s, run).relay, run.scores)
  {
    GapPendingIsGap(s.rows, run.id);
    forall o | o in Above(cutoff, run.scores)
      ensures o in Process(cutoff, s, run).relay && Process(cutoff, s, run).relay[o].rank == Rank(run.scores[o].influence)
    {
      if o !in Sent(cutoff, s, run) {
        assert o in s.scores && s.scores[o].influence == run.scores[o].influence;
        assert o in Above(cutoff, s.scores);
      }
    }
  }

  lemma InvStep(cutoff: real, s: State, run: Run)
    requires Inv(cutoff, s) && Enabled(cutoff, s, run)
    ensures Inv(cutoff, Process(cutoff, s, run))
  {
    GapAfter(s.rows, RowOf(s, run));
    if run.outcome.Acked? {
      AckedIsFresh(cutoff, s, run);
    }
  }

  /** When a run closes the gap: a failed one always leaves one, and one that was there outlasts a success exactly
      where the run was full by the operator's setting alone, which marks no row. */
  lemma GapClosesWhen(cutoff: real, s: State, run: Run)
    requires Inv(cutoff, s) && Enabled(cutoff, s, run)
    ensures Gap(Process(cutoff, s, run).rows) <==>
            run.outcome.Broken? || (Gap(s.rows) && run.settingFull && !run.forceFull)
  {
    GapPendingIsGap(s.rows, run.id);
    GapAfter(s.rows, RowOf(s, run));
  }

  lemma {:induction false} HistoryInv(cutoff: real, runs: seq<Run>)
    requires History(cutoff, runs).Some?
    ensures Inv(cutoff, History(cutoff, runs).value)
  {
    if runs != [] {
      var n := |runs| - 1;
      HistoryInv(cutoff, runs[..n]);
      InvStep(cutoff, History(cutoff, runs[..n]).value, runs[n]);
    }
  }

  /** After a successful run, whatever failed before it: everyone whose influence clears the cutoff is on the
      relay with the nearest hundredth as rank, nothing the baseline dropped is left, and the baseline is those
      who clear it. */
  lemma SuccessfulRunIsExact(cutoff: real, runs: seq<Run>)
    requires runs != [] && History(cutoff, runs).Some? && runs[|runs| - 1].outcome.Acked?
    ensures History(cutoff, runs[..|runs| - 1]).Some?
    ensures var s, s', run := History(cutoff, runs[..|runs| - 1]).value, History(cutoff, runs).value, runs[|runs| - 1];
            && Fresh(cutoff, s'.relay, run.scores)
            && (forall o :: o in Clearing(cutoff, run.scores) ==>
                  o in s'.relay && Nearest(run.scores[o].influence * 100.0, s'.relay[o].rank))
            && s'.baseline == Clearing(cutoff, run.scores)
            && (forall o :: o in s.baseline && o !in s'.baseline ==> o !in s'.relay)
            && (forall o :: o in s'.relay ==> o in s'.baseline || o in s.relay)
  {
    var n := |runs| - 1;
    HistoryInv(cutoff, runs[..n]);
    AckedIsFresh(cutoff, History(cutoff, runs[..n]).value, runs[n]);
    AboveIsClearing(cutoff, runs[n].scores);
  }

  /** Whom an acked run asserts anew: of those who clear the cutoff everyone, where the operator or the request
      forces it or a run failed since the last full one that succeeded, else the changed ones. They have their
      whole assertion of this run; whoever else clears it keeps the one that was there. */
  lemma AssertedAnew(cutoff: real, s: State, run: Run, o: Observee)
    requires Inv(cutoff, s) && Enabled(cutoff, s, run) && run.outcome.Acked? && o in Clearing(cutoff, run.scores)
    ensures var relay := Process(cutoff, s, run).relay;
            var all := run.settingFull || run.forceFull || Gap(s.rows);
            && o in relay
            && (all || o in run.changed ==> relay[o].facts == run.scores[o].facts && Nearest(run.scores[o].influence * 100.0, relay[o].rank))
            && (!all && o !in run.changed ==> o in s.relay && relay[o] == s.relay[o])
  {
    AboveIsClearing(cutoff, run.scores);
    GapPendingIsGap(s.rows, run.id);
    AckedIsFresh(cutoff, s, run);
  }

  lemma DeltaRanks(cutoff: real, s: State, run: Run)
    requires Inv(cutoff, s) && Enabled(cutoff, s, run) && run.outcome.Acked?
    ensures Enabled(cutoff, s, run.(forceFull := true))
    ensures SameRanks(Process(cutoff, s, run).relay, Process(cutoff, s, run.(forceFull := true)).relay)
  {
    var full := run.(forceFull := true);
    AckedIsFresh(cutoff, s, run);
    AckedIsFresh(cutoff, s, full);
    AckedRelay(cutoff, s, run);
    AckedRelay(cutoff, s, full);
    assert Sent(cutoff, s, full) == Above(cutoff, run.scores);
  }

  lemma DeltaStale(cutoff: real, s: State, run: Run)
    requires Inv(cutoff, s) && Enabled(cutoff, s, run) && run.outcome.Acked?
    requires Enabled(cutoff, s, run.(forceFull := true))
    requires SameRanks(Process(cutoff, s, run).relay, Process(cutoff, s, run.(forceFull := true)).relay)
    ensures Process(cutoff, s, run).relay == Process(cutoff, s, run.(forceFull := true)).relay <==> NoneHeldStale(cutoff, s, run)
  {
    var full := run.(forceFull := true);
    AckedRelay(cutoff, s, run);
    AckedRelay(cutoff, s, full);
    assert Sent(cutoff, s, full) == Above(cutoff, run.scores);
    SameWhen(Process(cutoff, s, run).relay, Process(cutoff, s, full).relay, s.relay, Unsent(cutoff, s, run));
  }

  /** Two relays with the same ranks, both as `before` outside the sent, differ only in facts of the unsent. */
  lemma SameWhen(a: map<Observee, Assertion>, b: map<Observee, Assertion>, before: map<Observee, Assertion>, unsent: set<Observee>)
    requires SameRanks(a, b) && unsent <= a.Keys
    requires forall o :: o in a && o !in unsent ==> a[o] == b[o]
    requires forall o :: o in unsent ==> o in before && a[o] == before[o]
    ensures a == b <==> forall o :: o in unsent ==> before[o].facts == b[o].facts
  {
    if forall o :: o in unsent ==> before[o].facts == b[o].facts {
      forall o | o in a ensures a[o] == b[o] {
        if o in unsent {
          assert a[o].rank == b[o].rank && a[o].facts == b[o].facts;
        }
      }
    }
  }

  ghost predicate SameRanks(a: map<Observee, Assertion>, b: map<Observee, Assertion>) {
    a.Keys == b.Keys && forall o :: o in a ==> a[o].rank == b[o].rank
  }

  /** The above-cutoff observees a run leaves as they are. */
  function Unsent(cutoff: real, s: State, run: Run): set<Observee> {
    Above(cutoff, run.scores) - Sent(cutoff, s, run)
  }

  ghost predicate NoneHeldStale(cutoff: real, s: State, run: Run) {
    forall o :: o in Unsent(cutoff, s, run) ==> o in s.relay && s.relay[o].facts == run.scores[o].facts
  }

  /** The relay after an acked run, one observee at a time. */
  lemma AckedRelay(cutoff: real, s: State, run: Run)
    requires Inv(cutoff, s) && Enabled(cutoff, s, run) && run.outcome.Acked?
    ensures var relay, above := Process(cutoff, s, run).relay, Above(cutoff, run.scores);
            && (forall o :: o in relay <==> o in above || (o in s.relay && o !in Deletes(cutoff, s, run)))
            && (forall o :: o in Sent(cutoff, s, run) ==> relay[o] == AssertionOf(run.scores[o]))
            && (forall o :: o in relay && o !in Sent(cutoff, s, run) ==> o in s.relay && relay[o] == s.relay[o])
  {
    AckedIsFresh(cutoff, s, run);
    assert Sent(cutoff, s, run) <= Above(cutoff, run.scores);
    assert Deletes(cutoff, s, run) !! Above(cutoff, run.scores);
  }

  // --- Whose assertion the relay holds ---

  /** Run `i` of the history landed this observee. */
  ghost predicate Landed(cutoff: real, runs: seq<Run>, i: nat, o: Observee)
    requires i < |runs|
  {
    var s := History(cutoff, runs[..i]);
    s.Some? && match runs[i].outcome
               case Acked => o in Sent(cutoff, s.value, runs[i])
               case Broken(landed, _) => o in landed
  }

  /** The last run that landed it. */
  ghost function LastLanding(cutoff: real, runs: seq<Run>, o: Observee): (i: Option<nat>)
    ensures i.Some? ==> i.value < |runs| && Landed(cutoff, runs, i.value, o)
    ensures forall j: nat :: j < |runs| && Landed(cutoff, runs, j, o) ==> i.Some? && j <= i.value
  {
    LastLandingBefore(cutoff, runs, |runs|, o)
  }

  ghost function LastLandingBefore(cutoff: real, runs: seq<Run>, n: nat, o: Observee): (i: Option<nat>)
    requires n <= |runs|
    ensures i.Some? ==> i.value < n && Landed(cutoff, runs, i.value, o)
    ensures forall j: nat :: j < n && Landed(cutoff, runs, j, o) ==> i.Some? && j <= i.value
  {
    if n == 0 then None
    else if Landed(cutoff, runs, n - 1, o) then Some(n - 1)
    else LastLandingBefore(cutoff, runs, n - 1, o)
  }

  lemma {:induction false} LandingFrame(cutoff: real, runs: seq<Run>, n: nat, o: Observee)
    requires n < |runs|
    ensures LastLandingBefore(cutoff, runs, n, o) == LastLandingBefore(cutoff, runs[..|runs| - 1], n, o)
  {
    if n > 0 {
      LandingFrame(cutoff, runs, n - 1, o);
      assert runs[..|runs| - 1][..n - 1] == runs[..n - 1];
    }
  }

  /** Everything on the relay is exactly what the last run that landed it asserted. */
  lemma {:induction false} RelayIsLastLanding(cutoff: real, runs: seq<Run>, o: Observee)
    requires History(cutoff, runs).Some? && o in History(cutoff, runs).value.relay
    ensures var i := LastLanding(cutoff, runs, o);
            && i.Some? && o in runs[i.value].scores
            && History(cutoff, runs).value.relay[o] == AssertionOf(runs[i.value].scores[o])
  {
    if runs != [] {
      var n := |runs| - 1;
      var s, run := History(cutoff, runs[..n]).value, runs[n];
      assert Sent(cutoff, s, run) <= Above(cutoff, run.scores);
      if !Landed(cutoff, runs, n, o) {
        assert o in s.relay && History(cutoff, runs).value.relay[o] == s.relay[o];
        RelayIsLastLanding(cutoff, runs[..n], o);
        LandingFrame(cutoff, runs, n, o);
      }
    }
  }

  /** After a successful run an above-cutoff assertion is this run's, facts and all, if and only if the last run
      to land it said the same facts; a full run lands them all. */
  lemma WholeAssertionWhen(cutoff: real, runs: seq<Run>, o: Observee)
    requires runs != [] && History(cutoff, runs).Some? && runs[|runs| - 1].outcome.Acked?
    requires o in Above(cutoff, runs[|runs| - 1].scores)
    ensures var n, relay, i := |runs| - 1, History(cutoff, runs).value.relay, LastLanding(cutoff, runs, o);
            && o in relay && i.Some? && o in runs[i.value].scores
            && (relay[o] == AssertionOf(runs[n].scores[o]) <==> runs[i.value].scores[o].facts == runs[n].scores[o].facts)
            && (History(cutoff, runs[..n]).Some? && Full(History(cutoff, runs[..n]).value, runs[n]) ==> i.value == n)
  {
    SuccessfulRunIsExact(cutoff, runs);
    RelayIsLastLanding(cutoff, runs, o);
    if History(cutoff, runs[..|runs| - 1]).Some? && Full(History(cutoff, runs[..|runs| - 1]).value, runs[|runs| - 1]) {
      assert Landed(cutoff, runs, |runs| - 1, o);
    }
  }

  /** Every above-cutoff observee this run would leave as it is was last landed with the facts it has now. */
  ghost predicate NoneStale(cutoff: real, runs: seq<Run>, run: Run)
    requires History(cutoff, runs).Some?
  {
    forall o :: o in Unsent(cutoff, History(cutoff, runs).value, run) ==> LandedFacts(cutoff, runs, o, run.scores[o].facts)
  }

  ghost predicate LandedFacts(cutoff: real, runs: seq<Run>, o: Observee, facts: Facts) {
    var i := LastLanding(cutoff, runs, o);
    i.Some? && o in runs[i.value].scores && runs[i.value].scores[o].facts == facts
  }

  lemma StaleByRecord(cutoff: real, runs: seq<Run>, run: Run)
    requires History(cutoff, runs).Some? && run.outcome.Acked? && Enabled(cutoff, History(cutoff, runs).value, run)
    ensures NoneHeldStale(cutoff, History(cutoff, runs).value, run) <==> NoneStale(cutoff, runs, run)
  {
    var s := History(cutoff, runs).value;
    HistoryInv(cutoff, runs);
    AckedIsFresh(cutoff, s, run);
    AckedRelay(cutoff, s, run);
    forall o | o in Unsent(cutoff, s, run)
      ensures o in s.relay && (s.relay[o].facts == run.scores[o].facts <==> LandedFacts(cutoff, runs, o, run.scores[o].facts))
    {
      RelayIsLastLanding(cutoff, runs, o);
    }
  }

  /** Sending only the changed scores leaves the same observees with the same ranks as sending all of them
      would, and the very same assertions if and only if each one not sent was last landed with its facts. */
  lemma DeltaEqualsFull(cutoff: real, runs: seq<Run>, run: Run)
    requires History(cutoff, runs).Some? && run.outcome.Acked?
    requires Enabled(cutoff, History(cutoff, runs).value, run)
    ensures var s, full := History(cutoff, runs).value, run.(forceFull := true);
            && Enabled(cutoff, s, full)
            && SameRanks(Process(cutoff, s, run).relay, Process(cutoff, s, full).relay)
            && (Process(cutoff, s, run).relay == Process(cutoff, s, full).relay <==> NoneStale(cutoff, runs, run))
  {
    HistoryInv(cutoff, runs);
    DeltaRanks(cutoff, History(cutoff, runs).value, run);
    DeltaStale(cutoff, History(cutoff, runs).value, run);
    StaleByRecord(cutoff, runs, run);
  }

  // --- Orphans ---

  /** What a run takes off the relay's untracked rest, or lets back into the baseline. */
  function Swept(cutoff: real, run: Run): set<Observee> {
    if run.sweep then Below(cutoff, run.scores) else {}
  }

  /** The baseline, from the run records alone: the above-cutoff set of the last success. */
  function BaselineOf(cutoff: real, runs: seq<Run>): set<Observee> {
    if runs == [] then {}
    else if runs[|runs| - 1].outcome.Acked? then Above(cutoff, runs[|runs| - 1].scores)
    else BaselineOf(cutoff, runs[..|runs| - 1])
  }

  /** The orphans, from the run records alone: what failed runs landed outside the baseline, and nothing since
      deleted, swept or took in. */
  function Orphans(cutoff: real, runs: seq<Run>): set<Observee> {
    if runs == [] then {}
    else
      var n := |runs| - 1;
      var before := Orphans(cutoff, runs[..n]);
      match runs[n].outcome
      case Acked => before - Above(cutoff, runs[n].scores) - Swept(cutoff, runs[n])
      case Broken(landed, deleted) => before + (landed - BaselineOf(cutoff, runs[..n])) - deleted
  }

  lemma OrphanStep(cutoff: real, s: State, run: Run)
    requires Enabled(cutoff, s, run)
    ensures var s' := Process(cutoff, s, run);
            s'.relay.Keys - s'.baseline ==
              match run.outcome
              case Acked => s.relay.Keys - s.baseline - Above(cutoff, run.scores) - Swept(cutoff, run)
              case Broken(landed, deleted) => (s.relay.Keys - s.baseline) + (landed - s.baseline) - deleted
  {
    assert Sent(cutoff, s, run) <= Above(cutoff, run.scores);
    var s' := Process(cutoff, s, run);
    match run.outcome
    case Acked =>
      assert s'.relay.Keys == s.relay.Keys + Sent(cutoff, s, run) - Deletes(cutoff, s, run);
    case Broken(landed, deleted) =>
      assert s'.relay.Keys == s.relay.Keys + landed - deleted;
  }

  /** Over every history, failed or not: what is on the relay outside the baseline is exactly the orphans. */
  lemma {:induction false} UntrackedAreOrphans(cutoff: real, runs: seq<Run>)
    requires History(cutoff, runs).Some?
    ensures History(cutoff, runs).value.baseline == BaselineOf(cutoff, runs)
    ensures History(cutoff, runs).value.relay.Keys - BaselineOf(cutoff, runs) == Orphans(cutoff, runs)
  {
    if runs != [] {
      var n := |runs| - 1;
      UntrackedAreOrphans(cutoff, runs[..n]);
      OrphanStep(cutoff, History(cutoff, runs[..n]).value, runs[n]);
    }
  }

  /** The run deletes, sweeps or takes in an orphan. */
  predicate Reclaims(cutoff: real, run: Run, o: Observee) {
    match run.outcome
    case Acked => o in Above(cutoff, run.scores) || o in Swept(cutoff, run)
    case Broken(_, deleted) => o in deleted
  }

  /** Run `i` failed after landing an observee the baseline did not hold. */
  ghost predicate Strands(cutoff: real, runs: seq<Run>, i: nat, o: Observee)
    requires i < |runs|
  {
    runs[i].outcome.Broken? && o in runs[i].outcome.landed && o !in BaselineOf(cutoff, runs[..i]) && o !in runs[i].outcome.deleted
  }

  ghost predicate StrandedSince(cutoff: real, runs: seq<Run>, i: nat, o: Observee)
    requires i < |runs|
  {
    Strands(cutoff, runs, i, o) && forall j :: i < j < |runs| ==> !Reclaims(cutoff, runs[j], o)
  }

  /** Which failures orphan whom: an observee is an orphan if and only if some failed run stranded it and no
      later run reclaims it. */
  lemma {:induction false} OrphanMeans(cutoff: real, runs: seq<Run>, o: Observee)
    ensures o in Orphans(cutoff, runs) <==> exists i: nat :: i < |runs| && StrandedSince(cutoff, runs, i, o)
  {
    if runs != [] {
      var n := |runs| - 1;
      var front := runs[..n];
      OrphanMeans(cutoff, front, o);
      assert forall i: nat :: i < n ==> front[..i] == runs[..i];
      if o in Orphans(cutoff, runs) {
        if o in Orphans(cutoff, front) {
          var i: nat :| i < n && StrandedSince(cutoff, front, i, o);
          assert StrandedSince(cutoff, runs, i, o);
        } else {
          assert StrandedSince(cutoff, runs, n, o);
        }
      }
      if i: nat :| i < |runs| && StrandedSince(cutoff, runs, i, o) {
        if i < n {
          assert StrandedSince(cutoff, front, i, o);
        }
      }
    }
  }

  /** A successful run leaves exactly the above-cutoff observees if and only if every orphan before it is above
      the cutoff or swept. */
  lemma ExactUnlessOrphaned(cutoff: real, runs: seq<Run>)
    requires runs != [] && History(cutoff, runs).Some? && runs[|runs| - 1].outcome.Acked?
    ensures var n := |runs| - 1;
            History(cutoff, runs).value.relay.Keys == Above(cutoff, runs[n].scores) <==>
            Orphans(cutoff, runs[..n]) <= Above(cutoff, runs[n].scores) + Swept(cutoff, runs[n])
  {
    UntrackedAreOrphans(cutoff, runs);
    SuccessfulRunIsExact(cutoff, runs);
    var above, keys := Above(cutoff, runs[|runs| - 1].scores), History(cutoff, runs).value.relay.Keys;
    assert above <= keys;
    assert keys == above + (keys - above);
  }

  ghost predicate NoneFailed(runs: seq<Run>) {
    forall i :: 0 <= i < |runs| ==> runs[i].outcome.Acked?
  }

  /** While no run failed, the relay holds the baseline and nothing else. */
  lemma RelayIsBaseline(cutoff: real, runs: seq<Run>)
    requires History(cutoff, runs).Some? && NoneFailed(runs)
    ensures History(cutoff, runs).value.relay.Keys == History(cutoff, runs).value.baseline
  {
    if runs != [] {
      var before := Orphans(cutoff, runs[..|runs| - 1]);
      forall o ensures o !in before {
        OrphanMeans(cutoff, runs[..|runs| - 1], o);
      }
      ExactUnlessOrphaned(cutoff, runs);
    }
  }

  /** A failed run keeps the relay within the baseline if and only if it deletes every orphan there was and
      lands nothing new outside the baseline. */
  lemma FailureTracks(cutoff: real, runs: seq<Run>)
    requires runs != [] && History(cutoff, runs).Some? && runs[|runs| - 1].outcome.Broken?
    ensures var n, outcome := |runs| - 1, runs[|runs| - 1].outcome;
            History(cutoff, runs).value.relay.Keys <= History(cutoff, runs).value.baseline <==>
            Orphans(cutoff, runs[..n]) <= outcome.deleted && outcome.landed <= BaselineOf(cutoff, runs[..n])
  {
    var n := |runs| - 1;
    UntrackedAreOrphans(cutoff, runs);
    var s, run := History(cutoff, runs[..n]).value, runs[n];
    assert run.outcome.landed !! run.outcome.deleted by {
      assert Sent(cutoff, s, run) <= Above(cutoff, run.scores);
      assert Deletes(cutoff, s, run) !! Above(cutoff, run.scores);
    }
    var keys, baseline := History(cutoff, runs).value.relay.Keys, BaselineOf(cutoff, runs);
    assert keys <= baseline <==> keys - baseline == {};
    EmptyWhen(Orphans(cutoff, runs[..n]), run.outcome.landed, run.outcome.deleted, baseline);
  }

  lemma EmptyWhen(before: set<Observee>, landed: set<Observee>, deleted: set<Observee>, baseline: set<Observee>)
    requires landed !! deleted
    ensures before + (landed - baseline) - deleted == {} <==> before <= deleted && landed <= baseline
  {
    var after := before + (landed - baseline) - deleted;
    assert forall o :: o in after <==> (o in before || (o in landed && o !in baseline)) && o !in deleted;
  }

  const SomeFacts := Facts(3, 0, 0, 2)

  /** The documentation's promise that a dropped observee is deleted fails where a failed run had landed it:
      the failure leaves the baseline untouched, so the next run does not know of it. */
  lemma OrphanAfterFailure() returns (runs: seq<Run>, o: Observee)
    ensures History(0.02, runs).Some? && |runs| == 2 && runs[1].outcome.Acked?
    ensures o in runs[1].scores && o !in Above(0.02, runs[1].scores)
    ensures o in History(0.02, runs).value.relay && o !in History(0.02, runs).value.baseline
  {
    o := "b";
    var high, low := Score(0.5, SomeFacts), Score(0.0, SomeFacts);
    var first := Run(1, false, false, false, map["b" := high], {"b"}, Broken({"b"}, {}));
    var second := Run(2, false, false, false, map["b" := low], {"b"}, Acked);
    runs := [first, second];
    TwoRuns(0.02, first, second, 0.5);
    assert Rank(0.0) == 0;
    assert Above(0.02, second.scores) == {};
    UntrackedAreOrphans(0.02, runs);
    assert Strands(0.02, runs, 0, "b") by {
      assert runs[..0] == [];
    }
    assert StrandedSince(0.02, runs, 0, "b");
    OrphanMeans(0.02, runs, "b");
  }

  /** Two runs over one observee, the first scoring it above the cutoff, make a history. */
  lemma TwoRuns(cutoff: real, first: Run, second: Run, x: real)
    requires first.id == 1 && second.id == 2 && "b" in first.scores && first.scores["b"].influence == x && AtLeast(cutoff, x)
    requires first.scores.Keys == second.scores.Keys == {"b"} && "b" in first.changed
    requires first.outcome.Broken? ==> first.outcome == Broken({"b"}, {})
    requires second.outcome.Acked? && (second.scores["b"].influence != x ==> "b" in second.changed)
    ensures History(cutoff, [first]).Some? && History(cutoff, [first, second]).Some?
  {
    var runs := [first, second];
    assert runs[..1] == [first] && [first][..0] == [];
    assert "b" in Sent(cutoff, Init, first);
    assert Enabled(cutoff, Init, first);
    var s := Process(cutoff, Init, first);
    assert History(cutoff, [first]) == Some(s);
    assert s.rows == [RowOf(Init, first)];
    assert Enabled(cutoff, s, second);
  }

  /** Facts alone do not mark an observee as changed: after a successful delta run the relay can hold the old
      ones beside a fresh rank. */
  lemma StaleFacts() returns (runs: seq<Run>, o: Observee)
    ensures History(0.02, runs).Some? && |runs| == 2 && NoneFailed(runs)
    ensures o in Above(0.02, runs[1].scores) && o in History(0.02, runs).value.relay
    ensures History(0.02, runs).value.relay[o] != AssertionOf(runs[1].scores[o])
  {
    o := "b";
    var once, now := Score(0.5, SomeFacts), Score(0.5, SomeFacts.(followers := 4));
    var first := Run(1, false, false, false, map["b" := once], {"b"}, Acked);
    var second := Run(2, false, false, false, map["b" := now], {}, Acked);
    runs := [first, second];
    assert Rank(0.5) == 50;
    TwoRuns(0.02, first, second, 0.5);
    WholeAssertionWhen(0.02, runs, "b");
    var s := History(0.02, [first]).value;
    assert runs[..1] == [first] && [first][..0] == [];
    assert s.rows == [RowOf(Init, first)];
    assert !GapPending(s.rows, 2);
    assert !Landed(0.02, runs, 1, "b");
  }
}
