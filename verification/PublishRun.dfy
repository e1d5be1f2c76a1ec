/** One publish run as app/message_queue_tasks/upload_nostr_events.py carries it out: the scorecards it asserts,
    the plan, the sending, and the rows it updates, step by step, proved to be `DeltaPublish.Process`. */
module PublishRun {
  import opened Text
  import opened Sorting
  import opened Numbers
  import opened DeltaPublish

  datatype Scorecard = Scorecard(observee: Observee, score: Score)

  datatype TaInput = TaInput(observee: Observee, assertion: Assertion)

  /** The scorecards are a dictionary by observee. */
  ghost predicate Keyed(cards: seq<Scorecard>) {
    forall i, j :: 0 <= i < j < |cards| ==> cards[i].observee != cards[j].observee
  }

  function ScoresOf(cards: seq<Scorecard>): map<Observee, Score> {
    if cards == [] then map[]
    else
      var n := |cards| - 1;
      ScoresOf(cards[..n])[cards[n].observee := cards[n].score]
  }

  lemma {:induction false} ScoresOfKeyed(cards: seq<Scorecard>)
    requires Keyed(cards)
    ensures forall c :: c in cards <==> c.observee in ScoresOf(cards) && ScoresOf(cards)[c.observee] == c.score
  {
    if cards != [] {
      var n := |cards| - 1;
      ScoresOfKeyed(cards[..n]);
      assert cards == cards[..n] + [cards[n]];
      forall o | o in ScoresOf(cards[..n]) ensures o != cards[n].observee {
        assert Scorecard(o, ScoresOf(cards[..n])[o]) in cards[..n];
      }
    }
  }

  // --- What is asserted ---

  predicate Asserted(full: bool, changed: set<Observee>, cutoff: real, c: Scorecard) {
    (full || c.observee in changed) && AtLeast(cutoff, c.score.influence)
  }

  function Select(cards: seq<Scorecard>, full: bool, changed: set<Observee>, cutoff: real): (r: seq<Scorecard>)
    ensures forall c :: c in r <==> c in cards && Asserted(full, changed, cutoff, c)
  {
    if cards == [] then []
    else
      var n := |cards| - 1;
      assert cards == cards[..n] + [cards[n]];
      Select(cards[..n], full, changed, cutoff) + (if Asserted(full, changed, cutoff, cards[n]) then [cards[n]] else [])
  }

  predicate Higher(a: Scorecard, b: Scorecard) {
    a.score.influence >= b.score.influence
  }

  function TaInputs(cards: seq<Scorecard>, full: bool, changed: set<Observee>, cutoff: real): seq<TaInput> {
    var sorted := Sort(Higher, Select(cards, full, changed, cutoff));
    seq(|sorted|, i requires 0 <= i < |sorted| => TaInput(sorted[i].observee, AssertionOf(sorted[i].score)))
  }

  /** Input `i` asserts a selected scorecard. */
  lemma TaInputAt(cards: seq<Scorecard>, full: bool, changed: set<Observee>, cutoff: real, i: nat)
    requires Keyed(cards) && i < |TaInputs(cards, full, changed, cutoff)|
    ensures var t, scores := TaInputs(cards, full, changed, cutoff)[i], ScoresOf(cards);
            && t.observee in Above(cutoff, scores) && (full || t.observee in changed) && t.assertion == AssertionOf(scores[t.observee])
            && scores[t.observee] == Sort(Higher, Select(cards, full, changed, cutoff))[i].score
  {
    var selected := Select(cards, full, changed, cutoff);
    ScoresOfKeyed(cards);
    SortMembers(Higher, selected);
    assert Sort(Higher, selected)[i] in selected;
  }

  lemma TaInputFor(cards: seq<Scorecard>, full: bool, changed: set<Observee>, cutoff: real, o: Observee)
    requires Keyed(cards) && o in Above(cutoff, ScoresOf(cards)) && (full || o in changed)
    ensures TaInput(o, AssertionOf(ScoresOf(cards)[o])) in TaInputs(cards, full, changed, cutoff)
  {
    var c := Scorecard(o, ScoresOf(cards)[o]);
    var sorted := Sort(Higher, Select(cards, full, changed, cutoff));
    ScoresOfKeyed(cards);
    SortMembers(Higher, Select(cards, full, changed, cutoff));
    assert c in sorted;
    var i :| 0 <= i < |sorted| && sorted[i] == c;
    assert TaInputs(cards, full, changed, cutoff)[i] == TaInput(o, AssertionOf(c.score));
  }

  /** The inputs, highest influence first. */
  lemma TaInputsDescend(cards: seq<Scorecard>, full: bool, changed: set<Observee>, cutoff: real, i: nat, j: nat)
    requires Keyed(cards) && i < j < |TaInputs(cards, full, changed, cutoff)|
    ensures var tas, scores := TaInputs(cards, full, changed, cutoff), ScoresOf(cards);
            tas[i].observee in scores && tas[j].observee in scores && scores[tas[i].observee].influence >= scores[tas[j].observee].influence
  {
    TaInputAt(cards, full, changed, cutoff, i);
    TaInputAt(cards, full, changed, cutoff, j);
    SortSorted(Higher, Select(cards, full, changed, cutoff));
    var sorted := Sort(Higher, Select(cards, full, changed, cutoff));
    assert Higher(sorted[i], sorted[j]);
  }

  /** Every input asserts the nearest hundredth of its observee's influence and its facts; and those asserted
      are exactly the ones to be sent whose influence clears the cutoff. */
  lemma TaInputsExact(cards: seq<Scorecard>, full: bool, changed: set<Observee>, cutoff: real)
    requires Keyed(cards)
    ensures Ranked(TaInputs(cards, full, changed, cutoff), ScoresOf(cards))
    ensures forall o :: o in Observees(TaInputs(cards, full, changed, cutoff)) <==> o in Clearing(cutoff, ScoresOf(cards)) && (full || o in changed)
  {
    AboveIsClearing(cutoff, ScoresOf(cards));
    var tas, scores := TaInputs(cards, full, changed, cutoff), ScoresOf(cards);
    forall t | t in tas
      ensures t.observee in Above(cutoff, scores) && (full || t.observee in changed) && t.assertion == AssertionOf(scores[t.observee])
    {
      var i :| 0 <= i < |tas| && tas[i] == t;
      TaInputAt(cards, full, changed, cutoff, i);
    }
    forall o | o in Above(cutoff, scores) && (full || o in changed) ensures o in Observees(tas) {
      TaInputFor(cards, full, changed, cutoff, o);
    }
  }

  function Observees(tas: seq<TaInput>): set<Observee> {
    set t | t in tas :: t.observee
  }

  ghost predicate Ranked(tas: seq<TaInput>, scores: map<Observee, Score>) {
    forall t :: t in tas ==>
      && t.observee in scores && t.assertion == AssertionOf(scores[t.observee])
      && Nearest(scores[t.observee].influence * 100.0, t.assertion.rank) && t.assertion.facts == scores[t.observee].facts
  }

  // --- What is deleted ---

  method SortedSet(s: set<Observee>) returns (r: seq<Observee>)
    ensures Ascending(Less, r) && forall o :: o in r <==> o in s
  {
    var rest, xs := s, [];
    while rest != {}
      invariant rest <= s && forall o :: o in xs <==> o in s && o !in rest
      decreases rest
    {
      var o :| o in rest;
      rest, xs := rest - {o}, xs + [o];
    }
    r := SortedUnique(Less, xs);
    StringOrder();
    SortedUniqueAscending(Less, xs);
  }

  /** The new published state and the sorted delete set, from one pass over the scorecards. */
  method PlanPublish(cards: seq<Scorecard>, previously: seq<Observee>, cutoff: real, sweep: bool)
    returns (currently: seq<Observee>, deletes: seq<Observee>)
    requires Keyed(cards)
    ensures forall o :: o in currently <==> o in Clearing(cutoff, ScoresOf(cards))
    ensures |currently| == |Clearing(cutoff, ScoresOf(cards))|
    ensures Ascending(Less, deletes)
    ensures forall o :: o in deletes <==>
              o !in Clearing(cutoff, ScoresOf(cards)) && (o in previously || (sweep && o in ScoresOf(cards)))
  {
    currently := [];
    var above: set<Observee>, below: set<Observee> := {}, {};
    for i := 0 to |cards|
      invariant above == Above(cutoff, ScoresOf(cards[..i])) && below == Below(cutoff, ScoresOf(cards[..i]))
      invariant (forall o :: o in currently <==> o in above) && |currently| == |above|
    {
      var c := cards[i];
      NextCard(cards, cutoff, i);
      if AtLeast(cutoff, c.score.influence) {
        currently, above := currently + [c.observee], above + {c.observee};
      } else {
        below := below + {c.observee};
      }
    }
    assert cards[..|cards|] == cards;
    AboveIsClearing(cutoff, ScoresOf(cards));
    var fellOff := (set o | o in previously) - above;
    deletes := SortedSet(if sweep then fellOff + below else fellOff);
  }

  lemma NewKey(cards: seq<Scorecard>, i: nat)
    requires Keyed(cards) && i < |cards|
    ensures cards[i].observee !in ScoresOf(cards[..i])
  {
    var scores, o := ScoresOf(cards[..i]), cards[i].observee;
    ScoresOfKeyed(cards[..i]);
    assert forall p :: p in scores ==> Scorecard(p, scores[p]) in cards[..i];
    assert forall d :: d in cards[..i] ==> d.observee != o;
  }

  lemma AddScore(cutoff: real, scores: map<Observee, Score>, o: Observee, x: Score)
    requires o !in scores
    ensures Above(cutoff, scores[o := x]) == if AtLeast(cutoff, x.influence) then Above(cutoff, scores) + {o} else Above(cutoff, scores)
    ensures Below(cutoff, scores[o := x]) == if AtLeast(cutoff, x.influence) then Below(cutoff, scores) else Below(cutoff, scores) + {o}
  {
  }

  lemma NextCard(cards: seq<Scorecard>, cutoff: real, i: nat)
    requires Keyed(cards) && i < |cards|
    ensures var scores, next, c := ScoresOf(cards[..i]), ScoresOf(cards[..i + 1]), cards[i];
            && c.observee !in Above(cutoff, scores)
            && Above(cutoff, next) == (if AtLeast(cutoff, c.score.influence) then Above(cutoff, scores) + {c.observee} else Above(cutoff, scores))
            && Below(cutoff, next) == (if AtLeast(cutoff, c.score.influence) then Below(cutoff, scores) else Below(cutoff, scores) + {c.observee})
  {
    var scores, c := ScoresOf(cards[..i]), cards[i];
    NewKey(cards, i);
    assert cards[..i + 1][..i] == cards[..i];
    assert ScoresOf(cards[..i + 1]) == scores[c.observee := c.score];
    AddScore(cutoff, scores, c.observee, c.score);
  }

  // --- The run ---

  predicate Lands(outcome: Outcome, o: Observee) {
    outcome.Acked? || o in outcome.landed
  }

  predicate Goes(outcome: Outcome, o: Observee) {
    outcome.Acked? || o in outcome.deleted
  }

  lemma NextObservee(tas: seq<TaInput>, i: nat)
    requires i < |tas|
    ensures Observees(tas[..i + 1]) == Observees(tas[..i]) + {tas[i].observee}
  {
    assert tas[..i + 1] == tas[..i] + [tas[i]];
    forall o | o in Observees(tas[..i]) + {tas[i].observee} ensures o in Observees(tas[..i + 1]) {
      if o == tas[i].observee {
        assert tas[i] in tas[..i + 1];
      }
    }
  }

  lemma LandOne(relay: map<Observee, Assertion>, scores: map<Observee, Score>, landed: set<Observee>, o: Observee)
    requires landed <= scores.Keys && o in scores
    ensures Land(relay, scores, landed, {})[o := AssertionOf(scores[o])] == Land(relay, scores, landed + {o}, {})
  {
  }

  lemma LandThenDelete(relay: map<Observee, Assertion>, scores: map<Observee, Score>, landed: set<Observee>, deleted: set<Observee>)
    requires landed <= scores.Keys
    ensures Land(relay, scores, landed, {}) - deleted == Land(relay, scores, landed, deleted)
  {
  }

  lemma PlanIs(cutoff: real, s: State, run: Run, sent: set<Observee>, dropped: set<Observee>)
    requires forall o :: o in sent <==> o in Above(cutoff, run.scores) && (Full(s, run) || o in run.changed)
    requires forall o :: o in dropped <==>
               (o in s.baseline && o !in Above(cutoff, run.scores)) || (run.sweep && o in Below(cutoff, run.scores))
    ensures sent == Sent(cutoff, s, run) && dropped == Deletes(cutoff, s, run)
  {
  }

  lemma AllTaken(outcome: Outcome, sent: set<Observee>, landed: set<Observee>, deletes: set<Observee>, deleted: set<Observee>)
    requires landed == (set o | o in sent && Lands(outcome, o)) && deleted == (set o | o in deletes && Goes(outcome, o))
    requires outcome.Broken? ==> outcome.landed <= sent && outcome.deleted <= deletes
    ensures outcome.Acked? ==> landed == sent && deleted == deletes
    ensures outcome.Broken? ==> landed == outcome.landed && deleted == outcome.deleted
  {
  }

  class Observer {
    var relay: map<Observee, Assertion>
    var rows: seq<Row>
    var baseline: seq<Observee>
    ghost var scores: map<Observee, Score>

    ghost function View(): State
      reads this
    {
      State(relay, rows, (set o | o in baseline), scores)
    }

    constructor ()
      ensures View() == Init
    {
      relay, rows, baseline, scores := map[], [], [], map[];
    }

    /** The relay takes the assertions, all of them or those a broken run landed. */
    method SendAssertions(tas: seq<TaInput>, outcome: Outcome, ghost scored: map<Observee, Score>) returns (ghost landed: set<Observee>)
      requires Ranked(tas, scored)
      modifies this`relay
      ensures landed == (set o | o in Observees(tas) && Lands(outcome, o))
      ensures landed <= scored.Keys && relay == Land(old(relay), scored, landed, {})
    {
      landed := {};
      for i := 0 to |tas|
        invariant landed == set o | o in Observees(tas[..i]) && Lands(outcome, o)
        invariant landed <= scored.Keys && relay == Land(old(relay), scored, landed, {})
      {
        var t := tas[i];
        assert t in tas;
        NextObservee(tas, i);
        if Lands(outcome, t.observee) {
          LandOne(old(relay), scored, landed, t.observee);
          relay := relay[t.observee := t.assertion];
          landed := landed + {t.observee};
        }
      }
      assert tas[..|tas|] == tas;
    }

    /** Then the deletions. */
    method SendDeletions(deletes: seq<Observee>, outcome: Outcome) returns (ghost deleted: set<Observee>)
      modifies this`relay
      ensures deleted == (set o | o in deletes && Goes(outcome, o)) && relay == old(relay) - deleted
    {
      deleted := {};
      for i := 0 to |deletes|
        invariant deleted == (set o | o in deletes[..i] && Goes(outcome, o)) && relay == old(relay) - deleted
      {
        assert deletes[..i + 1] == deletes[..i] + [deletes[i]];
        if Goes(outcome, deletes[i]) {
          relay := relay - {deletes[i]};
          deleted := deleted + {deletes[i]};
        }
      }
      assert deletes[..|deletes|] == deletes;
    }

    /** Assert and delete what this run is to, from the scorecards and the baseline. */
    method Publish(cutoff: real, cards: seq<Scorecard>, full: bool, run: Run, ghost was: State) returns (currently: seq<Observee>)
      requires Keyed(cards) && run.scores == ScoresOf(cards) && Enabled(cutoff, was, run)
      requires full == Full(was, run) && was.baseline == (set o | o in baseline) && relay == was.relay
      modifies this`relay
      ensures relay == Process(cutoff, was, run).relay
      ensures (set o | o in currently) == Above(cutoff, run.scores)
    {
      var tas := TaInputs(cards, full, run.changed, cutoff);
      TaInputsExact(cards, full, run.changed, cutoff);
      var deletes;
      currently, deletes := PlanPublish(cards, baseline, cutoff, run.sweep);
      AboveIsClearing(cutoff, run.scores);
      ghost var sent, dropped := Observees(tas), set o | o in deletes;
      PlanIs(cutoff, was, run, sent, dropped);
      ghost var landed := SendAssertions(tas, run.outcome, run.scores);
      ghost var deleted := SendDeletions(deletes, run.outcome);
      AllTaken(run.outcome, sent, landed, dropped, deleted);
      LandThenDelete(was.relay, run.scores, landed, deleted);
    }

    /** One run, from opening its row to closing it: the new state is the one `Process` gives. */
    method ProcessUpload(cutoff: real, cards: seq<Scorecard>, run: Run)
      requires Keyed(cards) && run.scores == ScoresOf(cards) && Enabled(cutoff, View(), run)
      modifies this
      ensures View() == Process(cutoff, old(View()), run)
    {
      ghost var was := View();
      var full, force := run.settingFull || run.forceFull, run.forceFull;
      if !full && GapPending(rows, run.id) {
        full, force := true, true;
      }
      rows := rows + [Row(run.id, force, Ongoing)];
      var currently := Publish(cutoff, cards, full, run, was);
      scores := run.scores;
      rows := rows[|rows| - 1 := Row(run.id, force, if run.outcome.Acked? then Success else Failure)];
      assert rows == was.rows + [RowOf(was, run)];
      if run.outcome.Acked? {
        baseline := currently;
      }
    }
  }
}
