/** The offer Brainstorm makes (`designation_rows` and `offer_rows` of app/services/duty_menu_build.py), and what
    the Assistant's should-say list comes to under it, said simply. */
module AssistantMap {
  import opened Text
  import opened TreasureKeys
  import opened TreasureMap
  import opened SelfMap

  // --- The offer Brainstorm makes ---

  /** The relay settings; `""` stands for an unset one. */
  datatype OfferSettings = OfferSettings(relay: string, trustedListRelay: string, dictionaryRelay: string)

  function DesignationRows(cfg: OfferSettings): seq<(string, string)> {
    var trusted := if cfg.trustedListRelay != "" then cfg.trustedListRelay else cfg.relay;
    seq(|PUBLISHED_METRICS|, i requires 0 <= i < |PUBLISHED_METRICS| => (MetricSpelling(PUBLISHED_METRICS[i]), cfg.relay))
    + [("30392", trusted)]
    + if cfg.dictionaryRelay != "" then [("39998", cfg.dictionaryRelay), ("39999", cfg.dictionaryRelay)] else []
  }

  function WithRelay(rows: seq<(string, string)>): seq<(string, string)> {
    if rows == [] then []
    else (if rows[0].1 != "" then [rows[0]] else []) + WithRelay(rows[1..])
  }

  function OfferRows(cfg: OfferSettings): seq<(string, string)> {
    WithRelay(DesignationRows(cfg))
  }

  /** `Offer(rows)`: None where the constructor raises. */
  function ParseRows(rows: seq<(string, string)>): Option<seq<OfferRow>> {
    if forall i :: 0 <= i < |rows| ==> ParseKey(rows[i].0).Some? then
      Some(seq(|rows|, i requires 0 <= i < |rows| => OfferRow(ParseKey(rows[i].0).value, rows[i].1)))
    else None
  }

  /** A row of kinds other than Scores. */
  ghost predicate NoScores(r: OfferRow) {
    Shaped(r.key) && SCORE_KIND !in r.key.kinds
  }

  /** The shape of the offer: the five Score rows first, when there is a relay for them; nothing else
      about Scores. */
  ghost predicate Standard(rows: seq<OfferRow>, relay: string) {
    && Offer(rows)
    && (relay != "" ==> |PUBLISHED_METRICS| <= |rows|)
    && (relay != "" ==> forall i :: 0 <= i < |PUBLISHED_METRICS| ==> rows[i] == OfferRow(MetricKey(PUBLISHED_METRICS[i]), relay))
    && (forall i :: (if relay == "" then 0 else |PUBLISHED_METRICS|) <= i < |rows| ==> NoScores(rows[i]))
  }

  lemma {:induction false} WithRelayConcat(a: seq<(string, string)>, b: seq<(string, string)>)
    ensures WithRelay(a + b) == WithRelay(a) + WithRelay(b)
  {
    if a == [] {
      assert a + b == b;
    } else {
      var head := if a[0].1 != "" then [a[0]] else [];
      WithRelayConcat(a[1..], b);
      assert (a + b)[0] == a[0] && (a + b)[1..] == a[1..] + b;
      calc {
        WithRelay(a + b);
        head + WithRelay(a[1..] + b);
        head + (WithRelay(a[1..]) + WithRelay(b));
        (head + WithRelay(a[1..])) + WithRelay(b);
      }
    }
  }

  lemma {:induction false} SameRelay(rows: seq<(string, string)>, relay: string)
    requires forall i :: 0 <= i < |rows| ==> rows[i].1 == relay
    ensures WithRelay(rows) == if relay == "" then [] else rows
  {
    if rows != [] {
      SameRelay(rows[1..], relay);
      assert rows == [rows[0]] + rows[1..];
    }
  }

  lemma {:induction false} WithRelayMembers(rows: seq<(string, string)>)
    ensures forall r :: r in WithRelay(rows) ==> r in rows
  {
    if rows != [] {
      WithRelayMembers(rows[1..]);
    }
  }

  lemma ConceptKindParses(slot: string)
    requires IsConceptSlot(slot)
    ensures ParseKey(slot).Some? && SCORE_KIND !in ParseKey(slot).value.kinds
  {
    ConceptSlots();
    SlotHasNoColon(slot);
    assert SlotOf(slot) == slot && RestOf(slot) == "";
    if slot in NAMELESS_KEYS {
      NamelessHasColon(slot);
    }
  }

  lemma NamelessHasColon(n: string)
    requires n in NAMELESS_KEYS
    ensures ':' in n
  {
    assert |n| > 5 && n[5] == ':';
  }

  lemma ListKindParses()
    ensures ParseKey("30392").Some? && SCORE_KIND !in ParseKey("30392").value.kinds
  {
    assert KindSlot("30392") && FiveDigitValue("30392") == 30392;
    PlainSpelled("30392", []);
    assert ["30392"] + [] == ["30392"];
  }

  lemma BareKindParses(slot: string)
    requires slot in ["30392", "39998", "39999"]
    ensures ParseKey(slot).Some? && Shaped(ParseKey(slot).value) && SCORE_KIND !in ParseKey(slot).value.kinds
  {
    if IsConceptSlot(slot) {
      ConceptKindParses(slot);
    } else {
      ListKindParses();
    }
    ParseShaped(slot);
  }

  /** The rows that are not about Scores: Trusted Lists, and the Dictionary when it has a relay. */
  function OtherRows(cfg: OfferSettings): (rows: seq<(string, string)>)
    ensures forall r :: r in rows ==> r.0 in ["30392", "39998", "39999"]
  {
    DesignationRows(cfg)[|PUBLISHED_METRICS|..]
  }

  function ScoreRows(relay: string): seq<(string, string)> {
    seq(|PUBLISHED_METRICS|, i requires 0 <= i < |PUBLISHED_METRICS| => (MetricSpelling(PUBLISHED_METRICS[i]), relay))
  }

  lemma OfferRowsAre(cfg: OfferSettings)
    ensures OfferRows(cfg) == (if cfg.relay == "" then [] else ScoreRows(cfg.relay)) + WithRelay(OtherRows(cfg))
  {
    assert DesignationRows(cfg) == ScoreRows(cfg.relay) + OtherRows(cfg);
    WithRelayConcat(ScoreRows(cfg.relay), OtherRows(cfg));
    SameRelay(ScoreRows(cfg.relay), cfg.relay);
  }

  /** A Score's row first, each in its place; then rows of other kinds. */
  ghost predicate RowParses(row: (string, string), relay: string, i: nat) {
    && ParseKey(row.0).Some? && Shaped(ParseKey(row.0).value)
    && if relay != "" && i < |PUBLISHED_METRICS|
       then ParseKey(row.0).value == MetricKey(PUBLISHED_METRICS[i]) && row.1 == relay
       else SCORE_KIND !in ParseKey(row.0).value.kinds
  }

  lemma OfferRowParses(cfg: OfferSettings, i: nat)
    requires i < |OfferRows(cfg)|
    ensures RowParses(OfferRows(cfg)[i], cfg.relay, i)
  {
    OfferRowsAre(cfg);
    var row := OfferRows(cfg)[i];
    var split := if cfg.relay == "" then 0 else |PUBLISHED_METRICS|;
    if i < split {
      assert row == ScoreRows(cfg.relay)[i];
      assert PUBLISHED_METRICS[i] in PUBLISHED_METRICS;
      MetricKeyParses(PUBLISHED_METRICS[i]);
    } else {
      assert row == WithRelay(OtherRows(cfg))[i - split];
      WithRelayMembers(OtherRows(cfg));
      BareKindParses(row.0);
    }
  }

  lemma ParsedIsStandard(rows: seq<(string, string)>, relay: string)
    requires forall i :: 0 <= i < |rows| ==> RowParses(rows[i], relay, i)
    requires relay != "" ==> |PUBLISHED_METRICS| <= |rows|
    ensures ParseRows(rows).Some? && Standard(ParseRows(rows).value, relay)
  {
    assert forall i :: 0 <= i < |rows| ==> ParseKey(rows[i].0).Some?;
    var parsed := ParseRows(rows).value;
    forall i | 0 <= i < |parsed|
      ensures parsed[i] == OfferRow(ParseKey(rows[i].0).value, rows[i].1) && RowParses(rows[i], relay, i)
    {
    }
  }

  /** Whatever the settings, the offer parses and has the standard shape. */
  lemma OfferIsStandard(cfg: OfferSettings)
    ensures ParseRows(OfferRows(cfg)).Some? && Standard(ParseRows(OfferRows(cfg)).value, cfg.relay)
  {
    forall i | 0 <= i < |OfferRows(cfg)| ensures RowParses(OfferRows(cfg)[i], cfg.relay, i) {
      OfferRowParses(cfg, i);
    }
    OfferRowsAre(cfg);
    ParsedIsStandard(OfferRows(cfg), cfg.relay);
  }

  // --- What the list comes to ---

  /** The Map's most specific key for this Score names the Assistant. */
  predicate NamesAssistant(groups: seq<Group>, who: string, m: string) {
    var w := Winner(KeysOf(groups), ScoreProbe(m));
    w.Some? && who in groups[w.value].providers
  }

  /** `30382:<metric>` at the Scores relay, for each metric the Map gives the Assistant. */
  function ScoreEntries(groups: seq<Group>, who: string, relay: string, metrics: seq<string>): seq<(string, string)> {
    if metrics == [] then []
    else
      var n := |metrics| - 1;
      ScoreEntries(groups, who, relay, metrics[..n])
      + if NamesAssistant(groups, who, metrics[n]) then [(MetricSpelling(metrics[n]), relay)] else []
  }

  /** What the Assistant's Treasure Map should list, said without probes, meets or a greedy choice. */
  function Expected(groups: seq<Group>, who: string, relay: string, scores: ScoresUpkeep): seq<(string, string)> {
    if scores.status == "live" && relay != "" then ScoreEntries(groups, who, relay, PUBLISHED_METRICS) else []
  }

  function Pairs(chosen: seq<Entry>): (ps: seq<(string, string)>)
    ensures |ps| == |chosen| && forall i :: 0 <= i < |chosen| ==> ps[i] == (chosen[i].key.norm, chosen[i].relay)
  {
    seq(|chosen|, i requires 0 <= i < |chosen| => (chosen[i].key.norm, chosen[i].relay))
  }

  lemma MetricsDistinct(i: nat, j: nat)
    requires i < |PUBLISHED_METRICS| && j < |PUBLISHED_METRICS| && PUBLISHED_METRICS[i] == PUBLISHED_METRICS[j]
    ensures i == j
  {
  }

  /** Under the standard offer a Score is answered by its own row, and by no other. */
  lemma ScoreAnswer(rows: seq<OfferRow>, relay: string, j: nat)
    requires Standard(rows, relay) && j < |PUBLISHED_METRICS|
    ensures Answer(rows, ScoreProbe(PUBLISHED_METRICS[j])) == if relay == "" then None else Some(j)
  {
    var p := ScoreProbe(PUBLISHED_METRICS[j]);
    BestByIsMostSpecific(RowKeys(rows), k => Matches(k, p));
    forall i | 0 <= i < |rows| && Matches(rows[i].key, p) ensures relay != "" && i == j {
      assert !NoScores(rows[i]);
      assert rows[i] == OfferRow(MetricKey(PUBLISHED_METRICS[i]), relay);
      MetricsDistinct(i, j);
    }
    if relay != "" {
      assert rows[j] == OfferRow(MetricKey(PUBLISHED_METRICS[j]), relay);
      assert Matches(RowKeys(rows)[j], p);
    }
  }

  lemma ScoreDuty(groups: seq<Group>, who: string, j: nat)
    requires j < |PUBLISHED_METRICS|
    ensures DutyOf(groups, who, ScoreProbe(PUBLISHED_METRICS[j])).duty == NamesAssistant(groups, who, PUBLISHED_METRICS[j])
  {
    assert PUBLISHED_METRICS[j] in PUBLISHED_METRICS;
  }

  /** Under the standard offer, a key over Scores that some row covers is a Score's own key. */
  lemma CoveredScoreKey(rows: seq<OfferRow>, relay: string, key: Key) returns (c: nat)
    requires Standard(rows, relay) && Shaped(key) && SCORE_KIND in key.kinds && Covering(rows, key).Some?
    ensures relay != "" && c < |PUBLISHED_METRICS| && Covering(rows, key) == Some(c)
    ensures key == MetricKey(PUBLISHED_METRICS[c]) && rows[c].relay == relay
  {
    c := Covering(rows, key).value;
    assert Covers(rows[c].key, key);
    assert !NoScores(rows[c]);
    assert rows[c] == OfferRow(MetricKey(PUBLISHED_METRICS[c]), relay);
    OneKindKey(key);
    ShapedScoreKey(key);
  }

  /** Every chosen entry is a Score's own key at the Scores relay, and that Score is the Assistant's. */
  lemma EntryIsScore(groups: seq<Group>, who: string, rows: seq<OfferRow>, scores: ScoresUpkeep, duties: seq<Duty>,
                     live: map<Probe, Live>, relay: string, e: Entry) returns (j: nat)
    requires Assessed(groups, who, rows, scores, duties, live) && Standard(rows, relay)
    requires Founded(e, duties, live, rows)
    ensures j < |PUBLISHED_METRICS| && relay != "" && scores.status == "live"
    ensures e == Entry(MetricKey(PUBLISHED_METRICS[j]), relay)
    ensures NamesAssistant(groups, who, PUBLISHED_METRICS[j])
    ensures OrderOf(rows, e.key) == j
  {
    var d :| d in duties && d.duty && Matches(e.key, d.probe) && LiveAt(live, d.probe, e.relay);
    LiveIsPublished(d.probe, rows, scores);
    j := CoveredScoreKey(rows, relay, e.key);
    assert d.probe == ScoreProbe(PUBLISHED_METRICS[j]);
    ScoreDuty(groups, who, j);
  }

  lemma OneKindKey(k: Key)
    requires Shaped(k) && k.scope.Metric? && SCORE_KIND in k.kinds && forall kind :: kind in k.kinds ==> kind == SCORE_KIND
    ensures k.slot == "30382"
  {
    KindsByRank(k);
    ScoreKindSpelling();
    assert k.kinds[0] in k.kinds && SCORE_KINDS[0] in SCORE_KINDS;
    ScoreSlots(k.slot, k.segs);
    FiveDigitValueInjective(k.slot, "30382");
  }

  /** The metrics marked, each spelt out at the relay. */
  function Marked(relay: string, ms: seq<string>, named: seq<bool>): seq<(string, string)>
    requires |named| == |ms|
  {
    if ms == [] then []
    else
      var n := |ms| - 1;
      Marked(relay, ms[..n], named[..n]) + if named[n] then [(MetricSpelling(ms[n]), relay)] else []
  }

  function Names(groups: seq<Group>, who: string, ms: seq<string>): (named: seq<bool>)
    ensures |named| == |ms| && forall j :: 0 <= j < |ms| ==> named[j] == NamesAssistant(groups, who, ms[j])
  {
    seq(|ms|, j requires 0 <= j < |ms| => NamesAssistant(groups, who, ms[j]))
  }

  lemma {:induction false} ScoreEntriesMarked(groups: seq<Group>, who: string, relay: string, ms: seq<string>)
    ensures ScoreEntries(groups, who, relay, ms) == Marked(relay, ms, Names(groups, who, ms))
  {
    if ms != [] {
      var n := |ms| - 1;
      ScoreEntriesMarked(groups, who, relay, ms[..n]);
      assert Names(groups, who, ms)[..n] == Names(groups, who, ms[..n]);
    }
  }

  /** Entries for Scores in the offer's order, holding exactly the marked metrics, are the marked list. */
  lemma {:induction false} AscendingIsMarked(relay: string, ms: seq<string>, named: seq<bool>, pairs: seq<(string, string)>, at: seq<nat>)
    requires |named| == |ms| && |at| == |pairs|
    requires forall i :: 0 <= i < |at| ==> at[i] < |ms| && pairs[i] == (MetricSpelling(ms[at[i]]), relay)
    requires forall i, j :: 0 <= i < j < |at| ==> at[i] < at[j]
    requires forall j :: 0 <= j < |ms| ==> (named[j] <==> j in at)
    ensures pairs == Marked(relay, ms, named)
  {
    if |ms| > 0 {
      var n := |ms| - 1;
      if n in at {
        var l := |at| - 1;
        LastAt(at, n);
        AscendingIsMarked(relay, ms[..n], named[..n], pairs[..l], at[..l]);
        assert pairs == pairs[..l] + [pairs[l]];
      } else {
        AscendingIsMarked(relay, ms[..n], named[..n], pairs, at);
      }
    }
  }

  /** Entries for Scores in the offer's order, holding exactly the given metrics, are the expected list. */
  lemma AscendingIsExpected(groups: seq<Group>, who: string, relay: string, ms: seq<string>, es: seq<Entry>, at: seq<nat>)
    requires |at| == |es|
    requires forall i :: 0 <= i < |es| ==> at[i] < |ms| && es[i] == Entry(MetricKey(ms[at[i]]), relay)
    requires forall i, j :: 0 <= i < j < |at| ==> at[i] < at[j]
    requires forall j :: 0 <= j < |ms| ==> (NamesAssistant(groups, who, ms[j]) <==> j in at)
    ensures Pairs(es) == ScoreEntries(groups, who, relay, ms)
  {
    ScoreEntriesMarked(groups, who, relay, ms);
    assert forall i :: 0 <= i < |es| ==> Pairs(es)[i] == (MetricSpelling(ms[at[i]]), relay);
    AscendingIsMarked(relay, ms, Names(groups, who, ms), Pairs(es), at);
  }

  lemma LastAt(at: seq<nat>, n: nat)
    requires n in at && (forall i :: 0 <= i < |at| ==> at[i] <= n) && forall i, j :: 0 <= i < j < |at| ==> at[i] < at[j]
    ensures at[|at| - 1] == n && (forall i :: 0 <= i < |at| - 1 ==> at[i] < n)
    ensures forall j :: j in at[..|at| - 1] <==> j in at && j != n
  {
    var l := |at| - 1;
    assert forall i :: 0 <= i < l ==> at[i] < at[l];
    assert at == at[..l] + [at[l]];
  }

  /** The greedy list equals the simple one, for every Map and every settings of the offer. */
  lemma GreedyIsExpected(groups: seq<Group>, who: string, rows: seq<OfferRow>, scores: ScoresUpkeep, duties: seq<Duty>,
                         live: map<Probe, Live>, chosen: seq<Entry>, relay: string)
    requires Assessed(groups, who, rows, scores, duties, live) && Standard(rows, relay)
    requires ShouldSay(groups, duties, live, rows, chosen)
    ensures Pairs(chosen) == Expected(groups, who, relay, scores)
  {
    if !(scores.status == "live" && relay != "") {
      if chosen != [] {
        var _ := EntryIsScore(groups, who, rows, scores, duties, live, relay, chosen[0]);
      }
      return;
    }
    var at := seq(|chosen|, i requires 0 <= i < |chosen| => OrderOf(rows, chosen[i].key));
    forall i | 0 <= i < |chosen|
      ensures at[i] < |PUBLISHED_METRICS| && chosen[i] == Entry(MetricKey(PUBLISHED_METRICS[at[i]]), relay)
      ensures NamesAssistant(groups, who, PUBLISHED_METRICS[at[i]])
    {
      var j := EntryIsScore(groups, who, rows, scores, duties, live, relay, chosen[i]);
    }
    StrictlyListed(rows, chosen, relay, at);
    forall j | 0 <= j < |PUBLISHED_METRICS| && NamesAssistant(groups, who, PUBLISHED_METRICS[j]) ensures j in at {
      var i := NamedIsListed(groups, who, rows, scores, duties, live, chosen, relay, j);
      assert at[i] == j;
    }
    AscendingIsExpected(groups, who, relay, PUBLISHED_METRICS, chosen, at);
  }

  /** Sorted by place in the offer and no two spelt alike, the entries ascend strictly. */
  lemma StrictlyListed(rows: seq<OfferRow>, chosen: seq<Entry>, relay: string, at: seq<nat>)
    requires |at| == |chosen| && DistinctNorms(chosen)
    requires forall i :: 0 <= i < |at| ==> at[i] == OrderOf(rows, chosen[i].key) && at[i] < |PUBLISHED_METRICS|
    requires forall i :: 0 <= i < |at| ==> chosen[i] == Entry(MetricKey(PUBLISHED_METRICS[at[i]]), relay)
    requires forall i, j :: 0 <= i < j < |chosen| ==> OrderOf(rows, chosen[i].key) <= OrderOf(rows, chosen[j].key)
    ensures forall i, j :: 0 <= i < j < |at| ==> at[i] < at[j]
  {
    forall i, j | 0 <= i < j < |at| ensures at[i] < at[j] {
      assert chosen[i].key.norm != chosen[j].key.norm;
      assert at[i] <= at[j];
    }
  }

  lemma NamedIsListed(groups: seq<Group>, who: string, rows: seq<OfferRow>, scores: ScoresUpkeep, duties: seq<Duty>,
                      live: map<Probe, Live>, chosen: seq<Entry>, relay: string, j: nat) returns (i: nat)
    requires Assessed(groups, who, rows, scores, duties, live) && Standard(rows, relay)
    requires ShouldSay(groups, duties, live, rows, chosen) && scores.status == "live" && relay != ""
    requires j < |PUBLISHED_METRICS| && NamesAssistant(groups, who, PUBLISHED_METRICS[j])
    ensures i < |chosen| && OrderOf(rows, chosen[i].key) == j
  {
    NamedIsLive(groups, who, rows, scores, duties, live, relay, j);
    var k :| LiveDuty(groups, duties, live, PUBLISHED_METRICS[j], k);
    assert Claimed(chosen, ScoreProbe(PUBLISHED_METRICS[j]));
    i := NamedIsChosen(groups, who, rows, scores, duties, live, chosen, relay, j);
  }

  lemma NamedIsLive(groups: seq<Group>, who: string, rows: seq<OfferRow>, scores: ScoresUpkeep, duties: seq<Duty>,
                    live: map<Probe, Live>, relay: string, j: nat)
    requires Assessed(groups, who, rows, scores, duties, live) && Standard(rows, relay)
    requires scores.status == "live" && relay != "" && j < |PUBLISHED_METRICS|
    requires NamesAssistant(groups, who, PUBLISHED_METRICS[j])
    ensures exists k :: LiveDuty(groups, duties, live, PUBLISHED_METRICS[j], k)
  {
    var m := PUBLISHED_METRICS[j];
    var p := ScoreProbe(m);
    ScoreDuty(groups, who, j);
    ScoreAnswer(rows, relay, j);
    LiveIsPublished(p, rows, scores);
    assert IsProbe(KeysOf(groups), p);
    var d :| d in duties && d.probe == p;
    assert LiveDuty(groups, duties, live, m, groups[d.winner.value].key);
  }

  lemma EntryForScore(groups: seq<Group>, who: string, rows: seq<OfferRow>, scores: ScoresUpkeep, duties: seq<Duty>,
                      live: map<Probe, Live>, relay: string, e: Entry, j: nat)
    requires Assessed(groups, who, rows, scores, duties, live) && Standard(rows, relay)
    requires Founded(e, duties, live, rows) && j < |PUBLISHED_METRICS|
    requires Matches(e.key, ScoreProbe(PUBLISHED_METRICS[j]))
    ensures e == Entry(MetricKey(PUBLISHED_METRICS[j]), relay) && OrderOf(rows, e.key) == j
  {
    var c := EntryIsScore(groups, who, rows, scores, duties, live, relay, e);
    MetricsDistinct(c, j);
  }

  lemma NamedIsChosen(groups: seq<Group>, who: string, rows: seq<OfferRow>, scores: ScoresUpkeep, duties: seq<Duty>,
                      live: map<Probe, Live>, chosen: seq<Entry>, relay: string, j: nat) returns (i: nat)
    requires Assessed(groups, who, rows, scores, duties, live) && Standard(rows, relay)
    requires Kept(chosen, duties, live, rows)
    requires j < |PUBLISHED_METRICS| && Claimed(chosen, ScoreProbe(PUBLISHED_METRICS[j]))
    ensures i < |chosen| && OrderOf(rows, chosen[i].key) == j
    ensures chosen[i] == Entry(MetricKey(PUBLISHED_METRICS[j]), relay)
  {
    var e :| e in chosen && Matches(e.key, ScoreProbe(PUBLISHED_METRICS[j]));
    assert Founded(e, duties, live, rows);
    i :| 0 <= i < |chosen| && chosen[i] == e;
    EntryForScore(groups, who, rows, scores, duties, live, relay, e, j);
  }
}
