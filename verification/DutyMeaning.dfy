/** What the check says of a reader's Map, said of insights rather than of the probes that stand for them:
    whose duty an insight is, whether it is offered, and which lines that calls for. */
module DutyMeaning {
  import opened Text
  import opened Sorting
  import opened TreasureKeys
  import opened TreasureMap
  import opened SelfMap
  import opened AssistantMap
  import opened LineKeys
  import opened DutyLines

  // --- Whose duty an insight is ---

  /** Group `w` decides the insight: its key matches and no other matching key of the Map is more specific. */
  ghost predicate DecidedBy(groups: seq<Group>, i: Probe, w: nat) {
    && w < |groups| && Matches(groups[w].key, i)
    && forall j :: 0 <= j < |groups| && Matches(groups[j].key, i) ==> !MoreSpecific(groups[j].key, groups[w].key)
  }

  lemma WinnerDecides(groups: seq<Group>, i: Probe, w: nat)
    requires ReaderMap(groups)
    ensures DecidedBy(groups, i, w) <==> Winner(KeysOf(groups), i) == Some(w)
  {
    var keys := KeysOf(groups);
    BestByIsMostSpecific(keys, k => Matches(k, i));
    var best := Winner(keys, i);
    if DecidedBy(groups, i, w) {
      assert Matches(keys[w], i);
      var b := best.value;
      assert Matches(groups[b].key, i);
      if b != w {
        CompareKeysTotalOrder(groups[b].key, groups[w].key);
        CompareKeysTotalOrder(groups[w].key, groups[b].key);
      }
    }
  }

  /** Not asked of the Assistant by a key for all of a kind: Concepts, which it curates none of, and of kind
      30382 whatever is no published metric. A region nobody checks may hold what it publishes. */
  predicate Unasked(i: Probe) {
    || IsConceptKind(i.kind)
    || (i.kind == SCORE_KIND && !i.scope.Unchecked? && !(i.scope.Metric? && i.scope.value in PUBLISHED_METRICS))
  }

  /** The insight is owed under group `w`: its key decides it and names the Assistant, and is not one for all of
      a kind over an insight not asked for that way. */
  ghost predicate Owed(groups: seq<Group>, who: string, w: nat, i: Probe) {
    DecidedBy(groups, i, w) && who in groups[w].providers && !(groups[w].key.scope.All? && Unasked(i))
  }

  /** Nobody leaves a region of Concepts unchecked. */
  lemma UncheckedIsNoConcept(groups: seq<Group>, i: Probe)
    requires ReaderMap(groups) && Insight(KeysOf(groups), i) && i.scope.Unchecked?
    ensures !IsConceptKind(i.kind)
  {
    var k :| k in KeysOf(groups) && k.scope.Unchecked? && i.scope == Unchecked(k.norm) && i.kind in k.kinds;
    var j :| 0 <= j < |groups| && groups[j].key == k;
    UncheckedKinds(k);
    RegionKinds(k, i.kind);
  }

  /** An insight is the Assistant's duty if and only if it is owed under some group. */
  lemma DutyMeans(groups: seq<Group>, who: string, i: Probe)
    requires ReaderMap(groups) && Insight(KeysOf(groups), i)
    ensures DutyOf(groups, who, i).duty <==> exists w: nat :: Owed(groups, who, w, i)
    ensures forall w: nat :: DutyOf(groups, who, i).winner == Some(w) <==> DecidedBy(groups, i, w)
    ensures forall w: nat :: DecidedBy(groups, i, w) ==> (DutyOf(groups, who, i).duty <==> Owed(groups, who, w, i))
  {
    if i.scope.Unchecked? {
      UncheckedIsNoConcept(groups, i);
    }
    assert InSupportedSets(i) <==> !Unasked(i);
    forall w: nat ensures DecidedBy(groups, i, w) <==> Winner(KeysOf(groups), i) == Some(w) {
      WinnerDecides(groups, i, w);
    }
    if DutyOf(groups, who, i).duty {
      assert Owed(groups, who, Winner(KeysOf(groups), i).value, i);
    }
  }

  // --- What is offered ---

  /** The settings offer the insight: a published Score, a List of kind 30392 or a Concept, with a relay for it. */
  predicate Offered(cfg: OfferSettings, i: Probe) {
    || (Published(i) && cfg.relay != "")
    || (i.kind == 30392 && (cfg.trustedListRelay != "" || cfg.relay != ""))
    || (IsConceptKind(i.kind) && cfg.dictionaryRelay != "")
  }

  /** A row for one published Score, or for all of some kinds. */
  ghost predicate Plain(r: OfferRow) {
    r.key.scope.All? || exists m :: m in PUBLISHED_METRICS && r.key == MetricKey(m)
  }

  lemma BareKey(slot: string)
    requires slot in ["30392", "39998", "39999"]
    ensures ParseKey(slot).Some? && ParseKey(slot).value.scope.All?
    ensures ParseKey(slot).value.kinds == if slot == "30392" then [30392] else if slot == "39998" then CONCEPT_KINDS else [39999]
  {
    BareKindParses(slot);
    if slot == "30392" {
      var row := RowExample();
    } else {
      BareConceptKey(slot);
    }
  }

  lemma BareConceptKey(slot: string)
    requires IsConceptSlot(slot) && ParseKey(slot).Some? && Shaped(ParseKey(slot).value)
    ensures ParseKey(slot).value.scope.All?
    ensures ParseKey(slot).value.kinds == if slot == "39998" then CONCEPT_KINDS else [39999]
  {
    ConceptSlots();
    SlotHasNoColon(slot);
    assert SlotOf(slot) == slot && RestOf(slot) == "";
  }

  /** Row by row: a metric's key at the Scores relay, or one of the three bare kinds at a relay of its own. */
  ghost predicate Known(cfg: OfferSettings, row: (string, string)) {
    || (cfg.relay != "" && exists m :: m in PUBLISHED_METRICS && row == (MetricSpelling(m), cfg.relay))
    || (row.0 == "30392" && row.1 == (if cfg.trustedListRelay != "" then cfg.trustedListRelay else cfg.relay) && row.1 != "")
    || (row.0 in ["39998", "39999"] && row.1 == cfg.dictionaryRelay && row.1 != "")
  }

  lemma {:induction false} WithRelayHas(rows: seq<(string, string)>, r: (string, string))
    ensures r in WithRelay(rows) <==> r in rows && r.1 != ""
  {
    if rows != [] {
      WithRelayHas(rows[1..], r);
      assert rows == [rows[0]] + rows[1..];
    }
  }

  lemma OfferHas(cfg: OfferSettings, row: (string, string))
    ensures row in OfferRows(cfg) <==> Known(cfg, row)
  {
    WithRelayHas(DesignationRows(cfg), row);
    DesignationHas(cfg, row);
  }

  lemma DesignationHas(cfg: OfferSettings, row: (string, string))
    ensures row in DesignationRows(cfg) && row.1 != "" <==> Known(cfg, row)
  {
    var trusted := if cfg.trustedListRelay != "" then cfg.trustedListRelay else cfg.relay;
    var dictionary := if cfg.dictionaryRelay != "" then [("39998", cfg.dictionaryRelay), ("39999", cfg.dictionaryRelay)] else [];
    assert DesignationRows(cfg) == ScoreRows(cfg.relay) + [("30392", trusted)] + dictionary;
    ScoreRowsHas(cfg.relay, row);
  }

  lemma ScoreRowsHas(relay: string, row: (string, string))
    ensures row in ScoreRows(relay) <==> exists m :: m in PUBLISHED_METRICS && row == (MetricSpelling(m), relay)
  {
    if m :| m in PUBLISHED_METRICS && row == (MetricSpelling(m), relay) {
      var j :| 0 <= j < |PUBLISHED_METRICS| && PUBLISHED_METRICS[j] == m;
      assert ScoreRows(relay)[j] == row;
    }
  }

  lemma MetricMatches(m: string, i: Probe)
    requires m in PUBLISHED_METRICS
    ensures ParseKey(MetricSpelling(m)) == Some(MetricKey(m))
    ensures Matches(MetricKey(m), i) <==> i == ScoreProbe(m)
  {
    MetricKeyParses(m);
  }

  lemma BareMatches(slot: string, i: Probe)
    requires slot in ["30392", "39998", "39999"]
    ensures ParseKey(slot).Some? && ParseKey(slot).value.scope.All?
    ensures Matches(ParseKey(slot).value, i) <==>
            if slot == "30392" then i.kind == 30392 else if slot == "39998" then IsConceptKind(i.kind) else i.kind == 39999
  {
    BareKey(slot);
  }

  /** A row of the settings is plain, and what it matches is offered. */
  lemma KnownMatches(cfg: OfferSettings, row: (string, string), i: Probe)
    requires Known(cfg, row)
    ensures ParseKey(row.0).Some? && Plain(OfferRow(ParseKey(row.0).value, row.1))
    ensures Matches(ParseKey(row.0).value, i) ==> Offered(cfg, i)
  {
    if cfg.relay != "" && exists m :: m in PUBLISHED_METRICS && row == (MetricSpelling(m), cfg.relay) {
      var m :| m in PUBLISHED_METRICS && row == (MetricSpelling(m), cfg.relay);
      MetricMatches(m, i);
    } else {
      BareMatches(row.0, i);
    }
  }

  /** And what is offered some row matches. */
  lemma OfferedMatches(cfg: OfferSettings, i: Probe) returns (row: (string, string))
    requires Offered(cfg, i)
    ensures Known(cfg, row) && ParseKey(row.0).Some? && Matches(ParseKey(row.0).value, i)
  {
    if i.kind == 30392 && (cfg.trustedListRelay != "" || cfg.relay != "") {
      row := ("30392", if cfg.trustedListRelay != "" then cfg.trustedListRelay else cfg.relay);
      BareMatches(row.0, i);
    } else if IsConceptKind(i.kind) && cfg.dictionaryRelay != "" {
      row := ("39998", cfg.dictionaryRelay);
      BareMatches(row.0, i);
    } else {
      row := (MetricSpelling(i.scope.value), cfg.relay);
      MetricMatches(i.scope.value, i);
    }
  }

  /** Row `j` of the offer is plain, and what it matches is offered. */
  lemma RowMeans(cfg: OfferSettings, rows: seq<OfferRow>, j: nat, i: Probe)
    requires ParseRows(OfferRows(cfg)) == Some(rows) && j < |rows|
    ensures Plain(rows[j]) && (Matches(rows[j].key, i) ==> Offered(cfg, i))
  {
    var row := OfferRows(cfg)[j];
    assert rows[j] == OfferRow(ParseKey(row.0).value, row.1);
    OfferHas(cfg, row);
    KnownMatches(cfg, row, i);
  }

  lemma RowFor(cfg: OfferSettings, rows: seq<OfferRow>, i: Probe) returns (j: nat)
    requires ParseRows(OfferRows(cfg)) == Some(rows) && Offered(cfg, i)
    ensures j < |rows| && Matches(rows[j].key, i)
  {
    var row := OfferedMatches(cfg, i);
    OfferHas(cfg, row);
    j :| 0 <= j < |OfferRows(cfg)| && OfferRows(cfg)[j] == row;
  }

  /** An insight has an answering row exactly when the settings offer it. */
  lemma AnsweredIsOffered(cfg: OfferSettings, rows: seq<OfferRow>, i: Probe)
    requires ParseRows(OfferRows(cfg)) == Some(rows)
    ensures Answer(rows, i).Some? <==> Offered(cfg, i)
  {
    BestByIsMostSpecific(RowKeys(rows), k => Matches(k, i));
    if Answer(rows, i).Some? {
      RowMeans(cfg, rows, Answer(rows, i).value, i);
    }
    if Offered(cfg, i) {
      var j := RowFor(cfg, rows, i);
      assert Matches(RowKeys(rows)[j], i);
    }
  }

  lemma RowsPlain(cfg: OfferSettings, rows: seq<OfferRow>)
    requires ParseRows(OfferRows(cfg)) == Some(rows)
    ensures forall r :: r in rows ==> Plain(r)
  {
    forall j | 0 <= j < |rows| ensures Plain(rows[j]) {
      RowMeans(cfg, rows, j, Probe(0, Other));
    }
  }

  // --- From insights to probes and back ---

  /** Among plain rows, an insight and the probe standing for it have the same answer. */
  lemma StandAnswer(keys: seq<Key>, rows: seq<OfferRow>, i: Probe)
    requires Insight(keys, i) && forall r :: r in rows ==> Plain(r)
    ensures Answer(rows, i) == Answer(rows, Stand(keys, i))
  {
    var s := Stand(keys, i);
    forall k | k in RowKeys(rows) ensures Matches(k, i) <==> Matches(k, s) {
      var j :| 0 <= j < |rows| && rows[j].key == k;
      assert Plain(rows[j]);
    }
    BestByExtensional(RowKeys(rows), k => Matches(k, i), k => Matches(k, s));
  }

  /** The insights of the part of group `gi` that row `ri` answers. */
  ghost predicate InPart(groups: seq<Group>, rows: seq<OfferRow>, gi: nat, ri: nat, i: Probe) {
    Insight(KeysOf(groups), i) && DecidedBy(groups, i, gi) && Answer(rows, i) == Some(ri)
  }

  /** The probe standing for a decided insight is decided, owed, answered and published as it is. */
  lemma StandStands(groups: seq<Group>, who: string, rows: seq<OfferRow>, scores: ScoresUpkeep, duties: seq<Duty>,
                    live: map<Probe, Live>, gi: nat, i: Probe) returns (d: Duty)
    requires Assessed(groups, who, rows, scores, duties, live) && forall r :: r in rows ==> Plain(r)
    requires Insight(KeysOf(groups), i) && DecidedBy(groups, i, gi)
    ensures d in duties && d.probe == Stand(KeysOf(groups), i) && d.winner == Some(gi) && d.duty == Owed(groups, who, gi, i)
    ensures Answer(rows, d.probe) == Answer(rows, i) && WhyDown(d.probe, scores) == WhyDown(i, scores)
    ensures Published(d.probe) == Published(i)
  {
    WinnerDecides(groups, i, gi);
    StandKeepsDuty(groups, who, i);
    StandAnswer(KeysOf(groups), rows, i);
    DutyMeans(groups, who, i);
    d :| d in duties && d.probe == Stand(KeysOf(groups), i);
  }

  lemma StandMatches(groups: seq<Group>, gi: nat, w: nat, i: Probe)
    requires ReaderMap(groups) && Insight(KeysOf(groups), i) && DecidedBy(groups, i, w) && gi < |groups|
    ensures Matches(groups[gi].key, i) <==> Matches(groups[gi].key, Stand(KeysOf(groups), i))
  {
    var keys := KeysOf(groups);
    assert keys[gi] in keys && keys[w] in keys;
    forall k | k in keys ensures Shaped(k) {
      var j :| 0 <= j < |keys| && keys[j] == k;
      assert Shaped(groups[j].key);
    }
    ProbesStandForInsights(keys, i);
  }

  /** A probe of the check is an insight, decided and owed as its duty says. */
  lemma ProbeMeans(groups: seq<Group>, who: string, rows: seq<OfferRow>, scores: ScoresUpkeep, duties: seq<Duty>,
                   live: map<Probe, Live>, d: Duty)
    requires Assessed(groups, who, rows, scores, duties, live) && d in duties
    ensures Insight(KeysOf(groups), d.probe)
    ensures forall w: nat :: d.winner == Some(w) <==> DecidedBy(groups, d.probe, w)
    ensures forall w: nat :: DecidedBy(groups, d.probe, w) ==> (d.duty <==> Owed(groups, who, w, d.probe))
  {
    assert IsProbe(KeysOf(groups), d.probe);
    DutyMeans(groups, who, d.probe);
  }

  // --- The lines ---

  /** The part holds an insight that is owed. */
  ghost predicate OwesPart(groups: seq<Group>, who: string, rows: seq<OfferRow>, gi: nat, ri: nat) {
    exists i :: InPart(groups, rows, gi, ri, i) && Owed(groups, who, gi, i)
  }

  /** What is owed in the part is live: published Scores, kept up to date. */
  ghost predicate LivePart(groups: seq<Group>, who: string, rows: seq<OfferRow>, scores: ScoresUpkeep, gi: nat, ri: nat) {
    && OwesPart(groups, who, rows, gi, ri)
    && forall i :: InPart(groups, rows, gi, ri, i) && Owed(groups, who, gi, i) ==> Published(i) && scores.status == "live"
  }

  /** A duty of the part is an owed insight of it, live as the check found. */
  lemma PartDuty(groups: seq<Group>, who: string, rows: seq<OfferRow>, scores: ScoresUpkeep, duties: seq<Duty>,
                 live: map<Probe, Live>, gi: nat, ri: nat, d: Duty)
    requires Assessed(groups, who, rows, scores, duties, live) && d in Part(duties, rows, gi, ri) && d.duty
    ensures InPart(groups, rows, gi, ri, d.probe) && Owed(groups, who, gi, d.probe)
    ensures d.probe in live && (live[d.probe].live <==> Published(d.probe) && scores.status == "live")
  {
    ProbeMeans(groups, who, rows, scores, duties, live, d);
    LiveIsPublished(d.probe, rows, scores);
  }

  /** And an owed insight of the part has a duty there, published if it is. */
  lemma OwedDuty(groups: seq<Group>, who: string, rows: seq<OfferRow>, scores: ScoresUpkeep, duties: seq<Duty>,
                 live: map<Probe, Live>, gi: nat, ri: nat, i: Probe) returns (d: Duty)
    requires Assessed(groups, who, rows, scores, duties, live) && forall r :: r in rows ==> Plain(r)
    requires InPart(groups, rows, gi, ri, i) && Owed(groups, who, gi, i)
    ensures d in Part(duties, rows, gi, ri) && d.duty && Published(d.probe) == Published(i)
  {
    d := StandStands(groups, who, rows, scores, duties, live, gi, i);
  }

  lemma OwesMeans(groups: seq<Group>, who: string, rows: seq<OfferRow>, scores: ScoresUpkeep, duties: seq<Duty>,
                  live: map<Probe, Live>, gi: nat, ri: nat)
    requires Assessed(groups, who, rows, scores, duties, live) && forall r :: r in rows ==> Plain(r)
    ensures (exists d :: d in Part(duties, rows, gi, ri) && d.duty) <==> OwesPart(groups, who, rows, gi, ri)
  {
    if d :| d in Part(duties, rows, gi, ri) && d.duty {
      PartDuty(groups, who, rows, scores, duties, live, gi, ri, d);
    }
    if i :| InPart(groups, rows, gi, ri, i) && Owed(groups, who, gi, i) {
      var d := OwedDuty(groups, who, rows, scores, duties, live, gi, ri, i);
    }
  }

  lemma PartLiveMeans(groups: seq<Group>, who: string, rows: seq<OfferRow>, scores: ScoresUpkeep, duties: seq<Duty>,
                      live: map<Probe, Live>, gi: nat, ri: nat)
    requires Assessed(groups, who, rows, scores, duties, live) && forall r :: r in rows ==> Plain(r)
    ensures PartLive(Part(duties, rows, gi, ri), live) <==> LivePart(groups, who, rows, scores, gi, ri)
  {
    OwesMeans(groups, who, rows, scores, duties, live, gi, ri);
    if PartLive(Part(duties, rows, gi, ri), live) {
      forall i | InPart(groups, rows, gi, ri, i) && Owed(groups, who, gi, i) ensures Published(i) && scores.status == "live" {
        var d := OwedDuty(groups, who, rows, scores, duties, live, gi, ri, i);
        PartDuty(groups, who, rows, scores, duties, live, gi, ri, d);
      }
    }
    if LivePart(groups, who, rows, scores, gi, ri) {
      forall d | d in Part(duties, rows, gi, ri) && d.duty ensures d.probe in live && live[d.probe].live {
        PartDuty(groups, who, rows, scores, duties, live, gi, ri, d);
      }
    }
  }

  /** Why the part is not live: an insight of it that is not, an owed one where there is one. */
  ghost predicate Excused(groups: seq<Group>, who: string, rows: seq<OfferRow>, scores: ScoresUpkeep, gi: nat, ri: nat,
                          l: DutyLine, i: Probe)
  {
    && InPart(groups, rows, gi, ri, i) && !(Published(i) && scores.status == "live")
    && (OwesPart(groups, who, rows, gi, ri) ==> Owed(groups, who, gi, i))
    && l.reason == Some(WhyDown(i, scores))
    && l.lastLandedAt == if Published(i) then scores.lastLandedAt else None
  }

  /** The line of that part: under its own key, at the row's relay, live or why not. */
  ghost predicate PartSays(groups: seq<Group>, who: string, rows: seq<OfferRow>, scores: ScoresUpkeep, gi: nat, ri: nat, l: DutyLine) {
    && gi < |groups| && who in groups[gi].providers && ri < |rows|
    && (exists i :: InPart(groups, rows, gi, ri, i))
    && l.key == LineKey(groups[gi].key, rows[ri].key) && l.relay == Some(rows[ri].relay)
    && if LivePart(groups, who, rows, scores, gi, ri)
       then l.status == "live" && l.reason.None? && l.lastLandedAt.None? && l.entries == [(rows[ri].key.norm, rows[ri].relay)]
       else l.status == "offered" && l.entries == [] && exists i :: Excused(groups, who, rows, scores, gi, ri, l, i)
  }

  /** In a group naming the Assistant, a published Score is always owed. */
  lemma PublishedIsOwed(groups: seq<Group>, who: string, gi: nat, i: Probe)
    requires DecidedBy(groups, i, gi) && who in groups[gi].providers && Published(i)
    ensures Owed(groups, who, gi, i)
  {
  }

  lemma ExcusedBy(groups: seq<Group>, who: string, rows: seq<OfferRow>, scores: ScoresUpkeep, duties: seq<Duty>,
                  live: map<Probe, Live>, gi: nat, ri: nat, l: DutyLine, d: Duty)
    requires Assessed(groups, who, rows, scores, duties, live) && forall r :: r in rows ==> Plain(r)
    requires d in Part(duties, rows, gi, ri) && !live[d.probe].live
    requires OwesPart(groups, who, rows, gi, ri) ==> d.duty
    requires l.reason == live[d.probe].reason && l.lastLandedAt == live[d.probe].lastLandedAt
    ensures Excused(groups, who, rows, scores, gi, ri, l, d.probe)
  {
    ProbeMeans(groups, who, rows, scores, duties, live, d);
    LiveIsPublished(d.probe, rows, scores);
  }

  /** And every part with an insight has duties in the check. */
  lemma PartHasDuty(groups: seq<Group>, who: string, rows: seq<OfferRow>, scores: ScoresUpkeep, duties: seq<Duty>,
                    live: map<Probe, Live>, gi: nat, ri: nat, i: Probe)
    requires Assessed(groups, who, rows, scores, duties, live) && forall r :: r in rows ==> Plain(r)
    requires InPart(groups, rows, gi, ri, i)
    ensures Part(duties, rows, gi, ri) != []
  {
    var d := StandStands(groups, who, rows, scores, duties, live, gi, i);
    assert d in Part(duties, rows, gi, ri);
  }

  /** Something is owed under group `gi` that the settings do not offer. */
  ghost predicate OwesUnoffered(groups: seq<Group>, who: string, cfg: OfferSettings, gi: nat) {
    exists i :: Insight(KeysOf(groups), i) && Owed(groups, who, gi, i) && !Offered(cfg, i)
  }

  lemma UnansweredMeans(groups: seq<Group>, who: string, cfg: OfferSettings, rows: seq<OfferRow>, scores: ScoresUpkeep,
                        duties: seq<Duty>, live: map<Probe, Live>, gi: nat)
    requires Assessed(groups, who, rows, scores, duties, live) && ParseRows(OfferRows(cfg)) == Some(rows)
    ensures Unanswered(duties, rows, gi) <==> OwesUnoffered(groups, who, cfg, gi)
  {
    if Unanswered(duties, rows, gi) {
      var j :| 0 <= j < |duties| && duties[j].winner == Some(gi) && duties[j].duty && Answer(rows, duties[j].probe).None?;
      assert duties[j] in duties;
      ProbeMeans(groups, who, rows, scores, duties, live, duties[j]);
      AnsweredIsOffered(cfg, rows, duties[j].probe);
    }
    if i :| Insight(KeysOf(groups), i) && Owed(groups, who, gi, i) && !Offered(cfg, i) {
      AnsweredIsOffered(cfg, rows, i);
      RowsPlain(cfg, rows);
      var d := StandStands(groups, who, rows, scores, duties, live, gi, i);
      var j :| 0 <= j < |duties| && duties[j] == d;
    }
  }

  /** Some of what group `gi` matches is decided by group `w`, which names only others. */
  ghost predicate GoesTo(groups: seq<Group>, who: string, gi: nat, w: nat) {
    && gi < |groups| && w < |groups| && who !in groups[w].providers
    && exists i :: Insight(KeysOf(groups), i) && DecidedBy(groups, i, w) && Matches(groups[gi].key, i)
  }

  /** Whoever decides an insight another group matches is more specific than that group. */
  lemma DeciderIsAhead(groups: seq<Group>, gi: nat, w: nat, i: Probe)
    requires ReaderMap(groups) && gi < |groups| && gi != w && DecidedBy(groups, i, w) && Matches(groups[gi].key, i)
    ensures CompareKeys(groups[w].key, groups[gi].key) < 0
  {
    CompareKeysTotalOrder(groups[w].key, groups[gi].key);
    CompareKeysTotalOrder(groups[gi].key, groups[w].key);
  }

  lemma TakenMeans(groups: seq<Group>, who: string, rows: seq<OfferRow>, scores: ScoresUpkeep, duties: seq<Duty>,
                   live: map<Probe, Live>, gi: nat, w: nat, i: Probe) returns (d: Duty)
    requires Assessed(groups, who, rows, scores, duties, live) && forall r :: r in rows ==> Plain(r)
    requires gi < |groups| && w < |groups| && who in groups[gi].providers && who !in groups[w].providers
    requires Insight(KeysOf(groups), i) && DecidedBy(groups, i, w) && Matches(groups[gi].key, i)
    ensures d in duties && Taken(groups, who, gi, d) && d.winner == Some(w)
  {
    d := StandStands(groups, who, rows, scores, duties, live, w, i);
    StandMatches(groups, gi, w, i);
    DeciderIsAhead(groups, gi, w, i);
  }

  lemma ElsewhereMeans(groups: seq<Group>, who: string, rows: seq<OfferRow>, scores: ScoresUpkeep, duties: seq<Duty>,
                       live: map<Probe, Live>, gi: nat, w: nat)
    requires Assessed(groups, who, rows, scores, duties, live) && forall r :: r in rows ==> Plain(r)
    requires gi < |groups| && who in groups[gi].providers
    ensures Elsewhere(groups, who, duties, gi, w) <==> GoesTo(groups, who, gi, w)
  {
    if Elsewhere(groups, who, duties, gi, w) {
      var d :| d in duties && Taken(groups, who, gi, d) && d.winner == Some(w);
      ProbeMeans(groups, who, rows, scores, duties, live, d);
    }
    if GoesTo(groups, who, gi, w) {
      var i :| Insight(KeysOf(groups), i) && DecidedBy(groups, i, w) && Matches(groups[gi].key, i);
      var d := TakenMeans(groups, who, rows, scores, duties, live, gi, w, i);
    }
  }

  // --- All the lines ---

  /** A live part lists one entry, its row's own key and relay. */
  lemma LiveLists(groups: seq<Group>, who: string, rows: seq<OfferRow>, scores: ScoresUpkeep, duties: seq<Duty>,
                  live: map<Probe, Live>, should: seq<Entry>, relay: string, gi: nat, ri: nat, x: (string, string))
    requires Assessed(groups, who, rows, scores, duties, live) && Standard(rows, relay) && ri < |rows|
    requires ShouldSay(groups, duties, live, rows, should) && PartLive(Part(duties, rows, gi, ri), live)
    ensures PartShows(Part(duties, rows, gi, ri), live, should, x) <==> x == (rows[ri].key.norm, rows[ri].relay)
  {
    var part := Part(duties, rows, gi, ri);
    forall d | d in part && d.duty
      ensures Spoken(should, live, d.probe) && PairFor(should, d.probe) == (rows[ri].key.norm, rows[ri].relay)
    {
      LiveSpoken(groups, who, rows, scores, duties, live, should, relay, gi, ri, d);
    }
    var d :| d in part && d.duty;
    assert Speaks(should, live, d.probe, (rows[ri].key.norm, rows[ri].relay));
  }

  lemma LiveSpoken(groups: seq<Group>, who: string, rows: seq<OfferRow>, scores: ScoresUpkeep, duties: seq<Duty>,
                   live: map<Probe, Live>, should: seq<Entry>, relay: string, gi: nat, ri: nat, d: Duty)
    requires Assessed(groups, who, rows, scores, duties, live) && Standard(rows, relay) && ri < |rows|
    requires ShouldSay(groups, duties, live, rows, should)
    requires d in Part(duties, rows, gi, ri) && d.duty && live[d.probe].live
    ensures Spoken(should, live, d.probe) && PairFor(should, d.probe) == (rows[ri].key.norm, rows[ri].relay)
  {
    LiveIsPublished(d.probe, rows, scores);
    var j :| 0 <= j < |PUBLISHED_METRICS| && PUBLISHED_METRICS[j] == d.probe.scope.value;
    assert d.probe == ScoreProbe(PUBLISHED_METRICS[j]);
    ScoreAnswer(rows, relay, j);
    assert rows[ri] == OfferRow(MetricKey(PUBLISHED_METRICS[ri]), relay);
    assert LiveDuty(groups, duties, live, PUBLISHED_METRICS[j], groups[gi].key);
    ClaimedSpoken(groups, who, rows, scores, duties, live, should, relay, j);
  }

  lemma ClaimedSpoken(groups: seq<Group>, who: string, rows: seq<OfferRow>, scores: ScoresUpkeep, duties: seq<Duty>,
                      live: map<Probe, Live>, should: seq<Entry>, relay: string, j: nat)
    requires Assessed(groups, who, rows, scores, duties, live) && Standard(rows, relay)
    requires Kept(should, duties, live, rows) && j < |PUBLISHED_METRICS| && Claimed(should, ScoreProbe(PUBLISHED_METRICS[j]))
    ensures var w := Winner(EntryKeys(should), ScoreProbe(PUBLISHED_METRICS[j]));
            w.Some? && should[w.value] == Entry(MetricKey(PUBLISHED_METRICS[j]), relay)
  {
    var p := ScoreProbe(PUBLISHED_METRICS[j]);
    var i :| 0 <= i < |should| && Matches(should[i].key, p);
    BestByIsMostSpecific(EntryKeys(should), k => Matches(k, p));
    assert Matches(EntryKeys(should)[i], p);
    var w := Winner(EntryKeys(should), p).value;
    assert Founded(should[w], duties, live, rows);
    EntryForScore(groups, who, rows, scores, duties, live, relay, should[w], j);
  }

  /** A line of the check for a part says what the insights of the part call for. */
  lemma LineMeans(groups: seq<Group>, who: string, rows: seq<OfferRow>, scores: ScoresUpkeep, duties: seq<Duty>,
                  live: map<Probe, Live>, should: seq<Entry>, relay: string, gi: nat, ri: nat, l: DutyLine)
    requires Assessed(groups, who, rows, scores, duties, live) && forall r :: r in rows ==> Plain(r)
    requires Standard(rows, relay) && ShouldSay(groups, duties, live, rows, should)
    requires gi < |groups| && who in groups[gi].providers && LineFor(LineKey, groups, duties, live, rows, should, gi, ri, l)
    ensures PartSays(groups, who, rows, scores, gi, ri, l)
  {
    var part := Part(duties, rows, gi, ri);
    var first := part[0];
    assert first in part;
    ProbeMeans(groups, who, rows, scores, duties, live, first);
    assert InPart(groups, rows, gi, ri, first.probe);
    PartLiveMeans(groups, who, rows, scores, duties, live, gi, ri);
    if PartLive(part, live) {
      forall x ensures x in l.entries <==> x == (rows[ri].key.norm, rows[ri].relay) {
        LiveLists(groups, who, rows, scores, duties, live, should, relay, gi, ri, x);
      }
      OneEntry(l.entries, (rows[ri].key.norm, rows[ri].relay));
    } else {
      DownMeans(groups, who, rows, scores, duties, live, should, gi, ri, l);
    }
  }

  lemma OneEntry(entries: seq<(string, string)>, x: (string, string))
    requires Distinct(entries) && forall y :: y in entries <==> y == x
    ensures entries == [x]
  {
    assert x in entries;
    assert entries[0] in entries && entries[|entries| - 1] in entries;
  }

  lemma DownMeans(groups: seq<Group>, who: string, rows: seq<OfferRow>, scores: ScoresUpkeep, duties: seq<Duty>,
                  live: map<Probe, Live>, should: seq<Entry>, gi: nat, ri: nat, l: DutyLine)
    requires Assessed(groups, who, rows, scores, duties, live) && forall r :: r in rows ==> Plain(r)
    requires gi < |groups| && who in groups[gi].providers && LineFor(LineKey, groups, duties, live, rows, should, gi, ri, l)
    requires !PartLive(Part(duties, rows, gi, ri), live)
    ensures exists i :: Excused(groups, who, rows, scores, gi, ri, l, i)
  {
    var part := Part(duties, rows, gi, ri);
    OwesMeans(groups, who, rows, scores, duties, live, gi, ri);
    if OwesPart(groups, who, rows, gi, ri) {
      var d :| d in part && d.duty && !live[d.probe].live
               && l.reason == live[d.probe].reason && l.lastLandedAt == live[d.probe].lastLandedAt;
      ExcusedBy(groups, who, rows, scores, duties, live, gi, ri, l, d);
    } else {
      var first := part[0];
      assert first in part;
      ProbeMeans(groups, who, rows, scores, duties, live, first);
      LiveIsPublished(first.probe, rows, scores);
      assert InPart(groups, rows, gi, ri, first.probe);
      if Published(first.probe) {
        PublishedIsOwed(groups, who, gi, first.probe);
      }
      ExcusedBy(groups, who, rows, scores, duties, live, gi, ri, l, first);
    }
  }

  /** The line in its place: the one for a part, for what is owed but not offered, or for what goes elsewhere. */
  ghost predicate SaidAt(groups: seq<Group>, who: string, cfg: OfferSettings, rows: seq<OfferRow>, scores: ScoresUpkeep,
                         at: Place, l: DutyLine)
  {
    && at.group < |groups| && who in groups[at.group].providers
    && if at.slot < |rows| then PartSays(groups, who, rows, scores, at.group, at.slot, l)
       else if at.slot == |rows| then l == NotOffered(groups[at.group].key) && OwesUnoffered(groups, who, cfg, at.group)
       else at.slot == |rows| + 1
            && exists w: nat :: GoesTo(groups, who, at.group, w) && l == ElsewhereLine(groups[w].key)
  }

  /** All that group `gi` calls for is said: a line for every row answering an insight it decides, one where
      something owed is not offered, and one for every group that something of it goes to. */
  ghost predicate SaysAll(groups: seq<Group>, who: string, cfg: OfferSettings, rows: seq<OfferRow>, scores: ScoresUpkeep,
                          gi: nat, lines: seq<DutyLine>)
    requires gi < |groups|
  {
    && (forall ri: nat, i :: InPart(groups, rows, gi, ri, i) ==> exists l :: l in lines && PartSays(groups, who, rows, scores, gi, ri, l))
    && (OwesUnoffered(groups, who, cfg, gi) ==> NotOffered(groups[gi].key) in lines)
    && (forall w: nat :: GoesTo(groups, who, gi, w) ==> ElsewhereLine(groups[w].key) in lines)
  }

  lemma PlaceMeans(groups: seq<Group>, who: string, cfg: OfferSettings, rows: seq<OfferRow>, scores: ScoresUpkeep,
                   duties: seq<Duty>, live: map<Probe, Live>, should: seq<Entry>, at: Place, l: DutyLine)
    requires Assessed(groups, who, rows, scores, duties, live) && ParseRows(OfferRows(cfg)) == Some(rows)
    requires Standard(rows, cfg.relay) && ShouldSay(groups, duties, live, rows, should)
    requires LineAt(LineKey, groups, who, duties, live, rows, should, at, l)
    ensures SaidAt(groups, who, cfg, rows, scores, at, l)
  {
    RowsPlain(cfg, rows);
    if at.slot < |rows| {
      LineMeans(groups, who, rows, scores, duties, live, should, cfg.relay, at.group, at.slot, l);
    } else if at.slot == |rows| {
      UnansweredMeans(groups, who, cfg, rows, scores, duties, live, at.group);
    } else {
      var w: nat :| w < |groups| && Elsewhere(groups, who, duties, at.group, w) && l == ElsewhereLine(groups[w].key);
      ElsewhereMeans(groups, who, rows, scores, duties, live, at.group, w);
    }
  }

  lemma ListedMeans(groups: seq<Group>, who: string, cfg: OfferSettings, rows: seq<OfferRow>, scores: ScoresUpkeep,
                    duties: seq<Duty>, live: map<Probe, Live>, should: seq<Entry>, gi: nat, lines: seq<DutyLine>)
    requires Assessed(groups, who, rows, scores, duties, live) && ParseRows(OfferRows(cfg)) == Some(rows)
    requires Standard(rows, cfg.relay) && ShouldSay(groups, duties, live, rows, should)
    requires gi < |groups| && who in groups[gi].providers
    requires GroupListed(LineKey, groups, who, duties, live, rows, should, gi, lines)
    ensures SaysAll(groups, who, cfg, rows, scores, gi, lines)
  {
    RowsPlain(cfg, rows);
    forall ri: nat, i | InPart(groups, rows, gi, ri, i)
      ensures exists l :: l in lines && PartSays(groups, who, rows, scores, gi, ri, l)
    {
      PartHasDuty(groups, who, rows, scores, duties, live, gi, ri, i);
      var l :| l in lines && LineFor(LineKey, groups, duties, live, rows, should, gi, ri, l);
      LineMeans(groups, who, rows, scores, duties, live, should, cfg.relay, gi, ri, l);
    }
    UnansweredMeans(groups, who, cfg, rows, scores, duties, live, gi);
    assert Unanswered(duties, rows, gi) ==> OtherLine(groups, who, duties, rows, gi, NotOffered(groups[gi].key));
    forall w: nat | GoesTo(groups, who, gi, w) ensures ElsewhereLine(groups[w].key) in lines {
      ElsewhereMeans(groups, who, rows, scores, duties, live, gi, w);
      assert ElsewhereOf(groups, who, duties, gi, ElsewhereLine(groups[w].key));
    }
  }
}
