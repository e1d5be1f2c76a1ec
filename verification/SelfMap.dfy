/** What the Assistant's own Treasure Map should list, over any offer: narrowed keys and the greedy choice.
    Models `_meet_of` and `build_should_say` of app/services/self_map_build.py. */
module SelfMap {
  import opened Text
  import opened TreasureKeys
  import opened TreasureMap
  import Sorting

  // --- Narrowed keys ---

  function StrOf(n: int): string {
    if n < 0 then "-" + Decimal(-n) else Decimal(n)
  }

  /** A key narrowed to one kind: the kind in its slot, its later segments kept. */
  function MeetOf(key: Key, kind: int): Option<Key> {
    ParseKey(Join([StrOf(kind)] + key.segs, ':'))
  }

  function ScoreProbe(metric: string): Probe {
    Probe(SCORE_KIND, Metric(metric))
  }

  function MetricSpelling(metric: string): string {
    "30382:" + metric
  }

  /** The key of one published Score, as parsed. */
  function MetricKey(metric: string): Key {
    Key(MetricSpelling(metric), "30382", [SCORE_KIND], [metric], 3, Metric(metric))
  }

  const BARE_SCORE: Key := Key("30382", "30382", [SCORE_KIND], [], 3, All)

  lemma ScoreKindSpelling()
    ensures StrOf(SCORE_KIND) == "30382" && KindSlot("30382") && FiveDigitValue("30382") == SCORE_KIND
  {
    assert Decimal(30) == Decimal(3) + ['0'] == "30";
    assert Decimal(303) == "303";
    assert Decimal(3038) == "3038";
    assert Decimal(30382) == "30382";
  }

  lemma ShapedScoreKey(k: Key)
    requires Shaped(k) && k.slot == "30382"
    ensures k.segs == [] ==> k == BARE_SCORE
    ensures k.scope.Metric? ==> k == MetricKey(k.scope.value)
  {
    ScoreKindSpelling();
    if k.scope.Metric? {
      var m := k.scope.value;
      assert k.segs == [m];
      assert Join(["30382", m], ':') == "30382" + ":" + m;
      assert "30382" + ":" == "30382:";
    }
  }

  lemma PublishedWord(m: string)
    requires m in PUBLISHED_METRICS
    ensures m != "" && ':' !in m && m !in SYSTEM_WORDS
  {
  }

  /** `30382:<metric>` of a published metric parses to that metric's key. */
  lemma MetricKeyParses(m: string)
    requires m in PUBLISHED_METRICS
    ensures ParseKey(MetricSpelling(m)) == Some(MetricKey(m)) && Shaped(MetricKey(m))
  {
    PublishedWord(m);
    ScoreKindSpelling();
    MetricSpellingJoins(m);
    PlainSpelled("30382", [m]);
    ShapedScoreKey(ParseKey(MetricSpelling(m)).value);
  }

  lemma MetricSpellingJoins(m: string)
    ensures Join(["30382"] + [m], ':') == MetricSpelling(m)
  {
    assert ["30382"] + [m] == ["30382", m];
    assert Join(["30382", m], ':') == "30382" + ":" + m;
    assert "30382" + ":" == "30382:";
  }

  lemma {:induction false} DecimalDigits(n: nat)
    ensures Decimal(n) != "" && forall c :: c in Decimal(n) ==> Digit(c)
  {
    if 10 <= n {
      DecimalDigits(n / 10);
    }
  }

  /** A slot of digits, a sign aside, is none of the wildcards. */
  lemma DigitsAreNoWildcard(slot: string)
    requires forall c :: c in slot ==> c == '-' || Digit(c)
    ensures ':' !in slot && slot != "3038x" && slot != "3039x" && slot != "*"
  {
    assert 'x' !in slot && '*' !in slot;
    assert "3038x"[4] == 'x' && "3039x"[4] == 'x' && "*"[0] == '*';
  }

  lemma OneKind(k: Key)
    requires Shaped(k) && k.slot != "3038x" && k.slot != "3039x" && k.slot != "*"
    ensures k.scope.All? || |k.kinds| == 1
  {
  }

  ghost predicate Narrowed(m: Key) {
    Shaped(m) && (m.scope.All? || |m.kinds| == 1)
  }

  lemma SignedDigits(n: int)
    ensures forall c :: c in StrOf(n) ==> c == '-' || Digit(c)
  {
    DecimalDigits(if n < 0 then -n else n);
  }

  lemma ParsedSlot(key: string)
    requires ParseKey(key).Some?
    ensures ParseKey(key).value.slot == SlotOf(key)
  {
  }

  /** A key with a slot of digits covers one kind, or all of its kinds. */
  lemma DigitKeyNarrowed(slot: string, segs: seq<string>)
    requires forall c :: c in slot ==> c == '-' || Digit(c)
    requires ParseKey(Join([slot] + segs, ':')).Some?
    ensures Narrowed(ParseKey(Join([slot] + segs, ':')).value)
  {
    var key := Join([slot] + segs, ':');
    DigitsAreNoWildcard(slot);
    SlotOfJoin(slot, segs);
    ParsedSlot(key);
    ParseShaped(key);
    OneKind(ParseKey(key).value);
  }

  /** A narrowed key covers one kind, or (a bare `39998`) all of its kinds. */
  lemma MeetShaped(k: Key, kind: int)
    ensures MeetOf(k, kind).Some? ==> Narrowed(MeetOf(k, kind).value)
  {
    if MeetOf(k, kind).Some? {
      SignedDigits(kind);
      DigitKeyNarrowed(StrOf(kind), k.segs);
    }
  }

  /** The key narrowed to Scores: the bare kind, or the one metric. */
  lemma ScoreMeet(k: Key, m: string)
    requires Shaped(k) && Matches(k, ScoreProbe(m))
    ensures k.scope.All? ==> MeetOf(k, SCORE_KIND) == Some(BARE_SCORE)
    ensures k.scope == Metric(m) ==> MeetOf(k, SCORE_KIND) == Some(MetricKey(m))
    ensures k.scope.All? || k.scope == Metric(m)
  {
    ScoreKindSpelling();
    if k.scope.Metric? {
      assert k.segs == [m];
    }
    PlainSpelled("30382", k.segs);
    ShapedScoreKey(MeetOf(k, SCORE_KIND).value);
  }

  // --- The greedy choice ---

  /** The inputs of `build_should_say`, as `evaluate_self_map` computes them. */
  ghost predicate Assessed(groups: seq<Group>, who: string, rows: seq<OfferRow>, scores: ScoresUpkeep,
                           duties: seq<Duty>, live: map<Probe, Live>)
  {
    && ReaderMap(groups)
    && (forall d :: d in duties ==> d == DutyOf(groups, who, d.probe))
    && (forall d :: d in duties ==> d.probe in live && live[d.probe] == EvaluateLive(d.probe, rows, scores))
    && (forall q :: IsProbe(KeysOf(groups), q) <==> exists d :: d in duties && d.probe == q)
  }

  /** A published metric that is the Assistant's duty, won by the Map key `k`, and live. */
  ghost predicate LiveDuty(groups: seq<Group>, duties: seq<Duty>, live: map<Probe, Live>, m: string, k: Key) {
    && m in PUBLISHED_METRICS
    && exists d :: d in duties && d.probe == ScoreProbe(m) && d.duty
                   && d.probe in live && live[d.probe].live
                   && d.winner.Some? && d.winner.value < |groups| && groups[d.winner.value].key == k
  }

  ghost predicate ClaimsAll(groups: seq<Group>, duties: seq<Duty>, live: map<Probe, Live>, k: Key, chosen: seq<Entry>) {
    forall m :: LiveDuty(groups, duties, live, m, k) ==> Claimed(chosen, ScoreProbe(m))
  }

  lemma ClaimedGrows(before: seq<Entry>, after: seq<Entry>, p: Probe)
    requires before <= after && Claimed(before, p)
    ensures Claimed(after, p)
  {
    var e :| e in before && Matches(e.key, p);
    assert e in after;
  }

  ghost predicate Offer(rows: seq<OfferRow>) {
    forall i :: 0 <= i < |rows| ==> Shaped(rows[i].key)
  }

  /** A key spelt like a metric's is that metric's, so has its scope. */
  lemma UncheckedIsNotMetric(r: Key, m: string)
    requires Shaped(r) && m in PUBLISHED_METRICS && r.scope.Unchecked?
    ensures r.norm != MetricKey(m).norm
  {
    MetricKeyParses(m);
    NormDeterminesKey(r, MetricKey(m));
  }

  lemma CoversOwnKey(r: Key, m: string)
    requires Shaped(r) && m in PUBLISHED_METRICS
    ensures Covers(r, MetricKey(m)) == Matches(r, ScoreProbe(m))
  {
    assert forall kind :: kind in [SCORE_KIND] <==> kind == SCORE_KIND;
    assert r.scope != Other;
    if r.scope.Unchecked? {
      UncheckedIsNotMetric(r, m);
    }
  }

  /** For a Score's own key, the row covering the key is the row answering the Score. */
  lemma CoveringAnswers(rows: seq<OfferRow>, m: string)
    requires Offer(rows) && m in PUBLISHED_METRICS
    ensures Covering(rows, MetricKey(m)) == Answer(rows, ScoreProbe(m))
  {
    var keys := RowKeys(rows);
    forall r | r in keys ensures Covers(r, MetricKey(m)) == Matches(r, ScoreProbe(m)) {
      var i :| 0 <= i < |keys| && keys[i] == r;
      assert Shaped(rows[i].key);
      CoversOwnKey(r, m);
    }
    BestByExtensional(keys, r => Covers(r, MetricKey(m)), r => Matches(r, ScoreProbe(m)));
  }

  /** A live duty's own key is always a valid entry, unless some chosen entry already speaks of it. */
  lemma OwnKeyIsValid(groups: seq<Group>, who: string, rows: seq<OfferRow>, scores: ScoresUpkeep, duties: seq<Duty>,
                      live: map<Probe, Live>, chosen: seq<Entry>, m: string, k: Key)
    requires Assessed(groups, who, rows, scores, duties, live) && Offer(rows)
    requires LiveDuty(groups, duties, live, m, k) && !Claimed(chosen, ScoreProbe(m))
    ensures !Has(chosen, MetricKey(m).norm) || exists e :: e in chosen && e.key.norm == MetricKey(m).norm
    ensures Covering(rows, MetricKey(m)).Some?
    ensures ValidEntry(chosen, MetricKey(m), rows[Covering(rows, MetricKey(m)).value].relay, duties, live)
  {
    var p, key := ScoreProbe(m), MetricKey(m);
    CoveringAnswers(rows, m);
    LiveIsPublished(p, rows, scores);
    var relay := rows[Covering(rows, key).value].relay;
    forall d | d in duties && d.duty && WouldWin(chosen, key, d.probe) ensures LiveAt(live, d.probe, relay) {
      WouldWinIs(chosen, key, d.probe);
      assert d.probe == p;
    }
    var d :| d in duties && d.probe == p && d.duty;
    WouldWinIs(chosen, key, p);
  }

  /** Trying a live duty's own key leaves the duty claimed, whether or not the key is taken. */
  method TryMetric(groups: seq<Group>, who: string, rows: seq<OfferRow>, scores: ScoresUpkeep, duties: seq<Duty>,
                   live: map<Probe, Live>, before: seq<Entry>, key: Option<Key>, k: Key)
      returns (chosen: seq<Entry>, ok: bool)
    requires Assessed(groups, who, rows, scores, duties, live) && Offer(rows)
    requires Kept(before, duties, live, rows)
    requires key.Some? ==> Shaped(key.value) && Rooted(key.value, duties)
    ensures Kept(chosen, duties, live, rows) && before <= chosen
    ensures ok ==> key.Some? && exists e :: e in chosen && e.key == key.value
    ensures forall m :: LiveDuty(groups, duties, live, m, k) && key == Some(MetricKey(m)) ==>
                          Claimed(chosen, ScoreProbe(m))
  {
    chosen, ok := TryKey(before, key, duties, live, rows);
    forall m | LiveDuty(groups, duties, live, m, k) && key == Some(MetricKey(m))
      ensures Claimed(chosen, ScoreProbe(m))
    {
      if !ok && !Claimed(before, ScoreProbe(m)) {
        OwnKeyIsValid(groups, who, rows, scores, duties, live, before, m, k);
        var e :| e in before && e.key.norm == key.value.norm;
        assert Founded(e, duties, live, rows);
        NormDeterminesKey(e.key, key.value);
      } else if ok {
        var e :| e in chosen && e.key == key.value;
        assert Matches(e.key, ScoreProbe(m));
      }
    }
  }

  function FindDuty(duties: seq<Duty>, p: Probe): (d: Option<Duty>)
    ensures d.Some? ==> d.value in duties && d.value.probe == p
    ensures d.None? ==> forall e :: e in duties ==> e.probe != p
  {
    if duties == [] then None
    else if duties[0].probe == p then Some(duties[0])
    else FindDuty(duties[1..], p)
  }

  /** One published metric, where it is a duty won by `k`. */
  method TryOneMetric(groups: seq<Group>, who: string, rows: seq<OfferRow>, scores: ScoresUpkeep, duties: seq<Duty>,
                      live: map<Probe, Live>, before: seq<Entry>, k: Key, metric: string) returns (chosen: seq<Entry>)
    requires Assessed(groups, who, rows, scores, duties, live) && Offer(rows) && Shaped(k)
    requires Kept(before, duties, live, rows) && metric in PUBLISHED_METRICS
    ensures Kept(chosen, duties, live, rows) && before <= chosen
    ensures LiveDuty(groups, duties, live, metric, k) ==> Claimed(chosen, ScoreProbe(metric))
  {
    chosen := before;
    var d := FindDuty(duties, ScoreProbe(metric));
    if d.Some? && d.value.duty && d.value.winner.Some? && groups[d.value.winner.value].key.norm == k.norm {
      MetricKeyParses(metric);
      var taken;
      chosen, taken := TryMetric(groups, who, rows, scores, duties, live, chosen, ParseKey(MetricSpelling(metric)), k);
    }
  }

  /** One `30382:<metric>` per published metric that is a duty under `k`. */
  method TryMetrics(groups: seq<Group>, who: string, rows: seq<OfferRow>, scores: ScoresUpkeep, duties: seq<Duty>,
                    live: map<Probe, Live>, before: seq<Entry>, k: Key) returns (chosen: seq<Entry>)
    requires Assessed(groups, who, rows, scores, duties, live) && Offer(rows) && Shaped(k)
    requires Kept(before, duties, live, rows)
    ensures Kept(chosen, duties, live, rows) && before <= chosen
    ensures ClaimsAll(groups, duties, live, k, chosen)
  {
    chosen := before;
    for i := 0 to |PUBLISHED_METRICS|
      invariant Kept(chosen, duties, live, rows) && before <= chosen
      invariant forall m :: LiveDuty(groups, duties, live, m, k) && m in PUBLISHED_METRICS[..i] ==>
                              Claimed(chosen, ScoreProbe(m))
    {
      var metric := PUBLISHED_METRICS[i];
      assert PUBLISHED_METRICS[..i + 1] == PUBLISHED_METRICS[..i] + [metric];
      ghost var earlier := chosen;
      chosen := TryOneMetric(groups, who, rows, scores, duties, live, chosen, k, metric);
      forall m | LiveDuty(groups, duties, live, m, k) && m in PUBLISHED_METRICS[..i + 1]
        ensures Claimed(chosen, ScoreProbe(m))
      {
        if m in PUBLISHED_METRICS[..i] {
          ClaimedGrows(earlier, chosen, ScoreProbe(m));
        }
      }
    }
  }

  /** The key's narrowed forms over the kinds the offer has, each spelling once. */
  method Meets(k: Key, rows: seq<OfferRow>) returns (meets: seq<Key>)
    ensures AllNarrowed(meets)
    ensures forall kind :: kind in k.kinds && OffersKind(rows, kind) && MeetOf(k, kind).Some? ==>
                             MeetOf(k, kind).value in meets
  {
    var options := seq(|k.kinds|, i requires 0 <= i < |k.kinds| => if OffersKind(rows, k.kinds[i]) then MeetOf(k, k.kinds[i]) else None);
    forall i | 0 <= i < |options| && options[i].Some? ensures Narrowed(options[i].value) {
      MeetShaped(k, k.kinds[i]);
    }
    meets := NarrowedOnce(options);
    forall kind | kind in k.kinds && OffersKind(rows, kind) && MeetOf(k, kind).Some? ensures MeetOf(k, kind).value in meets {
      var i :| 0 <= i < |k.kinds| && k.kinds[i] == kind;
      assert options[i] == MeetOf(k, kind);
    }
  }

  ghost predicate AllNarrowed(meets: seq<Key>) {
    forall m :: m in meets ==> Narrowed(m)
  }

  method NarrowedOnce(options: seq<Option<Key>>) returns (meets: seq<Key>)
    requires forall i :: 0 <= i < |options| && options[i].Some? ==> Narrowed(options[i].value)
    ensures AllNarrowed(meets)
    ensures forall i :: 0 <= i < |options| && options[i].Some? ==> options[i].value in meets
  {
    meets := [];
    for i := 0 to |options|
      invariant AllNarrowed(meets)
      invariant forall j :: 0 <= j < i && options[j].Some? ==> options[j].value in meets
    {
      if options[i].Some? {
        meets := AddMeet(meets, options[i].value);
      }
    }
  }

  /** A narrowed key is added unless one spelt like it is there, which is then that key. */
  method AddMeet(before: seq<Key>, meet: Key) returns (meets: seq<Key>)
    requires Narrowed(meet) && AllNarrowed(before)
    ensures AllNarrowed(meets) && before <= meets
    ensures forall m :: m in meets <==> m in before || m == meet
  {
    if forall j :: 0 <= j < |before| ==> before[j].norm != meet.norm {
      meets := before + [meet];
    } else {
      var j :| 0 <= j < |before| && before[j].norm == meet.norm;
      assert before[j] in before;
      NormDeterminesKey(before[j], meet);
      meets := before;
    }
  }

  lemma ClaimsAllGrows(groups: seq<Group>, duties: seq<Duty>, live: map<Probe, Live>, k: Key, before: seq<Entry>,
                       after: seq<Entry>)
    requires ClaimsAll(groups, duties, live, k, before) && before <= after
    ensures ClaimsAll(groups, duties, live, k, after)
  {
    forall m | LiveDuty(groups, duties, live, m, k) ensures Claimed(after, ScoreProbe(m)) {
      ClaimedGrows(before, after, ScoreProbe(m));
    }
  }

  /** An entry for a key speaks of everything that key wins. */
  lemma OwnEntryClaims(groups: seq<Group>, who: string, rows: seq<OfferRow>, scores: ScoresUpkeep, duties: seq<Duty>,
                       live: map<Probe, Live>, chosen: seq<Entry>, k: Key, e: Entry)
    requires Assessed(groups, who, rows, scores, duties, live)
    requires e in chosen && (e.key == k || (e.key == BARE_SCORE))
    ensures ClaimsAll(groups, duties, live, k, chosen)
  {
    forall m | LiveDuty(groups, duties, live, m, k) ensures Claimed(chosen, ScoreProbe(m)) {
      WonKey(groups, who, rows, scores, duties, live, m, k);
      assert Matches(e.key, ScoreProbe(m));
    }
  }

  lemma WonKey(groups: seq<Group>, who: string, rows: seq<OfferRow>, scores: ScoresUpkeep, duties: seq<Duty>,
               live: map<Probe, Live>, m: string, k: Key)
    requires Assessed(groups, who, rows, scores, duties, live)
    requires LiveDuty(groups, duties, live, m, k)
    ensures Shaped(k) && Matches(k, ScoreProbe(m))
    ensures OffersKind(rows, SCORE_KIND)
    ensures exists i :: 0 <= i < |groups| && groups[i].key == k && who in groups[i].providers
  {
    var d :| d in duties && d.probe == ScoreProbe(m) && d.duty && live[d.probe].live
             && d.winner.Some? && d.winner.value < |groups| && groups[d.winner.value].key == k;
    LiveIsPublished(d.probe, rows, scores);
    var a := Answer(rows, d.probe);
    assert SCORE_KIND in rows[a.value].key.kinds;
  }

  /** The Map key `k` narrowed to Scores, for a key with a live duty. */
  ghost predicate ScoreMeetIn(k: Key, meets: seq<Key>) {
    MeetOf(k, SCORE_KIND).Some? && MeetOf(k, SCORE_KIND).value in meets
  }

  /** One of the reader's keys naming the Assistant: tried verbatim, then narrowed. */
  method TryMapKey(groups: seq<Group>, who: string, rows: seq<OfferRow>, scores: ScoresUpkeep, duties: seq<Duty>,
                   live: map<Probe, Live>, before: seq<Entry>, k: Key) returns (chosen: seq<Entry>)
    requires Assessed(groups, who, rows, scores, duties, live) && Offer(rows)
    requires Shaped(k) && Rooted(k, duties)
    requires Kept(before, duties, live, rows)
    ensures Kept(chosen, duties, live, rows) && before <= chosen
    ensures ClaimsAll(groups, duties, live, k, chosen)
  {
    if Has(before, k.norm) {
      ghost var i :| 0 <= i < |before| && before[i].key.norm == k.norm;
      assert Founded(before[i], duties, live, rows);
      NormDeterminesKey(before[i].key, k);
      OwnEntryClaims(groups, who, rows, scores, duties, live, before, k, before[i]);
      return before;
    }
    var ok;
    chosen, ok := TryMetric(groups, who, rows, scores, duties, live, before, Some(k), k);
    if ok {
      ghost var e :| e in chosen && e.key == k;
      OwnEntryClaims(groups, who, rows, scores, duties, live, chosen, k, e);
      return;
    }
    chosen := TryMeets(groups, who, rows, scores, duties, live, chosen, k);
  }

  /** The key's narrowed forms, most specific first. */
  method TryMeets(groups: seq<Group>, who: string, rows: seq<OfferRow>, scores: ScoresUpkeep, duties: seq<Duty>,
                  live: map<Probe, Live>, verbatim: seq<Entry>, k: Key) returns (chosen: seq<Entry>)
    requires Assessed(groups, who, rows, scores, duties, live) && Offer(rows) && Shaped(k)
    requires Kept(verbatim, duties, live, rows)
    requires ClaimsOwn(groups, duties, live, k, verbatim)
    ensures Kept(chosen, duties, live, rows) && verbatim <= chosen
    ensures ClaimsAll(groups, duties, live, k, chosen)
  {
    var meets := Meets(k, rows);
    var le := (a: Key, b: Key) => CompareKeys(a, b) <= 0;
    var ordered := Sorting.Sort(le, meets);
    Sorting.SortMembers(le, meets);
    chosen := TryOrdered(groups, who, rows, scores, duties, live, verbatim, k, ordered);
    forall m | LiveDuty(groups, duties, live, m, k) ensures ScoreMeetIn(k, ordered) {
      ScoreMeetListed(groups, who, rows, scores, duties, live, m, k, meets);
    }
  }

  lemma ScoreMeetNext(k: Key, ordered: seq<Key>, j: nat)
    requires j < |ordered|
    ensures ScoreMeetIn(k, ordered[..j + 1]) <==> ScoreMeetIn(k, ordered[..j]) || MeetOf(k, SCORE_KIND) == Some(ordered[j])
  {
    assert ordered[..j + 1] == ordered[..j] + [ordered[j]];
  }

  method TryOrdered(groups: seq<Group>, who: string, rows: seq<OfferRow>, scores: ScoresUpkeep, duties: seq<Duty>,
                    live: map<Probe, Live>, verbatim: seq<Entry>, k: Key, ordered: seq<Key>) returns (chosen: seq<Entry>)
    requires Assessed(groups, who, rows, scores, duties, live) && Offer(rows) && Shaped(k)
    requires Kept(verbatim, duties, live, rows) && forall m :: m in ordered ==> Narrowed(m)
    requires ClaimsOwn(groups, duties, live, k, verbatim)
    ensures Kept(chosen, duties, live, rows) && verbatim <= chosen
    ensures ScoreMeetIn(k, ordered) ==> ClaimsAll(groups, duties, live, k, chosen)
  {
    chosen := verbatim;
    for j := 0 to |ordered|
      invariant Kept(chosen, duties, live, rows) && verbatim <= chosen
      invariant ScoreMeetIn(k, ordered[..j]) ==> ClaimsAll(groups, duties, live, k, chosen)
    {
      var meet := ordered[j];
      assert meet in ordered;
      ScoreMeetNext(k, ordered, j);
      ghost var earlier := chosen;
      chosen := TryMeet(groups, who, rows, scores, duties, live, chosen, verbatim, k, meet);
      if ScoreMeetIn(k, ordered[..j]) {
        ClaimsAllGrows(groups, duties, live, k, earlier, chosen);
      }
    }
    assert ordered[..|ordered|] == ordered;
  }

  /** A live duty whose own key is `k` is spoken of. */
  ghost predicate ClaimsOwn(groups: seq<Group>, duties: seq<Duty>, live: map<Probe, Live>, k: Key, chosen: seq<Entry>) {
    forall m :: LiveDuty(groups, duties, live, m, k) && k == MetricKey(m) ==> Claimed(chosen, ScoreProbe(m))
  }

  lemma ScoreMeetListed(groups: seq<Group>, who: string, rows: seq<OfferRow>, scores: ScoresUpkeep, duties: seq<Duty>,
                        live: map<Probe, Live>, m: string, k: Key, meets: seq<Key>)
    requires Assessed(groups, who, rows, scores, duties, live) && LiveDuty(groups, duties, live, m, k)
    requires forall kind :: kind in k.kinds && OffersKind(rows, kind) && MeetOf(k, kind).Some? ==> MeetOf(k, kind).value in meets
    ensures ScoreMeetIn(k, meets)
  {
    WonKey(groups, who, rows, scores, duties, live, m, k);
    ScoreMeet(k, m);
  }

  /** One narrowed key: tried, and where it is the bare Score kind, each metric in its turn. */
  method TryMeet(groups: seq<Group>, who: string, rows: seq<OfferRow>, scores: ScoresUpkeep, duties: seq<Duty>,
                 live: map<Probe, Live>, before: seq<Entry>, verbatim: seq<Entry>, k: Key, meet: Key)
      returns (chosen: seq<Entry>)
    requires Assessed(groups, who, rows, scores, duties, live) && Offer(rows) && Shaped(k)
    requires Narrowed(meet)
    requires Kept(before, duties, live, rows) && verbatim <= before
    requires ClaimsOwn(groups, duties, live, k, verbatim)
    ensures Kept(chosen, duties, live, rows) && before <= chosen
    ensures MeetOf(k, SCORE_KIND) == Some(meet) ==> ClaimsAll(groups, duties, live, k, chosen)
  {
    chosen := before;
    var ok := false;
    if meet.norm != k.norm {
      chosen, ok := TryMetric(groups, who, rows, scores, duties, live, before, Some(meet), k);
    }
    if !ok && meet.kinds == [SCORE_KIND] && meet.scope.All? {
      chosen := TryMetrics(groups, who, rows, scores, duties, live, chosen, k);
      return;
    }
    if MeetOf(k, SCORE_KIND) == Some(meet) {
      forall m | LiveDuty(groups, duties, live, m, k) ensures Claimed(chosen, ScoreProbe(m)) {
        WonKey(groups, who, rows, scores, duties, live, m, k);
        ScoreMeet(k, m);
        if meet == BARE_SCORE {
          assert ok;
          var e :| e in chosen && e.key == meet;
          OwnEntryClaims(groups, who, rows, scores, duties, live, chosen, k, e);
        } else if meet.norm == k.norm {
          NormDeterminesKey(meet, k);
          ClaimedGrows(verbatim, chosen, ScoreProbe(m));
        }
      }
    }
  }

  lemma MapKeyRooted(groups: seq<Group>, who: string, rows: seq<OfferRow>, scores: ScoresUpkeep, duties: seq<Duty>,
                     live: map<Probe, Live>, k: Key)
    requires Assessed(groups, who, rows, scores, duties, live) && k in KeysOf(groups)
    ensures Shaped(k) && Rooted(k, duties)
  {
    var i :| 0 <= i < |groups| && KeysOf(groups)[i] == k;
    assert Shaped(groups[i].key);
    if k.scope.Metric? {
      forall kind | kind in k.kinds ensures exists d :: d in duties && d.probe == Probe(kind, k.scope) {
        MapKeyKinds(k, kind);
        assert IsProbe(KeysOf(groups), Probe(kind, k.scope));
      }
    }
  }

  /** The keys naming the Assistant, in the Map's order. */
  function Mine(groups: seq<Group>, who: string): (keys: seq<Key>)
    ensures forall k :: k in keys <==> exists i :: 0 <= i < |groups| && groups[i].key == k && who in groups[i].providers
  {
    if groups == [] then []
    else
      var n := |groups| - 1;
      assert groups == groups[..n] + [groups[n]];
      Mine(groups[..n], who) + if who in groups[n].providers then [groups[n].key] else []
  }

  /** What the finished list is, over any offer: entries no two of one spelling, each founded on a live
      duty; every duty spoken of is live at the relay of its most specific entry; and every live duty
      Score is spoken of. */
  ghost predicate ShouldSay(groups: seq<Group>, duties: seq<Duty>, live: map<Probe, Live>, rows: seq<OfferRow>,
                            chosen: seq<Entry>)
  {
    && Kept(chosen, duties, live, rows)
    && (forall m, k :: LiveDuty(groups, duties, live, m, k) ==> Claimed(chosen, ScoreProbe(m)))
    && (forall i, j :: 0 <= i < j < |chosen| ==> OrderOf(rows, chosen[i].key) <= OrderOf(rows, chosen[j].key))
  }

  /** The greedy pass over the reader's keys naming the Assistant. */
  method ChooseEntries(groups: seq<Group>, who: string, duties: seq<Duty>, live: map<Probe, Live>,
                       rows: seq<OfferRow>, scores: ScoresUpkeep, mine: seq<Key>) returns (chosen: seq<Entry>)
    requires Assessed(groups, who, rows, scores, duties, live) && Offer(rows)
    requires forall j :: 0 <= j < |mine| ==> Shaped(mine[j]) && Rooted(mine[j], duties)
    ensures Kept(chosen, duties, live, rows)
    ensures ClaimsEach(groups, duties, live, mine, chosen)
  {
    chosen := [];
    for i := 0 to |mine|
      invariant Kept(chosen, duties, live, rows)
      invariant ClaimsEach(groups, duties, live, mine[..i], chosen)
    {
      ghost var earlier := chosen;
      chosen := TryMapKey(groups, who, rows, scores, duties, live, chosen, mine[i]);
      ClaimsNext(groups, duties, live, mine[..i], mine[i], earlier, chosen);
      assert mine[..i + 1] == mine[..i] + [mine[i]];
    }
    assert mine[..|mine|] == mine;
  }

  ghost predicate ClaimsEach(groups: seq<Group>, duties: seq<Duty>, live: map<Probe, Live>, mine: seq<Key>,
                             chosen: seq<Entry>)
  {
    forall k :: k in mine ==> ClaimsAll(groups, duties, live, k, chosen)
  }

  lemma ClaimsNext(groups: seq<Group>, duties: seq<Duty>, live: map<Probe, Live>, mine: seq<Key>, k: Key,
                   before: seq<Entry>, after: seq<Entry>)
    requires ClaimsEach(groups, duties, live, mine, before) && before <= after
    requires ClaimsAll(groups, duties, live, k, after)
    ensures ClaimsEach(groups, duties, live, mine + [k], after)
  {
    forall j | j in mine ensures ClaimsAll(groups, duties, live, j, after) {
      ClaimsAllGrows(groups, duties, live, j, before, after);
    }
  }

  lemma SortedMine(groups: seq<Group>, who: string, rows: seq<OfferRow>, scores: ScoresUpkeep, duties: seq<Duty>,
                   live: map<Probe, Live>, mine: seq<Key>)
    requires Assessed(groups, who, rows, scores, duties, live)
    requires forall k :: k in mine <==> k in Mine(groups, who)
    ensures forall j :: 0 <= j < |mine| ==> Shaped(mine[j]) && Rooted(mine[j], duties)
  {
    forall j | 0 <= j < |mine| ensures Shaped(mine[j]) && Rooted(mine[j], duties) {
      assert mine[j] in Mine(groups, who);
      var i :| 0 <= i < |groups| && groups[i].key == mine[j];
      assert KeysOf(groups)[i] == mine[j];
      MapKeyRooted(groups, who, rows, scores, duties, live, mine[j]);
    }
  }

  method BuildShouldSay(groups: seq<Group>, who: string, duties: seq<Duty>, live: map<Probe, Live>,
                        rows: seq<OfferRow>, scores: ScoresUpkeep) returns (chosen: seq<Entry>)
    requires Assessed(groups, who, rows, scores, duties, live) && Offer(rows)
    ensures ShouldSay(groups, duties, live, rows, chosen)
  {
    var specific := (a: Key, b: Key) => CompareKeys(a, b) <= 0;
    var mine := Sorting.Sort(specific, Mine(groups, who));
    Sorting.SortMembers(specific, Mine(groups, who));
    SortedMine(groups, who, rows, scores, duties, live, mine);
    var found := ChooseEntries(groups, who, duties, live, rows, scores, mine);
    var listed := (a: Entry, b: Entry) => OrderOf(rows, a.key) <= OrderOf(rows, b.key);
    chosen := Sorting.Sort(listed, found);
    Sorting.SortPermutes(listed, found);
    Sorting.SortMembers(listed, found);
    Sorting.SortSorted(listed, found);
    PermutationKept(found, chosen, duties, live, rows);
    forall m, k | LiveDuty(groups, duties, live, m, k) ensures Claimed(chosen, ScoreProbe(m)) {
      WonKey(groups, who, rows, scores, duties, live, m, k);
      assert k in mine;
      var e :| e in found && Matches(e.key, ScoreProbe(m));
      assert e in chosen;
    }
    assert forall i, j :: 0 <= i < j < |chosen| ==> listed(chosen[i], chosen[j]);
  }

  lemma TwiceIn(xs: seq<Entry>, i: nat, j: nat)
    requires i < j < |xs| && xs[i] == xs[j]
    ensures multiset(xs)[xs[i]] >= 2
  {
    assert xs == xs[..j] + [xs[j]] + xs[j + 1..];
    assert xs[i] in xs[..j];
  }

  lemma OnceIn(xs: seq<Entry>, i: nat)
    requires i < |xs| && DistinctNorms(xs)
    ensures multiset(xs)[xs[i]] == 1
  {
    assert xs == xs[..i] + [xs[i]] + xs[i + 1..];
    assert xs[i] !in xs[..i] && xs[i] !in xs[i + 1..];
  }

  lemma PermutationKept(a: seq<Entry>, b: seq<Entry>, duties: seq<Duty>, live: map<Probe, Live>, rows: seq<OfferRow>)
    requires Kept(a, duties, live, rows)
    requires multiset(a) == multiset(b) && forall e :: e in a <==> e in b
    ensures Kept(b, duties, live, rows)
  {
    forall d, e | d in duties && d.duty && Wins(b, d.probe, e) ensures LiveAt(live, d.probe, e.relay) {
      assert Wins(a, d.probe, e);
    }
    forall i, j | 0 <= i < j < |b| ensures b[i].key.norm != b[j].key.norm {
      assert b[i] in b && b[j] in b;
      var x :| 0 <= x < |a| && a[x] == b[i];
      var y :| 0 <= y < |a| && a[y] == b[j];
      OnceIn(a, x);
      if b[i].key.norm == b[j].key.norm {
        assert x == y;
        TwiceIn(b, i, j);
      }
    }
  }

  /** A key of all of its kinds, or of one metric known to the probes, tells an insight from its probe nowhere. */
  lemma StandSeenAlike(keys: seq<Key>, key: Key, i: Probe)
    requires key.scope.All? || (key.scope.Metric? && (Matches(key, i) ==> IsProbe(keys, i)))
    ensures Matches(key, i) <==> Matches(key, Stand(keys, i))
  {
  }

  /** A founded entry speaks of a published metric: on its own, or among all of its kinds. */
  lemma FoundedScope(rows: seq<OfferRow>, scores: ScoresUpkeep, key: Key, p: Probe)
    requires Matches(key, p) && EvaluateLive(p, rows, scores).live
    ensures Published(p) && (key.scope.All? || key.scope == p.scope)
  {
    LiveIsPublished(p, rows, scores);
  }

  lemma MetricEntryIsProbe(keys: seq<Key>, duties: seq<Duty>, key: Key, p: Probe, i: Probe)
    requires key.scope.Metric? && Rooted(key, duties) && Matches(key, p) && Matches(key, i) && IsProbe(keys, p)
    requires forall d :: d in duties ==> IsProbe(keys, d.probe)
    ensures IsProbe(keys, i)
  {
    assert i == Probe(i.kind, key.scope) && p == Probe(p.kind, key.scope);
    if |key.kinds| == 1 {
      assert i == p;
    } else {
      var d :| d in duties && d.probe == Probe(i.kind, key.scope);
    }
  }

  /** A chosen entry's own regions are probes, so it tells an insight from its probe nowhere. */
  lemma EntrySeesStand(groups: seq<Group>, who: string, rows: seq<OfferRow>, scores: ScoresUpkeep, duties: seq<Duty>,
                       live: map<Probe, Live>, e: Entry, i: Probe)
    requires Assessed(groups, who, rows, scores, duties, live) && Founded(e, duties, live, rows)
    ensures Matches(e.key, i) <==> Matches(e.key, Stand(KeysOf(groups), i))
  {
    var d :| d in duties && d.duty && Matches(e.key, d.probe) && LiveAt(live, d.probe, e.relay);
    FoundedScope(rows, scores, e.key, d.probe);
    if Matches(e.key, i) && e.key.scope.Metric? {
      MetricEntryIsProbe(KeysOf(groups), duties, e.key, d.probe, i);
    }
    StandSeenAlike(KeysOf(groups), e.key, i);
  }

  /** Over any Map and any offer, and for every insight, not only the probes: when it is the Assistant's
      duty and some chosen entry matches it, the most specific one names a relay where it is live. */
  lemma ClaimsAreLive(groups: seq<Group>, who: string, rows: seq<OfferRow>, scores: ScoresUpkeep, duties: seq<Duty>,
                      live: map<Probe, Live>, chosen: seq<Entry>, i: Probe, e: Entry)
    requires Assessed(groups, who, rows, scores, duties, live) && ShouldSay(groups, duties, live, rows, chosen)
    requires Insight(KeysOf(groups), i) && DutyOf(groups, who, i).duty && Wins(chosen, i, e)
    ensures EvaluateLive(i, rows, scores).live && EvaluateLive(i, rows, scores).relay == Some(e.relay)
  {
    var s := Stand(KeysOf(groups), i);
    StandKeepsDuty(groups, who, i);
    var d :| d in duties && d.probe == s;
    forall f | f in chosen ensures Matches(f.key, i) <==> Matches(f.key, s) {
      EntrySeesStand(groups, who, rows, scores, duties, live, f, i);
    }
    assert Wins(chosen, s, e);
    assert LiveAt(live, s, e.relay);
    LiveIsPublished(s, rows, scores);
    assert s == i;
  }
}
