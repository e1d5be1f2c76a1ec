/** The Treasure Map engine: probes, duties, the offer, what is live, and the greedy choice of
    self-entries. Models the second half of app/services/self_map_build.py. */
module TreasureMap {
  import opened Text
  import opened TreasureKeys
  import opened Sorting

  // --- The most specific of several keys ---

  function BestBy(keys: seq<Key>, sel: Key -> bool): (best: Option<nat>)
    ensures best.Some? ==> best.value < |keys| && sel(keys[best.value])
  {
    if keys == [] then None
    else
      var n := |keys| - 1;
      var best := BestBy(keys[..n], sel);
      if !sel(keys[n]) then best
      else if best.None? || CompareKeys(keys[n], keys[best.value]) < 0 then Some(n)
      else best
  }

  /** `BestBy` finds a selected key none is more specific than, the first of those, and misses none. */
  lemma {:induction false} BestByIsMostSpecific(keys: seq<Key>, sel: Key -> bool)
    ensures BestBy(keys, sel).None? <==> forall j :: 0 <= j < |keys| ==> !sel(keys[j])
    ensures BestBy(keys, sel).Some? ==>
              var i := BestBy(keys, sel).value;
              && (forall j :: 0 <= j < |keys| && sel(keys[j]) ==> !MoreSpecific(keys[j], keys[i]))
              && (forall j :: 0 <= j < i && sel(keys[j]) ==> MoreSpecific(keys[i], keys[j]))
  {
    if keys != [] {
      var n := |keys| - 1;
      var front := keys[..n];
      BestByIsMostSpecific(front, sel);
      var best := BestBy(front, sel);
      assert forall j :: 0 <= j < n ==> front[j] == keys[j];
      if sel(keys[n]) && best.Some? {
        CompareKeysAntisymmetric(keys[n], keys[n]);
        forall j | 0 <= j < n && sel(keys[j]) && MoreSpecific(keys[n], keys[best.value])
          ensures MoreSpecific(keys[n], keys[j]) && !MoreSpecific(keys[j], keys[n])
        {
          CompareKeysCotransitive(keys[n], keys[j], keys[best.value]);
          CompareKeysAntisymmetric(keys[n], keys[j]);
        }
      } else if sel(keys[n]) {
        CompareKeysAntisymmetric(keys[n], keys[n]);
      }
    }
  }

  lemma {:induction false} BestByExtensional(keys: seq<Key>, sel: Key -> bool, sel': Key -> bool)
    requires forall k :: k in keys ==> sel(k) == sel'(k)
    ensures BestBy(keys, sel) == BestBy(keys, sel')
  {
    if keys != [] {
      assert keys[|keys| - 1] in keys;
      BestByExtensional(keys[..|keys| - 1], sel, sel');
    }
  }

  /** The loop of `winner_of` and of `Offer.covering`. */
  method MostSpecific(keys: seq<Key>, sel: Key -> bool) returns (best: Option<nat>)
    ensures best == BestBy(keys, sel)
  {
    best := None;
    for i := 0 to |keys|
      invariant best == BestBy(keys[..i], sel)
    {
      assert keys[..i + 1][..i] == keys[..i];
      if sel(keys[i]) {
        if best.None? || CompareKeys(keys[i], keys[best.value]) < 0 {
          best := Some(i);
        }
      }
    }
    assert keys[..|keys|] == keys;
  }

  function Winner(keys: seq<Key>, p: Probe): (w: Option<nat>)
    ensures w.Some? ==> w.value < |keys| && Matches(keys[w.value], p)
  {
    BestBy(keys, k => Matches(k, p))
  }

  // --- Probes ---

  /** The finite set of probes for the keys given. */
  ghost predicate IsProbe(keys: seq<Key>, p: Probe) {
    || (IsScoreKind(p.kind) && p.scope.Metric? && (Published(p) || Named(keys, p)))
    || (IsConceptKind(p.kind) && p.scope.D? && Named(keys, p))
    || ((IsScoreKind(p.kind) || IsListKind(p.kind) || IsConceptKind(p.kind)) && p.scope == Other)
    || (p.scope.Unchecked? && UncheckedRegion(keys, p))
    || (p.scope == Other && exists k :: k in keys && p.kind in k.kinds)
  }

  predicate Published(p: Probe) {
    p.kind == SCORE_KIND && p.scope.Metric? && p.scope.value in PUBLISHED_METRICS
  }

  ghost predicate Named(keys: seq<Key>, p: Probe) {
    exists k :: k in keys && k.scope == p.scope && p.kind in k.kinds
  }

  ghost predicate UncheckedRegion(keys: seq<Key>, p: Probe) {
    exists k :: k in keys && k.scope.Unchecked? && p.scope == Unchecked(k.norm) && p.kind in k.kinds
  }

  /** The insights a Map is about: every kind and scope, where a region `unchecked` is that of an
      unchecked key of the Map. */
  ghost predicate Insight(keys: seq<Key>, i: Probe) {
    i.scope.Unchecked? ==> UncheckedRegion(keys, i)
  }

  /** The probe standing for an insight. */
  ghost function Stand(keys: seq<Key>, i: Probe): Probe {
    if IsProbe(keys, i) then i else Probe(i.kind, Other)
  }

  function SetDefault(out: seq<Probe>, p: Probe): (r: seq<Probe>)
    ensures forall q :: q in r <==> q in out || q == p
    ensures Distinct(out) ==> Distinct(r)
  {
    if p in out then out else out + [p]
  }

  lemma MetricKeyKinds(k: Key, kind: int)
    requires Shaped(k) && kind in k.kinds && k.scope.Metric?
    ensures IsScoreKind(kind)
  {
    ScoreSlots(k.slot, k.segs);
  }

  lemma NamedKeyKinds(k: Key, kind: int)
    requires Shaped(k) && kind in k.kinds && k.scope.D?
    ensures IsConceptKind(kind)
  {
    ConceptSlots();
  }

  lemma MapKeyKinds(k: Key, kind: int)
    requires Shaped(k) && kind in k.kinds
    ensures k.scope.Metric? ==> IsScoreKind(kind)
    ensures k.scope.D? ==> IsConceptKind(kind)
    ensures k.scope != Other && kind >= 0
  {
    if k.scope.Metric? {
      MetricKeyKinds(k, kind);
    } else if k.scope.D? {
      NamedKeyKinds(k, kind);
    }
  }

  method ScoreProbes(keys: seq<Key>, kind: int, before: seq<Probe>) returns (out: seq<Probe>)
    ensures forall q :: q in out <==>
              || q in before
              || (q.kind == kind && (q.scope == Other || (q.scope.Metric? && (Published(q) || Named(keys, q)))))
    ensures Distinct(before) ==> Distinct(out)
  {
    var metrics := if kind == SCORE_KIND then PUBLISHED_METRICS else [];
    for i := 0 to |keys|
      invariant forall m :: m in metrics <==> Published(Probe(kind, Metric(m))) || Named(keys[..i], Probe(kind, Metric(m)))
    {
      var k := keys[i];
      assert keys[..i + 1] == keys[..i] + [k];
      if k.scope.Metric? && kind in k.kinds && k.scope.value !in metrics {
        metrics := metrics + [k.scope.value];
      }
    }
    assert keys[..|keys|] == keys;
    out := before;
    for i := 0 to |metrics|
      invariant forall q :: q in out <==> q in before || (q.kind == kind && q.scope.Metric? && q.scope.value in metrics[..i])
      invariant Distinct(before) ==> Distinct(out)
    {
      assert metrics[..i + 1] == metrics[..i] + [metrics[i]];
      out := SetDefault(out, Probe(kind, Metric(metrics[i])));
    }
    assert metrics[..|metrics|] == metrics;
    out := SetDefault(out, Probe(kind, Other));
  }

  method ConceptProbes(keys: seq<Key>, kind: int, before: seq<Probe>) returns (out: seq<Probe>)
    ensures forall q :: q in out <==>
              q in before || (q.kind == kind && (q.scope == Other || (q.scope.D? && Named(keys, q))))
    ensures Distinct(before) ==> Distinct(out)
  {
    out := before;
    for i := 0 to |keys|
      invariant forall q :: q in out <==> q in before || (q.kind == kind && q.scope.D? && Named(keys[..i], q))
      invariant Distinct(before) ==> Distinct(out)
    {
      var k := keys[i];
      assert keys[..i + 1] == keys[..i] + [k];
      if k.scope.D? && kind in k.kinds {
        out := SetDefault(out, Probe(kind, D(k.scope.value)));
      }
    }
    assert keys[..|keys|] == keys;
    out := SetDefault(out, Probe(kind, Other));
  }

  /** What one key adds beyond the Score, List and Concept probes. */
  ghost predicate KeyProbe(k: Key, q: Probe) {
    && q.kind in k.kinds
    && (|| (k.scope.Unchecked? && q.scope == Unchecked(k.norm))
        || (q.scope == Other && !(IsScoreKind(q.kind) || IsListKind(q.kind) || IsConceptKind(q.kind))))
  }

  method KeyProbes(k: Key, before: seq<Probe>) returns (out: seq<Probe>)
    ensures forall q :: q in out <==> q in before || KeyProbe(k, q)
    ensures Distinct(before) ==> Distinct(out)
  {
    out := before;
    if k.scope.Unchecked? {
      for i := 0 to |k.kinds|
        invariant forall q :: q in out <==> q in before || (q.kind in k.kinds[..i] && q.scope == Unchecked(k.norm))
        invariant Distinct(before) ==> Distinct(out)
      {
        assert k.kinds[..i + 1] == k.kinds[..i] + [k.kinds[i]];
        out := SetDefault(out, Probe(k.kinds[i], Unchecked(k.norm)));
      }
      assert k.kinds[..|k.kinds|] == k.kinds;
    }
    var checked := out;
    for i := 0 to |k.kinds|
      invariant forall q :: q in out <==>
                  || q in checked
                  || (q.kind in k.kinds[..i] && q.scope == Other
                      && !(IsScoreKind(q.kind) || IsListKind(q.kind) || IsConceptKind(q.kind)))
      invariant Distinct(before) ==> Distinct(out)
    {
      var kind := k.kinds[i];
      assert k.kinds[..i + 1] == k.kinds[..i] + [kind];
      if !(IsScoreKind(kind) || IsListKind(kind) || IsConceptKind(kind)) {
        out := SetDefault(out, Probe(kind, Other));
      }
    }
    assert k.kinds[..|k.kinds|] == k.kinds;
  }

  /** The probes of a Map: each once, and exactly those `IsProbe` names. */
  method BuildProbes(keys: seq<Key>) returns (out: seq<Probe>)
    requires forall k :: k in keys ==> Shaped(k)
    ensures forall q :: q in out <==> IsProbe(keys, q)
    ensures Distinct(out)
  {
    out := [];
    for kind := 30380 to 30390
      invariant forall q :: q in out <==>
                  30380 <= q.kind < kind
                  && (q.scope == Other || (q.scope.Metric? && (Published(q) || Named(keys, q))))
      invariant Distinct(out)
    {
      out := ScoreProbes(keys, kind, out);
    }
    var scores := out;
    for kind := 30390 to 30400
      invariant forall q :: q in out <==> q in scores || (30390 <= q.kind < kind && q.scope == Other)
      invariant Distinct(out)
    {
      out := SetDefault(out, Probe(kind, Other));
    }
    out := ConceptProbes(keys, 39998, out);
    out := ConceptProbes(keys, 39999, out);
    var known := out;
    for i := 0 to |keys|
      invariant forall q :: q in out <==> q in known || exists k :: k in keys[..i] && KeyProbe(k, q)
      invariant Distinct(out)
    {
      assert keys[..i + 1] == keys[..i] + [keys[i]];
      out := KeyProbes(keys[i], out);
    }
    assert keys[..|keys|] == keys;
    forall q ensures q in out <==> IsProbe(keys, q) {
      ProbeSections(keys, q);
    }
  }

  lemma ProbeSections(keys: seq<Key>, q: Probe)
    ensures IsProbe(keys, q) <==>
              || (IsScoreKind(q.kind) && (q.scope == Other || (q.scope.Metric? && (Published(q) || Named(keys, q)))))
              || (IsListKind(q.kind) && q.scope == Other)
              || (IsConceptKind(q.kind) && (q.scope == Other || (q.scope.D? && Named(keys, q))))
              || exists k :: k in keys && KeyProbe(k, q)
  {
    if k :| k in keys && KeyProbe(k, q) {
      assert IsProbe(keys, q);
    }
    if q.scope.Unchecked? && UncheckedRegion(keys, q) {
      var k :| k in keys && k.scope.Unchecked? && q.scope == Unchecked(k.norm) && q.kind in k.kinds;
      assert KeyProbe(k, q);
    }
    if q.scope == Other && !(IsScoreKind(q.kind) || IsListKind(q.kind) || IsConceptKind(q.kind)) && IsProbe(keys, q) {
      var k :| k in keys && q.kind in k.kinds;
      assert KeyProbe(k, q);
    }
  }

  /** The finite probe set is a complete abstraction of the infinite insight space: an insight some key
      matches has a probe that exactly the same keys match. */
  lemma ProbesStandForInsights(keys: seq<Key>, i: Probe)
    requires forall k :: k in keys ==> Shaped(k)
    requires Insight(keys, i) && exists k :: k in keys && Matches(k, i)
    ensures IsProbe(keys, Stand(keys, i))
    ensures forall k :: k in keys ==> (Matches(k, i) <==> Matches(k, Stand(keys, i)))
    ensures Winner(keys, i) == Winner(keys, Stand(keys, i))
  {
    var s := Stand(keys, i);
    var m :| m in keys && Matches(m, i);
    forall k | k in keys ensures Matches(k, i) <==> Matches(k, s) {
      if i.kind in k.kinds {
        MapKeyKinds(k, i.kind);
        assert k.scope.Metric? || k.scope.D? ==> (Matches(k, i) ==> Named(keys, i));
      }
    }
    BestByExtensional(keys, k => Matches(k, i), k => Matches(k, s));
  }

  // --- Duties ---

  /** One key of a Map, with the providers it names. */
  datatype Group = Group(key: Key, providers: set<string>)

  /** A probe, the index of the Map's winning group, and whether the probe is the Assistant's duty. */
  datatype Duty = Duty(probe: Probe, winner: Option<nat>, duty: bool)

  function KeysOf(groups: seq<Group>): (keys: seq<Key>)
    ensures |keys| == |groups| && forall i :: 0 <= i < |groups| ==> keys[i] == groups[i].key
  {
    seq(|groups|, i requires 0 <= i < |groups| => groups[i].key)
  }

  /** A Map as `map_groups` reads it: parsed keys, each once. */
  ghost predicate ReaderMap(groups: seq<Group>) {
    && (forall i :: 0 <= i < |groups| ==> Shaped(groups[i].key))
    && (forall i, j :: 0 <= i < j < |groups| ==> groups[i].key.norm != groups[j].key.norm)
  }

  predicate InSupportedSets(p: Probe) {
    if p.scope.Unchecked? then true
    else if p.kind == SCORE_KIND then p.scope.Metric? && p.scope.value in PUBLISHED_METRICS
    else !IsConceptKind(p.kind)
  }

  function DutyOf(groups: seq<Group>, who: string, p: Probe): Duty {
    var w := Winner(KeysOf(groups), p);
    Duty(p, w, w.Some?
               && who in groups[w.value].providers
               && (groups[w.value].key.scope != All || InSupportedSets(p)))
  }

  method DutiesOf(groups: seq<Group>, who: string, probes: seq<Probe>) returns (duties: seq<Duty>)
    ensures |duties| == |probes|
    ensures forall i :: 0 <= i < |probes| ==> duties[i] == DutyOf(groups, who, probes[i])
  {
    duties := [];
    for i := 0 to |probes|
      invariant |duties| == i
      invariant forall j :: 0 <= j < i ==> duties[j] == DutyOf(groups, who, probes[j])
    {
      var p := probes[i];
      var w := MostSpecific(KeysOf(groups), k => Matches(k, p));
      var duty := w.Some? && who in groups[w.value].providers
                  && (groups[w.value].key.scope != All || InSupportedSets(p));
      duties := duties + [Duty(p, w, duty)];
    }
  }

  /** The duty verdict on an insight is the verdict on the probe standing for it. */
  lemma StandKeepsDuty(groups: seq<Group>, who: string, i: Probe)
    requires ReaderMap(groups) && Insight(KeysOf(groups), i)
    requires Winner(KeysOf(groups), i).Some?
    ensures var s := Stand(KeysOf(groups), i);
            && IsProbe(KeysOf(groups), s)
            && DutyOf(groups, who, i).winner == DutyOf(groups, who, s).winner
            && DutyOf(groups, who, i).duty == DutyOf(groups, who, s).duty
  {
    var keys := KeysOf(groups);
    var w := Winner(keys, i);
    assert keys[w.value] in keys;
    forall k | k in keys ensures Shaped(k) {
      var j :| 0 <= j < |keys| && keys[j] == k;
      assert Shaped(groups[j].key);
    }
    ProbesStandForInsights(keys, i);
  }

  // --- The offer and what is live ---

  datatype OfferRow = OfferRow(key: Key, relay: string)

  function RowKeys(rows: seq<OfferRow>): (keys: seq<Key>)
    ensures |keys| == |rows| && forall i :: 0 <= i < |rows| ==> keys[i] == rows[i].key
  {
    seq(|rows|, i requires 0 <= i < |rows| => rows[i].key)
  }

  predicate OffersKind(rows: seq<OfferRow>, kind: int) {
    exists i :: 0 <= i < |rows| && kind in rows[i].key.kinds
  }

  function Answer(rows: seq<OfferRow>, p: Probe): (a: Option<nat>)
    ensures a.Some? ==> a.value < |rows|
  {
    Winner(RowKeys(rows), p)
  }

  function Covering(rows: seq<OfferRow>, key: Key): (c: Option<nat>)
    ensures c.Some? ==> c.value < |rows| && Covers(rows[c.value].key, key)
  {
    BestBy(RowKeys(rows), r => Covers(r, key))
  }

  function OrderOf(rows: seq<OfferRow>, key: Key): nat {
    var c := Covering(rows, key);
    if c.Some? then c.value else |rows|
  }

  datatype ScoresUpkeep = ScoresUpkeep(status: string, lastLandedAt: Option<int>)

  datatype Live = Live(live: bool, relay: Option<string>, reason: Option<string>, lastLandedAt: Option<int>)

  function EvaluateLive(p: Probe, rows: seq<OfferRow>, scores: ScoresUpkeep): Live {
    var a := Answer(rows, p);
    if a.None? then Live(false, None, None, None)
    else
      var relay := rows[a.value].relay;
      if p.scope.Unchecked? then Live(false, Some(relay), Some("unchecked"), None)
      else if IsScoreKind(p.kind) then
        if p.kind != SCORE_KIND || !p.scope.Metric? || p.scope.value !in PUBLISHED_METRICS then
          Live(false, Some(relay), Some("not-published-here"), None)
        else if scores.status == "live" then Live(true, Some(relay), None, None)
        else Live(false, Some(relay), Some(scores.status), scores.lastLandedAt)
      else if IsListKind(p.kind) then Live(false, Some(relay), Some("not-scheduled"), None)
      else Live(false, Some(relay), Some("not-published-here"), None)
  }

  /** Why an offered insight that is not live is not: an unchecked region is not looked at, a published Score
      waits for the Scores' upkeep, a List for an administrator, and nothing else is published here. */
  function WhyDown(p: Probe, scores: ScoresUpkeep): string {
    if p.scope.Unchecked? then "unchecked"
    else if Published(p) then scores.status
    else if IsListKind(p.kind) then "not-scheduled"
    else "not-published-here"
  }

  /** Live means: a published Score, Scores kept up to date, and an answering row. The relay is that row's, the
      reason why an answered one is not live is as `WhyDown` says, and only a published Score has a last landing. */
  lemma LiveIsPublished(p: Probe, rows: seq<OfferRow>, scores: ScoresUpkeep)
    ensures EvaluateLive(p, rows, scores).live <==>
              Published(p) && scores.status == "live" && Answer(rows, p).Some?
    ensures EvaluateLive(p, rows, scores).relay ==
              if Answer(rows, p).Some? then Some(rows[Answer(rows, p).value].relay) else None
    ensures var down := Answer(rows, p).Some? && !(Published(p) && scores.status == "live");
            && EvaluateLive(p, rows, scores).reason == (if down then Some(WhyDown(p, scores)) else None)
            && EvaluateLive(p, rows, scores).lastLandedAt == if down && Published(p) then scores.lastLandedAt else None
  {
  }

  // --- Self-entries ---

  datatype Entry = Entry(key: Key, relay: string)

  function EntryKeys(chosen: seq<Entry>): (keys: seq<Key>)
    ensures |keys| == |chosen| && forall i :: 0 <= i < |chosen| ==> keys[i] == chosen[i].key
  {
    seq(|chosen|, i requires 0 <= i < |chosen| => chosen[i].key)
  }

  predicate LiveAt(live: map<Probe, Live>, p: Probe, relay: string) {
    p in live && live[p].live && live[p].relay == Some(relay)
  }

  /** `e` is the most specific of the chosen entries that match `p`. */
  ghost predicate Wins(chosen: seq<Entry>, p: Probe, e: Entry) {
    && e in chosen && Matches(e.key, p)
    && forall f :: f in chosen && Matches(f.key, p) ==> !MoreSpecific(f.key, e.key)
  }

  /** Every duty the chosen entries speak of is live at the relay its most specific entry names. */
  ghost predicate Sound(chosen: seq<Entry>, duties: seq<Duty>, live: map<Probe, Live>) {
    forall d, e :: d in duties && d.duty && Wins(chosen, d.probe, e) ==> LiveAt(live, d.probe, e.relay)
  }

  /** What is kept of each entry: a parsed key, the relay of the row covering it, a live duty it speaks of. */
  ghost predicate Founded(e: Entry, duties: seq<Duty>, live: map<Probe, Live>, rows: seq<OfferRow>) {
    && Shaped(e.key) && Rooted(e.key, duties)
    && Covering(rows, e.key).Some? && rows[Covering(rows, e.key).value].relay == e.relay
    && exists d :: d in duties && d.duty && Matches(e.key, d.probe) && LiveAt(live, d.probe, e.relay)
  }

  /** A key over several kinds names only regions the probes know. */
  ghost predicate Rooted(k: Key, duties: seq<Duty>) {
    k.scope.Metric? && |k.kinds| != 1 ==>
      forall kind :: kind in k.kinds ==> exists d :: d in duties && d.probe == Probe(kind, k.scope)
  }

  ghost predicate AllFounded(chosen: seq<Entry>, duties: seq<Duty>, live: map<Probe, Live>, rows: seq<OfferRow>) {
    forall e :: e in chosen ==> Founded(e, duties, live, rows)
  }

  ghost predicate DistinctNorms(chosen: seq<Entry>) {
    forall i, j :: 0 <= i < j < |chosen| ==> chosen[i].key.norm != chosen[j].key.norm
  }

  ghost predicate Claimed(chosen: seq<Entry>, p: Probe) {
    exists e :: e in chosen && Matches(e.key, p)
  }

  predicate Has(chosen: seq<Entry>, norm: string) {
    exists i :: 0 <= i < |chosen| && chosen[i].key.norm == norm
  }

  /** Would the candidate, added last, win this probe? */
  predicate WouldWin(chosen: seq<Entry>, candidate: Key, p: Probe) {
    Winner(EntryKeys(chosen) + [candidate], p) == Some(|chosen|)
  }

  lemma WouldWinIs(chosen: seq<Entry>, candidate: Key, p: Probe)
    ensures WouldWin(chosen, candidate, p) <==>
              Matches(candidate, p)
              && forall f :: f in chosen && Matches(f.key, p) ==> MoreSpecific(candidate, f.key)
  {
    var keys := EntryKeys(chosen);
    var sel := (k: Key) => Matches(k, p);
    assert (keys + [candidate])[..|keys|] == keys;
    BestByIsMostSpecific(keys, sel);
    var best := BestBy(keys, sel);
    assert forall f :: f in chosen ==> f.key in keys;
    if best.Some? && MoreSpecific(candidate, keys[best.value]) {
      forall f | f in chosen && Matches(f.key, p) ensures MoreSpecific(candidate, f.key) {
        CompareKeysCotransitive(candidate, f.key, keys[best.value]);
      }
    }
    if best.Some? {
      assert chosen[best.value] in chosen;
    }
  }

  ghost predicate ValidEntry(chosen: seq<Entry>, c: Key, relay: string, duties: seq<Duty>, live: map<Probe, Live>) {
    && (forall d :: d in duties && d.duty && WouldWin(chosen, c, d.probe) ==> LiveAt(live, d.probe, relay))
    && exists d :: d in duties && d.duty && WouldWin(chosen, c, d.probe)
  }

  method Valid(chosen: seq<Entry>, c: Key, relay: string, duties: seq<Duty>, live: map<Probe, Live>)
      returns (ok: bool)
    ensures ok <==> ValidEntry(chosen, c, relay, duties, live)
  {
    var speaks := false;
    for i := 0 to |duties|
      invariant forall d :: d in duties[..i] && d.duty && WouldWin(chosen, c, d.probe) ==> LiveAt(live, d.probe, relay)
      invariant speaks <==> exists d :: d in duties[..i] && d.duty && WouldWin(chosen, c, d.probe)
    {
      var d := duties[i];
      assert duties[..i + 1] == duties[..i] + [d];
      if d.duty && Matches(c, d.probe) {
        var w := MostSpecific(EntryKeys(chosen) + [c], k => Matches(k, d.probe));
        if w == Some(|chosen|) {
          if !LiveAt(live, d.probe, relay) {
            assert d in duties;
            return false;
          }
          speaks := true;
        }
      }
    }
    assert duties[..|duties|] == duties;
    return speaks;
  }

  /** What every step of the greedy loop keeps. */
  ghost predicate Kept(chosen: seq<Entry>, duties: seq<Duty>, live: map<Probe, Live>, rows: seq<OfferRow>) {
    Sound(chosen, duties, live) && AllFounded(chosen, duties, live, rows) && DistinctNorms(chosen)
  }

  /** A more specific entry may take an insight from an earlier one; whoever wins it then is live there. */
  lemma AddedEntrySound(chosen: seq<Entry>, e: Entry, d: Duty, f: Entry, live: map<Probe, Live>)
    requires forall g :: g in chosen ==> CompareKeys(e.key, g.key) != 0
    requires forall g :: Wins(chosen, d.probe, g) ==> LiveAt(live, d.probe, g.relay)
    requires WouldWin(chosen, e.key, d.probe) ==> LiveAt(live, d.probe, e.relay)
    requires Wins(chosen + [e], d.probe, f)
    ensures LiveAt(live, d.probe, f.relay)
  {
    assert forall g :: g in chosen ==> g in chosen + [e];
    if f in chosen {
      assert Wins(chosen, d.probe, f);
    } else {
      WouldWinIs(chosen, e.key, d.probe);
      forall g | g in chosen && Matches(g.key, d.probe) ensures MoreSpecific(e.key, g.key) {
        CompareKeysAntisymmetric(g.key, e.key);
      }
    }
  }

  lemma AddValidEntry(chosen: seq<Entry>, e: Entry, duties: seq<Duty>, live: map<Probe, Live>, rows: seq<OfferRow>)
    requires Kept(chosen, duties, live, rows)
    requires Shaped(e.key) && Rooted(e.key, duties) && !Has(chosen, e.key.norm)
    requires Covering(rows, e.key).Some? && rows[Covering(rows, e.key).value].relay == e.relay
    requires ValidEntry(chosen, e.key, e.relay, duties, live)
    ensures Kept(chosen + [e], duties, live, rows)
  {
    assert Sound(chosen + [e], duties, live) by {
      forall g | g in chosen ensures CompareKeys(e.key, g.key) != 0 {
        assert Founded(g, duties, live, rows);
        CompareKeysTotalOrder(e.key, g.key);
      }
      forall d, f | d in duties && d.duty && Wins(chosen + [e], d.probe, f) ensures LiveAt(live, d.probe, f.relay) {
        AddedEntrySound(chosen, e, d, f, live);
      }
    }
    assert Founded(e, duties, live, rows) by {
      var d :| d in duties && d.duty && WouldWin(chosen, e.key, d.probe);
      WouldWinIs(chosen, e.key, d.probe);
    }
    assert DistinctNorms(chosen + [e]);
  }

  method TryKey(before: seq<Entry>, candidate: Option<Key>, duties: seq<Duty>, live: map<Probe, Live>,
                rows: seq<OfferRow>) returns (chosen: seq<Entry>, ok: bool)
    requires Kept(before, duties, live, rows)
    requires candidate.Some? ==> Shaped(candidate.value) && Rooted(candidate.value, duties)
    ensures Kept(chosen, duties, live, rows)
    ensures before <= chosen
    ensures ok ==> candidate.Some? && exists e :: e in chosen && e.key == candidate.value
    ensures !ok ==> chosen == before
    ensures !ok && candidate.Some? && Covering(rows, candidate.value).Some? ==>
              || Has(before, candidate.value.norm)
              || !ValidEntry(before, candidate.value, rows[Covering(rows, candidate.value).value].relay, duties, live)
  {
    chosen, ok := before, false;
    if candidate.None? || Has(before, candidate.value.norm) {
      return;
    }
    var c := candidate.value;
    var row := MostSpecific(RowKeys(rows), r => Covers(r, c));
    if row.None? {
      return;
    }
    var valid := Valid(before, c, rows[row.value].relay, duties, live);
    if !valid {
      return;
    }
    var e := Entry(c, rows[row.value].relay);
    AddValidEntry(before, e, duties, live, rows);
    chosen, ok := before + [e], true;
    assert e in chosen;
  }
}
