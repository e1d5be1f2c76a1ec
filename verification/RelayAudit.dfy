/** The relay audit (app/services/relay_audit_service.py): a divide-and-conquer download of the observer's d tags,
    counting instead the seconds too dense to download, and the arithmetic of what is missing and orphaned. */
module RelayAudit {
  import opened Numbers
  import opened Sorting

  type DTag = string

  /** The observer's assertions on the relay, by d tag, with their time: one each, as they are addressable. */
  type Relay = map<DTag, int>

  const WINDOW_EVENTS: nat := 20_000
  const MAX_SECOND_EVENTS: nat := 40_000
  const D_TAG_CHUNK: nat := 500
  const EXACT_DENSE_CANDIDATES: nat := 5_000
  const DENSE_SAMPLE: nat := 500

  datatype Audit = Audit(expected: nat, published: nat, baselineDrift: nat, onRelay: nat, missing: int, orphans: int, exact: bool)

  // --- Windows of time ---

  function Window(relay: Relay, since: int, until: int): set<DTag> {
    set d | d in relay && since <= relay[d] <= until
  }

  predicate DenseSecond(relay: Relay, t: int) {
    |Window(relay, t, t)| > MAX_SECOND_EVENTS
  }

  /** What can be downloaded of a window: all but its dense seconds. */
  function Downloadable(relay: Relay, since: int, until: int): set<DTag> {
    set d | d in relay && since <= relay[d] <= until && !DenseSecond(relay, relay[d])
  }

  /** How many events each dense second of a window holds, earliest first. */
  function DenseCounts(relay: Relay, since: int, until: int): seq<nat>
    decreases until - since
  {
    if since > until then []
    else
      (if DenseSecond(relay, since) then [|Window(relay, since, since)|] else []) + DenseCounts(relay, since + 1, until)
  }

  function Sum(xs: seq<nat>): nat {
    if xs == [] then 0 else xs[0] + Sum(xs[1..])
  }

  lemma SubsetSize<T>(a: set<T>, b: set<T>)
    requires a <= b
    ensures |a| <= |b|
    ensures |a| == |b| ==> a == b
  {
    assert b == a + (b - a);
    assert |b| == |a| + |b - a|;
  }

  lemma {:induction false} DenseSplit(relay: Relay, since: int, mid: int, until: int)
    requires since <= mid + 1 <= until + 1
    ensures DenseCounts(relay, since, until) == DenseCounts(relay, since, mid) + DenseCounts(relay, mid + 1, until)
    decreases mid - since
  {
    if since <= mid {
      DenseSplit(relay, since + 1, mid, until);
    }
  }

  /** A window small enough to download has no dense second. */
  lemma {:induction false} SmallNotDense(relay: Relay, since: int, until: int, a: int)
    requires since <= a && |Window(relay, since, until)| <= MAX_SECOND_EVENTS
    ensures DenseCounts(relay, a, until) == []
    ensures forall d :: d in Window(relay, a, until) ==> !DenseSecond(relay, relay[d])
    decreases until - a
  {
    if a <= until {
      SubsetSize(Window(relay, a, a), Window(relay, since, until));
      SmallNotDense(relay, since, until, a + 1);
    }
  }

  /** The first second of a window, and the rest. */
  lemma FirstSecond(relay: Relay, since: int, until: int)
    requires since <= until
    ensures |Window(relay, since, until)| == |Window(relay, since, since)| + |Window(relay, since + 1, until)|
    ensures |Downloadable(relay, since, until)| ==
            |Downloadable(relay, since + 1, until)| + if DenseSecond(relay, since) then 0 else |Window(relay, since, since)|
  {
    var w := Window(relay, since, since);
    var all, rest := Window(relay, since, until), Window(relay, since + 1, until);
    assert all == w + rest && w !! rest;
    var some, later := Downloadable(relay, since, until), Downloadable(relay, since + 1, until);
    assert w !! later;
    assert some == if DenseSecond(relay, since) then later else w + later;
  }

  /** Downloaded and dense account for every event of a window. */
  lemma {:induction false} WindowAccounted(relay: Relay, since: int, until: int)
    ensures |Downloadable(relay, since, until)| + Sum(DenseCounts(relay, since, until)) == |Window(relay, since, until)|
    decreases until - since
  {
    if since > until {
      assert Window(relay, since, until) == {} && Downloadable(relay, since, until) == {};
    } else {
      WindowAccounted(relay, since + 1, until);
      FirstSecond(relay, since, until);
      SumFirst(if DenseSecond(relay, since) then [|Window(relay, since, since)|] else [], DenseCounts(relay, since + 1, until));
    }
  }

  lemma SumFirst(xs: seq<nat>, ys: seq<nat>)
    requires |xs| <= 1
    ensures Sum(xs + ys) == Sum(ys) + if xs == [] then 0 else xs[0]
  {
    if xs == [] {
      assert xs + ys == ys;
    } else {
      assert (xs + ys)[1..] == ys;
    }
  }

  lemma Between(since: int, until: int)
    requires since < until
    ensures since <= (since + until) / 2 < until
  {
  }

  lemma WindowSplits(relay: Relay, since: int, mid: int, until: int)
    requires since <= mid < until
    ensures Downloadable(relay, since, until) == Downloadable(relay, since, mid) + Downloadable(relay, mid + 1, until)
  {
  }

  /** What walking a window does: all it can download is added, and each dense second's count appended. */
  ghost predicate Walked(relay: Relay, since: int, until: int, into: set<DTag>, dense: seq<nat>, into': set<DTag>, dense': seq<nat>) {
    into' == into + Downloadable(relay, since, until) && dense' == dense + DenseCounts(relay, since, until)
  }

  lemma WalkedOn(relay: Relay, since: int, mid: int, until: int, a: set<DTag>, x: seq<nat>, b: set<DTag>, y: seq<nat>,
                 c: set<DTag>, z: seq<nat>)
    requires since <= mid < until && Walked(relay, since, mid, a, x, b, y) && Walked(relay, mid + 1, until, b, y, c, z)
    ensures Walked(relay, since, until, a, x, c, z)
  {
    WindowSplits(relay, since, mid, until);
    DenseSplit(relay, since, mid, until);
  }

  /** Some `k` of the elements, in no particular order: what a relay honouring `limit` sends, or a sample. */
  method SomeOf(from: set<DTag>, k: nat) returns (r: set<DTag>)
    ensures r <= from && |r| == if k < |from| then k else |from|
  {
    r := {};
    var rest := from;
    while |r| < k && rest != {}
      invariant r + rest == from && r !! rest && |r| <= k
      decreases rest
    {
      var d :| d in rest;
      r, rest := r + {d}, rest - {d};
    }
    assert |from| == |r| + |rest|;
  }

  class Reader {
    const relay: Relay
    var into: set<DTag>
    var dense: seq<nat>

    constructor (relay: Relay)
      ensures this.relay == relay && into == {} && dense == []
    {
      this.relay, into, dense := relay, {}, [];
    }

    /** A window that fits one download, or a single second. */
    method Fetch(since: int, until: int, n: nat)
      requires since <= until && n == |Window(relay, since, until)| && (n <= WINDOW_EVENTS || since == until)
      modifies this
      ensures Walked(relay, since, until, old(into), old(dense), into, dense)
    {
      if n > MAX_SECOND_EVENTS {
        assert DenseCounts(relay, since + 1, until) == [];
        assert Downloadable(relay, since, until) == {};
        dense := dense + [n];
        return;
      }
      SmallNotDense(relay, since, until, since);
      assert Downloadable(relay, since, until) == Window(relay, since, until);
      var got := SomeOf(Window(relay, since, until), n);
      SubsetSize(got, Window(relay, since, until));
      into := into + got;
    }

    /** Download the window or count it: every event of it ends up in `into` or in a dense second. */
    method Walk(since: int, until: int, n: nat)
      requires since <= until && n == |Window(relay, since, until)|
      modifies this
      ensures Walked(relay, since, until, old(into), old(dense), into, dense)
      decreases until - since
    {
      if n == 0 {
        SmallNotDense(relay, since, until, since);
        assert Downloadable(relay, since, until) <= Window(relay, since, until);
        return;
      }
      if n <= WINDOW_EVENTS || since == until {
        Fetch(since, until, n);
        return;
      }
      var mid := (since + until) / 2;
      Between(since, until);
      Walk(since, mid, |Window(relay, since, mid)|);
      ghost var half, counted := into, dense;
      Walk(mid + 1, until, |Window(relay, mid + 1, until)|);
      WalkedOn(relay, since, mid, until, old(into), old(dense), half, counted, into, dense);
    }
  }

  // --- What the dense seconds hold of the expected ---

  /** `COUNT` of the events whose d tag is among these. */
  function CountTags(relay: Relay, ds: seq<DTag>): nat {
    |Hits(relay, ds)|
  }

  function Hits(relay: Relay, ds: seq<DTag>): set<DTag> {
    set d | d in ds && d in relay
  }

  lemma CountSplits(relay: Relay, ds: seq<DTag>, i: nat, j: nat)
    requires Distinct(ds) && i <= j <= |ds|
    ensures CountTags(relay, ds[..j]) == CountTags(relay, ds[..i]) + CountTags(relay, ds[i..j])
  {
    var a, b := Hits(relay, ds[..i]), Hits(relay, ds[i..j]);
    assert ds[..j] == ds[..i] + ds[i..j];
    assert Hits(relay, ds[..j]) == a + b;
    forall d | d in a ensures d !in b {
      var k :| 0 <= k < i && ds[k] == d;
      assert forall l :: i <= l < j ==> ds[l] != ds[k];
    }
  }

  /** An estimate from some sample of the candidates: their number times the sample's share with an assertion,
      rounded to the nearest. */
  ghost predicate EstimatedBy(relay: Relay, candidates: set<DTag>, sample: set<DTag>, present: int) {
    && sample <= candidates && |sample| == DENSE_SAMPLE
    && Nearest(|candidates| as real * |sample * relay.Keys| as real / DENSE_SAMPLE as real, present)
  }

  lemma ShareOf(n: nat, hits: nat)
    ensures n as real * hits as real / DENSE_SAMPLE as real >= 0.0
  {
    assert n as real * hits as real == (n * hits) as real;
  }

  /** `round(len(candidates) * len(found & set(sample)) / len(sample))` */
  method SampleDense(relay: Relay, candidates: set<DTag>) returns (present: nat, sample: set<DTag>)
    requires |candidates| > DENSE_SAMPLE
    ensures EstimatedBy(relay, candidates, sample, present)
  {
    sample := SomeOf(candidates, DENSE_SAMPLE);
    var found := SomeOf((set d | d in sample && d in relay), DENSE_SAMPLE);
    AllFound(relay, sample, found);
    var share := |candidates| as real * |found * sample| as real / DENSE_SAMPLE as real;
    ShareOf(|candidates|, |found * sample|);
    present := RoundHalfEven(share);
  }

  /** How many candidates have an assertion: counted chunk by chunk when few, else estimated from a sample. */
  method DensePresent(relay: Relay, candidates: seq<DTag>) returns (present: nat, exact: bool, ghost sample: set<DTag>)
    requires Distinct(candidates)
    ensures exact <==> |candidates| <= EXACT_DENSE_CANDIDATES
    ensures exact ==> present == CountTags(relay, candidates)
    ensures !exact ==> EstimatedBy(relay, (set d | d in candidates), sample, present)
  {
    exact, sample := |candidates| <= EXACT_DENSE_CANDIDATES, {};
    if exact {
      present := CountChunks(relay, candidates);
    } else {
      DistinctSize(candidates);
      present, sample := SampleDense(relay, (set d | d in candidates));
    }
  }

  method CountChunks(relay: Relay, candidates: seq<DTag>) returns (present: nat)
    requires Distinct(candidates)
    ensures present == CountTags(relay, candidates)
  {
    present := 0;
    var i := 0;
    while i < |candidates|
      invariant i <= |candidates| && present == CountTags(relay, candidates[..i])
    {
      var j := if i + D_TAG_CHUNK < |candidates| then i + D_TAG_CHUNK else |candidates|;
      CountSplits(relay, candidates, i, j);
      present := present + CountTags(relay, candidates[i..j]);
      i := j;
    }
    assert candidates[..|candidates|] == candidates;
  }

  lemma {:induction false} DistinctSize(ds: seq<DTag>)
    requires Distinct(ds)
    ensures |(set d | d in ds)| == |ds|
  {
    if ds != [] {
      var n := |ds| - 1;
      DistinctSize(ds[..n]);
      assert (set d | d in ds) == (set d | d in ds[..n]) + {ds[n]};
    }
  }

  /** No more are asked for than may come back, so all that are there do. */
  lemma AllFound(relay: Relay, asked: set<DTag>, found: set<DTag>)
    requires |asked| <= DENSE_SAMPLE
    requires var there := set d | d in asked && d in relay;
             found <= there && |found| == if DENSE_SAMPLE < |there| then DENSE_SAMPLE else |there|
    ensures found * asked == asked * relay.Keys
  {
    var there := set d | d in asked && d in relay;
    SubsetSize(there, asked);
    SubsetSize(found, there);
  }

  /** The candidates in some order, each once. */
  method Listed(s: set<DTag>) returns (r: seq<DTag>)
    ensures Distinct(r) && |r| == |s| && forall d :: d in r <==> d in s
  {
    r := [];
    var rest := s;
    while rest != {}
      invariant rest <= s && Distinct(r) && |r| + |rest| == |s| && forall d :: d in r <==> d in s && d !in rest
      decreases rest
    {
      var d :| d in rest;
      r, rest := r + [d], rest - {d};
    }
  }

  function Min(a: nat, b: nat): nat {
    if a < b then a else b
  }

  datatype RelayView = RelayView(total: nat, dTags: set<DTag>, denseEvents: nat, densePresent: nat, exact: bool)

  /** All that is downloaded, and how many events the dense seconds hold: together, the whole relay. */
  method Download(relay: Relay, until: int) returns (dTags: set<DTag>, dense: seq<nat>)
    requires 0 <= until && forall d :: d in relay ==> 0 <= relay[d] <= until
    ensures dTags == Downloadable(relay, 0, until) && dTags <= relay.Keys
    ensures dense == DenseCounts(relay, 0, until) && |dTags| + Sum(dense) == |relay.Keys|
  {
    assert Window(relay, 0, until) == relay.Keys;
    var reader := new Reader(relay);
    reader.Walk(0, until, |Window(relay, 0, until)|);
    WindowAccounted(relay, 0, until);
    dTags, dense := reader.into, reader.dense;
  }

  /** Such an estimate, cut to what either side holds. */
  ghost predicate Estimated(relay: Relay, candidates: set<DTag>, dense: nat, present: nat) {
    exists sample, estimate: nat :: EstimatedBy(relay, candidates, sample, estimate)
                                    && present == Min(estimate, Min(dense, |candidates|))
  }

  /** How many of the expected the dense seconds hold, never more than either side. */
  method CountDense(relay: Relay, dTags: set<DTag>, dense: nat, expected: set<DTag>) returns (present: nat, exact: bool)
    requires dTags <= relay.Keys && |dTags| + dense == |relay.Keys|
    ensures present <= dense && present <= |expected - dTags|
    ensures exact <==> |expected - dTags| <= EXACT_DENSE_CANDIDATES
    ensures exact ==> present == |expected * (relay.Keys - dTags)|
    ensures !exact ==> Estimated(relay, expected - dTags, dense, present)
  {
    var candidates := Listed(expected - dTags);
    assert (set d | d in candidates) == expected - dTags;
    ghost var sample;
    present, exact, sample := DensePresent(relay, candidates);
    ghost var estimate := present;
    ExactPresent(relay, dTags, expected, candidates, dense);
    present := Min(present, Min(dense, |candidates|));
    assert !exact ==> EstimatedBy(relay, expected - dTags, sample, estimate);
  }

  /** A read of the relay: the downloaded d tags and the dense events are all there is, and the presence count
      is within what either side holds. */
  method ReadRelay(relay: Relay, until: int, expected: set<DTag>) returns (v: RelayView)
    requires 0 <= until && forall d :: d in relay ==> 0 <= relay[d] <= until
    ensures v.total == |relay.Keys| && v.dTags == Downloadable(relay, 0, until) && v.dTags <= relay.Keys
    ensures |v.dTags| + v.denseEvents == v.total
    ensures v.densePresent <= v.denseEvents && v.densePresent <= |expected - v.dTags|
    ensures v.exact ==> v.densePresent == |expected * (relay.Keys - v.dTags)|
    ensures !v.exact ==> Estimated(relay, expected - v.dTags, v.denseEvents, v.densePresent)
    ensures v.exact <==> DenseCounts(relay, 0, until) == [] || |expected - v.dTags| <= EXACT_DENSE_CANDIDATES
  {
    var dTags, dense := Download(relay, until);
    var present, exact := 0, true;
    if dense != [] {
      present, exact := CountDense(relay, dTags, Sum(dense), expected);
    } else {
      SubsetSize(dTags, relay.Keys);
      assert expected * (relay.Keys - dTags) == {};
    }
    v := RelayView(|relay.Keys|, dTags, Sum(dense), present, exact);
  }

  /** The audit. In exact mode it finds exactly the expected observees without an assertion and exactly the
      assertions nobody expects; in both modes neither count is negative, and the two sides agree on how many
      are expected and present. */
  method AuditRelay(relay: Relay, until: int, expected: set<DTag>, published: set<DTag>) returns (a: Audit)
    requires 0 <= until && forall d :: d in relay ==> 0 <= relay[d] <= until
    ensures a.expected == |expected| && a.published == |published| && a.onRelay == |relay.Keys|
    ensures a.baselineDrift == |(expected - published) + (published - expected)|
    ensures a.exact ==> a.missing == |expected - relay.Keys| && a.orphans == |relay.Keys - expected|
    ensures a.missing >= 0 && a.orphans >= 0
    ensures a.expected - a.missing == a.onRelay - a.orphans
    ensures a.exact <==> DenseCounts(relay, 0, until) == [] || |expected - Downloadable(relay, 0, until)| <= EXACT_DENSE_CANDIDATES
    ensures !a.exact ==>
              var got := Downloadable(relay, 0, until);
              var present := |expected - got| - a.missing;
              present >= 0 && |got| <= |relay.Keys| && Estimated(relay, expected - got, |relay.Keys| - |got|, present)
  {
    var v := ReadRelay(relay, until, expected);
    Balance(relay.Keys, v.dTags, expected, v.denseEvents, v.densePresent);
    a := Audit(|expected|, |published|, |(expected - published) + (published - expected)|, v.total,
               |expected - v.dTags| - v.densePresent, |v.dTags - expected| + v.denseEvents - v.densePresent, v.exact);
  }

  lemma SetParts<T>(a: set<T>, b: set<T>)
    ensures |a| == |a * b| + |a - b|
  {
    assert a == a * b + (a - b);
  }

  lemma ExactPresent(relay: Relay, dTags: set<DTag>, expected: set<DTag>, candidates: seq<DTag>, dense: nat)
    requires dTags <= relay.Keys && |dTags| + dense == |relay.Keys|
    requires |candidates| == |expected - dTags| && forall d :: d in candidates <==> d in expected - dTags
    ensures CountTags(relay, candidates) == |expected * (relay.Keys - dTags)|
    ensures CountTags(relay, candidates) <= dense && CountTags(relay, candidates) <= |candidates|
  {
    var hits, rest := Hits(relay, candidates), relay.Keys - dTags;
    assert hits == expected * rest;
    SubsetSize(hits, rest);
    SubsetSize(hits, expected - dTags);
    SetParts(relay.Keys, dTags);
    assert relay.Keys * dTags == dTags;
  }

  /** Where the presence count is exact, so are missing and orphans; the balance holds for any count. */
  lemma Balance(keys: set<DTag>, dTags: set<DTag>, expected: set<DTag>, dense: nat, present: nat)
    requires dTags <= keys && |dTags| + dense == |keys|
    ensures |expected| - (|expected - dTags| - present) == |keys| - (|dTags - expected| + dense - present)
    ensures present == |expected * (keys - dTags)| ==>
              && |expected - dTags| - present == |expected - keys|
              && |dTags - expected| + dense - present == |keys - expected|
  {
    var rest := keys - dTags;
    SetParts(keys, dTags);
    assert keys * dTags == dTags;
    SetParts(expected, dTags);
    SetParts(dTags, expected);
    assert dTags * expected == expected * dTags;
    SetParts(expected - dTags, keys);
    assert (expected - dTags) * keys == expected * rest && (expected - dTags) - keys == expected - keys;
    SetParts(keys - expected, dTags);
    assert (keys - expected) * dTags == dTags - expected && (keys - expected) - dTags == rest - expected;
    SetParts(rest, expected);
    assert rest * expected == expected * rest;
  }
}
