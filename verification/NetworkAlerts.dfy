/** Network alerts (app/services/network_alerts_service.py): pubkeys reported more than their reach justifies,
    where missing follower counts are counted from the graph only up to a cap. */
module NetworkAlerts {
  import opened Text
  import opened Sorting

  type Pubkey = string

  const BASE_REPORTER_THRESHOLD: int := 4
  const FOLLOWERS_PER_EXTRA_REPORT: int := 500
  const MIN_ALERT_REPORTERS: int := BASE_REPORTER_THRESHOLD + 1

  datatype Candidate = Candidate(pubkey: Pubkey, reporters: int, stored: Option<int>, influence: Option<real>, direct: bool)

  /** The verified followers each pubkey has in the graph, in full. */
  type Graph = map<Pubkey, nat>

  type Counts = map<Pubkey, int>

  datatype Alert = Alert(row: Candidate, followers: int)

  function Threshold(followers: int): int {
    BASE_REPORTER_THRESHOLD + followers / FOLLOWERS_PER_EXTRA_REPORT
  }

  function CapFor(reporters: int): int {
    FOLLOWERS_PER_EXTRA_REPORT * (reporters - BASE_REPORTER_THRESHOLD)
  }

  /** A pubkey alerts with fewer than 500 followers for every reporter beyond four; so counting past the cap
      cannot change the verdict. */
  lemma CapDecides(reporters: int, followers: int)
    ensures reporters > Threshold(followers) <==> followers < 500 * (reporters - 4)
    ensures reporters > Threshold(followers) <==> followers < CapFor(reporters)
  {
    var q, r := followers / 500, followers % 500;
    assert followers == 500 * q + r && 0 <= r < 500;
  }

  /** The count a row is judged by, uncapped: the stored one, else the graph's. */
  function FullCount(graph: Graph, c: Candidate): Option<int> {
    if c.stored.Some? then c.stored
    else if c.pubkey in graph then Some(graph[c.pubkey])
    else None
  }

  predicate Alerting(graph: Graph, c: Candidate) {
    FullCount(graph, c).Some? && c.reporters > Threshold(FullCount(graph, c).value)
  }

  ghost predicate Keyed(cs: seq<Candidate>) {
    forall i, j :: 0 <= i < j < |cs| ==> cs[i].pubkey != cs[j].pubkey
  }

  ghost predicate Prefiltered(cs: seq<Candidate>) {
    forall i :: 0 <= i < |cs| ==> cs[i].reporters >= MIN_ALERT_REPORTERS
  }

  // --- Follower counts ---

  /** What the graph counts, stopping at the cap; nothing where no row comes back. */
  function CappedCount(graph: Graph, cap: int, p: Pubkey): Option<int>
    requires cap > 0
  {
    if p !in graph then None else if graph[p] < cap then Some(graph[p]) else Some(cap)
  }

  type Buckets = map<int, seq<Pubkey>>

  /** A row whose count is to be taken from the graph up to `cap`. */
  predicate Missing(c: Candidate, cap: int) {
    c.stored.None? && CapFor(c.reporters) == cap
  }

  ghost predicate InBucket(cs: seq<Candidate>, cap: int, p: Pubkey) {
    exists i :: 0 <= i < |cs| && cs[i].pubkey == p && Missing(cs[i], cap)
  }

  /** Stored counts are taken as they are, and every other row waits in the bucket of its cap. */
  ghost predicate Bucketed(cs: seq<Candidate>, resolved: Counts, buckets: Buckets) {
    && (forall i :: 0 <= i < |cs| && cs[i].stored.Some? ==> cs[i].pubkey in resolved && resolved[cs[i].pubkey] == cs[i].stored.value)
    && (forall p :: p in resolved ==> exists i :: 0 <= i < |cs| && cs[i].pubkey == p && cs[i].stored.Some?)
    && (forall i :: 0 <= i < |cs| && cs[i].stored.None? ==> CapFor(cs[i].reporters) in buckets)
    && (forall cap :: cap in buckets ==> BucketExact(cs, cap, buckets[cap]))
  }

  ghost predicate BucketExact(cs: seq<Candidate>, cap: int, bucket: seq<Pubkey>) {
    forall p :: p in bucket <==> InBucket(cs, cap, p)
  }

  method BucketByCap(cs: seq<Candidate>) returns (resolved: Counts, buckets: Buckets)
    requires Keyed(cs) && Prefiltered(cs)
    ensures Bucketed(cs, resolved, buckets) && forall cap :: cap in buckets ==> cap >= FOLLOWERS_PER_EXTRA_REPORT
  {
    resolved, buckets := map[], map[];
    for i := 0 to |cs|
      invariant Bucketed(cs[..i], resolved, buckets)
      invariant forall cap :: cap in buckets ==> cap >= FOLLOWERS_PER_EXTRA_REPORT
    {
      var c := cs[i];
      assert cs[..i + 1] == cs[..i] + [c];
      assert forall j :: 0 <= j < i ==> cs[..i][j].pubkey != c.pubkey;
      if c.stored.Some? {
        StoredNext(cs[..i], c, resolved, buckets);
        resolved := resolved[c.pubkey := c.stored.value];
      } else {
        var cap := CapFor(c.reporters);
        MissingNext(cs[..i], c, resolved, buckets);
        buckets := buckets[cap := (if cap in buckets then buckets[cap] else []) + [c.pubkey]];
      }
    }
    assert cs[..|cs|] == cs;
  }

  lemma InBucketNext(cs: seq<Candidate>, c: Candidate, cap: int, p: Pubkey)
    ensures InBucket(cs + [c], cap, p) <==> InBucket(cs, cap, p) || (c.pubkey == p && Missing(c, cap))
  {
    var cs' := cs + [c];
    assert cs'[|cs|] == c;
    if InBucket(cs, cap, p) {
      var i :| 0 <= i < |cs| && cs[i].pubkey == p && Missing(cs[i], cap);
      assert cs'[i] == cs[i];
    }
    if InBucket(cs', cap, p) {
      var i :| 0 <= i < |cs'| && cs'[i].pubkey == p && Missing(cs'[i], cap);
      assert i < |cs| ==> cs[i] == cs'[i];
    }
  }

  lemma ExactNext(cs: seq<Candidate>, c: Candidate, cap: int, bucket: seq<Pubkey>)
    requires BucketExact(cs, cap, bucket)
    ensures BucketExact(cs + [c], cap, if Missing(c, cap) then bucket + [c.pubkey] else bucket)
  {
    forall p ensures InBucket(cs + [c], cap, p) <==> InBucket(cs, cap, p) || (c.pubkey == p && Missing(c, cap)) {
      InBucketNext(cs, c, cap, p);
    }
  }

  lemma StoredNext(cs: seq<Candidate>, c: Candidate, resolved: Counts, buckets: Buckets)
    requires Bucketed(cs, resolved, buckets) && c.stored.Some? && forall j :: 0 <= j < |cs| ==> cs[j].pubkey != c.pubkey
    ensures Bucketed(cs + [c], resolved[c.pubkey := c.stored.value], buckets)
  {
    var cs' := cs + [c];
    forall cap | cap in buckets ensures BucketExact(cs', cap, buckets[cap]) {
      ExactNext(cs, c, cap, buckets[cap]);
    }
    var resolved' := resolved[c.pubkey := c.stored.value];
    forall p | p in resolved' ensures exists i :: 0 <= i < |cs'| && cs'[i].pubkey == p && cs'[i].stored.Some? {
      if p == c.pubkey {
        assert cs'[|cs|].pubkey == p;
      } else {
        var i :| 0 <= i < |cs| && cs[i].pubkey == p && cs[i].stored.Some?;
        assert cs'[i] == cs[i];
      }
    }
  }

  lemma MissingNext(cs: seq<Candidate>, c: Candidate, resolved: Counts, buckets: Buckets)
    requires Bucketed(cs, resolved, buckets) && c.stored.None?
    ensures var cap := CapFor(c.reporters);
            Bucketed(cs + [c], resolved, buckets[cap := (if cap in buckets then buckets[cap] else []) + [c.pubkey]])
  {
    var cs', cap := cs + [c], CapFor(c.reporters);
    var bucket := if cap in buckets then buckets[cap] else [];
    if cap !in buckets {
      assert forall i :: 0 <= i < |cs| && cs[i].stored.None? ==> CapFor(cs[i].reporters) in buckets;
      assert BucketExact(cs, cap, []);
    }
    ExactNext(cs, c, cap, bucket);
    forall k | k in buckets && k != cap ensures BucketExact(cs', k, buckets[k]) {
      ExactNext(cs, c, k, buckets[k]);
    }
    forall p | p in resolved ensures exists i :: 0 <= i < |cs'| && cs'[i].pubkey == p && cs'[i].stored.Some? {
      var i :| 0 <= i < |cs| && cs[i].pubkey == p && cs[i].stored.Some?;
      assert cs'[i] == cs[i];
    }
  }

  predicate CountsUp(graph: Graph, cap: int, p: Pubkey) {
    p in graph && graph[p] < cap
  }

  /** One bucket: the counts below the cap are true counts, and the others are left out. */
  method CountBucket(graph: Graph, cap: int, bucket: seq<Pubkey>, before: Counts) returns (resolved: Counts)
    requires cap > 0
    ensures forall p :: p in resolved <==> p in before || (p in bucket && CountsUp(graph, cap, p))
    ensures forall p :: p in resolved ==> resolved[p] == if p in bucket && CountsUp(graph, cap, p) then graph[p] else before[p]
  {
    resolved := before;
    for i := 0 to |bucket|
      invariant forall p :: p in resolved <==> p in before || (p in bucket[..i] && CountsUp(graph, cap, p))
      invariant forall p :: p in resolved ==> resolved[p] == if p in bucket[..i] && CountsUp(graph, cap, p) then graph[p] else before[p]
    {
      assert bucket[..i + 1] == bucket[..i] + [bucket[i]];
      var count := CappedCount(graph, cap, bucket[i]);
      if count.Some? && count.value < cap {
        resolved := resolved[bucket[i] := count.value];
      }
    }
    assert bucket[..|bucket|] == bucket;
  }

  /** A row is resolved to its full count exactly where that is stored, or was counted out below the cap. */
  ghost predicate RowResolved(graph: Graph, c: Candidate, resolved: Counts, done: bool) {
    && (c.pubkey in resolved <==> c.stored.Some? || (done && CountsUp(graph, CapFor(c.reporters), c.pubkey)))
    && (c.pubkey in resolved ==> FullCount(graph, c) == Some(resolved[c.pubkey]))
  }

  method AnyOf(caps: set<int>) returns (cap: int)
    requires caps != {}
    ensures cap in caps
  {
    assert (forall c :: c !in caps) ==> caps == {};
    cap :| cap in caps;
  }

  method ResolveFollowerCounts(graph: Graph, cs: seq<Candidate>) returns (resolved: Counts)
    requires Keyed(cs) && Prefiltered(cs)
    ensures forall i :: 0 <= i < |cs| ==> RowResolved(graph, cs[i], resolved, true)
  {
    var buckets;
    resolved, buckets := BucketByCap(cs);
    var rest: set<int> := buckets.Keys;
    assert forall i :: 0 <= i < |cs| ==> cs[i].pubkey in resolved ==> cs[i].stored.Some? by {
      OnlyStored(cs, resolved, buckets);
    }
    while rest != {}
      invariant rest <= buckets.Keys
      invariant forall i :: 0 <= i < |cs| ==> RowResolved(graph, cs[i], resolved, CapFor(cs[i].reporters) !in rest)
      decreases rest
    {
      var cap := AnyOf(rest);
      var before := resolved;
      resolved := CountBucket(graph, cap, buckets[cap], before);
      forall i | 0 <= i < |cs| ensures RowResolved(graph, cs[i], resolved, CapFor(cs[i].reporters) !in rest - {cap}) {
        OwnBucket(cs, i, cap, buckets[cap]);
        assert RowResolved(graph, cs[i], before, CapFor(cs[i].reporters) !in rest);
      }
      rest := rest - {cap};
    }
  }

  lemma OnlyStored(cs: seq<Candidate>, resolved: Counts, buckets: Buckets)
    requires Keyed(cs) && Bucketed(cs, resolved, buckets)
    ensures forall i :: 0 <= i < |cs| ==> cs[i].pubkey in resolved ==> cs[i].stored.Some?
  {
    forall i | 0 <= i < |cs| && cs[i].pubkey in resolved ensures cs[i].stored.Some? {
      var j :| 0 <= j < |cs| && cs[j].pubkey == cs[i].pubkey && cs[j].stored.Some?;
      assert i == j;
    }
  }

  lemma OwnBucket(cs: seq<Candidate>, i: nat, cap: int, bucket: seq<Pubkey>)
    requires Keyed(cs) && i < |cs| && BucketExact(cs, cap, bucket)
    ensures cs[i].pubkey in bucket <==> Missing(cs[i], cap)
  {
    if InBucket(cs, cap, cs[i].pubkey) {
      var j :| 0 <= j < |cs| && cs[j].pubkey == cs[i].pubkey && Missing(cs[j], cap);
      assert i == j;
    }
  }

  // --- The alerts ---

  function Passing(resolved: Counts, c: Candidate): bool {
    c.pubkey in resolved && c.reporters > Threshold(resolved[c.pubkey])
  }

  function AlertsOf(resolved: Counts, cs: seq<Candidate>): seq<Alert> {
    if cs == [] then []
    else
      var n := |cs| - 1;
      AlertsOf(resolved, cs[..n]) + if Passing(resolved, cs[n]) then [Alert(cs[n], resolved[cs[n].pubkey])] else []
  }

  /** The unbounded definition: every row whose full count leaves it above its threshold, with that count. */
  function FullAlerts(graph: Graph, cs: seq<Candidate>): seq<Alert> {
    if cs == [] then []
    else
      var n := |cs| - 1;
      FullAlerts(graph, cs[..n]) + if Alerting(graph, cs[n]) then [Alert(cs[n], FullCount(graph, cs[n]).value)] else []
  }

  /** Capped counting gives exactly the alerts the full counts would, each with its true count. */
  lemma {:induction false} CappedIsFull(graph: Graph, cs: seq<Candidate>, resolved: Counts)
    requires forall i :: 0 <= i < |cs| ==> RowResolved(graph, cs[i], resolved, true)
    ensures AlertsOf(resolved, cs) == FullAlerts(graph, cs)
  {
    if cs != [] {
      var n := |cs| - 1;
      CappedIsFull(graph, cs[..n], resolved);
      assert RowResolved(graph, cs[n], resolved, true);
      if FullCount(graph, cs[n]).Some? {
        CapDecides(cs[n].reporters, FullCount(graph, cs[n]).value);
      }
    }
  }

  // --- The two sections ---

  predicate DirectFirst(a: Alert, b: Alert) {
    a.row.reporters > b.row.reporters || (a.row.reporters == b.row.reporters && !Less(b.row.pubkey, a.row.pubkey))
  }

  function InfluenceOf(a: Alert): real {
    if a.row.influence.Some? then a.row.influence.value else 0.0
  }

  predicate ExtendedFirst(a: Alert, b: Alert) {
    InfluenceOf(a) > InfluenceOf(b) || (InfluenceOf(a) == InfluenceOf(b) && !Less(b.row.pubkey, a.row.pubkey))
  }

  lemma NotLessTransitive(a: string, b: string, c: string)
    requires !Less(b, a) && !Less(c, b)
    ensures !Less(c, a)
  {
    LessTrichotomy(a, b);
    LessTrichotomy(b, c);
    LessTrichotomy(a, c);
    if Less(a, b) && Less(b, c) {
      LessTransitive(a, b, c);
    }
  }

  lemma SectionOrders()
    ensures TotalPreorder(DirectFirst) && TotalPreorder(ExtendedFirst)
  {
    forall a: Alert, b: Alert ensures !Less(a.row.pubkey, b.row.pubkey) || !Less(b.row.pubkey, a.row.pubkey) {
      LessTrichotomy(a.row.pubkey, b.row.pubkey);
    }
    forall a, b, c | DirectFirst(a, b) && DirectFirst(b, c) ensures DirectFirst(a, c) {
      if a.row.reporters == b.row.reporters == c.row.reporters {
        NotLessTransitive(a.row.pubkey, b.row.pubkey, c.row.pubkey);
      }
    }
    forall a, b, c | ExtendedFirst(a, b) && ExtendedFirst(b, c) ensures ExtendedFirst(a, c) {
      if InfluenceOf(a) == InfluenceOf(b) == InfluenceOf(c) {
        NotLessTransitive(a.row.pubkey, b.row.pubkey, c.row.pubkey);
      }
    }
  }

  function Section(alerts: seq<Alert>, direct: bool): seq<Alert> {
    if alerts == [] then []
    else
      var n := |alerts| - 1;
      Section(alerts[..n], direct) + if alerts[n].row.direct == direct then [alerts[n]] else []
  }

  function Listing(alerts: seq<Alert>, direct: bool): seq<Alert> {
    Sort(if direct then DirectFirst else ExtendedFirst, Section(alerts, direct))
  }

  lemma {:induction false} SectionMembers(alerts: seq<Alert>, direct: bool, a: Alert)
    ensures a in Section(alerts, direct) <==> a in alerts && a.row.direct == direct
  {
    if alerts != [] {
      var n := |alerts| - 1;
      SectionMembers(alerts[..n], direct, a);
      assert alerts == alerts[..n] + [alerts[n]];
    }
  }

  lemma {:induction false} SectionSizes(alerts: seq<Alert>)
    ensures |Section(alerts, true)| + |Section(alerts, false)| == |alerts|
  {
    if alerts != [] {
      SectionSizes(alerts[..|alerts| - 1]);
    }
  }

  lemma {:induction false} FullAlertMembers(graph: Graph, cs: seq<Candidate>, a: Alert)
    ensures a in FullAlerts(graph, cs) <==> a.row in cs && Alerting(graph, a.row) && FullCount(graph, a.row) == Some(a.followers)
  {
    if cs != [] {
      var n := |cs| - 1;
      FullAlertMembers(graph, cs[..n], a);
      assert cs == cs[..n] + [cs[n]];
    }
  }

  /** Most reported first, and the most influential first, an unknown influence counting as none; then by pubkey. */
  ghost predicate MostReportedFirst(listing: seq<Alert>) {
    forall i, j :: 0 <= i < j < |listing| ==>
      var a, b := listing[i].row, listing[j].row;
      a.reporters >= b.reporters && (a.reporters == b.reporters ==> !Less(b.pubkey, a.pubkey))
  }

  ghost predicate MostInfluentialFirst(listing: seq<Alert>) {
    forall i, j :: 0 <= i < j < |listing| ==>
      var a, b := listing[i].row, listing[j].row;
      var x, y := if a.influence.Some? then a.influence.value else 0.0, if b.influence.Some? then b.influence.value else 0.0;
      x >= y && (x == y ==> !Less(b.pubkey, a.pubkey))
  }

  /** A section lists exactly the alerting rows of its kind, each with its true count, in its order, and the
      two together list every alert once. */
  lemma ListingExact(graph: Graph, cs: seq<Candidate>, direct: bool)
    ensures var all, listing := FullAlerts(graph, cs), Listing(FullAlerts(graph, cs), direct);
            && (forall a :: a in listing <==>
                  a.row in cs && a.row.direct == direct && Alerting(graph, a.row) && FullCount(graph, a.row) == Some(a.followers))
            && (if direct then MostReportedFirst(listing) else MostInfluentialFirst(listing))
            && |Listing(all, true)| + |Listing(all, false)| == |all|
  {
    var all := FullAlerts(graph, cs);
    SectionOrders();
    SortSorted(DirectFirst, Section(all, true));
    SortSorted(ExtendedFirst, Section(all, false));
    SortMembers(DirectFirst, Section(all, true));
    SortMembers(ExtendedFirst, Section(all, false));
    SectionSizes(all);
    if direct {
      SortedByReports(Listing(all, true));
    } else {
      SortedByInfluence(Listing(all, false));
    }
    forall a ensures a in Listing(all, direct) <==>
      a.row in cs && a.row.direct == direct && Alerting(graph, a.row) && FullCount(graph, a.row) == Some(a.followers)
    {
      SectionMembers(all, direct, a);
      FullAlertMembers(graph, cs, a);
    }
  }

  lemma SortedByReports(listing: seq<Alert>)
    requires Sorted(DirectFirst, listing)
    ensures MostReportedFirst(listing)
  {
    assert forall i, j :: 0 <= i < j < |listing| ==> DirectFirst(listing[i], listing[j]);
  }

  lemma SortedByInfluence(listing: seq<Alert>)
    requires Sorted(ExtendedFirst, listing)
    ensures MostInfluentialFirst(listing)
  {
    assert forall i, j :: 0 <= i < j < |listing| ==> ExtendedFirst(listing[i], listing[j]);
  }

  datatype Page = Page(items: seq<Alert>, truncated: bool)

  /** The first of the listing, as many as fit, saying whether any are left out. */
  function PageOf(listing: seq<Alert>, limit: nat): (page: Page)
    ensures page.items <= listing && |page.items| <= limit
    ensures page.truncated <==> page.items != listing
    ensures page.truncated ==> |page.items| == limit
  {
    Page(if |listing| <= limit then listing else listing[..limit], |listing| > limit)
  }

  /** Both sections, from capped counts, are those of the unbounded definition. */
  method NetworkAlertsFor(graph: Graph, cs: seq<Candidate>, limit: nat) returns (direct: Page, extended: Page)
    requires Keyed(cs) && Prefiltered(cs)
    ensures direct == PageOf(Listing(FullAlerts(graph, cs), true), limit)
    ensures extended == PageOf(Listing(FullAlerts(graph, cs), false), limit)
  {
    var resolved := ResolveFollowerCounts(graph, cs);
    CappedIsFull(graph, cs, resolved);
    var alerts := AlertsOf(resolved, cs);
    direct := PageOf(Listing(alerts, true), limit);
    extended := PageOf(Listing(alerts, false), limit);
  }
}
