/** The compression of all shortest follow paths into layers and links (app/services/graph_service.py), and
    why it is lossless. */
module PathNetwork {
  import opened Text
  import opened Sorting

  type Pubkey = string
  type Path = seq<Pubkey>
  type Follows = set<(Pubkey, Pubkey)>

  datatype Network = Network(layers: seq<seq<Pubkey>>, links: seq<seq<seq<nat>>>)

  datatype ShortestPath = ShortestPath(reachable: bool, hops: Option<nat>, pathCount: nat, network: Network)

  // --- The graph and the answer of `allShortestPaths` ---

  ghost predicate IsPath(follows: Follows, p: Path, source: Pubkey, target: Pubkey) {
    && |p| >= 2 && p[0] == source && p[|p| - 1] == target
    && forall i :: 0 <= i < |p| - 1 ==> (p[i], p[i + 1]) in follows
  }

  /** `paths` lists, each once, every shortest path of at most `maxHops` hops. */
  ghost predicate AllShortest(follows: Follows, source: Pubkey, target: Pubkey, maxHops: nat, paths: seq<Path>) {
    && Distinct(paths)
    && (forall p :: p in paths ==> IsPath(follows, p, source, target) && |p| - 1 <= maxHops)
    && (forall p, q :: q in paths && IsPath(follows, p, source, target) ==> |p| >= |q| && (|p| == |q| ==> p in paths))
    && (paths == [] ==> forall p :: IsPath(follows, p, source, target) ==> |p| - 1 > maxHops)
  }

  /** All paths have `hops` hops: what `_path_network` asks of its arguments. */
  predicate Even(paths: seq<Path>, hops: nat) {
    hops >= 1 && forall q :: 0 <= q < |paths| ==> |paths[q]| == hops + 1
  }

  // --- Layers and links ---

  /** Some path is at `x` at position `i`. */
  ghost predicate Visits(paths: seq<Path>, i: nat, x: Pubkey) {
    exists q :: 0 <= q < |paths| && i < |paths[q]| && paths[q][i] == x
  }

  /** Some path steps from `x` at position `i` to `y` at the next. */
  ghost predicate Steps(paths: seq<Path>, i: nat, x: Pubkey, y: Pubkey) {
    exists q :: 0 <= q < |paths| && i + 1 < |paths[q]| && paths[q][i] == x && paths[q][i + 1] == y
  }

  ghost predicate IsLayer(paths: seq<Path>, i: nat, layer: seq<Pubkey>) {
    Distinct(layer) && forall x :: x in layer <==> Visits(paths, i, x)
  }

  ghost predicate IncreasingBelow(ks: seq<nat>, n: nat) {
    (forall a :: 0 <= a < |ks| ==> ks[a] < n) && forall a, b :: 0 <= a < b < |ks| ==> ks[a] < ks[b]
  }

  /** `ks` are the positions of the pubkeys `x` steps to, sorted. */
  ghost predicate LinksOf(paths: seq<Path>, i: nat, x: Pubkey, next: seq<Pubkey>, ks: seq<nat>) {
    IncreasingBelow(ks, |next|) && forall k :: 0 <= k < |next| ==> (k in ks <==> Steps(paths, i, x, next[k]))
  }

  ghost predicate LinksFrom(paths: seq<Path>, i: nat, layer: seq<Pubkey>, next: seq<Pubkey>, links: seq<seq<nat>>) {
    |links| == |layer| && forall j :: 0 <= j < |layer| ==> LinksOf(paths, i, layer[j], next, links[j])
  }

  /** Layer `i` holds, sorted, the pubkeys at position `i + 1`; its links are the steps paths take. */
  ghost predicate IsNetwork(paths: seq<Path>, hops: nat, n: Network) {
    && |n.layers| == hops - 1 && |n.links| == (if hops >= 2 then hops - 2 else 0)
    && (forall i :: 0 <= i < |n.layers| ==> IsLayer(paths, i + 1, n.layers[i]) && Ascending(Less, n.layers[i]))
    && forall i :: 0 <= i < |n.links| ==> LinksFrom(paths, i + 1, n.layers[i], n.layers[i + 1], n.links[i])
  }

  function Column(paths: seq<Path>, hops: nat, i: nat): (r: seq<Pubkey>)
    requires Even(paths, hops) && i <= hops
    ensures |r| == |paths| && forall q :: 0 <= q < |r| ==> r[q] == paths[q][i]
  {
    seq(|paths|, q requires 0 <= q < |paths| => paths[q][i])
  }

  /** `sorted({path[i] for path in paths})` */
  function Layer(paths: seq<Path>, hops: nat, i: nat): seq<Pubkey>
    requires Even(paths, hops) && i <= hops
  {
    SortedUnique(Less, Column(paths, hops, i))
  }

  lemma LayerIsLayer(paths: seq<Path>, hops: nat, i: nat)
    requires Even(paths, hops) && i <= hops
    ensures IsLayer(paths, i, Layer(paths, hops, i)) && Ascending(Less, Layer(paths, hops, i))
  {
    var c := Column(paths, hops, i);
    StringOrder();
    SortedUniqueAscending(Less, c);
    AscendingDistinct(Less, SortedUnique(Less, c));
    forall x ensures x in c <==> Visits(paths, i, x) {
      if Visits(paths, i, x) {
        var q :| 0 <= q < |paths| && i < |paths[q]| && paths[q][i] == x;
        assert c[q] == x;
      }
    }
  }

  /** `sorted(t)` of a set of indices below `n`. */
  function SortedIndices(t: set<nat>, n: nat): (r: seq<nat>)
    ensures IncreasingBelow(r, n)
    ensures forall k :: k in r <==> k in t && k < n
  {
    if n == 0 then []
    else
      var r := SortedIndices(t, n - 1);
      assert forall a :: 0 <= a < |r| ==> r[a] < n - 1;
      if n - 1 in t then r + [n - 1] else r
  }

  method Positions(layer: seq<Pubkey>) returns (position: map<Pubkey, nat>)
    requires Distinct(layer)
    ensures forall x :: x in position <==> x in layer
    ensures forall x :: x in position ==> position[x] < |layer| && layer[position[x]] == x
  {
    position := map[];
    for j := 0 to |layer|
      invariant forall x :: x in position <==> x in layer[..j]
      invariant forall x :: x in position ==> position[x] < j && layer[position[x]] == x
    {
      position := position[layer[j] := j];
    }
    assert layer[..|layer|] == layer;
  }

  ghost predicate TakenFrom(paths: seq<Path>, i: nat, x: Pubkey, next: seq<Pubkey>, t: set<nat>) {
    forall k :: k in t ==> k < |next| && Steps(paths, i, x, next[k])
  }

  /** Every target is a step some path takes. */
  ghost predicate Taken(paths: seq<Path>, i: nat, layer: seq<Pubkey>, next: seq<Pubkey>, targets: seq<set<nat>>)
    requires |targets| == |layer|
  {
    forall j :: 0 <= j < |targets| ==> TakenFrom(paths, i, layer[j], next, targets[j])
  }

  /** The step of this path is a target. */
  ghost predicate Covered(p: Path, i: nat, layer: seq<Pubkey>, next: seq<Pubkey>, targets: seq<set<nat>>) {
    i + 1 < |p| && exists j, k :: 0 <= j < |layer| && 0 <= k < |next| && j < |targets| && k in targets[j] && p[i] == layer[j] && p[i + 1] == next[k]
  }

  /** Every path adds one target to one set. */
  method GatherTargets(paths: seq<Path>, hops: nat, i: nat, layer: seq<Pubkey>, next: seq<Pubkey>) returns (targets: seq<set<nat>>)
    requires Even(paths, hops) && i + 1 <= hops && IsLayer(paths, i, layer) && IsLayer(paths, i + 1, next)
    ensures |targets| == |layer| && Taken(paths, i, layer, next, targets)
    ensures forall q :: 0 <= q < |paths| ==> Covered(paths[q], i, layer, next, targets)
  {
    var here := Positions(layer);
    var there := Positions(next);
    targets := seq(|layer|, _ => {});
    for q := 0 to |paths|
      invariant |targets| == |layer| && Taken(paths, i, layer, next, targets)
      invariant forall r :: 0 <= r < q ==> Covered(paths[r], i, layer, next, targets)
    {
      assert Visits(paths, i, paths[q][i]) && Visits(paths, i + 1, paths[q][i + 1]);
      var j, k := here[paths[q][i]], there[paths[q][i + 1]];
      AddTarget(paths, i, layer, next, targets, q, j, k);
      targets := targets[j := targets[j] + {k}];
    }
  }

  lemma AddTarget(paths: seq<Path>, i: nat, layer: seq<Pubkey>, next: seq<Pubkey>, targets: seq<set<nat>>, q: nat, j: nat, k: nat)
    requires |targets| == |layer| && q < |paths| && j < |layer| && k < |next|
    requires i + 1 < |paths[q]| && paths[q][i] == layer[j] && paths[q][i + 1] == next[k]
    requires Taken(paths, i, layer, next, targets)
    requires forall r :: 0 <= r < q ==> Covered(paths[r], i, layer, next, targets)
    ensures Taken(paths, i, layer, next, targets[j := targets[j] + {k}])
    ensures forall r :: 0 <= r <= q ==> Covered(paths[r], i, layer, next, targets[j := targets[j] + {k}])
  {
    var added := targets[j := targets[j] + {k}];
    assert Steps(paths, i, layer[j], next[k]);
    assert TakenFrom(paths, i, layer[j], next, targets[j] + {k});
    forall r | 0 <= r < q ensures Covered(paths[r], i, layer, next, added) {
      StillCovered(paths[r], i, layer, next, targets, j, k);
    }
    assert k in added[j];
  }

  lemma StillCovered(p: Path, i: nat, layer: seq<Pubkey>, next: seq<Pubkey>, targets: seq<set<nat>>, j: nat, k: nat)
    requires Covered(p, i, layer, next, targets) && j < |targets|
    ensures Covered(p, i, layer, next, targets[j := targets[j] + {k}])
  {
    var a, b :| 0 <= a < |layer| && 0 <= b < |next| && a < |targets| && b in targets[a] && p[i] == layer[a] && p[i + 1] == next[b];
    assert b in targets[j := targets[j] + {k}][a];
  }

  lemma StepIsTarget(paths: seq<Path>, i: nat, layer: seq<Pubkey>, next: seq<Pubkey>, targets: seq<set<nat>>, j: nat, k: nat)
    requires Distinct(layer) && Distinct(next) && |targets| == |layer| && j < |layer| && k < |next|
    requires forall q :: 0 <= q < |paths| ==> Covered(paths[q], i, layer, next, targets)
    requires Steps(paths, i, layer[j], next[k])
    ensures k in targets[j]
  {
    var q :| 0 <= q < |paths| && i + 1 < |paths[q]| && paths[q][i] == layer[j] && paths[q][i + 1] == next[k];
    var p := paths[q];
    assert Covered(p, i, layer, next, targets);
    var a, b :| 0 <= a < |layer| && 0 <= b < |next| && a < |targets| && b in targets[a] && p[i] == layer[a] && p[i + 1] == next[b];
    assert a == j && b == k;
  }

  lemma TargetsAreLinks(paths: seq<Path>, i: nat, layer: seq<Pubkey>, next: seq<Pubkey>, targets: seq<set<nat>>, j: nat)
    requires Distinct(layer) && Distinct(next) && |targets| == |layer| && Taken(paths, i, layer, next, targets) && j < |layer|
    requires forall q :: 0 <= q < |paths| ==> Covered(paths[q], i, layer, next, targets)
    ensures LinksOf(paths, i, layer[j], next, SortedIndices(targets[j], |next|))
  {
    var ks := SortedIndices(targets[j], |next|);
    assert TakenFrom(paths, i, layer[j], next, targets[j]);
    forall k | 0 <= k < |next| ensures k in ks <==> Steps(paths, i, layer[j], next[k]) {
      assert k in ks <==> k in targets[j];
      if Steps(paths, i, layer[j], next[k]) {
        StepIsTarget(paths, i, layer, next, targets, j, k);
      }
    }
  }

  /** The links out of one layer. */
  method LinkLayer(paths: seq<Path>, hops: nat, i: nat, layer: seq<Pubkey>, next: seq<Pubkey>) returns (links: seq<seq<nat>>)
    requires Even(paths, hops) && i + 1 <= hops && IsLayer(paths, i, layer) && IsLayer(paths, i + 1, next)
    ensures LinksFrom(paths, i, layer, next, links)
  {
    var targets := GatherTargets(paths, hops, i, layer, next);
    links := seq(|targets|, j requires 0 <= j < |targets| => SortedIndices(targets[j], |next|));
    forall j | 0 <= j < |layer| ensures LinksOf(paths, i, layer[j], next, links[j]) {
      TargetsAreLinks(paths, i, layer, next, targets, j);
    }
  }

  method BuildNetwork(paths: seq<Path>, hops: nat) returns (n: Network)
    requires Even(paths, hops)
    ensures IsNetwork(paths, hops, n)
  {
    var layers := seq(hops - 1, i requires 0 <= i < hops - 1 => Layer(paths, hops, i + 1));
    forall i | 0 <= i < hops - 1 ensures IsLayer(paths, i + 1, layers[i]) && Ascending(Less, layers[i]) {
      LayerIsLayer(paths, hops, i + 1);
    }
    var links: seq<seq<seq<nat>>> := [];
    var i := 0;
    while i + 1 < |layers|
      invariant |links| == i && (i == 0 || i < |layers|)
      invariant forall a :: 0 <= a < i ==> LinksFrom(paths, a + 1, layers[a], layers[a + 1], links[a])
    {
      var row := LinkLayer(paths, hops, i + 1, layers[i], layers[i + 1]);
      links := links + [row];
      i := i + 1;
    }
    n := Network(layers, links);
  }

  // --- Walks: what a reader gets back out of layers and links ---

  /** The positions of one left-to-right walk through the layers from `i` on. */
  ghost predicate IsWalk(n: Network, i: nat, w: seq<nat>)
    requires Indexed(n)
  {
    && i + |w| == |n.layers|
    && (forall a :: 0 <= a < |w| ==> w[a] < |n.layers[i + a]|)
    && forall a :: 0 <= a < |w| - 1 ==> w[a + 1] in n.links[i + a][w[a]]
  }

  /** All link indices are in range, and sorted. */
  ghost predicate Indexed(n: Network) {
    && |n.links| == (if |n.layers| == 0 then 0 else |n.layers| - 1)
    && (forall i :: 0 <= i < |n.links| ==> |n.links[i]| == |n.layers[i]|)
    && forall i, j :: 0 <= i < |n.links| && 0 <= j < |n.links[i]| ==> IncreasingBelow(n.links[i][j], |n.layers[i + 1]|)
  }

  lemma NetworkIndexed(paths: seq<Path>, hops: nat, n: Network)
    requires IsNetwork(paths, hops, n) && hops >= 1
    ensures Indexed(n)
  {
    forall i, j | 0 <= i < |n.links| && 0 <= j < |n.links[i]| ensures IncreasingBelow(n.links[i][j], |n.layers[i + 1]|) {
      assert LinksFrom(paths, i + 1, n.layers[i], n.layers[i + 1], n.links[i]);
      assert LinksOf(paths, i + 1, n.layers[i][j], n.layers[i + 1], n.links[i][j]);
    }
    forall i | 0 <= i < |n.links| ensures |n.links[i]| == |n.layers[i]| {
      assert LinksFrom(paths, i + 1, n.layers[i], n.layers[i + 1], n.links[i]);
    }
  }

  /** The pubkeys a walk passes, ends included. */
  function Spell(n: Network, w: seq<nat>, source: Pubkey, target: Pubkey): (p: Path)
    requires |w| == |n.layers| && forall a :: 0 <= a < |w| ==> w[a] < |n.layers[a]|
    ensures |p| == |w| + 2 && p[0] == source && p[|w| + 1] == target
    ensures forall a :: 0 <= a < |w| ==> p[a + 1] == n.layers[a][w[a]]
  {
    [source] + seq(|w|, a requires 0 <= a < |w| => n.layers[a][w[a]]) + [target]
  }

  lemma WalkStep(paths: seq<Path>, hops: nat, n: Network, w: seq<nat>, a: nat)
    requires hops >= 1 && IsNetwork(paths, hops, n) && Indexed(n) && IsWalk(n, 0, w) && a + 1 < |w|
    ensures Steps(paths, a + 1, n.layers[a][w[a]], n.layers[a + 1][w[a + 1]])
  {
    assert LinksFrom(paths, a + 1, n.layers[a], n.layers[a + 1], n.links[a]);
    assert LinksOf(paths, a + 1, n.layers[a][w[a]], n.layers[a + 1], n.links[a][w[a]]);
  }

  /** Each hop of a walk is one some listed path makes at the same place. */
  lemma WalkHop(paths: seq<Path>, hops: nat, n: Network, w: seq<nat>, source: Pubkey, target: Pubkey, i: nat)
    requires Even(paths, hops) && paths != [] && IsNetwork(paths, hops, n) && Indexed(n) && IsWalk(n, 0, w) && i < hops
    requires forall q :: 0 <= q < |paths| ==> paths[q][0] == source && paths[q][hops] == target
    ensures var p := Spell(n, w, source, target); Steps(paths, i, p[i], p[i + 1])
  {
    var p := Spell(n, w, source, target);
    if hops == 1 {
      assert paths[0][0] == p[0];
    } else if i == 0 {
      assert p[1] == n.layers[0][w[0]] && p[1] in n.layers[0];
      assert IsLayer(paths, 1, n.layers[0]);
    } else if i == hops - 1 {
      assert p[i] == n.layers[i - 1][w[i - 1]] && p[i] in n.layers[i - 1];
      assert IsLayer(paths, i - 1 + 1, n.layers[i - 1]);
    } else {
      WalkStep(paths, hops, n, w, i - 1);
      assert p[i - 1 + 1] == n.layers[i - 1][w[i - 1]] && p[i + 1] == n.layers[i][w[i]];
    }
  }

  lemma ShortestEven(follows: Follows, source: Pubkey, target: Pubkey, maxHops: nat, paths: seq<Path>)
    requires AllShortest(follows, source, target, maxHops, paths) && paths != []
    ensures |paths[0]| >= 2 && Even(paths, |paths[0]| - 1)
    ensures forall q :: 0 <= q < |paths| ==> IsPath(follows, paths[q], source, target)
  {
    assert forall q :: 0 <= q < |paths| ==> paths[q] in paths;
  }

  lemma StepFollows(follows: Follows, source: Pubkey, target: Pubkey, paths: seq<Path>, i: nat, x: Pubkey, y: Pubkey)
    requires forall q :: 0 <= q < |paths| ==> IsPath(follows, paths[q], source, target)
    requires Steps(paths, i, x, y)
    ensures (x, y) in follows
  {
    var q :| 0 <= q < |paths| && i + 1 < |paths[q]| && paths[q][i] == x && paths[q][i + 1] == y;
    assert IsPath(follows, paths[q], source, target);
  }

  lemma WalkFollows(follows: Follows, source: Pubkey, target: Pubkey, paths: seq<Path>, hops: nat, n: Network, w: seq<nat>)
    requires Even(paths, hops) && paths != [] && forall q :: 0 <= q < |paths| ==> IsPath(follows, paths[q], source, target)
    requires IsNetwork(paths, hops, n) && Indexed(n) && IsWalk(n, 0, w)
    ensures IsPath(follows, Spell(n, w, source, target), source, target) && |Spell(n, w, source, target)| == hops + 1
  {
    var p := Spell(n, w, source, target);
    forall i | 0 <= i < hops ensures (p[i], p[i + 1]) in follows {
      WalkHop(paths, hops, n, w, source, target, i);
      StepFollows(follows, source, target, paths, i, p[i], p[i + 1]);
    }
  }

  /** Every walk spells a path of the graph, so one of the listed paths. */
  lemma WalkIsPath(follows: Follows, source: Pubkey, target: Pubkey, maxHops: nat, paths: seq<Path>, n: Network, w: seq<nat>)
    requires AllShortest(follows, source, target, maxHops, paths) && paths != []
    requires IsNetwork(paths, |paths[0]| - 1, n) && Indexed(n) && IsWalk(n, 0, w)
    ensures Spell(n, w, source, target) in paths
  {
    ShortestEven(follows, source, target, maxHops, paths);
    WalkFollows(follows, source, target, paths, |paths[0]| - 1, n, w);
    assert paths[0] in paths;
  }

  /** Every listed path is spelt by a walk. */
  lemma PathIsWalk(paths: seq<Path>, hops: nat, n: Network, q: nat) returns (w: seq<nat>)
    requires Even(paths, hops) && IsNetwork(paths, hops, n) && Indexed(n) && q < |paths|
    ensures IsWalk(n, 0, w) && Spell(n, w, paths[q][0], paths[q][hops]) == paths[q]
  {
    var p := paths[q];
    w := [];
    while |w| < hops - 1
      invariant |w| <= hops - 1
      invariant forall a :: 0 <= a < |w| ==> w[a] < |n.layers[a]| && n.layers[a][w[a]] == p[a + 1]
    {
      var i := |w|;
      assert IsLayer(paths, i + 1, n.layers[i]);
      assert Visits(paths, i + 1, p[i + 1]);
      var j :| 0 <= j < |n.layers[i]| && n.layers[i][j] == p[i + 1];
      w := w + [j];
    }
    forall a | 0 <= a < |w| - 1 ensures w[a + 1] in n.links[a][w[a]] {
      assert LinksFrom(paths, a + 1, n.layers[a], n.layers[a + 1], n.links[a]);
      assert LinksOf(paths, a + 1, n.layers[a][w[a]], n.layers[a + 1], n.links[a][w[a]]);
      assert p[a + 1 + 1] == n.layers[a + 1][w[a + 1]];
      assert Steps(paths, a + 1, n.layers[a][w[a]], n.layers[a + 1][w[a + 1]]);
    }
    SpellIs(n, w, p);
  }

  lemma SpellIs(n: Network, w: seq<nat>, p: Path)
    requires |w| == |n.layers| && |p| == |w| + 2
    requires forall a :: 0 <= a < |w| ==> w[a] < |n.layers[a]| && n.layers[a][w[a]] == p[a + 1]
    ensures Spell(n, w, p[0], p[|p| - 1]) == p
  {
    var s := Spell(n, w, p[0], p[|p| - 1]);
    forall i | 0 <= i < |p| ensures s[i] == p[i] {
      if 0 < i < |p| - 1 {
        assert s[i - 1 + 1] == n.layers[i - 1][w[i - 1]];
      }
    }
  }

  /** Different walks spell different paths. */
  lemma SpellInjective(n: Network, v: seq<nat>, w: seq<nat>, source: Pubkey, target: Pubkey)
    requires forall i :: 0 <= i < |n.layers| ==> Distinct(n.layers[i])
    requires Indexed(n) && IsWalk(n, 0, v) && IsWalk(n, 0, w)
    requires Spell(n, v, source, target) == Spell(n, w, source, target)
    ensures v == w
  {
    forall a | 0 <= a < |v| ensures v[a] == w[a] {
      assert Spell(n, v, source, target)[a + 1] == Spell(n, w, source, target)[a + 1];
      assert n.layers[a][v[a]] == n.layers[a][w[a]] && Distinct(n.layers[a]);
    }
  }

  // --- One pubkey, one place ---

  lemma Splice(follows: Follows, source: Pubkey, target: Pubkey, p: Path, q: Path, i: nat, j: nat)
    requires IsPath(follows, p, source, target) && IsPath(follows, q, source, target) && source != target
    requires i < |p| && j < |q| && p[i] == q[j]
    ensures IsPath(follows, p[..i] + q[j..], source, target)
  {
    var r := p[..i] + q[j..];
    forall a | 0 <= a < |r| - 1 ensures (r[a], r[a + 1]) in follows {
      if a < i {
        assert r[a] == p[a] && r[a + 1] == p[a + 1];
      } else {
        assert r[a] == q[a - i + j] && r[a + 1] == q[a - i + j + 1];
      }
    }
    assert r[0] == source && r[|r| - 1] == target;
  }

  /** Listed paths meet only at the same position, or splicing them would give a shorter one: so no pubkey is
      in two layers, and neither end is in any. */
  lemma OnePosition(follows: Follows, source: Pubkey, target: Pubkey, maxHops: nat, paths: seq<Path>, p: Path, q: Path, i: nat, j: nat)
    requires AllShortest(follows, source, target, maxHops, paths) && source != target
    requires p in paths && q in paths && i < |p| && j < |q| && p[i] == q[j]
    ensures i == j
  {
    if i < j {
      Splice(follows, source, target, p, q, i, j);
    } else if j < i {
      Splice(follows, source, target, q, p, j, i);
    }
  }

  lemma OneVisit(follows: Follows, source: Pubkey, target: Pubkey, maxHops: nat, paths: seq<Path>, x: Pubkey, i: nat, j: nat)
    requires AllShortest(follows, source, target, maxHops, paths) && source != target
    requires Visits(paths, i, x) && Visits(paths, j, x)
    ensures i == j
  {
    var p :| 0 <= p < |paths| && i < |paths[p]| && paths[p][i] == x;
    var q :| 0 <= q < |paths| && j < |paths[q]| && paths[q][j] == x;
    OnePosition(follows, source, target, maxHops, paths, paths[p], paths[q], i, j);
  }

  ghost predicate MeetOnce(paths: seq<Path>) {
    forall i, j, x :: Visits(paths, i, x) && Visits(paths, j, x) ==> i == j
  }

  lemma LayersMeetOnce(paths: seq<Path>, hops: nat, n: Network, i: nat, x: Pubkey)
    requires Even(paths, hops) && paths != [] && MeetOnce(paths) && IsNetwork(paths, hops, n) && i < |n.layers| && x in n.layers[i]
    ensures x != paths[0][0] && x != paths[0][hops]
    ensures forall j :: 0 <= j < |n.layers| && j != i ==> x !in n.layers[j]
  {
    assert Visits(paths, 0, paths[0][0]) && Visits(paths, hops, paths[0][hops]);
    assert IsLayer(paths, i + 1, n.layers[i]);
    assert Visits(paths, i + 1, x);
    forall j | 0 <= j < |n.layers| && x in n.layers[j] ensures j == i {
      assert IsLayer(paths, j + 1, n.layers[j]);
      assert Visits(paths, j + 1, x);
    }
  }

  /** The same for the layers. */
  lemma OneLayer(follows: Follows, source: Pubkey, target: Pubkey, maxHops: nat, paths: seq<Path>, n: Network, i: nat, x: Pubkey)
    requires AllShortest(follows, source, target, maxHops, paths) && source != target && paths != []
    requires IsNetwork(paths, |paths[0]| - 1, n) && i < |n.layers| && x in n.layers[i]
    ensures x != source && x != target
    ensures forall j :: 0 <= j < |n.layers| && j != i ==> x !in n.layers[j]
  {
    ShortestEven(follows, source, target, maxHops, paths);
    assert IsPath(follows, paths[0], source, target);
    forall i, j, x | Visits(paths, i, x) && Visits(paths, j, x) ensures i == j {
      OneVisit(follows, source, target, maxHops, paths, x, i, j);
    }
    LayersMeetOnce(paths, |paths[0]| - 1, n, i, x);
  }

  // --- Counting the walks from the network alone ---

  function SumAt(counts: seq<nat>, ks: seq<nat>): nat
    requires forall a :: 0 <= a < |ks| ==> ks[a] < |counts|
  {
    if ks == [] then 0 else counts[ks[0]] + SumAt(counts, ks[1..])
  }

  function Sum(counts: seq<nat>): nat {
    if counts == [] then 0 else counts[0] + Sum(counts[1..])
  }

  /** How many walks lead on from each position of layer `i`, counted backwards. */
  ghost function Counts(n: Network, i: nat): (c: seq<nat>)
    requires Indexed(n) && i < |n.layers|
    ensures |c| == |n.layers[i]|
    decreases |n.layers| - i
  {
    if i == |n.layers| - 1 then seq(|n.layers[i]|, _ => 1)
    else
      var next := Counts(n, i + 1);
      seq(|n.layers[i]|, j requires 0 <= j < |n.layers[i]| =>
        assert IncreasingBelow(n.links[i][j], |n.layers[i + 1]|); SumAt(next, n.links[i][j]))
  }

  ghost function CountWalks(n: Network, reachable: bool): nat
    requires Indexed(n)
  {
    if n.layers == [] then (if reachable then 1 else 0) else Sum(Counts(n, 0))
  }

  function Prefixed(j: nat, ws: seq<seq<nat>>): (r: seq<seq<nat>>)
    ensures |r| == |ws| && forall a :: 0 <= a < |ws| ==> r[a] == [j] + ws[a]
  {
    seq(|ws|, a requires 0 <= a < |ws| => [j] + ws[a])
  }

  /** The walks from position `j` of layer `i`, one by one. */
  ghost function WalksFrom(n: Network, i: nat, j: nat): seq<seq<nat>>
    requires Indexed(n) && i < |n.layers| && j < |n.layers[i]|
    decreases |n.layers| - i, 0, 0
  {
    if i == |n.layers| - 1 then [[j]]
    else
      assert IncreasingBelow(n.links[i][j], |n.layers[i + 1]|);
      Prefixed(j, WalksAmong(n, i + 1, n.links[i][j]))
  }

  ghost function WalksAmong(n: Network, i: nat, ks: seq<nat>): seq<seq<nat>>
    requires Indexed(n) && i < |n.layers| && forall a :: 0 <= a < |ks| ==> ks[a] < |n.layers[i]|
    decreases |n.layers| - i, 1, |ks|
  {
    if ks == [] then [] else WalksFrom(n, i, ks[0]) + WalksAmong(n, i, ks[1..])
  }

  lemma {:induction false} CountsWalksFrom(n: Network, i: nat, j: nat)
    requires Indexed(n) && i < |n.layers| && j < |n.layers[i]|
    ensures |WalksFrom(n, i, j)| == Counts(n, i)[j]
    decreases |n.layers| - i, 0, 0
  {
    if i < |n.layers| - 1 {
      assert IncreasingBelow(n.links[i][j], |n.layers[i + 1]|);
      CountsWalksAmong(n, i + 1, n.links[i][j]);
    }
  }

  lemma {:induction false} CountsWalksAmong(n: Network, i: nat, ks: seq<nat>)
    requires Indexed(n) && i < |n.layers| && forall a :: 0 <= a < |ks| ==> ks[a] < |n.layers[i]|
    ensures |WalksAmong(n, i, ks)| == SumAt(Counts(n, i), ks)
    decreases |n.layers| - i, 1, |ks|
  {
    if ks != [] {
      CountsWalksFrom(n, i, ks[0]);
      CountsWalksAmong(n, i, ks[1..]);
    }
  }

  /** A walk is listed from its first position on, exactly. */
  lemma {:induction false} WalksFromExact(n: Network, i: nat, j: nat, w: seq<nat>)
    requires Indexed(n) && i < |n.layers| && j < |n.layers[i]|
    ensures w in WalksFrom(n, i, j) <==> IsWalk(n, i, w) && w[0] == j
    decreases |n.layers| - i, 0, 0
  {
    if i == |n.layers| - 1 {
      assert w == [j] <==> |w| == 1 && w[0] == j;
    } else {
      var ks := n.links[i][j];
      assert IncreasingBelow(ks, |n.layers[i + 1]|);
      var tails := WalksAmong(n, i + 1, ks);
      if w in WalksFrom(n, i, j) {
        var a :| 0 <= a < |tails| && w == [j] + tails[a];
        WalksAmongExact(n, i + 1, ks, tails[a]);
        ConsWalk(n, i, j, tails[a]);
      }
      if IsWalk(n, i, w) && w[0] == j {
        assert w == [j] + w[1..];
        TailWalk(n, i, w);
        WalksAmongExact(n, i + 1, ks, w[1..]);
        var a :| 0 <= a < |tails| && tails[a] == w[1..];
        assert Prefixed(j, tails)[a] == w;
      }
    }
  }

  lemma {:induction false} WalksAmongExact(n: Network, i: nat, ks: seq<nat>, w: seq<nat>)
    requires Indexed(n) && i < |n.layers| && forall a :: 0 <= a < |ks| ==> ks[a] < |n.layers[i]|
    ensures w in WalksAmong(n, i, ks) <==> IsWalk(n, i, w) && w[0] in ks
    decreases |n.layers| - i, 1, |ks|
  {
    if ks != [] {
      WalksFromExact(n, i, ks[0], w);
      WalksAmongExact(n, i, ks[1..], w);
      assert ks == [ks[0]] + ks[1..];
    }
  }

  lemma ConsWalk(n: Network, i: nat, j: nat, v: seq<nat>)
    requires Indexed(n) && i + 1 < |n.layers| && j < |n.layers[i]| && IsWalk(n, i + 1, v) && v[0] in n.links[i][j]
    ensures IsWalk(n, i, [j] + v)
  {
    var w := [j] + v;
    forall a | 0 <= a < |w| - 1 ensures w[a + 1] in n.links[i + a][w[a]] {
      if a > 0 {
        assert v[a - 1 + 1] in n.links[i + 1 + (a - 1)][v[a - 1]];
      }
    }
    forall a | 0 <= a < |w| ensures w[a] < |n.layers[i + a]| {
      if a > 0 {
        assert v[a - 1] < |n.layers[i + 1 + (a - 1)]|;
      }
    }
  }

  lemma TailWalk(n: Network, i: nat, w: seq<nat>)
    requires Indexed(n) && i + 1 < |n.layers| && IsWalk(n, i, w)
    ensures IsWalk(n, i + 1, w[1..]) && w[1] in n.links[i][w[0]]
  {
    var v := w[1..];
    forall a | 0 <= a < |v| - 1 ensures v[a + 1] in n.links[i + 1 + a][v[a]] {
      assert w[a + 1 + 1] in n.links[i + (a + 1)][w[a + 1]];
    }
    forall a | 0 <= a < |v| ensures v[a] < |n.layers[i + 1 + a]| {
      assert w[a + 1] < |n.layers[i + (a + 1)]|;
    }
    assert w[0 + 1] in n.links[i + 0][w[0]];
  }

  lemma {:induction false} WalksFromDistinct(n: Network, i: nat, j: nat)
    requires Indexed(n) && i < |n.layers| && j < |n.layers[i]|
    ensures Distinct(WalksFrom(n, i, j))
    decreases |n.layers| - i, 0, 0
  {
    if i < |n.layers| - 1 {
      var ks := n.links[i][j];
      assert IncreasingBelow(ks, |n.layers[i + 1]|);
      WalksAmongDistinct(n, i + 1, ks);
      PrefixedDistinct(j, WalksAmong(n, i + 1, ks));
    }
  }

  lemma PrefixedDistinct(j: nat, ws: seq<seq<nat>>)
    requires Distinct(ws)
    ensures Distinct(Prefixed(j, ws))
  {
    var r := Prefixed(j, ws);
    forall a, b | 0 <= a < b < |r| ensures r[a] != r[b] {
      assert r[a][1..] == ws[a] && r[b][1..] == ws[b];
    }
  }

  lemma {:induction false} WalksAmongDistinct(n: Network, i: nat, ks: seq<nat>)
    requires Indexed(n) && i < |n.layers| && IncreasingBelow(ks, |n.layers[i]|)
    ensures Distinct(WalksAmong(n, i, ks))
    decreases |n.layers| - i, 1, |ks|
  {
    if ks != [] {
      var xs, ys := WalksFrom(n, i, ks[0]), WalksAmong(n, i, ks[1..]);
      WalksFromDistinct(n, i, ks[0]);
      WalksAmongDistinct(n, i, ks[1..]);
      forall w | w in xs ensures w !in ys {
        WalksFromExact(n, i, ks[0], w);
        WalksAmongExact(n, i, ks[1..], w);
        assert ks[0] !in ks[1..];
      }
      assert forall a :: 0 <= a < |xs| ==> xs[a] in xs && xs[a] !in ys;
    }
  }

  lemma {:induction false} SumIsSumAt(counts: seq<nat>, ks: seq<nat>)
    requires |ks| <= |counts| && forall a :: 0 <= a < |ks| ==> ks[a] == |counts| - |ks| + a
    ensures SumAt(counts, ks) == Sum(counts[|counts| - |ks|..])
  {
    if ks != [] {
      SumIsSumAt(counts, ks[1..]);
      var rest := counts[|counts| - |ks|..];
      assert rest[1..] == counts[|counts| - |ks[1..]|..];
    }
  }

  /** Every walk through the whole network, once each, as many as are counted. */
  lemma AllWalks(n: Network) returns (ws: seq<seq<nat>>)
    requires Indexed(n) && n.layers != []
    ensures Distinct(ws) && |ws| == Sum(Counts(n, 0))
    ensures ListsWalks(n, ws)
  {
    var ks: seq<nat> := seq(|n.layers[0]|, j requires 0 <= j => j);
    assert IncreasingBelow(ks, |n.layers[0]|);
    ws := WalksAmong(n, 0, ks);
    WalksAmongDistinct(n, 0, ks);
    CountsWalksAmong(n, 0, ks);
    SumIsSumAt(Counts(n, 0), ks);
    assert Counts(n, 0)[0..] == Counts(n, 0);
    forall w ensures w in ws <==> IsWalk(n, 0, w) {
      WalksAmongExact(n, 0, ks, w);
      if IsWalk(n, 0, w) {
        assert ks[w[0]] == w[0];
      }
    }
  }

  lemma {:induction false} DistinctSize<T>(xs: seq<T>, s: set<T>)
    requires Distinct(xs) && forall x :: x in xs <==> x in s
    ensures |xs| == |s|
  {
    if xs == [] {
      assert s == {};
    } else {
      assert xs == [xs[0]] + xs[1..];
      DistinctSize(xs[1..], s - {xs[0]});
    }
  }

  lemma SameSize<T>(xs: seq<T>, ys: seq<T>)
    requires Distinct(xs) && Distinct(ys) && forall x :: x in xs <==> x in ys
    ensures |xs| == |ys|
  {
    var s := set x | x in xs;
    DistinctSize(xs, s);
    DistinctSize(ys, s);
  }

  ghost predicate ListsWalks(n: Network, ws: seq<seq<nat>>)
    requires Indexed(n)
  {
    Distinct(ws) && (forall a :: 0 <= a < |ws| ==> IsWalk(n, 0, ws[a])) && forall w :: IsWalk(n, 0, w) ==> w in ws
  }

  ghost function SpellAll(n: Network, ws: seq<seq<nat>>, source: Pubkey, target: Pubkey): (r: seq<Path>)
    requires Indexed(n) && ListsWalks(n, ws)
    ensures |r| == |ws| && forall a :: 0 <= a < |ws| ==> r[a] == Spell(n, ws[a], source, target)
  {
    seq(|ws|, a requires 0 <= a < |ws| => Spell(n, ws[a], source, target))
  }

  lemma SpeltDistinct(n: Network, ws: seq<seq<nat>>, source: Pubkey, target: Pubkey)
    requires Indexed(n) && ListsWalks(n, ws) && forall i :: 0 <= i < |n.layers| ==> Distinct(n.layers[i])
    ensures Distinct(SpellAll(n, ws, source, target))
  {
    var spelt := SpellAll(n, ws, source, target);
    forall a, b | 0 <= a < b < |ws| ensures spelt[a] != spelt[b] {
      if spelt[a] == spelt[b] {
        SpellInjective(n, ws[a], ws[b], source, target);
      }
    }
  }

  lemma SpeltListed(follows: Follows, source: Pubkey, target: Pubkey, maxHops: nat, paths: seq<Path>, n: Network, ws: seq<seq<nat>>, p: Path)
    requires AllShortest(follows, source, target, maxHops, paths) && paths != []
    requires IsNetwork(paths, |paths[0]| - 1, n) && Indexed(n) && ListsWalks(n, ws)
    ensures p in SpellAll(n, ws, source, target) <==> p in paths
  {
    var spelt := SpellAll(n, ws, source, target);
    if p in spelt {
      var a :| 0 <= a < |ws| && spelt[a] == p;
      WalkIsPath(follows, source, target, maxHops, paths, n, ws[a]);
    }
    if p in paths {
      var w := ListedIsWalk(follows, source, target, maxHops, paths, n, p);
      var a :| 0 <= a < |ws| && ws[a] == w;
      assert spelt[a] == p;
    }
  }

  lemma LayersDistinct(paths: seq<Path>, hops: nat, n: Network)
    requires IsNetwork(paths, hops, n)
    ensures forall i :: 0 <= i < |n.layers| ==> Distinct(n.layers[i])
  {
    assert forall i :: 0 <= i < |n.layers| ==> IsLayer(paths, i + 1, n.layers[i]);
  }

  lemma ListedIsWalk(follows: Follows, source: Pubkey, target: Pubkey, maxHops: nat, paths: seq<Path>, n: Network, p: Path) returns (w: seq<nat>)
    requires AllShortest(follows, source, target, maxHops, paths) && p in paths
    requires IsNetwork(paths, |paths[0]| - 1, n) && Indexed(n)
    ensures IsWalk(n, 0, w) && Spell(n, w, source, target) == p
  {
    ShortestEven(follows, source, target, maxHops, paths);
    var q :| 0 <= q < |paths| && paths[q] == p;
    assert IsPath(follows, paths[q], source, target);
    w := PathIsWalk(paths, |paths[0]| - 1, n, q);
  }

  /** Lossless: the walks through the network spell exactly the shortest paths, each once, and counting walks
      from the network alone gives their number. */
  lemma Lossless(follows: Follows, source: Pubkey, target: Pubkey, maxHops: nat, paths: seq<Path>, n: Network)
    requires AllShortest(follows, source, target, maxHops, paths) && paths != [] && source != target
    requires IsNetwork(paths, |paths[0]| - 1, n)
    ensures Indexed(n) && CountWalks(n, true) == |paths|
    ensures forall w :: IsWalk(n, 0, w) ==> Spell(n, w, source, target) in paths
    ensures forall p :: p in paths ==> exists w :: IsWalk(n, 0, w) && Spell(n, w, source, target) == p
    ensures forall v, w :: IsWalk(n, 0, v) && IsWalk(n, 0, w) && Spell(n, v, source, target) == Spell(n, w, source, target) ==> v == w
  {
    var hops := |paths[0]| - 1;
    ShortestEven(follows, source, target, maxHops, paths);
    NetworkIndexed(paths, hops, n);
    LayersDistinct(paths, hops, n);
    forall w | IsWalk(n, 0, w) ensures Spell(n, w, source, target) in paths {
      WalkIsPath(follows, source, target, maxHops, paths, n, w);
    }
    forall p | p in paths ensures exists w :: IsWalk(n, 0, w) && Spell(n, w, source, target) == p {
      var w := ListedIsWalk(follows, source, target, maxHops, paths, n, p);
    }
    forall v, w | IsWalk(n, 0, v) && IsWalk(n, 0, w) && Spell(n, v, source, target) == Spell(n, w, source, target) ensures v == w {
      SpellInjective(n, v, w, source, target);
    }
    CountIsPathCount(follows, source, target, maxHops, paths, n);
  }

  lemma CountIsPathCount(follows: Follows, source: Pubkey, target: Pubkey, maxHops: nat, paths: seq<Path>, n: Network)
    requires AllShortest(follows, source, target, maxHops, paths) && paths != []
    requires IsNetwork(paths, |paths[0]| - 1, n) && Indexed(n)
    ensures CountWalks(n, true) == |paths|
  {
    var ws: seq<seq<nat>>;
    if n.layers == [] {
      ws := [[]];
    } else {
      ws := AllWalks(n);
    }
    assert ListsWalks(n, ws);
    LayersDistinct(paths, |paths[0]| - 1, n);
    SpeltDistinct(n, ws, source, target);
    forall p ensures p in SpellAll(n, ws, source, target) <==> p in paths {
      SpeltListed(follows, source, target, maxHops, paths, n, ws, p);
    }
    SameSize(SpellAll(n, ws, source, target), paths);
  }

  const NoNetwork := Network([], [])

  /** `get_shortest_follow_path`: what it answers tells reachability, the hop count, and every shortest path. */
  method ShortestFollowPath(follows: Follows, source: Pubkey, target: Pubkey, maxHops: nat, paths: seq<Path>) returns (r: ShortestPath)
    requires source != target ==> AllShortest(follows, source, target, maxHops, paths)
    ensures Indexed(r.network) && CountWalks(r.network, r.reachable) == r.pathCount
    ensures r.reachable <==> source == target || exists p :: IsPath(follows, p, source, target) && |p| - 1 <= maxHops
    ensures r.reachable <==> r.hops.Some?
    ensures source == target ==> r.hops == Some(0) && r.pathCount == 1
    ensures source != target ==> r.pathCount == |paths|
    ensures source != target && r.reachable ==>
              && IsNetwork(paths, r.hops.value, r.network)
              && (forall p :: IsPath(follows, p, source, target) ==> |p| - 1 >= r.hops.value)
              && forall p :: IsPath(follows, p, source, target) && |p| - 1 == r.hops.value <==> p in paths
  {
    if source == target {
      return ShortestPath(true, Some(0), 1, NoNetwork);
    }
    if paths == [] {
      return ShortestPath(false, None, 0, NoNetwork);
    }
    ShortestEven(follows, source, target, maxHops, paths);
    assert paths[0] in paths;
    var hops := |paths[0]| - 1;
    var n := BuildNetwork(paths, hops);
    Lossless(follows, source, target, maxHops, paths, n);
    r := ShortestPath(true, Some(hops), |paths|, n);
  }
}
