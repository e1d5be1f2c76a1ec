/** The key grammar of a Treasure Map: one spelling per key, the parse of a key, the specificity order,
    and which insights a key matches. Models the first half of app/services/self_map_build.py. */
module TreasureKeys {
  import opened Text

  const SCORE_KIND: int := 30382
  const SCORE_KINDS: seq<int> := [30380, 30381, 30382, 30383, 30384, 30385, 30386, 30387, 30388, 30389]
  const LIST_KINDS: seq<int> := [30390, 30391, 30392, 30393, 30394, 30395, 30396, 30397, 30398, 30399]
  const CONCEPT_KINDS: seq<int> := [39998, 39999]
  const SYSTEM_WORDS: seq<string> := ["tag", "pin", "dlist", "contexts"]
  const NAMELESS_KEYS: seq<string> := ["39998:", "39999:", "39999:dlist-header", "39999:duty-menu"]
  const PUBLISHED_METRICS: seq<string> := ["rank", "followers", "reporters", "muters", "hops"]

  predicate IsScoreKind(kind: int) { 30380 <= kind <= 30389 }
  predicate AllScoreKinds(kinds: seq<int>) { forall kind :: kind in kinds ==> IsScoreKind(kind) }
  predicate IsListKind(kind: int) { 30390 <= kind <= 30399 }
  predicate IsConceptKind(kind: int) { kind == 39998 || kind == 39999 }

  /** What part of its kinds a key stands for. `Other` belongs to insights only: those no key names. */
  datatype Scope = All | Metric(value: string) | D(value: string) | Unchecked(value: string) | Other

  datatype Key = Key(norm: string, slot: string, kinds: seq<int>, segs: seq<string>, rank: int, scope: Scope)

  /** An insight: one kind and one region of it. The engine's probes are insights too. */
  datatype Probe = Probe(kind: int, scope: Scope)

  // --- Spelling ---

  function SlotOf(key: string): string {
    var colon := Find(key, ':');
    if colon < 0 then key else key[..colon]
  }

  function RestOf(key: string): string {
    var colon := Find(key, ':');
    if colon < 0 then "" else key[colon + 1..]
  }

  predicate IsConceptSlot(slot: string) { slot == "39998" || slot == "39999" }

  function DropTrailingEmpty(segs: seq<string>): (r: seq<string>)
    ensures r <= segs
    ensures r != [] ==> r[|r| - 1] != ""
    ensures segs != [] && segs[|segs| - 1] != "" ==> r == segs
  {
    if segs != [] && segs[|segs| - 1] == "" then DropTrailingEmpty(segs[..|segs| - 1]) else segs
  }

  function NormalizeKey(key: string): string {
    var slot := SlotOf(key);
    var rest := RestOf(key);
    if IsConceptSlot(slot) then
      if slot == "39998" && rest == "dlist-header" then "39998" else key
    else
      Join([slot] + DropTrailingEmpty(if rest == "" then [] else Split(rest, ':')), ':')
  }

  predicate KindSlot(slot: string) {
    FiveDigits(slot) || slot == "3038x" || slot == "3039x" || slot == "*"
  }

  function ParseKey(key: string): Option<Key> {
    var slot := SlotOf(key);
    if !KindSlot(slot) then None
    else
      var norm := NormalizeKey(key);
      if norm in NAMELESS_KEYS then None
      else if IsConceptSlot(slot) then Some(ConceptKey(norm, slot))
      else Some(PlainKey(norm, slot))
  }

  function ConceptKey(norm: string, slot: string): Key
    requires IsConceptSlot(slot)
  {
    var (kinds, rank) := if slot == "39998" then (CONCEPT_KINDS, 2) else ([39999], 3);
    if norm == slot then Key(norm, slot, kinds, [], rank, All)
    else
      var d := RestOf(norm);
      Key(norm, slot, [FiveDigitValue(slot)], [d], 3, D(d))
  }

  function PlainKey(norm: string, slot: string): Key
    requires KindSlot(slot)
  {
    var segs := Split(norm, ':')[1..];
    var (kinds, rank) :=
      if slot == "*" then (SCORE_KINDS + LIST_KINDS + (if segs != [] then [] else CONCEPT_KINDS), 0)
      else if slot == "3038x" then (SCORE_KINDS, 1)
      else if slot == "3039x" then (LIST_KINDS, 1)
      else ([FiveDigitValue(slot)], 3);
    var scope :=
      if segs == [] then All
      else if
        && slot != "*"
        && AllScoreKinds(kinds)
        && |segs| == 1 && segs[0] != "" && segs[0] !in SYSTEM_WORDS
      then Metric(segs[0])
      else Unchecked(norm);
    Key(norm, slot, kinds, segs, rank, scope)
  }

  /** A key is its kind slot and later segments: everything else is read off those two. */
  ghost predicate Shaped(k: Key) {
    && KindSlot(k.slot)
    && k.norm == Join([k.slot] + k.segs, ':')
    && (k.segs != [] ==> k.segs[|k.segs| - 1] != "")
    && (IsConceptSlot(k.slot) ==> |k.segs| <= 1)
    && (!IsConceptSlot(k.slot) ==> forall s :: s in k.segs ==> ':' !in s)
    && k.rank == RankOf(k.slot, k.segs)
    && k.kinds == KindsOf(k.slot, k.segs)
    && k.scope == ScopeOf(k.slot, k.segs)
  }

  function RankOf(slot: string, segs: seq<string>): int {
    if slot == "*" then 0
    else if slot == "3038x" || slot == "3039x" then 1
    else if slot == "39998" && segs == [] then 2
    else 3
  }

  function KindsOf(slot: string, segs: seq<string>): (kinds: seq<int>)
    requires KindSlot(slot)
    ensures kinds != []
  {
    if slot == "*" then SCORE_KINDS + LIST_KINDS + (if segs != [] then [] else CONCEPT_KINDS)
    else if slot == "3038x" then SCORE_KINDS
    else if slot == "3039x" then LIST_KINDS
    else if slot == "39998" && segs == [] then CONCEPT_KINDS
    else [FiveDigitValue(slot)]
  }

  function ScopeOf(slot: string, segs: seq<string>): Scope
    requires KindSlot(slot)
  {
    if segs == [] then All
    else if IsConceptSlot(slot) then D(segs[0])
    else if
      && (slot == "3038x" || (FiveDigits(slot) && IsScoreKind(FiveDigitValue(slot))))
      && |segs| == 1 && segs[0] != "" && segs[0] !in SYSTEM_WORDS
    then Metric(segs[0])
    else Unchecked(Join([slot] + segs, ':'))
  }

  lemma SlotHasNoColon(slot: string)
    requires KindSlot(slot)
    ensures ':' !in slot
  {
    assert forall c :: c in slot ==> c != ':';
  }

  lemma ConceptSlots()
    ensures KindSlot("39998") && KindSlot("39999")
    ensures FiveDigitValue("39998") == 39998 && FiveDigitValue("39999") == 39999
  {
  }

  lemma NormalFormSegments(key: string)
    requires KindSlot(SlotOf(key)) && !IsConceptSlot(SlotOf(key))
    ensures var segs := Split(NormalizeKey(key), ':')[1..];
            && NormalizeKey(key) == Join([SlotOf(key)] + segs, ':')
            && (segs != [] ==> segs[|segs| - 1] != "")
            && forall s :: s in segs ==> ':' !in s
  {
    var slot, rest := SlotOf(key), RestOf(key);
    SlotHasNoColon(slot);
    var segs := DropTrailingEmpty(if rest == "" then [] else Split(rest, ':'));
    SplitJoin([slot] + segs, ':');
  }

  lemma ScoreSlots(slot: string, segs: seq<string>)
    requires KindSlot(slot) && !IsConceptSlot(slot) && slot != "*"
    ensures AllScoreKinds(KindsOf(slot, segs)) <==>
              slot == "3038x" || (FiveDigits(slot) && IsScoreKind(FiveDigitValue(slot)))
  {
    if slot == "3039x" {
      assert 30390 in KindsOf(slot, segs);
    } else if slot != "3038x" {
      assert FiveDigitValue(slot) in KindsOf(slot, segs);
    }
  }

  lemma PlainKeyShaped(norm: string, slot: string)
    requires KindSlot(slot) && !IsConceptSlot(slot)
    requires var segs := Split(norm, ':')[1..];
             && norm == Join([slot] + segs, ':')
             && (segs != [] ==> segs[|segs| - 1] != "")
    ensures Shaped(PlainKey(norm, slot))
  {
    var k := PlainKey(norm, slot);
    assert k.kinds == KindsOf(slot, k.segs);
    if slot != "*" {
      ScoreSlots(slot, k.segs);
    }
  }

  lemma ConceptKeyShaped(norm: string, slot: string)
    requires IsConceptSlot(slot)
    requires norm == slot || (norm == slot + ":" + RestOf(norm) && RestOf(norm) != "")
    ensures Shaped(ConceptKey(norm, slot))
  {
    ConceptSlots();
    var k := ConceptKey(norm, slot);
    if norm != slot {
      assert ([slot] + k.segs)[1..] == k.segs;
    }
  }

  /** A concept key that is neither bare nor nameless spells out a `d`. */
  lemma ConceptRest(key: string)
    requires IsConceptSlot(SlotOf(key)) && NormalizeKey(key) !in NAMELESS_KEYS
    ensures var norm, slot := NormalizeKey(key), SlotOf(key);
            norm == slot || (norm == slot + ":" + RestOf(norm) && RestOf(norm) != "")
  {
    var slot, colon := SlotOf(key), Find(key, ':');
    if 0 <= colon {
      BareColonIsNameless(slot);
      assert key == slot + ":" + RestOf(key);
      assert RestOf(key) == "" ==> key == slot + ":";
    }
  }

  lemma BareColonIsNameless(slot: string)
    requires IsConceptSlot(slot)
    ensures slot + ":" in NAMELESS_KEYS
  {
    assert NAMELESS_KEYS[0] == "39998" + ":" && NAMELESS_KEYS[1] == "39999" + ":";
  }

  /** Parsing yields a key determined by its slot and segments. */
  lemma ParseShaped(key: string)
    requires ParseKey(key).Some?
    ensures Shaped(ParseKey(key).value)
  {
    if IsConceptSlot(SlotOf(key)) {
      ConceptRest(key);
      ConceptKeyShaped(NormalizeKey(key), SlotOf(key));
    } else {
      NormalFormSegments(key);
      PlainKeyShaped(NormalizeKey(key), SlotOf(key));
    }
  }

  lemma SlotOfJoin(slot: string, segs: seq<string>)
    requires ':' !in slot
    ensures SlotOf(Join([slot] + segs, ':')) == slot
    ensures segs == [] ==> RestOf(Join([slot] + segs, ':')) == ""
    ensures segs != [] ==> RestOf(Join([slot] + segs, ':')) == Join(segs, ':')
  {
    var parts := [slot] + segs;
    if segs != [] {
      assert parts[1..] == segs;
      var s := slot + [':'] + Join(segs, ':');
      FindFirst(slot, ':', Join(segs, ':'));
      assert s[..|slot|] == slot && s[|slot| + 1..] == Join(segs, ':');
    }
  }

  lemma NormalizeFixed(slot: string, segs: seq<string>)
    requires KindSlot(slot) && !IsConceptSlot(slot)
    requires segs != [] ==> segs[|segs| - 1] != ""
    requires forall s :: s in segs ==> ':' !in s
    ensures NormalizeKey(Join([slot] + segs, ':')) == Join([slot] + segs, ':')
  {
    SlotHasNoColon(slot);
    SlotOfJoin(slot, segs);
    if segs != [] {
      SplitJoin(segs, ':');
      JoinNonempty(segs);
    }
  }

  lemma {:induction false} JoinNonempty(segs: seq<string>)
    requires segs != [] && segs[|segs| - 1] != ""
    ensures Join(segs, ':') != ""
  {
    if |segs| > 1 {
      JoinNonempty(segs[1..]);
    }
  }

  /** Parsing is idempotent on normal forms: a key's normal form parses to that very key. */
  lemma ParseIdempotent(key: string)
    requires ParseKey(key).Some?
    ensures ParseKey(ParseKey(key).value.norm) == ParseKey(key)
  {
    var k := ParseKey(key).value;
    ParseShaped(key);
    ReadNorm(key);
    NormFixed(k, key);
    SameReading(k.norm, key);
  }

  lemma SameReading(a: string, b: string)
    requires SlotOf(a) == SlotOf(b) && NormalizeKey(a) == NormalizeKey(b)
    ensures ParseKey(a) == ParseKey(b)
  {
  }

  lemma ReadNorm(key: string)
    requires ParseKey(key).Some?
    ensures var k := ParseKey(key).value; k.norm == NormalizeKey(key) && k.slot == SlotOf(key)
  {
  }

  /** A normal form is its own. */
  lemma NormFixed(k: Key, key: string)
    requires Shaped(k) && k.norm == NormalizeKey(key) && k.slot == SlotOf(key)
    ensures SlotOf(k.norm) == k.slot && NormalizeKey(k.norm) == k.norm
  {
    SlotHasNoColon(k.slot);
    SlotOfJoin(k.slot, k.segs);
    if IsConceptSlot(k.slot) {
      if NormalizeKey(key) != key {
        assert k.norm == "39998" == k.slot;
        assert RestOf(k.norm) == "";
      }
    } else {
      NormalizeFixed(k.slot, k.segs);
    }
  }

  /** The spelling fixes the key. */
  lemma NormDeterminesKey(a: Key, b: Key)
    requires Shaped(a) && Shaped(b)
    ensures a.norm == b.norm <==> a == b
    ensures a.slot == b.slot && a.segs == b.segs ==> a == b
  {
    SlotHasNoColon(a.slot);
    SlotHasNoColon(b.slot);
    SlotOfJoin(a.slot, a.segs);
    SlotOfJoin(b.slot, b.segs);
    if a.norm == b.norm {
      if IsConceptSlot(a.slot) {
        assert a.segs == if a.segs == [] then [] else [RestOf(a.norm)];
        assert b.segs == if b.segs == [] then [] else [RestOf(b.norm)];
      } else {
        SplitJoin([a.slot] + a.segs, ':');
        SplitJoin([b.slot] + b.segs, ':');
        assert ([a.slot] + a.segs)[1..] == a.segs && ([b.slot] + b.segs)[1..] == b.segs;
      }
    }
  }

  /** Outside the Concept slots, a slot and segments in normal form spell a key that parses back to them. */
  lemma PlainSpelled(slot: string, segs: seq<string>)
    requires KindSlot(slot) && !IsConceptSlot(slot)
    requires segs != [] ==> segs[|segs| - 1] != ""
    requires forall s :: s in segs ==> ':' !in s
    ensures var k := ParseKey(Join([slot] + segs, ':'));
            k.Some? && Shaped(k.value) && k.value.slot == slot && k.value.segs == segs
  {
    var norm := Join([slot] + segs, ':');
    PlainNorm(slot, segs);
    PlainParses(norm, slot);
    PlainReadsBack(slot, segs);
  }

  lemma PlainReadsBack(slot: string, segs: seq<string>)
    requires KindSlot(slot) && !IsConceptSlot(slot)
    requires segs != [] ==> segs[|segs| - 1] != ""
    requires forall s :: s in segs ==> ':' !in s
    ensures var k := PlainKey(Join([slot] + segs, ':'), slot); Shaped(k) && k.slot == slot && k.segs == segs
  {
    PlainSegs(slot, segs);
    PlainKeyShaped(Join([slot] + segs, ':'), slot);
  }

  lemma PlainNorm(slot: string, segs: seq<string>)
    requires KindSlot(slot) && !IsConceptSlot(slot)
    requires segs != [] ==> segs[|segs| - 1] != ""
    requires forall s :: s in segs ==> ':' !in s
    ensures var norm := Join([slot] + segs, ':'); SlotOf(norm) == slot && NormalizeKey(norm) == norm
  {
    SlotHasNoColon(slot);
    SlotOfJoin(slot, segs);
    NormalizeFixed(slot, segs);
  }

  lemma PlainSegs(slot: string, segs: seq<string>)
    requires KindSlot(slot) && forall s :: s in segs ==> ':' !in s
    ensures var parts := Split(Join([slot] + segs, ':'), ':'); parts != [] && parts[1..] == segs
  {
    SlotHasNoColon(slot);
    SplitJoin([slot] + segs, ':');
    assert ([slot] + segs)[1..] == segs;
  }

  lemma PlainParses(norm: string, slot: string)
    requires KindSlot(slot) && !IsConceptSlot(slot) && SlotOf(norm) == slot && NormalizeKey(norm) == norm
    ensures ParseKey(norm) == Some(PlainKey(norm, slot))
  {
    if norm in NAMELESS_KEYS {
      NamelessSlot(norm);
    }
  }

  lemma SlotOfCut(pre: string, post: string)
    requires ':' !in pre
    ensures SlotOf(pre + ":" + post) == pre
  {
    FindFirst(pre, ':', post);
  }

  lemma NamelessSlot(n: string)
    requires n in NAMELESS_KEYS
    ensures IsConceptSlot(SlotOf(n))
  {
    var slot := n[..5];
    assert IsConceptSlot(slot) && n == slot + ":" + n[6..];
    SlotOfCut(slot, n[6..]);
  }

  /** Slot and segments in normal form: no trailing empty one, and one `d` at most after a Concept slot. */
  ghost predicate Spelled(slot: string, segs: seq<string>) {
    && KindSlot(slot) && (segs != [] ==> segs[|segs| - 1] != "")
    && if IsConceptSlot(slot) then |segs| <= 1 else forall s :: s in segs ==> ':' !in s
  }

  /** A bare `39998` also has the spelling `39998:dlist-header`; some Concept keys name nothing. */
  predicate Reserved(slot: string, segs: seq<string>) {
    Join([slot] + segs, ':') in NAMELESS_KEYS || (slot == "39998" && segs == ["dlist-header"])
  }

  lemma ConceptSpelled(slot: string, segs: seq<string>)
    requires IsConceptSlot(slot) && Spelled(slot, segs) && !Reserved(slot, segs)
    ensures var k := ParseKey(Join([slot] + segs, ':'));
            k.Some? && Shaped(k.value) && k.value.slot == slot && k.value.segs == segs
  {
    var norm := Join([slot] + segs, ':');
    ConceptSlots();
    SlotHasNoColon(slot);
    SlotOfJoin(slot, segs);
    if segs != [] {
      assert segs == [segs[0]] && Join(segs, ':') == segs[0];
      assert norm == slot + ":" + segs[0];
    }
    assert NormalizeKey(norm) == norm;
    ParseShaped(norm);
  }

  /** A slot and segments in normal form spell a key that parses back to exactly them, if and only if they are
      none of the reserved Concept spellings. */
  lemma ParseSpelled(slot: string, segs: seq<string>)
    requires Spelled(slot, segs)
    ensures var k := ParseKey(Join([slot] + segs, ':'));
            k.Some? && Shaped(k.value) && k.value.slot == slot && k.value.segs == segs <==> !Reserved(slot, segs)
  {
    var norm := Join([slot] + segs, ':');
    SlotHasNoColon(slot);
    SlotOfJoin(slot, segs);
    if !IsConceptSlot(slot) {
      PlainSpelled(slot, segs);
      if norm in NAMELESS_KEYS {
        NamelessSlot(norm);
      }
    } else if !Reserved(slot, segs) {
      ConceptSpelled(slot, segs);
    } else {
      ReservedReads(slot, segs);
    }
  }

  lemma ReservedReads(slot: string, segs: seq<string>)
    requires IsConceptSlot(slot) && Spelled(slot, segs) && Reserved(slot, segs)
    ensures var k := ParseKey(Join([slot] + segs, ':')); k.None? || k.value.segs != segs
  {
    var norm := Join([slot] + segs, ':');
    ConceptSlots();
    SlotHasNoColon(slot);
    SlotOfJoin(slot, segs);
    if slot == "39998" && segs == ["dlist-header"] {
      assert RestOf(norm) == "dlist-header" && NormalizeKey(norm) == "39998";
    } else {
      assert NormalizeKey(norm) == norm || RestOf(norm) == "dlist-header";
    }
  }

  // --- Specificity order ---

  function HeadOr(segs: seq<string>): string { if segs == [] then "" else segs[0] }
  function TailOr(segs: seq<string>): (r: seq<string>)
    ensures segs == [] ==> r == []
    ensures segs != [] ==> |r| == |segs| - 1
  {
    if segs == [] then [] else segs[1..]
  }

  function CompareSegs(a: seq<string>, b: seq<string>): int
    decreases |a| + |b|
  {
    if a == [] && b == [] then 0
    else
      var va, vb := HeadOr(a), HeadOr(b);
      if va == vb then CompareSegs(TailOr(a), TailOr(b))
      else if va != "" && vb == "" then -1
      else if vb != "" && va == "" then 1
      else if Less(va, vb) then -1 else 1
  }

  /** Negative when `a` is the more specific. */
  function CompareKeys(a: Key, b: Key): int {
    if a.rank != b.rank then b.rank - a.rank
    else if a.slot != b.slot then if Less(a.slot, b.slot) then -1 else 1
    else CompareSegs(a.segs, b.segs)
  }

  predicate MoreSpecific(a: Key, b: Key) { CompareKeys(a, b) < 0 }

  lemma {:induction false} CompareSegsAntisymmetric(a: seq<string>, b: seq<string>)
    ensures CompareSegs(a, b) < 0 <==> CompareSegs(b, a) > 0
    decreases |a| + |b|
  {
    if !(a == [] && b == []) {
      LessTrichotomy(HeadOr(a), HeadOr(b));
      if HeadOr(a) == HeadOr(b) {
        CompareSegsAntisymmetric(TailOr(a), TailOr(b));
      }
    }
  }

  lemma {:induction false} CompareSegsTransitive(a: seq<string>, b: seq<string>, c: seq<string>)
    requires CompareSegs(a, b) < 0 && CompareSegs(b, c) < 0
    ensures CompareSegs(a, c) < 0
    decreases |a| + |b| + |c|
  {
    var va, vb, vc := HeadOr(a), HeadOr(b), HeadOr(c);
    if va == vb == vc {
      CompareSegsTransitive(TailOr(a), TailOr(b), TailOr(c));
    } else {
      LessTrichotomy(va, vc);
      if Less(va, vb) && Less(vb, vc) {
        LessTransitive(va, vb, vc);
      }
    }
  }

  lemma {:induction false} CompareSegsZero(a: seq<string>, b: seq<string>)
    requires a != [] ==> a[|a| - 1] != ""
    requires b != [] ==> b[|b| - 1] != ""
    ensures CompareSegs(a, b) == 0 <==> a == b
    decreases |a| + |b|
  {
    if !(a == [] && b == []) && HeadOr(a) == HeadOr(b) {
      if a == [] {
        assert b[0] == "" && |b| > 1;
        CompareSegsZero(a, TailOr(b));
      } else if b == [] {
        assert a[0] == "" && |a| > 1;
        CompareSegsZero(TailOr(a), b);
      } else {
        CompareSegsZero(TailOr(a), TailOr(b));
        assert a == [a[0]] + a[1..] && b == [b[0]] + b[1..];
      }
    }
  }

  lemma CompareKeysAntisymmetric(a: Key, b: Key)
    ensures MoreSpecific(a, b) <==> CompareKeys(b, a) > 0
  {
    LessTrichotomy(a.slot, b.slot);
    CompareSegsAntisymmetric(a.segs, b.segs);
  }

  /** `compare_keys` is a strict total order on parsed keys, and zero exactly on one spelling. */
  lemma CompareKeysTotalOrder(a: Key, b: Key)
    requires Shaped(a) && Shaped(b)
    ensures MoreSpecific(a, b) <==> CompareKeys(b, a) > 0
    ensures CompareKeys(a, b) == 0 <==> a.norm == b.norm
  {
    CompareKeysAntisymmetric(a, b);
    CompareSegsZero(a.segs, b.segs);
    NormDeterminesKey(a, b);
  }

  lemma CompareKeysTransitive(a: Key, b: Key, c: Key)
    requires MoreSpecific(a, b) && MoreSpecific(b, c)
    ensures MoreSpecific(a, c)
  {
    if a.rank == b.rank == c.rank {
      if a.slot == b.slot == c.slot {
        CompareSegsTransitive(a.segs, b.segs, c.segs);
      } else if Less(a.slot, b.slot) && Less(b.slot, c.slot) {
        LessTransitive(a.slot, b.slot, c.slot);
        LessTrichotomy(a.slot, c.slot);
        LessTrichotomy(a.slot, a.slot);
      }
    }
  }

  lemma {:induction false} CompareSegsCotransitive(a: seq<string>, b: seq<string>, c: seq<string>)
    requires CompareSegs(a, c) < 0
    ensures CompareSegs(a, b) < 0 || CompareSegs(b, c) < 0
    decreases |a| + |b| + |c|
  {
    var va, vb, vc := HeadOr(a), HeadOr(b), HeadOr(c);
    if va == vb == vc {
      CompareSegsCotransitive(TailOr(a), TailOr(b), TailOr(c));
    } else {
      LessTrichotomy(va, vb);
      if Less(vb, va) && Less(va, vc) {
        LessTransitive(vb, va, vc);
      }
    }
  }

  /** Whatever a key is more specific than, any third key is on one side of the two. */
  lemma CompareKeysCotransitive(a: Key, b: Key, c: Key)
    requires MoreSpecific(a, c)
    ensures MoreSpecific(a, b) || MoreSpecific(b, c)
  {
    if a.rank == b.rank == c.rank {
      if a.slot == b.slot == c.slot {
        CompareSegsCotransitive(a.segs, b.segs, c.segs);
      } else {
        LessTrichotomy(a.slot, b.slot);
        if Less(b.slot, a.slot) && Less(a.slot, c.slot) {
          LessTransitive(b.slot, a.slot, c.slot);
        }
      }
    }
  }

  // --- Matching and covering ---

  predicate Matches(key: Key, probe: Probe) {
    && probe.kind in key.kinds
    && match key.scope
       case All => true
       case Metric(_) => probe.scope == key.scope
       case D(_) => probe.scope == key.scope
       case _ => probe.scope == Unchecked(key.norm)
  }

  predicate Covers(row: Key, key: Key) {
    && (forall kind :: kind in key.kinds ==> kind in row.kinds)
    && match row.scope
       case All => true
       case Unchecked(_) => row.norm == key.norm
       case _ => key.scope == row.scope
  }

  /** The kinds a slot is about: a family, everything, or one kind; bare, `*` and `39998` take in Concepts. */
  predicate SlotTakes(slot: string, bare: bool, kind: int) {
    || (slot == "*" && (30380 <= kind <= 30399 || (bare && IsConceptKind(kind))))
    || (slot == "3038x" && IsScoreKind(kind))
    || (slot == "3039x" && IsListKind(kind))
    || (slot == "39998" && bare && IsConceptKind(kind))
    || (FiveDigits(slot) && kind == FiveDigitValue(slot))
  }

  /** One segment names a metric in a slot of Scores only, unless it is empty or a system word. */
  predicate NamesMetric(slot: string, segs: seq<string>) {
    && (slot == "3038x" || (FiveDigits(slot) && IsScoreKind(FiveDigitValue(slot))))
    && |segs| == 1 && segs[0] != "" && segs[0] !in SYSTEM_WORDS
  }

  /** Which insights a key matches, read off its slot and segments: of the slot's kinds all where it is bare,
      one `d` of a Concept slot, one metric of Scores, else a region of its own that nobody checks. */
  lemma KeyMatches(k: Key, p: Probe)
    requires Shaped(k)
    ensures Matches(k, p) <==>
            && SlotTakes(k.slot, k.segs == [], p.kind)
            && (k.segs != [] ==>
                  p.scope == if IsConceptSlot(k.slot) then D(k.segs[0])
                             else if NamesMetric(k.slot, k.segs) then Metric(k.segs[0])
                             else Unchecked(k.norm))
  {
    ConceptSlots();
    KindTaken(k.slot, k.segs, p.kind);
  }

  lemma KindTaken(slot: string, segs: seq<string>, kind: int)
    requires KindSlot(slot)
    ensures kind in KindsOf(slot, segs) <==> SlotTakes(slot, segs == [], kind)
  {
    ConceptSlots();
  }

  /** Covering is exactly containment of matched insights, over the whole (infinite) insight space. */
  lemma CoversIsContainment(row: Key, key: Key)
    requires Shaped(row) && Shaped(key)
    ensures Covers(row, key) <==> forall p :: Matches(key, p) ==> Matches(row, p)
  {
    NormDeterminesKey(row, key);
    if !Covers(row, key) {
      var kind := key.kinds[0];
      if k :| k in key.kinds && k !in row.kinds {
        kind := k;
      }
      var p := Probe(kind, if key.scope.All? then Other else key.scope);
      assert Matches(key, p) && !Matches(row, p);
    }
  }

  /** The kinds a key covers, by the rank of its slot. */
  ghost predicate RankedKinds(slot: string, kinds: seq<int>, rank: int) {
    && (rank == 3 ==> FiveDigits(slot) && kinds == [FiveDigitValue(slot)])
    && (rank == 2 ==> slot == "39998" && kinds == CONCEPT_KINDS)
    && (rank == 1 ==> (slot == "3038x" && kinds == SCORE_KINDS) || (slot == "3039x" && kinds == LIST_KINDS))
    && (rank == 0 ==> slot == "*" && 30380 in kinds && 30390 in kinds)
    && 0 <= rank <= 3
  }

  lemma KindsByRank(k: Key)
    requires Shaped(k)
    ensures RankedKinds(k.slot, k.kinds, k.rank)
  {
    ConceptSlots();
    if k.rank == 0 {
      assert k.kinds[0] == 30380 && k.kinds[10] == 30390;
    }
  }

  lemma CoveredRank(slot: string, kinds: seq<int>, rank: int, slot': string, kinds': seq<int>, rank': int)
    requires RankedKinds(slot, kinds, rank) && RankedKinds(slot', kinds', rank')
    requires forall kind :: kind in kinds' ==> kind in kinds
    ensures rank <= rank'
    ensures rank == rank' ==> slot == slot'
  {
    assert rank' == 3 ==> kinds'[0] in kinds;
    assert rank' == 2 || rank' == 1 ==> kinds'[0] in kinds && kinds'[1] in kinds;
    if rank == 3 && rank' == 3 {
      FiveDigitValueInjective(slot, slot');
    }
  }

  /** A key strictly inside another is the more specific of the two. */
  lemma CoveredIsMoreSpecific(row: Key, key: Key)
    requires Shaped(row) && Shaped(key) && Covers(row, key) && row.norm != key.norm
    ensures MoreSpecific(key, row)
  {
    KindsByRank(row);
    KindsByRank(key);
    CoveredRank(row.slot, row.kinds, row.rank, key.slot, key.kinds, key.rank);
    NormDeterminesKey(row, key);
    if row.slot == key.slot {
      ConceptSlots();
      assert row.scope.All? ==> row.segs == [];
      assert row.segs == [] && key.segs != [];
      EmptyIsLeastSpecific(key.segs);
    }
  }

  lemma {:induction false} EmptyIsLeastSpecific(segs: seq<string>)
    requires segs != [] && segs[|segs| - 1] != ""
    ensures CompareSegs(segs, []) < 0
  {
    if segs[0] == "" {
      EmptyIsLeastSpecific(segs[1..]);
    }
  }
}
