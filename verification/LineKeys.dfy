/** The key a duty line is shown under, `_line_key` of app/services/self_map_build.py, and which insights it stands for. */
module LineKeys {
  import opened Text
  import opened TreasureKeys
  import opened TreasureMap
  import opened SelfMap
  import opened AssistantMap

  predicate ProfilesSpelling(key: Key) {
    && (key.slot == "30392" || key.slot == "30382")
    && |key.segs| >= 3
    && (key.segs[0] == "tag" || key.segs[0] == "pin")
    && key.segs[1] == ""
  }

  function CommonKinds(a: seq<int>, b: seq<int>): seq<int> {
    if a == [] then [] else (if a[0] in b then [a[0]] else []) + CommonKinds(a[1..], b)
  }

  function LineKey(key: Key, row: Key): string {
    if Covers(row, key) then key.norm
    else if Covers(key, row) then row.norm
    else
      var common := CommonKinds(key.kinds, row.kinds);
      var meet := if |common| == 1 then MeetOf(key, common[0]) else None;
      if meet.None? || (ProfilesSpelling(meet.value) && !ProfilesSpelling(key)) then key.norm else meet.value.norm
  }

  /** A key as parsed: its normal form parses to it. */
  ghost predicate Parsed(k: Key) {
    Shaped(k) && ParseKey(k.norm) == Some(k)
  }

  lemma ParseParsed(s: string)
    requires ParseKey(s).Some?
    ensures Parsed(ParseKey(s).value)
  {
    ParseShaped(s);
    ParseIdempotent(s);
  }

  lemma {:induction false} CommonMembers(a: seq<int>, b: seq<int>, kind: int)
    ensures kind in CommonKinds(a, b) <==> kind in a && kind in b
  {
    if a != [] {
      CommonMembers(a[1..], b, kind);
      assert a == [a[0]] + a[1..];
    }
  }

  // --- Narrowing a key to one of its kinds ---

  /** The slot of a narrowed key is the kind, and its segments are the key's. */
  lemma MeetReads(key: Key, kind: int)
    requires Shaped(key) && MeetOf(key, kind).Some?
    ensures var m := MeetOf(key, kind).value;
            && Parsed(m) && m.slot == StrOf(kind) && FiveDigits(m.slot) && FiveDigitValue(m.slot) == kind
  {
    var s := Join([StrOf(kind)] + key.segs, ':');
    SignedDigits(kind);
    DigitsAreNoWildcard(StrOf(kind));
    SlotOfJoin(StrOf(kind), key.segs);
    ParsedSlot(s);
    ParseParsed(s);
    FiveDigitNumber(StrOf(kind));
    if kind >= 0 {
      NumberOfDecimal(kind);
    }
  }

  /** A kind in a Concept slot is a Concept kind. */
  lemma ConceptValue(slot: string)
    requires FiveDigits(slot)
    ensures IsConceptSlot(slot) <==> IsConceptKind(FiveDigitValue(slot))
  {
    ConceptSlots();
    if FiveDigitValue(slot) == 39998 {
      FiveDigitValueInjective(slot, "39998");
    }
    if FiveDigitValue(slot) == 39999 {
      FiveDigitValueInjective(slot, "39999");
    }
  }

  /** Among the wildcards, one with a region of its own is over no Concept kind. */
  lemma WildKinds(slot: string, segs: seq<string>, kind: int)
    requires (slot == "*" || slot == "3038x" || slot == "3039x") && segs != [] && kind in KindsOf(slot, segs)
    ensures !IsConceptKind(kind)
  {
  }

  /** A key with a region of its own is over a Concept kind only where it names a `d`. */
  lemma RegionKinds(key: Key, kind: int)
    requires Shaped(key) && kind in key.kinds && key.segs != []
    ensures IsConceptKind(kind) <==> IsConceptSlot(key.slot)
    ensures IsConceptSlot(key.slot) ==> kind == FiveDigitValue(key.slot)
  {
    if FiveDigits(key.slot) {
      ConceptValue(key.slot);
      assert key.kinds == [FiveDigitValue(key.slot)];
    } else {
      ConceptSlots();
      WildKinds(key.slot, key.segs, kind);
    }
  }

  lemma MeetSegs(key: Key, kind: int)
    requires Parsed(key) && kind in key.kinds && MeetOf(key, kind).Some?
    ensures MeetOf(key, kind).value.segs == key.segs
  {
    MeetReads(key, kind);
    var slot := StrOf(kind);
    ConceptValue(slot);
    if !IsConceptSlot(slot) {
      if key.segs != [] {
        RegionKinds(key, kind);
      }
      PlainSpelled(slot, key.segs);
    } else if key.segs == [] {
      BareConcept(slot);
    } else {
      RegionKinds(key, kind);
      FiveDigitValueInjective(slot, key.slot);
    }
  }

  lemma BareConcept(slot: string)
    requires IsConceptSlot(slot)
    ensures ParseKey(Join([slot] + [], ':')).Some? ==> ParseKey(Join([slot] + [], ':')).value.segs == []
  {
    ConceptSlots();
    assert [slot] + [] == [slot];
    SlotHasNoColon(slot);
    assert SlotOf(slot) == slot && RestOf(slot) == "";
  }

  /** `m` is `key` narrowed to `kind`: the kind in its slot, the segments kept. */
  ghost predicate NarrowedTo(m: Key, key: Key, kind: int) {
    Shaped(m) && FiveDigits(m.slot) && FiveDigitValue(m.slot) == kind && m.segs == key.segs
  }

  lemma MeetIsNarrowed(key: Key, kind: int)
    requires Parsed(key) && kind in key.kinds && MeetOf(key, kind).Some?
    ensures NarrowedTo(MeetOf(key, kind).value, key, kind) && Parsed(MeetOf(key, kind).value)
  {
    MeetReads(key, kind);
    MeetSegs(key, kind);
  }

  /** Narrowed to one of its kinds, a key covers that kind and none it did not. */
  lemma NarrowedKinds(m: Key, key: Key, kind: int)
    requires Shaped(key) && kind in key.kinds && NarrowedTo(m, key, kind)
    ensures kind in m.kinds && forall k :: k in m.kinds ==> k in key.kinds
  {
    ConceptValue(m.slot);
    if m.slot == "39998" && key.segs == [] {
      ConceptSlots();
      BothConceptKinds(key);
      assert m.kinds == CONCEPT_KINDS;
    } else {
      assert m.kinds == [kind];
    }
  }

  /** It keeps its region there; an unchecked region may become another, never all of the kind. */
  lemma NarrowedScope(m: Key, key: Key, kind: int)
    requires Shaped(key) && kind in key.kinds && NarrowedTo(m, key, kind)
    ensures key.scope.All? ==> m.scope.All?
    ensures key.scope.Metric? || key.scope.D? ==> m.scope == key.scope
    ensures key.scope.Unchecked? ==> !m.scope.All?
  {
    ConceptValue(m.slot);
    if key.segs != [] {
      RegionKinds(key, kind);
    }
    if key.scope.Metric? {
      MetricKeyKinds(key, kind);
    }
  }

  lemma BothConceptKinds(key: Key)
    requires Shaped(key) && key.segs == [] && 39998 in key.kinds
    ensures 39999 in key.kinds
  {
    if FiveDigits(key.slot) {
      ConceptValue(key.slot);
    }
    assert 39999 in CONCEPT_KINDS;
  }

  // --- What the line's key stands for ---

  /** The region of tag or pin profiles, which keeps the reader's spelling. */
  predicate InProfiles(segs: seq<string>, kind: int) {
    (kind == 30382 || kind == 30392) && |segs| >= 3 && (segs[0] == "tag" || segs[0] == "pin") && segs[1] == ""
  }

  /** The line spells an unchecked key of several kinds by the one kind a row of all of it shares. */
  predicate Respelt(key: Key, row: Key) {
    var common := CommonKinds(key.kinds, row.kinds);
    key.scope.Unchecked? && row.scope.All? && |key.kinds| > 1 && |common| == 1 && !InProfiles(key.segs, common[0])
  }

  lemma DecimalFive(n: nat)
    requires 10000 <= n < 100000
    ensures FiveDigits(Decimal(n)) && FiveDigitValue(Decimal(n)) == n
  {
    var a := n / 10;
    var b := a / 10;
    var c := b / 10;
    var d := c / 10;
    assert 1 <= d < 10 && |Decimal(d)| == 1 && |Decimal(c)| == 2 && |Decimal(b)| == 3 && |Decimal(a)| == 4;
    NumberOfDecimal(n);
    assert forall i :: 0 <= i < 5 ==> Decimal(n)[i] in Decimal(n);
    FiveDigitNumber(Decimal(n));
  }

  /** An unchecked key is over several kinds exactly under a wildcard slot, all of them Scores or Lists. */
  lemma UncheckedKinds(key: Key)
    requires Shaped(key) && key.scope.Unchecked?
    ensures |key.kinds| > 1 <==> !FiveDigits(key.slot)
    ensures |key.kinds| > 1 ==> key.kinds[0] != key.kinds[1] && forall kind :: kind in key.kinds ==> 30380 <= kind <= 30399
    ensures !IsConceptSlot(key.slot)
  {
    if FiveDigits(key.slot) {
      assert key.kinds == [FiveDigitValue(key.slot)];
    } else {
      WildUnchecked(key.slot, key.segs);
    }
  }

  lemma WildUnchecked(slot: string, segs: seq<string>)
    requires (slot == "*" || slot == "3038x" || slot == "3039x") && segs != []
    ensures var kinds := KindsOf(slot, segs);
            |kinds| > 1 && kinds[0] != kinds[1] && forall kind :: kind in kinds ==> 30380 <= kind <= 30399
  {
  }

  lemma UncheckedMeetIs(key: Key, kind: int) returns (meet: Key)
    requires Parsed(key) && key.scope.Unchecked? && |key.kinds| > 1 && kind in key.kinds
    ensures MeetOf(key, kind) == Some(meet) && Shaped(meet) && meet.slot == StrOf(kind) && meet.segs == key.segs
    ensures FiveDigits(meet.slot) && !FiveDigits(key.slot) && 30380 <= kind <= 30399
  {
    UncheckedKinds(key);
    DecimalFive(kind);
    ConceptValue(StrOf(kind));
    PlainSpelled(StrOf(kind), key.segs);
    meet := MeetOf(key, kind).value;
  }

  /** Narrowed to one of several kinds, an unchecked key is another key, in the profiles' spelling only where it
      is in their region. */
  lemma UncheckedMeet(key: Key, kind: int) returns (meet: Key)
    requires Parsed(key) && key.scope.Unchecked? && |key.kinds| > 1 && kind in key.kinds
    ensures MeetOf(key, kind) == Some(meet) && meet.norm != key.norm
    ensures (ProfilesSpelling(meet) <==> InProfiles(key.segs, kind)) && !ProfilesSpelling(key)
  {
    meet := UncheckedMeetIs(key, kind);
    OtherSlot(meet, key);
    KindSlots(kind);
    ProfilesRegion(meet, key.segs, kind);
    NoProfiles(key);
  }

  lemma OtherSlot(a: Key, b: Key)
    requires Shaped(a) && Shaped(b) && FiveDigits(a.slot) && !FiveDigits(b.slot)
    ensures a.norm != b.norm
  {
    NormDeterminesKey(a, b);
  }

  lemma NoProfiles(key: Key)
    requires !FiveDigits(key.slot)
    ensures !ProfilesSpelling(key)
  {
    assert FiveDigits("30392") && FiveDigits("30382");
  }

  lemma KindSlots(kind: int)
    requires 30380 <= kind <= 30399
    ensures StrOf(kind) == "30382" <==> kind == 30382
    ensures StrOf(kind) == "30392" <==> kind == 30392
  {
    DecimalFive(kind);
    DecimalFive(30382);
    DecimalFive(30392);
    ScoreKindSpelling();
    ListKindSpelling();
  }

  lemma ListKindSpelling()
    ensures StrOf(30392) == "30392" && KindSlot("30392") && FiveDigitValue("30392") == 30392
  {
    DecimalFive(30392);
    FiveDigitValueInjective(Decimal(30392), "30392");
  }

  lemma ProfilesRegion(meet: Key, segs: seq<string>, kind: int)
    requires meet.segs == segs && (meet.slot == "30382" <==> kind == 30382) && (meet.slot == "30392" <==> kind == 30392)
    ensures ProfilesSpelling(meet) <==> InProfiles(segs, kind)
  {
  }

  /** With two kinds of which it shares one, the key is not covered. */
  lemma SharesOne(key: Key, row: Key)
    requires |CommonKinds(key.kinds, row.kinds)| == 1 && |key.kinds| > 1 && key.kinds[0] != key.kinds[1]
    ensures !Covers(row, key)
  {
    CommonMembers(key.kinds, row.kinds, key.kinds[0]);
    CommonMembers(key.kinds, row.kinds, key.kinds[1]);
    assert key.kinds[0] in key.kinds && key.kinds[1] in key.kinds;
  }

  /** With the one kind it has, it is. */
  lemma SharesAll(key: Key, row: Key)
    requires |CommonKinds(key.kinds, row.kinds)| == 1 && |key.kinds| == 1 && row.scope.All?
    ensures Covers(row, key)
  {
    CommonMembers(key.kinds, row.kinds, CommonKinds(key.kinds, row.kinds)[0]);
  }

  lemma LineKeyOwn(key: Key, row: Key)
    requires Covers(row, key) || (!Covers(key, row) && |CommonKinds(key.kinds, row.kinds)| != 1)
    ensures LineKey(key, row) == key.norm
  {
  }

  lemma LineKeyNarrowed(key: Key, row: Key, kind: int, meet: Key)
    requires !Covers(row, key) && !Covers(key, row) && CommonKinds(key.kinds, row.kinds) == [kind] && MeetOf(key, kind) == Some(meet)
    ensures LineKey(key, row) == if ProfilesSpelling(meet) && !ProfilesSpelling(key) then key.norm else meet.norm
  {
  }

  lemma UncheckedCoversNone(key: Key, row: Key)
    requires Shaped(key) && Shaped(row) && key.scope.Unchecked? && row.scope.All?
    ensures !Covers(key, row)
  {
    NormDeterminesKey(key, row);
  }

  lemma RespeltAmongMany(key: Key, row: Key)
    requires Parsed(key) && key.scope.Unchecked? && row.scope.All? && !Covers(key, row) && !Covers(row, key)
    requires |key.kinds| > 1 && |CommonKinds(key.kinds, row.kinds)| == 1
    ensures Respelt(key, row) <==> LineKey(key, row) != key.norm
  {
    var kind := CommonKinds(key.kinds, row.kinds)[0];
    CommonMembers(key.kinds, row.kinds, kind);
    var meet := UncheckedMeet(key, kind);
    LineKeyNarrowed(key, row, kind, meet);
  }

  lemma RespeltElse(key: Key, row: Key)
    requires row.scope.All? && !Covers(key, row) && (|key.kinds| == 1 || |CommonKinds(key.kinds, row.kinds)| != 1)
    ensures !Respelt(key, row) && LineKey(key, row) == key.norm
  {
    if |CommonKinds(key.kinds, row.kinds)| == 1 {
      SharesAll(key, row);
    }
    LineKeyOwn(key, row);
  }

  /** The guard says when the line's key is not the reader's own. */
  lemma RespeltIs(key: Key, row: Key)
    requires Parsed(key) && Parsed(row) && key.scope.Unchecked? && row.scope.All?
    ensures Respelt(key, row) <==> LineKey(key, row) != key.norm
  {
    UncheckedCoversNone(key, row);
    SomeKind(key);
    if |key.kinds| == 1 || |CommonKinds(key.kinds, row.kinds)| != 1 {
      RespeltElse(key, row);
    } else {
      UncheckedKinds(key);
      SharesOne(key, row);
      RespeltAmongMany(key, row);
    }
  }

  lemma SomeKind(key: Key)
    requires Shaped(key)
    ensures |key.kinds| >= 1
  {
  }

  /** The line's key is the reader's, the row's where the reader's covers it, or the reader's narrowed to the
      one kind they share. */
  lemma LineKeyIs(key: Key, row: Key) returns (line: Key)
    requires Parsed(key) && Parsed(row)
    ensures ParseKey(LineKey(key, row)) == Some(line) && line.norm == LineKey(key, row) && Shaped(line)
    ensures || line == key
            || (line == row && Covers(key, row) && !Covers(row, key))
            || (!Covers(row, key) && !Covers(key, row) && |CommonKinds(key.kinds, row.kinds)| == 1
                && NarrowedTo(line, key, CommonKinds(key.kinds, row.kinds)[0]))
  {
    if Covers(row, key) || LineKey(key, row) == key.norm {
      line := key;
    } else if Covers(key, row) {
      line := row;
    } else {
      line := LineKeyMeet(key, row);
    }
  }

  lemma LineKeyMeet(key: Key, row: Key) returns (line: Key)
    requires Parsed(key) && !Covers(row, key) && !Covers(key, row) && LineKey(key, row) != key.norm
    ensures |CommonKinds(key.kinds, row.kinds)| == 1 && NarrowedTo(line, key, CommonKinds(key.kinds, row.kinds)[0])
    ensures Parsed(line) && line.norm == LineKey(key, row)
  {
    var kind := CommonKinds(key.kinds, row.kinds)[0];
    CommonMembers(key.kinds, row.kinds, kind);
    line := MeetOf(key, kind).value;
    MeetIsNarrowed(key, kind);
  }

  ghost predicate StandsForPart(line: Key, key: Key, row: Key) {
    forall p :: Matches(key, p) && Matches(row, p) ==> Matches(line, p)
  }

  ghost predicate Within(line: Key, key: Key) {
    forall p :: Matches(line, p) ==> Matches(key, p)
  }

  lemma OneCommonKind(key: Key, row: Key, p: Probe)
    requires |CommonKinds(key.kinds, row.kinds)| == 1 && Matches(key, p) && Matches(row, p)
    ensures p.kind == CommonKinds(key.kinds, row.kinds)[0]
  {
    CommonMembers(key.kinds, row.kinds, p.kind);
  }

  lemma NarrowedMeans(m: Key, key: Key, row: Key)
    requires Shaped(key) && Shaped(row) && |CommonKinds(key.kinds, row.kinds)| == 1
    requires NarrowedTo(m, key, CommonKinds(key.kinds, row.kinds)[0]) && m.norm != key.norm && !Covers(row, key)
    ensures StandsForPart(m, key, row) <==> !(key.scope.Unchecked? && row.scope.All?)
    ensures !key.scope.Unchecked? ==> Within(m, key)
  {
    var kind := CommonKinds(key.kinds, row.kinds)[0];
    CommonMembers(key.kinds, row.kinds, kind);
    NarrowedKinds(m, key, kind);
    NarrowedScope(m, key, kind);
    if key.scope.Unchecked? {
      UncheckedPart(m, key, row, kind);
    } else {
      assert key.scope != Other;
      forall p | Matches(key, p) && Matches(row, p) ensures p.kind == kind {
        OneCommonKind(key, row, p);
      }
      CheckedPart(m, key, row, kind);
    }
  }

  /** Elsewhere the narrowed key has the very region, in the one kind they share. */
  lemma CheckedPart(m: Key, key: Key, row: Key, kind: int)
    requires !key.scope.Unchecked? && key.scope != Other
    requires kind in m.kinds && (forall k :: k in m.kinds ==> k in key.kinds)
    requires if key.scope.All? then m.scope.All? else m.scope == key.scope
    requires forall p :: Matches(key, p) && Matches(row, p) ==> p.kind == kind
    ensures StandsForPart(m, key, row) && Within(m, key)
  {
  }

  /** An unchecked key's own region: a row of all of the kind has it, the respelt key does not. */
  lemma UncheckedPart(m: Key, key: Key, row: Key, kind: int)
    requires Shaped(key) && Shaped(row) && key.scope.Unchecked? && kind in key.kinds && kind in row.kinds
    requires !m.scope.All? && m.norm != key.norm && !Covers(row, key)
    ensures StandsForPart(m, key, row) <==> !row.scope.All?
  {
    assert key.scope == Unchecked(key.norm);
    if row.scope.All? {
      var p := Probe(kind, Unchecked(key.norm));
      assert Matches(key, p) && Matches(row, p) && !Matches(m, p);
    } else {
      NormDeterminesKey(key, row);
      assert forall p :: Matches(key, p) ==> !Matches(row, p);
    }
  }

  /** The line's key matches every insight of its part, those the reader's key and the row both match, if and
      only if it is not such a respelling; and it matches nothing the reader's key does not, unless that key is
      an unchecked one. */
  lemma LineKeyMeans(key: Key, row: Key) returns (line: Key)
    requires Parsed(key) && Parsed(row)
    ensures ParseKey(LineKey(key, row)) == Some(line) && line.norm == LineKey(key, row)
    ensures StandsForPart(line, key, row) <==> !Respelt(key, row)
    ensures !key.scope.Unchecked? ==> Within(line, key)
  {
    line := LineKeyIs(key, row);
    NormDeterminesKey(line, key);
    if key.scope.Unchecked? && row.scope.All? {
      RespeltIs(key, row);
    }
    if line == key {
    } else if Covers(key, row) {
      CoversIsContainment(key, row);
      NormDeterminesKey(key, row);
    } else {
      NarrowedMeans(line, key, row);
    }
  }

  lemma {:induction false} CommonConcat(a: seq<int>, b: seq<int>, c: seq<int>)
    ensures CommonKinds(a + b, c) == CommonKinds(a, c) + CommonKinds(b, c)
  {
    if a == [] {
      assert a + b == b;
    } else {
      var head := if a[0] in c then [a[0]] else [];
      assert (a + b)[0] == a[0] && (a + b)[1..] == a[1..] + b;
      CommonConcat(a[1..], b, c);
      calc {
        CommonKinds(a + b, c);
        head + CommonKinds(a[1..] + b, c);
        head + (CommonKinds(a[1..], c) + CommonKinds(b, c));
        (head + CommonKinds(a[1..], c)) + CommonKinds(b, c);
      }
    }
  }

  lemma NoneCommon(a: seq<int>, kind: int)
    requires kind !in a
    ensures CommonKinds(a, [kind]) == []
  {
    if CommonKinds(a, [kind]) != [] {
      CommonMembers(a, [kind], CommonKinds(a, [kind])[0]);
    }
  }

  /** A kind once among others is all they share with it. */
  lemma OneCommon(before: seq<int>, kind: int, after: seq<int>)
    requires kind !in before && kind !in after
    ensures CommonKinds(before + [kind] + after, [kind]) == [kind]
  {
    NoneCommon(before, kind);
    NoneCommon(after, kind);
    CommonConcat(before + [kind], after, [kind]);
    CommonConcat(before, [kind], [kind]);
    assert [kind][1..] == [];
    assert CommonKinds([kind], [kind]) == [kind];
  }

  lemma SpelledKey(slot: string, segs: seq<string>) returns (k: Key)
    requires KindSlot(slot) && !IsConceptSlot(slot)
    requires segs != [] ==> segs[|segs| - 1] != ""
    requires forall s :: s in segs ==> ':' !in s
    ensures Parsed(k) && k.slot == slot && k.segs == segs && ParseKey(Join([slot] + segs, ':')) == Some(k)
  {
    PlainSpelled(slot, segs);
    k := ParseKey(Join([slot] + segs, ':')).value;
    ParseParsed(Join([slot] + segs, ':'));
  }

  lemma WildLists(k: Key)
    requires Shaped(k) && k.slot == "3039x" && |k.segs| == 2
    ensures k.kinds == LIST_KINDS && k.scope.Unchecked?
  {
  }

  /** The key `3039x:a:b`. */
  lemma WildExample(segs: seq<string>) returns (key: Key)
    requires |segs| == 2 && segs[1] != "" && forall s :: s in segs ==> ':' !in s
    ensures Parsed(key) && key.segs == segs && key.kinds == LIST_KINDS && key.scope.Unchecked?
  {
    key := SpelledKey("3039x", segs);
    WildLists(key);
  }

  /** The row `30392`. */
  lemma RowExample() returns (row: Key)
    ensures Parsed(row) && row.kinds == [30392] && row.scope.All? && ParseKey("30392") == Some(row)
  {
    ListKindSpelling();
    row := SpelledKey("30392", []);
    assert ["30392"] + [] == ["30392"];
  }

  lemma {:induction false} WithRelayKeeps(rows: seq<(string, string)>, r: (string, string))
    requires r in rows && r.1 != ""
    ensures r in WithRelay(rows)
  {
    if r != rows[0] {
      WithRelayKeeps(rows[1..], r);
    }
  }

  /** Every offer with a relay for Lists has that row. */
  lemma ListRowOffered(cfg: OfferSettings)
    requires cfg.relay != "" || cfg.trustedListRelay != ""
    ensures exists r :: r in OfferRows(cfg) && r.0 == "30392"
  {
    var r := ("30392", if cfg.trustedListRelay != "" then cfg.trustedListRelay else cfg.relay);
    assert DesignationRows(cfg)[|PUBLISHED_METRICS|] == r;
    WithRelayKeeps(DesignationRows(cfg), r);
    assert r in OfferRows(cfg);
  }

  /** Such a respelling, under any offer with a relay for Lists: `3039x:a:b` is shown at its row `30392` as
      `30392:a:b`, whose region `matches` labels otherwise than the reader's key. */
  lemma LineKeyRespells(cfg: OfferSettings) returns (key: Key, row: Key, line: Key)
    requires cfg.relay != "" || cfg.trustedListRelay != ""
    ensures exists r :: r in OfferRows(cfg) && ParseKey(r.0) == Some(row)
    ensures Parsed(key) && Parsed(row) && ParseKey(LineKey(key, row)) == Some(line)
    ensures Respelt(key, row) && !StandsForPart(line, key, row)
  {
    ListRowOffered(cfg);
    key := WildExample(["a", "b"]);
    row := RowExample();
    SharedList(key, row);
    line := LineKeyMeans(key, row);
  }

  lemma SharedList(key: Key, row: Key)
    requires key.kinds == LIST_KINDS && row.kinds == [30392]
    ensures CommonKinds(key.kinds, row.kinds) == [30392]
  {
    var before, after := LIST_KINDS[..2], LIST_KINDS[3..];
    assert LIST_KINDS == before + [30392] + after;
    assert 30392 !in before && 30392 !in after;
    OneCommon(before, 30392, after);
  }
}
