/** From the reader's signed tags to the Assistant's own, and back. Models `map_groups`,
    `evaluate_self_map`, `read_self_entries`, `same_self_entries`, `nothing_to_change` and
    `self_map_tags` of app/services/self_map_build.py. */
module SelfEntries {
  import opened Text
  import opened TreasureKeys
  import opened TreasureMap
  import opened SelfMap
  import opened AssistantMap
  import opened DutyLines
  import opened LineKeys
  import opened DutyMeaning

  /** One element of a tag: JSON may hold anything, the engine reads only strings. */
  datatype Elem = Str(s: string) | NotStr

  type Tag = seq<Elem>

  predicate HexChar(c: char) {
    '0' <= c <= '9' || 'a' <= c <= 'f' || 'A' <= c <= 'F'
  }

  predicate Hex64(s: string) {
    |s| == 64 && forall i :: 0 <= i < |s| ==> HexChar(s[i])
  }

  /** A pubkey reads the same in either case. */
  lemma HexIgnoresCase(s: string)
    ensures Hex64(Lower(s)) <==> Hex64(s)
  {
    assert forall i :: 0 <= i < |s| ==> (HexChar(Lower(s)[i]) <==> HexChar(s[i]));
  }

  // --- Reading a Map ---

  function KeyOfTag(t: Tag): Option<Key> {
    if |t| >= 2 && t[0].Str? then ParseKey(t[0].s) else None
  }

  /** The tag gives `norm` to the provider `who`. */
  predicate Gives(t: Tag, norm: string, who: string) {
    && |t| >= 2 && t[1].Str? && Hex64(t[1].s) && Lower(t[1].s) == who
    && KeyOfTag(t).Some? && KeyOfTag(t).value.norm == norm
  }

  ghost predicate GivenBy(tags: seq<Tag>, norm: string, who: string) {
    exists t :: t in tags && Gives(t, norm, who)
  }

  function IndexOf(groups: seq<Group>, norm: string): (i: Option<nat>)
    ensures i.Some? ==> i.value < |groups| && groups[i.value].key.norm == norm
    ensures i.None? ==> forall j :: 0 <= j < |groups| ==> groups[j].key.norm != norm
  {
    if groups == [] then None
    else
      var n := |groups| - 1;
      if groups[n].key.norm == norm then Some(n) else IndexOf(groups[..n], norm)
  }

  /** The groups say of every key and provider exactly what the tags say. */
  ghost predicate SaysTheSame(groups: seq<Group>, tags: seq<Tag>) {
    && (forall i, who :: 0 <= i < |groups| ==>
          (who in groups[i].providers <==> GivenBy(tags, groups[i].key.norm, who)))
    && (forall norm, who :: GivenBy(tags, norm, who) ==> IndexOf(groups, norm).Some?)
  }

  /** The tag names the key, for some provider. */
  predicate NamesKey(t: Tag, norm: string) {
    |t| >= 2 && t[1].Str? && Gives(t, norm, Lower(t[1].s))
  }

  /** Group `i` is first named by tag `firsts[i]`, and the groups are in that order. */
  ghost predicate InMapOrder(groups: seq<Group>, tags: seq<Tag>, firsts: seq<nat>) {
    && |firsts| == |groups|
    && (forall i, j :: 0 <= i < j < |firsts| ==> firsts[i] < firsts[j])
    && (forall i :: 0 <= i < |groups| ==> FirstNamed(tags, groups[i].key.norm, firsts[i]))
  }

  ghost predicate FirstNamed(tags: seq<Tag>, norm: string, n: nat) {
    n < |tags| && NamesKey(tags[n], norm) && forall m :: 0 <= m < n ==> !NamesKey(tags[m], norm)
  }

  lemma OrderKept(before: seq<Group>, after: seq<Group>, tags: seq<Tag>, t: Tag, firsts: seq<nat>)
    requires InMapOrder(before, tags, firsts) && |after| == |before|
    requires forall i :: 0 <= i < |before| ==> after[i].key == before[i].key
    ensures InMapOrder(after, tags + [t], firsts)
  {
    forall i | 0 <= i < |after| ensures FirstNamed(tags + [t], after[i].key.norm, firsts[i]) {
      assert FirstNamed(tags, before[i].key.norm, firsts[i]);
    }
  }

  lemma NewLast(groups: seq<Group>, g: Group, tags: seq<Tag>, t: Tag, firsts: seq<nat>)
    requires InMapOrder(groups, tags, firsts) && SaysTheSame(groups, tags)
    requires IndexOf(groups, g.key.norm).None? && NamesKey(t, g.key.norm)
    ensures InMapOrder(groups + [g], tags + [t], firsts + [|tags|])
  {
    forall m | 0 <= m < |tags| ensures !NamesKey(tags[m], g.key.norm) {
      assert tags[m] in tags;
      assert NamesKey(tags[m], g.key.norm) ==> GivenBy(tags, g.key.norm, Lower(tags[m][1].s));
    }
    assert FirstNamed(tags + [t], g.key.norm, |tags|);
    OrderKept(groups, groups, tags, t, firsts);
  }

  /** A Map's entries: one group per key, naming exactly the providers its tags name. */
  method MapGroups(tags: seq<Tag>) returns (groups: seq<Group>, ghost firsts: seq<nat>)
    ensures ReaderMap(groups)
    ensures SaysTheSame(groups, tags)
    ensures InMapOrder(groups, tags, firsts)
  {
    groups, firsts := [], [];
    for n := 0 to |tags|
      invariant ReaderMap(groups)
      invariant SaysTheSame(groups, tags[..n])
      invariant InMapOrder(groups, tags[..n], firsts)
    {
      assert tags[..n + 1] == tags[..n] + [tags[n]];
      groups, firsts := ReadTag(groups, tags[..n], tags[n], firsts);
    }
    assert tags[..|tags|] == tags;
  }

  /** One tag: its provider joins the key's group, a new key starts one, anything else is passed over. */
  method ReadTag(before: seq<Group>, ghost tags: seq<Tag>, t: Tag, ghost earlier: seq<nat>) returns (groups: seq<Group>, ghost firsts: seq<nat>)
    requires ReaderMap(before) && SaysTheSame(before, tags) && InMapOrder(before, tags, earlier)
    ensures ReaderMap(groups) && SaysTheSame(groups, tags + [t]) && InMapOrder(groups, tags + [t], firsts)
  {
    groups, firsts := before, earlier;
    if |t| >= 2 && t[1].Str? && KeyOfTag(t).Some? && Hex64(t[1].s) {
      var key, provider := KeyOfTag(t).value, Lower(t[1].s);
      ParseShaped(t[0].s);
      groups := AddProvider(before, key, provider);
      assert forall norm, who :: Gives(t, norm, who) <==> norm == key.norm && who == provider;
      TagAdded(before, groups, tags, t, key, provider);
      firsts := OrderAdded(before, tags, t, key, provider, earlier);
    } else {
      TagIgnored(groups, tags, t);
      OrderKept(groups, groups, tags, t, firsts);
    }
  }

  function AddProvider(groups: seq<Group>, key: Key, provider: string): seq<Group> {
    var at := IndexOf(groups, key.norm);
    if at.Some? then groups[at.value := Group(groups[at.value].key, groups[at.value].providers + {provider})]
    else groups + [Group(key, {provider})]
  }

  lemma OrderAdded(before: seq<Group>, tags: seq<Tag>, t: Tag, key: Key, provider: string, earlier: seq<nat>) returns (firsts: seq<nat>)
    requires SaysTheSame(before, tags) && InMapOrder(before, tags, earlier) && NamesKey(t, key.norm)
    ensures InMapOrder(AddProvider(before, key, provider), tags + [t], firsts)
  {
    firsts := earlier;
    if IndexOf(before, key.norm).Some? {
      OrderKept(before, AddProvider(before, key, provider), tags, t, firsts);
    } else {
      NewLast(before, Group(key, {provider}), tags, t, firsts);
      firsts := firsts + [|tags|];
    }
  }

  lemma GivenGrows(tags: seq<Tag>, t: Tag, norm: string, who: string)
    ensures GivenBy(tags + [t], norm, who) <==> GivenBy(tags, norm, who) || Gives(t, norm, who)
  {
    assert t in tags + [t];
    if u :| u in tags && Gives(u, norm, who) {
      assert u in tags + [t];
    }
  }

  lemma TagIgnored(groups: seq<Group>, tags: seq<Tag>, t: Tag)
    requires SaysTheSame(groups, tags) && forall norm, who :: !Gives(t, norm, who)
    ensures SaysTheSame(groups, tags + [t])
  {
    forall norm, who ensures GivenBy(tags + [t], norm, who) <==> GivenBy(tags, norm, who) {
      GivenGrows(tags, t, norm, who);
    }
  }

  lemma TagAdded(before: seq<Group>, after: seq<Group>, tags: seq<Tag>, t: Tag, key: Key, provider: string)
    requires ReaderMap(before) && SaysTheSame(before, tags) && Shaped(key)
    requires forall norm, who :: Gives(t, norm, who) <==> norm == key.norm && who == provider
    requires after == AddProvider(before, key, provider)
    ensures ReaderMap(after)
    ensures SaysTheSame(after, tags + [t])
  {
    AddedIsMap(before, after, key, provider);
    AddedProviders(before, after, tags, t, key, provider);
    forall norm, who | GivenBy(tags + [t], norm, who) ensures IndexOf(after, norm).Some? {
      AddedKeys(before, after, tags, t, key, provider, norm, who);
    }
  }

  lemma AddedIsMap(before: seq<Group>, after: seq<Group>, key: Key, provider: string)
    requires ReaderMap(before) && Shaped(key)
    requires after == AddProvider(before, key, provider)
    ensures ReaderMap(after)
  {
    assert forall i :: 0 <= i < |after| ==> after[i].key == if i < |before| then before[i].key else key;
    forall i | 0 <= i < |after| ensures Shaped(after[i].key) {
      if i < |before| {
        assert Shaped(before[i].key);
      }
    }
  }

  lemma AddedProviders(before: seq<Group>, after: seq<Group>, tags: seq<Tag>, t: Tag, key: Key, provider: string)
    requires ReaderMap(before) && SaysTheSame(before, tags)
    requires forall norm, who :: Gives(t, norm, who) <==> norm == key.norm && who == provider
    requires after == AddProvider(before, key, provider)
    ensures forall i, who :: 0 <= i < |after| ==> (who in after[i].providers <==> GivenBy(tags + [t], after[i].key.norm, who))
  {
    forall i, who | 0 <= i < |after|
      ensures who in after[i].providers <==> GivenBy(tags + [t], after[i].key.norm, who)
    {
      GivenGrows(tags, t, after[i].key.norm, who);
      if i < |before| {
        assert who in before[i].providers <==> GivenBy(tags, before[i].key.norm, who);
      } else {
        assert !GivenBy(tags, key.norm, who);
      }
    }
  }

  lemma AddedKeys(before: seq<Group>, after: seq<Group>, tags: seq<Tag>, t: Tag, key: Key, provider: string, norm: string, who: string)
    requires GivenBy(tags, norm, who) ==> IndexOf(before, norm).Some?
    requires Gives(t, norm, who) ==> norm == key.norm
    requires GivenBy(tags + [t], norm, who)
    requires after == AddProvider(before, key, provider)
    ensures IndexOf(after, norm).Some?
  {
    var at := IndexOf(before, key.norm);
    GivenGrows(tags, t, norm, who);
    var i := if norm != key.norm then IndexOf(before, norm).value else if at.Some? then at.value else |before|;
    assert after[i].key.norm == norm;
  }

  // --- The whole check ---

  /** The offer made under the settings. */
  function OfferOf(cfg: OfferSettings): seq<OfferRow> {
    match ParseRows(OfferRows(cfg))
    case Some(rows) => rows
    case None => []
  }

  /** For every reader's Map and every relay settings: the list is what the simple reading says; the lines are
      exactly those the Map's insights call for, each in its place, and show exactly that list. */
  method EvaluateSelfMap(groups: seq<Group>, cfg: OfferSettings, assistant: string, scores: ScoresUpkeep)
      returns (lines: seq<DutyLine>, shouldSay: seq<(string, string)>, ghost at: seq<Place>)
    requires ReaderMap(groups)
    ensures shouldSay == Expected(groups, Lower(assistant), cfg.relay, scores)
    ensures InOrder(at, |OfferOf(cfg)|) && ElsewhereOnce(lines, 0, at, |OfferOf(cfg)|)
    ensures forall i :: 0 <= i < |lines| ==> SaidAt(groups, Lower(assistant), cfg, OfferOf(cfg), scores, at[i], lines[i])
    ensures forall gi: nat :: gi < |groups| && Lower(assistant) in groups[gi].providers ==>
              SaysAll(groups, Lower(assistant), cfg, OfferOf(cfg), scores, gi, lines)
    ensures forall x :: InLines(lines, x) <==> x in shouldSay
  {
    OfferIsStandard(cfg);
    var rows := OfferOf(cfg);
    var who := Lower(assistant);
    var keys := KeysOf(groups);
    assert forall k :: k in keys ==> Shaped(k);
    var probes := BuildProbes(keys);
    var duties := DutiesOf(groups, who, probes);
    var live := map p | p in probes :: EvaluateLive(p, rows, scores);
    assert Assessed(groups, who, rows, scores, duties, live) by {
      AssessedFrom(groups, who, rows, scores, probes, duties, live);
    }
    var should := BuildShouldSay(groups, who, duties, live, rows, scores);
    lines, at := AllLines(LineKey, groups, who, duties, live, rows, should);
    forall i | 0 <= i < |lines| ensures SaidAt(groups, who, cfg, rows, scores, at[i], lines[i]) {
      PlaceMeans(groups, who, cfg, rows, scores, duties, live, should, at[i], lines[i]);
    }
    forall gi: nat | gi < |groups| && who in groups[gi].providers ensures SaysAll(groups, who, cfg, rows, scores, gi, lines) {
      ListedMeans(groups, who, cfg, rows, scores, duties, live, should, gi, lines);
    }
    shouldSay := Pairs(should);
    GreedyIsExpected(groups, who, rows, scores, duties, live, should, cfg.relay);
    forall x ensures InLines(lines, x) <==> x in shouldSay {
      LinesShowList(groups, who, rows, scores, duties, live, should, cfg.relay, x);
    }
  }

  lemma AssessedFrom(groups: seq<Group>, who: string, rows: seq<OfferRow>, scores: ScoresUpkeep,
                     probes: seq<Probe>, duties: seq<Duty>, live: map<Probe, Live>)
    requires ReaderMap(groups)
    requires forall q :: q in probes <==> IsProbe(KeysOf(groups), q)
    requires |duties| == |probes| && forall i :: 0 <= i < |probes| ==> duties[i] == DutyOf(groups, who, probes[i])
    requires forall p :: p in probes ==> p in live && live[p] == EvaluateLive(p, rows, scores)
    ensures Assessed(groups, who, rows, scores, duties, live)
  {
    forall d | d in duties
      ensures d == DutyOf(groups, who, d.probe) && d.probe in live && live[d.probe] == EvaluateLive(d.probe, rows, scores)
      ensures d.probe in probes
    {
      var i :| 0 <= i < |duties| && duties[i] == d;
      assert probes[i] in probes;
    }
    forall q | q in probes ensures exists d :: d in duties && d.probe == q {
      var i :| 0 <= i < |probes| && probes[i] == q;
      assert duties[i] in duties;
    }
  }

  // --- Reading and writing the Assistant's own Map ---

  /** `relay_key` strips before anything else; what it then does to the URL is left open. */
  function RelayKey(url: string, spell: string -> string): string {
    spell(Strip(url))
  }

  function SelfMapTags(author: string, entries: seq<(string, string)>): seq<Tag> {
    seq(|entries|, i requires 0 <= i < |entries| =>
      [Str(entries[i].0), Str(Lower(author)), Str(entries[i].1)])
  }

  /** The self-entry a tag makes, if its key parses and its second element is the author. */
  function SelfEntryOf(t: Tag, who: string): Option<(string, string)> {
    if |t| < 2 || !t[1].Str? || Lower(t[1].s) != who then None
    else
      var key := KeyOfTag(t);
      if key.None? then None
      else Some((key.value.norm, if |t| > 2 && t[2].Str? then Strip(t[2].s) else ""))
  }

  function SpelledPairs(entries: seq<(string, string)>, spell: string -> string): set<(string, string)> {
    set i | 0 <= i < |entries| :: (entries[i].0, RelayKey(entries[i].1, spell))
  }

  /** The self-entries the tags make, as keys and relays. */
  ghost function HeldPairs(tags: seq<Tag>, who: string, spell: string -> string): set<(string, string)> {
    set t | t in tags && SelfEntryOf(t, who).Some? ::
      (SelfEntryOf(t, who).value.0, RelayKey(SelfEntryOf(t, who).value.1, spell))
  }

  lemma HeldGrow(tags: seq<Tag>, t: Tag, who: string, spell: string -> string)
    ensures var e := SelfEntryOf(t, who);
            HeldPairs(tags + [t], who, spell) ==
            HeldPairs(tags, who, spell) + (if e.Some? then {(e.value.0, RelayKey(e.value.1, spell))} else {})
  {
    assert t in tags + [t];
    assert forall u :: u in tags ==> u in tags + [t];
  }

  ghost predicate EachOnce(out: seq<(string, string)>, spell: string -> string) {
    forall i, j :: 0 <= i < j < |out| ==> (out[i].0, RelayKey(out[i].1, spell)) != (out[j].0, RelayKey(out[j].1, spell))
  }

  ghost predicate Written(tags: seq<Tag>, who: string, e: (string, string)) {
    exists t :: t in tags && SelfEntryOf(t, who) == Some(e)
  }

  ghost predicate SamePair(t: Tag, who: string, e: (string, string), spell: string -> string) {
    var f := SelfEntryOf(t, who);
    f.Some? && f.value.0 == e.0 && RelayKey(f.value.1, spell) == RelayKey(e.1, spell)
  }

  /** Entry `i` is written by tag `at[i]`, the first with its key and relay, and the entries are in that order. */
  ghost predicate AsFirstWritten(tags: seq<Tag>, who: string, spell: string -> string, out: seq<(string, string)>, at: seq<nat>) {
    && |at| == |out|
    && (forall i, j :: 0 <= i < j < |at| ==> at[i] < at[j])
    && (forall i :: 0 <= i < |out| ==> FirstWrites(tags, who, spell, at[i], out[i]))
  }

  ghost predicate FirstWrites(tags: seq<Tag>, who: string, spell: string -> string, n: nat, e: (string, string)) {
    n < |tags| && SelfEntryOf(tags[n], who) == Some(e) && forall m :: 0 <= m < n ==> !SamePair(tags[m], who, e, spell)
  }

  lemma LaterTag(tags: seq<Tag>, t: Tag, who: string, spell: string -> string, out: seq<(string, string)>, at: seq<nat>)
    requires AsFirstWritten(tags, who, spell, out, at)
    ensures AsFirstWritten(tags + [t], who, spell, out, at)
  {
    forall i | 0 <= i < |out| ensures FirstWrites(tags + [t], who, spell, at[i], out[i]) {
      assert FirstWrites(tags, who, spell, at[i], out[i]);
    }
  }

  lemma NewEntry(tags: seq<Tag>, t: Tag, who: string, spell: string -> string, out: seq<(string, string)>, at: seq<nat>, e: (string, string))
    requires AsFirstWritten(tags, who, spell, out, at) && SelfEntryOf(t, who) == Some(e)
    requires (e.0, RelayKey(e.1, spell)) !in HeldPairs(tags, who, spell)
    ensures AsFirstWritten(tags + [t], who, spell, out + [e], at + [|tags|])
  {
    LaterTag(tags, t, who, spell, out, at);
    forall m | 0 <= m < |tags| ensures !SamePair(tags[m], who, e, spell) {
      assert tags[m] in tags;
      assert SamePair(tags[m], who, e, spell) ==> (e.0, RelayKey(e.1, spell)) in HeldPairs(tags, who, spell);
    }
    assert FirstWrites(tags + [t], who, spell, |tags|, e);
    var out', at' := out + [e], at + [|tags|];
    forall i | 0 <= i < |out'| ensures FirstWrites(tags + [t], who, spell, at'[i], out'[i]) {
      assert i < |out| ==> out'[i] == out[i] && at'[i] == at[i];
    }
  }

  /** A version's self-entries: each key and relay once, spelt as first written, in the tags' order. */
  method ReadSelfEntries(tags: seq<Tag>, author: string, spell: string -> string)
      returns (out: seq<(string, string)>, ghost at: seq<nat>)
    ensures SpelledPairs(out, spell) == HeldPairs(tags, Lower(author), spell)
    ensures EachOnce(out, spell)
    ensures AsFirstWritten(tags, Lower(author), spell, out, at)
  {
    out, at := [], [];
    var who := Lower(author);
    var seen: set<(string, string)> := {};
    for n := 0 to |tags|
      invariant seen == SpelledPairs(out, spell) == HeldPairs(tags[..n], who, spell)
      invariant EachOnce(out, spell)
      invariant AsFirstWritten(tags[..n], who, spell, out, at)
    {
      var t := tags[n];
      HeldGrow(tags[..n], t, who, spell);
      assert tags[..n + 1] == tags[..n] + [t];
      LaterTag(tags[..n], t, who, spell, out, at);
      var e := SelfEntryOf(t, who);
      if e.Some? {
        var pair := (e.value.0, RelayKey(e.value.1, spell));
        if pair !in seen {
          PairsGrow(out, e.value, spell);
          OnceGrow(out, e.value, spell);
          NewEntry(tags[..n], t, who, spell, out, at, e.value);
          out, at := out + [e.value], at + [n];
          seen := seen + {pair};
        }
      }
    }
    assert tags[..|tags|] == tags;
  }

  lemma OnceGrow(entries: seq<(string, string)>, e: (string, string), spell: string -> string)
    requires EachOnce(entries, spell) && (e.0, RelayKey(e.1, spell)) !in SpelledPairs(entries, spell)
    ensures EachOnce(entries + [e], spell)
  {
  }

  lemma PairsGrow(entries: seq<(string, string)>, e: (string, string), spell: string -> string)
    ensures SpelledPairs(entries + [e], spell) == SpelledPairs(entries, spell) + {(e.0, RelayKey(e.1, spell))}
  {
    var longer := entries + [e];
    forall i | 0 <= i < |entries| ensures longer[i] == entries[i] {}
    assert longer[|entries|] == e;
    forall x | x in SpelledPairs(entries, spell) ensures x in SpelledPairs(longer, spell) {
      var i :| 0 <= i < |entries| && x == (entries[i].0, RelayKey(entries[i].1, spell));
      assert longer[i] == entries[i];
    }
    assert (e.0, RelayKey(e.1, spell)) in SpelledPairs(longer, spell);
  }

  function SameSelfEntries(a: seq<(string, string)>, b: seq<(string, string)>, spell: string -> string): bool {
    SpelledPairs(a, spell) == SpelledPairs(b, spell)
  }

  method NothingToChange(latest: seq<Tag>, author: string, target: seq<(string, string)>, spell: string -> string)
      returns (same: bool)
    ensures same <==> (SpelledPairs(target, spell) == HeldPairs(latest, Lower(author), spell))
  {
    var held;
    ghost var at;
    held, at := ReadSelfEntries(latest, author, spell);
    same := SameSelfEntries(held, target, spell);
  }

  ghost predicate NormalForm(s: string) {
    ParseKey(s).Some? && ParseKey(s).value.norm == s
  }

  /** A tag as written is read back as the entry it was written from, its relay trimmed. */
  lemma WrittenTagReadsBack(author: string, e: (string, string), t: Tag)
    requires NormalForm(e.0)
    requires t == [Str(e.0), Str(Lower(author)), Str(e.1)]
    ensures SelfEntryOf(t, Lower(author)) == Some((e.0, Strip(e.1)))
  {
    LowerIdempotent(author);
  }

  /** The round trip: signing a list of self-entries and checking again finds nothing to change,
      whatever `relay_key` makes of a URL. */
  lemma WrittenIsSettled(author: string, entries: seq<(string, string)>, spell: string -> string)
    requires forall e :: e in entries ==> NormalForm(e.0)
    ensures var tags := SelfMapTags(author, entries);
            SpelledPairs(entries, spell) ==
            HeldPairs(tags, Lower(author), spell)
  {
    var tags, who := SelfMapTags(author, entries), Lower(author);
    forall i | 0 <= i < |entries| ensures ReadsBack(tags[i], who, entries[i], spell) {
      WrittenTagReadsBack(author, entries[i], tags[i]);
      StripIdempotent(entries[i].1);
    }
    ReadBackHeld(tags, who, entries, spell);
  }

  ghost predicate ReadsBack(t: Tag, who: string, e: (string, string), spell: string -> string) {
    SelfEntryOf(t, who).Some? && (SelfEntryOf(t, who).value.0, RelayKey(SelfEntryOf(t, who).value.1, spell)) == (e.0, RelayKey(e.1, spell))
  }

  lemma ReadBackHeld(tags: seq<Tag>, who: string, entries: seq<(string, string)>, spell: string -> string)
    requires |tags| == |entries| && forall i :: 0 <= i < |tags| ==> ReadsBack(tags[i], who, entries[i], spell)
    ensures SpelledPairs(entries, spell) == HeldPairs(tags, who, spell)
  {
    var read := HeldPairs(tags, who, spell);
    forall x | x in SpelledPairs(entries, spell) ensures x in read {
      var i :| 0 <= i < |entries| && x == (entries[i].0, RelayKey(entries[i].1, spell));
      assert ReadsBack(tags[i], who, entries[i], spell) && tags[i] in tags;
    }
    forall x | x in read ensures x in SpelledPairs(entries, spell) {
      var t :| t in tags && SelfEntryOf(t, who).Some? &&
               x == (SelfEntryOf(t, who).value.0, RelayKey(SelfEntryOf(t, who).value.1, spell));
      var i :| 0 <= i < |tags| && tags[i] == t;
      assert ReadsBack(tags[i], who, entries[i], spell);
    }
  }

  lemma {:induction false} ExpectedKeysParse(groups: seq<Group>, who: string, relay: string, metrics: seq<string>)
    requires forall m :: m in metrics ==> m in PUBLISHED_METRICS
    ensures forall e :: e in ScoreEntries(groups, who, relay, metrics) ==> NormalForm(e.0)
  {
    if metrics != [] {
      var n := |metrics| - 1;
      assert metrics[n] in metrics;
      ExpectedKeysParse(groups, who, relay, metrics[..n]);
      MetricKeyParses(metrics[n]);
    }
  }

  /** Signing what the check says settles it: the next check of the same Map changes nothing. */
  lemma SignedCheckIsSettled(groups: seq<Group>, cfg: OfferSettings, assistant: string, scores: ScoresUpkeep,
                             spell: string -> string)
    ensures var list := Expected(groups, Lower(assistant), cfg.relay, scores);
            var tags := SelfMapTags(assistant, list);
            SpelledPairs(list, spell) ==
            HeldPairs(tags, Lower(assistant), spell)
  {
    ExpectedKeysParse(groups, Lower(assistant), cfg.relay, PUBLISHED_METRICS);
    WrittenIsSettled(assistant, Expected(groups, Lower(assistant), cfg.relay, scores), spell);
  }
}
