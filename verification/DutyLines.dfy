/** The duties lines shown beside the Assistant's Treasure Map. Models `_part_line` and `duty_lines` of app/services/self_map_build.py. */
module DutyLines {
  import opened Text
  import opened Sorting
  import opened TreasureKeys
  import opened TreasureMap
  import opened SelfMap
  import opened AssistantMap

  datatype DutyLine = DutyLine(key: string, status: string, relay: Option<string>, reason: Option<string>,
                               lastLandedAt: Option<int>, entries: seq<(string, string)>)

  // --- The entries of a live part ---

  /** The most specific self-entry for a probe names the relay the probe is live at. */
  predicate Spoken(should: seq<Entry>, live: map<Probe, Live>, p: Probe) {
    var w := Winner(EntryKeys(should), p);
    w.Some? && p in live && live[p].relay == Some(should[w.value].relay)
  }

  function PairFor(should: seq<Entry>, p: Probe): (string, string)
    requires Winner(EntryKeys(should), p).Some?
  {
    var e := should[Winner(EntryKeys(should), p).value];
    (e.key.norm, e.relay)
  }

  ghost predicate Speaks(should: seq<Entry>, live: map<Probe, Live>, p: Probe, x: (string, string)) {
    Spoken(should, live, p) && x == PairFor(should, p)
  }

  /** All entries speaking of the probes given, or none when one of them is not spoken of. */
  method PartEntries(should: seq<Entry>, onDuty: seq<Probe>, live: map<Probe, Live>)
      returns (entries: seq<(string, string)>)
    ensures (forall p :: p in onDuty ==> Spoken(should, live, p)) ==>
              forall x :: x in entries <==> exists p :: p in onDuty && Speaks(should, live, p, x)
    ensures (exists p :: p in onDuty && !Spoken(should, live, p)) ==> entries == []
    ensures Distinct(entries)
  {
    entries := [];
    for i := 0 to |onDuty|
      invariant forall p :: p in onDuty[..i] ==> Spoken(should, live, p)
      invariant forall x :: x in entries <==> exists p :: p in onDuty[..i] && Speaks(should, live, p, x)
      invariant Distinct(entries)
    {
      var p := onDuty[i];
      assert onDuty[..i + 1] == onDuty[..i] + [p];
      var w := MostSpecific(EntryKeys(should), k => Matches(k, p));
      if w.None? || p !in live || live[p].relay != Some(should[w.value].relay) {
        assert p in onDuty && !Spoken(should, live, p);
        return [];
      }
      var pair := (should[w.value].key.norm, should[w.value].relay);
      assert Speaks(should, live, p, pair);
      if pair !in entries {
        entries := entries + [pair];
      }
    }
    assert onDuty[..|onDuty|] == onDuty;
  }

  // --- One part, one line ---

  function OnDuty(part: seq<Duty>): (probes: seq<Probe>)
    ensures forall p :: p in probes <==> exists d :: d in part && d.duty && d.probe == p
  {
    if part == [] then []
    else
      var n := |part| - 1;
      assert part == part[..n] + [part[n]];
      OnDuty(part[..n]) + if part[n].duty then [part[n].probe] else []
  }

  function FirstDown(probes: seq<Probe>, live: map<Probe, Live>): (down: Option<Live>)
    requires forall p :: p in probes ==> p in live
    ensures down.None? <==> forall p :: p in probes ==> live[p].live
    ensures down.Some? ==> exists p :: p in probes && !live[p].live && down.value == live[p]
  {
    if probes == [] then None
    else if !live[probes[0]].live then Some(live[probes[0]])
    else FirstDown(probes[1..], live)
  }

  /** A part is live when it holds a duty and all its duties are live. */
  ghost predicate PartLive(part: seq<Duty>, live: map<Probe, Live>) {
    && (exists d :: d in part && d.duty)
    && forall d :: d in part && d.duty ==> d.probe in live && live[d.probe].live
  }

  ghost predicate PartShows(part: seq<Duty>, live: map<Probe, Live>, should: seq<Entry>, x: (string, string)) {
    && PartLive(part, live)
    && (forall d :: d in part && d.duty ==> Spoken(should, live, d.probe))
    && exists d :: d in part && d.duty && Speaks(should, live, d.probe, x)
  }

  /** Why an offered part is not live: its first answer where it holds no duty, else a duty that is down. */
  ghost predicate Reasoned(part: seq<Duty>, live: map<Probe, Live>, line: DutyLine)
    requires part != [] && forall d :: d in part ==> d.probe in live
  {
    if exists d :: d in part && d.duty then
      exists d :: d in part && d.duty && !live[d.probe].live
                  && line.reason == live[d.probe].reason && line.lastLandedAt == live[d.probe].lastLandedAt
    else
      && line.reason == (if live[part[0].probe].live then Some("nothing-to-publish") else live[part[0].probe].reason)
      && line.lastLandedAt.None?
  }

  /** The line of one part: live or offered, its key and relay, why it is not live, and what it lists. */
  ghost predicate IsLine(name: (Key, Key) -> string, key: Key, row: OfferRow, part: seq<Duty>, live: map<Probe, Live>, should: seq<Entry>, line: DutyLine)
    requires part != [] && forall d :: d in part ==> d.probe in live
  {
    && line.key == name(key, row.key) && line.relay == Some(row.relay)
    && (if PartLive(part, live) then line.status == "live" && line.reason.None? && line.lastLandedAt.None?
        else line.status == "offered" && line.entries == [] && Reasoned(part, live, line))
    && Distinct(line.entries) && forall x :: x in line.entries <==> PartShows(part, live, should, x)
  }

  method PartLine(name: (Key, Key) -> string, key: Key, row: OfferRow, part: seq<Duty>, live: map<Probe, Live>, should: seq<Entry>)
      returns (line: DutyLine)
    requires part != [] && forall d :: d in part ==> d.probe in live
    ensures IsLine(name, key, row, part, live, should, line)
  {
    var lineKey := name(key, row.key);
    var onDuty := OnDuty(part);
    assert forall d :: d in part && d.duty ==> d.probe in onDuty;
    if onDuty == [] {
      var first := live[part[0].probe];
      var reason := if first.live then Some("nothing-to-publish") else first.reason;
      return DutyLine(lineKey, "offered", Some(row.relay), reason, None, []);
    }
    assert onDuty[0] in onDuty;
    var down := FirstDown(onDuty, live);
    if down.Some? {
      return DutyLine(lineKey, "offered", Some(row.relay), down.value.reason, down.value.lastLandedAt, []);
    }
    var entries := PartEntries(should, onDuty, live);
    line := DutyLine(lineKey, "live", Some(row.relay), None, None, entries);
    assert PartLive(part, live);
  }

  // --- All lines ---

  /** The duties group `gi` wins that row `ri` answers. */
  function Part(duties: seq<Duty>, rows: seq<OfferRow>, gi: nat, ri: nat): (part: seq<Duty>)
    ensures forall d :: d in part <==> d in duties && d.winner == Some(gi) && Answer(rows, d.probe) == Some(ri)
  {
    if duties == [] then []
    else
      var n := |duties| - 1;
      var d := duties[n];
      assert duties == duties[..n] + [d];
      Part(duties[..n], rows, gi, ri) + if d.winner == Some(gi) && Answer(rows, d.probe) == Some(ri) then [d] else []
  }

  ghost predicate Shows(groups: seq<Group>, who: string, duties: seq<Duty>, live: map<Probe, Live>,
                        rows: seq<OfferRow>, should: seq<Entry>, gi: nat, ri: nat, x: (string, string))
  {
    gi < |groups| && ri < |rows| && who in groups[gi].providers && PartShows(Part(duties, rows, gi, ri), live, should, x)
  }

  ghost predicate ShownBelow(groups: seq<Group>, who: string, duties: seq<Duty>, live: map<Probe, Live>,
                             rows: seq<OfferRow>, should: seq<Entry>, gi: nat, n: nat, x: (string, string))
  {
    exists r: nat :: r < n && Shows(groups, who, duties, live, rows, should, gi, r, x)
  }

  lemma ShownNext(groups: seq<Group>, who: string, duties: seq<Duty>, live: map<Probe, Live>,
                  rows: seq<OfferRow>, should: seq<Entry>, gi: nat, n: nat, x: (string, string))
    ensures ShownBelow(groups, who, duties, live, rows, should, gi, n + 1, x) <==>
              || ShownBelow(groups, who, duties, live, rows, should, gi, n, x)
              || Shows(groups, who, duties, live, rows, should, gi, n, x)
  {
    if r: nat :| r < n + 1 && Shows(groups, who, duties, live, rows, should, gi, r, x) {
      assert r < n || r == n;
    }
  }

  ghost predicate InLines(lines: seq<DutyLine>, x: (string, string)) {
    exists l :: l in lines && x in l.entries
  }

  // The other lines of a group.

  function NotOffered(key: Key): DutyLine {
    DutyLine(key.norm, "not-offered", None, None, None, [])
  }

  function ElsewhereLine(key: Key): DutyLine {
    DutyLine(key.norm, "elsewhere", None, None, None, [])
  }

  /** A duty the group wins has no row. */
  predicate Unanswered(duties: seq<Duty>, rows: seq<OfferRow>, gi: nat) {
    exists i :: 0 <= i < |duties| && duties[i].winner == Some(gi) && duties[i].duty && Answer(rows, duties[i].probe).None?
  }

  /** This duty is taken from group `gi` by a more specific key naming only others. */
  predicate Taken(groups: seq<Group>, who: string, gi: nat, d: Duty)
    requires gi < |groups|
  {
    && d.winner.Some? && d.winner.value < |groups| && d.winner.value != gi && who !in groups[d.winner.value].providers
    && Matches(groups[gi].key, d.probe) && CompareKeys(groups[d.winner.value].key, groups[gi].key) < 0
  }

  ghost predicate Elsewhere(groups: seq<Group>, who: string, duties: seq<Duty>, gi: nat, w: nat)
    requires gi < |groups|
  {
    exists d :: d in duties && Taken(groups, who, gi, d) && d.winner == Some(w)
  }

  method ElsewhereGroups(groups: seq<Group>, who: string, duties: seq<Duty>, gi: nat) returns (ws: seq<nat>)
    requires gi < |groups|
    ensures forall w: nat :: w in ws <==> Elsewhere(groups, who, duties, gi, w)
    ensures forall w :: w in ws ==> w < |groups|
  {
    ws := [];
    for i := 0 to |duties|
      invariant forall w: nat :: w in ws <==> Elsewhere(groups, who, duties[..i], gi, w)
      invariant forall w :: w in ws ==> w < |groups|
    {
      var d := duties[i];
      assert duties[..i + 1] == duties[..i] + [d];
      forall w: nat ensures Elsewhere(groups, who, duties[..i + 1], gi, w) <==>
        Elsewhere(groups, who, duties[..i], gi, w) || (Taken(groups, who, gi, d) && d.winner == Some(w))
      {
        ElsewhereNext(groups, who, duties[..i], gi, w, d);
      }
      if Taken(groups, who, gi, d) && d.winner.value !in ws {
        ws := ws + [d.winner.value];
      }
    }
    assert duties[..|duties|] == duties;
  }

  lemma ElsewhereNext(groups: seq<Group>, who: string, duties: seq<Duty>, gi: nat, w: nat, d: Duty)
    requires gi < |groups|
    ensures Elsewhere(groups, who, duties + [d], gi, w) <==>
            Elsewhere(groups, who, duties, gi, w) || (Taken(groups, who, gi, d) && d.winner == Some(w))
  {
    assert d in duties + [d];
    if e :| e in duties && Taken(groups, who, gi, e) && e.winner == Some(w) {
      assert e in duties + [d];
    }
  }

  /** The line for the part of group `gi` that row `ri` answers. */
  ghost predicate LineFor(name: (Key, Key) -> string, groups: seq<Group>, duties: seq<Duty>, live: map<Probe, Live>, rows: seq<OfferRow>,
                          should: seq<Entry>, gi: nat, ri: nat, l: DutyLine)
  {
    && gi < |groups| && ri < |rows| && Part(duties, rows, gi, ri) != []
    && (forall d :: d in Part(duties, rows, gi, ri) ==> d.probe in live)
    && IsLine(name, groups[gi].key, rows[ri], Part(duties, rows, gi, ri), live, should, l)
  }

  ghost predicate PartLineOf(name: (Key, Key) -> string, groups: seq<Group>, duties: seq<Duty>, live: map<Probe, Live>,
                             rows: seq<OfferRow>, should: seq<Entry>, gi: nat, l: DutyLine)
  {
    exists ri :: LineFor(name, groups, duties, live, rows, should, gi, ri, l)
  }

  ghost predicate HasLine(name: (Key, Key) -> string, groups: seq<Group>, duties: seq<Duty>, live: map<Probe, Live>,
                          rows: seq<OfferRow>, should: seq<Entry>, gi: nat, ri: nat, lines: seq<DutyLine>)
  {
    exists l :: l in lines && LineFor(name, groups, duties, live, rows, should, gi, ri, l)
  }

  lemma HasLineGrows(name: (Key, Key) -> string, groups: seq<Group>, duties: seq<Duty>, live: map<Probe, Live>,
                     rows: seq<OfferRow>, should: seq<Entry>, gi: nat, ri: nat, before: seq<DutyLine>, after: seq<DutyLine>)
    requires HasLine(name, groups, duties, live, rows, should, gi, ri, before) && forall l :: l in before ==> l in after
    ensures HasLine(name, groups, duties, live, rows, should, gi, ri, after)
  {
    var l :| l in before && LineFor(name, groups, duties, live, rows, should, gi, ri, l);
    assert l in after;
  }

  ghost predicate ElsewhereOf(groups: seq<Group>, who: string, duties: seq<Duty>, gi: nat, l: DutyLine)
    requires gi < |groups|
  {
    exists w: nat :: w < |groups| && Elsewhere(groups, who, duties, gi, w) && l == ElsewhereLine(groups[w].key)
  }

  /** A line the group calls for besides its parts: `not-offered` or `elsewhere`. */
  ghost predicate OtherLine(groups: seq<Group>, who: string, duties: seq<Duty>, rows: seq<OfferRow>, gi: nat, l: DutyLine)
    requires gi < |groups|
  {
    (l == NotOffered(groups[gi].key) && Unanswered(duties, rows, gi)) || ElsewhereOf(groups, who, duties, gi, l)
  }

  /** The lines are those of the rows before `n`, one for each that answers a part. */
  ghost predicate LinesTo(name: (Key, Key) -> string, groups: seq<Group>, duties: seq<Duty>, live: map<Probe, Live>, rows: seq<OfferRow>,
                          should: seq<Entry>, gi: nat, n: nat, lines: seq<DutyLine>)
  {
    && (forall l :: l in lines ==> PartLineOf(name, groups, duties, live, rows, should, gi, l))
    && AllRows(name, groups, duties, live, rows, should, gi, n, lines)
  }

  ghost predicate AllRows(name: (Key, Key) -> string, groups: seq<Group>, duties: seq<Duty>, live: map<Probe, Live>,
                          rows: seq<OfferRow>, should: seq<Entry>, gi: nat, n: nat, lines: seq<DutyLine>)
  {
    forall r: nat :: r < n && r < |rows| && Part(duties, rows, gi, r) != [] ==>
      HasLine(name, groups, duties, live, rows, should, gi, r, lines)
  }

  lemma AllRowsGrow(name: (Key, Key) -> string, groups: seq<Group>, duties: seq<Duty>, live: map<Probe, Live>,
                    rows: seq<OfferRow>, should: seq<Entry>, gi: nat, n: nat, before: seq<DutyLine>, after: seq<DutyLine>)
    requires AllRows(name, groups, duties, live, rows, should, gi, n, before) && forall l :: l in before ==> l in after
    ensures AllRows(name, groups, duties, live, rows, should, gi, n, after)
  {
    forall r: nat | r < n && r < |rows| && Part(duties, rows, gi, r) != []
      ensures HasLine(name, groups, duties, live, rows, should, gi, r, after)
    {
      HasLineGrows(name, groups, duties, live, rows, should, gi, r, before, after);
    }
  }

  lemma AllRowsNext(name: (Key, Key) -> string, groups: seq<Group>, duties: seq<Duty>, live: map<Probe, Live>,
                    rows: seq<OfferRow>, should: seq<Entry>, gi: nat, n: nat, lines: seq<DutyLine>)
    requires AllRows(name, groups, duties, live, rows, should, gi, n, lines)
    requires HasLine(name, groups, duties, live, rows, should, gi, n, lines)
    ensures AllRows(name, groups, duties, live, rows, should, gi, n + 1, lines)
  {
  }

  lemma LinesToNext(name: (Key, Key) -> string, groups: seq<Group>, duties: seq<Duty>, live: map<Probe, Live>, rows: seq<OfferRow>,
                    should: seq<Entry>, gi: nat, n: nat, lines: seq<DutyLine>, line: DutyLine)
    requires LinesTo(name, groups, duties, live, rows, should, gi, n, lines) && LineFor(name, groups, duties, live, rows, should, gi, n, line)
    ensures LinesTo(name, groups, duties, live, rows, should, gi, n + 1, lines + [line])
  {
    var after := lines + [line];
    assert PartLineOf(name, groups, duties, live, rows, should, gi, line);
    assert forall l :: l in after <==> l in lines || l == line;
    AllRowsGrow(name, groups, duties, live, rows, should, gi, n, lines, after);
    LastLine(name, groups, duties, live, rows, should, gi, n, lines, line);
    AllRowsNext(name, groups, duties, live, rows, should, gi, n, after);
  }

  lemma LastLine(name: (Key, Key) -> string, groups: seq<Group>, duties: seq<Duty>, live: map<Probe, Live>, rows: seq<OfferRow>,
                 should: seq<Entry>, gi: nat, ri: nat, lines: seq<DutyLine>, line: DutyLine)
    requires LineFor(name, groups, duties, live, rows, should, gi, ri, line)
    ensures HasLine(name, groups, duties, live, rows, should, gi, ri, lines + [line])
  {
    assert line in lines + [line];
  }

  /** What the lines up to row `n` list. */
  lemma ShownTo(name: (Key, Key) -> string, groups: seq<Group>, who: string, duties: seq<Duty>, live: map<Probe, Live>, rows: seq<OfferRow>,
                should: seq<Entry>, gi: nat, n: nat, lines: seq<DutyLine>, line: DutyLine)
    requires gi < |groups| && who in groups[gi].providers && LineFor(name, groups, duties, live, rows, should, gi, n, line)
    requires forall x :: InLines(lines, x) <==> ShownBelow(groups, who, duties, live, rows, should, gi, n, x)
    ensures forall x :: InLines(lines + [line], x) <==> ShownBelow(groups, who, duties, live, rows, should, gi, n + 1, x)
  {
    forall x ensures InLines(lines + [line], x) <==> ShownBelow(groups, who, duties, live, rows, should, gi, n + 1, x) {
      LinesGrow(lines, line, x);
      ShownNext(groups, who, duties, live, rows, should, gi, n, x);
    }
  }

  lemma NoneShown(groups: seq<Group>, who: string, duties: seq<Duty>, live: map<Probe, Live>, rows: seq<OfferRow>,
                  should: seq<Entry>, gi: nat, n: nat, x: (string, string))
    requires Part(duties, rows, gi, n) == []
    ensures ShownBelow(groups, who, duties, live, rows, should, gi, n + 1, x) <==>
            ShownBelow(groups, who, duties, live, rows, should, gi, n, x)
  {
    ShownNext(groups, who, duties, live, rows, should, gi, n, x);
  }

  /** Line `i` is that of row `at[i]`, and the rows are in the offer's order. */
  ghost predicate RowsInOrder(name: (Key, Key) -> string, groups: seq<Group>, duties: seq<Duty>, live: map<Probe, Live>,
                              rows: seq<OfferRow>, should: seq<Entry>, gi: nat, n: nat, lines: seq<DutyLine>, at: seq<nat>)
  {
    && |at| == |lines|
    && (forall i :: 0 <= i < |at| ==> at[i] < n)
    && (forall i, j :: 0 <= i < j < |at| ==> at[i] < at[j])
    && (forall i :: 0 <= i < |lines| ==> LineFor(name, groups, duties, live, rows, should, gi, at[i], lines[i]))
  }

  lemma NextRow(name: (Key, Key) -> string, groups: seq<Group>, duties: seq<Duty>, live: map<Probe, Live>, rows: seq<OfferRow>,
                should: seq<Entry>, gi: nat, n: nat, lines: seq<DutyLine>, at: seq<nat>, line: DutyLine)
    requires RowsInOrder(name, groups, duties, live, rows, should, gi, n, lines, at)
    requires LineFor(name, groups, duties, live, rows, should, gi, n, line)
    ensures RowsInOrder(name, groups, duties, live, rows, should, gi, n + 1, lines + [line], at + [n])
  {
    var lines', at' := lines + [line], at + [n];
    forall i | 0 <= i < |lines'| ensures LineFor(name, groups, duties, live, rows, should, gi, at'[i], lines'[i]) {
      if i < |lines| {
        assert lines'[i] == lines[i] && at'[i] == at[i];
      }
    }
  }

  /** The lines of the rows before `n`: all of them, in order, showing what their parts show. */
  ghost predicate PartsTo(name: (Key, Key) -> string, groups: seq<Group>, who: string, duties: seq<Duty>, live: map<Probe, Live>,
                          rows: seq<OfferRow>, should: seq<Entry>, gi: nat, n: nat, lines: seq<DutyLine>, at: seq<nat>)
  {
    && LinesTo(name, groups, duties, live, rows, should, gi, n, lines)
    && RowsInOrder(name, groups, duties, live, rows, should, gi, n, lines, at)
    && forall x :: InLines(lines, x) <==> ShownBelow(groups, who, duties, live, rows, should, gi, n, x)
  }

  lemma NextPart(name: (Key, Key) -> string, groups: seq<Group>, who: string, duties: seq<Duty>, live: map<Probe, Live>,
                 rows: seq<OfferRow>, should: seq<Entry>, gi: nat, n: nat, lines: seq<DutyLine>, at: seq<nat>, line: DutyLine)
    requires gi < |groups| && who in groups[gi].providers && PartsTo(name, groups, who, duties, live, rows, should, gi, n, lines, at)
    requires LineFor(name, groups, duties, live, rows, should, gi, n, line)
    ensures PartsTo(name, groups, who, duties, live, rows, should, gi, n + 1, lines + [line], at + [n])
  {
    LinesToNext(name, groups, duties, live, rows, should, gi, n, lines, line);
    ShownTo(name, groups, who, duties, live, rows, should, gi, n, lines, line);
    NextRow(name, groups, duties, live, rows, should, gi, n, lines, at, line);
  }

  lemma NoPart(name: (Key, Key) -> string, groups: seq<Group>, who: string, duties: seq<Duty>, live: map<Probe, Live>,
               rows: seq<OfferRow>, should: seq<Entry>, gi: nat, n: nat, lines: seq<DutyLine>, at: seq<nat>)
    requires PartsTo(name, groups, who, duties, live, rows, should, gi, n, lines, at) && Part(duties, rows, gi, n) == []
    ensures PartsTo(name, groups, who, duties, live, rows, should, gi, n + 1, lines, at)
  {
    forall x ensures ShownBelow(groups, who, duties, live, rows, should, gi, n + 1, x) <==>
      ShownBelow(groups, who, duties, live, rows, should, gi, n, x)
    {
      NoneShown(groups, who, duties, live, rows, should, gi, n, x);
    }
  }

  lemma NoPartsYet(name: (Key, Key) -> string, groups: seq<Group>, who: string, duties: seq<Duty>, live: map<Probe, Live>,
                   rows: seq<OfferRow>, should: seq<Entry>, gi: nat)
    ensures PartsTo(name, groups, who, duties, live, rows, should, gi, 0, [], [])
  {
  }

  method RowLine(name: (Key, Key) -> string, groups: seq<Group>, duties: seq<Duty>, live: map<Probe, Live>, rows: seq<OfferRow>,
                 should: seq<Entry>, gi: nat, ri: nat) returns (line: DutyLine)
    requires gi < |groups| && ri < |rows| && Part(duties, rows, gi, ri) != [] && forall d :: d in duties ==> d.probe in live
    ensures LineFor(name, groups, duties, live, rows, should, gi, ri, line)
  {
    line := PartLine(name, groups[gi].key, rows[ri], Part(duties, rows, gi, ri), live, should);
  }

  /** A line per row answering part of what group `gi` wins, in the offer's order. */
  method PartLines(name: (Key, Key) -> string, groups: seq<Group>, who: string, duties: seq<Duty>, live: map<Probe, Live>, rows: seq<OfferRow>,
                   should: seq<Entry>, gi: nat) returns (lines: seq<DutyLine>, ghost at: seq<nat>)
    requires gi < |groups| && who in groups[gi].providers && forall d :: d in duties ==> d.probe in live
    ensures LinesTo(name, groups, duties, live, rows, should, gi, |rows|, lines)
    ensures PartsTo(name, groups, who, duties, live, rows, should, gi, |rows|, lines, at)
  {
    lines, at := [], [];
    NoPartsYet(name, groups, who, duties, live, rows, should, gi);
    for ri := 0 to |rows|
      invariant PartsTo(name, groups, who, duties, live, rows, should, gi, ri, lines, at)
    {
      if Part(duties, rows, gi, ri) != [] {
        var line := RowLine(name, groups, duties, live, rows, should, gi, ri);
        NextPart(name, groups, who, duties, live, rows, should, gi, ri, lines, at, line);
        lines, at := lines + [line], at + [ri];
      } else {
        NoPart(name, groups, who, duties, live, rows, should, gi, ri, lines, at);
      }
    }
  }

  /** From line `n` on: one `not-offered` at most, up to `last`, then `elsewhere`, none that is there already. */
  ghost predicate OthersInOrder(groups: seq<Group>, who: string, duties: seq<Duty>, rows: seq<OfferRow>, gi: nat, n: nat, last: nat,
                                lines: seq<DutyLine>)
    requires gi < |groups|
  {
    && n <= last <= |lines| && last <= n + 1
    && (forall i :: n <= i < last ==> lines[i] == NotOffered(groups[gi].key) && Unanswered(duties, rows, gi))
    && (forall i :: last <= i < |lines| ==> ElsewhereOf(groups, who, duties, gi, lines[i]))
    && (forall i :: last <= i < |lines| ==> lines[i] !in lines[..i])
  }

  /** One group's `not-offered` line, where a duty it wins has no row, and an `elsewhere` line per more specific
      key naming only others that takes something from it, none of them twice. */
  method OtherLines(groups: seq<Group>, who: string, duties: seq<Duty>, rows: seq<OfferRow>, gi: nat, before: seq<DutyLine>)
      returns (lines: seq<DutyLine>, ghost last: nat)
    requires gi < |groups|
    ensures OthersInOrder(groups, who, duties, rows, gi, |before|, last, lines)
    ensures forall l :: l in lines <==> l in before || OtherLine(groups, who, duties, rows, gi, l)
    ensures before <= lines && forall x :: InLines(lines, x) <==> InLines(before, x)
  {
    lines := before;
    if Unanswered(duties, rows, gi) {
      lines := WithoutEntries(lines, NotOffered(groups[gi].key));
    }
    ghost var parts := lines;
    last := |lines|;
    var ws := ElsewhereGroups(groups, who, duties, gi);
    for i := 0 to |ws|
      invariant parts <= lines && forall j :: last <= j < |lines| ==> ElsewhereOf(groups, who, duties, gi, lines[j])
      invariant forall j :: last <= j < |lines| ==> lines[j] !in lines[..j]
      invariant before <= lines && forall x :: InLines(lines, x) <==> InLines(before, x)
      invariant forall l :: l in lines <==> l in parts || exists w: nat :: w in ws[..i] && w < |groups| && l == ElsewhereLine(groups[w].key)
    {
      assert ws[i] in ws && ws[..i + 1] == ws[..i] + [ws[i]];
      var line := ElsewhereLine(groups[ws[i]].key);
      if line !in lines {
        ghost var earlier := lines;
        lines := WithoutEntries(lines, line);
        assert forall j :: last <= j <= |earlier| ==> lines[..j] == earlier[..j];
      }
    }
    assert ws[..|ws|] == ws;
  }

  /** Where a line belongs: its group in the Map, and within it the row it answers to, then `not-offered`, then
      `elsewhere`. */
  datatype Place = Place(group: nat, slot: nat)

  /** In that order, with no place taken twice but the last, `n + 1`, of the `elsewhere` lines. */
  ghost predicate InOrder(at: seq<Place>, n: nat) {
    forall i, j :: 0 <= i < j < |at| ==> Before(at[i], at[j], n)
  }

  predicate Before(a: Place, b: Place, n: nat) {
    a.group < b.group || (a.group == b.group && (a.slot < b.slot || a.slot == n + 1 == b.slot))
  }

  /** From line `from` on, no `elsewhere` line is one that was there before. */
  ghost predicate ElsewhereOnce(lines: seq<DutyLine>, from: nat, at: seq<Place>, n: nat) {
    && |at| == |lines| - from
    && forall i :: from <= i < |lines| && at[i - from].slot == n + 1 ==> lines[i] !in lines[..i]
  }

  ghost predicate LineAt(name: (Key, Key) -> string, groups: seq<Group>, who: string, duties: seq<Duty>, live: map<Probe, Live>,
                         rows: seq<OfferRow>, should: seq<Entry>, at: Place, l: DutyLine)
  {
    && at.group < |groups| && who in groups[at.group].providers
    && if at.slot < |rows| then LineFor(name, groups, duties, live, rows, should, at.group, at.slot, l)
       else if at.slot == |rows| then l == NotOffered(groups[at.group].key) && Unanswered(duties, rows, at.group)
       else at.slot == |rows| + 1 && ElsewhereOf(groups, who, duties, at.group, l)
  }

  lemma GroupPlaces(name: (Key, Key) -> string, groups: seq<Group>, who: string, duties: seq<Duty>, live: map<Probe, Live>,
                    rows: seq<OfferRow>, should: seq<Entry>, gi: nat, before: seq<DutyLine>, parts: seq<DutyLine>, ris: seq<nat>,
                    lines: seq<DutyLine>, last: nat) returns (at: seq<Place>)
    requires gi < |groups| && who in groups[gi].providers && before + parts <= lines
    requires OthersInOrder(groups, who, duties, rows, gi, |before + parts|, last, lines)
    requires RowsInOrder(name, groups, duties, live, rows, should, gi, |rows|, parts, ris)
    ensures |at| == |lines| - |before| && InOrder(at, |rows|) && ElsewhereOnce(lines, |before|, at, |rows|)
    ensures forall i :: 0 <= i < |at| ==> at[i].group == gi && LineAt(name, groups, who, duties, live, rows, should, at[i], lines[|before| + i])
  {
    at := seq(|lines| - |before|, i requires 0 <= i < |lines| - |before| =>
      Place(gi, if i < |parts| then ris[i] else if |before| + i < last then |rows| else |rows| + 1));
    forall i | 0 <= i < |at| ensures LineAt(name, groups, who, duties, live, rows, should, at[i], lines[|before| + i]) {
      if i < |parts| {
        assert lines[|before| + i] == (before + parts)[|before| + i] == parts[i];
        assert LineFor(name, groups, duties, live, rows, should, gi, ris[i], parts[i]);
      }
    }
  }

  /** A line of group `gi`, of whichever kind. */
  ghost predicate GroupLine(name: (Key, Key) -> string, groups: seq<Group>, who: string, duties: seq<Duty>, live: map<Probe, Live>, rows: seq<OfferRow>,
                            should: seq<Entry>, gi: nat, l: DutyLine)
  {
    && gi < |groups| && who in groups[gi].providers
    && (PartLineOf(name, groups, duties, live, rows, should, gi, l) || OtherLine(groups, who, duties, rows, gi, l))
  }

  /** Every line a group calls for is there. */
  ghost predicate GroupListed(name: (Key, Key) -> string, groups: seq<Group>, who: string, duties: seq<Duty>, live: map<Probe, Live>, rows: seq<OfferRow>,
                              should: seq<Entry>, gi: nat, lines: seq<DutyLine>)
    requires gi < |groups|
  {
    && AllRows(name, groups, duties, live, rows, should, gi, |rows|, lines)
    && (forall l :: OtherLine(groups, who, duties, rows, gi, l) ==> l in lines)
  }

  lemma ListedGrows(name: (Key, Key) -> string, groups: seq<Group>, who: string, duties: seq<Duty>, live: map<Probe, Live>, rows: seq<OfferRow>,
                    should: seq<Entry>, gi: nat, before: seq<DutyLine>, after: seq<DutyLine>)
    requires gi < |groups| && GroupListed(name, groups, who, duties, live, rows, should, gi, before)
    requires forall l :: l in before ==> l in after
    ensures GroupListed(name, groups, who, duties, live, rows, should, gi, after)
  {
    AllRowsGrow(name, groups, duties, live, rows, should, gi, |rows|, before, after);
  }

  method GroupLines(name: (Key, Key) -> string, groups: seq<Group>, who: string, duties: seq<Duty>, live: map<Probe, Live>, rows: seq<OfferRow>,
                    should: seq<Entry>, gi: nat, before: seq<DutyLine>) returns (lines: seq<DutyLine>, ghost at: seq<Place>)
    requires gi < |groups| && who in groups[gi].providers && forall d :: d in duties ==> d.probe in live
    ensures |at| == |lines| - |before| && InOrder(at, |rows|) && ElsewhereOnce(lines, |before|, at, |rows|)
    ensures forall i :: 0 <= i < |at| ==> at[i].group == gi && LineAt(name, groups, who, duties, live, rows, should, at[i], lines[|before| + i])
    ensures before <= lines && GroupListed(name, groups, who, duties, live, rows, should, gi, lines)
    ensures forall l :: l in lines ==> l in before || GroupLine(name, groups, who, duties, live, rows, should, gi, l)
    ensures forall x :: InLines(lines, x) <==>
                          InLines(before, x) || exists ri :: Shows(groups, who, duties, live, rows, should, gi, ri, x)
  {
    var parts;
    ghost var ris;
    parts, ris := PartLines(name, groups, who, duties, live, rows, should, gi);
    forall x ensures InLines(before + parts, x) <==> InLines(before, x) || InLines(parts, x) {
      LinesConcat(before, parts, x);
    }
    forall x ensures ShownBelow(groups, who, duties, live, rows, should, gi, |rows|, x) <==>
      exists ri :: Shows(groups, who, duties, live, rows, should, gi, ri, x)
    {
      if ri: nat :| Shows(groups, who, duties, live, rows, should, gi, ri, x) {
        assert ri < |rows|;
      }
    }
    ghost var last;
    lines, last := OtherLines(groups, who, duties, rows, gi, before + parts);
    at := GroupPlaces(name, groups, who, duties, live, rows, should, gi, before, parts, ris, lines, last);
    GroupDone(name, groups, who, duties, live, rows, should, gi, before, parts, lines);
  }

  /** The part lines and the others together are the group's lines. */
  lemma GroupDone(name: (Key, Key) -> string, groups: seq<Group>, who: string, duties: seq<Duty>, live: map<Probe, Live>,
                  rows: seq<OfferRow>, should: seq<Entry>, gi: nat, before: seq<DutyLine>, parts: seq<DutyLine>, lines: seq<DutyLine>)
    requires gi < |groups| && who in groups[gi].providers && before + parts <= lines
    requires LinesTo(name, groups, duties, live, rows, should, gi, |rows|, parts)
    requires forall l :: l in lines <==> l in before + parts || OtherLine(groups, who, duties, rows, gi, l)
    ensures before <= lines && GroupListed(name, groups, who, duties, live, rows, should, gi, lines)
    ensures forall l :: l in lines ==> l in before || GroupLine(name, groups, who, duties, live, rows, should, gi, l)
  {
    assert before <= before + parts;
    assert forall l :: l in parts ==> l in before + parts;
    AllRowsGrow(name, groups, duties, live, rows, should, gi, |rows|, parts, lines);
    forall l | l in lines && l !in before ensures GroupLine(name, groups, who, duties, live, rows, should, gi, l) {
      if l in before + parts {
        assert l in parts;
      }
    }
  }

  lemma LinesConcat(a: seq<DutyLine>, b: seq<DutyLine>, x: (string, string))
    ensures InLines(a + b, x) <==> InLines(a, x) || InLines(b, x)
  {
    if InLines(a, x) {
      var l :| l in a && x in l.entries;
      assert l in a + b;
    }
    if InLines(b, x) {
      var l :| l in b && x in l.entries;
      assert l in a + b;
    }
  }

  lemma LinesGrow(lines: seq<DutyLine>, line: DutyLine, x: (string, string))
    ensures InLines(lines + [line], x) <==> InLines(lines, x) || x in line.entries
  {
    if l :| l in lines && x in l.entries {
      assert l in lines + [line];
    }
    if x in line.entries {
      assert line in lines + [line];
    }
  }

  method WithoutEntries(before: seq<DutyLine>, line: DutyLine) returns (lines: seq<DutyLine>)
    requires line.entries == []
    ensures lines == before + [line]
    ensures forall x :: InLines(lines, x) <==> InLines(before, x)
  {
    lines := before + [line];
    forall x ensures InLines(lines, x) <==> InLines(before, x) {
      LinesGrow(before, line, x);
    }
  }

  method AllLines(name: (Key, Key) -> string, groups: seq<Group>, who: string, duties: seq<Duty>, live: map<Probe, Live>, rows: seq<OfferRow>,
                  should: seq<Entry>) returns (lines: seq<DutyLine>, ghost at: seq<Place>)
    requires forall d :: d in duties ==> d.probe in live
    ensures InOrder(at, |rows|) && ElsewhereOnce(lines, 0, at, |rows|)
    ensures forall i :: 0 <= i < |at| ==> LineAt(name, groups, who, duties, live, rows, should, at[i], lines[i])
    ensures forall l :: l in lines ==> exists gi :: GroupLine(name, groups, who, duties, live, rows, should, gi, l)
    ensures forall gi: nat :: gi < |groups| && who in groups[gi].providers ==>
              GroupListed(name, groups, who, duties, live, rows, should, gi, lines)
    ensures forall x :: InLines(lines, x) <==> exists gi, ri :: Shows(groups, who, duties, live, rows, should, gi, ri, x)
  {
    lines, at := [], [];
    for i := 0 to |groups|
      invariant PlacedBelow(name, groups, who, duties, live, rows, should, i, lines, at)
      invariant forall l :: l in lines ==> exists gi :: GroupLine(name, groups, who, duties, live, rows, should, gi, l)
      invariant forall gi: nat :: gi < i && who in groups[gi].providers ==>
                  GroupListed(name, groups, who, duties, live, rows, should, gi, lines)
      invariant forall x :: InLines(lines, x) <==>
                  exists gi: nat, ri: nat :: gi < i && Shows(groups, who, duties, live, rows, should, gi, ri, x)
    {
      if who in groups[i].providers {
        ghost var earlier := lines;
        ghost var more;
        lines, more := GroupLines(name, groups, who, duties, live, rows, should, i, lines);
        PlacedNext(name, groups, who, duties, live, rows, should, i, earlier, at, lines, more);
        at := at + more;
        forall gi: nat | gi < i && who in groups[gi].providers
          ensures GroupListed(name, groups, who, duties, live, rows, should, gi, lines)
        {
          ListedGrows(name, groups, who, duties, live, rows, should, gi, earlier, lines);
        }
      }
    }
  }

  /** The lines of the groups before `n`, each in its place. */
  ghost predicate PlacedBelow(name: (Key, Key) -> string, groups: seq<Group>, who: string, duties: seq<Duty>, live: map<Probe, Live>,
                              rows: seq<OfferRow>, should: seq<Entry>, n: nat, lines: seq<DutyLine>, at: seq<Place>)
  {
    && |at| == |lines| && InOrder(at, |rows|) && ElsewhereOnce(lines, 0, at, |rows|)
    && (forall i :: 0 <= i < |at| ==> at[i].group < n)
    && (forall i :: 0 <= i < |at| ==> LineAt(name, groups, who, duties, live, rows, should, at[i], lines[i]))
  }

  lemma PlacedNext(name: (Key, Key) -> string, groups: seq<Group>, who: string, duties: seq<Duty>, live: map<Probe, Live>,
                   rows: seq<OfferRow>, should: seq<Entry>, n: nat, before: seq<DutyLine>, at: seq<Place>, lines: seq<DutyLine>,
                   more: seq<Place>)
    requires PlacedBelow(name, groups, who, duties, live, rows, should, n, before, at) && before <= lines
    requires |more| == |lines| - |before| && InOrder(more, |rows|) && ElsewhereOnce(lines, |before|, more, |rows|)
    requires forall i :: 0 <= i < |more| ==>
               more[i].group == n && LineAt(name, groups, who, duties, live, rows, should, more[i], lines[|before| + i])
    ensures PlacedBelow(name, groups, who, duties, live, rows, should, n + 1, lines, at + more)
  {
    OrderOn(at, more, n, |rows|);
    OnceOn(before, at, lines, more, |rows|);
    LinesAtOn(name, groups, who, duties, live, rows, should, before, at, lines, more);
  }

  lemma LinesAtOn(name: (Key, Key) -> string, groups: seq<Group>, who: string, duties: seq<Duty>, live: map<Probe, Live>,
                  rows: seq<OfferRow>, should: seq<Entry>, before: seq<DutyLine>, at: seq<Place>, lines: seq<DutyLine>, more: seq<Place>)
    requires |at| == |before| <= |lines| && |more| == |lines| - |before| && before == lines[..|before|]
    requires forall i :: 0 <= i < |at| ==> LineAt(name, groups, who, duties, live, rows, should, at[i], before[i])
    requires forall i :: 0 <= i < |more| ==> LineAt(name, groups, who, duties, live, rows, should, more[i], lines[|before| + i])
    ensures forall i :: 0 <= i < |lines| ==> LineAt(name, groups, who, duties, live, rows, should, (at + more)[i], lines[i])
  {
    var all := at + more;
    forall i | 0 <= i < |lines| ensures LineAt(name, groups, who, duties, live, rows, should, all[i], lines[i]) {
      if i < |at| {
        assert all[i] == at[i] && lines[i] == before[i];
      } else {
        var j := i - |at|;
        assert all[i] == more[j] && i == |before| + j;
      }
    }
  }

  lemma OrderOn(at: seq<Place>, more: seq<Place>, group: nat, n: nat)
    requires InOrder(at, n) && InOrder(more, n)
    requires (forall i :: 0 <= i < |at| ==> at[i].group < group) && forall i :: 0 <= i < |more| ==> more[i].group == group
    ensures InOrder(at + more, n) && forall i :: 0 <= i < |at + more| ==> (at + more)[i].group < group + 1
  {
    var all := at + more;
    forall i, j | 0 <= i < j < |all| ensures Before(all[i], all[j], n) {
      if i >= |at| {
        assert Before(more[i - |at|], more[j - |at|], n);
      } else if j < |at| {
        assert Before(at[i], at[j], n);
      }
    }
  }

  lemma OnceOn(before: seq<DutyLine>, at: seq<Place>, lines: seq<DutyLine>, more: seq<Place>, n: nat)
    requires ElsewhereOnce(before, 0, at, n) && ElsewhereOnce(lines, |before|, more, n) && before <= lines
    ensures ElsewhereOnce(lines, 0, at + more, n)
  {
    var all := at + more;
    forall i | 0 <= i < |lines| && all[i].slot == n + 1 ensures lines[i] !in lines[..i] {
      if i < |before| {
        assert all[i] == at[i] && lines[i] == before[i] && lines[..i] == before[..i];
      } else {
        assert all[i] == more[i - |before|];
      }
    }
  }

  /** Only live lines list entries. */
  lemma EntriesAreLive(name: (Key, Key) -> string, groups: seq<Group>, who: string, duties: seq<Duty>, live: map<Probe, Live>, rows: seq<OfferRow>,
                       should: seq<Entry>, gi: nat, l: DutyLine)
    requires GroupLine(name, groups, who, duties, live, rows, should, gi, l) && l.entries != []
    ensures l.status == "live"
  {
    assert PartLineOf(name, groups, duties, live, rows, should, gi, l);
    var ri :| LineFor(name, groups, duties, live, rows, should, gi, ri, l);
  }

  /** Under the standard offer, the entries shown on the live lines are exactly the should-say list. */
  lemma LinesShowList(groups: seq<Group>, who: string, rows: seq<OfferRow>, scores: ScoresUpkeep, duties: seq<Duty>,
                      live: map<Probe, Live>, should: seq<Entry>, relay: string, x: (string, string))
    requires Assessed(groups, who, rows, scores, duties, live) && Standard(rows, relay)
    requires ShouldSay(groups, duties, live, rows, should)
    ensures (exists gi, ri :: Shows(groups, who, duties, live, rows, should, gi, ri, x)) <==> x in Pairs(should)
  {
    if gi, ri :| Shows(groups, who, duties, live, rows, should, gi, ri, x) {
      var d :| d in Part(duties, rows, gi, ri) && d.duty && Speaks(should, live, d.probe, x);
      var w := Winner(EntryKeys(should), d.probe).value;
      assert Pairs(should)[w] == x;
    }
    if x in Pairs(should) {
      var i :| 0 <= i < |should| && Pairs(should)[i] == x;
      assert Founded(should[i], duties, live, rows);
      var j := EntryIsScore(groups, who, rows, scores, duties, live, relay, should[i]);
      var gi := Winner(KeysOf(groups), ScoreProbe(PUBLISHED_METRICS[j])).value;
      ScoreShown(groups, who, rows, scores, duties, live, should, relay, i, j, gi);
    }
  }

  lemma ScoreShown(groups: seq<Group>, who: string, rows: seq<OfferRow>, scores: ScoresUpkeep, duties: seq<Duty>,
                   live: map<Probe, Live>, should: seq<Entry>, relay: string, i: nat, j: nat, gi: nat)
    requires Assessed(groups, who, rows, scores, duties, live) && Standard(rows, relay)
    requires Kept(should, duties, live, rows)
    requires i < |should| && j < |PUBLISHED_METRICS| && relay != "" && scores.status == "live"
    requires should[i] == Entry(MetricKey(PUBLISHED_METRICS[j]), relay)
    requires NamesAssistant(groups, who, PUBLISHED_METRICS[j])
    requires Winner(KeysOf(groups), ScoreProbe(PUBLISHED_METRICS[j])) == Some(gi)
    ensures Shows(groups, who, duties, live, rows, should, gi, j, Pairs(should)[i])
  {
    var p := ScoreProbe(PUBLISHED_METRICS[j]);
    var part := Part(duties, rows, gi, j);
    assert rows[j] == OfferRow(MetricKey(PUBLISHED_METRICS[j]), relay);
    forall d | d in part ensures d.probe == p {
      assert Matches(rows[j].key, d.probe);
    }
    ScoreDuty(groups, who, j);
    ScoreAnswer(rows, relay, j);
    LiveIsPublished(p, rows, scores);
    assert IsProbe(KeysOf(groups), p);
    var d :| d in duties && d.probe == p;
    assert d in part && d.duty;
    SpokenByOwn(groups, who, rows, scores, duties, live, should, relay, i, j);
    assert Speaks(should, live, d.probe, Pairs(should)[i]);
  }

  lemma SpokenByOwn(groups: seq<Group>, who: string, rows: seq<OfferRow>, scores: ScoresUpkeep, duties: seq<Duty>,
                    live: map<Probe, Live>, should: seq<Entry>, relay: string, i: nat, j: nat)
    requires Assessed(groups, who, rows, scores, duties, live) && Standard(rows, relay)
    requires Kept(should, duties, live, rows)
    requires i < |should| && j < |PUBLISHED_METRICS|
    requires should[i] == Entry(MetricKey(PUBLISHED_METRICS[j]), relay)
    ensures var w := Winner(EntryKeys(should), ScoreProbe(PUBLISHED_METRICS[j]));
            w.Some? && should[w.value] == should[i]
  {
    var p := ScoreProbe(PUBLISHED_METRICS[j]);
    BestByIsMostSpecific(EntryKeys(should), k => Matches(k, p));
    assert Matches(EntryKeys(should)[i], p);
    var w := Winner(EntryKeys(should), p).value;
    assert Founded(should[w], duties, live, rows);
    EntryForScore(groups, who, rows, scores, duties, live, relay, should[w], j);
  }
}
