/**
  `getAllMandis`: the list of every market that appears in any scenario,
  one entry per market id, reduced to its id, name and location. A market
  listed under several scenarios keeps the entry of its first occurrence,
  and entries come in order of first appearance (a JavaScript `Map` keeps
  its insertion order).
*/
module MandiHelpers {
  import opened MandiUtils

  /** One named scenario of the demo data set and its markets. */
  datatype Scenario = Scenario(name: string, description: string, mandis: seq<Mandi>)

  /** The three fields `getAllMandis` keeps of a market. */
  datatype MandiSummary = MandiSummary(id: string, name: string, location: string)

  function Summary(m: Mandi): MandiSummary
  {
    MandiSummary(m.id, m.name, m.location)
  }

  /** The markets of all scenarios, scenario by scenario, in listing order. */
  function Flatten(scenarios: seq<Scenario>): seq<Mandi>
  {
    if |scenarios| == 0 then []
    else Flatten(scenarios[..|scenarios| - 1]) + scenarios[|scenarios| - 1].mandis
  }

  function IdsOf(ms: seq<Mandi>): set<string>
  {
    set i | 0 <= i < |ms| :: ms[i].id
  }

  function EntryIds(entries: seq<MandiSummary>): set<string>
  {
    set k | 0 <= k < |entries| :: entries[k].id
  }

  ghost predicate DistinctIds(entries: seq<MandiSummary>)
  {
    forall a, b :: 0 <= a < b < |entries| ==> entries[a].id != entries[b].id
  }

  /**
    The de-duplicated summaries of a market list: a market whose id was
    already seen is skipped, any other is appended. The result has
    pairwise-distinct ids and exactly the ids of the input.
  */
  function Dedup(ms: seq<Mandi>): (r: seq<MandiSummary>)
    ensures EntryIds(r) == IdsOf(ms)
    ensures DistinctIds(r)
    ensures |r| <= |ms|
  {
    if |ms| == 0 then []
    else
      var init := ms[..|ms| - 1];
      var prev := Dedup(init);
      var m := ms[|ms| - 1];
      assert IdsOf(ms) == IdsOf(init) + {m.id} by {
        forall id | id in IdsOf(ms) ensures id in IdsOf(init) + {m.id} {
          var i :| 0 <= i < |ms| && ms[i].id == id;
          if i < |ms| - 1 {
            assert init[i].id == id;
          }
        }
        forall id | id in IdsOf(init) ensures id in IdsOf(ms) {
          var i :| 0 <= i < |init| && init[i].id == id;
          assert ms[i].id == id;
        }
      }
      if m.id in EntryIds(prev) then prev
      else
        EntryIdsAppend(prev, Summary(m));
        prev + [Summary(m)]
  }

  /** One step of the de-duplication: appending a market. */
  lemma DedupStep(ms: seq<Mandi>, m: Mandi)
    ensures Dedup(ms + [m]) == if m.id in EntryIds(Dedup(ms)) then Dedup(ms) else Dedup(ms) + [Summary(m)]
  {
    assert (ms + [m])[..|ms|] == ms;
  }

  /** The `Map` of `getAllMandis` agrees with its values in insertion order. */
  ghost predicate MapMatches(mandiMap: map<string, MandiSummary>, entries: seq<MandiSummary>)
  {
    && mandiMap.Keys == EntryIds(entries)
    && forall k :: 0 <= k < |entries| ==> mandiMap[entries[k].id] == entries[k]
  }

  /** The body of the inner `forEach` of `getAllMandis`: a market is added
      only if its id is not yet a key. */
  method AddMandi(
    mandiMap: map<string, MandiSummary>, entries: seq<MandiSummary>,
    ghost seen: seq<Mandi>, mandi: Mandi)
    returns (mandiMap': map<string, MandiSummary>, entries': seq<MandiSummary>)
    requires entries == Dedup(seen) && MapMatches(mandiMap, entries)
    ensures entries' == Dedup(seen + [mandi]) && MapMatches(mandiMap', entries')
  {
    DedupStep(seen, mandi);
    if mandi.id !in mandiMap {
      EntryIdsAppend(entries, Summary(mandi));
      mandiMap' := mandiMap[mandi.id := Summary(mandi)];
      entries' := entries + [Summary(mandi)];
    } else {
      mandiMap', entries' := mandiMap, entries;
    }
  }

  /** The inner `forEach` of `getAllMandis`: the markets of one scenario,
      in turn. */
  method AddScenarioMandis(
    mandiMap: map<string, MandiSummary>, entries: seq<MandiSummary>,
    ghost before: seq<Mandi>, mandis: seq<Mandi>)
    returns (mandiMap': map<string, MandiSummary>, entries': seq<MandiSummary>)
    requires entries == Dedup(before) && MapMatches(mandiMap, entries)
    ensures entries' == Dedup(before + mandis) && MapMatches(mandiMap', entries')
  {
    mandiMap', entries' := mandiMap, entries;
    var j := 0;
    assert before + mandis[..0] == before;
    while j < |mandis|
      invariant 0 <= j <= |mandis|
      invariant entries' == Dedup(before + mandis[..j])
      invariant MapMatches(mandiMap', entries')
    {
      mandiMap', entries' := AddMandi(mandiMap', entries', before + mandis[..j], mandis[j]);
      PrefixExtend(before, mandis, j);
      j := j + 1;
    }
    assert mandis[..j] == mandis;
  }

  lemma PrefixExtend<T>(before: seq<T>, s: seq<T>, j: int)
    requires 0 <= j < |s|
    ensures before + s[..j + 1] == (before + s[..j]) + [s[j]]
  {
    assert s[..j + 1] == s[..j] + [s[j]];
  }

  lemma EntryIdsAppend(entries: seq<MandiSummary>, e: MandiSummary)
    ensures EntryIds(entries + [e]) == EntryIds(entries) + {e.id}
  {
    var r := entries + [e];
    forall id | id in EntryIds(r) ensures id in EntryIds(entries) + {e.id} {
      var k :| 0 <= k < |r| && r[k].id == id;
      if k < |entries| {
        assert entries[k].id == id;
      }
    }
    forall id | id in EntryIds(entries) ensures id in EntryIds(r) {
      var k :| 0 <= k < |entries| && entries[k].id == id;
      assert r[k].id == id;
    }
    assert r[|entries|].id == e.id;
  }

  /**
    `getAllMandis()`, with the scenario collection as a parameter. The `Map`
    is `mandiMap` (whose key set `has` tests) together with `entries`, its
    values in insertion order, which `Array.from(mandiMap.values())` returns.
  */
  method GetAllMandis(scenarios: seq<Scenario>) returns (result: seq<MandiSummary>)
    ensures result == Dedup(Flatten(scenarios))
  {
    var mandiMap: map<string, MandiSummary> := map[];
    var entries: seq<MandiSummary> := [];
    var i := 0;
    while i < |scenarios|
      invariant 0 <= i <= |scenarios|
      invariant entries == Dedup(Flatten(scenarios[..i]))
      invariant MapMatches(mandiMap, entries)
    {
      mandiMap, entries := AddScenarioMandis(mandiMap, entries, Flatten(scenarios[..i]), scenarios[i].mandis);
      assert scenarios[..i + 1][..i] == scenarios[..i];
      i := i + 1;
    }
    assert scenarios[..i] == scenarios;
    result := entries;
  }

  // ---------------------------------------------------------------------
  // First occurrence

  /** The position of the first market with a given id. */
  function FirstIndex(ms: seq<Mandi>, id: string): (r: int)
    requires id in IdsOf(ms)
    ensures 0 <= r < |ms| && ms[r].id == id
    ensures forall j :: 0 <= j < r ==> ms[j].id != id
  {
    var init := ms[..|ms| - 1];
    if id in IdsOf(init) then
      var r := FirstIndex(init, id);
      assert ms[r] == init[r];
      r
    else
      assert forall j :: 0 <= j < |ms| - 1 ==> ms[j].id == init[j].id;
      |ms| - 1
  }

  /** The ids of the entries computed for a prefix keep their first
      position when the list is extended by one market. */
  lemma PrefixEntriesKeepFirstIndex(ms: seq<Mandi>)
    requires |ms| > 0
    ensures var prev := Dedup(ms[..|ms| - 1]);
      forall k :: 0 <= k < |prev| ==>
        prev[k].id in IdsOf(ms[..|ms| - 1]) && prev[k].id in IdsOf(ms)
        && FirstIndex(ms, prev[k].id) == FirstIndex(ms[..|ms| - 1], prev[k].id)
  {
    var prev := Dedup(ms[..|ms| - 1]);
    forall k | 0 <= k < |prev|
      ensures prev[k].id in IdsOf(ms[..|ms| - 1]) && prev[k].id in IdsOf(ms)
      ensures FirstIndex(ms, prev[k].id) == FirstIndex(ms[..|ms| - 1], prev[k].id)
    {
      assert prev[k].id in EntryIds(prev);
      FirstIndexOfPrefix(ms, prev[k].id);
    }
  }

  /** A market whose id is new is its own first occurrence. */
  lemma NewIdIsFirst(ms: seq<Mandi>)
    requires |ms| > 0 && ms[|ms| - 1].id !in EntryIds(Dedup(ms[..|ms| - 1]))
    ensures ms[|ms| - 1].id in IdsOf(ms)
    ensures FirstIndex(ms, ms[|ms| - 1].id) == |ms| - 1
  {
    assert ms[|ms| - 1].id !in IdsOf(ms[..|ms| - 1]);
  }

  /** Every entry is the summary of the first market with its id: later
      duplicates change nothing. */
  lemma {:induction false} FirstOccurrenceWins(ms: seq<Mandi>)
    ensures forall k :: 0 <= k < |Dedup(ms)| ==>
      Dedup(ms)[k].id in IdsOf(ms) && Dedup(ms)[k] == Summary(ms[FirstIndex(ms, Dedup(ms)[k].id)])
  {
    if |ms| > 0 {
      var init := ms[..|ms| - 1];
      FirstOccurrenceWins(init);
      PrefixEntriesKeepFirstIndex(ms);
      assert forall i :: 0 <= i < |init| ==> ms[i] == init[i];
      if ms[|ms| - 1].id !in EntryIds(Dedup(init)) {
        NewIdIsFirst(ms);
      }
    }
  }

  /** Entries appear in the order of the first occurrences of their ids. */
  lemma {:induction false} FirstAppearanceOrder(ms: seq<Mandi>)
    ensures forall k :: 0 <= k < |Dedup(ms)| ==> Dedup(ms)[k].id in IdsOf(ms)
    ensures forall a, b :: 0 <= a < b < |Dedup(ms)| ==>
      FirstIndex(ms, Dedup(ms)[a].id) < FirstIndex(ms, Dedup(ms)[b].id)
  {
    if |ms| > 0 {
      var init := ms[..|ms| - 1];
      FirstAppearanceOrder(init);
      PrefixEntriesKeepFirstIndex(ms);
      if ms[|ms| - 1].id !in EntryIds(Dedup(init)) {
        NewIdIsFirst(ms);
      }
    }
  }

  /** Extending a list does not move the first occurrence of an id it
      already had. */
  lemma FirstIndexOfPrefix(ms: seq<Mandi>, id: string)
    requires |ms| > 0 && id in IdsOf(ms[..|ms| - 1])
    ensures id in IdsOf(ms)
    ensures FirstIndex(ms, id) == FirstIndex(ms[..|ms| - 1], id)
  {
    var i := FirstIndex(ms[..|ms| - 1], id);
    assert ms[i].id == id;
  }

  /** A market whose id was already seen leaves the result unchanged. */
  lemma LaterDuplicateIgnored(ms: seq<Mandi>, m: Mandi)
    requires m.id in IdsOf(ms)
    ensures Dedup(ms + [m]) == Dedup(ms)
  {
    assert (ms + [m])[..|ms|] == ms;
  }
}
