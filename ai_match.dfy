/** The alias-first matcher (`POST /api/ai-match`): items whose raw name has
    a remembered alias are matched from memory; only the rest go to the AI
    matcher, whose answer overrides the alias matches on a shared key.

    The alias query, the catalogue query and the AI completion are oracles:
    `aliasRows` is what the alias query returned (None when it returned no
    data), `catalogue` the material list, `ai(input)` the parsed completion
    for the simplified items. */
module AiMatch {
  import opened Common

  datatype MatchItem = MatchItem(id: string, rawName: string, rawUnit: string)

  datatype AliasRow = AliasRow(aliasName: string, materialId: string)

  /** The `{id, name, unit}` projection sent to the AI. */
  datatype AiItem = AiItem(id: string, name: string, unit: string)

  datatype CatalogueEntry = CatalogueEntry(id: string, name: string, unit: string)

  /** The completion: it threw (also a failed `JSON.parse`), or its content
      (None when the message content is null). */
  datatype AiReply = AiThrew(message: string) | AiContent(matches: Option<map<string, string>>)

  datatype MatchResponse = Matches(matches: map<string, string>) | MatchFailure(message: string)

  /** `aliasMatches` after the `forEach` over the alias rows: a later row
      overrides an earlier one. */
  function AliasMap(rows: seq<AliasRow>): map<string, string>
    decreases |rows|
  {
    if rows == [] then map[]
    else AliasMap(rows[..|rows| - 1])[rows[|rows| - 1].aliasName := rows[|rows| - 1].materialId]
  }

  /** `aliasMatches[item.raw_name]` is truthy. */
  predicate HasAlias(aliases: map<string, string>, name: string)
  {
    name in aliases && aliases[name] != ""
  }

  /** `finalMatches` after the partition loop: item id to alias material,
      a later item with the same id overriding an earlier one. */
  function AliasMatches(items: seq<MatchItem>, aliases: map<string, string>): map<string, string>
    decreases |items|
  {
    if items == [] then map[]
    else
      var prev := AliasMatches(items[..|items| - 1], aliases);
      var it := items[|items| - 1];
      if HasAlias(aliases, it.rawName) then prev[it.id := aliases[it.rawName]] else prev
  }

  function NoAlias(aliases: map<string, string>): MatchItem -> bool
  {
    (it: MatchItem) => !HasAlias(aliases, it.rawName)
  }

  function Simplify(items: seq<MatchItem>): (r: seq<AiItem>)
    ensures |r| == |items|
    ensures forall i :: 0 <= i < |items| ==> r[i] == AiItem(items[i].id, items[i].rawName, items[i].rawUnit)
  {
    seq(|items|, i requires 0 <= i < |items| => AiItem(items[i].id, items[i].rawName, items[i].rawUnit))
  }

  /** A key is alias-matched exactly when some item with that id has an
      alias, and its value is the alias of such an item (the last one). */
  lemma {:induction false} AliasMatchesMeaning(items: seq<MatchItem>, aliases: map<string, string>, k: string)
    ensures k in AliasMatches(items, aliases) <==>
              exists i :: 0 <= i < |items| && items[i].id == k && HasAlias(aliases, items[i].rawName)
    ensures k in AliasMatches(items, aliases) ==>
              exists i :: 0 <= i < |items| && items[i].id == k && HasAlias(aliases, items[i].rawName)
                          && AliasMatches(items, aliases)[k] == aliases[items[i].rawName]
                          && forall j :: i < j < |items| ==> !(items[j].id == k && HasAlias(aliases, items[j].rawName))
    decreases |items|
  {
    if items != [] {
      var prefix := items[..|items| - 1];
      AliasMatchesMeaning(prefix, aliases, k);
      assert forall i :: 0 <= i < |prefix| ==> prefix[i] == items[i];
    }
  }

  /** The alias rows' `forEach`. */
  method BuildAliasMap(rows: seq<AliasRow>) returns (aliasMatches: map<string, string>)
    ensures aliasMatches == AliasMap(rows)
    ensures forall a :: a in aliasMatches <==> exists i :: 0 <= i < |rows| && rows[i].aliasName == a
  {
    aliasMatches := map[];
    for i := 0 to |rows|
      invariant aliasMatches == AliasMap(rows[..i])
      invariant forall a :: a in aliasMatches <==> exists j :: 0 <= j < i && rows[j].aliasName == a
    {
      assert rows[..i + 1][..i] == rows[..i];
      aliasMatches := aliasMatches[rows[i].aliasName := rows[i].materialId];
    }
    assert rows[..|rows|] == rows;
  }

  /** The items' `forEach`: alias hits go to `finalMatches`, the rest, in
      order, to `itemsForAi`. */
  method Partition(items: seq<MatchItem>, aliases: map<string, string>)
    returns (finalMatches: map<string, string>, itemsForAi: seq<MatchItem>)
    ensures finalMatches == AliasMatches(items, aliases)
    ensures itemsForAi == Filter(items, NoAlias(aliases))
  {
    finalMatches, itemsForAi := map[], [];
    var keep := NoAlias(aliases);
    for i := 0 to |items|
      invariant finalMatches == AliasMatches(items[..i], aliases)
      invariant itemsForAi == Filter(items[..i], keep)
    {
      PartitionStep(items, i, aliases);
      if HasAlias(aliases, items[i].rawName) {
        finalMatches := finalMatches[items[i].id := aliases[items[i].rawName]];
      } else {
        itemsForAi := itemsForAi + [items[i]];
      }
    }
    assert items[..|items|] == items;
  }

  /** One item of the partition, stated on the specification side. */
  lemma PartitionStep(items: seq<MatchItem>, i: nat, aliases: map<string, string>)
    requires i < |items|
    ensures AliasMatches(items[..i + 1], aliases) ==
              var prev := AliasMatches(items[..i], aliases);
              if HasAlias(aliases, items[i].rawName) then prev[items[i].id := aliases[items[i].rawName]] else prev
    ensures Filter(items[..i + 1], NoAlias(aliases)) ==
              Filter(items[..i], NoAlias(aliases)) + (if HasAlias(aliases, items[i].rawName) then [] else [items[i]])
  {
    assert items[..i + 1][..i] == items[..i];
    assert items[..i + 1] == items[..i] + [items[i]];
    FilterSnoc(items[..i], items[i], NoAlias(aliases));
  }

  /** `POST`: the response, whether the catalogue was fetched, and what was
      sent to the AI (None when it was not called). */
  method MatchRoute(items: seq<MatchItem>, aliasRows: Option<seq<AliasRow>>, catalogue: seq<CatalogueEntry>,
                    ai: seq<AiItem> -> AiReply)
    returns (response: MatchResponse, catalogueFetched: bool, aiInput: Option<seq<AiItem>>)
    ensures items == [] ==> response == Matches(map[]) && !catalogueFetched && aiInput.None?
    ensures aiInput.Some? ==> catalogueFetched && catalogue != []
    // the catalogue is read exactly when some item has no alias, and the AI
    // is asked exactly when that catalogue is not empty as well
    ensures items != [] ==>
              var aliases := if aliasRows.Some? then AliasMap(aliasRows.value) else map[];
              (catalogueFetched <==> Filter(items, NoAlias(aliases)) != [])
    ensures aiInput.Some? <==>
              var aliases := if aliasRows.Some? then AliasMap(aliasRows.value) else map[];
              items != [] && Filter(items, NoAlias(aliases)) != [] && catalogue != []
    ensures aiInput.Some? ==>
              var aliases := if aliasRows.Some? then AliasMap(aliasRows.value) else map[];
              aiInput.value == Simplify(Filter(items, NoAlias(aliases)))
    ensures aiInput.None? ==> response.Matches?
    ensures response.Matches? && items != [] ==>
              var aliases := if aliasRows.Some? then AliasMap(aliasRows.value) else map[];
              var fromAi := if aiInput.Some? && ai(aiInput.value).AiContent? && ai(aiInput.value).matches.Some?
                            then ai(aiInput.value).matches.value else map[];
              response.matches == AliasMatches(items, aliases) + fromAi
    ensures response.MatchFailure? <==> aiInput.Some? && ai(aiInput.value).AiThrew?
  {
    catalogueFetched, aiInput := false, None;
    if items == [] {
      response := Matches(map[]);
      return;
    }
    var aliasMatches: map<string, string> := map[];
    if aliasRows.Some? {
      aliasMatches := BuildAliasMap(aliasRows.value);
    }
    var finalMatches, itemsForAi := Partition(items, aliasMatches);
    if itemsForAi == [] {
      response := Matches(finalMatches);
      return;
    }
    catalogueFetched := true;
    if catalogue == [] {
      response := Matches(finalMatches);
      return;
    }
    var simplified := Simplify(itemsForAi);
    aiInput := Some(simplified);
    match ai(simplified)
    case AiThrew(msg) =>
      response := MatchFailure(msg);
    case AiContent(content) =>
      var aiResults := if content.Some? then content.value else map[];
      response := Matches(finalMatches + aiResults);
  }

  /** The merge `{...finalMatches, ...aiResults}`: every AI key wins, every
      other alias key keeps its alias value, and nothing else appears. */
  lemma MergePrefersAi(aliasMatches: map<string, string>, aiResults: map<string, string>)
    ensures (aliasMatches + aiResults).Keys == aliasMatches.Keys + aiResults.Keys
    ensures forall k :: k in aiResults ==> (aliasMatches + aiResults)[k] == aiResults[k]
    ensures forall k :: k in aliasMatches && k !in aiResults ==> (aliasMatches + aiResults)[k] == aliasMatches[k]
  {
  }

  /** Every item sent to the AI is the projection of an item without an
      alias, and every item without an alias is sent. */
  lemma AiInputIsUnaliased(items: seq<MatchItem>, aliases: map<string, string>)
    ensures forall x :: x in Simplify(Filter(items, NoAlias(aliases))) ==>
              exists it :: it in items && !HasAlias(aliases, it.rawName) && x == AiItem(it.id, it.rawName, it.rawUnit)
    ensures forall it :: it in items && !HasAlias(aliases, it.rawName) ==>
              AiItem(it.id, it.rawName, it.rawUnit) in Simplify(Filter(items, NoAlias(aliases)))
  {
    var kept := Filter(items, NoAlias(aliases));
    var sent := Simplify(kept);
    forall x | x in sent
      ensures exists it :: it in items && !HasAlias(aliases, it.rawName) && x == AiItem(it.id, it.rawName, it.rawUnit)
    {
      var i :| 0 <= i < |sent| && sent[i] == x;
      assert kept[i] in kept;
    }
    forall it | it in items && !HasAlias(aliases, it.rawName)
      ensures AiItem(it.id, it.rawName, it.rawUnit) in sent
    {
      assert it in kept;
      var i :| 0 <= i < |kept| && kept[i] == it;
      assert sent[i] == AiItem(it.id, it.rawName, it.rawUnit);
    }
  }
}
