/** The quote-pricing route (`POST /api/quote-pricing`): the raw texts of a
    quote's items are de-duplicated, cleaned by an AI call in chunks of 20,
    priced one by one (service-only items are left to manual pricing, then
    the internal catalogue is tried, then a market search), and every item
    receives the result of its raw text.

    The catalogue query, the AI cleaning call, the market search and the
    `quote_items` / `quotes` writes are oracles or outputs: `clean(chunk)`
    is the cleaning call's reply for a chunk (a throw of the retry wrapper
    or of `JSON.parse` is `ChunkFailed`), `market(name)` the market search's
    reply for a cleaned name, and the writes are returned as values. */
module QuotePricing {
  import opened Common

  const ChunkSize: nat := 20

  datatype QuoteItem = QuoteItem(id: string, rawText: string)

  /** `selected_price_source` */
  datatype PriceSource = NoSource | Manual | Internal | Market

  /** One entry of `processingMap`, keyed by raw text. */
  datatype PricingRecord = PricingRecord(
    cleanName: string,
    isServiceOnly: bool,
    source: PriceSource,
    finalPrice: real,
    marketUrl: Option<string>,
    marketStore: Option<string>)

  /** One element of the cleaning reply's `items`. */
  datatype CleanEntry = CleanEntry(originalText: string, cleanName: string, isServiceOnly: bool)

  /** The cleaning call for one chunk: it threw, it gave no text or no
      `items`, or it gave a list of entries. */
  datatype ChunkReply = ChunkFailed | ChunkNoItems | ChunkItems(entries: seq<CleanEntry>)

  /** A price point of a catalogue material; `createdAt` is the time stamp. */
  datatype CataloguePrice = CataloguePrice(unitPrice: real, createdAt: int)

  /** A catalogue material, as the name-ordered catalogue query returns it. */
  datatype CatalogueMaterial = CatalogueMaterial(name: string, prices: seq<CataloguePrice>)

  /** The market search for one cleaned name: it threw, it gave no text, or
      it gave a parsed answer (with the first grounding chunk's URI). */
  datatype MarketReply =
    | MarketFailed
    | MarketNoText
    | MarketAnswer(found: bool, price: real, storeName: Option<string>, sourceUri: Option<string>)

  /** The row written to `quote_items` for one item. */
  datatype ItemUpdate = ItemUpdate(
    itemId: string,
    internalUnitPrice: Option<real>,
    marketUnitPrice: Option<real>,
    marketSourceUrl: Option<string>,
    marketSourceName: Option<string>,
    selectedSource: PriceSource)

  // ---------------------------------------------------------------- de-dup

  /** `[...new Set(items.map(i => i.raw_text))]`: every raw text once, in the
      order of its first appearance. */
  function UniqueTexts(items: seq<QuoteItem>): (r: seq<string>)
    ensures NoDuplicates(r)
    ensures forall t :: t in r <==> exists i :: 0 <= i < |items| && items[i].rawText == t
    decreases |items|
  {
    if items == [] then []
    else
      var prefix := items[..|items| - 1];
      var r := UniqueTexts(prefix);
      var t := items[|items| - 1].rawText;
      assert forall i :: 0 <= i < |prefix| ==> prefix[i] == items[i];
      if t in r then r else r + [t]
  }

  /** The distinct texts come in the order of their first appearance: a
      text listed before another appears before every occurrence of it. */
  lemma {:induction false} UniqueTextsInFirstAppearanceOrder(items: seq<QuoteItem>)
    ensures forall a, b, q :: 0 <= a < b < |UniqueTexts(items)| && 0 <= q < |items|
                              && items[q].rawText == UniqueTexts(items)[b] ==>
              AppearsBefore(items, UniqueTexts(items)[a], q)
    decreases |items|
  {
    if items != [] {
      var prefix := items[..|items| - 1];
      var r := UniqueTexts(prefix);
      var t := items[|items| - 1].rawText;
      UniqueTextsInFirstAppearanceOrder(prefix);
      assert UniqueTexts(items) == if t in r then r else r + [t];
      forall a, b, q | 0 <= a < b < |UniqueTexts(items)| && 0 <= q < |items|
                       && items[q].rawText == UniqueTexts(items)[b]
        ensures AppearsBefore(items, UniqueTexts(items)[a], q)
      {
        var u := UniqueTexts(items);
        assert u[a] == r[a];
        if b < |r| {
          assert u[b] == r[b];
          var q' := q;
          if q == |prefix| {
            assert r[b] in r;
            q' :| 0 <= q' < |prefix| && prefix[q'].rawText == r[b];
          }
          assert prefix[q'].rawText == r[b];
          assert AppearsBefore(prefix, r[a], q');
          var p :| 0 <= p < q' && p < |prefix| && prefix[p].rawText == r[a];
          assert items[p].rawText == r[a];
        } else {
          assert t !in r && u[b] == t;
          assert r[a] in r;
          var p :| 0 <= p < |prefix| && prefix[p].rawText == r[a];
          assert q == |items| - 1;
          assert items[p].rawText == r[a];
        }
      }
    }
  }

  /** `t` is the raw text of some item before position `q`. */
  predicate AppearsBefore(items: seq<QuoteItem>, t: string, q: int)
  {
    exists p :: 0 <= p < q && p < |items| && items[p].rawText == t
  }

  function InitialRecord(text: string): PricingRecord
  {
    PricingRecord(text, false, NoSource, 0.0, None, None)
  }

  /** A record that the pricing step has not touched yet. */
  predicate Unpriced(rec: PricingRecord)
  {
    rec.source == NoSource && rec.finalPrice == 0.0 && rec.marketUrl.None? && rec.marketStore.None?
  }

  /** The initialised `processingMap`: one record per distinct text, whose
      clean name is the text itself, not service-only and not priced. */
  function InitialRecords(texts: seq<string>): (m: map<string, PricingRecord>)
    ensures forall t :: t in m <==> t in texts
    ensures forall t :: t in m ==> m[t].cleanName == t && !m[t].isServiceOnly && Unpriced(m[t])
  {
    map t | t in texts :: InitialRecord(t)
  }

  // -------------------------------------------------------------- cleaning

  /** The chunk that starts at `start`: at most `ChunkSize` texts. */
  function ChunkAt(texts: seq<string>, start: nat): seq<string>
    requires start < |texts|
  {
    texts[start..Min(start + ChunkSize, |texts|)]
  }

  /** The entries applied by the chunk loop from `start` on: the replies'
      entries, chunk after chunk, up to (not including) the first chunk
      whose call failed. */
  function CleaningEntries(texts: seq<string>, clean: seq<string> -> ChunkReply, start: nat): seq<CleanEntry>
    decreases |texts| - start
  {
    if start >= |texts| then []
    else match clean(ChunkAt(texts, start))
      case ChunkFailed => []
      case ChunkNoItems => CleaningEntries(texts, clean, start + ChunkSize)
      case ChunkItems(es) => es + CleaningEntries(texts, clean, start + ChunkSize)
  }

  /** One cleaning entry: applied only when its original text is a key. */
  function ApplyEntry(m: map<string, PricingRecord>, e: CleanEntry): map<string, PricingRecord>
  {
    if e.originalText in m
    then m[e.originalText := m[e.originalText].(cleanName := e.cleanName, isServiceOnly := e.isServiceOnly)]
    else m
  }

  function ApplyEntries(m: map<string, PricingRecord>, es: seq<CleanEntry>): map<string, PricingRecord>
    decreases |es|
  {
    if es == [] then m else ApplyEntries(ApplyEntry(m, es[0]), es[1..])
  }

  /** The last entry in `es` about text `k`, if any. */
  function LastEntryFor(es: seq<CleanEntry>, k: string): (r: Option<CleanEntry>)
    ensures r.None? <==> forall i :: 0 <= i < |es| ==> es[i].originalText != k
    ensures r.Some? ==> exists i :: 0 <= i < |es| && es[i] == r.value && r.value.originalText == k
                                    && forall j :: i < j < |es| ==> es[j].originalText != k
    decreases |es|
  {
    if es == [] then None
    else
      var rest := LastEntryFor(es[1..], k);
      if rest.Some? then
        assert forall i :: 1 <= i < |es| ==> es[i] == es[1..][i - 1];
        rest
      else if es[0].originalText == k then Some(es[0])
      else None
  }

  /** A record after the cleaning entry `e` (if any) was applied to it. */
  function Cleaned(rec: PricingRecord, e: Option<CleanEntry>): PricingRecord
  {
    if e.Some? then rec.(cleanName := e.value.cleanName, isServiceOnly := e.value.isServiceOnly) else rec
  }

  lemma {:induction false} ApplyEntriesAppend(m: map<string, PricingRecord>, a: seq<CleanEntry>, b: seq<CleanEntry>)
    ensures ApplyEntries(m, a + b) == ApplyEntries(ApplyEntries(m, a), b)
    decreases |a|
  {
    if a == [] {
      assert a + b == b;
    } else {
      assert (a + b)[1..] == a[1..] + b;
      ApplyEntriesAppend(ApplyEntry(m, a[0]), a[1..], b);
    }
  }

  /** Cleaning never adds or removes a key, and the record of a key ends up
      with the clean name and service flag of the LAST entry about it (or
      unchanged when no entry is about it); its price fields are kept. */
  lemma {:induction false} ApplyEntriesEffect(m: map<string, PricingRecord>, es: seq<CleanEntry>, k: string)
    ensures ApplyEntries(m, es).Keys == m.Keys
    ensures k in m ==> ApplyEntries(m, es)[k] == Cleaned(m[k], LastEntryFor(es, k))
    decreases |es|
  {
    if es != [] {
      var m1 := ApplyEntry(m, es[0]);
      ApplyEntriesEffect(m1, es[1..], k);
    }
  }

  /** Cleaning keeps every key and leaves the price fields untouched. */
  lemma CleaningKeepsUnpriced(m: map<string, PricingRecord>, es: seq<CleanEntry>)
    ensures ApplyEntries(m, es).Keys == m.Keys
    ensures forall k :: k in m && Unpriced(m[k]) ==> Unpriced(ApplyEntries(m, es)[k])
  {
    forall k | k in m
      ensures ApplyEntries(m, es).Keys == m.Keys && ApplyEntries(m, es)[k] == Cleaned(m[k], LastEntryFor(es, k))
    {
      ApplyEntriesEffect(m, es, k);
    }
    if m == map[] {
      ApplyEntriesEffect(m, es, "");
    }
  }

  /** The cleaning phase as `POST` runs it: chunks of `ChunkSize` texts, in
      order; a failed chunk ends the phase and keeps what was applied. */
  method CleanInChunks(texts: seq<string>, records: map<string, PricingRecord>, clean: seq<string> -> ChunkReply)
    returns (cleaned: map<string, PricingRecord>, sent: seq<seq<string>>, failed: bool)
    ensures cleaned == ApplyEntries(records, CleaningEntries(texts, clean, 0))
    ensures forall k :: 0 <= k < |sent| ==> 1 <= |sent[k]| <= ChunkSize
    ensures forall k :: 0 <= k < |sent| - 1 ==> clean(sent[k]) != ChunkFailed
    ensures !failed ==> Flatten(sent) == texts && forall k :: 0 <= k < |sent| ==> clean(sent[k]) != ChunkFailed
    ensures failed ==> sent != [] && clean(sent[|sent| - 1]) == ChunkFailed
    ensures failed ==> |Flatten(sent)| <= |texts| && Flatten(sent) == texts[..|Flatten(sent)|]
  {
    cleaned, sent, failed := records, [], false;
    var i: nat := 0;
    while i < |texts|
      invariant CleanedUpTo(texts, records, clean, i, cleaned, sent)
      decreases |texts| - i
    {
      var chunkFailed;
      cleaned, sent, chunkFailed := CleanNextChunk(texts, records, clean, i, cleaned, sent);
      if chunkFailed {
        failed := true;
        return;
      }
      i := i + ChunkSize;
    }
    CleanedAll(texts, records, clean, i, cleaned, sent);
  }

  /** The state of the chunk loop before the chunk at `i`: what is left of
      the cleaning entries, applied to `cleaned`, gives the final records,
      and the chunks sent so far are the texts before `i`, each of one to
      `ChunkSize` texts, none of them failed. */
  ghost predicate CleanedUpTo(texts: seq<string>, records: map<string, PricingRecord>, clean: seq<string> -> ChunkReply,
                              i: nat, cleaned: map<string, PricingRecord>, sent: seq<seq<string>>)
  {
    && ApplyEntries(cleaned, CleaningEntries(texts, clean, i)) == ApplyEntries(records, CleaningEntries(texts, clean, 0))
    && Flatten(sent) == texts[..Min(i, |texts|)]
    && forall k :: 0 <= k < |sent| ==> 1 <= |sent[k]| <= ChunkSize && clean(sent[k]) != ChunkFailed
  }

  /** Past the last text the loop state is the method's promise. */
  lemma CleanedAll(texts: seq<string>, records: map<string, PricingRecord>, clean: seq<string> -> ChunkReply,
                   i: nat, cleaned: map<string, PricingRecord>, sent: seq<seq<string>>)
    requires i >= |texts| && CleanedUpTo(texts, records, clean, i, cleaned, sent)
    ensures cleaned == ApplyEntries(records, CleaningEntries(texts, clean, 0))
    ensures Flatten(sent) == texts
    ensures forall k :: 0 <= k < |sent| ==> 1 <= |sent[k]| <= ChunkSize && clean(sent[k]) != ChunkFailed
  {
    assert CleaningEntries(texts, clean, i) == [];
    assert texts[..|texts|] == texts;
  }

  /** One turn of the chunk loop: the chunk at `i` is sent and its reply,
      unless the call failed, applied. */
  method CleanNextChunk(texts: seq<string>, records: map<string, PricingRecord>, clean: seq<string> -> ChunkReply,
                        i: nat, cleaned: map<string, PricingRecord>, sent: seq<seq<string>>)
    returns (cleaned': map<string, PricingRecord>, sent': seq<seq<string>>, failed: bool)
    requires i < |texts| && CleanedUpTo(texts, records, clean, i, cleaned, sent)
    ensures failed <==> clean(ChunkAt(texts, i)) == ChunkFailed
    ensures !failed ==> CleanedUpTo(texts, records, clean, i + ChunkSize, cleaned', sent')
    // a failed chunk ends the phase with what was applied before it
    ensures failed ==> cleaned' == ApplyEntries(records, CleaningEntries(texts, clean, 0))
    ensures failed ==> sent' != [] && clean(sent'[|sent'| - 1]) == ChunkFailed
    ensures failed ==> forall k :: 0 <= k < |sent'| ==> 1 <= |sent'[k]| <= ChunkSize
    ensures failed ==> forall k :: 0 <= k < |sent'| - 1 ==> clean(sent'[k]) != ChunkFailed
    ensures failed ==> |Flatten(sent')| <= |texts| && Flatten(sent') == texts[..|Flatten(sent')|]
  {
    var chunk := ChunkAt(texts, i);
    ChunkStep(texts, i, sent);
    sent' := sent + [chunk];
    assert forall k :: 0 <= k < |sent| ==> sent'[k] == sent[k];
    cleaned', failed := cleaned, false;
    match clean(chunk) {
    case ChunkFailed =>
      failed := true;
    case ChunkNoItems =>
    case ChunkItems(entries) =>
      ApplyEntriesAppend(cleaned, entries, CleaningEntries(texts, clean, i + ChunkSize));
      cleaned' := ApplyReply(cleaned, entries);
    }
  }

  /** The texts sent so far grow by the next chunk. */
  lemma ChunkStep(texts: seq<string>, i: nat, sent: seq<seq<string>>)
    requires i < |texts| && Flatten(sent) == texts[..i]
    ensures Flatten(sent + [ChunkAt(texts, i)]) == texts[..Min(i + ChunkSize, |texts|)]
  {
    var chunk := ChunkAt(texts, i);
    assert (sent + [chunk])[..|sent|] == sent;
    assert texts[..Min(i + ChunkSize, |texts|)] == texts[..i] + chunk;
  }

  /** The `forEach` over one reply's items: each item whose original text
      is a key renames that record and sets its service flag, in order. */
  method ApplyReply(records: map<string, PricingRecord>, entries: seq<CleanEntry>)
    returns (updated: map<string, PricingRecord>)
    ensures updated == ApplyEntries(records, entries)
  {
    updated := records;
    var j := 0;
    while j < |entries|
      invariant 0 <= j <= |entries|
      invariant ApplyEntries(updated, entries[j..]) == ApplyEntries(records, entries)
    {
      assert entries[j..][1..] == entries[j + 1..];
      var e := entries[j];
      if e.originalText in updated {
        updated := updated[e.originalText := updated[e.originalText].(cleanName := e.cleanName, isServiceOnly := e.isServiceOnly)];
      }
      j := j + 1;
    }
  }

  // --------------------------------------------------------------- pricing

  /** The catalogue test of `find`: either name contains the other,
      ignoring case. */
  predicate NamesMatch(materialName: string, cleanName: string)
  {
    ContainsIgnoringCase(materialName, cleanName) || ContainsIgnoringCase(cleanName, materialName)
  }

  function FirstMatchFrom(catalogue: seq<CatalogueMaterial>, cleanName: string, from: nat): (r: Option<nat>)
    requires from <= |catalogue|
    ensures r.Some? ==> from <= r.value < |catalogue| && NamesMatch(catalogue[r.value].name, cleanName)
    ensures r.Some? ==> forall j :: from <= j < r.value ==> !NamesMatch(catalogue[j].name, cleanName)
    ensures r.None? ==> forall j :: from <= j < |catalogue| ==> !NamesMatch(catalogue[j].name, cleanName)
    decreases |catalogue| - from
  {
    if from == |catalogue| then None
    else if NamesMatch(catalogue[from].name, cleanName) then Some(from)
    else FirstMatchFrom(catalogue, cleanName, from + 1)
  }

  /** `internalMaterials.find(...)`: the index of the first material, in
      catalogue order, whose name matches. */
  function FirstMatch(catalogue: seq<CatalogueMaterial>, cleanName: string): Option<nat>
  {
    FirstMatchFrom(catalogue, cleanName, 0)
  }

  /** Element 0 of the prices sorted newest first (a stable sort): the
      first price with the latest time stamp. */
  function Latest(prices: seq<CataloguePrice>): (r: CataloguePrice)
    requires prices != []
    ensures forall p :: p in prices ==> p.createdAt <= r.createdAt
    ensures exists i :: 0 <= i < |prices| && prices[i] == r
                        && forall j :: 0 <= j < i ==> prices[j].createdAt < r.createdAt
    decreases |prices|
  {
    if |prices| == 1 then prices[0]
    else
      var prefix := prices[..|prices| - 1];
      var best := Latest(prefix);
      var last := prices[|prices| - 1];
      assert forall j :: 0 <= j < |prefix| ==> prefix[j] == prices[j];
      assert prices == prefix + [last];
      if last.createdAt > best.createdAt then last else best
  }

  /** The first matching material exists and has at least one price. */
  predicate HasInternalPrice(catalogue: seq<CatalogueMaterial>, cleanName: string)
  {
    var m := FirstMatch(catalogue, cleanName);
    m.Some? && |catalogue[m.value].prices| > 0
  }

  /** The price an internal match gives: the latest price of the first match. */
  function InternalPrice(catalogue: seq<CatalogueMaterial>, cleanName: string): real
    requires HasInternalPrice(catalogue, cleanName)
  {
    Latest(catalogue[FirstMatch(catalogue, cleanName).value].prices).unitPrice
  }

  /** The text goes to the market search (after the 4 s wait). */
  predicate NeedsMarketSearch(rec: PricingRecord, catalogue: seq<CatalogueMaterial>, hasAi: bool)
  {
    !rec.isServiceOnly && !HasInternalPrice(catalogue, rec.cleanName) && hasAi
  }

  /** `priceData.found && priceData.price > 0` */
  predicate Acceptable(reply: MarketReply)
  {
    reply.MarketAnswer? && reply.found && reply.price > 0.0
  }

  /** The pricing of one distinct text (the body of the pricing loop). */
  function PriceRecord(rec: PricingRecord, catalogue: seq<CatalogueMaterial>, hasAi: bool,
                       market: string -> MarketReply): (r: PricingRecord)
    requires Unpriced(rec)
    ensures r.cleanName == rec.cleanName && r.isServiceOnly == rec.isServiceOnly
    ensures r.source == Manual <==> rec.isServiceOnly
    ensures r.source == Internal <==> !rec.isServiceOnly && HasInternalPrice(catalogue, rec.cleanName)
    ensures r.source == Internal ==> r.finalPrice == InternalPrice(catalogue, rec.cleanName)
    ensures r.source == Market <==> NeedsMarketSearch(rec, catalogue, hasAi) && Acceptable(market(rec.cleanName))
    ensures r.source == Market ==>
              r.finalPrice == market(rec.cleanName).price > 0.0 && r.marketStore == market(rec.cleanName).storeName
    ensures r.source == Market ==>
              r.marketUrl == (if Truthy(market(rec.cleanName).sourceUri) then market(rec.cleanName).sourceUri else None)
    ensures r.source != Market ==> r.marketUrl.None? && r.marketStore.None?
    ensures r.source in {NoSource, Manual} ==> r.finalPrice == 0.0
  {
    if rec.isServiceOnly then rec.(source := Manual)
    else if HasInternalPrice(catalogue, rec.cleanName) then
      rec.(finalPrice := InternalPrice(catalogue, rec.cleanName), source := Internal)
    else if !hasAi then rec
    else match market(rec.cleanName)
      case MarketAnswer(found, price, store, uri) =>
        if found && price > 0.0 then
          rec.(finalPrice := price, source := Market, marketStore := store,
               marketUrl := if Truthy(uri) then uri else rec.marketUrl)
        else rec
      case _ => rec
  }

  /** The cleaned names sent to the market search, in loop order. */
  function MarketQueries(texts: seq<string>, records: map<string, PricingRecord>,
                         catalogue: seq<CatalogueMaterial>, hasAi: bool): seq<string>
    requires forall t :: t in texts ==> t in records
    decreases |texts|
  {
    if texts == [] then []
    else
      var t := texts[|texts| - 1];
      MarketQueries(texts[..|texts| - 1], records, catalogue, hasAi)
      + (if NeedsMarketSearch(records[t], catalogue, hasAi) then [records[t].cleanName] else [])
  }

  /** One more text adds its search, if it needs one. */
  lemma QueriesStep(texts: seq<string>, i: nat, records: map<string, PricingRecord>,
                    catalogue: seq<CatalogueMaterial>, hasAi: bool)
    requires i < |texts| && forall t :: t in texts ==> t in records
    ensures MarketQueries(texts[..i + 1], records, catalogue, hasAi)
            == MarketQueries(texts[..i], records, catalogue, hasAi)
               + (if NeedsMarketSearch(records[texts[i]], catalogue, hasAi) then [records[texts[i]].cleanName] else [])
  {
    assert texts[..i + 1][..i] == texts[..i];
  }

  /** A name is searched on the market exactly when some text with that
      clean name is neither service-only nor internally priced (and the AI
      client exists). */
  lemma {:induction false} MarketQueriesExactly(texts: seq<string>, records: map<string, PricingRecord>,
                                                catalogue: seq<CatalogueMaterial>, hasAi: bool, q: string)
    requires forall t :: t in texts ==> t in records
    ensures q in MarketQueries(texts, records, catalogue, hasAi)
        <==> exists t :: t in texts && records[t].cleanName == q && NeedsMarketSearch(records[t], catalogue, hasAi)
    decreases |texts|
  {
    if texts != [] {
      var prefix := texts[..|texts| - 1];
      var last := texts[|texts| - 1];
      MarketQueriesExactly(prefix, records, catalogue, hasAi, q);
      assert texts == prefix + [last];
      assert forall t :: t in texts <==> t in prefix || t == last;
    }
  }

  /** The body of the pricing loop for one text: returns the updated
      record and whether the market search was made. */
  method PriceOne(data: PricingRecord, catalogue: seq<CatalogueMaterial>, hasAi: bool, market: string -> MarketReply)
    returns (result: PricingRecord, searched: bool)
    requires Unpriced(data)
    ensures result == PriceRecord(data, catalogue, hasAi, market)
    ensures searched == NeedsMarketSearch(data, catalogue, hasAi)
  {
    result, searched := data, false;
    if data.isServiceOnly {
      result := data.(source := Manual);
      return;
    }
    var m := FirstMatch(catalogue, data.cleanName);
    if m.Some? && |catalogue[m.value].prices| > 0 {
      result := data.(finalPrice := Latest(catalogue[m.value].prices).unitPrice, source := Internal);
      return;
    }
    if hasAi {
      searched := true;
      match market(data.cleanName)
      case MarketAnswer(found, price, store, uri) =>
        if found && price > 0.0 {
          result := data.(finalPrice := price, source := Market, marketStore := store);
          if Truthy(uri) {
            result := result.(marketUrl := uri);
          }
        }
      case _ =>
    }
  }

  /** The pricing loop over the distinct texts, updating `processingMap` in
      place. */
  method PriceAll(texts: seq<string>, records: map<string, PricingRecord>, catalogue: seq<CatalogueMaterial>,
                  hasAi: bool, market: string -> MarketReply)
    returns (priced: map<string, PricingRecord>, queries: seq<string>)
    requires NoDuplicates(texts)
    requires forall t :: t in texts ==> t in records && Unpriced(records[t])
    ensures priced.Keys == records.Keys
    ensures forall t :: t in texts ==> priced[t] == PriceRecord(records[t], catalogue, hasAi, market)
    ensures forall t :: t in records && t !in texts ==> priced[t] == records[t]
    ensures queries == MarketQueries(texts, records, catalogue, hasAi)
  {
    priced, queries := records, [];
    var i := 0;
    while i < |texts|
      invariant 0 <= i <= |texts|
      invariant PricedUpTo(texts, i, records, priced, catalogue, hasAi, market)
      invariant queries == MarketQueries(texts[..i], records, catalogue, hasAi)
    {
      priced, queries := PriceNext(texts, i, records, priced, queries, catalogue, hasAi, market);
      i := i + 1;
    }
    PricedAll(texts, records, priced, catalogue, hasAi, market);
    assert texts[..i] == texts;
  }

  /** One turn of the pricing loop: `texts[i]` is priced in place and its
      market search, if any, is noted. */
  method PriceNext(texts: seq<string>, i: nat, records: map<string, PricingRecord>,
                   priced: map<string, PricingRecord>, queries: seq<string>,
                   catalogue: seq<CatalogueMaterial>, hasAi: bool, market: string -> MarketReply)
    returns (priced': map<string, PricingRecord>, queries': seq<string>)
    requires NoDuplicates(texts) && i < |texts|
    requires forall t :: t in texts ==> t in records && Unpriced(records[t])
    requires PricedUpTo(texts, i, records, priced, catalogue, hasAi, market)
    requires queries == MarketQueries(texts[..i], records, catalogue, hasAi)
    ensures PricedUpTo(texts, i + 1, records, priced', catalogue, hasAi, market)
    ensures queries' == MarketQueries(texts[..i + 1], records, catalogue, hasAi)
  {
    var rawText := texts[i];
    QueriesStep(texts, i, records, catalogue, hasAi);
    PricedStep(texts, i, records, priced, catalogue, hasAi, market);
    var data, searched := PriceOne(priced[rawText], catalogue, hasAi, market);
    queries' := queries;
    if searched {
      queries' := queries + [priced[rawText].cleanName];
    }
    priced' := priced[rawText := data];
  }

  /** After every text the loop state is the method's promise. */
  lemma PricedAll(texts: seq<string>, records: map<string, PricingRecord>,
                  priced: map<string, PricingRecord>, catalogue: seq<CatalogueMaterial>, hasAi: bool,
                  market: string -> MarketReply)
    requires forall t :: t in texts ==> t in records && Unpriced(records[t])
    requires PricedUpTo(texts, |texts|, records, priced, catalogue, hasAi, market)
    ensures priced.Keys == records.Keys
    ensures forall t :: t in texts ==> priced[t] == PriceRecord(records[t], catalogue, hasAi, market)
    ensures forall t :: t in records && t !in texts ==> priced[t] == records[t]
  {
    assert texts[..|texts|] == texts;
  }

  /** The loop state of `PriceAll` after `i` texts: the same keys, the
      first `i` texts priced and every other record untouched. */
  predicate PricedUpTo(texts: seq<string>, i: nat, records: map<string, PricingRecord>,
                       priced: map<string, PricingRecord>, catalogue: seq<CatalogueMaterial>, hasAi: bool,
                       market: string -> MarketReply)
    requires i <= |texts| && forall t :: t in texts ==> t in records && Unpriced(records[t])
  {
    && priced.Keys == records.Keys
    && (forall t :: t in texts[..i] ==> priced[t] == PriceRecord(records[t], catalogue, hasAi, market))
    && (forall t :: t in records && t !in texts[..i] ==> priced[t] == records[t])
  }

  /** Pricing the next text keeps the loop state. */
  lemma PricedStep(texts: seq<string>, i: nat, records: map<string, PricingRecord>,
                   priced: map<string, PricingRecord>, catalogue: seq<CatalogueMaterial>, hasAi: bool,
                   market: string -> MarketReply)
    requires NoDuplicates(texts) && i < |texts|
    requires forall t :: t in texts ==> t in records && Unpriced(records[t])
    requires PricedUpTo(texts, i, records, priced, catalogue, hasAi, market)
    ensures texts[i] in priced && priced[texts[i]] == records[texts[i]]
    ensures PricedUpTo(texts, i + 1, records,
                       priced[texts[i] := PriceRecord(records[texts[i]], catalogue, hasAi, market)],
                       catalogue, hasAi, market)
  {
    var t0 := texts[i];
    var next := priced[t0 := PriceRecord(records[t0], catalogue, hasAi, market)];
    assert t0 !in texts[..i];
    PrefixStep(texts, i);
    assert forall t :: t in texts[..i + 1] <==> t in texts[..i] || t == t0;
    assert next.Keys == records.Keys;
    assert forall t :: t in texts[..i + 1] ==> next[t] == PriceRecord(records[t], catalogue, hasAi, market);
    assert forall t :: t in records && t !in texts[..i + 1] ==> next[t] == records[t];
  }

  // --------------------------------------------------------------- fan-out

  /** The `quote_items` update for an item whose text has record `rec`. */
  function UpdateFor(id: string, rec: PricingRecord): ItemUpdate
  {
    ItemUpdate(id,
               if rec.source == Internal then Some(rec.finalPrice) else None,
               if rec.source == Market then Some(rec.finalPrice) else None,
               rec.marketUrl, rec.marketStore, rec.source)
  }

  /** The item loop: one update per item whose raw text has a record. */
  function FanOut(items: seq<QuoteItem>, records: map<string, PricingRecord>): (r: seq<ItemUpdate>)
    ensures (forall i :: 0 <= i < |items| ==> items[i].rawText in records) ==>
              |r| == |items| && forall i :: 0 <= i < |items| ==> r[i] == UpdateFor(items[i].id, records[items[i].rawText])
    decreases |items|
  {
    if items == [] then []
    else
      (if items[0].rawText in records then [UpdateFor(items[0].id, records[items[0].rawText])] else [])
      + FanOut(items[1..], records)
  }

  // ----------------------------------------------------------------- route

  /** The records after initialisation and cleaning (cleaning only runs
      when the AI client exists). */
  function CleanedRecords(items: seq<QuoteItem>, hasAi: bool, clean: seq<string> -> ChunkReply): (m: map<string, PricingRecord>)
    ensures forall t :: t in m <==> exists i :: 0 <= i < |items| && items[i].rawText == t
    ensures forall t :: t in m ==> Unpriced(m[t])
  {
    var texts := UniqueTexts(items);
    CleaningKeepsUnpriced(InitialRecords(texts), CleaningEntries(texts, clean, 0));
    if hasAi then ApplyEntries(InitialRecords(texts), CleaningEntries(texts, clean, 0))
    else InitialRecords(texts)
  }

  /** `POST`: returns the item updates, whether the quote is set to
      `analyzed`, and the names sent to the market search. */
  method PriceQuote(items: seq<QuoteItem>, catalogue: seq<CatalogueMaterial>, hasAi: bool,
                    clean: seq<string> -> ChunkReply, market: string -> MarketReply)
    returns (updates: seq<ItemUpdate>, analyzed: bool, marketQueries: seq<string>)
    ensures items == [] ==> updates == [] && !analyzed && marketQueries == []
    ensures items != [] ==> analyzed && |updates| == |items|
    ensures forall i :: 0 <= i < |updates| ==>
              var rec := CleanedRecords(items, hasAi, clean)[items[i].rawText];
              Unpriced(rec) && updates[i] == UpdateFor(items[i].id, PriceRecord(rec, catalogue, hasAi, market))
    ensures forall q :: q in marketQueries ==>
              exists i :: 0 <= i < |items| && CleanedRecords(items, hasAi, clean)[items[i].rawText].cleanName == q
  {
    if items == [] {
      return [], false, [];
    }
    var texts := UniqueTexts(items);
    var records := InitialRecords(texts);
    if hasAi {
      var sent, failed;
      records, sent, failed := CleanInChunks(texts, records, clean);
    }
    assert records == CleanedRecords(items, hasAi, clean);
    updates, marketQueries := PriceAndFanOut(items, texts, records, catalogue, hasAi, market);
    analyzed := true;
  }

  /** The pricing loop over the cleaned records of the distinct texts,
      then the fan-out to the items. */
  method PriceAndFanOut(items: seq<QuoteItem>, texts: seq<string>, cleaned: map<string, PricingRecord>,
                        catalogue: seq<CatalogueMaterial>, hasAi: bool, market: string -> MarketReply)
    returns (updates: seq<ItemUpdate>, marketQueries: seq<string>)
    requires NoDuplicates(texts)
    requires forall t :: t in texts <==> exists i :: 0 <= i < |items| && items[i].rawText == t
    requires forall t :: t in cleaned <==> t in texts
    requires forall t :: t in cleaned ==> Unpriced(cleaned[t])
    ensures |updates| == |items|
    ensures forall i :: 0 <= i < |items| ==>
              var rec := cleaned[items[i].rawText];
              Unpriced(rec) && updates[i] == UpdateFor(items[i].id, PriceRecord(rec, catalogue, hasAi, market))
    ensures forall q :: q in marketQueries ==>
              exists i :: 0 <= i < |items| && cleaned[items[i].rawText].cleanName == q
  {
    var priced;
    priced, marketQueries := PriceAll(texts, cleaned, catalogue, hasAi, market);
    forall q | q in marketQueries
      ensures exists i :: 0 <= i < |items| && cleaned[items[i].rawText].cleanName == q
    {
      MarketQueriesExactly(texts, cleaned, catalogue, hasAi, q);
    }
    assert forall i :: 0 <= i < |items| ==> items[i].rawText in texts;
    updates := FanOut(items, priced);
    FanOutOfPriced(items, cleaned, priced, catalogue, hasAi, market);
  }

  /** The fan-out over records priced from `cleaned` writes, for every
      item, the update of its own text's priced record. */
  lemma FanOutOfPriced(items: seq<QuoteItem>, cleaned: map<string, PricingRecord>, priced: map<string, PricingRecord>,
                       catalogue: seq<CatalogueMaterial>, hasAi: bool, market: string -> MarketReply)
    requires forall t :: t in cleaned ==> Unpriced(cleaned[t])
    requires forall i :: 0 <= i < |items| ==> items[i].rawText in cleaned && items[i].rawText in priced
    requires forall t :: t in cleaned && t in priced ==> priced[t] == PriceRecord(cleaned[t], catalogue, hasAi, market)
    ensures |FanOut(items, priced)| == |items|
    ensures forall i :: 0 <= i < |items| ==>
              Unpriced(cleaned[items[i].rawText])
              && FanOut(items, priced)[i] == UpdateFor(items[i].id, PriceRecord(cleaned[items[i].rawText], catalogue, hasAi, market))
  {
  }

  // ------------------------------------------------------------ properties

  /** The columns written for an item: an internal price exactly when the
      first catalogue match has prices (and the text is not service-only),
      a market price exactly when the market search was made and answered
      `found` with a positive price; otherwise neither. */
  lemma ItemPriceColumns(id: string, rec: PricingRecord, catalogue: seq<CatalogueMaterial>, hasAi: bool,
                         market: string -> MarketReply)
    requires Unpriced(rec)
    ensures var u := UpdateFor(id, PriceRecord(rec, catalogue, hasAi, market));
            && (u.internalUnitPrice.Some? <==> !rec.isServiceOnly && HasInternalPrice(catalogue, rec.cleanName))
            && (u.internalUnitPrice.Some? ==> u.internalUnitPrice.value == InternalPrice(catalogue, rec.cleanName))
            && (u.marketUnitPrice.Some? <==> NeedsMarketSearch(rec, catalogue, hasAi) && Acceptable(market(rec.cleanName)))
            && (u.marketUnitPrice.Some? ==> u.marketUnitPrice.value > 0.0)
            && (rec.isServiceOnly ==> u.selectedSource == Manual && u.internalUnitPrice.None? && u.marketUnitPrice.None?)
  {
  }
}
