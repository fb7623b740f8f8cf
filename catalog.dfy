/** The catalogue page: for each material, the last recorded price, the
    best (cheapest) price entry, whether the price is rising, and the
    material search (`MaterialCard`, `MaterialRow`, `filtered`).

    The material list with its price entries is the store's reply. */
module Catalog {
  import opened Common

  datatype PriceEntry = PriceEntry(unitPrice: real, createdAt: string, supplierName: Option<string>)

  datatype Material = Material(name: string, unit: string, prices: Option<seq<PriceEntry>>)

  /** `material.prices || []` */
  function Prices(m: Material): seq<PriceEntry>
  {
    OrEmpty(m.prices)
  }

  /** `lastPrice`: the unit price of the last entry, 0 when there is none. */
  function LastPrice(prices: seq<PriceEntry>): (p: real)
    ensures prices == [] ==> p == 0.0
    ensures prices != [] ==> p == prices[|prices| - 1].unitPrice
  {
    if |prices| > 0 then prices[|prices| - 1].unitPrice else 0.0
  }

  /** Position of the entry `reduce((prev, curr) => prev.unit_price <
      curr.unit_price ? prev : curr)` ends on: a cheapest entry, and on
      ties the later one. */
  function BestIndex(prices: seq<PriceEntry>): (k: nat)
    requires prices != []
    ensures k < |prices|
    ensures forall j :: 0 <= j < |prices| ==> prices[k].unitPrice <= prices[j].unitPrice
    ensures forall j :: k < j < |prices| ==> prices[k].unitPrice < prices[j].unitPrice
    decreases |prices|
  {
    if |prices| == 1 then 0
    else
      var prev := BestIndex(prices[..|prices| - 1]);
      var curr := |prices| - 1;
      if prices[prev].unitPrice < prices[curr].unitPrice then prev else curr
  }

  /** `bestEntry`: null for no entries. */
  function BestEntry(prices: seq<PriceEntry>): (best: Option<PriceEntry>)
    ensures best.None? <==> prices == []
    ensures best.Some? ==> best.value in prices && forall e :: e in prices ==> best.value.unitPrice <= e.unitPrice
  {
    if |prices| > 0 then Some(prices[BestIndex(prices)]) else None
  }

  /** `isIncreasing` */
  predicate IsIncreasing(prices: seq<PriceEntry>)
  {
    |prices| >= 2 && LastPrice(prices) > prices[|prices| - 2].unitPrice
  }

  /** The trend badge of a card: absent without prices, otherwise
      'Dráguló' for a rising price and 'Stabil' for any other. */
  function TrendBadge(prices: seq<PriceEntry>): (badge: Option<string>)
    ensures badge.None? <==> prices == []
    ensures badge == Some("Dráguló") <==> |prices| >= 2 && prices[|prices| - 1].unitPrice > prices[|prices| - 2].unitPrice
    ensures |prices| == 1 ==> badge == Some("Stabil")
  {
    if |prices| > 0 then Some(if IsIncreasing(prices) then "Dráguló" else "Stabil") else None
  }

  /** The supplier shown under the best price: `bestEntry?.invoices?.
      supplier_name || fallback` ('Nincs adat' on a card, '-' in a row). */
  function BestSource(prices: seq<PriceEntry>, fallback: string): (name: string)
    ensures prices == [] ==> name == fallback
    ensures prices != [] ==> name == TextOr(prices[BestIndex(prices)].supplierName, fallback)
  {
    var best := BestEntry(prices);
    if best.Some? then TextOr(best.value.supplierName, fallback) else fallback
  }

  function NameSearch(term: string): Material -> bool
  {
    (m: Material) => ContainsIgnoringCase(m.name, term)
  }

  /** `filtered`: the materials whose name contains the term, ignoring
      case, in catalogue order. */
  function Filtered(materials: seq<Material>, term: string): (r: seq<Material>)
    ensures forall m :: m in r <==> m in materials && ContainsIgnoringCase(m.name, term)
  {
    Filter(materials, NameSearch(term))
  }

  /** An empty search term keeps the whole catalogue. */
  lemma EmptySearchKeepsAll(materials: seq<Material>)
    ensures Filtered(materials, "") == materials
  {
    forall i | 0 <= i < |materials|
      ensures NameSearch("")(materials[i])
    {
      ContainsEmpty(Lower(materials[i].name));
      assert Lower("") == "";
    }
    FilterKeepsAll(materials, NameSearch(""));
  }

  /** A price entry appended at the cheapest price so far (or cheaper)
      becomes the best entry. */
  lemma CheaperNewEntryBecomesBest(prices: seq<PriceEntry>, e: PriceEntry)
    requires prices != [] && e.unitPrice <= BestEntry(prices).value.unitPrice
    ensures BestEntry(prices + [e]) == Some(e)
  {
    var all := prices + [e];
    assert all[..|all| - 1] == prices;
  }
}
