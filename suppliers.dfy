/** The suppliers page: invoices grouped by supplier name, with the number
    of invoices and the amount spent per supplier, listed by amount spent
    (`fetchSuppliersData`); the rename guard; the name search and the rank
    shown on each card.

    The invoice query is an oracle: the invoices as the store returned
    them (None when no data), each with the unit prices of its price rows. */
module Suppliers {
  import opened Common

  const UnknownSupplier: string := "Ismeretlen Beszállító"

  datatype Invoice = Invoice(supplierName: Option<string>, prices: Option<seq<real>>)

  datatype Supplier = Supplier(name: string, totalSpent: real, invoiceCount: nat)

  /** `inv.supplier_name || 'Ismeretlen Beszállító'` */
  function SupplierName(inv: Invoice): string
  {
    TextOr(inv.supplierName, UnknownSupplier)
  }

  /** `inv.prices?.reduce((sum, p) => sum + Number(p.unit_price), 0) || 0` */
  function InvoiceTotal(inv: Invoice): real
  {
    if inv.prices.Some? then Sum(inv.prices.value) else 0.0
  }

  // ---------------------------------------------------------------------
  // Reference definition of the grouping
  // ---------------------------------------------------------------------

  /** Number of invoices grouped under `name`. */
  function InvoiceCount(invs: seq<Invoice>, name: string): nat
  {
    if invs == [] then 0
    else InvoiceCount(invs[..|invs| - 1], name) + (if SupplierName(invs[|invs| - 1]) == name then 1 else 0)
  }

  /** Amount spent with `name`: the totals of its invoices. */
  function SpentWith(invs: seq<Invoice>, name: string): real
  {
    if invs == [] then 0.0
    else SpentWith(invs[..|invs| - 1], name) + (if SupplierName(invs[|invs| - 1]) == name then InvoiceTotal(invs[|invs| - 1]) else 0.0)
  }

  /** Sum of the totals of all invoices. */
  function AllSpent(invs: seq<Invoice>): real
  {
    if invs == [] then 0.0 else AllSpent(invs[..|invs| - 1]) + InvoiceTotal(invs[|invs| - 1])
  }

  /** The distinct supplier names, in order of first appearance. */
  function SupplierNames(invs: seq<Invoice>): (r: seq<string>)
    ensures NoDuplicates(r)
    ensures forall n :: n in r <==> exists i :: 0 <= i < |invs| && SupplierName(invs[i]) == n
  {
    if invs == [] then []
    else
      var prev := SupplierNames(invs[..|invs| - 1]);
      var n := SupplierName(invs[|invs| - 1]);
      assert forall i :: 0 <= i < |invs| - 1 ==> invs[..|invs| - 1][i] == invs[i];
      if n in prev then prev else prev + [n]
  }

  /** One entry per distinct name, in first-appearance order. */
  function Entries(invs: seq<Invoice>): (r: seq<Supplier>)
    ensures |r| == |SupplierNames(invs)|
    ensures forall k :: 0 <= k < |r| ==>
              var n := SupplierNames(invs)[k];
              r[k] == Supplier(n, SpentWith(invs, n), InvoiceCount(invs, n))
  {
    var names := SupplierNames(invs);
    seq(|names|, k requires 0 <= k < |names| => Supplier(names[k], SpentWith(invs, names[k]), InvoiceCount(invs, names[k])))
  }

  /** A name that no invoice carries has no invoices and no spend. */
  lemma {:induction false} AbsentNameIsEmpty(invs: seq<Invoice>, name: string)
    requires name !in SupplierNames(invs)
    ensures InvoiceCount(invs, name) == 0 && SpentWith(invs, name) == 0.0
    decreases |invs|
  {
    if invs != [] {
      var prefix := invs[..|invs| - 1];
      assert name !in SupplierNames(prefix);
      AbsentNameIsEmpty(prefix, name);
    }
  }

  // ---------------------------------------------------------------------
  // The grouping loop and the sort
  // ---------------------------------------------------------------------

  /** What one more invoice adds to the reference definition: its name,
      if new, and for the name `n` its count and total. */
  lemma GroupSnoc(seen: seq<Invoice>, inv: Invoice, n: string)
    ensures var prev := SupplierNames(seen);
            var name := SupplierName(inv);
            SupplierNames(seen + [inv]) == if name in prev then prev else prev + [name]
    ensures InvoiceCount(seen + [inv], n) == InvoiceCount(seen, n) + (if SupplierName(inv) == n then 1 else 0)
    ensures SpentWith(seen + [inv], n) == SpentWith(seen, n) + (if SupplierName(inv) == n then InvoiceTotal(inv) else 0.0)
  {
    assert (seen + [inv])[..|seen|] == seen;
  }

  /** `supplierMap` built invoice by invoice; `names` is its key order. */
  method GroupInvoices(invs: seq<Invoice>) returns (names: seq<string>, supplierMap: map<string, Supplier>)
    ensures names == SupplierNames(invs)
    ensures supplierMap.Keys == set n | n in names
    ensures forall n :: n in supplierMap ==> supplierMap[n] == Supplier(n, SpentWith(invs, n), InvoiceCount(invs, n))
  {
    names, supplierMap := [], map[];
    for i := 0 to |invs|
      invariant GroupedAs(invs[..i], names, supplierMap)
    {
      PrefixStep(invs, i);
      names, supplierMap := AddInvoice(invs[..i], invs[i], names, supplierMap);
    }
    assert invs[..|invs|] == invs;
    assert supplierMap.Keys == set n | n in names;
  }

  /** The loop state of `GroupInvoices` after the invoices `seen`: the names
      in first-appearance order, one entry per name with its spend and
      count. */
  ghost predicate GroupedAs(seen: seq<Invoice>, names: seq<string>, supplierMap: map<string, Supplier>)
  {
    && names == SupplierNames(seen)
    && (forall n :: n in supplierMap <==> n in names)
    && forall n :: n in supplierMap ==> supplierMap[n] == Supplier(n, SpentWith(seen, n), InvoiceCount(seen, n))
  }

  /** One turn of the grouping loop: the invoice opens its supplier's entry
      if needed and adds its total and one to the count. */
  method AddInvoice(seen: seq<Invoice>, inv: Invoice, names: seq<string>, supplierMap: map<string, Supplier>)
    returns (names': seq<string>, supplierMap': map<string, Supplier>)
    requires GroupedAs(seen, names, supplierMap)
    ensures GroupedAs(seen + [inv], names', supplierMap')
  {
    var name := SupplierName(inv);
    var totalForInvoice := InvoiceTotal(inv);
    GroupSnoc(seen, inv, name);
    names', supplierMap' := names, supplierMap;
    if name !in supplierMap {
      AbsentNameIsEmpty(seen, name);
      supplierMap' := supplierMap'[name := Supplier(name, 0.0, 0)];
      names' := names' + [name];
    }
    var s := supplierMap'[name];
    supplierMap' := supplierMap'[name := s.(totalSpent := s.totalSpent + totalForInvoice,
                                            invoiceCount := s.invoiceCount + 1)];
    var next := seen + [inv];
    assert supplierMap'[name] == Supplier(name, SpentWith(next, name), InvoiceCount(next, name));
    forall n | n in supplierMap' && n != name
      ensures supplierMap'[n] == Supplier(n, SpentWith(next, n), InvoiceCount(next, n))
    {
      GroupSnoc(seen, inv, n);
    }
  }

  /** Non-increasing by amount spent. */
  predicate SortedBySpent(s: seq<Supplier>)
  {
    forall i, j :: 0 <= i < j < |s| ==> s[i].totalSpent >= s[j].totalSpent
  }

  function SpentKey(s: Supplier): real
  {
    s.totalSpent
  }

  /** `sort((a, b) => b.totalSpent - a.totalSpent)` */
  function SortBySpent(s: seq<Supplier>): (r: seq<Supplier>)
    ensures SortedBySpent(r)
    ensures multiset(r) == multiset(s)
  {
    var r := SortDescBy(s, SpentKey);
    assert SortedDescBy(r, SpentKey);
    r
  }

  /** `fetchSuppliersData`: the supplier entries, largest spend first. */
  method SupplierList(invoices: Option<seq<Invoice>>) returns (supplierList: seq<Supplier>)
    ensures SortedBySpent(supplierList)
    ensures multiset(supplierList) == multiset(Entries(OrEmpty(invoices)))
  {
    var invs := OrEmpty(invoices);
    var names, supplierMap := GroupInvoices(invs);
    var values := seq(|names|, k requires 0 <= k < |names| && names[k] in supplierMap => supplierMap[names[k]]);
    assert values == Entries(invs);
    supplierList := SortBySpent(values);
  }

  // ---------------------------------------------------------------------
  // What the grouping adds up to
  // ---------------------------------------------------------------------

  function CountSum(names: seq<string>, invs: seq<Invoice>): nat
  {
    if names == [] then 0 else CountSum(names[..|names| - 1], invs) + InvoiceCount(invs, names[|names| - 1])
  }

  function SpentSum(names: seq<string>, invs: seq<Invoice>): real
  {
    if names == [] then 0.0 else SpentSum(names[..|names| - 1], invs) + SpentWith(invs, names[|names| - 1])
  }

  /** One more invoice raises the sums over a list of distinct names by
      what it adds to its own name, if that name is listed. */
  lemma {:induction false} SumsStep(names: seq<string>, invs: seq<Invoice>, inv: Invoice)
    requires NoDuplicates(names)
    ensures CountSum(names, invs + [inv]) == CountSum(names, invs) + (if SupplierName(inv) in names then 1 else 0)
    ensures SpentSum(names, invs + [inv]) == SpentSum(names, invs) + (if SupplierName(inv) in names then InvoiceTotal(inv) else 0.0)
    decreases |names|
  {
    assert (invs + [inv])[..|invs|] == invs;
    if names != [] {
      var prefix := names[..|names| - 1];
      assert forall n :: n in names <==> n in prefix || n == names[|names| - 1];
      SumsStep(prefix, invs, inv);
    }
  }

  /** Summed over all suppliers, the counts give the number of invoices
      and the amounts give the total of all invoices. */
  lemma {:induction false} GroupsCoverAllInvoices(invs: seq<Invoice>)
    ensures CountSum(SupplierNames(invs), invs) == |invs|
    ensures SpentSum(SupplierNames(invs), invs) == AllSpent(invs)
    decreases |invs|
  {
    if invs != [] {
      var prefix, inv := invs[..|invs| - 1], invs[|invs| - 1];
      assert invs == prefix + [inv];
      var names := SupplierNames(prefix);
      GroupsCoverAllInvoices(prefix);
      SumsStep(names, prefix, inv);
      var n := SupplierName(inv);
      if n !in names {
        AbsentNameIsEmpty(prefix, n);
        assert (names + [n])[..|names|] == names;
      }
    }
  }

  // ---------------------------------------------------------------------
  // Rename, search and rank
  // ---------------------------------------------------------------------

  /** `handleRename`: the bulk update to perform, (old name, new name), or
      None when nothing is done. */
  function RenameRequest(editing: Option<string>, newName: string): (r: Option<(string, string)>)
    ensures r.None? <==> !Truthy(editing) || newName == "" || newName == editing.value
    ensures r.Some? ==> r.value == (editing.value, newName) && r.value.0 != r.value.1
  {
    if !Truthy(editing) || newName == "" || newName == editing.value then None
    else Some((editing.value, newName))
  }

  /** The bulk update: every invoice stored under `from` is stored under
      `to`; nothing else changes. */
  function RenameInvoices(invs: seq<Invoice>, from: string, to: string): (r: seq<Invoice>)
    ensures |r| == |invs|
    ensures forall i :: 0 <= i < |invs| ==>
              r[i].prices == invs[i].prices
              && r[i].supplierName == (if invs[i].supplierName == Some(from) then Some(to) else invs[i].supplierName)
  {
    seq(|invs|, i requires 0 <= i < |invs| =>
      if invs[i].supplierName == Some(from) then invs[i].(supplierName := Some(to)) else invs[i])
  }

  function NameSearch(term: string): Supplier -> bool
  {
    (s: Supplier) => ContainsIgnoringCase(s.name, term)
  }

  /** `filteredSuppliers`, which keeps the list's order. */
  function FilteredSuppliers(list: seq<Supplier>, term: string): (r: seq<Supplier>)
    ensures forall s :: s in r <==> s in list && ContainsIgnoringCase(s.name, term)
  {
    Filter(list, NameSearch(term))
  }

  /** Searching a sorted list leaves it sorted. */
  lemma {:induction false} FilteredStaysSorted(list: seq<Supplier>, term: string)
    requires SortedBySpent(list)
    ensures SortedBySpent(FilteredSuppliers(list, term))
    decreases |list|
  {
    if list != [] {
      var rest := list[1..];
      assert SortedBySpent(rest);
      FilteredStaysSorted(rest, term);
      var kept := FilteredSuppliers(rest, term);
      forall y | y in kept ensures list[0].totalSpent >= y.totalSpent {
        var j :| 0 <= j < |rest| && rest[j] == y;
        assert list[j + 1] == y;
      }
    }
  }

  datatype RankedSupplier = RankedSupplier(supplier: Supplier, rank: nat)

  /** `rank={index + 1}` on each shown card. */
  function Ranked(shown: seq<Supplier>): (r: seq<RankedSupplier>)
    ensures |r| == |shown|
    ensures forall i :: 0 <= i < |r| ==> r[i].supplier == shown[i] && r[i].rank == i + 1
  {
    seq(|shown|, i requires 0 <= i < |shown| => RankedSupplier(shown[i], i + 1))
  }

  /** On a sorted list a better rank never means a smaller spend. */
  lemma RankFollowsSpend(list: seq<Supplier>, term: string)
    requires SortedBySpent(list)
    ensures var r := Ranked(FilteredSuppliers(list, term));
            forall i, j :: 0 <= i < |r| && 0 <= j < |r| && r[i].rank < r[j].rank ==>
              r[i].supplier.totalSpent >= r[j].supplier.totalSpent
  {
    FilteredStaysSorted(list, term);
  }
}
