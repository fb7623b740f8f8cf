/** The dashboard (`fetchDashboardData`): total spend over all price rows,
    invoice and material counts, the supplier with the most invoices, and
    the most recent invoices.

    Every store query is an oracle passed in as what it returned (None when
    it returned no data or no count). */
module Dashboard {
  import opened Common

  const NoData: string := "Nincs adat"

  const RecentLimit: nat := 5

  datatype Invoice = Invoice(id: string, supplierName: Option<string>, createdAt: int)

  datatype Stats = Stats(totalSpent: real, invoiceCount: nat, materialCount: nat, topSupplier: string)

  /** `count || 0` */
  function CountOr(count: Option<nat>): (r: nat)
    ensures count.None? ==> r == 0
    ensures count.Some? ==> r == count.value
  {
    if count.Some? then count.value else 0
  }

  /** Number of invoices whose `supplier_name` is the non-empty `name`. */
  function NamedCount(rows: seq<Option<string>>, name: string): nat
  {
    if rows == [] then 0
    else NamedCount(rows[..|rows| - 1], name) + (if name != "" && rows[|rows| - 1] == Some(name) then 1 else 0)
  }

  /** The non-empty supplier names, in order of first appearance: the key
      order of `counts`. */
  function NamedSuppliers(rows: seq<Option<string>>): (r: seq<string>)
    ensures NoDuplicates(r)
    ensures forall n :: n in r <==> n != "" && exists i :: 0 <= i < |rows| && rows[i] == Some(n)
  {
    if rows == [] then []
    else
      var prev := NamedSuppliers(rows[..|rows| - 1]);
      var row := rows[|rows| - 1];
      assert forall i :: 0 <= i < |rows| - 1 ==> rows[..|rows| - 1][i] == rows[i];
      if Truthy(row) && row.value !in prev then prev + [row.value] else prev
  }

  /** A name no invoice carries has count 0. */
  lemma {:induction false} UnnamedCountsZero(rows: seq<Option<string>>, name: string)
    requires name !in NamedSuppliers(rows)
    ensures NamedCount(rows, name) == 0
    decreases |rows|
  {
    if rows != [] {
      var prefix := rows[..|rows| - 1];
      assert name !in NamedSuppliers(prefix);
      UnnamedCountsZero(prefix, name);
    }
  }

  /** The `reduce` building `counts`, one increment per named invoice. */
  method SupplierCounts(rows: seq<Option<string>>) returns (names: seq<string>, counts: map<string, nat>)
    ensures names == NamedSuppliers(rows)
    ensures counts.Keys == set n | n in names
    ensures forall n :: n in counts ==> counts[n] == NamedCount(rows, n) && counts[n] >= 1
  {
    names, counts := [], map[];
    for i := 0 to |rows|
      invariant CountedAs(rows[..i], names, counts)
    {
      PrefixStep(rows, i);
      names, counts := CountRow(rows[..i], rows[i], names, counts);
    }
    assert rows[..|rows|] == rows;
    assert counts.Keys == set n | n in names;
  }

  /** The state of the `reduce` after the rows `seen`: the names in key
      order, each with its count of at least one. */
  ghost predicate CountedAs(seen: seq<Option<string>>, names: seq<string>, counts: map<string, nat>)
  {
    && names == NamedSuppliers(seen)
    && (forall n :: n in counts <==> n in names)
    && forall n :: n in counts ==> counts[n] == NamedCount(seen, n) && counts[n] >= 1
  }

  /** One step of the `reduce`: a named row opens its name's count at 1 or
      adds one to it; an unnamed row changes nothing. */
  method CountRow(seen: seq<Option<string>>, curr: Option<string>, names: seq<string>, counts: map<string, nat>)
    returns (names': seq<string>, counts': map<string, nat>)
    requires CountedAs(seen, names, counts)
    ensures CountedAs(seen + [curr], names', counts')
  {
    assert (seen + [curr])[..|seen|] == seen;
    names', counts' := names, counts;
    if Truthy(curr) {
      var name := curr.value;
      if name !in counts {
        UnnamedCountsZero(seen, name);
        names' := names + [name];
        counts' := counts[name := 1];
      } else {
        counts' := counts[name := counts[name] + 1];
      }
    }
  }

  datatype Entry = Entry(name: string, count: nat)

  function CountKey(e: Entry): real
  {
    e.count as real
  }

  /** `Object.entries(counts).sort((a, b) => b[1] - a[1])[0][0]`, or
      'Nincs adat' when there is no entry. */
  function TopOf(names: seq<string>, counts: map<string, nat>): (top: string)
    requires forall n :: n in names ==> n in counts
    ensures names == [] ==> top == NoData
    ensures names != [] ==> top in names && forall n :: n in names ==> counts[top] >= counts[n]
  {
    if names == [] then NoData
    else
      var entries := seq(|names|, k requires 0 <= k < |names| => Entry(names[k], counts[names[k]]));
      var sorted := SortDescBy(entries, CountKey);
      assert sorted[0] in multiset(entries);
      forall n | n in names ensures sorted[0].count >= counts[n] {
        var k :| 0 <= k < |names| && names[k] == n;
        assert entries[k] in multiset(sorted);
        var j :| 0 <= j < |sorted| && sorted[j] == entries[k];
        assert CountKey(sorted[0]) >= CountKey(sorted[j]);
      }
      sorted[0].name
  }

  /** The store's `order('created_at', descending).limit(5)`. */
  function LatestInvoices(all: seq<Invoice>): (r: seq<Invoice>)
    ensures |r| == Min(RecentLimit, |all|)
    ensures forall i, j :: 0 <= i < j < |r| ==> r[i].createdAt >= r[j].createdAt
    ensures multiset(r) <= multiset(all)
    // every invoice left out is no newer than every invoice listed
    ensures forall x, y :: x in multiset(all) - multiset(r) && y in r ==> x.createdAt <= y.createdAt
  {
    var key := (inv: Invoice) => inv.createdAt as real;
    var sorted := SortDescBy(all, key);
    var n := Min(RecentLimit, |all|);
    SortedFrontHoldsLargest(all, sorted, n, key);
    sorted[..n]
  }

  /** A listed name with no fewer invoices than every listed name has no
      fewer than any name at all. */
  lemma TopCountsMost(rows: seq<Option<string>>, top: string)
    requires top in NamedSuppliers(rows)
    requires forall n :: n in NamedSuppliers(rows) ==> NamedCount(rows, top) >= NamedCount(rows, n)
    ensures forall n :: NamedCount(rows, top) >= NamedCount(rows, n)
  {
    forall n ensures NamedCount(rows, top) >= NamedCount(rows, n) {
      if n !in NamedSuppliers(rows) {
        UnnamedCountsZero(rows, n);
      }
    }
  }

  /** `fetchDashboardData` */
  method DashboardData(priceData: Option<seq<real>>, invCount: Option<nat>, matCount: Option<nat>,
                       suppliers: Option<seq<Option<string>>>, recent: Option<seq<Invoice>>)
    returns (stats: Stats, recentInvoices: seq<Invoice>)
    ensures stats.totalSpent == Sum(OrEmpty(priceData))
    ensures stats.invoiceCount == CountOr(invCount) && stats.materialCount == CountOr(matCount)
    // 'Nincs adat' when no invoice carries a supplier name ...
    ensures NamedSuppliers(OrEmpty(suppliers)) == [] ==> stats.topSupplier == NoData
    // ... otherwise a named supplier with no fewer invoices than any other
    ensures NamedSuppliers(OrEmpty(suppliers)) != [] ==>
              stats.topSupplier in NamedSuppliers(OrEmpty(suppliers))
              && forall n :: NamedCount(OrEmpty(suppliers), stats.topSupplier) >= NamedCount(OrEmpty(suppliers), n)
    ensures recentInvoices == OrEmpty(recent)
  {
    var total := Sum(OrEmpty(priceData));
    var top := NoData;
    var rows := OrEmpty(suppliers);
    if suppliers.Some? {
      var names, counts := SupplierCounts(rows);
      if |names| > 0 {
        top := TopOf(names, counts);
        TopCountsMost(rows, top);
      }
    }
    stats := Stats(total, CountOr(invCount), CountOr(matCount), top);
    recentInvoices := OrEmpty(recent);
  }
}
