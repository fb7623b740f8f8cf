/** The price-analysis page: the price-history query for one material or
    all of them, its mapping to chart points, and the three figures shown
    above the chart (highest price, average price, number of points).

    The store's reply is an oracle; the query's filter and order are
    modelled as `PriceQuery`. */
module Analysis {
  import opened Common

  const AllMaterials: string := "all"

  const UnknownMaterial: string := "Ismeretlen anyag"

  datatype MaterialInfo = MaterialInfo(id: string, name: Option<string>)

  /** The joined `materials` field: missing, an object, or an array. */
  datatype MaterialJoin = NoMaterial | One(info: MaterialInfo) | Many(infos: seq<MaterialInfo>)

  datatype PriceRow = PriceRow(unitPrice: real, createdAt: int, materialId: string, materials: MaterialJoin)

  /** A chart point; `date` is the row's `created_at`, its formatting is
      not modelled. */
  datatype ChartPoint = ChartPoint(date: int, price: real, name: string)

  function OfMaterial(selected: string): PriceRow -> bool
  {
    (p: PriceRow) => p.materialId == selected
  }

  function Earliness(p: PriceRow): real
  {
    -(p.createdAt as real)
  }

  /** The store query: oldest first, restricted to the selected material
      unless the selection is 'all'. */
  function PriceQuery(rows: seq<PriceRow>, selected: string): (r: seq<PriceRow>)
    ensures forall i, j :: 0 <= i < j < |r| ==> r[i].createdAt <= r[j].createdAt
    ensures selected == AllMaterials ==> multiset(r) == multiset(rows)
    ensures selected != AllMaterials ==> multiset(r) == multiset(Filter(rows, OfMaterial(selected)))
  {
    var chosen := if selected != AllMaterials then Filter(rows, OfMaterial(selected)) else rows;
    var r := SortDescBy(chosen, Earliness);
    assert forall i, j :: 0 <= i < j < |r| ==> Earliness(r[i]) >= Earliness(r[j]);
    r
  }

  /** `materialInfo?.name || 'Ismeretlen anyag'`, the material info being
      the first array element or the object itself. */
  function PointName(join: MaterialJoin): (name: string)
    ensures join.NoMaterial? || (join.Many? && join.infos == []) ==> name == UnknownMaterial
    ensures join.One? ==> name == TextOr(join.info.name, UnknownMaterial)
    ensures join.Many? && join.infos != [] ==> name == TextOr(join.infos[0].name, UnknownMaterial)
    ensures name != ""
  {
    var info := match join
                case NoMaterial => None
                case One(i) => Some(i)
                case Many(infos) => if |infos| > 0 then Some(infos[0]) else None;
    if info.Some? then TextOr(info.value.name, UnknownMaterial) else UnknownMaterial
  }

  /** `chartData`: one point per row, in the rows' order. */
  function ChartData(prices: Option<seq<PriceRow>>): (points: seq<ChartPoint>)
    ensures |points| == |OrEmpty(prices)|
    ensures forall i :: 0 <= i < |points| ==>
              var p := OrEmpty(prices)[i];
              points[i] == ChartPoint(p.createdAt, p.unitPrice, PointName(p.materials))
  {
    var rows := OrEmpty(prices);
    seq(|rows|, i requires 0 <= i < |rows| => ChartPoint(rows[i].createdAt, rows[i].unitPrice, PointName(rows[i].materials)))
  }

  /** `Math.max(...data.map(d => d.price))`, 0 without points. */
  function MaxPrice(points: seq<ChartPoint>): (m: real)
    ensures points == [] ==> m == 0.0
    ensures forall i :: 0 <= i < |points| ==> points[i].price <= m
    ensures points != [] ==> exists i :: 0 <= i < |points| && points[i].price == m
  {
    if points == [] then 0.0
    else if |points| == 1 then points[0].price
    else
      var rest := MaxPrice(points[..|points| - 1]);
      var last := points[|points| - 1].price;
      if last > rest then last else rest
  }

  /** The least price, for stating where the average lies. */
  function MinPrice(points: seq<ChartPoint>): (m: real)
    requires points != []
    ensures forall i :: 0 <= i < |points| ==> m <= points[i].price
    ensures exists i :: 0 <= i < |points| && points[i].price == m
  {
    if |points| == 1 then points[0].price
    else
      var rest := MinPrice(points[..|points| - 1]);
      var last := points[|points| - 1].price;
      if last < rest then last else rest
  }

  /** `data.reduce((a, b) => a + b.price, 0)` */
  function PriceSum(points: seq<ChartPoint>): real
  {
    if points == [] then 0.0 else PriceSum(points[..|points| - 1]) + points[|points| - 1].price
  }

  /** The average before rounding, 0 without points: the number that,
      taken once per point, makes up the sum of the prices. */
  function AveragePrice(points: seq<ChartPoint>): (avg: real)
    ensures points == [] ==> avg == 0.0
    ensures avg * (|points| as real) == PriceSum(points)
  {
    if |points| > 0 then PriceSum(points) / (|points| as real) else 0.0
  }

  /** The sum of the prices lies between `n` times a lower bound and `n`
      times an upper bound. */
  lemma {:induction false} PriceSumBounds(points: seq<ChartPoint>, lo: real, hi: real)
    requires forall i :: 0 <= i < |points| ==> lo <= points[i].price <= hi
    ensures (|points| as real) * lo <= PriceSum(points) <= (|points| as real) * hi
    decreases |points|
  {
    if points != [] {
      PriceSumBounds(points[..|points| - 1], lo, hi);
    }
  }

  /** The average lies between the least and the greatest price. */
  lemma AverageBetweenMinAndMax(points: seq<ChartPoint>)
    requires points != []
    ensures MinPrice(points) <= AveragePrice(points) <= MaxPrice(points)
  {
    AverageWithin(points, MinPrice(points), MaxPrice(points));
  }

  /** Prices between two bounds average between them. */
  lemma AverageWithin(points: seq<ChartPoint>, lo: real, hi: real)
    requires points != []
    requires forall i :: 0 <= i < |points| ==> lo <= points[i].price <= hi
    ensures lo <= AveragePrice(points) <= hi
  {
    PriceSumBounds(points, lo, hi);
    ScaledBounds(AveragePrice(points), |points| as real, PriceSum(points), lo, hi);
  }

  /** A number whose `n`-fold lies between the `n`-folds of two bounds lies
      between the bounds. */
  lemma ScaledBounds(q: real, n: real, s: real, lo: real, hi: real)
    requires n > 0.0 && q * n == s && n * lo <= s <= n * hi
    ensures lo <= q <= hi
  {
    assert n * (q - lo) >= 0.0;
    assert n * (hi - q) >= 0.0;
  }

  /** Every point has a price and the points of the chart follow the query
      in time order: a point never precedes an earlier one. */
  lemma ChartFollowsQuery(rows: seq<PriceRow>, selected: string)
    ensures var points := ChartData(Some(PriceQuery(rows, selected)));
            |points| == |PriceQuery(rows, selected)|
            && forall i, j :: 0 <= i < j < |points| ==> points[i].date <= points[j].date
  {
  }
}
