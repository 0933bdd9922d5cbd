/**
 * `src/utils/utils.py`: aggregates over a list of `{date, price}` records.
 * A record is a dictionary whose keys may be missing; reading a missing key
 * raises KeyError, which the callers must rule out.
 */
module Utils {
  import opened Wrappers
  import opened Series
  import ChartLayout

  /** A raw record: `date` and `price`, each possibly missing. */
  datatype PriceItem = PriceItem(date: Option<string>, price: Option<real>)

  /** A record of `format_price_data`'s result: both keys present. */
  datatype FormattedItem = FormattedItem(date: string, price: real)

  predicate HasPrices(items: seq<PriceItem>) {
    forall i :: 0 <= i < |items| ==> items[i].price.Some?
  }

  predicate HasDatesAndPrices(items: seq<PriceItem>) {
    forall i :: 0 <= i < |items| ==> items[i].date.Some? && items[i].price.Some?
  }

  /** `[float(item['price']) for item in price_data]` */
  function PricesOf(items: seq<PriceItem>): (r: seq<real>)
    requires HasPrices(items)
    ensures |r| == |items|
    ensures forall i :: 0 <= i < |items| ==> r[i] == items[i].price.value
  {
    seq(|items|, i requires 0 <= i < |items| => items[i].price.value)
  }

  /** Lines 17-23: one formatted record per record, in order, the date
      copied and the price converted. */
  method FormatPriceData(items: seq<PriceItem>) returns (formatted: seq<FormattedItem>)
    requires HasDatesAndPrices(items)
    ensures |formatted| == |items|
    ensures forall i :: 0 <= i < |items| ==>
      Some(formatted[i].date) == items[i].date && Some(formatted[i].price) == items[i].price
  {
    formatted := [];
    for i := 0 to |items|
      invariant |formatted| == i
      invariant forall k :: 0 <= k < i ==>
        Some(formatted[k].date) == items[k].date && Some(formatted[k].price) == items[k].price
    {
      formatted := formatted + [FormattedItem(items[i].date.value, items[i].price.value)];
    }
  }

  /** Lines 35-40: 0.0 for no records, otherwise the running total divided
      by the count, which lies between the lowest and the highest price. */
  method CalculateAveragePrice(items: seq<PriceItem>) returns (average: real)
    requires HasPrices(items)
    ensures items == [] ==> average == 0.0
    ensures items != [] ==> average == ChartLayout.Mean(PricesOf(items))
    ensures items != [] ==> Min(PricesOf(items)) <= average <= Max(PricesOf(items))
  {
    if items == [] {
      return 0.0;
    }
    ghost var prices := PricesOf(items);
    var total := 0.0;
    for i := 0 to |items|
      invariant total == Sum(prices[..i])
    {
      assert prices[..i + 1][..i] == prices[..i];
      total := total + items[i].price.value;
    }
    assert prices[..|items|] == prices;
    average := total / |items| as real;
    ChartLayout.MeanBetween(prices);
  }

  /** Lines 52-55: (0.0, 0.0) for no records, otherwise the lowest and the
      highest price. */
  function GetPriceRange(items: seq<PriceItem>): (r: (real, real))
    requires HasPrices(items)
    ensures items == [] ==> r == (0.0, 0.0)
    ensures r.0 <= r.1
    ensures items != [] ==> r.0 in PricesOf(items) && r.1 in PricesOf(items)
    ensures forall i :: 0 <= i < |items| ==> r.0 <= items[i].price.value <= r.1
  {
    if items == [] then (0.0, 0.0)
    else
      var prices := PricesOf(items);
      assert prices[0] in prices;
      (Min(prices), Max(prices))
  }

  /** The average of the records lies inside their price range. */
  lemma AverageInsideRange(items: seq<PriceItem>)
    requires HasPrices(items) && items != []
    ensures GetPriceRange(items).0 <= ChartLayout.Mean(PricesOf(items)) <= GetPriceRange(items).1
  {
    ChartLayout.MeanBetween(PricesOf(items));
  }
}
