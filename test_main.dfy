/**
 * `bin/test.py`: the command-line run that fetches one gift's history,
 * merges in the current price, draws the chart and the card. The gift name
 * is normalised differently from the bot: no trimming and no " 12h"
 * removal, and a name that is not an alias is title-cased.
 */
module TestMain {
  import opened Wrappers
  import opened Text
  import opened Series
  import ChartLayout
  import Card
  import GiftImages
  import Bot

  const IMAGE_EXTENSION: string := ".png"
  const CHART_WIDTH: int := 1500
  const CHART_HEIGHT: int := 220

  /** Lines 258-259: the canonical name of an alias (whatever its value), or
      else the title-cased input, and the image file named after it. */
  function NormalizeGiftName(table: Bot.AliasTable, raw: string): (r: (string, string))
    ensures |r.1| == |r.0| + |IMAGE_EXTENSION|
    ensures r.1[..|r.1| - |IMAGE_EXTENSION|] == r.0
    ensures r.1[|r.1| - |IMAGE_EXTENSION|..] == IMAGE_EXTENSION
    ensures Bot.Lookup(table, Lower(raw)).Some? ==> r.0 == Bot.Lookup(table, Lower(raw)).value
    ensures Bot.Lookup(table, Lower(raw)).None? ==> r.0 == Title(raw) && |r.0| == |raw|
  {
    var mapped := Bot.Lookup(table, Lower(raw));
    var name := if mapped.Some? then mapped.value else Title(raw);
    (name, name + IMAGE_EXTENSION)
  }

  /** The normalised name and file depend only on the lower-cased input. */
  lemma NormalizeIgnoresCase(table: Bot.AliasTable, a: string, b: string)
    requires Lower(a) == Lower(b)
    ensures NormalizeGiftName(table, a) == NormalizeGiftName(table, b)
  {
    TitleIgnoresCase(a);
    TitleIgnoresCase(b);
  }

  /** An alias with a non-empty canonical name, typed with no surrounding
      whitespace and no " 12h" suffix, is normalised to the same name as the
      bot resolves it to. */
  lemma NormalizeAgreesWithBot(table: Bot.AliasTable, raw: string)
    requires Bot.Stripped(raw) && !EndsWith(Lower(raw), Bot.SUFFIX_12H)
    requires Bot.Lookup(table, Lower(raw)).Some? && Bot.Lookup(table, Lower(raw)).value != []
    ensures NormalizeGiftName(table, raw).0 == Bot.ResolveAlias(table, Bot.CleanGiftName(raw)).0
  {
    Bot.CleanKeepsPlainName(raw);
  }

  /** A name that is not an alias comes out title-cased, which the card's
      display-name rule then leaves as it is. */
  lemma NormalizedNameIsTitle(table: Bot.AliasTable, raw: string)
    requires Bot.Lookup(table, Lower(raw)).None?
    ensures NormalizeGiftName(table, raw).0 == Title(raw)
    ensures Title(NormalizeGiftName(table, raw).0) == Title(raw)
  {
    TitleIdempotent(raw);
  }

  /** Lines 269-274: each price converted to a float, each time kept; the
      prices are exact already, so the conversion changes neither the order
      nor the values. */
  function ConvertPriceData(data: seq<PricePoint>): (r: seq<PricePoint>)
    ensures r == data
  {
    if data == [] then []
    else [PricePoint(data[0].price, data[0].listedAt)] + ConvertPriceData(data[1..])
  }

  /** Line 326: the highest price, or 0.0 for no data. */
  function MaxPrice(data: seq<PricePoint>): (m: real)
    ensures data == [] ==> m == 0.0
    ensures data != [] ==> m in Prices(data) && forall i :: 0 <= i < |data| ==> data[i].price <= m
  {
    if data == [] then 0.0 else Max(Prices(data))
  }

  /** What the script prints and saves. */
  datatype Outcome = Outcome(
    giftName: string,
    imageFilename: string,
    chart: ChartLayout.ChartGeometry,
    maxPrice: real,
    priceStars: int,
    percentChange: real,
    card: Card.CardContent)

  datatype Stop =
    | NoCurrentPrice   // lines 308-311: exits with status 1
    | NoChart          // lines 328-330: exits with status 1
    | ZeroDivision     // a one-point chart or a zero highest price: uncaught

  /** The outside world the script depends on. */
  datatype Environment = Environment(
    placeholder: seq<real>,
    fontLoaded: bool,
    timeTextWidth: int -> real,
    priceTextHeight: real -> real,
    gifts: GiftImages.GiftTable,
    backdropChoice: nat,
    imageStatus: int,
    assetExists: bool)

  /** Lines 292-325 from the gift name on: `history` is what the marketplace
      returned for the normalised name and `now` the clock stamping the
      current price; the merged series then goes to `RenderCard`. */
  method RunScript(table: Bot.AliasTable, rawName: string, history: seq<PricePoint>,
    current: Option<real>, now: int, env: Environment)
    returns (r: Result<Outcome, Stop>)
    requires |env.placeholder| == ChartLayout.PLACEHOLDER_POINTS
    requires env.backdropChoice < |Card.BACKDROP_COLORS|
    ensures current.None? ==> r == Failure(NoCurrentPrice)
    ensures current.Some? && !env.fontLoaded ==> r == Failure(NoChart)
    ensures current.Some? && env.fontLoaded && history == [] ==>
      r.Success? && r.value.percentChange == 0.0 && r.value.maxPrice == 0.0
    ensures current.Some? && history != [] ==>
      var m := Prices(Bot.Merge(SortByTime(history), current.value, now));
      env.fontLoaded && |m| > 1 && Max(m) == 0.0 ==> r == Failure(ZeroDivision)
    ensures current.Some? && history != [] ==>
      var m := Prices(Bot.Merge(SortByTime(history), current.value, now));
      r.Success? && |m| > 1 && Max(m) > 0.0 ==> r.value.percentChange <= 0.0
    ensures current.Some? && history != [] ==>
      var m := Prices(Bot.Merge(SortByTime(history), current.value, now));
      && (env.fontLoaded && |m| == 1 ==> r == Failure(ZeroDivision))
      && (env.fontLoaded && |m| > 1 && Max(m) != 0.0 ==> r.Success?)
    ensures r.Success? ==>
      && Bot.PercentChange(Prices(Bot.Merge(SortByTime(history), current.value, now)), current.value)
           == Some(r.value.percentChange)
      && r.value.card.badge == Card.PercentBadge(r.value.percentChange)
    ensures r.Success? ==>
      && r.value.giftName == NormalizeGiftName(table, rawName).0
      && r.value.imageFilename == NormalizeGiftName(table, rawName).1
      && r.value.priceStars == Bot.Stars(current.value)
      && r.value.card.displayName == Title(r.value.giftName)
      && r.value.card.priceStars == r.value.priceStars
  {
    var names := NormalizeGiftName(table, rawName);
    var apiData := SortByTime(history);
    if current.None? {
      return Failure(NoCurrentPrice);
    }
    var priceTon := current.value;
    apiData := Bot.MergeCurrentPrice(apiData, priceTon, now);
    r := RenderCard(names.0, names.1, apiData, priceTon, env);
    if r.Success? && history != [] && |apiData| > 1 && Max(Prices(apiData)) > 0.0 {
      Bot.MergedChangeNonPositive(SortByTime(history), priceTon, now);
    }
  }

  /** Lines 326-355: the chart, the prices, the change against the highest
      price and the card, for the merged series `apiData`. */
  method RenderCard(giftName: string, imageFilename: string, apiData: seq<PricePoint>,
    priceTon: real, env: Environment)
    returns (r: Result<Outcome, Stop>)
    requires |env.placeholder| == ChartLayout.PLACEHOLDER_POINTS
    requires env.backdropChoice < |Card.BACKDROP_COLORS|
    ensures !env.fontLoaded ==> r == Failure(NoChart)
    ensures env.fontLoaded && |apiData| == 1 ==> r == Failure(ZeroDivision)
    ensures env.fontLoaded && |apiData| > 1 && Max(Prices(apiData)) == 0.0 ==> r == Failure(ZeroDivision)
    ensures env.fontLoaded && apiData == [] ==>
      r.Success? && r.value.percentChange == 0.0 && r.value.maxPrice == 0.0
    ensures env.fontLoaded && |apiData| > 1 && Max(Prices(apiData)) != 0.0 ==> r.Success?
    ensures r.Success? ==>
      && Bot.PercentChange(Prices(apiData), priceTon) == Some(r.value.percentChange)
      && r.value.maxPrice == MaxPrice(apiData)
      && r.value.giftName == giftName && r.value.imageFilename == imageFilename
      && r.value.priceStars == Bot.Stars(priceTon)
      && r.value.card.displayName == Title(giftName)
      && r.value.card.priceStars == r.value.priceStars
      && r.value.card.badge == Card.PercentBadge(r.value.percentChange)
  {
    var chartData := ConvertPriceData(apiData);
    var maxPrice := MaxPrice(chartData);
    var chart := ChartLayout.GenerateChart(
      CHART_WIDTH, CHART_HEIGHT, chartData, env.placeholder,
      env.fontLoaded, env.timeTextWidth, env.priceTextHeight);
    if chart.Failure? {
      if chart.error == ChartLayout.FontUnavailable {
        return Failure(NoChart);
      }
      return Failure(ZeroDivision);
    }
    var priceStars := Bot.Stars(priceTon);
    var percent := Bot.PercentChange(Prices(chartData), priceTon);
    if percent.None? {
      return Failure(ZeroDivision);
    }
    var card := Card.DrawCard(env.gifts, giftName, priceStars, percent.value,
      env.backdropChoice, env.imageStatus, Some(imageFilename), env.assetExists);
    return Success(Outcome(giftName, imageFilename, chart.value, maxPrice, priceStars, percent.value, card));
  }
}
