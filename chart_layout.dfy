/**
 * The geometry computed by `generate_chart_image` in
 * `src/generators/chart_generator.py`: trend colour, padded price range,
 * point coordinates with clamping, marker indices, the min/max price labels
 * and the grouped time-axis labels. Drawing is not modelled; where the
 * source measures text, the measured size is an argument.
 */
module ChartLayout {
  import opened Wrappers
  import opened Series

  const LEFT_PADDING: int := 80
  const RIGHT_PADDING: int := 150
  const BOTTOM_PADDING: int := 25
  const TOP_PADDING: int := 50
  const NUM_TIME_LABELS: int := 5
  const PLACEHOLDER_POINTS: int := 24
  const MICROS_PER_MINUTE: int := 60 * 1000000
  const MINUTES_PER_DAY: int := 24 * 60

  datatype Color = Green | Red

  datatype Point = Point(x: real, y: real)

  /** The price used for every point: the series' prices, or the placeholder
      prices when there is no series (their random draw is an argument). */
  function ChartPrices(data: seq<PricePoint>, placeholder: seq<real>): (prices: seq<real>)
    requires |placeholder| == PLACEHOLDER_POINTS
    ensures |prices| > 0
    ensures data == [] ==> prices == placeholder && |prices| == PLACEHOLDER_POINTS
    ensures data != [] ==> prices == Prices(data)
  {
    if data == [] then placeholder else Prices(data)
  }

  // ----- Trend and price range -----

  /** Green when the series ends at or above where it starts, red otherwise. */
  function TrendColor(prices: seq<real>): (c: Color)
    requires |prices| > 0
    ensures c == Green <==> prices[0] <= prices[|prices| - 1]
    ensures c == Red <==> prices[|prices| - 1] < prices[0]
  {
    if prices[|prices| - 1] - prices[0] >= 0.0 then Green else Red
  }

  datatype Bounds = Bounds(adjustedMin: real, adjustedMax: real)

  function Padding(minPrice: real, maxPrice: real): real {
    var range := maxPrice - minPrice;
    if range > 0.0 then range * 0.1 else 1.0
  }

  /** Lines 97-103: the range from `lo` to `hi` widened by the padding on
      both ends. */
  function BoundsFor(lo: real, hi: real): Bounds {
    var padding := Padding(lo, hi);
    Bounds(lo - padding, hi + padding)
  }

  function PriceBounds(prices: seq<real>): Bounds
    requires |prices| > 0
  {
    BoundsFor(Min(prices), Max(prices))
  }

  /** The padding is a tenth of the range, or one unit for a flat series, so
      the widened range always strictly contains every price. */
  lemma PriceBoundsSpec(prices: seq<real>)
    requires |prices| > 0
    ensures var b := PriceBounds(prices);
      && b.adjustedMin < Min(prices) <= Max(prices) < b.adjustedMax
      && (Min(prices) == Max(prices) ==> b == Bounds(Min(prices) - 1.0, Max(prices) + 1.0))
      && (Min(prices) < Max(prices) ==> b.adjustedMax - b.adjustedMin == 1.2 * (Max(prices) - Min(prices)))
  {
    assert Min(prices) <= prices[0] <= Max(prices);
  }

  /** Line 117: where a price sits in the widened range, from 0 to 1. */
  function Normalized(p: real, b: Bounds): real {
    var range := b.adjustedMax - b.adjustedMin;
    if range > 0.0 then (p - b.adjustedMin) / range else 0.5
  }

  lemma DivDef(a: real, c: real)
    requires c > 0.0
    ensures (a / c) * c == a
  {
  }

  lemma SignOfFactor(q: real, c: real)
    requires c > 0.0 && q * c > 0.0
    ensures q > 0.0
  {
  }

  lemma SignOfFactorLe(q: real, c: real)
    requires c > 0.0 && q * c >= 0.0
    ensures q >= 0.0
  {
  }

  lemma DivStrictlyBetween(a: real, c: real)
    requires 0.0 < a < c
    ensures 0.0 < a / c < 1.0
  {
    DivDef(a, c);
    SignOfFactor(a / c, c);
    assert (1.0 - a / c) * c == c - a;
    SignOfFactor(1.0 - a / c, c);
  }

  lemma DivMonotone(a: real, b: real, c: real)
    requires a <= b && c > 0.0
    ensures a / c <= b / c
  {
    DivDef(a, c);
    DivDef(b, c);
    assert (b / c - a / c) * c == b - a;
    SignOfFactorLe(b / c - a / c, c);
  }

  lemma NormalizedBetween(lo: real, hi: real, p: real, q: real)
    requires lo <= p <= hi && lo <= q <= hi
    ensures 0.0 < Normalized(p, BoundsFor(lo, hi)) < 1.0
    ensures lo == hi ==> Normalized(p, BoundsFor(lo, hi)) == 0.5
    ensures p <= q ==> Normalized(p, BoundsFor(lo, hi)) <= Normalized(q, BoundsFor(lo, hi))
  {
    var b := BoundsFor(lo, hi);
    var range := b.adjustedMax - b.adjustedMin;
    assert range > 0.0;
    DivStrictlyBetween(p - b.adjustedMin, range);
    if p <= q {
      DivMonotone(p - b.adjustedMin, q - b.adjustedMin, range);
    }
  }

  /** Every price of the series lies strictly inside (0, 1) after
      normalisation, a flat series sits at one half, and a higher price never
      gets a lower value. */
  lemma NormalizedSpec(prices: seq<real>, p: real, q: real)
    requires |prices| > 0
    requires Min(prices) <= p <= Max(prices) && Min(prices) <= q <= Max(prices)
    ensures 0.0 < Normalized(p, PriceBounds(prices)) < 1.0
    ensures Min(prices) == Max(prices) ==> Normalized(p, PriceBounds(prices)) == 0.5
    ensures p <= q ==> Normalized(p, PriceBounds(prices)) <= Normalized(q, PriceBounds(prices))
  {
    NormalizedBetween(Min(prices), Max(prices), p, q);
  }

  // ----- Point coordinates -----

  /** Line 116; only defined for two or more points (line 116 divides by
      `num_points - 1`). */
  function XAt(i: nat, n: nat, width: int): real
    requires n >= 2
  {
    (i as real) * ((width - LEFT_PADDING - RIGHT_PADDING) as real / ((n - 1) as real)) + LEFT_PADDING as real
  }

  lemma MulPositive(a: real, d: real)
    requires a > 0.0 && d > 0.0
    ensures a * d > 0.0
  {
  }

  /** The first point sits on the left padding, the last on the right one,
      and the points run strictly left to right when the plot is wider than
      the two paddings. */
  lemma XSpec(n: nat, width: int)
    requires n >= 2
    ensures XAt(0, n, width) == LEFT_PADDING as real
    ensures XAt(n - 1, n, width) == (width - RIGHT_PADDING) as real
    ensures width > LEFT_PADDING + RIGHT_PADDING ==>
      forall i, j :: 0 <= i < j < n ==> XAt(i, n, width) < XAt(j, n, width)
  {
    var d := (width - LEFT_PADDING - RIGHT_PADDING) as real / ((n - 1) as real);
    assert d * ((n - 1) as real) == (width - LEFT_PADDING - RIGHT_PADDING) as real;
    if width > LEFT_PADDING + RIGHT_PADDING {
      forall i, j | 0 <= i < j < n ensures XAt(i, n, width) < XAt(j, n, width) {
        MulPositive((j - i) as real, d);
        assert XAt(j, n, width) - XAt(i, n, width) == (j - i) as real * d;
      }
    }
  }

  /** Line 119: `max(2, min(height - BOTTOM_PADDING - 2, y))`. */
  function ClampY(y: real, height: int): (r: real)
    ensures r >= 2.0
    ensures height - BOTTOM_PADDING - 2 >= 2 ==> r <= (height - BOTTOM_PADDING - 2) as real
    ensures y <= 2.0 ==> r == 2.0
    ensures 2.0 <= y <= (height - BOTTOM_PADDING - 2) as real ==> r == y
  {
    var top := (height - BOTTOM_PADDING - 2) as real;
    var m := if top <= y then top else y;
    if 2.0 >= m then 2.0 else m
  }

  /** Lines 117-119. */
  function YAt(p: real, b: Bounds, height: int): real {
    var plotHeight := (height - TOP_PADDING - BOTTOM_PADDING) as real;
    ClampY(plotHeight - Normalized(p, b) * plotHeight, height)
  }

  lemma ClampMonotone(y1: real, y2: real, height: int)
    requires y1 <= y2
    ensures ClampY(y1, height) <= ClampY(y2, height)
  {
  }

  lemma MulLe(a: real, b: real, h: real)
    requires a <= b && h >= 0.0
    ensures a * h <= b * h
  {
  }

  lemma MulNegative(a: real, h: real)
    requires a > 0.0 && h < 0.0
    ensures a * h < 0.0
  {
  }

  /** The inverted y of a normalised price `n` in a plot `h` high. */
  function Inverted(n: real, h: real): real {
    h - n * h
  }

  lemma ScaledDown(np: real, nq: real, h: real)
    requires np <= nq && h >= 0.0
    ensures Inverted(nq, h) <= Inverted(np, h)
  {
    MulLe(np, nq, h);
  }

  lemma BelowZero(n: real, h: real)
    requires n < 1.0 && h < 0.0
    ensures Inverted(n, h) < 0.0
  {
    MulNegative(1.0 - n, h);
    assert h - n * h == (1.0 - n) * h;
  }

  lemma ClampOrder(yq: real, yp: real, height: int)
    requires yq <= yp || (yq < 0.0 && yp < 0.0)
    ensures ClampY(yq, height) <= ClampY(yp, height)
  {
    if yq <= yp {
      ClampMonotone(yq, yp, height);
    }
  }

  /** The clamped, inverted y of two normalised prices keeps their order
      reversed: for plots at least 75 high the curve is inverted, and for
      lower ones both are clamped to 2. */
  lemma ClampedInverse(np: real, nq: real, height: int)
    requires 0.0 < np <= nq < 1.0
    ensures var h := (height - TOP_PADDING - BOTTOM_PADDING) as real;
      ClampY(h - nq * h, height) <= ClampY(h - np * h, height)
  {
    var h := (height - TOP_PADDING - BOTTOM_PADDING) as real;
    if h >= 0.0 {
      ScaledDown(np, nq, h);
    } else {
      BelowZero(np, h);
      BelowZero(nq, h);
    }
    ClampOrder(Inverted(nq, h), Inverted(np, h), height);
  }

  lemma YBetween(lo: real, hi: real, p: real, q: real, height: int)
    requires lo <= p <= hi && lo <= q <= hi
    ensures p <= q ==> YAt(q, BoundsFor(lo, hi), height) <= YAt(p, BoundsFor(lo, hi), height)
  {
    if p <= q {
      var b := BoundsFor(lo, hi);
      NormalizedBetween(lo, hi, p, q);
      NormalizedBetween(lo, hi, q, p);
      ClampedInverse(Normalized(p, b), Normalized(q, b), height);
    }
  }

  /** Every y stays inside [2, height - 27] (the upper bound whenever the
      canvas is at least 29 high), and a higher price never gets a larger y. */
  lemma YSpec(prices: seq<real>, p: real, q: real, height: int)
    requires |prices| > 0
    requires Min(prices) <= p <= Max(prices) && Min(prices) <= q <= Max(prices)
    ensures YAt(p, PriceBounds(prices), height) >= 2.0
    ensures height >= 29 ==> YAt(p, PriceBounds(prices), height) <= (height - 27) as real
    ensures p <= q ==> YAt(q, PriceBounds(prices), height) <= YAt(p, PriceBounds(prices), height)
  {
    YBetween(Min(prices), Max(prices), p, q, height);
  }

  /** The points loop of lines 114-120. */
  method ComputePoints(prices: seq<real>, width: int, height: int) returns (points: seq<Point>)
    requires |prices| >= 2
    ensures |points| == |prices|
    ensures forall i :: 0 <= i < |prices| ==>
      points[i] == Point(XAt(i, |prices|, width), YAt(prices[i], PriceBounds(prices), height))
  {
    var b := PriceBounds(prices);
    points := [];
    var i := 0;
    while i < |prices|
      invariant 0 <= i <= |prices|
      invariant |points| == i
      invariant forall k :: 0 <= k < i ==> points[k] == Point(XAt(k, |prices|, width), YAt(prices[k], b, height))
    {
      var x := XAt(i, |prices|, width);
      var y := YAt(prices[i], b, height);
      points := points + [Point(x, y)];
      i := i + 1;
    }
  }

  // ----- Markers -----

  /** Lines 122-125: the first and last index, plus the quartiles and the
      midpoint once there are at least eight points. */
  function Markers(n: nat): seq<int> {
    if n >= 8 then [0, n / 4, n / 2, (n * 3) / 4, n - 1] else [0, n - 1]
  }

  /** The markers of `n >= 1` points: two or five indices, from the first
      point to the last, all in range and never going back. */
  lemma MarkersSpec(n: nat)
    requires n >= 1
    ensures var m := Markers(n);
      && |m| == (if n >= 8 then 5 else 2)
      && m[0] == 0 && m[|m| - 1] == n - 1
      && (forall k :: 0 <= k < |m| ==> 0 <= m[k] < n)
      && (forall j, k :: 0 <= j < k < |m| ==> m[j] <= m[k])
  {
  }

  method MarkerIndices(n: nat) returns (markers: seq<int>)
    ensures markers == Markers(n)
  {
    markers := [0];
    if n >= 8 {
      markers := markers + [n / 4, n / 2, (n * 3) / 4];
    }
    markers := markers + [n - 1];
  }

  // ----- Min and max price labels -----

  /** Line 195: two decimals below 20, one from 20 up. */
  function PriceDecimals(price: real): nat {
    if price < 20.0 then 2 else 1
  }

  datatype PriceLabel = PriceLabel(index: nat, price: real, decimals: nat, x: real, y: real)

  /** Lines 193-202: the label of the price at `index`, in the right margin,
      vertically centred on the point. */
  function PriceLabelAt(prices: seq<real>, index: nat, p: Point, width: int, textHeight: real): (l: PriceLabel)
    requires index < |prices|
    ensures l.index == index && l.price == prices[index]
    ensures l.decimals == 2 <==> prices[index] < 20.0
    ensures l.decimals == 1 <==> prices[index] >= 20.0
    ensures l.x == (width - RIGHT_PADDING + 10) as real
    ensures l.y + textHeight / 2.0 == p.y
  {
    PriceLabel(index, prices[index], PriceDecimals(prices[index]), (width - RIGHT_PADDING + 10) as real, p.y - textHeight / 2.0)
  }

  // ----- Time labels -----

  /** Line 161: `min(int(i * (n - 1) / 4), n - 1)`. */
  function SampleIndex(i: nat, n: nat): nat
    requires n >= 1
  {
    var k := i * (n - 1) / (NUM_TIME_LABELS - 1);
    if k < n - 1 then k else n - 1
  }

  /** The five samples start at the first point, end at the last, never go
      back, and the `min` never cuts. */
  lemma SampleIndexSpec(n: nat)
    requires n >= 1
    ensures SampleIndex(0, n) == 0 && SampleIndex(4, n) == n - 1
    ensures forall i :: 0 <= i < NUM_TIME_LABELS ==> SampleIndex(i, n) == i * (n - 1) / 4 < n
    ensures forall i, j :: 0 <= i <= j < NUM_TIME_LABELS ==> SampleIndex(i, n) <= SampleIndex(j, n)
  {
    forall i | 0 <= i < NUM_TIME_LABELS
      ensures SampleIndex(i, n) == i * (n - 1) / 4 < n
    {
      MulMono(i, 4, n - 1);
    }
    forall i, j | 0 <= i <= j < NUM_TIME_LABELS
      ensures SampleIndex(i, n) <= SampleIndex(j, n)
    {
      MulMono(i, j, n - 1);
      MulMono(j, 4, n - 1);
    }
  }

  lemma MulMono(a: nat, b: nat, c: nat)
    requires a <= b
    ensures a * c <= b * c
  {
  }

  /** Lines 165-166: the slot of label `i`, kept between the left padding and
      ten pixels short of the right padding. */
  function SlotX(i: nat, width: int): real {
    var x := LEFT_PADDING as real + (i as real) * ((width - LEFT_PADDING - RIGHT_PADDING) as real / 4.0);
    var capped := if x <= (width - RIGHT_PADDING - 10) as real then x else (width - RIGHT_PADDING - 10) as real;
    if LEFT_PADDING as real >= capped then LEFT_PADDING as real else capped
  }

  /** `%H:%M` of a UTC instant, as the minute of the day it names: two
      instants give the same label text exactly when this value agrees. */
  function TimeKey(t: int): int {
    (t / MICROS_PER_MINUTE) % MINUTES_PER_DAY
  }

  /** The label keys of the five samples and their slots. */
  function SampleKeys(data: seq<PricePoint>): (keys: seq<int>)
    requires |data| >= 1
    ensures |keys| == NUM_TIME_LABELS
  {
    seq(NUM_TIME_LABELS, i requires 0 <= i < NUM_TIME_LABELS => TimeKey(data[SampleIndex(i, |data|)].listedAt))
  }

  function Slots(width: int): (xs: seq<real>)
    ensures |xs| == NUM_TIME_LABELS
  {
    seq(NUM_TIME_LABELS, i requires 0 <= i < NUM_TIME_LABELS => SlotX(i, width))
  }

  /** The slots, in order, of the samples whose label is `key`. */
  function SlotsFor(keys: seq<int>, xs: seq<real>, key: int): (r: seq<real>)
    requires |keys| == |xs|
    ensures key in keys <==> r != []
  {
    if keys == [] then []
    else
      SlotsFor(keys[..|keys| - 1], xs[..|xs| - 1], key) + (if keys[|keys| - 1] == key then [xs[|xs| - 1]] else [])
  }

  /** The distinct values of `keys`, in the order they first appear: the
      order in which a Python dictionary keeps its keys. */
  function FirstSeen(keys: seq<int>): (r: seq<int>)
    ensures forall k :: k in r <==> k in keys
    ensures forall a, b :: 0 <= a < b < |r| ==> r[a] != r[b]
  {
    if keys == [] then []
    else
      var front := FirstSeen(keys[..|keys| - 1]);
      assert forall k :: k in keys <==> k in keys[..|keys| - 1] || k == keys[|keys| - 1];
      if keys[|keys| - 1] in front then front else front + [keys[|keys| - 1]]
  }

  lemma FirstSeenSnoc(keys: seq<int>, key: int)
    ensures FirstSeen(keys + [key]) == if key in keys then FirstSeen(keys) else FirstSeen(keys) + [key]
  {
    assert (keys + [key])[..|keys|] == keys;
  }

  /** One label text and the slots it was sampled at. */
  datatype LabelGroup = LabelGroup(key: int, slots: seq<real>)

  function FindGroup(groups: seq<LabelGroup>, key: int): (r: Option<nat>)
    ensures r.Some? ==> r.value < |groups| && groups[r.value].key == key
    ensures r.None? ==> forall g :: g in groups ==> g.key != key
  {
    if groups == [] then None
    else if groups[0].key == key then Some(0)
    else
      match FindGroup(groups[1..], key)
      case None => None
      case Some(k) => Some(k + 1)
  }

  /** The grouping of the first samples: one group per distinct label
      text, in the order the texts first appear, each holding exactly the
      slots its text was sampled at. */
  predicate GroupsOf(groups: seq<LabelGroup>, keys: seq<int>, xs: seq<real>)
    requires |keys| == |xs|
  {
    var order := FirstSeen(keys);
    && |groups| == |order|
    && forall a :: 0 <= a < |groups| ==> groups[a] == LabelGroup(order[a], SlotsFor(keys, xs, order[a]))
  }

  lemma SlotsForSnoc(keys: seq<int>, xs: seq<real>, key: int, x: real, k: int)
    requires |keys| == |xs|
    ensures SlotsFor(keys + [key], xs + [x], k) == SlotsFor(keys, xs, k) + (if key == k then [x] else [])
  {
    assert (keys + [key])[..|keys|] == keys;
    assert (xs + [x])[..|xs|] == xs;
  }

  /** A label text not seen yet opens a new group holding its slot. */
  lemma AddNewGroup(groups: seq<LabelGroup>, keys: seq<int>, xs: seq<real>, key: int, x: real)
    requires |keys| == |xs| && GroupsOf(groups, keys, xs)
    requires forall g :: g in groups ==> g.key != key
    ensures GroupsOf(groups + [LabelGroup(key, [x])], keys + [key], xs + [x])
  {
    assert forall a :: 0 <= a < |groups| ==> groups[a] in groups;
    FirstSeenSnoc(keys, key);
    assert SlotsFor(keys, xs, key) == [];
    var r := groups + [LabelGroup(key, [x])];
    var order := FirstSeen(keys + [key]);
    forall a | 0 <= a < |r|
      ensures r[a] == LabelGroup(order[a], SlotsFor(keys + [key], xs + [x], order[a]))
    {
      SlotsForSnoc(keys, xs, key, x, order[a]);
    }
  }

  /** A label text seen before adds its slot to the end of its group. */
  lemma AddToGroup(groups: seq<LabelGroup>, keys: seq<int>, xs: seq<real>, key: int, x: real, j: nat)
    requires |keys| == |xs| && GroupsOf(groups, keys, xs)
    requires j < |groups| && groups[j].key == key
    ensures GroupsOf(groups[j := LabelGroup(key, groups[j].slots + [x])], keys + [key], xs + [x])
  {
    var r := groups[j := LabelGroup(key, groups[j].slots + [x])];
    var order := FirstSeen(keys);
    assert order[j] == key && key in order;
    FirstSeenSnoc(keys, key);
    forall a | 0 <= a < |r|
      ensures r[a] == LabelGroup(order[a], SlotsFor(keys + [key], xs + [x], order[a]))
    {
      SlotsForSnoc(keys, xs, key, x, order[a]);
    }
  }

  /** Lines 167-170, one sample: a label text not seen yet opens a new
      group, a text seen before adds its slot to the end of its group. */
  method AddSlot(groups: seq<LabelGroup>, ghost keys: seq<int>, ghost xs: seq<real>, key: int, x: real)
    returns (r: seq<LabelGroup>)
    requires |keys| == |xs| && GroupsOf(groups, keys, xs)
    ensures GroupsOf(r, keys + [key], xs + [x])
  {
    var found := FindGroup(groups, key);
    match found {
      case None =>
        AddNewGroup(groups, keys, xs, key, x);
        r := groups + [LabelGroup(key, [x])];
      case Some(j) =>
        AddToGroup(groups, keys, xs, key, x, j);
        r := groups[j := LabelGroup(key, groups[j].slots + [x])];
    }
  }

  /** Lines 154-170: the dictionary `timestamp_positions`, built in the order
      the labels first appear. */
  method GroupTimeLabels(data: seq<PricePoint>, width: int) returns (groups: seq<LabelGroup>)
    requires |data| >= 2
    ensures GroupsOf(groups, SampleKeys(data), Slots(width))
  {
    ghost var keys := SampleKeys(data);
    ghost var xs := Slots(width);
    groups := [];
    var i := 0;
    while i < NUM_TIME_LABELS
      invariant 0 <= i <= NUM_TIME_LABELS
      invariant GroupsOf(groups, keys[..i], xs[..i])
    {
      var idx := SampleIndex(i, |data|);
      var key := TimeKey(data[idx].listedAt);
      var x := SlotX(i, width);
      assert keys[..i + 1] == keys[..i] + [key];
      assert xs[..i + 1] == xs[..i] + [x];
      groups := AddSlot(groups, keys[..i], xs[..i], key, x);
      i := i + 1;
    }
    assert keys[..i] == keys && xs[..i] == xs;
  }

  function Mean(xs: seq<real>): real
    requires |xs| > 0
  {
    Sum(xs) / (|xs| as real)
  }

  /** Lines 179-183: centre the text on the mean slot, then push it back
      inside the plot if it overhangs the left or the right padding. */
  function LabelX(center: real, textWidth: real, width: int): (r: real)
    ensures r == LEFT_PADDING as real || r + textWidth == (width - RIGHT_PADDING) as real || r == center - textWidth / 2.0
    ensures LEFT_PADDING as real + textWidth <= (width - RIGHT_PADDING) as real ==>
      LEFT_PADDING as real <= r && r + textWidth <= (width - RIGHT_PADDING) as real
  {
    var x := center - textWidth / 2.0;
    if x < LEFT_PADDING as real then LEFT_PADDING as real
    else if x + textWidth > (width - RIGHT_PADDING) as real then (width - RIGHT_PADDING) as real - textWidth
    else x
  }

  /** A time label: the minute it shows and where its text starts. */
  datatype TimeLabel = TimeLabel(key: int, x: real)

  /** The time axis of a series of two or more points: one label per
      distinct label text among the five samples, in the order the texts
      first appear, each placed at the mean of the slots where its text was
      sampled and kept inside the plot. */
  function TimeLabelsFor(data: seq<PricePoint>, width: int, textWidth: int -> real): (labels: seq<TimeLabel>)
    requires |data| >= 2
    ensures |labels| == |FirstSeen(SampleKeys(data))|
  {
    var keys := SampleKeys(data);
    var order := FirstSeen(keys);
    seq(|order|, a requires 0 <= a < |order| =>
      TimeLabel(order[a], LabelX(Mean(SlotsFor(keys, Slots(width), order[a])), textWidth(order[a]), width)))
  }

  /** Lines 172-183: one label per group, at the mean of its slots. */
  method PlaceTimeLabels(groups: seq<LabelGroup>, width: int, textWidth: int -> real) returns (labels: seq<TimeLabel>)
    requires forall g :: g in groups ==> g.slots != []
    ensures |labels| == |groups|
    ensures forall k :: 0 <= k < |groups| ==>
      labels[k] == TimeLabel(groups[k].key, LabelX(Mean(groups[k].slots), textWidth(groups[k].key), width))
  {
    labels := [];
    var k := 0;
    while k < |groups|
      invariant 0 <= k <= |groups|
      invariant |labels| == k
      invariant forall j :: 0 <= j < k ==>
        labels[j] == TimeLabel(groups[j].key, LabelX(Mean(groups[j].slots), textWidth(groups[j].key), width))
    {
      var g := groups[k];
      var avg := Sum(g.slots) / (|g.slots| as real);
      labels := labels + [TimeLabel(g.key, LabelX(avg, textWidth(g.key), width))];
      k := k + 1;
    }
  }

  /** The mean of values that all lie in [lo, hi] lies in [lo, hi] too. */
  lemma MeanWithin(xs: seq<real>, lo: real, hi: real)
    requires |xs| > 0
    requires forall i :: 0 <= i < |xs| ==> lo <= xs[i] <= hi
    ensures lo <= Mean(xs) <= hi
  {
    SumBounds(xs, lo, hi);
    QuotientBetween(Sum(xs), |xs| as real, lo, hi);
  }

  /** The mean of the slots of a group lies between its smallest and its
      largest slot, so a merged label stays where its samples were. */
  lemma MeanBetween(xs: seq<real>)
    requires |xs| > 0
    ensures Min(xs) <= Mean(xs) <= Max(xs)
  {
    MeanWithin(xs, Min(xs), Max(xs));
  }

  lemma QuotientBetween(total: real, n: real, lo: real, hi: real)
    requires n > 0.0 && n * lo <= total <= n * hi
    ensures lo <= total / n <= hi
  {
    DivMonotone(n * lo, total, n);
    DivMonotone(total, n * hi, n);
    MulDiv(n, lo);
    MulDiv(n, hi);
  }

  lemma MulDiv(n: real, m: real)
    requires n > 0.0
    ensures (n * m) / n == m
  {
  }

  // ----- The whole layout -----

  datatype ChartGeometry = ChartGeometry(
    points: seq<Point>,
    color: Color,
    markers: seq<int>,
    maxLabel: PriceLabel,
    minLabel: PriceLabel,
    timeLabels: seq<TimeLabel>)

  datatype ChartError =
    | FontUnavailable  // neither font file could be loaded (line 81)
    | DivisionByZero   // a single point: line 116 divides by zero

  /** The series part of the chart for `prices`: the points, the colour,
      the markers and the two price labels. */
  predicate PlotOf(g: ChartGeometry, prices: seq<real>, width: int, height: int, textHeight: real -> real)
    requires |prices| >= 2
  {
    && |g.points| == |prices|
    && (forall i :: 0 <= i < |prices| ==>
          g.points[i] == Point(XAt(i, |prices|, width), YAt(prices[i], PriceBounds(prices), height)))
    && g.color == TrendColor(prices)
    && g.maxLabel == LabelOf(prices, g.points, FirstIndex(prices, Max(prices)), width, textHeight)
    && g.minLabel == LabelOf(prices, g.points, FirstIndex(prices, Min(prices)), width, textHeight)
    && g.maxLabel.price == Max(prices) && g.minLabel.price == Min(prices)
    && g.markers == Markers(|prices|)
  }

  /** The label of the price at `index`, placed by its point, with the
      height of its own text. */
  function LabelOf(prices: seq<real>, points: seq<Point>, index: nat, width: int, textHeight: real -> real): (l: PriceLabel)
    requires index < |prices| && |points| == |prices|
    ensures l.index == index && l.price == prices[index]
  {
    PriceLabelAt(prices, index, points[index], width, textHeight(prices[index]))
  }

  /** `generate_chart_image` up to drawing: the font outcome, the placeholder
      prices and the measured text sizes are arguments. */
  method GenerateChart(
    width: int, height: int, data: seq<PricePoint>, placeholder: seq<real>,
    fontLoaded: bool, timeTextWidth: int -> real, priceTextHeight: real -> real)
    returns (r: Result<ChartGeometry, ChartError>)
    requires |placeholder| == PLACEHOLDER_POINTS
    ensures !fontLoaded ==> r == Failure(FontUnavailable)
    ensures fontLoaded && |data| == 1 ==> r == Failure(DivisionByZero)
    ensures fontLoaded && |data| != 1 ==> r.Success?
    ensures r.Success? ==>
      var prices := ChartPrices(data, placeholder);
      && |prices| >= 2
      && PlotOf(r.value, prices, width, height, priceTextHeight)
      && (|data| < 2 ==> r.value.timeLabels == [])
      && (|data| >= 2 ==> r.value.timeLabels == TimeLabelsFor(data, width, timeTextWidth))
  {
    if !fontLoaded {
      return Failure(FontUnavailable);
    }
    var prices := ChartPrices(data, placeholder);
    if |prices| == 1 {
      return Failure(DivisionByZero);
    }
    var color := TrendColor(prices);
    var maxPrice := Max(prices);
    var minPrice := Min(prices);
    var maxIndex := FirstIndex(prices, maxPrice);
    var minIndex := FirstIndex(prices, minPrice);
    var points := ComputePoints(prices, width, height);
    var markers := MarkerIndices(|prices|);
    var timeLabels := TimeAxisLabels(data, width, timeTextWidth);
    var maxLabel := PriceLabelAt(prices, maxIndex, points[maxIndex], width, priceTextHeight(maxPrice));
    var minLabel := PriceLabelAt(prices, minIndex, points[minIndex], width, priceTextHeight(minPrice));
    return Success(ChartGeometry(points, color, markers, maxLabel, minLabel, timeLabels));
  }

  /** Lines 153-190: the time axis, drawn only for a series of two or more
      points. */
  method TimeAxisLabels(data: seq<PricePoint>, width: int, textWidth: int -> real) returns (labels: seq<TimeLabel>)
    ensures |data| < 2 ==> labels == []
    ensures |data| >= 2 ==> labels == TimeLabelsFor(data, width, textWidth)
  {
    labels := [];
    if |data| >= 2 {
      var groups := GroupTimeLabels(data, width);
      labels := PlaceTimeLabels(groups, width, textWidth);
      GroupLabelsInOrder(data, width, textWidth, groups, labels);
    }
  }

  /** Labels placed group by group, for the groups of the samples, are the
      time axis. */
  lemma GroupLabelsInOrder(data: seq<PricePoint>, width: int, textWidth: int -> real,
    groups: seq<LabelGroup>, labels: seq<TimeLabel>)
    requires |data| >= 2
    requires GroupsOf(groups, SampleKeys(data), Slots(width))
    requires forall g :: g in groups ==> g.slots != []
    requires |labels| == |groups|
    requires forall k :: 0 <= k < |groups| ==>
      labels[k] == TimeLabel(groups[k].key, LabelX(Mean(groups[k].slots), textWidth(groups[k].key), width))
    ensures labels == TimeLabelsFor(data, width, textWidth)
  {
    var keys := SampleKeys(data);
    var spec := TimeLabelsFor(data, width, textWidth);
    forall a | 0 <= a < |labels| ensures labels[a] == spec[a] {
      assert groups[a] in groups;
    }
  }

  /** The time axis has one to five labels with distinct texts: exactly the
      texts of the five samples. */
  lemma TimeLabelsForSpec(data: seq<PricePoint>, width: int, textWidth: int -> real)
    requires |data| >= 2
    ensures var labels := TimeLabelsFor(data, width, textWidth);
      && 1 <= |labels| <= NUM_TIME_LABELS
      && (forall k :: k in SampleKeys(data) ==> exists l :: l in labels && l.key == k)
      && (forall l :: l in labels ==> l.key in SampleKeys(data))
      && (forall a, b :: 0 <= a < b < |labels| ==> labels[a].key != labels[b].key)
  {
    var keys := SampleKeys(data);
    var order := FirstSeen(keys);
    var labels := TimeLabelsFor(data, width, textWidth);
    assert keys[0] in order;
    SeenBound(keys);
    forall k | k in keys ensures exists l :: l in labels && l.key == k {
      var a :| 0 <= a < |order| && order[a] == k;
      assert labels[a] in labels;
    }
    forall l | l in labels ensures l.key in keys {
      var a :| 0 <= a < |labels| && labels[a] == l;
      assert order[a] in order;
    }
  }

  /** No more distinct values than values. */
  lemma {:induction false} SeenBound(keys: seq<int>)
    ensures |FirstSeen(keys)| <= |keys|
  {
    if keys != [] {
      SeenBound(keys[..|keys| - 1]);
    }
  }
}
