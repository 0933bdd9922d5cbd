/**
 * The series normaliser of `src/api/api_client.py`: `get_price_history`
 * keeps the well-formed listings of the last twelve hours, orders them by
 * time and thins them out by position to at most 80 points;
 * `get_current_price` reads the price of the cheapest current listing.
 *
 * The marketplace call is not modelled: its outcome is an `ApiResponse`
 * argument, and the clock reading `now` is an argument too.
 */
module ApiClient {
  import opened Wrappers
  import opened Series

  const HOURS_TO_FETCH: int := 12
  const NUMBER_OF_POINTS: int := 80
  const MICROS_PER_HOUR: int := 3600 * 1000000
  /** Twelve hours, in the microseconds timestamps are counted in. */
  const WINDOW: int := HOURS_TO_FETCH * MICROS_PER_HOUR

  /** The JSON value found where a number is expected. */
  datatype RawValue =
    | Absent                                   // the key is not there
    | Number(x: real)                          // a JSON number
    | Boolean(b: bool)                         // a JSON boolean, which `float()` reads as 1.0 or 0.0
    | Text(text: string, parsed: Option<real>) // a JSON string, with what `float()` makes of it
    | Other                                    // null, a list or an object

  /** The `listed_at` field: missing, not in the fixed date format, or read. */
  datatype ListedAt = Missing | Unparseable | Parsed(t: int)

  /** One element of the answer list: an object with its two fields, or
      any other JSON value, which cannot be indexed by a key. */
  datatype RawListing = RawListing(listedAt: ListedAt, price: RawValue) | NotAnObject

  /** What the marketplace call gave back. */
  datatype ApiResponse =
    | Listings(items: seq<RawListing>)
    | Message(text: string)   // the API answered with a string
    | Unexpected              // any other non-list value
    | Raised                  // the call itself raised

  /** The exceptions `float(item["price"])` can raise. */
  datatype ConversionError = KeyError | ValueError | TypeError

  /** `float(item["price"])`. */
  function ToFloat(v: RawValue): Result<real, ConversionError> {
    match v
    case Absent => Failure(KeyError)
    case Number(x) => Success(x)
    case Boolean(b) => Success(if b then 1.0 else 0.0)
    case Text(s, parsed) =>
      if s == [] || parsed.None? then Failure(ValueError) else Success(parsed.value)
    case Other => Failure(TypeError)
  }

  /** What the loop body does with one listing. `Abort` is a `TypeError`,
      which the per-item handler does not catch: indexing a value that is
      not an object by a key, or `float()` of a value that is not a number
      or a string. */
  datatype Step = Keep(point: PricePoint) | Skip | Abort

  predicate InWindowAt(t: int, now: int) {
    now - WINDOW <= t <= now
  }

  function ItemStep(item: RawListing, now: int): Step {
    match item
    case NotAnObject => Abort
    case RawListing(listedAt, price) =>
      match listedAt
      case Missing => Skip
      case Unparseable => Skip
      case Parsed(t) =>
        if InWindowAt(t, now) then
          match ToFloat(price)
          case Success(x) => Keep(PricePoint(x, t))
          case Failure(e) => if e == TypeError then Abort else Skip
        else Skip
  }

  /** The list `all_data` the loop builds, or `None` when the loop is cut
      short by an exception that escapes it. */
  function InWindow(items: seq<RawListing>, now: int): Option<seq<PricePoint>> {
    if items == [] then Some([])
    else
      match InWindow(items[..|items| - 1], now)
      case None => None
      case Some(acc) =>
        match ItemStep(items[|items| - 1], now)
        case Keep(p) => Some(acc + [p])
        case Skip => Some(acc)
        case Abort => None
  }

  lemma {:induction false} AbortedPrefix(items: seq<RawListing>, i: nat, now: int)
    requires i <= |items| && InWindow(items[..i], now).None?
    ensures InWindow(items, now).None?
    decreases |items| - i
  {
    if i < |items| {
      assert items[..i + 1][..i] == items[..i];
      AbortedPrefix(items, i + 1, now);
    } else {
      assert items[..i] == items;
    }
  }

  /** The filtering loop: listings are visited in order, a malformed one is
      skipped, and a `TypeError` ends the whole call. */
  method CollectInWindow(items: seq<RawListing>, now: int) returns (allData: Option<seq<PricePoint>>)
    ensures allData == InWindow(items, now)
  {
    var acc: seq<PricePoint> := [];
    var i := 0;
    while i < |items|
      invariant 0 <= i <= |items|
      invariant InWindow(items[..i], now) == Some(acc)
    {
      assert items[..i + 1][..i] == items[..i];
      match ItemStep(items[i], now) {
        case Keep(p) =>
          acc := acc + [p];
        case Skip =>
        case Abort =>
          AbortedPrefix(items, i + 1, now);
          return None;
      }
      i := i + 1;
    }
    assert items[..i] == items;
    return Some(acc);
  }

  /** Every collected point lies in the closed twelve-hour window, comes from
      a listing the loop keeps, and every kept listing is collected; the
      collection is cut short exactly when some listing raises a TypeError. */
  lemma {:induction false} InWindowSpec(items: seq<RawListing>, now: int)
    ensures InWindow(items, now).None? <==> exists j :: 0 <= j < |items| && ItemStep(items[j], now) == Abort
    ensures InWindow(items, now).Some? ==>
      var r := InWindow(items, now).value;
      && |r| <= |items|
      && (forall p :: p in r ==> InWindowAt(p.listedAt, now))
      && (forall p :: p in r ==> exists j :: 0 <= j < |items| && ItemStep(items[j], now) == Keep(p))
      && (forall j :: 0 <= j < |items| && ItemStep(items[j], now).Keep? ==> ItemStep(items[j], now).point in r)
  {
    if items != [] {
      var front := items[..|items| - 1];
      var last := items[|items| - 1];
      InWindowSpec(front, now);
      assert forall j :: 0 <= j < |front| ==> front[j] == items[j];
      match InWindow(front, now)
      case None =>
      case Some(acc) =>
        if ItemStep(last, now).Keep? {
          var r := acc + [ItemStep(last, now).point];
          forall p | p in r
            ensures exists j :: 0 <= j < |items| && ItemStep(items[j], now) == Keep(p)
          {
            if p in acc {
              var j :| 0 <= j < |front| && ItemStep(front[j], now) == Keep(p);
              assert ItemStep(items[j], now) == Keep(p);
            } else {
              assert ItemStep(items[|items| - 1], now) == Keep(p);
            }
          }
        } else if ItemStep(last, now).Skip? {
          forall p | p in acc
            ensures exists j :: 0 <= j < |items| && ItemStep(items[j], now) == Keep(p)
          {
            var j :| 0 <= j < |front| && ItemStep(front[j], now) == Keep(p);
            assert ItemStep(items[j], now) == Keep(p);
          }
        }
    }
  }

  /** A listing that is skipped changes nothing: the listings after it are
      still processed as if it were not there. */
  lemma {:induction false} SkippedListingIsInvisible(before: seq<RawListing>, item: RawListing, after: seq<RawListing>, now: int)
    requires ItemStep(item, now) == Skip
    ensures InWindow(before + [item] + after, now) == InWindow(before + after, now)
    decreases |after|
  {
    if after == [] {
      assert (before + [item])[..|before|] == before;
      assert before + [item] + after == before + [item];
      assert before + after == before;
    } else {
      var front := after[..|after| - 1];
      SkippedListingIsInvisible(before, item, front, now);
      assert (before + [item] + after)[..|before + [item] + after| - 1] == before + [item] + front;
      assert (before + after)[..|before + after| - 1] == before + front;
    }
  }

  // ----- Downsampling by position -----

  /** `[s[i] for i in range(0, len(s), step)]` */
  function Stride(s: seq<PricePoint>, step: nat): (r: seq<PricePoint>)
    requires step >= 1
    ensures |r| <= |s|
    decreases |s|
  {
    if s == [] then [] else [s[0]] + Stride(s[if step <= |s| then step else |s|..], step)
  }

  lemma MulSucc(k: nat, step: nat)
    ensures (k + 1) * step == k * step + step
  {
  }

  lemma {:induction false} StrideAt(s: seq<PricePoint>, step: nat, k: nat)
    requires step >= 1 && k < |Stride(s, step)|
    ensures k * step < |s| && Stride(s, step)[k] == s[k * step]
    decreases k
  {
    if k > 0 {
      assert step <= |s|;
      var rest := s[step..];
      assert Stride(s, step) == [s[0]] + Stride(rest, step);
      StrideAt(rest, step, k - 1);
      var j := (k - 1) * step;
      MulSucc(k - 1, step);
      assert rest[j] == s[step + j];
    }
  }

  lemma {:induction false} StrideLength(s: seq<PricePoint>, step: nat, m: nat)
    requires step >= 1 && m * step <= |s|
    ensures |Stride(s, step)| >= m
    decreases m
  {
    if m > 0 {
      MulSucc(m - 1, step);
      StrideLength(s[step..], step, m - 1);
    }
  }

  /** Lines 101-108: more than 80 points are thinned to every
      `len // 80`-th point and cut to 80; fewer are returned as they are. */
  function Downsample(s: seq<PricePoint>): seq<PricePoint> {
    if |s| > NUMBER_OF_POINTS then
      var step := |s| / NUMBER_OF_POINTS;
      var f := Stride(s, step);
      if |f| > NUMBER_OF_POINTS then f[..NUMBER_OF_POINTS] else f
    else s
  }

  /** At most 80 points pass through unchanged. More than 80 give exactly 80
      points, the k-th being the `k * (len // 80)`-th input point, so the
      first point is kept and nothing is averaged or invented. */
  lemma DownsampleSpec(s: seq<PricePoint>)
    ensures |s| <= NUMBER_OF_POINTS ==> Downsample(s) == s
    ensures |s| > NUMBER_OF_POINTS ==>
      && |Downsample(s)| == NUMBER_OF_POINTS
      && forall k :: 0 <= k < NUMBER_OF_POINTS ==>
           k * (|s| / NUMBER_OF_POINTS) < |s| && Downsample(s)[k] == s[k * (|s| / NUMBER_OF_POINTS)]
  {
    if |s| > NUMBER_OF_POINTS {
      var step := |s| / NUMBER_OF_POINTS;
      assert NUMBER_OF_POINTS * step <= |s|;
      StrideLength(s, step, NUMBER_OF_POINTS);
      forall k | 0 <= k < NUMBER_OF_POINTS
        ensures k * step < |s| && Downsample(s)[k] == s[k * step]
      {
        StrideAt(s, step, k);
      }
    }
  }

  lemma MulMonotone(a: nat, b: nat, step: nat)
    requires a <= b
    ensures a * step <= b * step
  {
  }

  /** The thinned series is a subsequence of its input: it keeps the time
      order and only holds input points. */
  lemma DownsampleSubsequence(s: seq<PricePoint>)
    ensures |Downsample(s)| <= NUMBER_OF_POINTS
    ensures forall p :: p in Downsample(s) ==> p in s
    ensures SortedByTime(s) ==> SortedByTime(Downsample(s))
    ensures |s| > 0 ==> Downsample(s)[0] == s[0]
  {
    DownsampleSpec(s);
    var r := Downsample(s);
    if |s| > NUMBER_OF_POINTS {
      var step := |s| / NUMBER_OF_POINTS;
      assert forall k :: 0 <= k < |r| ==> r[k] == s[k * step];
      forall p | p in r ensures p in s {
        var k :| 0 <= k < |r| && r[k] == p;
      }
      if SortedByTime(s) {
        forall i, j | 0 <= i < j < |r| ensures r[i].listedAt <= r[j].listedAt {
          MulMonotone(i, j, step);
        }
      }
      assert r[0] == s[0 * step];
    }
  }

  /** With 200 points the step is 2: position 79 holds input point 158, so the
      last input point is not the last output point. */
  lemma DownsampleMayDropLast(s: seq<PricePoint>)
    requires |s| == 200
    ensures |Downsample(s)| == NUMBER_OF_POINTS && Downsample(s)[NUMBER_OF_POINTS - 1] == s[158]
  {
    DownsampleSpec(s);
  }

  // ----- get_price_history -----

  /** The value `get_price_history` returns. */
  function PriceHistory(auth: Option<string>, response: ApiResponse, now: int): seq<PricePoint> {
    if auth.None? then []
    else
      match response
      case Listings(items) =>
        (match InWindow(items, now)
         case None => []
         case Some(all) => if all == [] then [] else Downsample(SortByTime(all)))
      case _ => []
  }

  /** `get_price_history` with the marketplace answer and the clock reading
      as arguments. */
  method GetPriceHistory(auth: Option<string>, response: ApiResponse, now: int) returns (history: seq<PricePoint>)
    ensures history == PriceHistory(auth, response, now)
  {
    if auth.None? {
      return [];
    }
    if !response.Listings? {
      return [];
    }
    var allData := CollectInWindow(response.items, now);
    if allData.None? || allData.value == [] {
      return [];
    }
    var sorted := SortByTime(allData.value);
    history := Downsample(sorted);
  }

  /** What the history promises its callers: at most 80 points, in time
      order, each inside the window and each a listing of the answer with its
      price unchanged; no credentials or an answer that is not a list give
      nothing; at most 80 surviving points come back whole, in time order. */
  lemma PriceHistorySpec(auth: Option<string>, response: ApiResponse, now: int)
    ensures var h := PriceHistory(auth, response, now);
      && |h| <= NUMBER_OF_POINTS
      && SortedByTime(h)
      && (forall p :: p in h ==> InWindowAt(p.listedAt, now))
      && (forall p :: p in h ==>
            (response.Listings? &&
             exists j :: 0 <= j < |response.items| && ItemStep(response.items[j], now) == Keep(p)))
    ensures auth.None? || !response.Listings? ==> PriceHistory(auth, response, now) == []
    ensures auth.Some? && response.Listings? && InWindow(response.items, now).Some? &&
            |InWindow(response.items, now).value| <= NUMBER_OF_POINTS ==>
              PriceHistory(auth, response, now) == SortByTime(InWindow(response.items, now).value)
  {
    if auth.Some? && response.Listings? {
      InWindowSpec(response.items, now);
      var w := InWindow(response.items, now);
      if w.Some? && w.value != [] {
        var sorted := SortByTime(w.value);
        SortByTimeSpec(w.value);
        DownsampleSubsequence(sorted);
        DownsampleSpec(sorted);
        forall p | p in Downsample(sorted) ensures p in w.value {
          assert p in multiset(sorted);
        }
      }
    }
  }

  /** One element of the answer that is not an object, wherever it stands,
      makes the whole history empty: its TypeError escapes the loop and the
      outer handler returns `[]`. */
  lemma NonObjectEmptiesHistory(auth: Option<string>, items: seq<RawListing>, j: nat, now: int)
    requires j < |items| && items[j] == NotAnObject
    ensures PriceHistory(auth, Listings(items), now) == []
  {
    InWindowSpec(items, now);
    assert ItemStep(items[j], now) == Abort;
  }

  // ----- get_current_price -----

  /** Python truthiness of `result[0].get("price")`. */
  predicate IsFalsy(v: RawValue) {
    v == Absent || v == Number(0.0) || v == Boolean(false) || (v.Text? && v.text == [])
  }

  /** `get_current_price`: the price of the first (cheapest) listing, or
      `None` when there are no credentials, no listing, a first element that
      is not an object (`.get` raises AttributeError, which is caught), or a
      price that is missing, zero, false, empty or not a number. A price of
      `true` reads as 1.0. */
  function CurrentPrice(auth: Option<string>, response: ApiResponse): (r: Option<real>)
    ensures r.Some? <==>
      && auth.Some? && response.Listings? && |response.items| > 0 && response.items[0].RawListing?
      && !IsFalsy(response.items[0].price) && ToFloat(response.items[0].price).Success?
    ensures r.Some? ==> ToFloat(response.items[0].price) == Success(r.value)
    ensures (response.Listings? && |response.items| > 0 && response.items[0].RawListing? &&
             response.items[0].price == Number(0.0)) ==> r.None?
    ensures (auth.Some? && response.Listings? && |response.items| > 0 && response.items[0].RawListing? &&
             response.items[0].price == Boolean(true)) ==> r == Some(1.0)
  {
    if auth.None? then None
    else
      match response
      case Listings(items) =>
        if |items| > 0 && items[0].RawListing? && !IsFalsy(items[0].price) then
          match ToFloat(items[0].price)
          case Success(x) => Some(x)
          case Failure(_) => None
        else None
      case _ => None
  }
}
