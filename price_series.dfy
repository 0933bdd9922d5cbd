/**
 * The price series every stage passes along: a sequence of (price, time)
 * points, the stable ordering by time that `list.sort` and `sorted` give it,
 * and the aggregates (`min`, `max`, `sum`, `list.index`) taken over its prices.
 */
module Series {

  /** One listing: its price and the instant it was listed, in microseconds
      since the epoch (the `listed_at` text read with its fixed format). */
  datatype PricePoint = PricePoint(price: real, listedAt: int)

  predicate SortedByTime(s: seq<PricePoint>) {
    forall i, j :: 0 <= i < j < |s| ==> s[i].listedAt <= s[j].listedAt
  }

  function Prices(s: seq<PricePoint>): (r: seq<real>)
    ensures |r| == |s|
    ensures forall i :: 0 <= i < |s| ==> r[i] == s[i].price
  {
    seq(|s|, i requires 0 <= i < |s| => s[i].price)
  }

  // ----- Stable sort by time -----

  /** Puts `p` in front of the first point that is not earlier than it, so
      that `p` precedes the points of `s` listed at the same instant. */
  function Insert(p: PricePoint, s: seq<PricePoint>): (r: seq<PricePoint>)
    ensures |r| == |s| + 1
    ensures multiset(r) == multiset(s) + multiset{p}
  {
    if s == [] || p.listedAt <= s[0].listedAt then [p] + s
    else
      assert s == [s[0]] + s[1..];
      [s[0]] + Insert(p, s[1..])
  }

  /** `sorted(s, key=listed_at)`: a stable insertion sort on the time. */
  function SortByTime(s: seq<PricePoint>): (r: seq<PricePoint>)
    ensures |r| == |s|
  {
    if s == [] then [] else Insert(s[0], SortByTime(s[1..]))
  }

  /** The points of `s` listed at instant `t`, in their order in `s`. */
  function AtTime(s: seq<PricePoint>, t: int): seq<PricePoint> {
    if s == [] then []
    else (if s[0].listedAt == t then [s[0]] else []) + AtTime(s[1..], t)
  }

  lemma {:induction false} InsertSorted(p: PricePoint, s: seq<PricePoint>)
    requires SortedByTime(s)
    ensures SortedByTime(Insert(p, s))
  {
    if s != [] && p.listedAt > s[0].listedAt {
      InsertSorted(p, s[1..]);
      var r := Insert(p, s[1..]);
      assert r[0] == p || r[0] == s[1];
    }
  }

  lemma {:induction false} InsertAtTime(p: PricePoint, s: seq<PricePoint>, t: int)
    requires SortedByTime(s)
    ensures AtTime(Insert(p, s), t) == (if p.listedAt == t then [p] else []) + AtTime(s, t)
  {
    if s == [] || p.listedAt <= s[0].listedAt {
      assert ([p] + s)[1..] == s;
    } else {
      InsertAtTime(p, s[1..], t);
      assert ([s[0]] + Insert(p, s[1..]))[1..] == Insert(p, s[1..]);
    }
  }

  /** The sort orders by time, keeps every point exactly as often as it
      occurs, and keeps points listed at the same instant in their input
      order (it is stable). */
  lemma {:induction false} SortByTimeSpec(s: seq<PricePoint>)
    ensures SortedByTime(SortByTime(s))
    ensures multiset(SortByTime(s)) == multiset(s)
    ensures forall t :: AtTime(SortByTime(s), t) == AtTime(s, t)
  {
    if s != [] {
      SortByTimeSpec(s[1..]);
      InsertSorted(s[0], SortByTime(s[1..]));
      assert s == [s[0]] + s[1..];
      forall t ensures AtTime(SortByTime(s), t) == AtTime(s, t) {
        InsertAtTime(s[0], SortByTime(s[1..]), t);
      }
    }
  }

  /** Sorting a series that is already in time order changes nothing. */
  lemma {:induction false} SortedIsFixed(s: seq<PricePoint>)
    requires SortedByTime(s)
    ensures SortByTime(s) == s
  {
    if s != [] {
      SortedIsFixed(s[1..]);
      assert s == [s[0]] + s[1..];
    }
  }

  // ----- Aggregates over prices -----

  /** Python's `max` over a non-empty sequence. */
  function Max(s: seq<real>): (m: real)
    requires |s| > 0
    ensures m in s
    ensures forall i :: 0 <= i < |s| ==> s[i] <= m
  {
    if |s| == 1 then s[0]
    else
      var m := Max(s[1..]);
      if s[0] >= m then s[0] else m
  }

  /** Python's `min` over a non-empty sequence. */
  function Min(s: seq<real>): (m: real)
    requires |s| > 0
    ensures m in s
    ensures forall i :: 0 <= i < |s| ==> m <= s[i]
  {
    if |s| == 1 then s[0]
    else
      var m := Min(s[1..]);
      if s[0] <= m then s[0] else m
  }

  /** The running total of the prices, added front to back. */
  function Sum(s: seq<real>): real {
    if s == [] then 0.0 else Sum(s[..|s| - 1]) + s[|s| - 1]
  }

  /** A total of values in [lo, hi] lies between |s|*lo and |s|*hi. */
  lemma {:induction false} SumBounds(s: seq<real>, lo: real, hi: real)
    requires forall i :: 0 <= i < |s| ==> lo <= s[i] <= hi
    ensures |s| as real * lo <= Sum(s) <= |s| as real * hi
  {
    if s != [] {
      SumBounds(s[..|s| - 1], lo, hi);
    }
  }

  /** Python's `list.index(v)`: the first position holding `v`. */
  function FirstIndex(s: seq<real>, v: real): (k: nat)
    requires v in s
    ensures k < |s| && s[k] == v
    ensures forall j :: 0 <= j < k ==> s[j] != v
  {
    if s[0] == v then 0
    else
      assert v in s[1..];
      1 + FirstIndex(s[1..], v)
  }
}
