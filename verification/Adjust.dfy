/** Back-adjustment of prices: a jump of the close between two bars of a segment is taken for a
    split, and every earlier bar of the segment is rescaled by the size of the jump. */
module Adjust {
  import opened Common
  import opened Segments
  import opened Halts

  /** The last row before `k` in the segment of row `t` that has a close, or -1. */
  ghost function LastClose(rows: seq<Bar>, t: nat, k: nat): (j: int)
    requires k <= t < |rows|
    ensures -1 <= j < k
    ensures j >= 0 ==> rows[j].segment == rows[t].segment && rows[j].prices.close.Some?
    ensures forall m | j < m < k && rows[m].segment == rows[t].segment :: rows[m].prices.close.None?
  {
    if k == 0 then -1
    else if rows[k - 1].segment == rows[t].segment && rows[k - 1].prices.close.Some? then k - 1
    else LastClose(rows, t, k - 1)
  }

  ghost function Prev(rows: seq<Bar>, t: nat): int
    requires t < |rows|
  {
    LastClose(rows, t, t)
  }

  /** Rows `i` and `t` carry consecutive closes of one segment. */
  ghost predicate Consecutive(rows: seq<Bar>, i: int, t: int)
  {
    0 <= i < t < |rows| && rows[t].prices.close.Some? && Prev(rows, t) == i
  }

  ghost function Close(rows: seq<Bar>, t: nat): real
    requires t < |rows| && rows[t].prices.close.Some?
  {
    rows[t].prices.close.value
  }

  function Times(a: real, b: real): real { a * b }

  function Over(a: real, b: real): real
    requires b != 0.0
  {
    a / b
  }

  /** How one close follows another. */
  datatype Move = Undefined | Ratio(value: real)

  function MoveOf(previous: real, current: real): Move
  {
    if previous == 0.0 then Undefined else Ratio(Over(current, previous))
  }

  /** Finite, positive and outside the open band between 0.55 and 1.8. */
  predicate Jump(m: Move)
  {
    m.Ratio? && m.value > 0.0 && (m.value <= 0.55 || m.value >= 1.8)
  }

  predicate InBand(m: Move)
  {
    m.Ratio? && 0.55 < m.value < 1.8
  }

  /** How the close of row `t` follows that of row `i`. */
  ghost function MoveAt(rows: seq<Bar>, i: int, t: int): Move
    requires Consecutive(rows, i, t)
  {
    MoveOf(Close(rows, i), Close(rows, t))
  }

  ghost predicate IsEvent(rows: seq<Bar>, t: int)
  {
    0 <= t < |rows| && Consecutive(rows, Prev(rows, t), t) && Jump(MoveAt(rows, Prev(rows, t), t))
  }

  ghost function EventRatio(rows: seq<Bar>, t: int): (r: real)
    requires IsEvent(rows, t)
    ensures r > 0.0
  {
    MoveAt(rows, Prev(rows, t), t).value
  }

  /** The event ratios of row `i`'s segment after `i` and before `n`, in date order. */
  ghost function LaterRatios(rows: seq<Bar>, i: nat, n: nat): (r: seq<real>)
    requires i < |rows| && n <= |rows|
    ensures forall k | 0 <= k < |r| :: r[k] > 0.0
  {
    if n <= i + 1 then []
    else if IsEvent(rows, n - 1) && rows[n - 1].segment == rows[i].segment then
      LaterRatios(rows, i, n - 1) + [EventRatio(rows, n - 1)]
    else LaterRatios(rows, i, n - 1)
  }

  ghost function Product(s: seq<real>): real
  {
    if s == [] then 1.0 else Times(Product(s[..|s| - 1]), s[|s| - 1])
  }

  lemma Regroup(a: real, b: real, c: real)
    ensures Times(Times(a, b), c) == Times(a, Times(b, c))
  {
  }

  lemma PositiveTimes(a: real, b: real)
    requires a > 0.0 && b > 0.0
    ensures Times(a, b) > 0.0
  {
  }

  lemma {:induction false} ProductPositive(s: seq<real>)
    requires forall k | 0 <= k < |s| :: s[k] > 0.0
    ensures Product(s) > 0.0
  {
    if s != [] {
      ProductPositive(s[..|s| - 1]);
      PositiveTimes(Product(s[..|s| - 1]), s[|s| - 1]);
    }
  }

  lemma SnocProduct(s: seq<real>, x: real)
    ensures Product(s + [x]) == Times(Product(s), x)
  {
    assert (s + [x])[..|s|] == s;
  }

  lemma {:induction false} ConsProduct(x: real, s: seq<real>)
    ensures Product([x] + s) == Times(x, Product(s))
  {
    if s == [] {
      assert [x] + s == [] + [x];
      SnocProduct([], x);
    } else {
      var init, last := s[..|s| - 1], s[|s| - 1];
      assert [x] + s == ([x] + init) + [last];
      SnocProduct([x] + init, last);
      ConsProduct(x, init);
      Regroup(x, Product(init), last);
    }
  }

  /** The adjustment factor of row `i`: the product of all later event ratios of its segment. */
  ghost function Factor(rows: seq<Bar>, i: nat): (f: real)
    requires i < |rows|
    ensures f > 0.0
  {
    ProductPositive(LaterRatios(rows, i, |rows|));
    Product(LaterRatios(rows, i, |rows|))
  }

  function Scale(x: Option<real>, f: real): Option<real>
  {
    if x.Some? then Some(Times(x.value, f)) else None
  }

  function AdjustBar(b: Bar, f: real): (r: Bar)
    requires f != 0.0
    ensures r.segment == b.segment && r.prices.close == Scale(b.prices.close, f)
  {
    var p := b.prices;
    b.(prices := Prices(Scale(p.open, f), Scale(p.high, f), Scale(p.low, f), Scale(p.close, f),
                        if p.volume.Some? then Some(Over(p.volume.value, f)) else None))
  }

  ghost function Adjusted(rows: seq<Bar>): (r: seq<Bar>)
    ensures |r| == |rows|
    ensures forall i | 0 <= i < |rows| :: r[i] == AdjustBar(rows[i], Factor(rows, i))
  {
    seq(|rows|, i requires 0 <= i < |rows| => AdjustBar(rows[i], Factor(rows, i)))
  }

  // ---------------------------------------------------------------------------------------
  // Continuity
  // ---------------------------------------------------------------------------------------

  lemma {:induction false} NoLaterRatios(rows: seq<Bar>, i: nat, n: nat)
    requires i < |rows| && n <= |rows|
    requires forall t | i < t < n && rows[t].segment == rows[i].segment :: !IsEvent(rows, t)
    ensures LaterRatios(rows, i, n) == []
  {
    if n > i + 1 { NoLaterRatios(rows, i, n - 1); }
  }

  lemma ScaleByOne(b: Bar)
    ensures AdjustBar(b, 1.0) == b
  {
  }

  /** Two consecutive closes make an event if and only if the earlier is not 0, the later has its sign
      and is at most 0.55 or at least 1.8 times as large. */
  lemma EventIff(rows: seq<Bar>, i: int, t: int)
    requires Consecutive(rows, i, t)
    ensures rows[i].prices.close.Some? && rows[t].prices.close.Some?
    ensures var p, c := rows[i].prices.close.value, rows[t].prices.close.value;
            && (IsEvent(rows, t) <==> p != 0.0 && c / p > 0.0 && !(0.55 < c / p < 1.8))
            && (IsEvent(rows, t) ==> EventRatio(rows, t) == c / p)
  {
  }

  /** A frame in which every close is between 0.55 and 1.8 times the one before it has no event, and
      adjusting it changes nothing. */
  lemma OrdinaryMovesUntouched(rows: seq<Bar>, n: nat)
    requires forall i, t | Consecutive(rows, i, t) ::
               var p, c := rows[i].prices.close.value, rows[t].prices.close.value; p != 0.0 && 0.55 < c / p < 1.8
    ensures Adjusted(rows) == rows && Events(rows, n) == []
  {
    forall t: int | IsEvent(rows, t) ensures false { EventIff(rows, Prev(rows, t), t); }
    forall i | 0 <= i < |rows| ensures Adjusted(rows)[i] == rows[i] { LatestUnadjusted(rows, i); }
    if Events(rows, n) != [] {
      var e := Events(rows, n)[0];
      EventsExact(rows, n, e);
    }
  }

  /** Without a later event in its segment a row is not rescaled: the latest prices stay raw. */
  lemma LatestUnadjusted(rows: seq<Bar>, i: nat)
    requires i < |rows|
    requires forall t | i < t < |rows| && rows[t].segment == rows[i].segment :: !IsEvent(rows, t)
    ensures Factor(rows, i) == 1.0 && Adjusted(rows)[i] == rows[i]
  {
    NoLaterRatios(rows, i, |rows|);
    ScaleByOne(rows[i]);
  }

  /** The ratios seen from row `i` are those seen from the next close, and that close's own. */
  lemma RatiosTelescope(rows: seq<Bar>, i: int, t: int, n: int)
    requires Consecutive(rows, i, t) && t < n <= |rows|
    ensures LaterRatios(rows, i, n) == OwnRatio(rows, t) + LaterRatios(rows, t, n)
  {
    Telescope(rows, i, t, n, LaterRatios(rows, i, n), LaterRatios(rows, t, n));
  }

  ghost function OwnRatio(rows: seq<Bar>, t: nat): seq<real>
    requires t < |rows|
  {
    if IsEvent(rows, t) then [EventRatio(rows, t)] else []
  }

  lemma {:induction false} Telescope(rows: seq<Bar>, i: int, t: int, n: int, mine: seq<real>, others: seq<real>)
    requires Consecutive(rows, i, t) && t < n <= |rows|
    requires mine == LaterRatios(rows, i, n) && others == LaterRatios(rows, t, n)
    ensures mine == OwnRatio(rows, t) + others
    decreases n
  {
    if n == t + 1 {
      RatiosBetween(rows, i, t);
    } else {
      var earlier, later := LaterRatios(rows, i, n - 1), LaterRatios(rows, t, n - 1);
      Telescope(rows, i, t, n - 1, earlier, later);
      var r := SameSnoc(rows, i, t, n - 1);
      AppendRatios(OwnRatio(rows, t), earlier, later, r, mine, others);
    }
  }

  /** A later row adds the same to both. */
  lemma SameSnoc(rows: seq<Bar>, i: nat, t: nat, n: nat) returns (r: seq<real>)
    requires i < t < n < |rows| && rows[i].segment == rows[t].segment
    ensures LaterRatios(rows, i, n + 1) == LaterRatios(rows, i, n) + r
    ensures LaterRatios(rows, t, n + 1) == LaterRatios(rows, t, n) + r
  {
    r := LaterSnoc(rows, i, n);
    var q := LaterSnoc(rows, t, n);
  }

  /** Between two consecutive closes there is no event. */
  lemma RatiosBetween(rows: seq<Bar>, i: int, t: int)
    requires Consecutive(rows, i, t)
    ensures LaterRatios(rows, i, t + 1) == OwnRatio(rows, t) + LaterRatios(rows, t, t + 1)
  {
    NoLaterRatios(rows, i, t);
    var r := LaterSnoc(rows, i, t);
    assert [] + r == r + [];
  }

  lemma AppendRatios(own: seq<real>, earlier: seq<real>, later: seq<real>, r: seq<real>, mine: seq<real>, others: seq<real>)
    requires earlier == own + later && mine == earlier + r && others == later + r
    ensures mine == own + others
  {
  }

  lemma LaterSnoc(rows: seq<Bar>, i: nat, n: nat) returns (r: seq<real>)
    requires i < n < |rows|
    ensures r == if IsEvent(rows, n) && rows[n].segment == rows[i].segment then [EventRatio(rows, n)] else []
    ensures LaterRatios(rows, i, n + 1) == LaterRatios(rows, i, n) + r
  {
    r := if IsEvent(rows, n) && rows[n].segment == rows[i].segment then [EventRatio(rows, n)] else [];
  }

  lemma FactorTelescopes(rows: seq<Bar>, i: int, t: int)
    requires Consecutive(rows, i, t)
    ensures Factor(rows, i) == if IsEvent(rows, t) then Times(EventRatio(rows, t), Factor(rows, t)) else Factor(rows, t)
  {
    RatiosTelescope(rows, i, t, |rows|);
    if IsEvent(rows, t) {
      ConsProduct(EventRatio(rows, t), LaterRatios(rows, t, |rows|));
    } else {
      assert LaterRatios(rows, i, |rows|) == LaterRatios(rows, t, |rows|);
    }
  }

  lemma AdjustedShape(rows: seq<Bar>, t: nat, k: nat)
    requires k <= t < |rows|
    ensures LastClose(Adjusted(rows), t, k) == LastClose(rows, t, k)
  {
  }

  lemma AdjustedConsecutive(rows: seq<Bar>, i: int, t: int)
    ensures Consecutive(Adjusted(rows), i, t) <==> Consecutive(rows, i, t)
  {
    if 0 <= i < t < |rows| { AdjustedShape(rows, t, t); }
  }

  lemma RatioCancels(p: real, c: real, f: real)
    requires p != 0.0
    ensures Times(p, Times(Over(c, p), f)) == Times(c, f)
  {
    Regroup(p, Over(c, p), f);
    assert p * (c / p) == c;
  }

  lemma CommonFactor(p: real, c: real, f: real)
    requires p != 0.0 && f > 0.0
    ensures Times(p, f) != 0.0
    ensures Over(Times(c, f), Times(p, f)) == Over(c, p)
  {
    var q := c / p;
    assert c == q * p;
    Regroup(q, p, f);
    assert c * f == q * (p * f);
  }

  lemma AdjustedClose(rows: seq<Bar>, t: nat)
    requires t < |rows| && rows[t].prices.close.Some?
    ensures Adjusted(rows)[t].prices.close == Some(Times(Close(rows, t), Factor(rows, t)))
  {
  }

  /** Adjusted closes are equal across an event. */
  lemma EqualAcrossEvent(rows: seq<Bar>, t: int)
    requires IsEvent(rows, t)
    ensures Adjusted(rows)[Prev(rows, t)].prices.close == Adjusted(rows)[t].prices.close
  {
    var i := Prev(rows, t);
    AdjustedClose(rows, i);
    AdjustedClose(rows, t);
    FactorTelescopes(rows, i, t);
    RatioCancels(Close(rows, i), Close(rows, t), Factor(rows, t));
  }

  /** Everywhere else consecutive closes share their factor. */
  lemma SharedFactorElsewhere(rows: seq<Bar>, i: int, t: int)
    requires Consecutive(rows, i, t) && !IsEvent(rows, t)
    ensures Adjusted(rows)[i].prices.close == Some(Times(Close(rows, i), Factor(rows, t)))
    ensures Adjusted(rows)[t].prices.close == Some(Times(Close(rows, t), Factor(rows, t)))
  {
    AdjustedClose(rows, i);
    AdjustedClose(rows, t);
    FactorTelescopes(rows, i, t);
  }

  lemma MoveScales(p: real, c: real, f: real)
    requires f > 0.0
    ensures MoveOf(Times(p, f), Times(c, f)) == MoveOf(p, c)
  {
    if p != 0.0 { CommonFactor(p, c, f); }
  }

  lemma FlatMove(p: real)
    requires p != 0.0
    ensures MoveOf(p, p) == Ratio(1.0)
  {
  }

  /** The adjusted move is flat across an event and the raw one everywhere else. */
  lemma AdjustedMove(rows: seq<Bar>, i: int, t: int)
    requires Consecutive(rows, i, t)
    ensures Consecutive(Adjusted(rows), i, t)
    ensures MoveAt(Adjusted(rows), i, t) == if IsEvent(rows, t) then Ratio(1.0) else MoveAt(rows, i, t)
  {
    AdjustedConsecutive(rows, i, t);
    if IsEvent(rows, t) {
      EqualAcrossEvent(rows, t);
      AdjustedClose(rows, i);
      CommonFactor(Close(rows, i), Close(rows, i), Factor(rows, i));
      FlatMove(Close(Adjusted(rows), i));
    } else {
      SharedFactorElsewhere(rows, i, t);
      MoveScales(Close(rows, i), Close(rows, t), Factor(rows, t));
    }
  }

  /** An adjusted move lies strictly between 0.55 and 1.8 exactly when the raw ratio is positive,
      as it always is for positive closes. */
  lemma BandIffPositive(rows: seq<Bar>, i: int, t: int)
    requires Consecutive(rows, i, t)
    ensures Consecutive(Adjusted(rows), i, t)
    ensures InBand(MoveAt(Adjusted(rows), i, t)) <==> MoveAt(rows, i, t).Ratio? && MoveAt(rows, i, t).value > 0.0
  {
    AdjustedMove(rows, i, t);
  }

  /** The same on the closes themselves: after adjusting, two consecutive closes are strictly within 0.55
      and 1.8 of each other if and only if before it neither was 0 and they had one sign. */
  lemma BandByCloses(rows: seq<Bar>, i: int, t: int)
    requires Consecutive(rows, i, t)
    ensures rows[i].prices.close.Some? && rows[t].prices.close.Some?
    ensures Adjusted(rows)[i].prices.close.Some? && Adjusted(rows)[t].prices.close.Some?
    ensures var p, c := rows[i].prices.close.value, rows[t].prices.close.value;
            var p', c' := Adjusted(rows)[i].prices.close.value, Adjusted(rows)[t].prices.close.value;
            (p' != 0.0 && 0.55 < c' / p' < 1.8) <==> (p != 0.0 && c / p > 0.0)
  {
    BandIffPositive(rows, i, t);
    AdjustedClose(rows, i);
    AdjustedClose(rows, t);
    NonzeroTimes(Close(rows, i), Factor(rows, i));
  }

  lemma NonzeroTimes(a: real, f: real)
    requires f != 0.0
    ensures Times(a, f) != 0.0 <==> a != 0.0
  {
  }

  lemma PositiveCloses(p: real, c: real)
    requires p > 0.0 && c > 0.0
    ensures MoveOf(p, c).Ratio? && MoveOf(p, c).value > 0.0
  {
  }

  lemma PositiveClosesInBand(rows: seq<Bar>, i: int, t: int)
    requires Consecutive(rows, i, t) && Close(rows, i) > 0.0 && Close(rows, t) > 0.0
    ensures Consecutive(Adjusted(rows), i, t) && InBand(MoveAt(Adjusted(rows), i, t))
  {
    PositiveCloses(Close(rows, i), Close(rows, t));
    BandIffPositive(rows, i, t);
  }

  /** A second pass finds nothing to adjust, whatever the closes. */
  lemma NoEventAfter(rows: seq<Bar>, t: int)
    ensures !IsEvent(Adjusted(rows), t)
  {
    var out := Adjusted(rows);
    if 0 <= t < |rows| && Consecutive(out, Prev(out, t), t) {
      AdjustedConsecutive(rows, Prev(out, t), t);
      AdjustedMove(rows, Prev(out, t), t);
    }
  }

  lemma AdjustIdempotent(rows: seq<Bar>)
    ensures Adjusted(Adjusted(rows)) == Adjusted(rows)
  {
    var out := Adjusted(rows);
    forall i | 0 <= i < |rows| ensures Adjusted(out)[i] == out[i] {
      forall t | i < t < |rows| ensures !IsEvent(out, t) { NoEventAfter(rows, t); }
      LatestUnadjusted(out, i);
    }
  }

  lemma ScaleCancels(p: real, v: real, f: real)
    requires f != 0.0
    ensures Times(Times(p, f), Over(v, f)) == Times(p, v)
  {
    var w := v / f;
    assert w * f == v;
    Regroup(p, f, w);
  }

  /** A cell and its adjusted value make the same turnover with the bar's volumes. */
  ghost predicate SameTurnover(raw: Option<real>, adjusted: Option<real>, volume: real, adjustedVolume: real)
  {
    raw.Some? == adjusted.Some?
    && (raw.Some? ==> Times(adjusted.value, adjustedVolume) == Times(raw.value, volume))
  }

  /** Price times volume is conserved, bar by bar and in all four price columns. */
  lemma TurnoverConserved(rows: seq<Bar>, i: nat)
    requires i < |rows| && rows[i].prices.volume.Some?
    ensures var p, q := rows[i].prices, Adjusted(rows)[i].prices;
            && q.volume.Some?
            && SameTurnover(p.open, q.open, p.volume.value, q.volume.value)
            && SameTurnover(p.high, q.high, p.volume.value, q.volume.value)
            && SameTurnover(p.low, q.low, p.volume.value, q.volume.value)
            && SameTurnover(p.close, q.close, p.volume.value, q.volume.value)
  {
    var p, f := rows[i].prices, Factor(rows, i);
    if p.open.Some? { ScaleCancels(p.open.value, p.volume.value, f); }
    if p.high.Some? { ScaleCancels(p.high.value, p.volume.value, f); }
    if p.low.Some? { ScaleCancels(p.low.value, p.volume.value, f); }
    if p.close.Some? { ScaleCancels(p.close.value, p.volume.value, f); }
  }

  // ---------------------------------------------------------------------------------------
  // The loops
  // ---------------------------------------------------------------------------------------

  /** The events of segment `g` before row `n`, in row order, with their ratios. */
  ghost function EventsOf(rows: seq<Bar>, g: nat, n: nat): seq<(int, real)>
    requires n <= |rows|
  {
    if n == 0 then []
    else EventsOf(rows, g, n - 1) + if rows[n - 1].segment == g then EventAt(rows, n - 1) else []
  }

  /** The event recorded at row `t`, if there is one. */
  ghost function EventAt(rows: seq<Bar>, t: nat): seq<(int, real)>
    requires t < |rows|
  {
    if IsEvent(rows, t) then [(t, EventRatio(rows, t))] else []
  }

  ghost predicate IsEventOf(rows: seq<Bar>, e: (int, real))
  {
    0 <= e.0 < |rows| && IsEvent(rows, e.0) && e.1 == EventRatio(rows, e.0)
  }

  /** The events of the segments below `n`, segment by segment. */
  ghost function Events(rows: seq<Bar>, n: nat): seq<(int, real)>
  {
    if n == 0 then [] else Events(rows, n - 1) + EventsOf(rows, n - 1, |rows|)
  }

  /** Events of segment `g` at rows before `n`, in row order. */
  ghost predicate OneSegment(rows: seq<Bar>, r: seq<(int, real)>, g: nat, n: nat)
  {
    && (forall k | 0 <= k < |r| :: IsEventOf(rows, r[k]) && r[k].0 < n && rows[r[k].0].segment == g)
    && (forall j, k | 0 <= j < k < |r| :: r[j].0 < r[k].0)
  }

  /** Events of segments below `n`, first by segment, then by row. */
  ghost predicate BySegment(rows: seq<Bar>, r: seq<(int, real)>, n: nat)
  {
    && (forall k | 0 <= k < |r| :: IsEventOf(rows, r[k]) && rows[r[k].0].segment < n)
    && forall j, k | 0 <= j < k < |r| ::
         || rows[r[j].0].segment < rows[r[k].0].segment
         || (rows[r[j].0].segment == rows[r[k].0].segment && r[j].0 < r[k].0)
  }

  lemma SnocEvent(rows: seq<Bar>, r: seq<(int, real)>, g: nat, n: nat, e: seq<(int, real)>, whole: seq<(int, real)>)
    requires OneSegment(rows, r, g, n) && n < |rows| && e == if rows[n].segment == g then EventAt(rows, n) else []
    requires whole == r + e
    ensures OneSegment(rows, whole, g, n + 1)
  {
  }

  lemma {:induction false} EventsOfOne(rows: seq<Bar>, g: nat, n: nat, r: seq<(int, real)>)
    requires n <= |rows| && r == EventsOf(rows, g, n)
    ensures OneSegment(rows, r, g, n)
    decreases n
  {
    if n > 0 {
      var earlier := EventsOf(rows, g, n - 1);
      EventsOfOne(rows, g, n - 1, earlier);
      var e := EventsOfSnoc(rows, g, n - 1);
      SnocEvent(rows, earlier, g, n - 1, e, r);
    }
  }

  lemma EventsOfSnoc(rows: seq<Bar>, g: nat, n: nat) returns (e: seq<(int, real)>)
    requires n < |rows|
    ensures e == if rows[n].segment == g then EventAt(rows, n) else []
    ensures EventsOf(rows, g, n + 1) == EventsOf(rows, g, n) + e
  {
    e := if rows[n].segment == g then EventAt(rows, n) else [];
  }

  lemma JoinSegments(rows: seq<Bar>, a: seq<(int, real)>, b: seq<(int, real)>, g: nat)
    requires BySegment(rows, a, g) && OneSegment(rows, b, g, |rows|)
    ensures BySegment(rows, a + b, g + 1)
  {
  }

  lemma {:induction false} EventsSorted(rows: seq<Bar>, n: nat)
    ensures BySegment(rows, Events(rows, n), n)
  {
    if n > 0 {
      var earlier, own := Events(rows, n - 1), EventsOf(rows, n - 1, |rows|);
      EventsSorted(rows, n - 1);
      EventsOfOne(rows, n - 1, |rows|, own);
      JoinSegments(rows, earlier, own, n - 1);
      assert Events(rows, n) == earlier + own;
    }
  }

  lemma InEither<T>(whole: seq<T>, a: seq<T>, b: seq<T>, e: T)
    requires whole == a + b && (e in a || e in b)
    ensures e in whole
  {
  }

  lemma {:induction false} EventRecorded(rows: seq<Bar>, t: nat, n: nat, e: (int, real))
    requires t < n <= |rows| && e in EventAt(rows, t)
    ensures e in EventsOf(rows, rows[t].segment, n)
  {
    if t < n - 1 { EventRecorded(rows, t, n - 1, e); }
    var g := rows[t].segment;
    InEither(EventsOf(rows, g, n), EventsOf(rows, g, n - 1), if rows[n - 1].segment == g then EventAt(rows, n - 1) else [], e);
  }

  /** Some sequences one after the other. */
  ghost function Concatenated<T>(parts: seq<seq<T>>): seq<T>
  {
    if parts == [] then [] else Concatenated(parts[..|parts| - 1]) + parts[|parts| - 1]
  }

  lemma {:induction false} InConcatenated<T>(parts: seq<seq<T>>, g: nat, e: T)
    requires g < |parts| && e in parts[g]
    ensures e in Concatenated(parts)
  {
    var init := parts[..|parts| - 1];
    if g < |init| {
      assert init[g] == parts[g];
      InConcatenated(init, g, e);
    }
    InEither(Concatenated(parts), Concatenated(init), parts[|parts| - 1], e);
  }

  ghost function PerSegment(rows: seq<Bar>, n: nat): seq<seq<(int, real)>>
  {
    seq(n, g requires 0 <= g < n => EventsOf(rows, g, |rows|))
  }

  lemma {:induction false} EventsConcatenated(rows: seq<Bar>, n: nat)
    ensures Events(rows, n) == Concatenated(PerSegment(rows, n))
  {
    if n > 0 {
      EventsConcatenated(rows, n - 1);
      assert PerSegment(rows, n)[..n - 1] == PerSegment(rows, n - 1);
    }
  }

  lemma EventsComplete(rows: seq<Bar>, n: nat, g: nat, e: (int, real))
    requires g < n && e in EventsOf(rows, g, |rows|)
    ensures e in Events(rows, n)
  {
    EventsConcatenated(rows, n);
    InConcatenated(PerSegment(rows, n), g, e);
  }

  /** The recorded events are exactly those of the segments visited, by segment and row. */
  lemma EventsExact(rows: seq<Bar>, n: nat, e: (int, real))
    ensures BySegment(rows, Events(rows, n), n)
    ensures e in Events(rows, n) <==> IsEventOf(rows, e) && rows[e.0].segment < n
  {
    EventsSorted(rows, n);
    if IsEventOf(rows, e) && rows[e.0].segment < n {
      assert EventAt(rows, e.0) == [e];
      EventRecorded(rows, e.0, |rows|, e);
      EventsComplete(rows, n, rows[e.0].segment, e);
    }
  }

  /** With ordered segments the events are recorded in date order. */
  lemma GroupedEventsByDate(rows: seq<Bar>, n: nat, j: nat, k: nat)
    requires Grouped(rows) && j < k < |Events(rows, n)|
    ensures Events(rows, n)[j].0 < Events(rows, n)[k].0
  {
    EventsSorted(rows, n);
    var r := Events(rows, n);
    assert IsEventOf(rows, r[j]) && IsEventOf(rows, r[k]);
  }

  /** How far the later ratios of row `i` have been counted when the loops are at row `t` of
      segment `g`. */
  ghost function Horizon(rows: seq<Bar>, i: nat, g: nat, t: nat): (h: nat)
    requires i < |rows| && t <= |rows|
    ensures h <= |rows|
  {
    if rows[i].segment < g then |rows| else if rows[i].segment == g then t else 0
  }

  ghost predicate CountedAt(f: real, rows: seq<Bar>, i: nat, g: nat, t: nat)
    requires i < |rows| && t <= |rows|
  {
    f == Product(LaterRatios(rows, i, Horizon(rows, i, g, t)))
  }

  ghost predicate Counted(factor: seq<real>, rows: seq<Bar>, g: nat, t: nat)
  {
    && |factor| == |rows| && t <= |rows|
    && forall i | 0 <= i < |rows| :: CountedAt(factor[i], rows, i, g, t)
  }

  /** Multiplies the factor of the rows of segment `segment` before row `t`. */
  method Rescale(factor: array<real>, a: array<Bar>, segment: nat, t: nat, ratio: real)
    requires factor.Length == a.Length && t <= a.Length
    modifies factor
    ensures forall i | 0 <= i < factor.Length ::
              factor[i] == if i < t && a[i].segment == segment then Times(old(factor[i]), ratio) else old(factor[i])
  {
    for j := 0 to t
      invariant forall i | 0 <= i < factor.Length ::
                  factor[i] == if i < j && a[i].segment == segment then Times(old(factor[i]), ratio) else old(factor[i])
    {
      if a[j].segment == segment {
        factor[j] := Times(factor[j], ratio);
      }
    }
  }

  lemma EventCounted(rows: seq<Bar>, i: nat, t: nat)
    requires i < |rows| && t < |rows|
    ensures Product(LaterRatios(rows, i, t + 1))
         == if i < t && rows[i].segment == rows[t].segment && IsEvent(rows, t)
            then Times(Product(LaterRatios(rows, i, t)), EventRatio(rows, t))
            else Product(LaterRatios(rows, i, t))
  {
    if i < t && rows[i].segment == rows[t].segment && IsEvent(rows, t) {
      SnocProduct(LaterRatios(rows, i, t), EventRatio(rows, t));
    }
  }

  /** A row of another segment changes no count of segment `g`. */
  lemma OtherRowUncounted(factor: seq<real>, rows: seq<Bar>, g: nat, t: nat)
    requires t < |rows| && rows[t].segment != g && Counted(factor, rows, g, t)
    ensures Counted(factor, rows, g, t + 1)
  {
    forall i | 0 <= i < |rows| ensures CountedAt(factor[i], rows, i, g, t + 1) {
      assert CountedAt(factor[i], rows, i, g, t);
      if rows[i].segment == g { EventCounted(rows, i, t); }
    }
  }

  /** The factors once row `t` has been visited. */
  ghost predicate Rescaled(before: seq<real>, after: seq<real>, rows: seq<Bar>, t: nat)
    requires t < |rows| == |before| == |after|
  {
    forall i | 0 <= i < |rows| ::
      after[i] == if i < t && rows[i].segment == rows[t].segment && IsEvent(rows, t)
                  then Times(before[i], EventRatio(rows, t)) else before[i]
  }

  lemma OwnRowCounted(before: seq<real>, after: seq<real>, rows: seq<Bar>, t: nat)
    requires t < |rows| == |before| == |after|
    requires Counted(before, rows, rows[t].segment, t) && Rescaled(before, after, rows, t)
    ensures Counted(after, rows, rows[t].segment, t + 1)
  {
    var g := rows[t].segment;
    forall i | 0 <= i < |rows| ensures CountedAt(after[i], rows, i, g, t + 1) {
      assert CountedAt(before[i], rows, i, g, t);
      if rows[i].segment == g { EventCounted(rows, i, t); }
    }
  }

  /** The last row of segment `g` before `t` that has a close, or -1. */
  ghost predicate LastSeen(rows: seq<Bar>, g: nat, t: nat, last: int)
  {
    && t <= |rows| && -1 <= last < t
    && (last >= 0 ==> rows[last].segment == g && rows[last].prices.close.Some?)
    && (forall k | last < k < t && rows[k].segment == g :: rows[k].prices.close.None?)
  }

  lemma LastSeenIsPrev(rows: seq<Bar>, g: nat, t: nat, last: int)
    requires LastSeen(rows, g, t, last) && t < |rows| && rows[t].segment == g
    ensures Prev(rows, t) == last
  {
  }

  method CountRow(
    factor: array<real>, a: array<Bar>, t: nat, last: int, events: seq<(int, real)>) returns (recorded: seq<(int, real)>)
    requires t < a.Length && Counted(factor[..], a[..], a[t].segment, t) && factor.Length == a.Length
    requires last == Prev(a[..], t)
    modifies factor
    ensures Counted(factor[..], a[..], a[t].segment, t + 1)
    ensures recorded == events + EventAt(a[..], t)
  {
    ghost var rows, before := a[..], factor[..];
    recorded := events;
    if last >= 0 && a[t].prices.close.Some? {
      var move := MoveOf(a[last].prices.close.value, a[t].prices.close.value);
      if Jump(move) {
        Rescale(factor, a, a[t].segment, t, move.value);
        recorded := recorded + [(t as int, move.value)];
      }
    }
    assert Rescaled(before, factor[..], rows, t);
    OwnRowCounted(before, factor[..], rows, t);
  }

  /** Visits row `t` on behalf of segment `g`. */
  method VisitRow(factor: array<real>, a: array<Bar>, g: nat, t: nat, last: int, events: seq<(int, real)>)
    returns (last': int, recorded: seq<(int, real)>)
    requires t < a.Length && Counted(factor[..], a[..], g, t) && factor.Length == a.Length && LastSeen(a[..], g, t, last)
    modifies factor
    ensures Counted(factor[..], a[..], g, t + 1) && LastSeen(a[..], g, t + 1, last')
    ensures recorded == events + if a[t].segment == g then EventAt(a[..], t) else []
  {
    ghost var rows := a[..];
    last', recorded := last, events;
    if a[t].segment == g {
      LastSeenIsPrev(rows, g, t, last);
      recorded := CountRow(factor, a, t, last, events);
      if a[t].prices.close.Some? {
        last' := t;
      }
    } else {
      OtherRowUncounted(factor[..], rows, g, t);
    }
  }

  /** Counts the events of segment `g`. */
  method CountSegment(factor: array<real>, a: array<Bar>, g: nat, events: seq<(int, real)>)
    returns (recorded: seq<(int, real)>)
    requires Counted(factor[..], a[..], g, 0) && factor.Length == a.Length
    modifies factor
    ensures Counted(factor[..], a[..], g, a.Length)
    ensures recorded == events + EventsOf(a[..], g, a.Length)
  {
    recorded := events;
    var last: int := -1;
    for t := 0 to a.Length
      invariant Counted(factor[..], a[..], g, t) && recorded == events + EventsOf(a[..], g, t)
      invariant LastSeen(a[..], g, t, last)
    {
      last, recorded := VisitRow(factor, a, g, t, last, recorded);
    }
  }

  /** Between two segments nothing is left to count. */
  lemma NextSegment(factor: seq<real>, rows: seq<Bar>, g: nat)
    requires Counted(factor, rows, g, |rows|)
    ensures Counted(factor, rows, g + 1, 0)
  {
    forall i | 0 <= i < |rows| ensures CountedAt(factor[i], rows, i, g + 1, 0) {
      assert CountedAt(factor[i], rows, i, g, |rows|);
    }
  }

  method ContinuityFactors(a: array<Bar>) returns (factor: array<real>, events: seq<(int, real)>)
    ensures fresh(factor) && factor.Length == a.Length
    ensures forall i | 0 <= i < a.Length :: factor[i] == Factor(a[..], i)
    ensures events == Events(a[..], Top(a[..]))
  {
    ghost var rows := a[..];
    factor := new real[a.Length](i => 1.0);
    events := [];
    var n := SegmentsAbove(a);
    for g := 0 to n
      invariant Counted(factor[..], rows, g, 0) && events == Events(rows, g)
    {
      events := CountSegment(factor, a, g, events);
      NextSegment(factor[..], rows, g);
    }
    forall i | 0 <= i < a.Length ensures factor[i] == Factor(rows, i) {
      assert rows[i].segment < n && CountedAt(factor[..][i], rows, i, n, 0);
    }
  }

  /** Rescales every row of a copy. */
  method AdjustRows(a: array<Bar>, factor: array<real>) returns (out: array<Bar>)
    requires factor.Length == a.Length && forall k | 0 <= k < factor.Length :: factor[k] != 0.0
    ensures fresh(out) && out.Length == a.Length
    ensures forall k | 0 <= k < a.Length :: out[k] == AdjustBar(a[k], factor[k])
  {
    if a.Length == 0 { out := new Bar[0]; return; }
    var first := a[0];
    out := new Bar[a.Length](_ => first);
    for i := 0 to a.Length
      invariant forall k | 0 <= k < i :: out[k] == AdjustBar(a[k], factor[k])
    {
      out[i] := AdjustBar(a[i], factor[i]);
    }
  }

  /** `apply_adjusted_price_continuity`: the frame is adjusted in place of a copy. */
  method ApplyContinuity(a: array<Bar>) returns (out: array<Bar>, events: seq<(int, real)>)
    ensures fresh(out) && out[..] == Adjusted(a[..])
    ensures events == Events(a[..], Top(a[..]))
  {
    var factor: array<real>;
    factor, events := ContinuityFactors(a);
    forall k | 0 <= k < a.Length ensures factor[k] != 0.0 { assert factor[k] == Factor(a[..], k); }
    out := AdjustRows(a, factor);
    forall k | 0 <= k < a.Length ensures out[k] == Adjusted(a[..])[k] {
      assert factor[k] == Factor(a[..], k);
    }
  }
}
