/** Listing segments of one ticker: clipped listing windows when there are any, otherwise inferred
    from the dates on which the ticker was observed. */
module Segments {
  import opened Common

  /** A closed interval of dates. */
  datatype Span = Span(first: int, last: int)

  predicate Covers(s: Span, date: int) { s.first <= date <= s.last }

  predicate Increasing(s: seq<int>) { forall a, b | 0 <= a < b < |s| :: s[a] < s[b] }

  /** Spans are non-empty, disjoint and in date order. */
  predicate Ordered(segments: seq<Span>)
  {
    && (forall b | 0 <= b < |segments| :: segments[b].first <= segments[b].last)
    && (forall a, b | 0 <= a < b < |segments| :: segments[a].last < segments[b].first)
  }

  // ---------------------------------------------------------------------------------------
  // Inference from observations
  // ---------------------------------------------------------------------------------------

  /** Does the `j`-th observation come too long after the one before it?  `observed` holds
      calendar positions. */
  predicate Relisted(observed: seq<int>, gap: int, j: int)
    requires 0 < j < |observed|
  {
    observed[j] - observed[j - 1] > gap
  }

  /** Adds the date `d` to the last segment, or as a segment of its own. */
  ghost function Extend(before: seq<Span>, d: int, relisted: bool): (r: seq<Span>)
    ensures |r| > 0 && r[|r| - 1].last == d
  {
    if relisted || before == [] then before + [Span(d, d)]
    else before[..|before| - 1] + [Span(before[|before| - 1].first, d)]
  }

  lemma ExtendOrdered(before: seq<Span>, d: int, relisted: bool)
    requires Ordered(before) && before != [] && before[|before| - 1].last < d
    ensures Ordered(Extend(before, d, relisted))
  {
  }

  lemma ExtendCovers(before: seq<Span>, d: int, relisted: bool, e: int, b: nat)
    requires Ordered(before) && before != [] && e <= before[|before| - 1].last < d
    requires b < |Extend(before, d, relisted)|
    ensures Covers(Extend(before, d, relisted)[b], e) <==> b < |before| && Covers(before[b], e)
  {
  }

  /** The segments of the first `n` observations. */
  ghost function Spans(dates: seq<int>, observed: seq<int>, gap: int, n: nat): (r: seq<Span>)
    requires n <= |observed| == |dates|
    ensures n > 0 ==> |r| > 0 && r[|r| - 1].last == dates[n - 1]
  {
    if n == 0 then []
    else Extend(Spans(dates, observed, gap, n - 1), dates[n - 1], n > 1 && Relisted(observed, gap, n - 1))
  }

  ghost function InferredSpans(dates: seq<int>, observed: seq<int>, gap: int): seq<Span>
    requires |dates| == |observed|
  {
    Spans(dates, observed, gap, |observed|)
  }

  /** The inference branch of `listing_segments`; `dates[j]` is the date of `observed[j]`. */
  method InferSegments(dates: seq<int>, observed: seq<int>, gap: int) returns (segments: seq<Span>)
    requires |dates| == |observed|
    ensures segments == InferredSpans(dates, observed, gap)
  {
    if |observed| == 0 { return []; }
    segments := [];
    var start, previous := 0, 0;
    for current := 1 to |observed|
      invariant previous == current - 1 && 0 <= start < current
      invariant segments + [Span(dates[start], dates[previous])] == Spans(dates, observed, gap, current)
    {
      ghost var open := segments + [Span(dates[start], dates[previous])];
      assert open[..|open| - 1] == segments;
      if observed[current] - observed[previous] > gap {
        segments := segments + [Span(dates[start], dates[previous])];
        start := current;
      }
      previous := current;
    }
    segments := segments + [Span(dates[start], dates[previous])];
  }

  ghost predicate Inputs(dates: seq<int>, observed: seq<int>)
  {
    |dates| == |observed| && Increasing(dates)
  }

  lemma {:induction false} SpansOrdered(dates: seq<int>, observed: seq<int>, gap: int, n: nat)
    requires Inputs(dates, observed) && n <= |observed|
    ensures Ordered(Spans(dates, observed, gap, n))
  {
    if n > 1 {
      SpansOrdered(dates, observed, gap, n - 1);
      assert dates[n - 2] < dates[n - 1];
      ExtendOrdered(Spans(dates, observed, gap, n - 1), dates[n - 1], Relisted(observed, gap, n - 1));
    }
  }

  /** Segments begin and end on observed dates. */
  lemma {:induction false} SpansEndObserved(dates: seq<int>, observed: seq<int>, gap: int, n: nat, s: Span)
    requires Inputs(dates, observed) && n <= |observed| && s in Spans(dates, observed, gap, n)
    ensures s.first in dates && s.last in dates
  {
    if n > 1 {
      var before := Spans(dates, observed, gap, n - 1);
      if s in before {
        SpansEndObserved(dates, observed, gap, n - 1, s);
      } else {
        SpansEndObserved(dates, observed, gap, n - 1, before[|before| - 1]);
      }
    }
  }

  /** The index of the segment of the `j`-th observation: the relistings at or before it. */
  ghost function SegmentIndex(observed: seq<int>, gap: int, j: nat): nat
    requires j < |observed|
  {
    if j == 0 then 0 else SegmentIndex(observed, gap, j - 1) + if Relisted(observed, gap, j) then 1 else 0
  }

  lemma {:induction false} SpansCount(dates: seq<int>, observed: seq<int>, gap: int, n: nat, j: nat)
    requires |dates| == |observed| && j < n <= |observed|
    ensures |Spans(dates, observed, gap, n)| == SegmentIndex(observed, gap, n - 1) + 1
    ensures SegmentIndex(observed, gap, j) <= SegmentIndex(observed, gap, n - 1)
  {
    if n > 1 { SpansCount(dates, observed, gap, n - 1, if j < n - 1 then j else 0); }
  }

  /** Every observed date lies in exactly one segment, the one with index `SegmentIndex`. */
  lemma {:induction false} ObservedInExactlyOne(
    dates: seq<int>, observed: seq<int>, gap: int, n: nat, j: nat, b: nat)
    requires Inputs(dates, observed) && j < n <= |observed| && b < |Spans(dates, observed, gap, n)|
    ensures Covers(Spans(dates, observed, gap, n)[b], dates[j]) <==> b == SegmentIndex(observed, gap, j)
  {
    if j == n - 1 {
      LastInLastSpan(dates, observed, gap, n, b);
    } else {
      SpansCount(dates, observed, gap, n - 1, j);
      EarlierKept(dates, observed, gap, n, j, b);
      if b < |Spans(dates, observed, gap, n - 1)| {
        ObservedInExactlyOne(dates, observed, gap, n - 1, j, b);
      }
    }
  }

  /** One more observation does not change which segment covers an earlier one. */
  lemma EarlierKept(dates: seq<int>, observed: seq<int>, gap: int, n: nat, j: nat, b: nat)
    requires Inputs(dates, observed) && j < n - 1 < |observed| && b < |Spans(dates, observed, gap, n)|
    ensures Covers(Spans(dates, observed, gap, n)[b], dates[j])
       <==> b < |Spans(dates, observed, gap, n - 1)| && Covers(Spans(dates, observed, gap, n - 1)[b], dates[j])
  {
    SpansOrdered(dates, observed, gap, n - 1);
    assert dates[j] <= dates[n - 2] < dates[n - 1];
    ExtendCovers(Spans(dates, observed, gap, n - 1), dates[n - 1], Relisted(observed, gap, n - 1), dates[j], b);
  }

  lemma LastInLastSpan(dates: seq<int>, observed: seq<int>, gap: int, n: nat, b: nat)
    requires Inputs(dates, observed) && 0 < n <= |observed| && b < |Spans(dates, observed, gap, n)|
    ensures Covers(Spans(dates, observed, gap, n)[b], dates[n - 1]) <==> b == SegmentIndex(observed, gap, n - 1)
  {
    SpansCount(dates, observed, gap, n, n - 1);
    SpansOrdered(dates, observed, gap, n);
  }

  /** Neighbouring observations share a segment if and only if their distance on the calendar is at
      most the relisting gap. */
  lemma NeighboursShareIffClose(dates: seq<int>, observed: seq<int>, gap: int, j: nat)
    requires Inputs(dates, observed) && j + 1 < |observed|
    ensures (exists b :: 0 <= b < |InferredSpans(dates, observed, gap)|
                         && Covers(InferredSpans(dates, observed, gap)[b], dates[j])
                         && Covers(InferredSpans(dates, observed, gap)[b], dates[j + 1]))
       <==> observed[j + 1] - observed[j] <= gap
  {
    var s, n := InferredSpans(dates, observed, gap), |observed|;
    var k, l := SegmentIndex(observed, gap, j), SegmentIndex(observed, gap, j + 1);
    SpansCount(dates, observed, gap, n, j);
    forall b | 0 <= b < |s|
      ensures Covers(s[b], dates[j]) <==> b == k
      ensures Covers(s[b], dates[j + 1]) <==> b == l
    {
      ObservedInExactlyOne(dates, observed, gap, n, j, b);
      ObservedInExactlyOne(dates, observed, gap, n, j + 1, b);
    }
    if k == l {
      assert Covers(s[k], dates[j]) && Covers(s[k], dates[j + 1]);
    }
  }

  // ---------------------------------------------------------------------------------------
  // Listing windows
  // ---------------------------------------------------------------------------------------

  /** A row of the listing history; no `until` means still listed. */
  datatype Listing = Listing(from: int, until: Option<int>)

  function Clipped(w: Listing, start: int, end: int): Span
  {
    var last := if w.until.Some? then w.until.value else end;
    Span(if w.from < start then start else w.from, if last < end then last else end)
  }

  ghost function ClippedAll(ws: seq<Listing>, start: int, end: int): seq<Span>
  {
    if ws == [] then []
    else
      var c := Clipped(ws[|ws| - 1], start, end);
      ClippedAll(ws[..|ws| - 1], start, end) + if c.first <= c.last then [c] else []
  }

  method ClipListings(ws: seq<Listing>, start: int, end: int) returns (segments: seq<Span>)
    ensures segments == ClippedAll(ws, start, end)
  {
    segments := [];
    for i := 0 to |ws|
      invariant segments == ClippedAll(ws[..i], start, end)
    {
      assert ws[..i + 1][..i] == ws[..i];
      var c := Clipped(ws[i], start, end);
      if c.first <= c.last {
        segments := segments + [c];
      }
    }
    assert ws[..|ws|] == ws;
  }

  ghost predicate Listed(w: Listing, date: int)
  {
    w.from <= date && (w.until.Some? ==> date <= w.until.value)
  }

  /** Clipping keeps exactly the listed dates of the requested period. */
  lemma {:induction false} ClippingIsExact(ws: seq<Listing>, start: int, end: int, date: int)
    ensures (exists s :: s in ClippedAll(ws, start, end) && Covers(s, date))
       <==> start <= date <= end && exists w :: w in ws && Listed(w, date)
  {
    if ws != [] {
      var init, last := ws[..|ws| - 1], ws[|ws| - 1];
      assert forall w :: w in ws <==> w in init || w == last;
      ClippingIsExact(init, start, end, date);
      ClippedLast(last, start, end, date);
    }
  }

  lemma ClippedLast(w: Listing, start: int, end: int, date: int)
    ensures Covers(Clipped(w, start, end), date) <==> start <= date <= end && Listed(w, date)
  {
  }

  /** Consecutive listings, each closed before the next begins. */
  ghost predicate Successive(ws: seq<Listing>)
  {
    forall a, b | 0 <= a < b < |ws| :: ws[a].until.Some? && ws[a].until.value < ws[b].from
  }

  lemma {:induction false} ClippingKeepsOrder(ws: seq<Listing>, start: int, end: int)
    requires Successive(ws)
    ensures Ordered(ClippedAll(ws, start, end))
  {
    if ws != [] {
      var init, c := ws[..|ws| - 1], Clipped(ws[|ws| - 1], start, end);
      ClippingKeepsOrder(init, start, end);
      var r := ClippedAll(init, start, end);
      forall x | 0 <= x < |r| ensures r[x].last < c.first {
        ClippedFrom(init, start, end, r[x]);
      }
    }
  }

  lemma {:induction false} ClippedFrom(ws: seq<Listing>, start: int, end: int, s: Span)
    requires s in ClippedAll(ws, start, end)
    ensures exists a :: 0 <= a < |ws| && s == Clipped(ws[a], start, end)
  {
    var init, last := ws[..|ws| - 1], ws[|ws| - 1];
    if s in ClippedAll(init, start, end) {
      ClippedFrom(init, start, end, s);
      var a :| 0 <= a < |init| && s == Clipped(init[a], start, end);
      assert ws[a] == init[a];
    } else {
      assert s == Clipped(ws[|ws| - 1], start, end);
    }
  }

  /** `listing_segments`: inference is the fallback when no listing window survives clipping. */
  method ListingSegments(ws: seq<Listing>, start: int, end: int, dates: seq<int>, observed: seq<int>, gap: int)
    returns (segments: seq<Span>)
    requires |dates| == |observed|
    ensures segments == SegmentsFor(ws, start, end, dates, observed, gap)
  {
    if |ws| > 0 {
      segments := ClipListings(ws, start, end);
      if |segments| > 0 { return; }
    }
    segments := InferSegments(dates, observed, gap);
  }

  ghost function SegmentsFor(
    ws: seq<Listing>, start: int, end: int, dates: seq<int>, observed: seq<int>, gap: int): seq<Span>
    requires |dates| == |observed|
  {
    if ClippedAll(ws, start, end) != [] then ClippedAll(ws, start, end) else InferredSpans(dates, observed, gap)
  }

  // ---------------------------------------------------------------------------------------
  // Segment numbers
  // ---------------------------------------------------------------------------------------

  /** The number, from 1, of the last of the first `n` segments covering `date`; 0 when none does. */
  ghost function Number(segments: seq<Span>, n: nat, date: int): (k: nat)
    requires n <= |segments|
    ensures k <= n
    ensures k > 0 ==> Covers(segments[k - 1], date)
    ensures forall b | k <= b < n :: !Covers(segments[b], date)
  {
    if n == 0 then 0 else if Covers(segments[n - 1], date) then n else Number(segments, n - 1, date)
  }

  /** Each segment in turn overwrites the number of the dates it covers. */
  method NumberSegments(dates: seq<int>, segments: seq<Span>) returns (ids: array<nat>)
    ensures fresh(ids) && ids.Length == |dates|
    ensures forall i | 0 <= i < |dates| :: ids[i] == Number(segments, |segments|, dates[i])
  {
    ids := new nat[|dates|](i => 0);
    for b := 0 to |segments|
      invariant forall i | 0 <= i < |dates| :: ids[i] == Number(segments, b, dates[i])
    {
      for i := 0 to |dates|
        invariant forall j | 0 <= j < i :: ids[j] == Number(segments, b + 1, dates[j])
        invariant forall j | i <= j < |dates| :: ids[j] == Number(segments, b, dates[j])
      {
        if Covers(segments[b], dates[i]) {
          ids[i] := b + 1;
        }
      }
    }
  }

  /** With ordered segments, numbers never decrease along the calendar. */
  lemma NumbersGrow(segments: seq<Span>, d: int, e: int)
    requires Ordered(segments) && d <= e
    requires Number(segments, |segments|, d) > 0 && Number(segments, |segments|, e) > 0
    ensures Number(segments, |segments|, d) <= Number(segments, |segments|, e)
  {
    forall a, b | 0 <= b < a < |segments| ensures !(Covers(segments[a], d) && Covers(segments[b], e)) {
    }
  }

  /** No observed date is lost to the inferred segments, and its number is that of its segment. */
  lemma InferredNumbers(dates: seq<int>, observed: seq<int>, gap: int, j: nat)
    requires Inputs(dates, observed) && j < |observed|
    ensures var s := InferredSpans(dates, observed, gap);
            Number(s, |s|, dates[j]) == SegmentIndex(observed, gap, j) + 1
  {
    var s, n := InferredSpans(dates, observed, gap), |observed|;
    var k := SegmentIndex(observed, gap, j);
    SpansCount(dates, observed, gap, n, j);
    ObservedInExactlyOne(dates, observed, gap, n, j, k);
    var found := Number(s, |s|, dates[j]);
    assert Covers(s[k], dates[j]);
    assert found > k;
    ObservedInExactlyOne(dates, observed, gap, n, j, found - 1);
  }
}
