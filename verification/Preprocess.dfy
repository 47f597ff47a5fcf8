/** One ticker's frame from calendar-aligned quotes to adjusted prices. */
module Preprocess {
  import opened Common
  import opened Segments
  import opened Halts
  import opened Adjust

  /** One row of the frame after it has been aligned to the trading calendar. */
  datatype Quote = Quote(prices: Prices, tradable: Option<bool>)

  /** The positions below `n` whose flag is set, in order. */
  ghost function Where(flags: seq<bool>, n: nat): (r: seq<int>)
    requires n <= |flags|
    ensures forall k | 0 <= k < |r| :: 0 <= r[k] < n && flags[r[k]]
    ensures forall j | 0 <= j < n && flags[j] :: j in r
    ensures Increasing(r)
  {
    if n == 0 then [] else if flags[n - 1] then Where(flags, n - 1) + [n - 1] else Where(flags, n - 1)
  }

  ghost function ObservedFlags(quotes: seq<Quote>): (r: seq<bool>)
    ensures |r| == |quotes| && forall i | 0 <= i < |r| :: r[i] == Observed(quotes[i].prices)
  {
    seq(|quotes|, i requires 0 <= i < |quotes| => Observed(quotes[i].prices))
  }

  /** Calendar positions with any price or volume. */
  ghost function ObservedAt(quotes: seq<Quote>): seq<int> { Where(ObservedFlags(quotes), |quotes|) }

  ghost function DatesAt(dates: seq<int>, at: seq<int>): (r: seq<int>)
    requires forall k | 0 <= k < |at| :: 0 <= at[k] < |dates|
    ensures |r| == |at| && forall k | 0 <= k < |at| :: r[k] == dates[at[k]]
  {
    seq(|at|, k requires 0 <= k < |at| => dates[at[k]])
  }

  /** The ticker's segments, from its listings or from its quotes. */
  ghost function SegmentsOf(t: Ticker): seq<Span>
    requires t.Aligned()
  {
    var at := ObservedAt(t.quotes);
    SegmentsFor(t.listings, t.start, t.end, DatesAt(t.dates, at), at, t.relistGap)
  }

  datatype Ticker = Ticker(
    dates: seq<int>, quotes: seq<Quote>, listings: seq<Listing>, start: int, end: int, relistGap: int)
  {
    ghost predicate Aligned() { |dates| == |quotes| && Increasing(dates) }
  }

  ghost function SegmentNumber(t: Ticker, date: int): nat
    requires t.Aligned()
  {
    Number(SegmentsOf(t), |SegmentsOf(t)|, date)
  }

  /** The segment number of every calendar row. */
  ghost function Numbers(t: Ticker): (r: seq<nat>)
    requires t.Aligned()
    ensures |r| == |t.dates| && forall i | 0 <= i < |r| :: r[i] == SegmentNumber(t, t.dates[i])
  {
    seq(|t.dates|, i requires 0 <= i < |t.dates| => SegmentNumber(t, t.dates[i]))
  }

  ghost function Positive(ids: seq<nat>): (r: seq<bool>)
    ensures |r| == |ids| && forall i | 0 <= i < |r| :: r[i] == (ids[i] > 0)
  {
    seq(|ids|, i requires 0 <= i < |ids| => ids[i] > 0)
  }

  /** Calendar positions that lie in some segment. */
  ghost function Kept(t: Ticker): seq<int>
    requires t.Aligned()
  {
    Where(Positive(Numbers(t)), |t.dates|)
  }

  function BarOf(q: Quote, segment: nat): Bar { Bar(segment, q.prices, q.tradable, false) }

  ghost function Bars(quotes: seq<Quote>, ids: seq<nat>, at: seq<int>): (r: seq<Bar>)
    requires |quotes| == |ids| && forall k | 0 <= k < |at| :: 0 <= at[k] < |ids|
    ensures |r| == |at| && forall k | 0 <= k < |r| :: r[k] == BarOf(quotes[at[k]], ids[at[k]])
  {
    seq(|at|, k requires 0 <= k < |at| => BarOf(quotes[at[k]], ids[at[k]]))
  }

  ghost function Frame(t: Ticker): seq<Bar>
    requires t.Aligned()
  {
    Bars(t.quotes, Numbers(t), Kept(t))
  }

  lemma SegmentsOrdered(t: Ticker)
    requires t.Aligned() && Successive(t.listings)
    ensures Ordered(SegmentsOf(t))
  {
    var at := ObservedAt(t.quotes);
    ClippingKeepsOrder(t.listings, t.start, t.end);
    SpansOrdered(DatesAt(t.dates, at), at, t.relistGap, |at|);
  }

  /** With listing windows in date order that do not overlap, and with inferred segments, segment
      numbers never decrease in the frame. */
  lemma FrameGrouped(t: Ticker)
    requires t.Aligned() && Successive(t.listings)
    ensures Grouped(Frame(t))
  {
    SegmentsOrdered(t);
    var at := Kept(t);
    forall a, b | 0 <= a < b < |at| ensures SegmentNumber(t, t.dates[at[a]]) <= SegmentNumber(t, t.dates[at[b]]) {
      assert at[a] < at[b];
      NumbersGrow(SegmentsOf(t), t.dates[at[a]], t.dates[at[b]]);
    }
  }

  lemma InferredNumber(t: Ticker, k: nat)
    requires t.Aligned() && ClippedAll(t.listings, t.start, t.end) == [] && k < |ObservedAt(t.quotes)|
    ensures SegmentNumber(t, t.dates[ObservedAt(t.quotes)[k]])
         == SegmentIndex(ObservedAt(t.quotes), t.relistGap, k) + 1
  {
    var at := ObservedAt(t.quotes);
    InferredNumbers(DatesAt(t.dates, at), at, t.relistGap, k);
  }

  /** The frame holds the quotes of its dates as they are, in calendar order, none of them marked as
      filled. */
  lemma FrameHoldsQuotes(t: Ticker, k: nat)
    requires t.Aligned() && k < |Frame(t)|
    ensures |Kept(t)| == |Frame(t)| && 0 <= Kept(t)[k] < |t.quotes|
    ensures var q, b := t.quotes[Kept(t)[k]], Frame(t)[k];
            && b.prices.open == q.prices.open && b.prices.high == q.prices.high && b.prices.low == q.prices.low
            && b.prices.close == q.prices.close && b.prices.volume == q.prices.volume
            && b.tradable == q.tradable && !b.haltFilled && b.segment > 0
    ensures k > 0 ==> t.dates[Kept(t)[k - 1]] < t.dates[Kept(t)[k]]
  {
    assert Positive(Numbers(t))[Kept(t)[k]];
  }

  /** Without a usable listing window no observed bar is dropped. */
  lemma InferenceKeepsObservations(t: Ticker, j: nat)
    requires t.Aligned() && ClippedAll(t.listings, t.start, t.end) == []
    requires j < |t.quotes| && Observed(t.quotes[j].prices)
    ensures j in Kept(t)
  {
    var at := ObservedAt(t.quotes);
    assert ObservedFlags(t.quotes)[j];
    var k :| 0 <= k < |at| && at[k] == j;
    InferredNumber(t, k);
    assert Positive(Numbers(t))[j];
  }

  /** Without a usable listing window, neighbouring observations get one segment number if and only
      if they are at most the relisting gap apart. */
  lemma InferenceSplitsAtGaps(t: Ticker, k: nat)
    requires t.Aligned() && ClippedAll(t.listings, t.start, t.end) == [] && k + 1 < |ObservedAt(t.quotes)|
    ensures SegmentNumber(t, t.dates[ObservedAt(t.quotes)[k]])
            == SegmentNumber(t, t.dates[ObservedAt(t.quotes)[k + 1]])
       <==> ObservedAt(t.quotes)[k + 1] - ObservedAt(t.quotes)[k] <= t.relistGap
  {
    InferredNumber(t, k);
    InferredNumber(t, k + 1);
  }

  /** With usable listing windows, the frame keeps exactly the listed dates of the period. */
  lemma ListingsKeepListedDates(t: Ticker, j: nat)
    requires t.Aligned() && ClippedAll(t.listings, t.start, t.end) != [] && j < |t.dates|
    ensures j in Kept(t)
       <==> t.start <= t.dates[j] <= t.end && exists w :: w in t.listings && Listed(w, t.dates[j])
  {
    var s, d := SegmentsOf(t), t.dates[j];
    ClippingIsExact(t.listings, t.start, t.end, d);
    var n := Number(s, |s|, d);
    assert n > 0 ==> s[n - 1] in s && Covers(s[n - 1], d);
    assert Positive(Numbers(t))[j] == (n > 0);
  }

  // ---------------------------------------------------------------------------------------
  // Filling and adjusting together
  // ---------------------------------------------------------------------------------------

  /** Row `u` is the row of its segment just before row `t`. */
  ghost predicate Follows(rows: seq<Bar>, u: int, t: int)
  {
    && 0 <= u < t < |rows| && rows[u].segment == rows[t].segment
    && forall k | u < k < t :: rows[k].segment != rows[t].segment
  }

  lemma {:induction false} RowBefore(rows: seq<Bar>, s: nat, t: nat, k: nat) returns (u: nat)
    requires s < k <= t < |rows| && rows[s].segment == rows[t].segment
    requires forall m | k <= m < t :: rows[m].segment != rows[t].segment
    ensures s <= u && Follows(rows, u, t)
    decreases k
  {
    if rows[k - 1].segment == rows[t].segment { u := k - 1; } else { u := RowBefore(rows, s, t, k - 1); }
  }

  /** The close of the row before decides, if it has one. */
  lemma EventAfterRow(rows: seq<Bar>, u: int, t: int)
    requires Follows(rows, u, t) && rows[u].prices.close.Some?
    ensures IsEvent(rows, t) <==> rows[t].prices.close.Some?
                                  && Jump(MoveOf(rows[u].prices.close.value, rows[t].prices.close.value))
  {
    assert Prev(rows, t) == u;
  }

  lemma SameCloseNoEvent(rows: seq<Bar>, u: int, t: int)
    requires Follows(rows, u, t) && rows[u].prices.close == rows[t].prices.close
    ensures !IsEvent(rows, t)
  {
    if rows[t].prices.close.Some? {
      var c := rows[t].prices.close.value;
      EventAfterRow(rows, u, t);
      if c != 0.0 { FlatMove(c); }
    }
  }

  lemma FilledSegments(rows: seq<Bar>, limit: int, i: nat)
    requires i < |rows|
    ensures FillBySegments(rows, limit)[i].segment == rows[i].segment
  {
    PassesKeepSegments(rows, limit, Top(rows), i);
  }

  lemma FilledFollows(rows: seq<Bar>, limit: int, u: int, t: int)
    requires Follows(rows, u, t)
    ensures Follows(FillBySegments(rows, limit), u, t)
  {
    forall k | 0 <= k < |rows| ensures FillBySegments(rows, limit)[k].segment == rows[k].segment {
      FilledSegments(rows, limit, k);
    }
  }

  /** Two rows of one run have the same run. */
  lemma RunShared(rows: seq<Bar>, i: nat, k: nat)
    requires SameRun(rows, i, k)
    ensures RunOf(rows, i) == RunOf(rows, k) && First(rows, i) == First(rows, k)
  {
    forall m ensures SameRun(rows, i, m) <==> SameRun(rows, k, m) {}
  }

  /** Rows of one run show the same prices. */
  lemma RunShowsOnePrice(rows: seq<Bar>, limit: int, u: nat, t: nat)
    requires SameRun(rows, u, t) && ShortRun(rows, limit, t)
    ensures FillBySegments(rows, limit)[u].prices == FillBySegments(rows, limit)[t].prices
  {
    RunShared(rows, u, t);
    SegmentwiseFill(rows, limit, u);
    SegmentwiseFill(rows, limit, t);
  }

  /** In every frame, a bar repeated through a halt is taken for a split only when it is the first of
      its run and the run is filled across a segment boundary. */
  lemma HaltsMakeNoEvents(rows: seq<Bar>, limit: int, t: nat)
    requires t < |rows| && ShortRun(rows, limit, t)
    ensures IsEvent(FillBySegments(rows, limit), t) ==> t == First(rows, t) && FillsAcross(rows, limit, t)
  {
    var out, s := FillBySegments(rows, limit), First(rows, t);
    assert SameRun(rows, t, t);
    if s < t {
      var u := RowBefore(rows, s, t, t);
      assert SameRun(rows, u, t);
      RunShowsOnePrice(rows, limit, u, t);
      FilledFollows(rows, limit, u, t);
      SameCloseNoEvent(out, u, t);
    } else if rows[s - 1].segment == rows[t].segment {
      FilledFromBefore(rows, limit, t);
      SegmentwiseFill(rows, limit, s - 1);
      SegmentwiseFill(rows, limit, t);
      FilledFollows(rows, limit, s - 1, t);
      SameCloseNoEvent(out, s - 1, t);
    }
  }

  /** With ordered segments no bar repeated through a halt is ever taken for a split: a run filled
      across a boundary then opens its segment. */
  lemma GroupedHaltsMakeNoEvents(rows: seq<Bar>, limit: int, t: nat)
    requires Grouped(rows) && t < |rows| && Fillable(rows, limit, t)
    ensures !IsEvent(Fill(rows, limit), t)
  {
    GroupedFill(rows, limit);
    GroupedShort(rows, limit, t);
    HaltsMakeNoEvents(rows, limit, t);
    var out := Fill(rows, limit);
    if FillsAcross(rows, limit, t) && t == First(rows, t) {
      forall k | 0 <= k < t ensures out[k].segment != out[t].segment {
        FilledSegments(rows, limit, k);
        FilledSegments(rows, limit, t);
        assert rows[k].segment <= rows[t - 1].segment <= rows[t].segment;
      }
      assert Prev(out, t) == -1;
    }
  }

  /** In every frame, the real bar after a filled halt is taken for a split if and only if its close
      jumps from the price the halt shows. */
  lemma EventAfterHaltIff(rows: seq<Bar>, limit: int, u: nat, t: nat)
    requires Follows(rows, u, t) && ShortRun(rows, limit, u) && !IsGap(rows[t])
    requires rows[SourceOf(rows, limit, u)].prices.close.Some?
    ensures IsEvent(FillBySegments(rows, limit), t)
       <==> rows[t].prices.close.Some?
            && Jump(MoveOf(rows[SourceOf(rows, limit, u)].prices.close.value, rows[t].prices.close.value))
  {
    SourceIsShown(rows, limit, u);
    SegmentwiseFill(rows, limit, t);
    FilledFollows(rows, limit, u, t);
    EventAfterRow(FillBySegments(rows, limit), u, t);
  }

  /** When no run is filled across a segment boundary, that price is the last tradable close of the
      bar's own segment. */
  lemma HaltShowsLastTradable(rows: seq<Bar>, limit: int, u: nat)
    requires u < |rows| && ShortRun(rows, limit, u) && !FillsAcross(rows, limit, u)
    ensures var k := SourceOf(rows, limit, u);
            && k < u && rows[k].segment == rows[u].segment && !IsGap(rows[k])
            && forall m | k < m <= u && rows[m].segment == rows[u].segment :: IsGap(rows[m])
  {
    assert SameRun(rows, u, u);
    FilledFromBefore(rows, limit, u);
  }

  /** A fill across a boundary fabricates a split at the next real bar: the ticker that comes back at
      7 is adjusted although it never moved. */
  lemma CrossingFabricatesSplit()
    ensures var rows := [Quoted(1, 100.0, 5.0), Quoted(2, 7.0, 0.0), Quoted(2, 7.0, 5.0)];
            Grouped(rows) && !IsEvent(rows, 2) && IsEvent(FillBySegments(rows, 1), 2)
  {
    var rows := [Quoted(1, 100.0, 5.0), Quoted(2, 7.0, 0.0), Quoted(2, 7.0, 5.0)];
    FillCrossesSegments();
    assert !IsGap(rows[0]) && !IsGap(rows[2]);
    assert Follows(rows, 1, 2);
    SameCloseNoEvent(rows, 1, 2);
    assert SourceOf(rows, 1, 1) == 0;
    SmallRatio();
    EventAfterHaltIff(rows, 1, 1, 2);
  }

  /** With overlapping listing windows the halt itself is taken for one. */
  lemma InterleavingFabricatesSplit()
    ensures var rows := [Quoted(1, 100.0, 5.0), Quoted(2, 7.0, 5.0), Quoted(1, 99.0, 0.0)];
            !IsEvent(rows, 2) && IsEvent(FillBySegments(rows, 1), 2)
  {
    var rows := [Quoted(1, 100.0, 5.0), Quoted(2, 7.0, 5.0), Quoted(1, 99.0, 0.0)];
    InterleavedFillCrosses();
    assert !IsGap(rows[0]);
    assert Follows(rows, 0, 2);
    EventAfterRow(rows, 0, 2);
    SegmentwiseFill(rows, 1, 0);
    FilledFollows(rows, 1, 0, 2);
    SmallRatio();
    EventAfterRow(FillBySegments(rows, 1), 0, 2);
  }

  lemma SmallRatio()
    ensures Jump(MoveOf(100.0, 7.0)) && !Jump(MoveOf(100.0, 99.0))
  {
    assert Adjust.Over(7.0, 100.0) == 0.07 && Adjust.Over(99.0, 100.0) == 0.99;
  }

  // ---------------------------------------------------------------------------------------
  // The pipeline
  // ---------------------------------------------------------------------------------------

  lemma DatesSnoc(dates: seq<int>, at: seq<int>, i: int)
    requires 0 <= i < |dates| && forall k | 0 <= k < |at| :: 0 <= at[k] < |dates|
    ensures DatesAt(dates, at + [i]) == DatesAt(dates, at) + [dates[i]]
  {
  }

  method ObservedRows(t: Ticker) returns (at: seq<int>, ds: seq<int>)
    requires t.Aligned()
    ensures at == ObservedAt(t.quotes) && ds == DatesAt(t.dates, at)
  {
    at, ds := [], [];
    ghost var flags := ObservedFlags(t.quotes);
    for i := 0 to |t.quotes|
      invariant at == Where(flags, i) && ds == DatesAt(t.dates, at)
    {
      if Observed(t.quotes[i].prices) {
        DatesSnoc(t.dates, at, i);
        at, ds := at + [i], ds + [t.dates[i]];
      }
    }
  }

  lemma BarsSnoc(quotes: seq<Quote>, ids: seq<nat>, at: seq<int>, i: int)
    requires |quotes| == |ids| && 0 <= i < |ids| && forall k | 0 <= k < |at| :: 0 <= at[k] < |ids|
    ensures Bars(quotes, ids, at + [i]) == Bars(quotes, ids, at) + [BarOf(quotes[i], ids[i])]
  {
  }

  /** The rows before `n` that lie in some segment. */
  ghost function KeptUpTo(quotes: seq<Quote>, ids: seq<nat>, n: nat): seq<Bar>
    requires n <= |quotes| == |ids|
  {
    if n == 0 then []
    else KeptUpTo(quotes, ids, n - 1) + if ids[n - 1] > 0 then [BarOf(quotes[n - 1], ids[n - 1])] else []
  }

  lemma {:induction false} KeptIsBars(quotes: seq<Quote>, ids: seq<nat>, n: nat)
    requires n <= |quotes| == |ids|
    ensures KeptUpTo(quotes, ids, n) == Bars(quotes, ids, Where(Positive(ids), n))
  {
    if n > 0 {
      KeptIsBars(quotes, ids, n - 1);
      if ids[n - 1] > 0 { BarsSnoc(quotes, ids, Where(Positive(ids), n - 1), n - 1); }
    }
  }

  /** Drops the rows outside every segment. */
  method KeptRows(quotes: seq<Quote>, ids: array<nat>) returns (kept: seq<Bar>)
    requires |quotes| == ids.Length
    ensures kept == Bars(quotes, ids[..], Where(Positive(ids[..]), ids.Length))
  {
    kept := [];
    for i := 0 to ids.Length
      invariant kept == KeptUpTo(quotes, ids[..], i)
    {
      if ids[i] > 0 {
        kept := kept + [BarOf(quotes[i], ids[i])];
      }
    }
    KeptIsBars(quotes, ids[..], ids.Length);
  }

  method BuildFrame(t: Ticker) returns (frame: array<Bar>)
    requires t.Aligned()
    ensures fresh(frame) && frame[..] == Frame(t)
  {
    var at, ds := ObservedRows(t);
    var segments := ListingSegments(t.listings, t.start, t.end, ds, at, t.relistGap);
    var ids := NumberSegments(t.dates, segments);
    assert ids[..] == Numbers(t);
    var kept := KeptRows(t.quotes, ids);
    frame := new Bar[|kept|](i requires 0 <= i < |kept| => kept[i]);
  }

  /** `preprocess_ticker_frame`: raw prices are halt-filled in place, adjusted prices returned beside
      them.  Prices from the adjusted feed are taken as they are. */
  method PreprocessTicker(t: Ticker, haltDays: int, adjustSplits: bool)
    returns (raw: array<Bar>, adjusted: array<Bar>, events: seq<(int, real)>)
    requires t.Aligned()
    ensures raw[..] == FillBySegments(Frame(t), haltDays)
    ensures Successive(t.listings) ==> raw[..] == Fill(Frame(t), haltDays)
    ensures adjusted[..] == if adjustSplits then Adjusted(raw[..]) else raw[..]
    ensures events == if adjustSplits then Events(raw[..], Top(raw[..])) else []
  {
    if Successive(t.listings) { FrameGrouped(t); }
    raw := BuildFrame(t);
    FillShortHalts(raw, haltDays);
    if adjustSplits {
      adjusted, events := ApplyContinuity(raw);
    } else {
      adjusted, events := raw, [];
    }
  }
}
