/** Forward filling of short trading halts, in place, segment by segment. */
module Halts {
  import opened Common
  import opened Segments

  datatype Prices = Prices(
    open: Option<real>, high: Option<real>, low: Option<real>, close: Option<real>, volume: Option<real>)

  /** A missing cell (NaN) is `None`. */
  datatype Bar = Bar(segment: nat, prices: Prices, tradable: Option<bool>, haltFilled: bool)

  predicate Observed(p: Prices)
  {
    p.open.Some? || p.high.Some? || p.low.Some? || p.close.Some? || p.volume.Some?
  }

  predicate IsGap(b: Bar)
  {
    || !Observed(b.prices)
    || (if b.prices.volume.Some? then b.prices.volume.value else 0.0) <= 0.0
    || b.tradable == Some(false)
  }

  function Patched(b: Bar, p: Prices): Bar { b.(prices := p, haltFilled := true) }

  /** Row `i` continues the gap run of the row before it. */
  ghost predicate Joined(rows: seq<Bar>, i: int)
  {
    0 < i < |rows| && rows[i - 1].segment == rows[i].segment && IsGap(rows[i - 1]) && IsGap(rows[i])
  }

  /** `[s, e)` is a maximal run of gap rows of one segment. */
  ghost predicate Run(rows: seq<Bar>, s: int, e: int)
  {
    && 0 <= s < e <= |rows| && IsGap(rows[s])
    && (forall k | s < k < e :: Joined(rows, k))
    && !Joined(rows, s) && !Joined(rows, e)
  }

  ghost function RunStart(rows: seq<Bar>, i: nat): (s: nat)
    ensures s <= i && !Joined(rows, s)
    ensures forall k | s < k <= i :: Joined(rows, k)
  {
    if Joined(rows, i) then RunStart(rows, i - 1) else i
  }

  ghost function RunEnd(rows: seq<Bar>, i: nat): (e: nat)
    requires i < |rows|
    ensures i < e <= |rows| && !Joined(rows, e)
    ensures forall k | i < k < e :: Joined(rows, k)
    decreases |rows| - i
  {
    if Joined(rows, i + 1) then RunEnd(rows, i + 1) else i + 1
  }

  /** In a run that is short enough and does not open the frame. */
  ghost predicate Fillable(rows: seq<Bar>, limit: int, i: nat)
    requires i < |rows|
  {
    IsGap(rows[i]) && RunStart(rows, i) > 0 && RunEnd(rows, i) - RunStart(rows, i) <= limit
  }

  ghost function FillRow(rows: seq<Bar>, limit: int, i: nat): (r: Bar)
    requires i < |rows|
    ensures r.segment == rows[i].segment && r.tradable == rows[i].tradable
    ensures !Fillable(rows, limit, i) ==> r == rows[i]
  {
    if Fillable(rows, limit, i) then Patched(rows[i], FillRow(rows, limit, RunStart(rows, i) - 1).prices)
    else rows[i]
  }

  ghost function Fill(rows: seq<Bar>, limit: int): (r: seq<Bar>)
    ensures |r| == |rows|
  {
    seq(|rows|, i requires 0 <= i < |rows| => FillRow(rows, limit, i))
  }

  // ---------------------------------------------------------------------------------------
  // What filling means
  // ---------------------------------------------------------------------------------------

  /** The run containing a gap row is the only one that does. */
  lemma RunOfRow(rows: seq<Bar>, s: int, e: int, i: int)
    requires Run(rows, s, e) && s <= i < e
    ensures RunStart(rows, i) == s && RunEnd(rows, i) == e && IsGap(rows[i])
  {
    assert i == s || Joined(rows, i);
    var a, b := RunStart(rows, i), RunEnd(rows, i);
    assert a > s ==> Joined(rows, a);
    assert a < s ==> Joined(rows, s);
    assert b > e ==> Joined(rows, e);
    assert b < e ==> Joined(rows, b);
  }

  lemma RowHasRun(rows: seq<Bar>, i: nat)
    requires i < |rows| && IsGap(rows[i])
    ensures Run(rows, RunStart(rows, i), RunEnd(rows, i))
  {
    var s := RunStart(rows, i);
    assert s < i ==> Joined(rows, s + 1);
  }

  /** The effect of filling, run by run: bars outside gap runs are untouched, runs within the
      limit repeat the row just before them, longer runs and a run at the start of the frame are
      left alone. */
  ghost predicate FilledAsPromised(rows: seq<Bar>, limit: int, out: seq<Bar>)
  {
    && |out| == |rows|
    && (forall i | 0 <= i < |rows| && !IsGap(rows[i]) :: out[i] == rows[i])
    && (forall s, e | Run(rows, s, e) :: RunTreated(rows, limit, out, s, e))
  }

  ghost predicate RunTreated(rows: seq<Bar>, limit: int, out: seq<Bar>, s: int, e: int)
    requires Run(rows, s, e) && |out| == |rows|
  {
    forall i | s <= i < e ::
      out[i] == if s > 0 && e - s <= limit then Patched(rows[i], out[s - 1].prices) else rows[i]
  }

  /** Every row of a run gets the same treatment. */
  lemma RunRow(rows: seq<Bar>, limit: int, s: int, e: int, k: int)
    requires Run(rows, s, e) && s <= k < e
    ensures FillRow(rows, limit, k)
         == if s > 0 && e - s <= limit then Patched(rows[k], FillRow(rows, limit, s - 1).prices) else rows[k]
  {
    RunOfRow(rows, s, e, k);
  }

  lemma FillKeepsPromise(rows: seq<Bar>, limit: int)
    ensures FilledAsPromised(rows, limit, Fill(rows, limit))
  {
    forall s, e | Run(rows, s, e) ensures RunTreated(rows, limit, Fill(rows, limit), s, e) {
      FillTreatsRun(rows, limit, s, e);
    }
    forall i | 0 <= i < |rows| && !IsGap(rows[i]) ensures Fill(rows, limit)[i] == rows[i] {
      assert !Fillable(rows, limit, i);
    }
  }

  lemma FillTreatsRun(rows: seq<Bar>, limit: int, s: int, e: int)
    requires Run(rows, s, e)
    ensures RunTreated(rows, limit, Fill(rows, limit), s, e)
  {
    var out := Fill(rows, limit);
    forall i | s <= i < e
      ensures out[i] == if s > 0 && e - s <= limit then Patched(rows[i], out[s - 1].prices) else rows[i]
    {
      RunRow(rows, limit, s, e, i);
      assert out[i] == FillRow(rows, limit, i);
      if s > 0 { assert out[s - 1] == FillRow(rows, limit, s - 1); }
    }
  }

  lemma {:induction false} PromiseAtRow(rows: seq<Bar>, limit: int, out: seq<Bar>, i: nat)
    requires FilledAsPromised(rows, limit, out) && i < |rows|
    ensures out[i] == FillRow(rows, limit, i)
    decreases i
  {
    if IsGap(rows[i]) {
      var s, e := RunStart(rows, i), RunEnd(rows, i);
      RowHasRun(rows, i);
      assert RunTreated(rows, limit, out, s, e);
      if s > 0 {
        PromiseAtRow(rows, limit, out, s - 1);
      }
    }
  }

  /** The promise determines the filled frame. */
  lemma FillIsThePromise(rows: seq<Bar>, limit: int, out: seq<Bar>)
    ensures FilledAsPromised(rows, limit, out) <==> out == Fill(rows, limit)
  {
    FillKeepsPromise(rows, limit);
    if FilledAsPromised(rows, limit, out) {
      forall i | 0 <= i < |rows| ensures out[i] == Fill(rows, limit)[i] {
        PromiseAtRow(rows, limit, out, i);
      }
    }
  }

  /** Unless its run opens a segment, a filled row repeats the last tradable bar before it. */
  lemma FilledFromLastTradable(rows: seq<Bar>, limit: int, i: nat, last: nat)
    requires i < |rows| && Fillable(rows, limit, i)
    requires last < i && !IsGap(rows[last]) && forall k | last < k <= i :: IsGap(rows[k])
    requires forall k | last <= k <= i :: rows[k].segment == rows[i].segment
    ensures Fill(rows, limit)[i] == Patched(rows[i], rows[last].prices)
  {
    var s := RunStart(rows, i);
    assert s > last + 1 ==> Joined(rows, s);
    assert s <= last ==> Joined(rows, last + 1);
  }

  // ---------------------------------------------------------------------------------------
  // Frames with ordered segments
  // ---------------------------------------------------------------------------------------

  /** Segment numbers never decrease, so grouping by segment visits blocks of rows in order. */
  ghost predicate Grouped(rows: seq<Bar>)
  {
    forall a, b | 0 <= a < b < |rows| :: rows[a].segment <= rows[b].segment
  }

  /** The rows of a run lie in one segment. */
  lemma {:induction false} RunInSegment(rows: seq<Bar>, i: nat)
    requires i < |rows|
    ensures rows[RunStart(rows, i)].segment == rows[i].segment
    ensures IsGap(rows[i]) ==> IsGap(rows[RunStart(rows, i)])
  {
    if Joined(rows, i) { RunInSegment(rows, i - 1); }
  }

  // ---------------------------------------------------------------------------------------
  // Filling twice is filling once
  // ---------------------------------------------------------------------------------------

  /** No new joints appear, and unfilled rows keep theirs. */
  lemma JointsAfter(rows: seq<Bar>, limit: int, k: int)
    ensures Joined(Fill(rows, limit), k) ==> Joined(rows, k)
  {
    if 0 < k < |rows| && !Joined(rows, k) && rows[k - 1].segment == rows[k].segment {
      assert !IsGap(rows[k - 1]) || !IsGap(rows[k]);
    }
  }

  lemma SameRunStart(rows: seq<Bar>, other: seq<Bar>, i: nat)
    requires forall k | RunStart(rows, i) < k <= i :: Joined(other, k)
    requires !Joined(other, RunStart(rows, i))
    ensures RunStart(other, i) == RunStart(rows, i)
  {
    var s, t := RunStart(rows, i), RunStart(other, i);
    assert t > s ==> Joined(other, t);
    assert t < s ==> Joined(other, s);
  }

  lemma SameRunEnd(rows: seq<Bar>, other: seq<Bar>, i: nat)
    requires i < |rows| == |other|
    requires forall k | i < k < RunEnd(rows, i) :: Joined(other, k)
    requires !Joined(other, RunEnd(rows, i))
    ensures RunEnd(other, i) == RunEnd(rows, i)
  {
    var s, t := RunEnd(rows, i), RunEnd(other, i);
    assert t < s ==> Joined(other, t);
    assert t > s ==> Joined(other, s);
  }

  /** Rows of one run share their fate. */
  lemma RunSharesFate(rows: seq<Bar>, limit: int, i: nat, k: nat)
    requires i < |rows| && IsGap(rows[i]) && RunStart(rows, i) <= k < RunEnd(rows, i)
    ensures RunStart(rows, k) == RunStart(rows, i) && RunEnd(rows, k) == RunEnd(rows, i)
    ensures Fillable(rows, limit, k) == Fillable(rows, limit, i)
    ensures Fillable(rows, limit, i) ==> FillRow(rows, limit, k).prices == FillRow(rows, limit, i).prices
  {
    RowHasRun(rows, i);
    RunOfRow(rows, RunStart(rows, i), RunEnd(rows, i), k);
    RunOfRow(rows, RunStart(rows, i), RunEnd(rows, i), i);
  }

  /** A run that was not filled is a run of the filled frame, and again not filled. */
  lemma UnfilledStays(rows: seq<Bar>, limit: int, i: nat)
    requires i < |rows| && IsGap(rows[i]) && !Fillable(rows, limit, i)
    ensures !Fillable(Fill(rows, limit), limit, i)
  {
    var out, s, e := Fill(rows, limit), RunStart(rows, i), RunEnd(rows, i);
    forall k | s <= k < e ensures out[k] == rows[k] {
      RunSharesFate(rows, limit, i, k);
    }
    forall k | s < k < e ensures Joined(out, k) {
      assert Joined(rows, k);
    }
    JointsAfter(rows, limit, s);
    JointsAfter(rows, limit, e);
    SameRunStart(rows, out, i);
    SameRunEnd(rows, out, i);
  }

  /** A filled row's run in the filled frame does not begin before the run it was filled in. */
  lemma RunShrinks(rows: seq<Bar>, limit: int, i: nat)
    requires i < |rows|
    ensures RunStart(rows, i) <= RunStart(Fill(rows, limit), i)
  {
    JointsAfter(rows, limit, RunStart(rows, i));
  }

  lemma FilledFromRunStart(rows: seq<Bar>, limit: int, i: nat)
    requires i < |rows| && Fillable(rows, limit, i)
    ensures FillRow(rows, limit, RunStart(rows, i) - 1).prices == FillRow(rows, limit, i).prices
  {
  }

  /** The row before any later part of a filled run holds the same prices. */
  lemma SourceAgrees(rows: seq<Bar>, limit: int, i: nat, t: nat)
    requires i < |rows| && Fillable(rows, limit, i) && RunStart(rows, i) <= t <= i
    ensures t > 0 && FillRow(rows, limit, t - 1).prices == FillRow(rows, limit, i).prices
  {
    if t > RunStart(rows, i) {
      RunSharesFate(rows, limit, i, t - 1);
    } else {
      FilledFromRunStart(rows, limit, i);
    }
  }

  lemma {:induction false} RefillRow(rows: seq<Bar>, limit: int, i: nat)
    requires i < |rows|
    ensures FillRow(Fill(rows, limit), limit, i) == FillRow(rows, limit, i)
    decreases i
  {
    var out := Fill(rows, limit);
    assert out[i] == FillRow(rows, limit, i);
    if Fillable(out, limit, i) {
      if !Fillable(rows, limit, i) {
        assert IsGap(rows[i]);
        UnfilledStays(rows, limit, i);
      } else {
        var t := RunStart(out, i);
        RefillRow(rows, limit, t - 1);
        RunShrinks(rows, limit, i);
        SourceAgrees(rows, limit, i, t);
        assert out[i].haltFilled;
      }
    }
  }

  lemma FillIdempotent(rows: seq<Bar>, limit: int)
    ensures Fill(Fill(rows, limit), limit) == Fill(rows, limit)
  {
    var out := Fill(rows, limit);
    forall i | 0 <= i < |rows| ensures Fill(out, limit)[i] == out[i] {
      RefillRow(rows, limit, i);
    }
  }

  // ---------------------------------------------------------------------------------------
  // Segment by segment, for frames whose segments may interleave
  // ---------------------------------------------------------------------------------------

  /** Rows `i` and `k` are gaps of one segment, and so is every row of that segment between them. */
  ghost predicate SameRun(rows: seq<Bar>, i: int, k: int)
  {
    && 0 <= i < |rows| && 0 <= k < |rows| && rows[i].segment == rows[k].segment && IsGap(rows[i]) && IsGap(rows[k])
    && (forall m | (i < m < k || k < m < i) && rows[m].segment == rows[i].segment :: IsGap(rows[m]))
  }

  ghost function RunOf(rows: seq<Bar>, i: int): set<int> { set k | 0 <= k < |rows| && SameRun(rows, i, k) }

  ghost function FirstFrom(rows: seq<Bar>, i: nat, k: nat): (f: nat)
    requires i < |rows| && IsGap(rows[i]) && k <= i && forall m | 0 <= m < k :: !SameRun(rows, i, m)
    ensures SameRun(rows, i, f) && forall m | SameRun(rows, i, m) :: f <= m
    decreases i - k
  {
    if SameRun(rows, i, k) then k else FirstFrom(rows, i, k + 1)
  }

  /** The first row of the run of row `i`. */
  ghost function First(rows: seq<Bar>, i: nat): (f: nat)
    requires i < |rows| && IsGap(rows[i])
    ensures SameRun(rows, i, f) && forall m | SameRun(rows, i, m) :: f <= m
  {
    FirstFrom(rows, i, 0)
  }

  ghost predicate ShortRun(rows: seq<Bar>, limit: int, i: int)
  {
    0 <= i < |rows| && IsGap(rows[i]) && First(rows, i) > 0 && |RunOf(rows, i)| <= limit
  }

  ghost function PassRow(rows: seq<Bar>, f: seq<Bar>, limit: int, g: nat, i: nat): (r: Bar)
    requires i < |f| == |rows|
    ensures r.segment == f[i].segment
    ensures rows[i].segment != g || !ShortRun(rows, limit, i) ==> r == f[i]
  {
    if rows[i].segment == g && ShortRun(rows, limit, i) then Patched(f[i], f[First(rows, i) - 1].prices) else f[i]
  }

  /** What filling segment `g` makes of a frame `f` that started as `rows`. */
  ghost function Pass(rows: seq<Bar>, f: seq<Bar>, limit: int, g: nat): (r: seq<Bar>)
    requires |f| == |rows|
    ensures |r| == |rows| && forall i | 0 <= i < |rows| :: r[i] == PassRow(rows, f, limit, g, i)
  {
    seq(|rows|, i requires 0 <= i < |rows| => PassRow(rows, f, limit, g, i))
  }

  /** Segments below `n` filled one after the other, each on the frame the earlier ones left. */
  ghost function Passes(rows: seq<Bar>, limit: int, n: nat): (r: seq<Bar>)
    ensures |r| == |rows|
  {
    if n == 0 then rows else Pass(rows, Passes(rows, limit, n - 1), limit, n - 1)
  }

  /** Rows of segments not yet visited, and rows that are no gaps, are as they were; rows of visited
      segments are final. */
  lemma {:induction false} PassesRow(rows: seq<Bar>, limit: int, n: nat, i: nat)
    requires i < |rows|
    ensures n <= rows[i].segment || !ShortRun(rows, limit, i) ==> Passes(rows, limit, n)[i] == rows[i]
    ensures n > rows[i].segment ==> Passes(rows, limit, n)[i] == Passes(rows, limit, rows[i].segment + 1)[i]
  {
    if n > 0 {
      PassesRow(rows, limit, n - 1, i);
      assert Passes(rows, limit, n)[i] == PassRow(rows, Passes(rows, limit, n - 1), limit, n - 1, i);
    }
  }

  /** The least number above every segment number of the frame. */
  ghost function Top(rows: seq<Bar>): (n: nat)
    ensures forall i | 0 <= i < |rows| :: rows[i].segment < n
  {
    if rows == [] then 0
    else
      var init, last := Top(rows[..|rows| - 1]), rows[|rows| - 1].segment + 1;
      assert forall i | 0 <= i < |rows| - 1 :: rows[..|rows| - 1][i] == rows[i];
      if init < last then last else init
  }

  /** All segments filled, in the order of their numbers. */
  ghost function FillBySegments(rows: seq<Bar>, limit: int): (r: seq<Bar>)
    ensures |r| == |rows|
  {
    Passes(rows, limit, Top(rows))
  }

  /** In every frame, however its segments interleave: a row of a run that is short and does not open
      the frame gets the prices of the row before the run - filled ones if that row's segment comes
      earlier, raw ones otherwise - and every other row is unchanged. */
  lemma SegmentwiseFill(rows: seq<Bar>, limit: int, i: nat)
    requires i < |rows|
    ensures var out := FillBySegments(rows, limit);
            out[i] == if !ShortRun(rows, limit, i) then rows[i]
                      else var s := First(rows, i);
                        Patched(rows[i], (if rows[s - 1].segment < rows[i].segment then out[s - 1] else rows[s - 1]).prices)
  {
    var g, n := rows[i].segment, Top(rows);
    PassesRow(rows, limit, n, i);
    PassesRow(rows, limit, g, i);
    if ShortRun(rows, limit, i) {
      var s := First(rows, i);
      PassesRow(rows, limit, g, s - 1);
      PassesRow(rows, limit, n, s - 1);
    }
  }

  /** With ordered segments a run is a block of rows. */
  lemma BlockIsRun(rows: seq<Bar>, i: nat, k: int)
    requires i < |rows| && IsGap(rows[i]) && RunStart(rows, i) <= k < RunEnd(rows, i)
    ensures SameRun(rows, i, k)
  {
    forall m | RunStart(rows, i) <= m < RunEnd(rows, i) ensures rows[m].segment == rows[i].segment && IsGap(rows[m]) {
      RunMember(rows, i, m);
    }
  }

  lemma RunIsBlock(rows: seq<Bar>, i: nat, k: int)
    requires Grouped(rows) && i < |rows| && SameRun(rows, i, k)
    ensures RunStart(rows, i) <= k < RunEnd(rows, i)
  {
    var s, e := RunStart(rows, i), RunEnd(rows, i);
    forall m | i <= m <= k || k <= m <= i ensures rows[m].segment == rows[i].segment && IsGap(rows[m]) {
      Between(rows, i, k, m);
    }
    assert k < s ==> Joined(rows, s);
    assert k >= e ==> Joined(rows, e);
  }

  /** What lies between two rows of one segment is of that segment. */
  lemma Between(rows: seq<Bar>, i: int, k: int, m: int)
    requires Grouped(rows) && SameRun(rows, i, k) && (i <= m <= k || k <= m <= i)
    ensures rows[m].segment == rows[i].segment && IsGap(rows[m])
  {
    if m != i && m != k {
      var lo, hi := if i < k then i else k, if i < k then k else i;
      assert rows[lo].segment <= rows[m].segment <= rows[hi].segment;
    }
  }

  lemma RunMember(rows: seq<Bar>, i: nat, m: nat)
    requires i < |rows| && IsGap(rows[i]) && RunStart(rows, i) <= m < RunEnd(rows, i)
    ensures rows[m].segment == rows[i].segment && IsGap(rows[m])
  {
    RunInSegment(rows, i);
    RowHasRun(rows, i);
    RunOfRow(rows, RunStart(rows, i), RunEnd(rows, i), m);
    RunInSegment(rows, m);
  }

  lemma GroupedShort(rows: seq<Bar>, limit: int, i: nat)
    requires Grouped(rows) && i < |rows|
    ensures ShortRun(rows, limit, i) <==> Fillable(rows, limit, i)
    ensures IsGap(rows[i]) ==> First(rows, i) == RunStart(rows, i)
  {
    if IsGap(rows[i]) {
      var s, e := RunStart(rows, i), RunEnd(rows, i);
      forall k | s <= k < e ensures SameRun(rows, i, k) { BlockIsRun(rows, i, k); }
      forall k | SameRun(rows, i, k) ensures s <= k < e { RunIsBlock(rows, i, k); }
      assert RunOf(rows, i) == Range(s, e);
      assert SameRun(rows, i, s) && SameRun(rows, i, First(rows, i));
    }
  }

  /** The row a pass over segment `g` copies from is already final. */
  lemma GroupedSource(rows: seq<Bar>, limit: int, f: seq<Bar>, i: nat)
    requires Grouped(rows) && i < |rows| == |f| && Fillable(rows, limit, i)
    requires forall k | 0 <= k < |rows| ::
      f[k] == if rows[k].segment < rows[i].segment then FillRow(rows, limit, k) else rows[k]
    ensures PassRow(rows, f, limit, rows[i].segment, i) == FillRow(rows, limit, i)
  {
    GroupedShort(rows, limit, i);
    RunInSegment(rows, i);
    var s := RunStart(rows, i);
    assert !Joined(rows, s);
    assert rows[s - 1].segment <= rows[i].segment;
    if rows[s - 1].segment == rows[i].segment { assert !IsGap(rows[s - 1]); }
    assert f[s - 1] == FillRow(rows, limit, s - 1);
  }

  lemma {:induction false} GroupedPasses(rows: seq<Bar>, limit: int, n: nat)
    requires Grouped(rows)
    ensures forall i | 0 <= i < |rows| ::
      Passes(rows, limit, n)[i] == if rows[i].segment < n then FillRow(rows, limit, i) else rows[i]
  {
    if n > 0 {
      GroupedPasses(rows, limit, n - 1);
      var f := Passes(rows, limit, n - 1);
      forall i | 0 <= i < |rows|
        ensures Passes(rows, limit, n)[i] == if rows[i].segment < n then FillRow(rows, limit, i) else rows[i]
      {
        assert Passes(rows, limit, n)[i] == PassRow(rows, f, limit, n - 1, i);
        if rows[i].segment == n - 1 {
          if Fillable(rows, limit, i) { GroupedSource(rows, limit, f, i); } else { GroupedShort(rows, limit, i); }
        }
      }
    }
  }

  /** On frames with ordered segments, filling segment by segment is filling run by run. */
  lemma GroupedFill(rows: seq<Bar>, limit: int)
    requires Grouped(rows)
    ensures FillBySegments(rows, limit) == Fill(rows, limit)
  {
    GroupedPasses(rows, limit, Top(rows));
    forall i | 0 <= i < |rows| ensures FillBySegments(rows, limit)[i] == Fill(rows, limit)[i] {}
  }

  // ---------------------------------------------------------------------------------------
  // Which bars are halts
  // ---------------------------------------------------------------------------------------

  /** A positive volume was traded, and nothing says that the day was not tradable. */
  predicate Traded(b: Bar) { b.prices.volume.Some? && b.prices.volume.value > 0.0 && b.tradable != Some(false) }

  /** A bar with volume on a day not marked untradable is never changed. */
  lemma TradedUntouched(rows: seq<Bar>, limit: int, i: nat)
    requires i < |rows| && Traded(rows[i])
    ensures FillBySegments(rows, limit)[i] == rows[i]
  {
    SegmentwiseFill(rows, limit, i);
  }

  /** A stretch of days without volume or marked untradable, after a traded day of its segment and up to
      the next one or the end of the frame: within the limit every day repeats all prices and the volume
      of the traded day and is marked as filled, beyond the limit every day is left as it is. */
  lemma HaltByFields(rows: seq<Bar>, limit: int, s: nat, e: nat, i: nat)
    requires 0 < s <= i < e <= |rows| && forall k | s - 1 <= k < e :: rows[k].segment == rows[i].segment
    requires Traded(rows[s - 1]) && forall k | s <= k < e :: !Traded(rows[k])
    requires e == |rows| || (Traded(rows[e]) && rows[e].segment == rows[i].segment)
    ensures FillBySegments(rows, limit)[i]
         == if e - s <= limit
            then Bar(rows[i].segment, rows[s - 1].prices, rows[i].tradable, true)
            else rows[i]
  {
    forall k ensures SameRun(rows, i, k) <==> s <= k < e {}
    assert RunOf(rows, i) == Range(s, e);
    assert SameRun(rows, i, First(rows, i)) && SameRun(rows, i, s);
    SegmentwiseFill(rows, limit, i);
  }

  // ---------------------------------------------------------------------------------------
  // Prices that cross from one segment into another
  // ---------------------------------------------------------------------------------------

  /** The row whose raw prices the segment-by-segment filling puts into row `i`. */
  ghost function SourceOf(rows: seq<Bar>, limit: int, i: nat): (k: nat)
    requires i < |rows|
    ensures k <= i
  {
    if !ShortRun(rows, limit, i) then i
    else
      assert SameRun(rows, i, i);
      var s := First(rows, i);
      if rows[s - 1].segment < rows[i].segment then SourceOf(rows, limit, s - 1) else s - 1
  }

  lemma {:induction false} SourceIsShown(rows: seq<Bar>, limit: int, i: nat)
    requires i < |rows|
    ensures FillBySegments(rows, limit)[i].prices == rows[SourceOf(rows, limit, i)].prices
    decreases i
  {
    SegmentwiseFill(rows, limit, i);
    if ShortRun(rows, limit, i) {
      assert SameRun(rows, i, i);
      var s := First(rows, i);
      if rows[s - 1].segment < rows[i].segment { SourceIsShown(rows, limit, s - 1); }
    }
  }

  /** Row `i` is filled with a price of another segment. */
  ghost predicate Foreign(rows: seq<Bar>, limit: int, i: int)
  {
    0 <= i < |rows| && ShortRun(rows, limit, i) && rows[SourceOf(rows, limit, i)].segment != rows[i].segment
  }

  /** The run of row `i` is filled, and the row just before it belongs to another segment. */
  ghost predicate FillsAcross(rows: seq<Bar>, limit: int, i: int)
  {
    0 <= i < |rows| && ShortRun(rows, limit, i) && rows[First(rows, i) - 1].segment != rows[i].segment
  }

  /** A run whose row before lies in its own segment is filled from that row. */
  lemma FilledFromBefore(rows: seq<Bar>, limit: int, i: nat)
    requires i < |rows| && ShortRun(rows, limit, i) && rows[First(rows, i) - 1].segment == rows[i].segment
    ensures SourceOf(rows, limit, i) == First(rows, i) - 1 && !IsGap(rows[First(rows, i) - 1])
  {
    var s := First(rows, i);
    assert SameRun(rows, i, i);
    if IsGap(rows[s - 1]) { assert SameRun(rows, i, s - 1); }
  }

  /** A run filled across a boundary shows a foreign price, unless the price came back to its own
      segment through the row before the run - and then that row shows one. */
  lemma AcrossIsForeign(rows: seq<Bar>, limit: int, i: nat)
    requires FillsAcross(rows, limit, i)
    ensures Foreign(rows, limit, i) || Foreign(rows, limit, First(rows, i) - 1)
  {
    assert SameRun(rows, i, i);
    var p := First(rows, i) - 1;
    assert !ShortRun(rows, limit, p) ==> SourceOf(rows, limit, p) == p;
    assert SourceOf(rows, limit, i) == if rows[p].segment < rows[i].segment then SourceOf(rows, limit, p) else p;
  }

  lemma ForeignIsAcross(rows: seq<Bar>, limit: int, i: nat)
    requires Foreign(rows, limit, i)
    ensures FillsAcross(rows, limit, i)
  {
    if rows[First(rows, i) - 1].segment == rows[i].segment { FilledFromBefore(rows, limit, i); }
  }

  /** The row before the run belongs to an earlier segment, which was filled with a price of the
      run's own one. */
  ghost predicate ComesBack(rows: seq<Bar>, limit: int, i: int)
  {
    && FillsAcross(rows, limit, i)
    && var p := First(rows, i) - 1;
       rows[p].segment < rows[i].segment && ShortRun(rows, limit, p) && rows[SourceOf(rows, limit, p)].segment == rows[i].segment
  }

  /** In every frame a halt is filled from its own segment if and only if the row just before its run
      belongs to that segment, or had itself been filled from it. */
  lemma OwnSegmentIff(rows: seq<Bar>, limit: int, i: nat)
    requires i < |rows| && ShortRun(rows, limit, i)
    ensures rows[SourceOf(rows, limit, i)].segment == rows[i].segment
       <==> rows[First(rows, i) - 1].segment == rows[i].segment || ComesBack(rows, limit, i)
  {
    assert SameRun(rows, i, i);
    var p := First(rows, i) - 1;
    if rows[p].segment == rows[i].segment { FilledFromBefore(rows, limit, i); }
    assert !ShortRun(rows, limit, p) ==> SourceOf(rows, limit, p) == p;
    assert SourceOf(rows, limit, i) == if rows[p].segment < rows[i].segment then SourceOf(rows, limit, p) else p;
  }

  /** That a price comes back takes a segment between two parts of another: it is then in the halt
      of the inner segment that it is foreign. */
  lemma PriceComesBack()
    ensures var rows := [Quoted(2, 100.0, 5.0), Quoted(1, 7.0, 0.0), Quoted(2, 99.0, 0.0)];
            ComesBack(rows, 1, 2) && SourceOf(rows, 1, 2) == 0 && Foreign(rows, 1, 1)
  {
    var rows := [Quoted(2, 100.0, 5.0), Quoted(1, 7.0, 0.0), Quoted(2, 99.0, 0.0)];
    assert !IsGap(rows[0]) && IsGap(rows[1]) && IsGap(rows[2]);
    assert SameRun(rows, 1, 1) && First(rows, 1) == 1 && RunOf(rows, 1) == {1};
    assert SameRun(rows, 2, 2) && First(rows, 2) == 2 && RunOf(rows, 2) == {2};
    assert SourceOf(rows, 1, 1) == 0;
  }

  /** In every frame, however its segments interleave: no price crosses a segment boundary if and only
      if the row just before every run that is filled belongs to the run's own segment. */
  lemma FilledWithinSegmentsIff(rows: seq<Bar>, limit: int)
    ensures (exists i :: Foreign(rows, limit, i)) <==> (exists i :: FillsAcross(rows, limit, i))
  {
    if i :| FillsAcross(rows, limit, i) { AcrossIsForeign(rows, limit, i); }
    if i :| Foreign(rows, limit, i) { ForeignIsAcross(rows, limit, i); }
  }

  function Quoted(segment: nat, close: real, volume: real): Bar
  {
    Bar(segment, Prices(Some(close), Some(close), Some(close), Some(close), Some(volume)), Some(true), false)
  }

  /** A delisted ticker at 100 that comes back at 7 after one day without trade: the halt of the new
      listing shows the price of the old one. */
  lemma FillCrossesSegments()
    ensures var rows := [Quoted(1, 100.0, 5.0), Quoted(2, 7.0, 0.0), Quoted(2, 7.0, 5.0)];
            && Grouped(rows) && Foreign(rows, 1, 1) && FillBySegments(rows, 1)[1].prices.close == Some(100.0)
  {
    var rows := [Quoted(1, 100.0, 5.0), Quoted(2, 7.0, 0.0), Quoted(2, 7.0, 5.0)];
    assert !IsGap(rows[0]) && IsGap(rows[1]) && !IsGap(rows[2]);
    assert SameRun(rows, 1, 1) && First(rows, 1) == 1 && RunOf(rows, 1) == {1};
    assert SourceOf(rows, 1, 1) == 0;
    SourceIsShown(rows, 1, 1);
  }

  /** A stock traded under two listings whose windows overlap: the halt of the one is filled with the
      price of the other, although its run does not open its segment. */
  lemma InterleavedFillCrosses()
    ensures var rows := [Quoted(1, 100.0, 5.0), Quoted(2, 7.0, 5.0), Quoted(1, 99.0, 0.0)];
            && Foreign(rows, 1, 2) && FillBySegments(rows, 1)[2].prices.close == Some(7.0)
  {
    var rows := [Quoted(1, 100.0, 5.0), Quoted(2, 7.0, 5.0), Quoted(1, 99.0, 0.0)];
    assert !IsGap(rows[0]) && !IsGap(rows[1]) && IsGap(rows[2]);
    assert SameRun(rows, 2, 2) && First(rows, 2) == 2;
    assert RunOf(rows, 2) == {2};
    assert SourceOf(rows, 1, 2) == 1;
    SourceIsShown(rows, 1, 2);
  }

  /** With ordered segments a halt is filled from its own segment if and only if its run does not
      open the segment. */
  lemma GroupedOwnSegmentIff(rows: seq<Bar>, limit: int, i: nat)
    requires Grouped(rows) && i < |rows| && Fillable(rows, limit, i)
    ensures ShortRun(rows, limit, i)
    ensures rows[SourceOf(rows, limit, i)].segment == rows[i].segment
       <==> rows[RunStart(rows, i) - 1].segment == rows[i].segment
  {
    GroupedShort(rows, limit, i);
    OwnSegmentIff(rows, limit, i);
    var p := First(rows, i) - 1;
    assert rows[SourceOf(rows, limit, p)].segment <= rows[p].segment;
  }

  /** Row `s` opens a segment other than the frame's first with a halt short enough to be filled. */
  ghost predicate OpensWithShortHalt(rows: seq<Bar>, limit: int, s: int)
  {
    && 0 < s < |rows| && rows[s - 1].segment != rows[s].segment
    && IsGap(rows[s]) && RunEnd(rows, s) - s <= limit
  }

  lemma GroupedAcross(rows: seq<Bar>, limit: int, i: nat)
    requires Grouped(rows) && FillsAcross(rows, limit, i)
    ensures OpensWithShortHalt(rows, limit, First(rows, i))
  {
    GroupedShort(rows, limit, i);
    RunInSegment(rows, i);
    RunSharesFate(rows, limit, i, First(rows, i));
  }

  /** With ordered segments no price crosses a boundary if and only if no segment but the first opens
      with a halt within the limit. */
  lemma GroupedWithinSegmentsIff(rows: seq<Bar>, limit: int)
    requires Grouped(rows)
    ensures (exists i :: Foreign(rows, limit, i)) <==> (exists s :: OpensWithShortHalt(rows, limit, s))
  {
    FilledWithinSegmentsIff(rows, limit);
    if s :| OpensWithShortHalt(rows, limit, s) {
      assert !Joined(rows, s) && RunStart(rows, s) == s;
      GroupedShort(rows, limit, s);
      assert FillsAcross(rows, limit, s);
    } else if i :| FillsAcross(rows, limit, i) {
      GroupedAcross(rows, limit, i);
    }
  }

  // ---------------------------------------------------------------------------------------
  // The loops
  // ---------------------------------------------------------------------------------------

  /** `c` lists the gap rows of segment `g` before `n` that no other row of the segment follows. */
  ghost predicate OpenRun(rows: seq<Bar>, g: nat, n: nat, c: seq<int>)
  {
    && n <= |rows| && Increasing(c)
    && (forall k :: k in c <==> InOpenRun(rows, g, n, k))
  }

  ghost predicate InOpenRun(rows: seq<Bar>, g: nat, n: nat, k: int)
    requires n <= |rows|
  {
    && 0 <= k < n && rows[k].segment == g && IsGap(rows[k])
    && forall m | k < m < n && rows[m].segment == g :: IsGap(rows[m])
  }

  /** The run is over: the next row of the segment is no gap, or there is none. */
  ghost predicate Over(rows: seq<Bar>, g: nat, n: nat)
  {
    n == |rows| || (n < |rows| && rows[n].segment == g && !IsGap(rows[n]))
  }

  lemma {:induction false} Members(c: seq<int>)
    requires Increasing(c)
    ensures |set k | k in c| == |c|
  {
    if c != [] {
      var init, last := c[..|c| - 1], c[|c| - 1];
      Members(init);
      assert c == init + [last];
      assert (set k | k in c) == (set k | k in init) + {last};
      assert last !in init;
    }
  }

  /** Once it is over, the open run is the run of each of its rows. */
  lemma OpenRunIsRun(rows: seq<Bar>, g: nat, n: nat, c: seq<int>, i: int)
    requires OpenRun(rows, g, n, c) && Over(rows, g, n) && i in c
    ensures RunOf(rows, i) == set k | k in c
    ensures First(rows, i) == c[0] && |RunOf(rows, i)| == |c|
  {
    assert InOpenRun(rows, g, n, i);
    forall k | SameRun(rows, i, k) ensures k in c {
      assert k < n;
      assert InOpenRun(rows, g, n, k);
    }
    forall k | k in c ensures SameRun(rows, i, k) { assert InOpenRun(rows, g, n, k); }
    assert RunOf(rows, i) == set k | k in c;
    Members(c);
    var f := First(rows, i);
    assert f in c && c[0] in c;
    assert SameRun(rows, i, c[0]);
  }

  lemma OpenRunGrows(rows: seq<Bar>, g: nat, n: nat, c: seq<int>)
    requires OpenRun(rows, g, n, c) && n < |rows|
    ensures rows[n].segment != g ==> OpenRun(rows, g, n + 1, c)
    ensures rows[n].segment == g && IsGap(rows[n]) ==> OpenRun(rows, g, n + 1, c + [n])
    ensures rows[n].segment == g && !IsGap(rows[n]) ==> OpenRun(rows, g, n + 1, [])
  {
    forall k ensures InOpenRun(rows, g, n + 1, k) <==>
      if k == n then rows[n].segment == g && IsGap(rows[n])
      else InOpenRun(rows, g, n, k) && (rows[n].segment == g ==> IsGap(rows[n])) {}
    forall a | 0 <= a < |c| ensures c[a] < n { assert c[a] in c && InOpenRun(rows, g, n, c[a]); }
    assert forall k :: k in c + [n] <==> k in c || k == n;
  }

  /** Rows below `n` that are not in the open run are final. */
  ghost predicate PassedUpTo(a: array<Bar>, rows: seq<Bar>, f: seq<Bar>, limit: int, g: nat, n: nat, c: seq<int>)
    reads a
  {
    && a.Length == |rows| == |f|
    && forall k | 0 <= k < |rows| :: a[k] == if k < n && k !in c then Pass(rows, f, limit, g)[k] else f[k]
  }

  /** Ends a gap run: fills it when it is short and has a row before it. */
  method EndRun(a: array<Bar>, limit: int, c: seq<int>, g: nat, n: nat, ghost rows: seq<Bar>, ghost f: seq<Bar>)
    requires OpenRun(rows, g, n, c) && Over(rows, g, n) && PassedUpTo(a, rows, f, limit, g, n, c)
    modifies a
    ensures PassedUpTo(a, rows, f, limit, g, n, [])
  {
    forall i | i in c ensures 0 <= i < n && Pass(rows, f, limit, g)[i]
      == if c[0] > 0 && |c| <= limit then Patched(f[i], f[c[0] - 1].prices) else f[i]
    {
      assert InOpenRun(rows, g, n, i);
      OpenRunIsRun(rows, g, n, c, i);
    }
    if 0 < |c| <= limit && c[0] > 0 {
      assert c[0] in c;
      assert a[c[0] - 1] == f[c[0] - 1] by { BeforeRun(rows, f, limit, g, n, c); }
      CopyDown(a, c);
    }
  }

  /** The row before a run is not touched by the pass that fills the run. */
  lemma BeforeRun(rows: seq<Bar>, f: seq<Bar>, limit: int, g: nat, n: nat, c: seq<int>)
    requires OpenRun(rows, g, n, c) && |f| == |rows| && c != [] && c[0] > 0
    ensures c[0] < n && c[0] - 1 !in c && Pass(rows, f, limit, g)[c[0] - 1] == f[c[0] - 1]
  {
    assert c[0] in c && InOpenRun(rows, g, n, c[0]);
    var p := c[0] - 1;
    assert p !in c;
  }

  /** Assigns the row before the first listed row to the price columns of the listed rows. */
  method CopyDown(a: array<Bar>, c: seq<int>)
    requires c != [] && Increasing(c) && 0 < c[0] && forall k | k in c :: 0 <= k < a.Length
    modifies a
    ensures forall k | 0 <= k < a.Length ::
              a[k] == if k in c then Patched(old(a[k]), old(a[c[0] - 1]).prices) else old(a[k])
  {
    assert c[0] in c;
    var previous := a[c[0] - 1].prices;
    for j := 0 to |c|
      invariant forall k | 0 <= k < a.Length ::
                  a[k] == if k in c[..j] then Patched(old(a[k]), previous) else old(a[k])
    {
      assert c[j] in c && c[j] !in c[..j];
      assert forall k | k in c[..j + 1] :: k in c[..j] || k == c[j];
      a[c[j]] := Patched(a[c[j]], previous);
    }
    assert c[..|c|] == c;
  }

  method FillSegment(a: array<Bar>, gap: array<bool>, limit: int, g: nat, ghost rows: seq<Bar>)
    requires a.Length == gap.Length == |rows|
    requires forall k | 0 <= k < |rows| :: gap[k] == IsGap(rows[k]) && a[k].segment == rows[k].segment
    modifies a
    ensures a[..] == Pass(rows, old(a[..]), limit, g)
  {
    ghost var f := a[..];
    var consecutive: seq<int> := [];
    for i := 0 to a.Length
      invariant OpenRun(rows, g, i, consecutive) && PassedUpTo(a, rows, f, limit, g, i, consecutive)
      invariant forall k | 0 <= k < |rows| :: gap[k] == IsGap(rows[k])
    {
      OpenRunGrows(rows, g, i, consecutive);
      if a[i].segment == g {
        if gap[i] {
          consecutive := consecutive + [i];
        } else {
          EndRun(a, limit, consecutive, g, i, rows, f);
          consecutive := [];
        }
      }
    }
    EndRun(a, limit, consecutive, g, a.Length, rows, f);
  }

  method SegmentsAbove(a: array<Bar>) returns (n: nat)
    ensures n == Top(a[..])
  {
    n := 0;
    for i := 0 to a.Length
      invariant n == Top(a[..i])
    {
      assert a[..i + 1][..i] == a[..i];
      if a[i].segment >= n { n := a[i].segment + 1; }
    }
    assert a[..a.Length] == a[..];
  }

  lemma {:induction false} PassesKeepSegments(rows: seq<Bar>, limit: int, n: nat, i: nat)
    requires i < |rows|
    ensures Passes(rows, limit, n)[i].segment == rows[i].segment
  {
    if n > 0 { PassesKeepSegments(rows, limit, n - 1, i); }
  }

  /** `fill_short_halts`, for every frame; with ordered segments it is `Fill`. */
  method FillShortHalts(a: array<Bar>, limit: int)
    modifies a
    ensures a[..] == FillBySegments(old(a[..]), limit)
    ensures Grouped(old(a[..])) ==> a[..] == Fill(old(a[..]), limit)
  {
    ghost var rows := a[..];
    var gap := new bool[a.Length];
    for i := 0 to a.Length
      invariant a[..] == rows && forall k | 0 <= k < i :: gap[k] == IsGap(rows[k])
    {
      gap[i] := IsGap(a[i]);
    }
    var n := SegmentsAbove(a);
    for g := 0 to n
      invariant a[..] == Passes(rows, limit, g)
      invariant forall k | 0 <= k < |rows| :: gap[k] == IsGap(rows[k])
    {
      forall k | 0 <= k < |rows| ensures a[k].segment == rows[k].segment {
        PassesKeepSegments(rows, limit, g, k);
      }
      FillSegment(a, gap, limit, g, rows);
    }
    if Grouped(rows) { GroupedFill(rows, limit); }
  }
}
