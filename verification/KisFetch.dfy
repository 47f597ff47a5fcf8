/** Request windows and the bisecting fetch of the KIS adjusted-price ingestion. */
module KisFetch {

  /** An inclusive range of calendar days. */
  datatype Window = Window(start: int, end: int)
  {
    function Days(): int { end - start + 1 }
    predicate Holds(day: int) { start <= day <= end }
  }

  /** `ws` lists, in date order and without gap or overlap, exactly the days from `first` to `last`. */
  ghost predicate Tiling(ws: seq<Window>, first: int, last: int)
  {
    && (ws == [] <==> last < first)
    && (ws != [] ==> ws[0].start == first && ws[|ws| - 1].end == last)
    && (forall i | 0 <= i < |ws| :: ws[i].start <= ws[i].end)
    && (forall i | 0 <= i < |ws| - 1 :: ws[i + 1].start == ws[i].end + 1)
  }

  lemma {:induction false} TilingOrdered(ws: seq<Window>, first: int, last: int, i: nat, j: nat)
    requires Tiling(ws, first, last) && i < j < |ws|
    ensures ws[i].end < ws[j].start
  {
    if i + 1 < j { TilingOrdered(ws, first, last, i, j - 1); }
  }

  /** Every day of the range lies in exactly one window, every other day in none. */
  lemma TilingCovers(ws: seq<Window>, first: int, last: int, day: int) returns (i: nat)
    requires Tiling(ws, first, last)
    ensures first <= day <= last ==> i < |ws| && ws[i].Holds(day)
    ensures forall k: nat | k < |ws| && ws[k].Holds(day) :: first <= day <= last && k == i
  {
    i := 0;
    while i < |ws| && ws[i].end < day
      invariant i <= |ws|
      invariant forall k: nat | k < i :: ws[k].end < day
      invariant i > 0 ==> i == |ws| || ws[i].start <= day
    {
      i := i + 1;
    }
    forall k: nat | k < |ws| && ws[k].Holds(day) ensures first <= day <= last && k == i {
      if i < k { TilingOrdered(ws, first, last, i, k); }
      if 0 < k { TilingOrdered(ws, first, last, 0, k); }
      if k < |ws| - 1 { TilingOrdered(ws, first, last, k, |ws| - 1); }
    }
  }

  /** All windows have the requested length, except that the last one may be shorter. */
  ghost predicate Regular(ws: seq<Window>, windowDays: int)
  {
    && (forall i | 0 <= i < |ws| - 1 :: ws[i].Days() == windowDays)
    && (ws != [] ==> ws[|ws| - 1].Days() <= windowDays)
  }

  lemma SnocWindow(ws: seq<Window>, first: int, w: Window, windowDays: int)
    requires if ws == [] then w.start == first else Tiling(ws, first, w.start - 1) && ws[|ws| - 1].Days() == windowDays
    requires Regular(ws, windowDays) && w.start <= w.end && w.Days() <= windowDays
    ensures Tiling(ws + [w], first, w.end) && Regular(ws + [w], windowDays)
  {
  }

  /** Slices a date range into request windows: a tiling whose windows all have the requested
      length, except that the last one may be shorter. */
  method IterWindows(first: int, last: int, windowDays: int) returns (ws: seq<Window>)
    requires windowDays >= 1
    ensures Tiling(ws, first, last)
    ensures Regular(ws, windowDays)
  {
    ws := [];
    var current := first;
    while current <= last
      invariant ws == [] ==> current == first
      invariant ws != [] ==> Tiling(ws, first, current - 1) && current <= last + 1
      invariant Regular(ws, windowDays) && (current <= last && ws != [] ==> ws[|ws| - 1].Days() == windowDays)
      decreases last - current
    {
      var windowEnd := if current + windowDays - 1 <= last then current + windowDays - 1 else last;
      SnocWindow(ws, first, Window(current, windowEnd), windowDays);
      ws := ws + [Window(current, windowEnd)];
      current := windowEnd + 1;
    }
  }

  datatype Row = Row(ticker: int, date: int, payload: int)

  datatype Answer = Rows(rows: seq<Row>) | Fails

  /** The provider: what the n-th request of a run answers for a window.  Failures may depend
      on when a request is made. */
  type Provider = (nat, Window) -> Answer

  datatype Fetched = Got(rows: seq<Row>, requests: nat, calls: nat) | Raised(calls: nat)

  function Midpoint(w: Window): (m: int)
    requires w.start < w.end
    ensures w.start <= m < w.end && -1 <= (m - w.start + 1) - (w.end - m) <= 1
  {
    w.start + (w.end - w.start) / 2
  }

  /** `fetch_adjusted_rows_recursive`, with `n` requests made so far. */
  function Fetch(p: Provider, n: nat, w: Window): Fetched
    decreases w.end - w.start
  {
    match p(n, w)
    case Rows(rows) => Got(rows, 1, n + 1)
    case Fails =>
      if w.start >= w.end then Raised(n + 1)
      else
        var midpoint := Midpoint(w);
        match Fetch(p, n + 1, Window(w.start, midpoint))
        case Raised(m) => Raised(m)
        case Got(leftRows, leftRequests, m) =>
          match Fetch(p, m, Window(midpoint + 1, w.end))
          case Raised(k) => Raised(k)
          case Got(rightRows, rightRequests, k) => Got(leftRows + rightRows, leftRequests + rightRequests, k)
  }

  function Flatten(parts: seq<seq<Row>>): seq<Row>
  {
    if parts == [] then [] else parts[0] + Flatten(parts[1..])
  }

  lemma Assoc(a: seq<Row>, b: seq<Row>, c: seq<Row>)
    ensures (a + b) + c == a + (b + c)
  {
  }

  lemma {:induction false} FlattenConcat(a: seq<seq<Row>>, b: seq<seq<Row>>)
    ensures Flatten(a + b) == Flatten(a) + Flatten(b)
  {
    if a == [] {
      assert a + b == b;
    } else {
      FlattenConcat(a[1..], b);
      assert (a + b)[1..] == a[1..] + b && (a + b)[0] == a[0];
      Assoc(a[0], Flatten(a[1..]), Flatten(b));
    }
  }

  /** One successful request: its number, its window, its rows. */
  datatype Leaf = Leaf(n: nat, window: Window, rows: seq<Row>)

  ghost function WindowsOf(leaves: seq<Leaf>): (ws: seq<Window>)
    ensures |ws| == |leaves|
  {
    seq(|leaves|, i requires 0 <= i < |leaves| => leaves[i].window)
  }

  ghost function PartsOf(leaves: seq<Leaf>): (ps: seq<seq<Row>>)
    ensures |ps| == |leaves|
  {
    seq(|leaves|, i requires 0 <= i < |leaves| => leaves[i].rows)
  }

  ghost predicate Answered(p: Provider, leaves: seq<Leaf>, from: nat, to: nat)
  {
    forall i | 0 <= i < |leaves| ::
      from <= leaves[i].n < to && p(leaves[i].n, leaves[i].window) == Rows(leaves[i].rows)
  }

  /** `leaves` accounts for result `r` of fetching `w` from request `n` on: their windows
      partition `w` in date order, each was answered, the rows are theirs in that order, the
      reported count is their number, and every other request was one failure per split. */
  ghost predicate Accounts(p: Provider, n: nat, w: Window, r: Fetched, leaves: seq<Leaf>)
  {
    && r.Got?
    && Tiling(WindowsOf(leaves), w.start, w.end)
    && Answered(p, leaves, n, r.calls)
    && r.rows == Flatten(PartsOf(leaves))
    && r.requests == |leaves| >= 1
    && r.calls - n == 2 * |leaves| - 1
  }

  lemma AccountsOne(p: Provider, n: nat, w: Window, rows: seq<Row>)
    requires w.start <= w.end && p(n, w) == Rows(rows)
    ensures Accounts(p, n, w, Got(rows, 1, n + 1), [Leaf(n, w, rows)])
  {
    var leaves := [Leaf(n, w, rows)];
    assert WindowsOf(leaves) == [w];
    assert PartsOf(leaves) == [rows] && PartsOf(leaves)[1..] == [];
    assert Flatten(PartsOf(leaves)) == rows + [];
  }

  lemma AccountsJoin(p: Provider, n: nat, w: Window, middle: int, l: Fetched, r: Fetched, ls: seq<Leaf>, rs: seq<Leaf>)
    requires w.start <= middle < w.end
    requires Accounts(p, n + 1, Window(w.start, middle), l, ls)
    requires Accounts(p, l.calls, Window(middle + 1, w.end), r, rs)
    ensures Accounts(p, n, w, Got(l.rows + r.rows, l.requests + r.requests, r.calls), ls + rs)
  {
    assert WindowsOf(ls + rs) == WindowsOf(ls) + WindowsOf(rs);
    TilingsJoin(WindowsOf(ls), WindowsOf(rs), w.start, middle, w.end);
    assert PartsOf(ls + rs) == PartsOf(ls) + PartsOf(rs);
    FlattenConcat(PartsOf(ls), PartsOf(rs));
  }

  /** Every successful fetch is accounted for by answered requests. */
  lemma {:induction false} FetchPartitions(p: Provider, n: nat, w: Window) returns (leaves: seq<Leaf>)
    requires w.start <= w.end && Fetch(p, n, w).Got?
    ensures Accounts(p, n, w, Fetch(p, n, w), leaves)
    decreases w.end - w.start
  {
    match p(n, w)
    case Rows(rows) =>
      leaves := [Leaf(n, w, rows)];
      AccountsOne(p, n, w, rows);
    case Fails =>
      var midpoint := Midpoint(w);
      var l := Fetch(p, n + 1, Window(w.start, midpoint));
      var r := Fetch(p, l.calls, Window(midpoint + 1, w.end));
      var ls := FetchPartitions(p, n + 1, Window(w.start, midpoint));
      var rs := FetchPartitions(p, l.calls, Window(midpoint + 1, w.end));
      leaves := ls + rs;
      AccountsJoin(p, n, w, midpoint, l, r, ls, rs);
  }

  lemma TilingsJoin(a: seq<Window>, b: seq<Window>, first: int, middle: int, last: int)
    requires first <= middle < last && Tiling(a, first, middle) && Tiling(b, middle + 1, last)
    ensures Tiling(a + b, first, last)
  {
  }

  /** For every window and every failure pattern the number of requests is below twice the days. */
  lemma {:induction false} FetchCallBound(p: Provider, n: nat, w: Window)
    ensures n < Fetch(p, n, w).calls
    ensures w.start <= w.end ==> Fetch(p, n, w).calls - n <= 2 * w.Days() - 1
    ensures w.end < w.start ==> Fetch(p, n, w).calls == n + 1
    decreases w.end - w.start
  {
    if p(n, w).Fails? && w.start < w.end {
      var midpoint := Midpoint(w);
      FetchCallBound(p, n + 1, Window(w.start, midpoint));
      var left := Fetch(p, n + 1, Window(w.start, midpoint));
      FetchCallBound(p, left.calls, Window(midpoint + 1, w.end));
    }
  }

  lemma FetchUnfolds(p: Provider, n: nat, w: Window)
    requires w.start < w.end && p(n, w).Fails?
    ensures var l := Fetch(p, n + 1, Window(w.start, Midpoint(w)));
            && (l.Raised? ==> Fetch(p, n, w) == l)
            && (l.Got? ==>
                  var r := Fetch(p, l.calls, Window(Midpoint(w) + 1, w.end));
                  r.Raised? ==> Fetch(p, n, w) == r)
  {
  }

  /** The fetch gives up only on a single day: its last request asked for one day and failed. */
  lemma {:induction false} FetchGivesUpOnOneDay(p: Provider, n: nat, w: Window) returns (day: int)
    requires w.start <= w.end && Fetch(p, n, w).Raised?
    ensures w.Holds(day) && n < Fetch(p, n, w).calls && p(Fetch(p, n, w).calls - 1, Window(day, day)).Fails?
    decreases w.end - w.start
  {
    FetchCallBound(p, n, w);
    if w.start == w.end {
      day := w.start;
    } else {
      FetchUnfolds(p, n, w);
      var left := Fetch(p, n + 1, Window(w.start, Midpoint(w)));
      if left.Raised? {
        day := FetchGivesUpOnOneDay(p, n + 1, Window(w.start, Midpoint(w)));
      } else {
        day := FetchGivesUpOnOneDay(p, left.calls, Window(Midpoint(w) + 1, w.end));
      }
    }
  }

  /** The rows of a range, day by day. */
  ghost function Span(daily: int -> seq<Row>, first: int, last: int): seq<Row>
    decreases last - first
  {
    if last < first then [] else Span(daily, first, last - 1) + daily(last)
  }

  lemma {:induction false} SpanSplits(daily: int -> seq<Row>, first: int, middle: int, last: int)
    requires first <= middle + 1 && middle <= last
    ensures Span(daily, first, last) == Span(daily, first, middle) + Span(daily, middle + 1, last)
    decreases last - middle
  {
    if middle < last {
      SpanSplits(daily, first, middle, last - 1);
    }
  }

  /** Whatever a request for a window answers, if it answers, is that window's daily rows. */
  ghost predicate Faithful(p: Provider, daily: int -> seq<Row>)
  {
    forall n, w :: p(n, w).Rows? ==> p(n, w).rows == Span(daily, w.start, w.end)
  }

  /** Bisecting is invisible: against a faithful provider every failure pattern that does not
      end in an error returns the same rows, those of the whole window in date order. */
  lemma {:induction false} FetchTransparent(p: Provider, daily: int -> seq<Row>, n: nat, w: Window)
    requires Faithful(p, daily) && Fetch(p, n, w).Got?
    ensures Fetch(p, n, w).rows == Span(daily, w.start, w.end)
    decreases w.end - w.start
  {
    if p(n, w).Fails? {
      var midpoint := Midpoint(w);
      var left := Fetch(p, n + 1, Window(w.start, midpoint));
      FetchTransparent(p, daily, n + 1, Window(w.start, midpoint));
      FetchTransparent(p, daily, left.calls, Window(midpoint + 1, w.end));
      SpanSplits(daily, w.start, midpoint, w.end);
    }
  }
}
