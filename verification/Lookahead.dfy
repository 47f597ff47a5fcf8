/** The differential look-ahead test: a rule is run over a whole history and over the history cut
    at a date, and the decisions both runs made are compared. */
module Lookahead {
  type Features(==,!new)

  /** ISO dates compare like day numbers, padded tickers like numbers. */
  datatype Row = Row(date: int, ticker: int, features: Features)

  /** A rule decides every row of the (sorted) history it is given. */
  type Rule = seq<Row> -> seq<int>

  ghost predicate Decides(rule: Rule) { forall h: seq<Row> :: |rule(h)| == |h| }

  // ---------------------------------------------------------------------------------------
  // The comparison
  // ---------------------------------------------------------------------------------------

  datatype Name = HoldName | BuyName | SellName | UnknownName

  const Hold := 0

  function NameOf(action: int): Name
  {
    if action == 0 then HoldName else if action == 1 then BuyName else if action == -1 then SellName else UnknownName
  }

  datatype Finding = Finding(date: int, ticker: int, baseline: Name, truncated: Name)

  datatype Result<T> = Ok(value: T) | ValueError

  function FindingAt(b: seq<int>, t: seq<int>, rows: seq<Row>, i: nat): Finding
    requires i < |b| && i < |t| && i < |rows|
  {
    Finding(rows[i].date, rows[i].ticker, NameOf(b[i]), NameOf(t[i]))
  }

  /** Findings among the first `n` rows. */
  function FindingsUpTo(b: seq<int>, t: seq<int>, rows: seq<Row>, n: nat): seq<Finding>
    requires n <= |t| <= |b| && n <= |rows|
  {
    if n == 0 then []
    else FindingsUpTo(b, t, rows, n - 1) + if b[n - 1] != t[n - 1] then [FindingAt(b, t, rows, n - 1)] else []
  }

  function CompareRuns(b: seq<int>, t: seq<int>, rows: seq<Row>): Result<seq<Finding>>
    requires |b| <= |rows|
  {
    if |t| > |b| then ValueError else Ok(FindingsUpTo(b, t, rows, |t|))
  }

  /** The rows on which two runs differ, in order. */
  ghost function Differing(b: seq<int>, t: seq<int>, n: nat): (d: seq<int>)
    requires n <= |t| <= |b|
    ensures forall k | 0 <= k < |d| :: 0 <= d[k] < n && b[d[k]] != t[d[k]]
    ensures forall j, k | 0 <= j < k < |d| :: d[j] < d[k]
  {
    if n == 0 then [] else if b[n - 1] != t[n - 1] then Differing(b, t, n - 1) + [n - 1] else Differing(b, t, n - 1)
  }

  lemma {:induction false} DifferingComplete(b: seq<int>, t: seq<int>, n: nat, i: nat)
    requires i < n <= |t| <= |b| && b[i] != t[i]
    ensures i in Differing(b, t, n)
  {
    if i < n - 1 { DifferingComplete(b, t, n - 1, i); }
  }

  lemma {:induction false} FindingsFollow(b: seq<int>, t: seq<int>, rows: seq<Row>, n: nat)
    requires n <= |t| <= |b| && n <= |rows|
    ensures var d := Differing(b, t, n);
            && |FindingsUpTo(b, t, rows, n)| == |d|
            && forall k | 0 <= k < |d| :: FindingsUpTo(b, t, rows, n)[k] == FindingAt(b, t, rows, d[k])
  {
    if n > 0 { FindingsFollow(b, t, rows, n - 1); }
  }

  /** One finding for each differing row, in row order, and for no other row. */
  lemma FindingsExact(b: seq<int>, t: seq<int>, rows: seq<Row>, n: nat)
    requires n <= |t| <= |b| && n <= |rows|
    ensures var d := Differing(b, t, n);
            && (forall i :: i in d <==> 0 <= i < n && b[i] != t[i])
            && (forall j, k | 0 <= j < k < |d| :: d[j] < d[k])
            && |FindingsUpTo(b, t, rows, n)| == |d|
            && forall k | 0 <= k < |d| :: FindingsUpTo(b, t, rows, n)[k] == FindingAt(b, t, rows, d[k])
  {
    FindingsFollow(b, t, rows, n);
    forall i | 0 <= i < n && b[i] != t[i] ensures i in Differing(b, t, n) { DifferingComplete(b, t, n, i); }
  }

  lemma {:induction false} CleanIffEqual(b: seq<int>, t: seq<int>, rows: seq<Row>, n: nat)
    requires n <= |t| <= |b| && n <= |rows|
    ensures FindingsUpTo(b, t, rows, n) == [] <==> b[..n] == t[..n]
  {
    if n > 0 {
      CleanIffEqual(b, t, rows, n - 1);
      assert b[..n] == b[..n - 1] + [b[n - 1]] && t[..n] == t[..n - 1] + [t[n - 1]];
    }
  }

  // ---------------------------------------------------------------------------------------
  // The history and its truncation
  // ---------------------------------------------------------------------------------------

  predicate Before(a: Row, b: Row) { a.date < b.date || (a.date == b.date && a.ticker <= b.ticker) }

  function Insert(h: seq<Row>, r: Row): seq<Row>
  {
    if h == [] || Before(h[|h| - 1], r) then h + [r] else Insert(h[..|h| - 1], r) + [h[|h| - 1]]
  }

  /** Stable sort by date, then ticker. */
  function Sort(rows: seq<Row>): seq<Row>
  {
    if rows == [] then [] else Insert(Sort(rows[..|rows| - 1]), rows[|rows| - 1])
  }

  predicate Sorted(h: seq<Row>) { forall i, j | 0 <= i < j < |h| :: Before(h[i], h[j]) }

  /** The rows on or before `cutoff`, in order. */
  function Upto(h: seq<Row>, cutoff: int): seq<Row>
  {
    if h == [] then []
    else Upto(h[..|h| - 1], cutoff) + if h[|h| - 1].date <= cutoff then [h[|h| - 1]] else []
  }

  lemma {:induction false} InsertRows(h: seq<Row>, r: Row)
    ensures multiset(Insert(h, r)) == multiset(h) + multiset{r}
  {
    if h != [] && !Before(h[|h| - 1], r) {
      InsertRows(h[..|h| - 1], r);
      assert h == h[..|h| - 1] + [h[|h| - 1]];
    }
  }

  lemma {:induction false} InsertSorted(h: seq<Row>, r: Row)
    requires Sorted(h)
    ensures Sorted(Insert(h, r))
    ensures forall last | Before(r, last) && (forall i | 0 <= i < |h| :: Before(h[i], last)) ::
              AllBefore(Insert(h, r), last)
  {
    if h != [] && !Before(h[|h| - 1], r) {
      var init, last := h[..|h| - 1], h[|h| - 1];
      InsertSorted(init, r);
      assert forall i | 0 <= i < |init| :: Before(init[i], last);
      assert AllBefore(Insert(init, r), last);
    }
  }

  ghost predicate AllBefore(h: seq<Row>, r: Row) { forall i | 0 <= i < |h| :: Before(h[i], r) }

  lemma {:induction false} SortRows(rows: seq<Row>)
    ensures multiset(Sort(rows)) == multiset(rows)
  {
    if rows != [] {
      SortRows(rows[..|rows| - 1]);
      InsertRows(Sort(rows[..|rows| - 1]), rows[|rows| - 1]);
      assert rows == rows[..|rows| - 1] + [rows[|rows| - 1]];
    }
  }

  lemma {:induction false} SortSorted(rows: seq<Row>)
    ensures Sorted(Sort(rows))
  {
    if rows != [] {
      SortSorted(rows[..|rows| - 1]);
      InsertSorted(Sort(rows[..|rows| - 1]), rows[|rows| - 1]);
    }
  }

  lemma {:induction false} SortIdentity(h: seq<Row>)
    requires Sorted(h)
    ensures Sort(h) == h
  {
    if h != [] {
      var init, last := h[..|h| - 1], h[|h| - 1];
      SortIdentity(init);
      assert init != [] ==> Before(init[|init| - 1], last);
      assert Insert(init, last) == init + [last];
      assert h == init + [last];
    }
  }

  lemma {:induction false} UptoAll(h: seq<Row>, cutoff: int)
    requires forall i | 0 <= i < |h| :: h[i].date <= cutoff
    ensures Upto(h, cutoff) == h
  {
    if h != [] {
      UptoAll(h[..|h| - 1], cutoff);
      assert h == h[..|h| - 1] + [h[|h| - 1]];
    }
  }

  /** Every row of a sorted history is dated no later than the last. */
  lemma LastIsLatest(h: seq<Row>, i: nat)
    requires Sorted(h) && i < |h|
    ensures h[i].date <= h[|h| - 1].date
  {
    if i < |h| - 1 { assert Before(h[i], h[|h| - 1]); }
  }

  /** On a sorted history the filter keeps a prefix. */
  lemma {:induction false} UptoIsPrefix(h: seq<Row>, cutoff: int)
    requires Sorted(h)
    ensures Upto(h, cutoff) <= h
    ensures forall i | 0 <= i < |h| :: i < |Upto(h, cutoff)| <==> h[i].date <= cutoff
  {
    if h == [] {
    } else if h[|h| - 1].date <= cutoff {
      forall i | 0 <= i < |h| ensures h[i].date <= cutoff { LastIsLatest(h, i); }
      UptoAll(h, cutoff);
    } else {
      var init := h[..|h| - 1];
      UptoIsPrefix(init, cutoff);
      assert Upto(h, cutoff) == Upto(init, cutoff);
      forall i | 0 <= i < |h| ensures i < |Upto(h, cutoff)| <==> h[i].date <= cutoff {
        if i < |init| { assert init[i] == h[i]; }
      }
    }
  }

  /** Two prefixes that keep the same rows are the same truncation. */
  lemma UptoUnique(h: seq<Row>, n: nat, cutoff: int)
    requires Sorted(h) && n <= |h|
    requires forall i | 0 <= i < |h| :: i < n <==> h[i].date <= cutoff
    ensures Upto(h, cutoff) == h[..n]
  {
    UptoIsPrefix(h, cutoff);
    var m := |Upto(h, cutoff)|;
    var k := if m < n then m else n;
    if k < |h| { assert k < m <==> h[k].date <= cutoff; }
    assert Upto(h, cutoff) == h[..m];
  }

  lemma UptoTwice(h: seq<Row>, c: int, d: int)
    requires Sorted(h) && d <= c
    ensures Sorted(Upto(h, c)) && Upto(Upto(h, c), d) == Upto(h, d)
  {
    UptoIsPrefix(h, c);
    UptoIsPrefix(h, d);
    var cut, n := Upto(h, c), |Upto(h, d)|;
    if |cut| < |h| { assert |cut| < n <==> h[|cut|].date <= d; }
    UptoUnique(cut, n, d);
    assert cut[..n] == h[..n];
  }

  // ---------------------------------------------------------------------------------------
  // The evidence
  // ---------------------------------------------------------------------------------------

  datatype Evidence = Evidence(
    baselineRows: nat, coveredRows: nat, coveredDates: nat, coveredSignals: nat, silentRows: int,
    findings: seq<Finding>)

  function Signals(actions: seq<int>): nat
  {
    if actions == [] then 0
    else Signals(actions[..|actions| - 1]) + if actions[|actions| - 1] != Hold then 1 else 0
  }

  function Dates(h: seq<Row>): set<int> { set r | r in h :: r.date }

  function LookaheadEvidence(rows: seq<Row>, rule: Rule, cutoff: int): Result<Evidence>
    requires Decides(rule)
  {
    var h := Sort(rows);
    var kept := Upto(h, cutoff);
    if kept == [] then ValueError
    else
      var b := rule(h);
      UptoWithin(h, cutoff);
      match CompareRuns(b, rule(kept), h)
      case ValueError => ValueError
      case Ok(findings) =>
        var signals := Signals(b[..|kept|]);
        Ok(Evidence(|h|, |kept|, |Dates(h[..|kept|])|, signals, |kept| - signals, findings))
  }

  lemma {:induction false} UptoWithin(h: seq<Row>, cutoff: int)
    ensures |Upto(h, cutoff)| <= |h|
  {
    if h != [] { UptoWithin(h[..|h| - 1], cutoff); }
  }

  lemma {:induction false} SignalsWithin(actions: seq<int>)
    ensures Signals(actions) <= |actions|
    ensures Signals(actions) == 0 <==> forall i | 0 <= i < |actions| :: actions[i] == Hold
  {
    if actions != [] {
      var init := actions[..|actions| - 1];
      SignalsWithin(init);
      assert forall i | 0 <= i < |init| :: init[i] == actions[i];
    }
  }

  /** The test refuses exactly the cutoffs before every row. */
  lemma RefusedIffNothingKept(rows: seq<Row>, rule: Rule, cutoff: int)
    requires Decides(rule)
    ensures LookaheadEvidence(rows, rule, cutoff).ValueError? <==> forall r | r in rows :: r.date > cutoff
  {
    var h := Sort(rows);
    SortSorted(rows);
    SortRows(rows);
    SameRows(rows, h);
    UptoIsPrefix(h, cutoff);
    if Upto(h, cutoff) == [] {
      assert forall i | 0 <= i < |h| :: h[i].date > cutoff;
    } else {
      assert h[0] in rows && h[0].date <= cutoff;
    }
  }

  /** Every covered row is accounted for as signalling or silent. */
  lemma EvidenceAccounts(rows: seq<Row>, rule: Rule, cutoff: int)
    requires Decides(rule) && LookaheadEvidence(rows, rule, cutoff).Ok?
    ensures var e := LookaheadEvidence(rows, rule, cutoff).value;
            && e.baselineRows == |rows| && 0 < e.coveredRows <= |rows|
            && e.coveredSignals + e.silentRows == e.coveredRows && e.silentRows >= 0
            && |e.findings| <= e.coveredRows
  {
    var h := Sort(rows);
    SortRows(rows);
    SameRows(rows, h);
    UptoWithin(h, cutoff);
    var kept := Upto(h, cutoff);
    SignalsWithin(rule(h)[..|kept|]);
    FindingsBounded(rule(h), rule(kept), h, |kept|);
  }

  /** The covered dates are the dates of rows on or before the cutoff. */
  lemma EvidenceDates(rows: seq<Row>, rule: Rule, cutoff: int)
    requires Decides(rule) && LookaheadEvidence(rows, rule, cutoff).Ok?
    ensures LookaheadEvidence(rows, rule, cutoff).value.coveredDates == |DatesUpTo(rows, cutoff)|
  {
    var h := Sort(rows);
    SortSorted(rows);
    SortRows(rows);
    SameRows(rows, h);
    UptoIsPrefix(h, cutoff);
    CoveredDates(rows, h, |Upto(h, cutoff)|, cutoff);
  }

  ghost function DatesUpTo(rows: seq<Row>, cutoff: int): set<int> { set r | r in rows && r.date <= cutoff :: r.date }

  /** The history is the rows by date, then ticker. */
  lemma SortMeans(rows: seq<Row>)
    ensures var h := Sort(rows);
            && multiset(h) == multiset(rows)
            && forall i, j | 0 <= i < j < |h| :: h[i].date < h[j].date || (h[i].date == h[j].date && h[i].ticker <= h[j].ticker)
  {
    SortRows(rows);
    SortSorted(rows);
    assert forall i, j | 0 <= i < j < |Sort(rows)| :: Before(Sort(rows)[i], Sort(rows)[j]);
  }

  /** The covered rows are those of the history on or before the cutoff, and the signals are their
      decisions other than 0. */
  lemma EvidenceByRows(rows: seq<Row>, rule: Rule, cutoff: int)
    requires Decides(rule) && LookaheadEvidence(rows, rule, cutoff).Ok?
    ensures var e, h := LookaheadEvidence(rows, rule, cutoff).value, Sort(rows);
            var n, decisions := e.coveredRows, rule(h);
            && n <= |h| == |decisions| == e.baselineRows == |rows|
            && (forall i | 0 <= i < |h| :: i < n <==> h[i].date <= cutoff)
            && e.coveredSignals == |set i | 0 <= i < n && decisions[i] != 0|
            && e.silentRows == |set i | 0 <= i < n && decisions[i] == 0|
  {
    var h := Sort(rows);
    SortSorted(rows);
    SortRows(rows);
    SameRows(rows, h);
    UptoIsPrefix(h, cutoff);
    var n, decisions := |Upto(h, cutoff)|, rule(h);
    SignalCount(decisions, n);
    assert Deciding(decisions, n, true) == set i | 0 <= i < n && decisions[i] != 0;
    assert Deciding(decisions, n, false) == set i | 0 <= i < n && decisions[i] == 0;
  }

  ghost function Deciding(actions: seq<int>, n: nat, signal: bool): set<int>
    requires n <= |actions|
  {
    set i | 0 <= i < n && (actions[i] != 0) == signal
  }

  lemma DecidingSnoc(actions: seq<int>, n: nat, signal: bool)
    requires n < |actions|
    ensures |Deciding(actions, n + 1, signal)| == |Deciding(actions, n, signal)| + if (actions[n] != 0) == signal then 1 else 0
  {
    var before := Deciding(actions, n, signal);
    assert n !in before;
    assert Deciding(actions, n + 1, signal) == if (actions[n] != 0) == signal then before + {n} else before;
  }

  lemma {:induction false} SignalCount(actions: seq<int>, n: nat)
    requires n <= |actions|
    ensures Signals(actions[..n]) == |Deciding(actions, n, true)|
    ensures n - Signals(actions[..n]) == |Deciding(actions, n, false)|
  {
    if n > 0 {
      SignalCount(actions, n - 1);
      DecidingSnoc(actions, n - 1, true);
      DecidingSnoc(actions, n - 1, false);
      assert actions[..n][..n - 1] == actions[..n - 1];
    }
  }

  /** There is one finding for each covered row that the truncated history decides differently, in order,
      with the row's date and ticker and both decisions by name. */
  lemma FindingsByRows(rows: seq<Row>, rule: Rule, cutoff: int) returns (d: seq<int>)
    requires Decides(rule) && LookaheadEvidence(rows, rule, cutoff).Ok?
    ensures var e, h := LookaheadEvidence(rows, rule, cutoff).value, Sort(rows);
            var n := e.coveredRows;
            && n <= |h| == |rule(h)| && |rule(h[..n])| == n
            && |d| == |e.findings| && (forall j, k | 0 <= j < k < |d| :: d[j] < d[k])
            && (forall i :: i in d <==> 0 <= i < n && rule(h)[i] != rule(h[..n])[i])
            && forall k | 0 <= k < |d| :: d[k] in d && FindingSays(e.findings[k], h[d[k]], rule(h)[d[k]], rule(h[..n])[d[k]])
  {
    var h := Sort(rows);
    SortSorted(rows);
    UptoIsPrefix(h, cutoff);
    var n := |Upto(h, cutoff)|;
    assert Upto(h, cutoff) == h[..n];
    var b, t := rule(h), rule(h[..n]);
    d := Differing(b, t, n);
    FindingsExact(b, t, h, n);
    forall k | 0 <= k < |d| ensures d[k] in d && FindingSays(FindingsUpTo(b, t, h, n)[k], h[d[k]], b[d[k]], t[d[k]]) {
      assert FindingsUpTo(b, t, h, n)[k] == FindingAt(b, t, h, d[k]);
    }
  }

  ghost predicate FindingSays(f: Finding, r: Row, x: int, y: int)
  {
    f == Finding(r.date, r.ticker,
           if x == 0 then HoldName else if x == 1 then BuyName else if x == -1 then SellName else UnknownName,
           if y == 0 then HoldName else if y == 1 then BuyName else if y == -1 then SellName else UnknownName)
  }

  /** A run without covered signals decided to hold on every covered row. */
  lemma SilentMeansHold(rows: seq<Row>, rule: Rule, cutoff: int)
    requires Decides(rule) && LookaheadEvidence(rows, rule, cutoff).Ok?
    ensures var e := LookaheadEvidence(rows, rule, cutoff).value;
            && e.coveredRows <= |Sort(rows)|
            && (e.coveredSignals == 0 <==> forall i | 0 <= i < e.coveredRows :: rule(Sort(rows))[i] == Hold)
  {
    var h := Sort(rows);
    UptoWithin(h, cutoff);
    PrefixHolds(rule(h), |Upto(h, cutoff)|);
  }

  lemma PrefixHolds(actions: seq<int>, n: nat)
    requires n <= |actions|
    ensures Signals(actions[..n]) == 0 <==> forall i | 0 <= i < n :: actions[i] == Hold
  {
    SignalsWithin(actions[..n]);
    assert forall i | 0 <= i < n :: actions[..n][i] == actions[i];
  }

  lemma CoveredDates(rows: seq<Row>, h: seq<Row>, n: nat, cutoff: int)
    requires n <= |h| && (forall r :: r in rows <==> r in h)
    requires forall i | 0 <= i < |h| :: i < n <==> h[i].date <= cutoff
    ensures Dates(h[..n]) == DatesUpTo(rows, cutoff)
  {
    forall r | r in rows && r.date <= cutoff ensures r in h[..n] {
      var i :| 0 <= i < |h| && h[i] == r;
      assert h[..n][i] == r;
    }
    forall r | r in h[..n] ensures r in rows && r.date <= cutoff {
      var i :| 0 <= i < n && h[i] == r;
    }
  }

  lemma SameRows(a: seq<Row>, b: seq<Row>)
    requires multiset(a) == multiset(b)
    ensures |a| == |b| && forall r :: r in a <==> r in b
  {
    assert |multiset(a)| == |multiset(b)|;
    forall r ensures r in a <==> r in b {
      assert r in multiset(a) <==> r in multiset(b);
    }
  }

  lemma {:induction false} FindingsBounded(b: seq<int>, t: seq<int>, rows: seq<Row>, n: nat)
    requires n <= |t| <= |b| && n <= |rows|
    ensures |FindingsUpTo(b, t, rows, n)| <= n
  {
    if n > 0 { FindingsBounded(b, t, rows, n - 1); }
  }

  // ---------------------------------------------------------------------------------------
  // What a clean result means
  // ---------------------------------------------------------------------------------------

  /** The test has nothing to report at this cutoff. */
  ghost predicate Clean(rows: seq<Row>, rule: Rule, cutoff: int)
    requires Decides(rule)
  {
    var r := LookaheadEvidence(rows, rule, cutoff);
    r.Ok? ==> r.value.findings == []
  }

  /** The decisions on rows up to `cutoff` are those of the truncated history. */
  ghost predicate Agrees(h: seq<Row>, rule: Rule, cutoff: int)
    requires Decides(rule)
  {
    |Upto(h, cutoff)| <= |h| && rule(h)[..|Upto(h, cutoff)|] == rule(Upto(h, cutoff))
  }

  lemma CleanIffAgrees(rows: seq<Row>, rule: Rule, cutoff: int)
    requires Decides(rule)
    ensures Clean(rows, rule, cutoff) <==> Agrees(Sort(rows), rule, cutoff)
  {
    var h := Sort(rows);
    UptoWithin(h, cutoff);
    var kept := Upto(h, cutoff);
    var b, t := rule(h), rule(kept);
    CleanIffEqual(b, t, h, |kept|);
    assert t[..|kept|] == t;
  }

  /** The rule never anticipates: histories that agree up to a date get the same decisions up to
      that date, whatever happens later. */
  ghost predicate NonAnticipating(rule: Rule)
    requires Decides(rule)
  {
    forall g: seq<Row>, h: seq<Row>, d: int | Sorted(g) && Sorted(h) && Upto(g, d) == Upto(h, d) ::
      SameUpTo(g, h, rule, d)
  }

  ghost predicate SameUpTo(g: seq<Row>, h: seq<Row>, rule: Rule, d: int)
    requires Decides(rule)
  {
    var n := |Upto(g, d)|;
    n <= |g| && n <= |h| && rule(g)[..n] == rule(h)[..n]
  }

  lemma UptoItself(h: seq<Row>, d: int)
    requires Sorted(h)
    ensures Sorted(Upto(h, d)) && Upto(Upto(h, d), d) == Upto(h, d)
  {
    UptoTwice(h, d, d);
  }

  /** Soundness: a rule that does not anticipate is never accused, on any history at any cutoff. */
  lemma NeverAccused(rule: Rule, rows: seq<Row>, cutoff: int)
    requires Decides(rule) && NonAnticipating(rule)
    ensures Clean(rows, rule, cutoff)
  {
    var h := Sort(rows);
    SortSorted(rows);
    UptoItself(h, cutoff);
    var kept := Upto(h, cutoff);
    assert SameUpTo(h, kept, rule, cutoff);
    assert rule(kept)[..|kept|] == rule(kept);
    CleanIffAgrees(rows, rule, cutoff);
  }

  /** Completeness on one history: no findings at any cutoff means that each row's decision is the one
      computed from the history truncated at that row's own date. */
  lemma CleanMeansCausalDecisions(rule: Rule, rows: seq<Row>, i: nat)
    requires Decides(rule) && i < |Sort(rows)|
    requires Clean(rows, rule, Sort(rows)[i].date)
    ensures i < |Upto(Sort(rows), Sort(rows)[i].date)|
    ensures rule(Sort(rows))[i] == rule(Upto(Sort(rows), Sort(rows)[i].date))[i]
  {
    var h := Sort(rows);
    var d := h[i].date;
    SortSorted(rows);
    UptoIsPrefix(h, d);
    CleanIffAgrees(rows, rule, d);
    assert rule(h)[..|Upto(h, d)|][i] == rule(h)[i];
  }

  /** Every row of `h` is decided as if its date were the last. */
  ghost predicate DayByDay(h: seq<Row>, rule: Rule)
    requires Decides(rule)
  {
    forall i | 0 <= i < |h| ::
      i < |Upto(h, h[i].date)| && rule(h)[i] == rule(Upto(h, h[i].date))[i]
  }

  lemma AgreesEverywhereIsDayByDay(h: seq<Row>, rule: Rule)
    requires Decides(rule) && Sorted(h)
    requires forall c :: Agrees(h, rule, c)
    ensures DayByDay(h, rule)
  {
    forall i | 0 <= i < |h|
      ensures i < |Upto(h, h[i].date)| && rule(h)[i] == rule(Upto(h, h[i].date))[i]
    {
      var d := h[i].date;
      UptoIsPrefix(h, d);
      assert Agrees(h, rule, d);
      assert rule(h)[..|Upto(h, d)|][i] == rule(h)[i];
    }
  }

  /** Agreement is inherited by truncations. */
  lemma AgreesOnTruncation(h: seq<Row>, rule: Rule, c: int, d: int)
    requires Decides(rule) && Sorted(h) && d <= c && Agrees(h, rule, c) && Agrees(h, rule, d)
    ensures Agrees(Upto(h, c), rule, d)
  {
    var g, n := Upto(h, c), |Upto(h, d)|;
    UptoTwice(h, c, d);
    UptoWithin(g, d);
    assert rule(h)[..|g|][..n] == rule(h)[..n];
  }

  lemma AgreesBeyond(h: seq<Row>, rule: Rule, c: int, d: int)
    requires Decides(rule) && Sorted(h) && c <= d
    ensures Agrees(Upto(h, c), rule, d)
  {
    var g := Upto(h, c);
    UptoItself(h, c);
    UptoIsPrefix(h, c);
    assert forall i | 0 <= i < |g| :: g[i] == h[i];
    UptoUnique(g, |g|, d);
    assert Upto(g, d) == g;
    assert rule(g)[..|g|] == rule(g);
  }

  lemma AllTruncationsDayByDay(h: seq<Row>, rule: Rule, c: int)
    requires Decides(rule) && Sorted(h) && forall d :: Agrees(h, rule, d)
    ensures DayByDay(Upto(h, c), rule)
  {
    UptoItself(h, c);
    forall d ensures Agrees(Upto(h, c), rule, d) {
      assert Agrees(h, rule, c) && Agrees(h, rule, d);
      if d <= c { AgreesOnTruncation(h, rule, c, d); } else { AgreesBeyond(h, rule, c, d); }
    }
    AgreesEverywhereIsDayByDay(Upto(h, c), rule);
  }

  lemma DayByDayAgrees(h: seq<Row>, rule: Rule, c: int)
    requires Decides(rule) && Sorted(h) && DayByDay(h, rule) && DayByDay(Upto(h, c), rule)
    ensures Agrees(h, rule, c)
  {
    var g := Upto(h, c);
    UptoIsPrefix(h, c);
    forall i | 0 <= i < |g| ensures rule(h)[i] == rule(g)[i] {
      assert g[i] == h[i];
      UptoTwice(h, c, h[i].date);
    }
    assert rule(h)[..|g|] == rule(g);
  }

  ghost predicate AgreesEverywhere(h: seq<Row>, rule: Rule)
    requires Decides(rule)
  {
    forall c :: Agrees(h, rule, c)
  }

  ghost predicate CleanEverywhere(rows: seq<Row>, rule: Rule)
    requires Decides(rule)
  {
    forall c :: Clean(rows, rule, c)
  }

  /** The history and all its truncations are decided day by day. */
  ghost predicate StagedDayByDay(h: seq<Row>, rule: Rule)
    requires Decides(rule)
  {
    DayByDay(h, rule) && forall c :: DayByDay(Upto(h, c), rule)
  }

  lemma AgreesIffStaged(h: seq<Row>, rule: Rule)
    requires Decides(rule) && Sorted(h)
    ensures AgreesEverywhere(h, rule) <==> StagedDayByDay(h, rule)
  {
    if AgreesEverywhere(h, rule) {
      AgreesEverywhereIsDayByDay(h, rule);
      forall c ensures DayByDay(Upto(h, c), rule) { AllTruncationsDayByDay(h, rule, c); }
    }
    if StagedDayByDay(h, rule) {
      forall c ensures Agrees(h, rule, c) { DayByDayAgrees(h, rule, c); }
    }
  }

  /** On one history the test is clean at every cutoff if and only if the history and all its
      truncations are decided day by day. */
  lemma CleanEverywhereIffDayByDay(rows: seq<Row>, rule: Rule)
    requires Decides(rule)
    ensures CleanEverywhere(rows, rule) <==> StagedDayByDay(Sort(rows), rule)
  {
    SortSorted(rows);
    AgreesIffStaged(Sort(rows), rule);
    CleanIffAgreesEverywhere(rows, rule);
  }

  lemma CleanIffAgreesEverywhere(rows: seq<Row>, rule: Rule)
    requires Decides(rule)
    ensures CleanEverywhere(rows, rule) <==> AgreesEverywhere(Sort(rows), rule)
  {
    var h := Sort(rows);
    if CleanEverywhere(rows, rule) {
      forall c ensures Agrees(h, rule, c) {
        assert Clean(rows, rule, c);
        CleanIffAgrees(rows, rule, c);
      }
    }
    if AgreesEverywhere(h, rule) {
      forall c ensures Clean(rows, rule, c) {
        assert Agrees(h, rule, c);
        CleanIffAgrees(rows, rule, c);
      }
    }
  }

  /** A cutoff between dates keeps the same rows as the last date before it. */
  lemma CutAtObserved(h: seq<Row>, cutoff: int)
    requires Sorted(h) && 0 < |Upto(h, cutoff)| <= |h|
    ensures Upto(h, h[|Upto(h, cutoff)| - 1].date) == Upto(h, cutoff)
  {
    UptoIsPrefix(h, cutoff);
    var n := |Upto(h, cutoff)|;
    var last := h[n - 1];
    forall i | 0 <= i < |h| ensures i < n <==> h[i].date <= last.date {
      assert i < n <==> h[i].date <= cutoff;
      if i < n - 1 { assert Before(h[i], last); }
    }
    UptoUnique(h, n, last.date);
  }

  /** Checking the dates that occur is checking every cutoff. */
  lemma ObservedCutoffsSuffice(rows: seq<Row>, rule: Rule, cutoff: int)
    requires Decides(rule) && forall r | r in rows :: Clean(rows, rule, r.date)
    ensures Clean(rows, rule, cutoff)
  {
    var h := Sort(rows);
    SortSorted(rows);
    SortRows(rows);
    SameRows(rows, h);
    UptoWithin(h, cutoff);
    CleanIffAgrees(rows, rule, cutoff);
    var n := |Upto(h, cutoff)|;
    if n > 0 {
      CutAtObserved(h, cutoff);
      CleanIffAgrees(rows, rule, h[n - 1].date);
      assert h[n - 1] in rows;
    } else {
      assert Clean(rows, rule, cutoff);
    }
  }

  /** Soundness and completeness together: the test is clean on every history at every cutoff if and
      only if the rule does not anticipate. */
  lemma CleanIffNonAnticipating(rule: Rule)
    requires Decides(rule)
    ensures (forall rows: seq<Row>, c: int :: Clean(rows, rule, c)) <==> NonAnticipating(rule)
  {
    if NonAnticipating(rule) {
      forall rows: seq<Row>, c: int ensures Clean(rows, rule, c) { NeverAccused(rule, rows, c); }
    }
    if forall rows: seq<Row>, c: int :: Clean(rows, rule, c) {
      forall g: seq<Row>, h: seq<Row>, d: int | Sorted(g) && Sorted(h) && Upto(g, d) == Upto(h, d)
        ensures SameUpTo(g, h, rule, d)
      {
        assert Clean(g, rule, d) && Clean(h, rule, d);
        CleanAgree(g, h, rule, d);
      }
    }
  }

  lemma CleanAgree(g: seq<Row>, h: seq<Row>, rule: Rule, d: int)
    requires Decides(rule) && Sorted(g) && Sorted(h) && Upto(g, d) == Upto(h, d)
    requires Clean(g, rule, d) && Clean(h, rule, d)
    ensures SameUpTo(g, h, rule, d)
  {
    SortIdentity(g);
    SortIdentity(h);
    CleanIffAgrees(g, rule, d);
    CleanIffAgrees(h, rule, d);
  }
}
