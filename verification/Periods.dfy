/** Reporting periods: their boundaries, and that splitting a span into periods loses no earnings. */
module Periods {
  import opened Common
  import opened Streams
  import opened BalanceService
  import Calendar

  datatype Duration = Daily | Weekly | Monthly | Custom(seconds: int) | Unknown

  datatype Period = Period(start: int, end: int)

  /** The next boundary; `None` when the source throws. */
  function NextCursor(cursor: nat, kind: Duration): (r: Option<int>)
    ensures r.Some? ==> r.value > cursor
  {
    match kind
    case Daily => Calendar.AddDayIsOneDay(cursor); Some(Calendar.AddDay(cursor))
    case Weekly => Some(cursor + 7 * 86_400)
    case Monthly => Calendar.AddMonthIsMonthLength(cursor); Some(Calendar.AddMonth(cursor))
    case Custom(seconds) => if seconds <= 0 then None else Some(cursor + seconds)
    case Unknown => None
  }

  predicate Supported(kind: Duration) {
    kind.Daily? || kind.Weekly? || kind.Monthly? || (kind.Custom? && kind.seconds > 0)
  }

  /** Periods one after another, without gaps and none empty. */
  ghost predicate Chained(ps: seq<Period>) {
    && (forall i :: 0 <= i < |ps| ==> 0 <= ps[i].start < ps[i].end)
    && (forall i :: 0 <= i < |ps| - 1 ==> ps[i].end == ps[i + 1].start)
  }

  /** Chained periods from `lo` to `hi`; none at all for an empty span. */
  ghost predicate Covers(ps: seq<Period>, lo: int, hi: int) {
    Chained(ps) && if ps == [] then lo >= hi else ps[0].start == lo && ps[|ps| - 1].end == hi
  }

  /** Where a period of each kind ends that is not cut short: a day, a week or a number of seconds later, or one
      length of the calendar month it starts in. */
  function PeriodEnd(start: nat, kind: Duration): int {
    match kind
    case Daily => start + 86_400
    case Weekly => start + 604_800
    case Monthly =>
      var date := Calendar.DateOf(start / 86_400);
      start + Calendar.DaysInMonth(date.month, Calendar.IsLeap(date.year)) * 86_400
    case Custom(seconds) => start + seconds
    case Unknown => start
  }

  /** The cursor moves to the end of the period, and throws exactly for an unsupported kind. */
  lemma NextCursorIsPeriodEnd(cursor: nat, kind: Duration)
    ensures NextCursor(cursor, kind) == if Supported(kind) then Some(PeriodEnd(cursor, kind)) else None
  {
    match kind
    case Daily => Calendar.AddDayIsOneDay(cursor);
    case Monthly => Calendar.AddMonthIsMonthLength(cursor);
    case _ =>
  }

  /** A period of its kind, cut off at `hi`. */
  predicate StepsTo(p: Period, hi: int, kind: Duration) {
    0 <= p.start && p.end == Min(PeriodEnd(p.start, kind), hi)
  }

  predicate Stepped(ps: seq<Period>, hi: int, kind: Duration) {
    ps == [] || (Stepped(ps[..|ps| - 1], hi, kind) && StepsTo(ps[|ps| - 1], hi, kind))
  }

  lemma ChainMore(ps: seq<Period>, p: Period, lo: int)
    requires Chained(ps) && 0 <= p.start < p.end
    requires if ps == [] then p.start == lo else ps[0].start == lo && ps[|ps| - 1].end == p.start
    ensures Covers(ps + [p], lo, p.end)
  {
    assert forall i :: 0 <= i < |ps| ==> (ps + [p])[i] == ps[i];
  }

  lemma SteppedMore(ps: seq<Period>, p: Period, hi: int, kind: Duration)
    requires Stepped(ps, hi, kind) && StepsTo(p, hi, kind)
    ensures Stepped(ps + [p], hi, kind)
  {
    assert (ps + [p])[..|ps|] == ps;
  }

  /** The period that starts at the cursor, and the next cursor. */
  method NextPeriod(cursor: nat, hi: int, kind: Duration) returns (p: Period, next: nat, ok: bool)
    requires cursor < hi
    ensures ok <==> Supported(kind)
    ensures ok ==> cursor < next && p == Period(cursor, Min(next, hi)) && StepsTo(p, hi, kind)
  {
    NextCursorIsPeriodEnd(cursor, kind);
    var boundary := NextCursor(cursor, kind);
    next := boundary.Or(cursor);
    p, ok := Period(cursor, Min(next, hi)), boundary.Some?;
  }

  lemma {:induction false} SteppedAt(ps: seq<Period>, hi: int, kind: Duration, i: nat)
    requires Stepped(ps, hi, kind) && i < |ps|
    ensures StepsTo(ps[i], hi, kind)
  {
    if i < |ps| - 1 {
      SteppedAt(ps[..|ps| - 1], hi, kind, i);
    }
  }

  /** Every period of a report ends a whole step of its kind after it starts, or at the end of the span. */
  lemma StepLengths(ps: seq<Period>, hi: int, kind: Duration, i: nat)
    requires Stepped(ps, hi, kind) && i < |ps|
    ensures 0 <= ps[i].start
    ensures var date := Calendar.DateOf(ps[i].start / 86_400);
      && (kind == Daily ==> ps[i].end == Min(ps[i].start + 86_400, hi))
      && (kind == Weekly ==> ps[i].end == Min(ps[i].start + 604_800, hi))
      && (kind == Monthly ==>
            ps[i].end
            == Min(ps[i].start + Calendar.DaysInMonth(date.month, Calendar.IsLeap(date.year)) * 86_400, hi))
      && (kind.Custom? ==> ps[i].end == Min(ps[i].start + kind.seconds, hi))
  {
    SteppedAt(ps, hi, kind, i);
  }

  /** `buildPeriods`: ends, throws only for an unsupported kind, and otherwise covers the span exactly. */
  method BuildPeriods(lo: nat, hi: int, kind: Duration) returns (r: Option<seq<Period>>)
    ensures r.None? <==> lo < hi && !Supported(kind)
    ensures r.Some? ==> Covers(r.value, lo, hi) && Stepped(r.value, hi, kind)
    ensures r.Some? && lo >= hi ==> r.value == []
  {
    var periods, cursor: nat := [], lo;
    while cursor < hi
      invariant lo <= cursor && (lo < cursor ==> lo < hi && Supported(kind) && periods != [])
      invariant periods == [] ==> cursor == lo
      invariant periods != [] ==> lo < hi && Covers(periods, lo, Min(cursor, hi))
      invariant Stepped(periods, hi, kind)
      decreases hi - cursor
    {
      var p, next, ok := NextPeriod(cursor, hi, kind);
      if !ok { return None; }
      ChainMore(periods, p, lo);
      SteppedMore(periods, p, hi, kind);
      periods := periods + [p];
      cursor := next;
    }
    return Some(periods);
  }

  // ----- earnings per period

  /** What one period reports: the balance of the stream restricted to that period. */
  function Earned(s: StreamView, p: Period): int {
    CalculateBalance(s.(lastWithdrawTime := p.start, stopTime := p.end), p.end).claimable
  }

  function TotalEarned(s: StreamView, ps: seq<Period>): int {
    if ps == [] then 0 else TotalEarned(s, ps[..|ps| - 1]) + Earned(s, ps[|ps| - 1])
  }

  /** Seconds of the period in which the stream is not paused. */
  function ActiveSeconds(s: StreamView, lo: int, hi: int): int {
    hi - lo - PausedCount(s.pauseHistory, lo, hi)
  }

  /** What a stream earns in [lo, hi) when no cap applies. */
  function Due(s: StreamView, lo: int, hi: int): int {
    ActiveSeconds(s, lo, hi) * s.rate
  }

  /** A period that ends before the cliff reports nothing. */
  predicate Reported(s: StreamView, p: Period) {
    !(s.cliffTime > 0 && p.end < s.cliffTime)
  }

  predicate CapReached(s: StreamView, p: Period) {
    Reported(s, p) && Due(s, p.start, p.end) > s.deposit - s.withdrawn
  }

  lemma EarnedInPeriod(s: StreamView, p: Period)
    requires Alternating(s.pauseHistory) && !IsTerminal(s.status)
    requires s.withdrawn <= s.deposit && 0 <= s.rate && 0 <= p.start < p.end
    ensures Earned(s, p) == if Reported(s, p) then Min(Due(s, p.start, p.end), s.deposit - s.withdrawn) else 0
  {
    if Reported(s, p) {
      BalanceMeaning(s.(lastWithdrawTime := p.start, stopTime := p.end), p.end);
    }
  }

  lemma {:induction false} ChainAscends(ps: seq<Period>, i: nat, j: nat)
    requires Chained(ps) && i <= j < |ps|
    ensures ps[i].start <= ps[j].start
    decreases j - i
  {
    if i < j {
      ChainAscends(ps, i, j - 1);
    }
  }

  lemma DueSplits(s: StreamView, lo: int, mid: int, hi: int)
    requires lo <= mid <= hi
    ensures Due(s, lo, hi) == Due(s, lo, mid) + Due(s, mid, hi)
  {
    CountSplits(s.pauseHistory, lo, mid, hi);
    var a, b := ActiveSeconds(s, lo, mid), ActiveSeconds(s, mid, hi);
    assert ActiveSeconds(s, lo, hi) == a + b;
    assert (a + b) * s.rate == a * s.rate + b * s.rate;
  }

  /** Where reporting starts: with the first period that ends at or after the cliff; at the end of the span
      when there is none. */
  function ReportedFrom(s: StreamView, ps: seq<Period>): int
    requires ps != []
  {
    var n := |ps| - 1;
    if !Reported(s, ps[n]) then ps[n].end
    else if n == 0 then ps[0].start
    else ReportedFrom(s, ps[..n])
  }

  lemma {:induction false} ReportedFromIs(s: StreamView, ps: seq<Period>)
    requires Chained(ps) && ps != []
    ensures ps[0].start <= ReportedFrom(s, ps) <= ps[|ps| - 1].end
    ensures forall i :: 0 <= i < |ps| ==> (Reported(s, ps[i]) <==> ReportedFrom(s, ps) <= ps[i].start)
    ensures s.cliffTime <= 0 ==> ReportedFrom(s, ps) == ps[0].start
  {
    var n := |ps| - 1;
    if Reported(s, ps[n]) && n > 0 {
      ReportedFromIs(s, ps[..n]);
      assert ps[..n][n - 1].end == ps[n].start;
    } else {
      forall i | 0 <= i < n
        ensures ps[i].end < ps[n].end && ps[i].start < ps[n].end
        ensures ps[0].start <= ps[n].start
      {
        ChainAscends(ps, i + 1, n);
        ChainAscends(ps, 0, n);
      }
    }
  }

  predicate NoCap(s: StreamView, ps: seq<Period>) {
    forall i :: 0 <= i < |ps| ==> !CapReached(s, ps[i])
  }

  lemma {:induction false} NothingReported(s: StreamView, ps: seq<Period>)
    requires Alternating(s.pauseHistory) && !IsTerminal(s.status)
    requires s.withdrawn <= s.deposit && 0 <= s.rate && Chained(ps)
    requires ps != [] ==> !Reported(s, ps[|ps| - 1])
    ensures TotalEarned(s, ps) == 0 && NoCap(s, ps)
  {
    if ps != [] {
      var n := |ps| - 1;
      EarnedInPeriod(s, ps[n]);
      NothingReported(s, ps[..n]);
      assert forall i :: 0 <= i < n ==> ps[..n][i] == ps[i];
    }
  }

  /** The reported earnings never exceed the rate times the active seconds from where reporting starts to the
      end of the span, and add up to that exactly when no reported period reaches the deposit cap. */
  lemma {:induction false} PeriodsLoseNothing(s: StreamView, ps: seq<Period>)
    requires Alternating(s.pauseHistory) && !IsTerminal(s.status)
    requires s.withdrawn <= s.deposit && 0 <= s.rate && Chained(ps) && ps != []
    ensures TotalEarned(s, ps) <= Due(s, ReportedFrom(s, ps), ps[|ps| - 1].end)
    ensures TotalEarned(s, ps) == Due(s, ReportedFrom(s, ps), ps[|ps| - 1].end) <==> NoCap(s, ps)
  {
    var n := |ps| - 1;
    var front, last := ps[..n], ps[n];
    EarnedInPeriod(s, last);
    ReportedFromIs(s, ps);
    assert NoCap(s, ps) <==> NoCap(s, front) && !CapReached(s, last) by {
      assert forall i :: 0 <= i < n ==> front[i] == ps[i];
    }
    if n == 0 {
      assert TotalEarned(s, front) == 0;
    } else {
      PeriodsLoseNothing(s, front);
      ReportedFromIs(s, front);
      assert front[n - 1].end == last.start;
      if Reported(s, last) {
        DueSplits(s, ReportedFrom(s, front), last.start, last.end);
      } else {
        NothingReported(s, front);
      }
    }
  }

  function Total(xs: seq<int>): int {
    if xs == [] then 0 else Total(xs[..|xs| - 1]) + xs[|xs| - 1]
  }

  lemma {:induction false} TotalOfRows(s: StreamView, ps: seq<Period>, earned: seq<int>)
    requires |earned| == |ps| && forall i :: 0 <= i < |ps| ==> earned[i] == Earned(s, ps[i])
    ensures Total(earned) == TotalEarned(s, ps)
  {
    if ps != [] {
      TotalOfRows(s, ps[..|ps| - 1], earned[..|ps| - 1]);
    }
  }

  /** The rows of a whole report add up as they should. */
  ghost predicate AddsUp(s: StreamView, ps: seq<Period>, earned: seq<int>) {
    && (ps == [] ==> Total(earned) == 0)
    && (ps != [] ==>
          && Total(earned) <= Due(s, ReportedFrom(s, ps), ps[|ps| - 1].end)
          && (Total(earned) == Due(s, ReportedFrom(s, ps), ps[|ps| - 1].end) <==> NoCap(s, ps)))
  }

  lemma RowsAddUp(s: StreamView, ps: seq<Period>, earned: seq<int>)
    requires Alternating(s.pauseHistory) && !IsTerminal(s.status)
    requires s.withdrawn <= s.deposit && 0 <= s.rate && Chained(ps)
    requires |earned| == |ps| && forall i :: 0 <= i < |ps| ==> earned[i] == Earned(s, ps[i])
    ensures AddsUp(s, ps, earned)
  {
    TotalOfRows(s, ps, earned);
    if ps != [] {
      PeriodsLoseNothing(s, ps);
    }
  }

  method EarnedInEach(s: StreamView, periods: seq<Period>) returns (earned: seq<int>)
    ensures |earned| == |periods| && forall i :: 0 <= i < |periods| ==> earned[i] == Earned(s, periods[i])
  {
    earned := [];
    for i := 0 to |periods|
      invariant |earned| == i
      invariant forall j :: 0 <= j < i ==> earned[j] == Earned(s, periods[j])
    {
      earned := earned + [Earned(s, periods[i])];
    }
  }

  /** `calculateBalanceByDuration`: one row per period of the span from start to effective end, each with
      what that period earned; for a live stream the rows add up. */
  method CalculateBalanceByDuration(s: StreamView, kind: Duration, now: int)
    returns (periods: seq<Period>, earned: seq<int>, ok: bool)
    requires 0 <= s.startTime
    ensures !ok <==> s.startTime < WindowEnd(s, now) && !Supported(kind)
    ensures ok ==> Covers(periods, s.startTime, WindowEnd(s, now)) && Stepped(periods, WindowEnd(s, now), kind)
    ensures ok ==> |earned| == |periods| && forall i :: 0 <= i < |periods| ==> earned[i] == Earned(s, periods[i])
    ensures ok && Alternating(s.pauseHistory) && !IsTerminal(s.status) && s.withdrawn <= s.deposit && 0 <= s.rate ==>
      AddsUp(s, periods, earned)
  {
    var built := BuildPeriods(s.startTime, WindowEnd(s, now), kind);
    periods, ok := built.Or([]), built.Some?;
    earned := EarnedInEach(s, periods);
    if ok && Alternating(s.pauseHistory) && !IsTerminal(s.status) && s.withdrawn <= s.deposit && 0 <= s.rate {
      RowsAddUp(s, periods, earned);
    }
  }
}
