/** The off-chain balance calculator: paused time from the pause history, and the balance it implies.
    Numbers are exact integers. */
module BalanceService {
  import opened Common
  import opened Streams

  // ----- reference meaning of a pause history

  /** Whether second `t` is paused: the latest event not after `t` is a pause. */
  predicate PausedAt(h: seq<PauseEvent>, t: int) {
    if h == [] then false
    else if h[|h| - 1].timestamp <= t then h[|h| - 1].isPause
    else PausedAt(h[..|h| - 1], t)
  }

  /** The number of paused seconds in [lo, hi). */
  function PausedCount(h: seq<PauseEvent>, lo: int, hi: int): (n: nat)
    ensures lo <= hi ==> n <= hi - lo
    decreases hi - lo
  {
    if hi <= lo then 0
    else PausedCount(h, lo, hi - 1) + (if PausedAt(h, hi - 1) then 1 else 0)
  }

  /** Time-ordered events that alternate, starting with a pause. */
  predicate Alternating(h: seq<PauseEvent>) {
    && (forall i, j :: 0 <= i < j < |h| ==> h[i].timestamp <= h[j].timestamp)
    && (forall i :: 0 <= i < |h| ==> (h[i].isPause <==> i % 2 == 0))
  }

  /** Counting is additive when a window is split anywhere. */
  lemma {:induction false} CountSplits(h: seq<PauseEvent>, lo: int, mid: int, hi: int)
    requires lo <= mid <= hi
    ensures PausedCount(h, lo, hi) == PausedCount(h, lo, mid) + PausedCount(h, mid, hi)
    decreases hi - mid
  {
    if mid < hi {
      CountSplits(h, lo, mid, hi - 1);
    }
  }

  function Clamp(t: int, lo: int, hi: int): int {
    Min(Max(t, lo), hi)
  }

  /** An appended event decides every second from its own timestamp on, and no earlier one. */
  lemma {:induction false} CountAfterAppend(h: seq<PauseEvent>, e: PauseEvent, lo: int, hi: int)
    requires lo <= hi
    ensures PausedCount(h + [e], lo, hi)
         == PausedCount(h, lo, Clamp(e.timestamp, lo, hi))
            + (if e.isPause then hi - Clamp(e.timestamp, lo, hi) else 0)
    decreases hi - lo
  {
    assert (h + [e])[..|h|] == h;
    if lo < hi {
      CountAfterAppend(h, e, lo, hi - 1);
      assert PausedAt(h + [e], hi - 1) == if e.timestamp <= hi - 1 then e.isPause else PausedAt(h, hi - 1);
    }
  }

  // ----- the loop of the source

  datatype Scan = Scan(paused: int, start: Option<int>)

  /** One iteration over the history. */
  function ScanEvent(s: Scan, e: PauseEvent, lo: int, hi: int): Scan {
    if e.isPause then
      if e.timestamp < hi then s.(start := Some(Max(e.timestamp, lo))) else s
    else if s.start.Some? then
      var resumeAt := Min(e.timestamp, hi);
      Scan(if resumeAt > s.start.value then s.paused + (resumeAt - s.start.value) else s.paused, None)
    else s
  }

  function ScanAll(h: seq<PauseEvent>, lo: int, hi: int): Scan {
    if h == [] then Scan(0, None)
    else ScanEvent(ScanAll(h[..|h| - 1], lo, hi), h[|h| - 1], lo, hi)
  }

  /** `calcPausedSeconds` for any history, ordered or not. */
  function PausedSeconds(h: seq<PauseEvent>, lo: int, hi: int): int {
    var s := ScanAll(h, lo, hi);
    s.paused + (if s.start.Some? then hi - s.start.value else 0)
  }

  /** What the loop knows after an alternating history: an open pause exactly if the last event is a pause
      that starts before the window ends. */
  predicate OpenPause(h: seq<PauseEvent>, lo: int, hi: int, start: Option<int>) {
    start ==
      if h != [] && h[|h| - 1].isPause && h[|h| - 1].timestamp < hi
      then Some(Max(h[|h| - 1].timestamp, lo))
      else None
  }

  /** After the last event the history keeps its final state. */
  lemma {:induction false} SteadyTail(h: seq<PauseEvent>, lo: int, hi: int, t: int)
    requires lo <= hi && (lo < hi ==> t <= lo)
    requires h != [] ==> h[|h| - 1].timestamp <= t
    ensures PausedCount(h, lo, hi) == if h != [] && h[|h| - 1].isPause then hi - lo else 0
    decreases hi - lo
  {
    if lo < hi {
      SteadyTail(h, lo, hi - 1, t);
    }
  }

  /** One more event keeps the loop exact. */
  lemma ScanStep(front: seq<PauseEvent>, e: PauseEvent, lo: int, hi: int)
    requires lo <= hi && Alternating(front + [e])
    requires OpenPause(front, lo, hi, ScanAll(front, lo, hi).start)
    requires PausedSeconds(front, lo, hi) == PausedCount(front, lo, hi)
    ensures var s := ScanEvent(ScanAll(front, lo, hi), e, lo, hi);
      && OpenPause(front + [e], lo, hi, s.start)
      && s.paused + (if s.start.Some? then hi - s.start.value else 0) == PausedCount(front + [e], lo, hi)
  {
    var n, h := |front|, front + [e];
    assert n > 0 ==> h[n - 1] == front[n - 1] && h[n - 1].timestamp <= h[n].timestamp;
    assert (n > 0 ==> front[n - 1].isPause != e.isPause) && (n == 0 ==> e.isPause);
    CountAfterAppend(front, e, lo, hi);
    var cut := Clamp(e.timestamp, lo, hi);
    CountSplits(front, lo, cut, hi);
    SteadyTail(front, cut, hi, e.timestamp);
  }

  lemma {:induction false} NothingPaused(lo: int, hi: int)
    ensures PausedCount([], lo, hi) == 0
    decreases hi - lo
  {
    if lo < hi {
      NothingPaused(lo, hi - 1);
    }
  }

  /** For every alternating history and every window the loop returns exactly the number of paused seconds. */
  lemma {:induction false} PausedSecondsExact(h: seq<PauseEvent>, lo: int, hi: int)
    requires Alternating(h) && lo <= hi
    ensures PausedSeconds(h, lo, hi) == PausedCount(h, lo, hi)
    ensures OpenPause(h, lo, hi, ScanAll(h, lo, hi).start)
  {
    if h == [] {
      NothingPaused(lo, hi);
    } else {
      var n := |h| - 1;
      assert h == h[..n] + [h[n]];
      PausedSecondsExact(h[..n], lo, hi);
      ScanStep(h[..n], h[n], lo, hi);
    }
  }

  lemma PausedSecondsExactIf(h: seq<PauseEvent>, lo: int, hi: int)
    ensures Alternating(h) && lo <= hi ==> PausedSeconds(h, lo, hi) == PausedCount(h, lo, hi)
  {
    if Alternating(h) && lo <= hi {
      PausedSecondsExact(h, lo, hi);
    }
  }

  method CalcPausedSeconds(h: seq<PauseEvent>, lo: int, hi: int) returns (paused: int)
    ensures paused == PausedSeconds(h, lo, hi)
    ensures Alternating(h) && lo <= hi ==> paused == PausedCount(h, lo, hi)
  {
    paused := 0;
    if |h| == 0 {
      PausedSecondsExactIf(h, lo, hi);
      return;
    }
    var pauseStart: Option<int> := None;
    for i := 0 to |h|
      invariant Scan(paused, pauseStart) == ScanAll(h[..i], lo, hi)
    {
      assert h[..i + 1][..i] == h[..i];
      var t := h[i].timestamp;
      if h[i].isPause {
        if t < hi {
          pauseStart := Some(Max(t, lo));
        }
      } else if pauseStart.Some? {
        var resumeAt := Min(t, hi);
        if resumeAt > pauseStart.value {
          paused := paused + (resumeAt - pauseStart.value);
        }
        pauseStart := None;
      }
    }
    assert h[..|h|] == h;
    if pauseStart.Some? {
      paused := paused + (hi - pauseStart.value);
    }
    PausedSecondsExactIf(h, lo, hi);
  }

  // ----- the balance

  datatype StreamView = StreamView(
    deposit: int,
    withdrawn: int,
    rate: int,
    startTime: int,
    stopTime: int,
    lastWithdrawTime: int,
    cliffTime: int,
    status: Status,
    pauseHistory: seq<PauseEvent>)

  datatype Balance = Balance(claimable: int, accruedTotal: int, activeElapsed: int, pausedElapsed: int)

  const NoBalance: Balance := Balance(0, 0, 0, 0)

  function WindowEnd(s: StreamView, now: int): int {
    if s.stopTime > 0 && now > s.stopTime then s.stopTime else now
  }

  function CalculateBalance(s: StreamView, now: int): Balance {
    if IsTerminal(s.status) then NoBalance
    else if s.cliffTime > 0 && now < s.cliffTime then NoBalance
    else
      var start, end := s.lastWithdrawTime, WindowEnd(s, now);
      if end <= start then NoBalance else
        var paused := PausedSeconds(s.pauseHistory, start, end);
        var active := Max(0, end - start - paused);
        var accrued := active * s.rate;
        Balance(Min(accrued, Max(0, s.deposit - s.withdrawn)), accrued, active, paused)
  }

  /** The balance is the rate times the seconds of the window that are not paused, capped by the deposit; the
      four figures of the report, one by one. */
  lemma BalanceMeaning(s: StreamView, now: int)
    requires Alternating(s.pauseHistory) && !IsTerminal(s.status) && !(s.cliffTime > 0 && now < s.cliffTime)
    requires s.lastWithdrawTime <= WindowEnd(s, now) && s.withdrawn <= s.deposit && 0 <= s.rate
    ensures var window := WindowEnd(s, now) - s.lastWithdrawTime;
      var paused := PausedCount(s.pauseHistory, s.lastWithdrawTime, WindowEnd(s, now));
      var b := CalculateBalance(s, now);
      && b.claimable == Min((window - paused) * s.rate, s.deposit - s.withdrawn)
      && b.accruedTotal == (window - paused) * s.rate
      && b.activeElapsed == window - paused && b.pausedElapsed == paused
  {
    PausedSecondsExact(s.pauseHistory, s.lastWithdrawTime, WindowEnd(s, now));
  }

  /** Ended streams, streams before their cliff and empty windows report nothing; the window ends at the stop time
      or now, whichever is earlier. */
  lemma NothingReportedIff(s: StreamView, now: int)
    requires s.withdrawn < s.deposit && 0 < s.rate && Alternating(s.pauseHistory)
    ensures CalculateBalance(s, now) == NoBalance <==>
      || s.status == Cancelled || s.status == Exhausted
      || (0 < s.cliffTime && now < s.cliffTime)
      || (if 0 < s.stopTime then Min(s.stopTime, now) else now) <= s.lastWithdrawTime
  {
    if s.lastWithdrawTime < WindowEnd(s, now) {
      PausedSecondsExact(s.pauseHistory, s.lastWithdrawTime, WindowEnd(s, now));
    }
  }
}
