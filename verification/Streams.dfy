/** A salary stream, its status machine, creation checks and the claimable amount. */
module Streams {
  import opened Common

  const MAX_RATE_PER_SECOND: i128 := 1_000_000_000
  const MAX_STREAM_DURATION: u64 := 315_360_000

  datatype Status = Active | Paused | Cancelled | Exhausted

  datatype Stream = Stream(
    id: u64,
    employer: Address,
    employee: Address,
    token: Address,
    deposit: i128,
    withdrawn: i128,
    rate: i128,
    startTime: u64,
    stopTime: u64,
    lastWithdrawTime: u64,
    cooldown: u64,
    status: Status,
    locked: bool,
    cliffTime: u64,
    pausedAt: u64,
    delegate: Option<Address>)

  datatype PauseEvent = PauseEvent(timestamp: u64, isPause: bool)

  datatype Params = Params(
    employee: Address,
    token: Address,
    deposit: i128,
    rate: i128,
    stopTime: u64,
    cliffTime: u64)

  // ----- status machine

  predicate IsValidTransition(from: Status, to: Status) {
    || (from == Active && to in {Paused, Cancelled, Exhausted})
    || (from == Paused && to in {Active, Cancelled})
  }

  predicate IsTerminal(status: Status) {
    status == Cancelled || status == Exhausted
  }

  /** Terminal states are exactly the ones with no way out. */
  lemma TerminalMeansStuck(status: Status)
    ensures IsTerminal(status) <==> forall to :: !IsValidTransition(status, to)
  {
    assert IsValidTransition(Active, Paused) && IsValidTransition(Paused, Active);
  }

  // ----- creation checks

  /** `(deposit / rate) as u64`: the cast keeps the low 64 bits. */
  function StreamedSeconds(deposit: i128, rate: i128): u64
    requires deposit > 0 && rate > 0
  {
    (deposit / rate) % (U64_MAX + 1)
  }

  predicate ValidParams(p: Params, minDeposit: i128, now: u64, employer: Address) {
    && p.deposit > 0
    && p.deposit >= minDeposit
    && 0 < p.rate <= MAX_RATE_PER_SECOND
    && p.deposit >= p.rate * 60
    && StreamedSeconds(p.deposit, p.rate) <= MAX_STREAM_DURATION
    && (p.stopTime > 0 ==> p.stopTime > now && p.stopTime - now <= MAX_STREAM_DURATION)
    && (p.cliffTime > 0 && p.stopTime > 0 ==> p.cliffTime <= p.stopTime)
    && employer != p.employee
  }

  // ----- claimable amount

  function EffectiveEnd(s: Stream, now: u64): u64 {
    if s.stopTime > 0 && now > s.stopTime then s.stopTime else now
  }

  function Elapsed(s: Stream, now: u64): u64 {
    SatSub(EffectiveEnd(s, now), s.lastWithdrawTime)
  }

  predicate BeforeCliff(s: Stream, now: u64) {
    s.cliffTime > 0 && now < s.cliffTime
  }

  function RemainingDeposit(s: Stream): i128 {
    Max(Checked(s.deposit - s.withdrawn).Or(0), 0)
  }

  /** `claimable_amount`; `None` when the checked multiplication overflows and the call panics. */
  function ClaimableAmount(s: Stream, now: u64): (r: Option<i128>)
    ensures r.Some? ==> r.value >= 0
  {
    if IsTerminal(s.status) || BeforeCliff(s, now) || Elapsed(s, now) == 0 then Some(0) else
      var earned :- Checked(Elapsed(s, now) * s.rate);
      Some(Max(Min(earned, RemainingDeposit(s)), 0))
  }

  /** What every stored stream satisfies between two calls, at ledger time `now`. */
  ghost predicate StreamOk(s: Stream, now: u64) {
    && 0 <= s.withdrawn <= s.deposit
    && 0 < s.deposit
    && 0 < s.rate <= MAX_RATE_PER_SECOND
    && !s.locked
    && s.startTime <= s.lastWithdrawTime <= now
    && (s.status == Paused ==> s.lastWithdrawTime <= s.pausedAt <= now)
    && (s.cliffTime > 0 && s.stopTime > 0 ==> s.cliffTime <= s.stopTime)
  }

  /** The amount owed in plain arithmetic, without overflow cases. */
  function Owed(s: Stream, now: u64): int {
    if IsTerminal(s.status) || BeforeCliff(s, now) then 0
    else Min(Elapsed(s, now) * s.rate, s.deposit - s.withdrawn)
  }

  lemma ProductBounds(a: int, b: int, aMax: int, bMax: int)
    requires 0 <= a <= aMax && 0 <= b <= bMax
    ensures 0 <= a * b <= aMax * bMax
  {
    assert a * b <= aMax * b <= aMax * bMax;
  }

  /** On a well-formed stream `claimable_amount` cannot overflow at any u64 time, is the plain amount
      owed, fits beside what was withdrawn, and leaves room for any u32 fee multiplication. */
  lemma ClaimableIsOwed(s: Stream, now: u64, t: u64)
    requires StreamOk(s, now)
    ensures ClaimableAmount(s, t) == Some(Owed(s, t))
    ensures 0 <= Owed(s, t) && s.withdrawn + Owed(s, t) <= s.deposit
    ensures forall bps: u32 :: 0 <= Owed(s, t) * bps <= I128_MAX
  {
    var e := Elapsed(s, t);
    ProductBounds(e, s.rate, U64_MAX, MAX_RATE_PER_SECOND);
    forall bps: u32
      ensures 0 <= Owed(s, t) * bps <= I128_MAX
    {
      ProductBounds(Owed(s, t), bps, U64_MAX * MAX_RATE_PER_SECOND, U32_MAX);
    }
  }

  /** The claimable amount at any time, in plain arithmetic: nothing for an ended stream or before the cliff; from
      the cliff on the rate for each second from the accrual origin to then or the stop time, whichever is
      earlier, as far as the deposit goes. */
  lemma ClaimableInPlain(s: Stream, now: u64, t: u64)
    requires StreamOk(s, now)
    ensures var until := if 0 < s.stopTime < t then s.stopTime else t;
      ClaimableAmount(s, t) == Some(
        if s.status == Cancelled || s.status == Exhausted then 0
        else if 0 < s.cliffTime && t < s.cliffTime then 0
        else if until <= s.lastWithdrawTime then 0
        else Min((until - s.lastWithdrawTime) * s.rate, s.deposit - s.withdrawn))
  {
    ClaimableIsOwed(s, now, t);
  }

  // ----- gaps between the code and its documentation

  /** The ten-year cap on `deposit / rate` means what it says while the quotient fits in 64 bits; beyond
      that the cast drops the high bits, and at every legal rate some over-long stream passes. */
  lemma DurationCapTruncates(deposit: i128, rate: i128)
    requires deposit > 0 && 0 < rate <= MAX_RATE_PER_SECOND
    ensures deposit / rate <= U64_MAX ==>
      (StreamedSeconds(deposit, rate) <= MAX_STREAM_DURATION <==> deposit / rate <= MAX_STREAM_DURATION)
    ensures var long := rate * (U64_MAX + 1);
      long <= I128_MAX && StreamedSeconds(long, rate) == 0 && long / rate > MAX_STREAM_DURATION
  {
    var n := U64_MAX + 1;
    ProductBounds(rate, n, MAX_RATE_PER_SECOND, n);
    assert (rate * n) / rate == n;
  }

  lemma AccruesLater(s: Stream, p: u64, t: u64)
    requires s.rate > 0 && p <= t
    ensures Elapsed(s, p) * s.rate <= Elapsed(s, t) * s.rate
    ensures Elapsed(s, p) < Elapsed(s, t) ==> Elapsed(s, p) * s.rate < Elapsed(s, t) * s.rate
  {
    var extra := Elapsed(s, t) - Elapsed(s, p);
    assert Elapsed(s, t) * s.rate == Elapsed(s, p) * s.rate + extra * s.rate;
  }

  /** The first time at which a stream paused at `s.pausedAt` shows new accrual. */
  function ThawsAt(s: Stream): int {
    if BeforeCliff(s, s.pausedAt) then s.cliffTime else s.pausedAt + 1
  }

  /** A paused stream, before its cliff or after, stops accruing, as the documentation promises, exactly when
      its stop time is not after the pause, or its deposit is fully earned, or time ends at the pause. */
  lemma PausedAccrualFrozenIff(s: Stream, now: u64)
    requires StreamOk(s, now) && s.status == Paused
    ensures (forall t: u64 :: t >= s.pausedAt ==> Owed(s, t) == Owed(s, s.pausedAt))
      <==> (0 < s.stopTime <= s.pausedAt || Owed(s, s.pausedAt) == s.deposit - s.withdrawn || s.pausedAt == U64_MAX)
  {
    var p := s.pausedAt;
    if 0 < s.stopTime <= p || Owed(s, p) == s.deposit - s.withdrawn || p == U64_MAX {
      forall t: u64 | t >= p
        ensures Owed(s, t) == Owed(s, p)
      {
        ClaimableIsOwed(s, now, t);
        AccruesLater(s, p, t);
      }
    } else {
      var t: u64 := ThawsAt(s);
      AccruesLater(s, p, t);
      assert Elapsed(s, p) < Elapsed(s, t);
      assert Owed(s, t) > Owed(s, p);
    }
  }
}
