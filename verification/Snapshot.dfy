/** The balance snapshot: claimable, vested, unvested and the seconds a deposit still lasts. */
module Snapshot {
  import opened Common
  import opened Streams

  datatype BalanceSnapshot = BalanceSnapshot(
    claimable: i128,
    vested: i128,
    unvested: i128,
    withdrawn: i128,
    remainingDeposit: i128,
    remainingSeconds: u64)

  /** Capped at the stop time, and frozen at the last withdrawal while paused. */
  function EffectiveTime(s: Stream, now: u64): u64 {
    if s.status == Paused then s.lastWithdrawTime else EffectiveEnd(s, now)
  }

  function SaturatedRemainder(s: Stream): i128 {
    var d := s.deposit - s.withdrawn;
    Max(if d > I128_MAX then I128_MAX else if d < I128_MIN then I128_MIN else d, 0)
  }

  /** `claimable_at`; `None` when the multiplication overflows. */
  function ClaimableAt(s: Stream, now: u64): Option<i128> {
    if IsTerminal(s.status) then Some(0) else
      var earned :- Checked(SatSub(EffectiveTime(s, now), s.lastWithdrawTime) * s.rate);
      Some(Max(Min(earned, SaturatedRemainder(s)), 0))
  }

  /** `x as u64` keeps the low 64 bits. */
  function RemainingDuration(s: Stream, now: u64): Option<u64> {
    if IsTerminal(s.status) || s.rate <= 0 then Some(0) else
      var claimable :- ClaimableAt(s, now);
      var unstreamed := (SaturatedRemainder(s) - claimable) % (U64_MAX + 1);
      Some(unstreamed / Max(s.rate % (U64_MAX + 1), 1))
  }

  function TakeSnapshot(s: Stream, now: u64): Option<BalanceSnapshot> {
    if IsTerminal(s.status) then Some(BalanceSnapshot(0, s.withdrawn, 0, s.withdrawn, 0, 0)) else
      var claimable :- ClaimableAt(s, now);
      var vested := Checked(s.withdrawn + claimable).Or(I128_MAX);
      var remaining := SaturatedRemainder(s);
      var unvested := Max(remaining - claimable, 0);
      var seconds :- RemainingDuration(s, now);
      Some(BalanceSnapshot(claimable, vested, unvested, s.withdrawn, remaining, seconds))
  }

  /** The amount `claimable_at` reports, in plain arithmetic. */
  function Accrued(s: Stream, now: u64): int {
    if IsTerminal(s.status) then 0
    else Min(SatSub(EffectiveTime(s, now), s.lastWithdrawTime) * s.rate, s.deposit - s.withdrawn)
  }

  lemma ClaimableAtIsAccrued(s: Stream, now: u64, t: u64)
    requires StreamOk(s, now)
    ensures ClaimableAt(s, t) == Some(Accrued(s, t)) && 0 <= Accrued(s, t) <= s.deposit - s.withdrawn
  {
    ProductBounds(SatSub(EffectiveTime(s, t), s.lastWithdrawTime), s.rate, U64_MAX, MAX_RATE_PER_SECOND);
  }

  /** For every live stream the snapshot exists and splits the whole deposit into vested and unvested;
      on an active stream at or past its cliff it reports what the contract itself would pay. */
  lemma SnapshotMeaning(s: Stream, now: u64, t: u64)
    requires StreamOk(s, now) && !IsTerminal(s.status)
    ensures TakeSnapshot(s, t).Some?
    ensures var snap := TakeSnapshot(s, t).value;
      && snap.vested + snap.unvested == s.deposit
      && snap.vested == s.withdrawn + snap.claimable
      && snap.remainingDeposit == snap.claimable + snap.unvested == s.deposit - s.withdrawn
      && snap.withdrawn == s.withdrawn
      && Some(snap.claimable) == ClaimableAt(s, t) && Some(snap.remainingSeconds) == RemainingDuration(s, t)
      && (s.status == Active && !BeforeCliff(s, t) ==> Some(snap.claimable) == ClaimableAmount(s, t))
      && (s.status == Paused ==> snap.claimable == 0)
  {
    ClaimableAtIsAccrued(s, now, t);
    ClaimableIsOwed(s, now, t);
  }

  /** An ended stream reports everything withdrawn as vested and nothing else. */
  lemma EndedSnapshot(s: Stream, t: u64)
    requires IsTerminal(s.status)
    ensures ClaimableAt(s, t) == Some(0) && RemainingDuration(s, t) == Some(0)
    ensures TakeSnapshot(s, t).Some? && TakeSnapshot(s, t).value == BalanceSnapshot(
      claimable := 0, vested := s.withdrawn, unvested := 0, withdrawn := s.withdrawn, remainingDeposit := 0,
      remainingSeconds := 0)
  {
  }

  /** The seconds left: what is neither drawn nor claimable, its low 64 bits, at the current rate; with a stop time
      or without, paused or not. */
  lemma RemainingInPlain(s: Stream, now: u64, t: u64)
    requires StreamOk(s, now) && !IsTerminal(s.status)
    ensures ClaimableAt(s, t).Some?
    ensures RemainingDuration(s, t)
         == Some((s.deposit - s.withdrawn - ClaimableAt(s, t).value) % 0x1_0000_0000_0000_0000 / s.rate)
  {
    ClaimableAtIsAccrued(s, now, t);
  }

  /** What the snapshot of a live stream counts, with no help from the contract's own formula: the rate for each
      second from the last withdrawal to now or the stop time, none while paused, capped by the deposit. */
  lemma SnapshotInPlain(s: Stream, now: u64, t: u64)
    requires StreamOk(s, now) && !IsTerminal(s.status)
    ensures var until := if 0 < s.stopTime < t then s.stopTime else t;
      ClaimableAt(s, t) == Some(
        if s.status == Paused || until <= s.lastWithdrawTime then 0
        else Min((until - s.lastWithdrawTime) * s.rate, s.deposit - s.withdrawn))
  {
    ClaimableAtIsAccrued(s, now, t);
  }

  /** Claimable grows by the full rate for `k` more seconds, and second `k + 1` takes the last tokens
      without being a full second. */
  predicate RunsDryAfter(s: Stream, t: u64, k: nat)
    requires t + k + 1 <= U64_MAX
  {
    && (forall j :: 0 <= j <= k ==> Accrued(s, t + j) == Accrued(s, t) + j * s.rate)
    && Accrued(s, t + k + 1) == s.deposit - s.withdrawn < Accrued(s, t) + (k + 1) * s.rate
  }

  /** The growth pattern in plain arithmetic: `c` claimable now out of `remaining`, at `rate` per second. */
  lemma DryPattern(c: int, remaining: int, rate: int, k: nat)
    requires 0 <= c <= remaining && 0 < rate
    ensures (forall j :: 0 <= j <= k ==> Min(c + j * rate, remaining) == c + j * rate)
        && Min(c + (k + 1) * rate, remaining) == remaining < c + (k + 1) * rate
      <==> k * rate <= remaining - c < (k + 1) * rate
  {
    if k * rate <= remaining - c {
      forall j | 0 <= j <= k
        ensures Min(c + j * rate, remaining) == c + j * rate
      {
        ProductBounds(j, rate, k, rate);
      }
    } else {
      assert Min(c + k * rate, remaining) != c + k * rate;
    }
  }

  lemma AccruedLater(s: Stream, now: u64, j: nat)
    requires StreamOk(s, now) && s.status == Active && s.stopTime == 0
    requires now + j <= U64_MAX
    ensures Accrued(s, now + j) == Min(Accrued(s, now) + j * s.rate, s.deposit - s.withdrawn)
  {
    var e := now - s.lastWithdrawTime;
    assert (e + j) * s.rate == e * s.rate + j * s.rate;
    ProductBounds(j, s.rate, j, s.rate);
  }

  lemma DryMeaning(s: Stream, now: u64, k: nat)
    requires StreamOk(s, now) && s.status == Active && s.stopTime == 0 && now + k + 1 <= U64_MAX
    ensures RunsDryAfter(s, now, k) <==>
      k * s.rate <= s.deposit - s.withdrawn - Accrued(s, now) < (k + 1) * s.rate
  {
    ClaimableAtIsAccrued(s, now, now);
    var c, remaining := Accrued(s, now), s.deposit - s.withdrawn;
    DryPattern(c, remaining, s.rate, k);
    forall j | 0 <= j <= k + 1
      ensures Accrued(s, now + j) == Min(c + j * s.rate, remaining)
    {
      AccruedLater(s, now, j);
    }
    assert Accrued(s, now + k + 1) == Accrued(s, now + (k + 1));
  }

  lemma QuotientIs(left: nat, rate: int, k: nat)
    requires rate > 0
    ensures left / rate == k <==> k * rate <= left < (k + 1) * rate
  {
    var q := left / rate;
    assert q * rate <= left < (q + 1) * rate;
    if k < q {
      ProductBounds(k + 1, rate, q, rate);
    } else if k > q {
      ProductBounds(q + 1, rate, k, rate);
    }
  }

  /** With no stop time and a remainder that fits in 64 bits, `remaining_seconds` is `k` exactly when the
      stream runs dry after `k` full seconds. */
  lemma RemainingSecondsExact(s: Stream, now: u64, k: nat)
    requires StreamOk(s, now) && s.status == Active && s.stopTime == 0
    requires s.deposit - s.withdrawn <= U64_MAX
    requires now + k + 1 <= U64_MAX
    ensures RemainingDuration(s, now) == Some(k) <==> RunsDryAfter(s, now, k)
  {
    ClaimableAtIsAccrued(s, now, now);
    DryMeaning(s, now, k);
    var left := s.deposit - s.withdrawn - Accrued(s, now);
    assert RemainingDuration(s, now) == Some(left / s.rate);
    QuotientIs(left, s.rate, k);
  }
}
