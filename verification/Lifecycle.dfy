/** Properties of one stream over whole runs: its life cycle, the spacing of withdrawals, and that the
    total paid does not depend on when withdrawals are made. */
module Lifecycle {
  import opened Common
  import opened Streams
  import opened World
  import opened Steps

  /** The world just before call `i` of the run. */
  function At(w: World, calls: seq<Call>, i: nat): World
    requires i <= |calls|
  {
    RunTo(w, calls[..i])
  }

  lemma AtStep(w: World, calls: seq<Call>, i: nat)
    requires i < |calls|
    ensures At(w, calls, i + 1) == After(At(w, calls, i), calls[i])
  {
    assert calls[..i + 1][..i] == calls[..i];
  }

  /** From one call to the next a stream is unchanged, or becomes what the call on it makes of it. */
  predicate Moves(now: u64, c: Call, id: u64, s: Stream, s': Stream) {
    s' == s || (c.OnStream? && c.id == id && Becomes(now, s, c.op, s'))
  }

  lemma NextInRun(w: World, calls: seq<Call>, i: nat, id: u64)
    requires Genesis(w) && i < |calls| && id in At(w, calls, i).streams
    ensures id in At(w, calls, i + 1).streams
    ensures At(w, calls, i).now <= At(w, calls, i + 1).now
    ensures StreamOk(At(w, calls, i).streams[id], At(w, calls, i).now)
    ensures Moves(At(w, calls, i).now, calls[i], id, At(w, calls, i).streams[id], At(w, calls, i + 1).streams[id])
  {
    AtStep(w, calls, i);
    AlwaysOk(w, calls[..i]);
    StepMeaning(At(w, calls, i), calls[i]);
  }

  /** What an unbroken stretch of a stream's life preserves. */
  predicate Later(s: Stream, s': Stream) {
    && s.lastWithdrawTime <= s'.lastWithdrawTime
    && s.cooldown == s'.cooldown
    && (IsTerminal(s.status) ==>
          s'.status == s.status && s'.deposit == s.deposit && s'.withdrawn == s.withdrawn && s'.rate == s.rate)
  }

  lemma MovesLater(now: u64, c: Call, id: u64, s: Stream, s': Stream)
    requires StreamOk(s, now) && Moves(now, c, id, s, s')
    ensures Later(s, s')
  {
    ClaimableIsOwed(s, now, now);
  }

  lemma {:induction false} LaterInRun(w: World, calls: seq<Call>, i: nat, j: nat, id: u64)
    requires Genesis(w) && i <= j <= |calls| && id in At(w, calls, i).streams
    ensures id in At(w, calls, j).streams
    ensures Later(At(w, calls, i).streams[id], At(w, calls, j).streams[id])
    ensures At(w, calls, i).now <= At(w, calls, j).now
    decreases j - i
  {
    if i < j {
      NextInRun(w, calls, i, id);
      MovesLater(At(w, calls, i).now, calls[i], id, At(w, calls, i).streams[id], At(w, calls, i + 1).streams[id]);
      LaterInRun(w, calls, i + 1, j, id);
    }
  }

  // ----- life cycle

  /** Every status change of every run is in the transition table, except that `reclaim_expired` may end a
      paused stream as exhausted. */
  lemma StatusChangesAreTabled(w: World, calls: seq<Call>, i: nat, id: u64)
    requires Genesis(w) && i < |calls| && id in At(w, calls, i).streams
    ensures id in At(w, calls, i + 1).streams
    ensures var from, to := At(w, calls, i).streams[id].status, At(w, calls, i + 1).streams[id].status;
      from != to ==>
        || IsValidTransition(from, to)
        || (from == Paused && to == Exhausted && calls[i].OnStream? && calls[i].id == id && calls[i].op.Reclaim?)
  {
    NextInRun(w, calls, i, id);
  }

  /** Once cancelled or exhausted, a stream's status, deposit, withdrawn amount and rate never change again
      and nothing is claimable from it at any time. */
  lemma EndedStaysEnded(w: World, calls: seq<Call>, i: nat, j: nat, id: u64, t: u64)
    requires Genesis(w) && i <= j <= |calls| && id in At(w, calls, i).streams
    requires IsTerminal(At(w, calls, i).streams[id].status)
    ensures id in At(w, calls, j).streams
    ensures var s, s' := At(w, calls, i).streams[id], At(w, calls, j).streams[id];
      && s'.status == s.status && s'.deposit == s.deposit && s'.withdrawn == s.withdrawn && s'.rate == s.rate
      && ClaimableAmount(s', t) == Some(0)
  {
    LaterInRun(w, calls, i, j, id);
  }

  // ----- cooldown

  /** Call `i` of the run is an accepted withdrawal from `id` that pays something. */
  predicate Pays(w: World, calls: seq<Call>, i: nat, id: u64)
    requires i < |calls|
  {
    var v := At(w, calls, i);
    && calls[i].OnStream? && calls[i].id == id && calls[i].op.Withdraw?
    && Exec(v, calls[i]).Some? && id in v.streams && Owed(v.streams[id], v.now) > 0
  }

  /** A paying withdrawal waits out the cooldown and restarts it. */
  lemma PaidMoves(w: World, calls: seq<Call>, i: nat, id: u64)
    requires Genesis(w) && i < |calls| && Pays(w, calls, i, id)
    ensures var s, now := At(w, calls, i).streams[id], At(w, calls, i).now;
      s.cooldown > 0 ==> now >= SatAdd(s.lastWithdrawTime, s.cooldown)
    ensures id in At(w, calls, i + 1).streams && At(w, calls, i + 1).streams[id].lastWithdrawTime == At(w, calls, i).now
  {
    AtStep(w, calls, i);
    AlwaysOk(w, calls[..i]);
    StepMeaning(At(w, calls, i), calls[i]);
  }

  /** Any two paying withdrawals from one stream are a full cooldown apart, unless the cooldown reaches past
      the end of u64 time, and then the second one happens at the very last second. */
  lemma CooldownSpacing(w: World, calls: seq<Call>, i: nat, j: nat, id: u64)
    requires Genesis(w) && i < j < |calls| && Pays(w, calls, i, id) && Pays(w, calls, j, id)
    ensures var cooldown := At(w, calls, i).streams[id].cooldown;
      var first, second := At(w, calls, i).now, At(w, calls, j).now;
      || first + cooldown <= second
      || (first + cooldown > U64_MAX && second == U64_MAX)
  {
    NextInRun(w, calls, i, id);
    LaterInRun(w, calls, i, i + 1, id);
    LaterInRun(w, calls, i + 1, j, id);
    NextInRun(w, calls, j, id);
    PaidMoves(w, calls, i, id);
    PaidMoves(w, calls, j, id);
  }

  // ----- withdrawal schedule

  /** Call `c` does not pause, resume, re-rate, close or settle stream `id`. */
  predicate Undisturbed(w: World, c: Call, id: u64) {
    c.OnStream? && c.id == id && id in w.streams ==>
      && !c.op.Pause? && !c.op.Resume? && !c.op.UpdateRate? && !c.op.Cancel? && !c.op.Reclaim?
      && (c.op.Get? ==> !Closes(w.streams[id], w.now))
  }

  /** How a stream that started as `s0` looks after withdrawals and top-ups only. */
  ghost predicate DrawnFrom(s0: Stream, s: Stream, now: u64) {
    && StreamOk(s, now)
    && s.rate == s0.rate && s.stopTime == s0.stopTime && s.cliffTime == s0.cliffTime
    && s0.lastWithdrawTime <= s.lastWithdrawTime
    && s0.withdrawn <= s.withdrawn
    && (s.withdrawn > s0.withdrawn ==> !BeforeCliff(s0, s.lastWithdrawTime))
    && (|| (s.status == Active && s.withdrawn == s0.withdrawn + Elapsed(s0, s.lastWithdrawTime) * s.rate)
        || (s.status == Exhausted && s.withdrawn == s.deposit && s.withdrawn > s0.withdrawn
            && s.withdrawn <= s0.withdrawn + Elapsed(s0, s.lastWithdrawTime) * s.rate))
  }

  lemma ElapsedSplits(s0: Stream, s: Stream, t: u64)
    requires s.stopTime == s0.stopTime && s0.lastWithdrawTime <= s.lastWithdrawTime <= t
    ensures Elapsed(s0, t) == Elapsed(s0, s.lastWithdrawTime) + Elapsed(s, t)
    ensures Elapsed(s0, t) * s.rate == Elapsed(s0, s.lastWithdrawTime) * s.rate + Elapsed(s, t) * s.rate
  {
    var a, b := Elapsed(s0, s.lastWithdrawTime), Elapsed(s, t);
    assert (a + b) * s.rate == a * s.rate + b * s.rate;
  }

  lemma DrawnStep(s0: Stream, s: Stream, now: u64, op: StreamOp, s': Stream)
    requires DrawnFrom(s0, s, now) && Becomes(now, s, op, s')
    requires !op.Pause? && !op.Resume? && !op.UpdateRate? && !op.Cancel? && !op.Reclaim?
    requires op.Get? ==> !Closes(s, now)
    ensures DrawnFrom(s0, s', now)
  {
    BecomesOk(now, s, op, s');
    ClaimableIsOwed(s, now, now);
    if op.Withdraw? && Owed(s, now) > 0 {
      ElapsedSplits(s0, s, now);
    }
  }

  /** Paid so far plus still claimable is what the untouched stream would have owed. */
  lemma DrawnTotals(s0: Stream, s: Stream, now: u64, t: u64)
    requires DrawnFrom(s0, s, now) && now <= t && s0.status == Active
    ensures (s.withdrawn - s0.withdrawn) + Owed(s, t) == Owed(s0.(deposit := s.deposit), t)
  {
    ElapsedSplits(s0, s, t);
    assert Elapsed(s0.(deposit := s.deposit), t) == Elapsed(s0, t);
    ProductBounds(Elapsed(s, t), s.rate, Elapsed(s, t), s.rate);
  }

  lemma {:induction false} DrawnThrough(w: World, calls: seq<Call>, i: nat, j: nat, id: u64)
    requires Genesis(w) && i <= j <= |calls| && id in At(w, calls, i).streams
    requires At(w, calls, i).streams[id].status == Active
    requires forall k :: i <= k < j ==> Undisturbed(At(w, calls, k), calls[k], id)
    ensures id in At(w, calls, j).streams
    ensures DrawnFrom(At(w, calls, i).streams[id], At(w, calls, j).streams[id], At(w, calls, j).now)
    decreases j - i
  {
    var s0 := At(w, calls, i).streams[id];
    AlwaysOk(w, calls[..i]);
    if i < j {
      DrawnThrough(w, calls, i, j - 1, id);
      AtStep(w, calls, j - 1);
      AlwaysOk(w, calls[..j - 1]);
      var v, c := At(w, calls, j - 1), calls[j - 1];
      StepMeaning(v, c);
      assert Undisturbed(v, c, id);
      if c.OnStream? && c.id == id && Exec(v, c).Some? {
        DrawnStep(s0, v.streams[id], v.now, c.op, After(v, c).streams[id]);
      }
    } else {
      assert Elapsed(s0, s0.lastWithdrawTime) == 0;
    }
  }

  /** Withdrawal schedules do not matter: after any stretch of a run with withdrawal attempts and top-ups
      on an active stream, interleaved with anything else, what was drawn plus what is claimable at any
      later time equals what the initial stream with the final deposit would owe then. */
  lemma ScheduleIndependence(w: World, calls: seq<Call>, i: nat, j: nat, id: u64, t: u64)
    requires Genesis(w) && i <= j <= |calls| && id in At(w, calls, i).streams
    requires At(w, calls, i).streams[id].status == Active
    requires forall k :: i <= k < j ==> Undisturbed(At(w, calls, k), calls[k], id)
    requires t >= At(w, calls, j).now
    ensures id in At(w, calls, j).streams
    ensures var s0, s := At(w, calls, i).streams[id], At(w, calls, j).streams[id];
      && ClaimableAmount(s, t).Some? && ClaimableAmount(s0.(deposit := s.deposit), t).Some?
      && (s.withdrawn - s0.withdrawn) + ClaimableAmount(s, t).value
         == ClaimableAmount(s0.(deposit := s.deposit), t).value
  {
    DrawnThrough(w, calls, i, j, id);
    AlwaysOk(w, calls[..i]);
    AlwaysOk(w, calls[..j]);
    var s0, s := At(w, calls, i).streams[id], At(w, calls, j).streams[id];
    DrawnTotals(s0, s, At(w, calls, j).now, t);
    ClaimableIsOwed(s, At(w, calls, j).now, t);
    ClaimableIsOwed(s0.(deposit := s.deposit), At(w, calls, i).now, t);
  }
}
