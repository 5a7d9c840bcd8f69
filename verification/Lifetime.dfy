/** Everything a stream has earned since its creation, one second at a time at the rate then in force, against
    what the contract has credited: exactly which calls lose earnings, and what withdrawals cannot change. */
module Lifetime {
  import opened Common
  import opened Streams
  import opened World
  import opened Steps
  import opened Accrual

  /** What one attempted call adds to the earnings of an existing stream: a credited second, at its rate. */
  function EarnedIn(v: World, c: Call, id: u64): int
    requires id in v.streams
  {
    if c.Tick? && v.now < U64_MAX && Credits(v.streams[id], v.now) then v.streams[id].rate else 0
  }

  /** The rate in force at each credited second since creation, added up. */
  ghost function LifetimeEarned(w: World, calls: seq<Call>, id: u64): int {
    if calls == [] then 0 else
      var n := |calls| - 1;
      var v := RunTo(w, calls[..n]);
      if id !in v.streams then 0 else LifetimeEarned(w, calls[..n], id) + EarnedIn(v, calls[n], id)
  }

  /** A rate change at `now` credits everything accrued: nothing had accrued, or the cliff is past and the
      deposit still pays for all of it. */
  predicate Crystallises(s: Stream, now: u64) {
    Elapsed(s, now) == 0 || (!BeforeCliff(s, now) && Elapsed(s, now) * s.rate <= s.deposit - s.withdrawn)
  }

  /** `op` loses nothing that the stream has earned. */
  predicate KeepsAll(s: Stream, now: u64, op: StreamOp) {
    Harmless(s, now, op) && (op.UpdateRate? ==> Crystallises(s, now))
  }

  /** The call is accepted and operates on stream `id`. */
  predicate Hits(v: World, c: Call, id: u64) {
    c.OnStream? && c.id == id && Exec(v, c).Some?
  }

  /** No accepted call on stream `id` has lost anything since its creation. */
  ghost predicate Lossless(w: World, calls: seq<Call>, id: u64) {
    calls == [] ||
    (var n := |calls| - 1;
     var v, c := RunTo(w, calls[..n]), calls[n];
     id !in v.streams ||
     (&& Lossless(w, calls[..n], id)
      && (Hits(v, c, id) ==> KeepsAll(v.streams[id], v.now, c.op))))
  }

  /** What the stored fields stand for: the amount written off as withdrawn and the accounted seconds. */
  function Standing(s: Stream, now: u64): int {
    s.withdrawn + Accounted(s, now) * s.rate
  }

  lemma ScaledCompare(a: int, b: int, rate: int)
    requires 0 <= a <= b && 0 < rate
    ensures a * rate <= b * rate
    ensures a * rate == b * rate <==> a == b
  {
    if a < b {
      assert b * rate == a * rate + (b - a) * rate && (b - a) * rate > 0;
    }
  }

  /** A rate change writes off exactly what had accrued if and only if `Crystallises` says so, never more. */
  lemma RateChangeMove(now: u64, op: StreamOp, s: Stream, s': Stream)
    requires StreamOk(s, now) && op.UpdateRate? && Becomes(now, s, op, s')
    ensures s'.withdrawn - s.withdrawn <= Elapsed(s, now) * s.rate
    ensures s'.withdrawn - s.withdrawn == Elapsed(s, now) * s.rate <==> Crystallises(s, now)
    ensures Elapsed(s', now) == 0
  {
    ScaledCompare(0, Elapsed(s, now), s.rate);
  }

  lemma QuietKeepsStanding(now: u64, op: StreamOp, s: Stream, s': Stream)
    requires StreamOk(s, now) && Becomes(now, s, op, s') && !IsTerminal(s'.status)
    requires !RestartsAccrual(s, now, op)
    ensures s'.withdrawn == s.withdrawn && s'.rate == s.rate
  {
    ClaimableIsOwed(s, now, now);
  }

  lemma PayoutMove(now: u64, op: StreamOp, s: Stream, s': Stream)
    requires StreamOk(s, now) && Becomes(now, s, op, s') && !IsTerminal(s'.status)
    requires op.Withdraw? && Owed(s, now) > 0
    ensures Standing(s', now) == Standing(s, now)
  {
    ClaimableIsOwed(s, now, now);
    assert Elapsed(s', now) == 0;
  }

  /** One accepted operation on a live stream never raises its standing, and keeps it exactly when it is one of
      those that lose nothing. */
  lemma MoveStanding(now: u64, op: StreamOp, s: Stream, s': Stream)
    requires StreamOk(s, now) && Becomes(now, s, op, s') && !IsTerminal(s'.status)
    ensures Standing(s', now) <= Standing(s, now)
    ensures Standing(s', now) == Standing(s, now) <==> KeepsAll(s, now, op)
  {
    if op.UpdateRate? {
      RateChangeMove(now, op, s, s');
    } else if RestartsAccrual(s, now, op) {
      PayoutMove(now, op, s, s');
    } else {
      MoveAccounted(now, op, s, s');
      QuietKeepsStanding(now, op, s, s');
      ScaledCompare(Accounted(s', now), Accounted(s, now), s.rate);
    }
  }

  lemma TickStanding(s: Stream, now: u64)
    requires StreamOk(s, now) && !IsTerminal(s.status) && now < U64_MAX
    ensures Standing(s, now + 1) == Standing(s, now) + (if Credits(s, now) then s.rate else 0)
  {
    TickAccounted(s, now);
    assert (Accounted(s, now) + 1) * s.rate == Accounted(s, now) * s.rate + s.rate;
  }

  /** One attempted call, seen from one stream. */
  lemma SeenFrom(v: World, c: Call, id: u64)
    requires WorldOk(v) && id in v.streams
    ensures StreamOk(v.streams[id], v.now) && id in After(v, c).streams
    ensures Hits(v, c, id) ==> Becomes(v.now, v.streams[id], c.op, After(v, c).streams[id])
    ensures !Hits(v, c, id) ==> After(v, c).streams[id] == v.streams[id]
    ensures After(v, c).now == if c.Tick? && v.now < U64_MAX then v.now + 1 else v.now
  {
    StepMeaning(v, c);
  }

  /** One more call: the standing keeps up with the lifetime earnings, or falls behind and stays behind. */
  lemma LifetimeStep(v: World, c: Call, id: u64, earned: int)
    requires WorldOk(v) && id in v.streams && !IsTerminal(v.streams[id].status)
    requires Standing(v.streams[id], v.now) <= earned
    ensures id in After(v, c).streams
    ensures var s, s' := v.streams[id], After(v, c).streams[id];
      var earned' := earned + EarnedIn(v, c, id);
      var kept := Hits(v, c, id) ==> KeepsAll(s, v.now, c.op);
      !IsTerminal(s'.status) ==>
        && Standing(s', After(v, c).now) <= earned'
        && (Standing(s', After(v, c).now) == earned' <==> Standing(s, v.now) == earned && kept)
  {
    SeenFrom(v, c, id);
    var s := v.streams[id];
    if c.Tick? {
      if v.now < U64_MAX {
        TickStanding(s, v.now);
      }
    } else if Hits(v, c, id) {
      var s' := After(v, c).streams[id];
      if !IsTerminal(s'.status) {
        MoveStanding(v.now, c.op, s, s');
      }
    }
  }

  lemma BornWithNothing(v: World, c: Call, id: u64)
    requires WorldOk(v) && id !in v.streams && id in After(v, c).streams
    ensures Standing(After(v, c).streams[id], After(v, c).now) == 0
  {
    StepMeaning(v, c);
    assert Accounted(After(v, c).streams[id], After(v, c).now) == 0;
  }

  lemma {:induction false} LifetimeInRun(w: World, calls: seq<Call>, id: u64)
    requires Genesis(w) && id in RunTo(w, calls).streams && !IsTerminal(RunTo(w, calls).streams[id].status)
    ensures Standing(RunTo(w, calls).streams[id], RunTo(w, calls).now) <= LifetimeEarned(w, calls, id)
    ensures Standing(RunTo(w, calls).streams[id], RunTo(w, calls).now) == LifetimeEarned(w, calls, id)
      <==> Lossless(w, calls, id)
  {
    if calls != [] {
      var n := |calls| - 1;
      var v, c := RunTo(w, calls[..n]), calls[n];
      AlwaysOk(w, calls[..n]);
      if id in v.streams {
        StillLiveBefore(v, c, id);
        LifetimeInRun(w, calls[..n], id);
        LifetimeStep(v, c, id, LifetimeEarned(w, calls[..n], id));
      } else {
        BornWithNothing(v, c, id);
      }
    }
  }

  /** What has been written off as withdrawn and what is claimable now, together. */
  function Realised(s: Stream, now: u64): int {
    s.withdrawn + Owed(s, now)
  }

  /** Lifetime accounting: in every run, at every active state past the cliff, withdrawn plus claimable never
      exceeds all that was earned second by second since creation, through every rate change, capped by the
      deposit; and it is exactly that if and only if no call ever lost anything, or the deposit is fully earned.
      Calls lose earnings exactly when they are late resumes with something accrued, or rate changes that do not
      crystallise: before the cliff, or beyond what the deposit still pays for. */
  lemma LifetimeIsExactIff(w: World, calls: seq<Call>, id: u64)
    requires Genesis(w) && id in RunTo(w, calls).streams && RunTo(w, calls).streams[id].status == Active
    requires !BeforeCliff(RunTo(w, calls).streams[id], RunTo(w, calls).now)
    ensures var s, now := RunTo(w, calls).streams[id], RunTo(w, calls).now;
      && ClaimableAmount(s, now) == Some(Owed(s, now))
      && Realised(s, now) <= Min(LifetimeEarned(w, calls, id), s.deposit)
      && (Realised(s, now) == Min(LifetimeEarned(w, calls, id), s.deposit) <==>
            Lossless(w, calls, id) || Realised(s, now) == s.deposit)
  {
    AlwaysOk(w, calls);
    LifetimeInRun(w, calls, id);
    ClaimableIsOwed(RunTo(w, calls).streams[id], RunTo(w, calls).now, RunTo(w, calls).now);
  }

  // ----- withdrawal schedules, over two runs

  /** What happens to a stream apart from withdrawals: its creation, the passing of a second while it exists, and
      the accepted pauses, resumes, top-ups and rate changes. */
  datatype Beat =
    | Born(now: int, deposit: int, rate: int, stop: int)
    | Second
    | Halt
    | GoOn
    | Add(amount: int)
    | Rerate(rate: int)

  function BeatOf(op: StreamOp): seq<Beat> {
    match op
    case Pause(_) => [Halt]
    case Resume(_) => [GoOn]
    case TopUp(_, amount) => [Add(amount)]
    case UpdateRate(_, newRate) => [Rerate(newRate)]
    case _ => []
  }

  /** The beat that one attempted call gives an existing stream, if any. */
  function BeatIn(v: World, c: Call, id: u64): seq<Beat> {
    if c.Tick? && v.now < U64_MAX then [Second]
    else if Hits(v, c, id) then BeatOf(c.op)
    else []
  }

  ghost function Beats(w: World, calls: seq<Call>, id: u64): seq<Beat> {
    if calls == [] then [] else
      var n := |calls| - 1;
      var v := RunTo(w, calls[..n]);
      if id in v.streams then Beats(w, calls[..n], id) + BeatIn(v, calls[n], id) else
        var v' := After(v, calls[n]);
        if id in v'.streams
        then [Born(v'.now, v'.streams[id].deposit, v'.streams[id].rate, v'.streams[id].stopTime)]
        else []
  }

  /** Those fields of a live stream that its beats alone decide, and its lifetime earnings. */
  datatype Shape = Shape(now: int, active: bool, deposit: int, rate: int, stop: int, earned: int)

  function Struck(shape: Shape, beat: Beat): Shape {
    match beat
    case Born(now, deposit, rate, stop) => Shape(now, true, deposit, rate, stop, 0)
    case Second =>
      shape.(now := shape.now + 1,
             earned := shape.earned
                       + if shape.active && (shape.stop == 0 || shape.now < shape.stop) then shape.rate else 0)
    case Halt => shape.(active := false)
    case GoOn => shape.(active := true)
    case Add(amount) => shape.(deposit := shape.deposit + amount)
    case Rerate(rate) => shape.(rate := rate)
  }

  function ShapeOf(beats: seq<Beat>): Shape {
    if beats == [] then Shape(0, false, 0, 0, 0, 0)
    else Struck(ShapeOf(beats[..|beats| - 1]), beats[|beats| - 1])
  }

  lemma OneBeat(beats: seq<Beat>, more: seq<Beat>)
    requires |more| <= 1
    ensures ShapeOf(beats + more) == if more == [] then ShapeOf(beats) else Struck(ShapeOf(beats), more[0])
  {
    if more == [] {
      assert beats + more == beats;
    } else {
      assert (beats + more)[..|beats|] == beats;
    }
  }

  function Outline(s: Stream, now: u64, earned: int): Shape {
    Shape(now, s.status == Active, s.deposit, s.rate, s.stopTime, earned)
  }

  lemma MoveOutline(now: u64, op: StreamOp, s: Stream, s': Stream, earned: int)
    requires StreamOk(s, now) && Becomes(now, s, op, s') && !IsTerminal(s'.status)
    ensures Outline(s', now, earned) ==
      if BeatOf(op) == [] then Outline(s, now, earned) else Struck(Outline(s, now, earned), BeatOf(op)[0])
  {
    ClaimableIsOwed(s, now, now);
  }

  lemma TickOutline(s: Stream, now: u64, earned: int)
    requires now < U64_MAX
    ensures Outline(s, now + 1, earned + if Credits(s, now) then s.rate else 0)
         == Struck(Outline(s, now, earned), Second)
  {
  }

  lemma OutlineStep(v: World, c: Call, id: u64, beats: seq<Beat>, earned: int)
    requires WorldOk(v) && id in v.streams && id in After(v, c).streams
    requires !IsTerminal(After(v, c).streams[id].status)
    requires ShapeOf(beats) == Outline(v.streams[id], v.now, earned)
    ensures ShapeOf(beats + BeatIn(v, c, id))
         == Outline(After(v, c).streams[id], After(v, c).now, earned + EarnedIn(v, c, id))
  {
    SeenFrom(v, c, id);
    var s, s' := v.streams[id], After(v, c).streams[id];
    if c.Tick? && v.now < U64_MAX {
      OneBeat(beats, [Second]);
      TickOutline(s, v.now, earned);
    } else if Hits(v, c, id) {
      OneBeat(beats, BeatOf(c.op));
      MoveOutline(v.now, c.op, s, s', earned);
    } else {
      OneBeat(beats, []);
    }
  }

  /** The beats of a live stream decide its deposit, rate, stop time and lifetime earnings. */
  lemma {:induction false} OutlineInRun(w: World, calls: seq<Call>, id: u64)
    requires Genesis(w) && id in RunTo(w, calls).streams && !IsTerminal(RunTo(w, calls).streams[id].status)
    ensures var v := RunTo(w, calls);
      ShapeOf(Beats(w, calls, id)) == Outline(v.streams[id], v.now, LifetimeEarned(w, calls, id))
  {
    if calls != [] {
      var n := |calls| - 1;
      var v, c := RunTo(w, calls[..n]), calls[n];
      AlwaysOk(w, calls[..n]);
      if id in v.streams {
        StillLiveBefore(v, c, id);
        OutlineInRun(w, calls[..n], id);
        OutlineStep(v, c, id, Beats(w, calls[..n], id), LifetimeEarned(w, calls[..n], id));
      } else {
        StepMeaning(v, c);
        OneBeat([], Beats(w, calls, id));
        assert [] + Beats(w, calls, id) == Beats(w, calls, id);
      }
    }
  }

  /** The stream is active and past its cliff at the end of the run. */
  ghost predicate Earning(w: World, calls: seq<Call>, id: u64) {
    var v := RunTo(w, calls);
    id in v.streams && v.streams[id].status == Active && !BeforeCliff(v.streams[id], v.now)
  }

  /** Withdrawal schedules, over any two runs: if a stream of each run has the same beats, the runs may differ in
      every withdrawal attempt, in reads, hand-overs and everything that concerns other streams. With pauses,
      resumes, top-ups and rate changes allowed, both streams then have the same deposit and lifetime earnings;
      and if one of them has lost nothing, the other has realised the same amount exactly when it has lost
      nothing either or its deposit is fully earned. */
  lemma ScheduleIndependentIff(w1: World, calls1: seq<Call>, id1: u64, w2: World, calls2: seq<Call>, id2: u64)
    requires Genesis(w1) && Genesis(w2) && Earning(w1, calls1, id1) && Earning(w2, calls2, id2)
    requires Beats(w1, calls1, id1) == Beats(w2, calls2, id2)
    ensures LifetimeEarned(w1, calls1, id1) == LifetimeEarned(w2, calls2, id2)
    ensures var v1, v2 := RunTo(w1, calls1), RunTo(w2, calls2);
      var s1, s2 := v1.streams[id1], v2.streams[id2];
      && v1.now == v2.now && s1.deposit == s2.deposit && s1.rate == s2.rate
      && (Lossless(w2, calls2, id2) ==>
            && Realised(s1, v1.now) <= Realised(s2, v2.now)
            && (Realised(s1, v1.now) == Realised(s2, v2.now) <==>
                  Lossless(w1, calls1, id1) || Realised(s1, v1.now) == s1.deposit))
  {
    OutlineInRun(w1, calls1, id1);
    OutlineInRun(w2, calls2, id2);
    LifetimeIsExactIff(w1, calls1, id1);
    LifetimeIsExactIff(w2, calls2, id2);
  }
}
