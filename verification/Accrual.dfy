/** Lazy accrual against second-by-second crediting, and the contract against the balance service. */
module Accrual {
  import opened Common
  import opened Streams
  import opened World
  import opened Steps
  import opened Lifecycle
  import B = BalanceService

  // ----- the reference meter: one credit per active second

  /** The second that starts at `now` is paid time for the stream. */
  predicate Credits(s: Stream, now: u64) {
    s.status == Active && (s.stopTime == 0 || now < s.stopTime)
  }

  /** `op`, accepted on `s` at `now`, starts the accrual anew: a paying withdrawal, or a rate change, whether or
      not that credits what had accrued (it drops it before the cliff, see module `Lifetime`). */
  predicate RestartsAccrual(s: Stream, now: u64, op: StreamOp) {
    (op.Withdraw? && Owed(s, now) > 0) || op.UpdateRate?
  }

  /** An accepted call on stream `id` that starts its accrual anew. */
  predicate Restarts(w: World, c: Call, id: u64) {
    && c.OnStream? && c.id == id && id in w.streams && Exec(w, c).Some?
    && RestartsAccrual(w.streams[id], w.now, c.op)
  }

  /** Paid seconds of stream `id` since the last restart, counted one clock tick at a time. */
  ghost function Seconds(w: World, calls: seq<Call>, id: u64): nat {
    if calls == [] then 0 else
      var n := |calls| - 1;
      var v, c := RunTo(w, calls[..n]), calls[n];
      if id !in v.streams || Restarts(v, c, id) then 0
      else if c.Tick? && v.now < U64_MAX && Credits(v.streams[id], v.now) then Seconds(w, calls[..n], id) + 1
      else Seconds(w, calls[..n], id)
  }

  /** The time of the last restart, or of creation: the last withdraw time without the resume shifts. */
  ghost function Anchor(w: World, calls: seq<Call>, id: u64): u64 {
    if calls == [] then w.now else
      var n := |calls| - 1;
      var v := RunTo(w, calls[..n]);
      if id !in v.streams || Restarts(v, calls[n], id) then v.now else Anchor(w, calls[..n], id)
  }

  // ----- what one step does to the meter of one stream

  /** Seconds the stored fields account for; a pause freezes them at its start. */
  function Accounted(s: Stream, now: u64): u64 {
    if s.status == Paused then Elapsed(s, s.pausedAt) else Elapsed(s, now)
  }

  predicate TimelyResume(s: Stream, now: u64) {
    s.stopTime == 0 || now <= s.stopTime || now == s.pausedAt
  }

  /** A resume keeps the seconds accrued before the pause exactly when it happens by the stop time, or in
      the second of the pause, or nothing had accrued; otherwise it loses some, and never adds any. */
  lemma ResumeKeepsAccrualIff(now: u64, s: Stream, caller: Address, s': Stream)
    requires StreamOk(s, now) && Becomes(now, s, Resume(caller), s')
    ensures Elapsed(s', now) <= Elapsed(s, s.pausedAt)
    ensures Elapsed(s', now) == Elapsed(s, s.pausedAt) <==> TimelyResume(s, now) || Elapsed(s, s.pausedAt) == 0
  {
  }

  lemma TickAccounted(s: Stream, now: u64)
    requires StreamOk(s, now) && !IsTerminal(s.status) && now < U64_MAX
    ensures Accounted(s, now + 1) == Accounted(s, now) + (if Credits(s, now) then 1 else 0)
  {
  }

  /** If `op` resumes the stream at `now`, it loses no accrued second. */
  predicate Harmless(s: Stream, now: u64, op: StreamOp) {
    op.Resume? ==> TimelyResume(s, now) || Elapsed(s, s.pausedAt) == 0
  }

  /** Every other operation on a live stream, a resume aside, keeps what the stored fields account for. */
  lemma QuietMove(now: u64, op: StreamOp, s: Stream, s': Stream)
    requires StreamOk(s, now) && Becomes(now, s, op, s') && !IsTerminal(s'.status)
    requires !RestartsAccrual(s, now, op) && !op.Resume?
    ensures s'.stopTime == s.stopTime && s'.lastWithdrawTime == s.lastWithdrawTime
    ensures
      || (s'.status == s.status && s'.pausedAt == s.pausedAt)
      || (s.status == Active && s'.status == Paused && s'.pausedAt == now)
  {
    ClaimableIsOwed(s, now, now);
  }

  lemma MoveAccounted(now: u64, op: StreamOp, s: Stream, s': Stream)
    requires StreamOk(s, now) && Becomes(now, s, op, s') && !IsTerminal(s'.status)
    ensures RestartsAccrual(s, now, op) ==> Accounted(s', now) == 0
    ensures !RestartsAccrual(s, now, op) ==>
      && Accounted(s', now) <= Accounted(s, now)
      && (Accounted(s', now) == Accounted(s, now) <==> Harmless(s, now, op))
  {
    if op.Resume? {
      ResumeKeepsAccrualIff(now, s, op.caller, s');
    } else if !RestartsAccrual(s, now, op) {
      QuietMove(now, op, s, s');
    }
  }

  predicate HarmlessCall(v: World, c: Call, id: u64) {
    c.OnStream? && c.id == id && id in v.streams && Exec(v, c).Some? ==> Harmless(v.streams[id], v.now, c.op)
  }

  /** Since the last restart, every accepted resume of `id` came by the stop time, in the second of the
      pause, or with nothing accrued. */
  ghost predicate NoResumeLoss(w: World, calls: seq<Call>, id: u64) {
    calls == [] ||
    (var n := |calls| - 1;
     var v, c := RunTo(w, calls[..n]), calls[n];
     id !in v.streams || Restarts(v, c, id) || (NoResumeLoss(w, calls[..n], id) && HarmlessCall(v, c, id)))
  }

  /** One more call: the stored fields keep up with the meter, or fall behind and stay behind. */
  lemma MeterStep(v: World, c: Call, id: u64, seconds: nat)
    requires WorldOk(v) && id in v.streams && !IsTerminal(v.streams[id].status)
    requires Accounted(v.streams[id], v.now) <= seconds
    ensures id in After(v, c).streams
    ensures var s, s' := v.streams[id], After(v, c).streams[id];
      var seconds' := if Restarts(v, c, id) then 0
        else if c.Tick? && v.now < U64_MAX && Credits(s, v.now) then seconds + 1 else seconds;
      !IsTerminal(s'.status) ==>
        && Accounted(s', After(v, c).now) <= seconds'
        && (Accounted(s', After(v, c).now) == seconds' <==>
              Restarts(v, c, id) || (Accounted(s, v.now) == seconds && HarmlessCall(v, c, id)))
  {
    StepMeaning(v, c);
    var s := v.streams[id];
    if c.Tick? {
      if v.now < U64_MAX {
        TickAccounted(s, v.now);
      }
    } else if c.OnStream? && c.id == id && Exec(v, c).Some? {
      var s' := After(v, c).streams[id];
      if !IsTerminal(s'.status) {
        MoveAccounted(v.now, c.op, s, s');
      }
    }
  }

  lemma StillLive(now: u64, op: StreamOp, s: Stream, s': Stream)
    requires StreamOk(s, now) && Becomes(now, s, op, s') && !IsTerminal(s'.status)
    ensures !IsTerminal(s.status)
  {
  }

  lemma StillLiveBefore(v: World, c: Call, id: u64)
    requires WorldOk(v) && id in v.streams && id in After(v, c).streams && !IsTerminal(After(v, c).streams[id].status)
    ensures !IsTerminal(v.streams[id].status)
  {
    StepMeaning(v, c);
    if c.OnStream? && c.id == id && Exec(v, c).Some? {
      StillLive(v.now, c.op, v.streams[id], After(v, c).streams[id]);
    }
  }

  lemma {:induction false} MeterInRun(w: World, calls: seq<Call>, id: u64)
    requires Genesis(w) && id in RunTo(w, calls).streams && !IsTerminal(RunTo(w, calls).streams[id].status)
    ensures Accounted(RunTo(w, calls).streams[id], RunTo(w, calls).now) <= Seconds(w, calls, id)
    ensures Accounted(RunTo(w, calls).streams[id], RunTo(w, calls).now) == Seconds(w, calls, id)
      <==> NoResumeLoss(w, calls, id)
  {
    if calls != [] {
      var n := |calls| - 1;
      var v, c := RunTo(w, calls[..n]), calls[n];
      AlwaysOk(w, calls[..n]);
      if id in v.streams {
        StillLiveBefore(v, c, id);
        MeterInRun(w, calls[..n], id);
        MeterStep(v, c, id, Seconds(w, calls[..n], id));
      } else {
        StepMeaning(v, c);
      }
    }
  }

  /** The amount that crediting `seconds` one by one makes claimable. */
  function Credited(s: Stream, seconds: nat): int {
    Min(seconds * s.rate, s.deposit - s.withdrawn)
  }

  lemma ClaimableAgainstMeter(s: Stream, now: u64, seconds: nat)
    requires StreamOk(s, now) && s.status == Active && !BeforeCliff(s, now) && Accounted(s, now) <= seconds
    ensures ClaimableAmount(s, now).Some? && ClaimableAmount(s, now).value <= Credited(s, seconds)
    ensures ClaimableAmount(s, now).value == Credited(s, seconds) <==>
      Accounted(s, now) == seconds || ClaimableAmount(s, now).value == s.deposit - s.withdrawn
  {
    ClaimableIsOwed(s, now, now);
    var extra := seconds - Elapsed(s, now);
    if extra > 0 {
      ProductBounds(1, s.rate, extra, s.rate);
    }
    assert seconds * s.rate == Elapsed(s, now) * s.rate + extra * s.rate;
  }

  /** Lazy accrual refines second-by-second crediting since the last restart: in every run, at every active state
      past the cliff, the contract never owes more than the rate times the seconds paid for since the last paying
      withdrawal or rate change, capped by the remaining deposit, and it owes exactly that if and only if no
      resume since then lost anything, or the deposit is fully earned anyway. */
  lemma LazyAccrualRefinesMeter(w: World, calls: seq<Call>, id: u64)
    requires Genesis(w) && id in RunTo(w, calls).streams && RunTo(w, calls).streams[id].status == Active
    requires !BeforeCliff(RunTo(w, calls).streams[id], RunTo(w, calls).now)
    ensures var s := RunTo(w, calls).streams[id];
      var claimable, credited := ClaimableAmount(s, RunTo(w, calls).now), Credited(s, Seconds(w, calls, id));
      && claimable.Some? && claimable.value <= credited
      && (claimable.value == credited <==> NoResumeLoss(w, calls, id) || claimable.value == s.deposit - s.withdrawn)
  {
    AlwaysOk(w, calls);
    MeterInRun(w, calls, id);
    ClaimableAgainstMeter(RunTo(w, calls).streams[id], RunTo(w, calls).now, Seconds(w, calls, id));
  }

  lemma SameStop(v: World, c: Call, id: u64)
    requires WorldOk(v) && id in v.streams
    ensures id in After(v, c).streams && After(v, c).streams[id].stopTime == v.streams[id].stopTime
  {
    StepMeaning(v, c);
    if c.OnStream? && c.id == id && Exec(v, c).Some? {
      BecomesOk(v.now, v.streams[id], c.op, After(v, c).streams[id]);
    }
  }

  /** Without a stop time no resume ever loses anything. */
  lemma {:induction false} NoResumeLossWithoutStop(w: World, calls: seq<Call>, id: u64)
    requires Genesis(w) && id in RunTo(w, calls).streams && RunTo(w, calls).streams[id].stopTime == 0
    ensures NoResumeLoss(w, calls, id)
  {
    if calls != [] {
      var n := |calls| - 1;
      var v, c := RunTo(w, calls[..n]), calls[n];
      AlwaysOk(w, calls[..n]);
      if id in v.streams {
        SameStop(v, c, id);
        NoResumeLossWithoutStop(w, calls[..n], id);
      }
    }
  }

  // ----- the pause history the contract writes

  function HistoryOf(w: World, id: u64): seq<PauseEvent> {
    Lookup(w.pauseHistory, id, [])
  }

  /** The history of a live stream: alternating, in the past, and ending in a pause exactly while paused. */
  ghost predicate HistoryOk(h: seq<PauseEvent>, s: Stream, now: u64) {
    && B.Alternating(h)
    && (forall i :: 0 <= i < |h| ==> h[i].timestamp <= now)
    && (!IsTerminal(s.status) ==> (s.status == Paused <==> h != [] && h[|h| - 1].isPause))
  }

  /** The history after `op` is accepted at `now`. */
  function NextHistory(h: seq<PauseEvent>, op: StreamOp, now: u64): seq<PauseEvent> {
    match op
    case Pause(_) => h + [PauseEvent(now, true)]
    case Resume(_) => h + [PauseEvent(now, false)]
    case _ => h
  }

  lemma HistoryMoves(h: seq<PauseEvent>, now: u64, op: StreamOp, s: Stream, s': Stream)
    requires HistoryOk(h, s, now) && StreamOk(s, now) && Becomes(now, s, op, s')
    ensures HistoryOk(NextHistory(h, op, now), s', now)
  {
    if op.Pause? || op.Resume? {
      assert |h| > 0 ==> (h[|h| - 1].isPause <==> (|h| - 1) % 2 == 0);
    }
  }

  lemma OperateHistory(w: World, k: u64, op: StreamOp, id: u64)
    requires Operate(w, k, op).Some?
    ensures HistoryOf(Operate(w, k, op).value.world, id) ==
      if k == id then NextHistory(HistoryOf(w, id), op, w.now) else HistoryOf(w, id)
  {
  }

  lemma RecordedHistory(w: World, c: Call, id: u64)
    requires WorldOk(w)
    ensures HistoryOf(After(w, c), id) ==
      if c.OnStream? && c.id == id && Exec(w, c).Some?
      then NextHistory(HistoryOf(w, id), c.op, w.now)
      else HistoryOf(w, id)
  {
    if Exec(w, c).Some? {
      match c
      case OnStream(k, op) => OperateHistory(w, k, op, id);
      case Create(employer, p, cooldown) => CreateOneMeaning(w, employer, p, cooldown);
      case CreateBatch(employer, list) => CreateEachMeaning(w, employer, list);
      case _ =>
    }
  }

  lemma HistoryStep(v: World, c: Call, id: u64)
    requires WorldOk(v)
    requires id !in v.streams ==> HistoryOf(v, id) == []
    requires id in v.streams ==> HistoryOk(HistoryOf(v, id), v.streams[id], v.now)
    ensures id !in After(v, c).streams ==> HistoryOf(After(v, c), id) == []
    ensures id in After(v, c).streams ==>
      HistoryOk(HistoryOf(After(v, c), id), After(v, c).streams[id], After(v, c).now)
  {
    StepMeaning(v, c);
    RecordedHistory(v, c, id);
    if c.OnStream? && c.id == id && Exec(v, c).Some? {
      HistoryMoves(HistoryOf(v, id), v.now, c.op, v.streams[id], After(v, c).streams[id]);
    }
  }

  lemma {:induction false} HistoryInRun(w: World, calls: seq<Call>, id: u64)
    requires Genesis(w)
    ensures id !in RunTo(w, calls).streams ==> HistoryOf(RunTo(w, calls), id) == []
    ensures id in RunTo(w, calls).streams ==>
      HistoryOk(HistoryOf(RunTo(w, calls), id), RunTo(w, calls).streams[id], RunTo(w, calls).now)
  {
    if calls != [] {
      var n := |calls| - 1;
      var v, c := RunTo(w, calls[..n]), calls[n];
      HistoryInRun(w, calls[..n], id);
      AlwaysOk(w, calls[..n]);
      HistoryStep(v, c, id);
    }
  }

  // ----- the balance service against the meter

  /** Between the anchor and the effective end, every second is either paused or credited. */
  ghost predicate Tallied(h: seq<PauseEvent>, s: Stream, now: u64, anchor: u64, seconds: nat) {
    var end := Max(anchor, EffectiveEnd(s, now));
    anchor <= now && B.PausedCount(h, anchor, end) + seconds == end - anchor
  }

  lemma TallyTick(h: seq<PauseEvent>, s: Stream, now: u64, anchor: u64, seconds: nat)
    requires HistoryOk(h, s, now) && !IsTerminal(s.status) && now < U64_MAX
    requires Tallied(h, s, now, anchor, seconds)
    ensures Tallied(h, s, now + 1, anchor, if Credits(s, now) then seconds + 1 else seconds)
  {
    if s.stopTime == 0 || now < s.stopTime {
      assert EffectiveEnd(s, now) == now && EffectiveEnd(s, now + 1) == now + 1;
      assert B.PausedAt(h, now) <==> s.status == Paused;
    }
  }

  lemma TallyMove(h: seq<PauseEvent>, s: Stream, s': Stream, now: u64, op: StreamOp, anchor: u64, seconds: nat)
    requires Tallied(h, s, now, anchor, seconds) && s'.stopTime == s.stopTime
    ensures Tallied(NextHistory(h, op, now), s', now, anchor, seconds)
  {
    var end := Max(anchor, EffectiveEnd(s, now));
    if op.Pause? || op.Resume? {
      B.CountAfterAppend(h, PauseEvent(now, op.Pause?), anchor, end);
    }
  }

  lemma TallyStep(v: World, c: Call, id: u64, anchor: u64, seconds: nat)
    requires WorldOk(v) && id in v.streams && HistoryOk(HistoryOf(v, id), v.streams[id], v.now)
    requires !IsTerminal(v.streams[id].status) && Tallied(HistoryOf(v, id), v.streams[id], v.now, anchor, seconds)
    ensures id in After(v, c).streams
    ensures Tallied(HistoryOf(After(v, c), id), After(v, c).streams[id], After(v, c).now,
      if Restarts(v, c, id) then v.now else anchor,
      if Restarts(v, c, id) then 0
      else if c.Tick? && v.now < U64_MAX && Credits(v.streams[id], v.now) then seconds + 1 else seconds)
  {
    StepMeaning(v, c);
    RecordedHistory(v, c, id);
    var h, s := HistoryOf(v, id), v.streams[id];
    if c.Tick? {
      if v.now < U64_MAX {
        TallyTick(h, s, v.now, anchor, seconds);
      }
    } else if c.OnStream? && c.id == id && Exec(v, c).Some? {
      var s' := After(v, c).streams[id];
      BecomesOk(v.now, s, c.op, s');
      if !Restarts(v, c, id) {
        TallyMove(h, s, s', v.now, c.op, anchor, seconds);
      }
    }
  }

  lemma {:induction false} TallyInRun(w: World, calls: seq<Call>, id: u64)
    requires Genesis(w) && id in RunTo(w, calls).streams && !IsTerminal(RunTo(w, calls).streams[id].status)
    ensures var v := RunTo(w, calls);
      Tallied(HistoryOf(v, id), v.streams[id], v.now, Anchor(w, calls, id), Seconds(w, calls, id))
  {
    if calls != [] {
      var n := |calls| - 1;
      var v, c := RunTo(w, calls[..n]), calls[n];
      AlwaysOk(w, calls[..n]);
      HistoryInRun(w, calls[..n], id);
      if id in v.streams {
        StillLiveBefore(v, c, id);
        TallyInRun(w, calls[..n], id);
        TallyStep(v, c, id, Anchor(w, calls[..n], id), Seconds(w, calls[..n], id));
      } else {
        StepMeaning(v, c);
        RecordedHistory(v, c, id);
      }
    }
  }

  /** What the service is given for a stream: the stored fields, the unshifted last withdraw time and the
      pause history the contract wrote. */
  function ServiceView(s: Stream, anchor: u64, h: seq<PauseEvent>): B.StreamView {
    B.StreamView(s.deposit, s.withdrawn, s.rate, s.startTime, s.stopTime, anchor, s.cliffTime, s.status, h)
  }

  lemma ServiceFromTally(s: Stream, now: u64, anchor: u64, h: seq<PauseEvent>, seconds: nat)
    requires StreamOk(s, now) && HistoryOk(h, s, now) && Tallied(h, s, now, anchor, seconds)
    requires !IsTerminal(s.status) && !BeforeCliff(s, now)
    ensures B.CalculateBalance(ServiceView(s, anchor, h), now).claimable
         == Credited(s, seconds)
  {
    var view := ServiceView(s, anchor, h);
    if anchor <= B.WindowEnd(view, now) {
      B.BalanceMeaning(view, now);
    }
  }

  /** In every run, at every live state past the cliff, paused ones included, the service reports exactly
      the rate times the paid seconds, capped by the remaining deposit. */
  lemma ServiceMatchesMeter(w: World, calls: seq<Call>, id: u64)
    requires Genesis(w) && id in RunTo(w, calls).streams && !IsTerminal(RunTo(w, calls).streams[id].status)
    requires !BeforeCliff(RunTo(w, calls).streams[id], RunTo(w, calls).now)
    ensures var v := RunTo(w, calls);
      B.CalculateBalance(ServiceView(v.streams[id], Anchor(w, calls, id), HistoryOf(v, id)), v.now).claimable
      == Credited(v.streams[id], Seconds(w, calls, id))
  {
    var v := RunTo(w, calls);
    AlwaysOk(w, calls);
    HistoryInRun(w, calls, id);
    TallyInRun(w, calls, id);
    ServiceFromTally(v.streams[id], v.now, Anchor(w, calls, id), HistoryOf(v, id), Seconds(w, calls, id));
  }

  /** The two implementations agree: in every run, at every active state past the cliff, `claimable_amount`
      on the shifted field never exceeds what the service computes from the unshifted time and the recorded
      history, and equals it if and only if no resume since the last restart lost anything, or the deposit is
      fully earned. Before the cliff both report nothing. */
  lemma ImplementationsAgree(w: World, calls: seq<Call>, id: u64)
    requires Genesis(w) && id in RunTo(w, calls).streams && RunTo(w, calls).streams[id].status == Active
    ensures var v := RunTo(w, calls);
      var s := v.streams[id];
      var contract := ClaimableAmount(s, v.now);
      var service := B.CalculateBalance(ServiceView(s, Anchor(w, calls, id), HistoryOf(v, id)), v.now).claimable;
      && contract.Some? && contract.value <= service
      && (BeforeCliff(s, v.now) ==> contract.value == service == 0)
      && (!BeforeCliff(s, v.now) ==>
            (contract.value == service <==> NoResumeLoss(w, calls, id) || contract.value == s.deposit - s.withdrawn))
  {
    var v := RunTo(w, calls);
    if !BeforeCliff(v.streams[id], v.now) {
      ServiceMatchesMeter(w, calls, id);
      LazyAccrualRefinesMeter(w, calls, id);
    }
  }
}
