/** What one call does to one stream, in plain arithmetic, and the invariant that every run keeps. */
module Steps {
  import opened Common
  import opened Streams
  import opened World
  import Control
  import Token

  /** `get_stream` closes the stream at `now`. */
  predicate Closes(s: Stream, now: u64) {
    && s.status == Active && 0 < s.stopTime <= now
    && s.withdrawn + Owed(s, now) >= s.deposit
  }

  predicate Settles(now: u64, s: Stream, s': Stream, end: Status) {
    && !IsTerminal(s.status)
    && s'.withdrawn == s.withdrawn + Owed(s, now)
    && s' == s.(withdrawn := s'.withdrawn, status := end)
  }

  /** The stream `s` becomes `s'` when `op` is accepted at `now`. */
  predicate Becomes(now: u64, s: Stream, op: StreamOp, s': Stream) {
    match op
    case Withdraw(_) =>
      if Owed(s, now) == 0 then s' == s else
        && s.status == Active && CooledDown(s, now)
        && s'.withdrawn == s.withdrawn + Owed(s, now)
        && s' == s.(withdrawn := s'.withdrawn, lastWithdrawTime := now,
                    status := if s'.withdrawn == s.deposit then Exhausted else Active)
    case TopUp(_, amount) =>
      && !IsTerminal(s.status) && amount > 0
      && s'.deposit == s.deposit + amount && s' == s.(deposit := s'.deposit)
    case Pause(_) => s.status == Active && s' == s.(pausedAt := now, status := Paused)
    case Resume(_) =>
      && s.status == Paused
      && s'.lastWithdrawTime == s.lastWithdrawTime + (now - s.pausedAt)
      && s' == s.(lastWithdrawTime := s'.lastWithdrawTime, pausedAt := 0, status := Active)
    case Cancel(_) => Settles(now, s, s', Cancelled)
    case UpdateRate(_, newRate) =>
      && s.status == Active && 0 < newRate <= MAX_RATE_PER_SECOND
      && s'.withdrawn == s.withdrawn + Owed(s, now)
      && s' == s.(withdrawn := s'.withdrawn, lastWithdrawTime := now, rate := newRate)
    case Get => s' == if Closes(s, now) then s.(status := Exhausted) else s
    case Reclaim(_) => 0 < s.stopTime <= now && Settles(now, s, s', Exhausted)
    case TransferStream(_, newEmployee) => s' == s.(employee := newEmployee)
    case SetDelegate(_, delegate) => s' == s.(delegate := delegate)
    case ProposeEmployer(_, _) => s' == s
    case AcceptEmployer(newEmployer) => s' == s.(employer := newEmployer)
  }

  lemma GetMeaning(e: Env, s: Stream)
    requires StreamOk(s, e.now) && DecideGet(e, s).Some?
    ensures Becomes(e.now, s, Get, DecideGet(e, s).value.after)
  {
    ClaimableIsOwed(s, e.now, e.now);
    ClaimableIsOwed(s, e.now, s.stopTime);
    if s.status == Active && s.stopTime > 0 && e.now >= s.stopTime {
      assert EffectiveEnd(s, e.now) == EffectiveEnd(s, s.stopTime) == s.stopTime;
      assert Owed(s, e.now) == Owed(s, s.stopTime);
    }
  }

  lemma WithdrawMeaning(e: Env, s: Stream, employee: Address)
    requires StreamOk(s, e.now) && DecideWithdraw(e, s, employee).Some?
    ensures Becomes(e.now, s, Withdraw(employee), DecideWithdraw(e, s, employee).value.after)
  {
    ClaimableIsOwed(s, e.now, e.now);
  }

  /** Every accepted operation on a well-formed stream means what `Becomes` says. */
  lemma DecideMeaning(e: Env, s: Stream, op: StreamOp)
    requires StreamOk(s, e.now) && Decide(e, s, op).Some?
    ensures Becomes(e.now, s, op, Decide(e, s, op).value.after)
  {
    ClaimableIsOwed(s, e.now, e.now);
    match op
    case Get => GetMeaning(e, s);
    case Withdraw(employee) => WithdrawMeaning(e, s, employee);
    case _ =>
  }

  lemma BecomesOk(now: u64, s: Stream, op: StreamOp, s': Stream)
    requires StreamOk(s, now) && Becomes(now, s, op, s')
    ensures StreamOk(s', now)
    ensures s'.id == s.id && s'.token == s.token && s'.cooldown == s.cooldown
    ensures s'.stopTime == s.stopTime && s'.cliffTime == s.cliffTime && s'.startTime == s.startTime
  {
    ClaimableIsOwed(s, now, now);
  }

  // ----- the invariant of every run

  ghost predicate WorldOk(w: World) {
    forall id :: id in w.streams ==>
      && 1 <= id <= w.streamCount
      && w.streams[id].id == id
      && StreamOk(w.streams[id], w.now)
  }

  /** A stream as `create_stream` or the batch leaves it. */
  ghost predicate JustCreated(s: Stream, now: u64) {
    && StreamOk(s, now) && s.status == Active && s.withdrawn == 0
    && s.startTime == now && s.lastWithdrawTime == now && s.delegate == None
    && (0 < s.stopTime ==> now < s.stopTime)
  }

  lemma {:induction false} PaidAreExisting(tokens: map<Address, Token.Ledger>, token: Address, ts: seq<Transfer>)
    requires PayAll(tokens, token, ts).Some? && ts != []
    ensures token in tokens && ts[0].amount > 0 && PayAll(tokens, token, ts).value.Keys == tokens.Keys
  {
    var tokens1 := PayOne(tokens, token, ts[0]).value;
    assert tokens1.Keys == tokens.Keys;
    if |ts| > 1 {
      PaidAreExisting(tokens1, token, ts[1..]);
    }
  }

  lemma NetIsPositive(w: World, employer: Address, p: Params, cooldown: u64)
    requires CreateOne(w, employer, p, cooldown).Some?
    ensures Fund(w.control, employer, p.deposit).value.net > 0
  {
    var funding := Fund(w.control, employer, p.deposit).value;
    PaidAreExisting(w.tokens, p.token, funding.transfers);
    assert funding.transfers[0].amount == funding.net;
  }

  /** Streams present before are untouched, and exactly one fresh stream is added. */
  ghost predicate AddsOne(w: World, w': World) {
    && w'.now == w.now && w.streamCount < U64_MAX && w'.streamCount == w.streamCount + 1
    && w'.streamCount in w'.streams
    && w'.streams == w.streams[w'.streamCount := w'.streams[w'.streamCount]]
    && w'.streams[w'.streamCount].id == w'.streamCount
    && JustCreated(w'.streams[w'.streamCount], w.now)
    && w'.pauseHistory == w.pauseHistory && w'.control == w.control && w'.feeBalance == w.feeBalance
  }

  lemma NewStreamIsFresh(id: u64, employer: Address, p: Params, net: i128, cooldown: u64, now: u64, minDeposit: i128)
    requires ValidParams(p, minDeposit, now, employer) && net > 0
    ensures JustCreated(NewStream(id, employer, p, net, cooldown, now), now)
  {
  }

  lemma CreateOneAdds(w: World, employer: Address, p: Params, cooldown: u64)
    requires CreateOne(w, employer, p, cooldown).Some?
    ensures AddsOne(w, CreateOne(w, employer, p, cooldown).value.world)
  {
    NetIsPositive(w, employer, p, cooldown);
    var w', id := CreateOne(w, employer, p, cooldown).value.world, w.streamCount + 1;
    var net := Fund(w.control, employer, p.deposit).value.net;
    assert w'.streams == w.streams[id := NewStream(id, employer, p, net, cooldown, w.now)];
    NewStreamIsFresh(id, employer, p, net, cooldown, w.now, w.control.config.minDeposit);
  }

  /** Streams present before are untouched by a batch, and the new ones are fresh. */
  ghost predicate OnlyAdds(w: World, w': World) {
    && w'.now == w.now && w.streamCount <= w'.streamCount
    && w'.pauseHistory == w.pauseHistory && w'.control == w.control && w'.feeBalance == w.feeBalance
    && (forall id :: id in w.streams ==> id in w'.streams && w'.streams[id] == w.streams[id])
    && (forall id :: id in w'.streams && id !in w.streams ==>
          w.streamCount < id && JustCreated(w'.streams[id], w.now))
  }

  lemma AddsOneOk(w: World, w': World)
    requires WorldOk(w) && AddsOne(w, w')
    ensures WorldOk(w') && OnlyAdds(w, w')
  {
  }

  lemma CreateOneMeaning(w: World, employer: Address, p: Params, cooldown: u64)
    requires WorldOk(w) && CreateOne(w, employer, p, cooldown).Some?
    ensures WorldOk(CreateOne(w, employer, p, cooldown).value.world)
    ensures AddsOne(w, CreateOne(w, employer, p, cooldown).value.world)
    ensures OnlyAdds(w, CreateOne(w, employer, p, cooldown).value.world)
  {
    CreateOneAdds(w, employer, p, cooldown);
    AddsOneOk(w, CreateOne(w, employer, p, cooldown).value.world);
  }

  lemma {:induction false} CreateEachMeaning(w: World, employer: Address, list: seq<Params>)
    requires WorldOk(w) && CreateEach(w, employer, list).Some?
    ensures WorldOk(CreateEach(w, employer, list).value.world)
    ensures OnlyAdds(w, CreateEach(w, employer, list).value.world)
  {
    if list != [] {
      var n := |list| - 1;
      CreateEachMeaning(w, employer, list[..n]);
      CreateOneMeaning(CreateEach(w, employer, list[..n]).value.world, employer, list[n], 0);
    }
  }

  /** Time moving on by one second keeps every stream well formed. */
  lemma TickMeaning(w: World)
    requires WorldOk(w)
    ensures WorldOk(After(w, Tick)) && After(w, Tick).streams == w.streams
  {
  }

  lemma OperateMeaning(w: World, id: u64, op: StreamOp)
    requires WorldOk(w) && Operate(w, id, op).Some?
    ensures id in w.streams
    ensures var w' := Operate(w, id, op).value.world;
      && WorldOk(w') && w'.now == w.now && w'.streamCount == w.streamCount && w'.control == w.control
      && w'.streams == w.streams[id := w'.streams[id]]
      && Becomes(w.now, w.streams[id], op, w'.streams[id])
  {
    var s := w.streams[id];
    DecideMeaning(EnvOf(w, id), s, op);
    BecomesOk(w.now, s, op, Decide(EnvOf(w, id), s, op).value.after);
  }

  /** Every call, seen from one stream: it is created, or operated on, or left exactly as it was. */
  lemma StepMeaning(w: World, c: Call)
    requires WorldOk(w)
    ensures WorldOk(After(w, c))
    ensures !c.Tick? ==> After(w, c).now == w.now
    ensures c.Tick? ==> w.now <= After(w, c).now <= w.now + 1
    ensures forall id :: id in w.streams ==> id in After(w, c).streams
    ensures forall id :: id in w.streams && !(c.OnStream? && c.id == id) ==> After(w, c).streams[id] == w.streams[id]
    ensures c.OnStream? && c.id in w.streams ==>
      || Exec(w, c).None?
      || Becomes(w.now, w.streams[c.id], c.op, After(w, c).streams[c.id])
    ensures forall id :: id in After(w, c).streams && id !in w.streams ==>
      w.streamCount < id && JustCreated(After(w, c).streams[id], w.now)
  {
    if Exec(w, c).Some? {
      match c
      case Tick => TickMeaning(w);
      case Create(employer, p, cooldown) => CreateOneMeaning(w, employer, p, cooldown);
      case CreateBatch(employer, list) => CreateEachMeaning(w, employer, list);
      case OnStream(id, op) => OperateMeaning(w, id, op);
      case _ =>
    }
  }

  lemma {:induction false} AlwaysOk(w: World, calls: seq<Call>)
    requires Genesis(w)
    ensures WorldOk(RunTo(w, calls))
  {
    if calls != [] {
      var n := |calls| - 1;
      AlwaysOk(w, calls[..n]);
      StepMeaning(RunTo(w, calls[..n]), calls[n]);
    }
  }

  /** In every reachable state of every run, each stream keeps its bounds, and at every u64 time its
      claimable amount and any u32 fee on it are computed without overflow. */
  lemma ReachableStreamsAreSafe(w: World, calls: seq<Call>, id: u64, t: u64, feeBps: u32)
    requires Genesis(w) && id in RunTo(w, calls).streams
    ensures var s := RunTo(w, calls).streams[id];
      && StreamOk(s, RunTo(w, calls).now)
      && ClaimableAmount(s, t).Some?
      && 0 <= s.withdrawn <= s.withdrawn + ClaimableAmount(s, t).value <= s.deposit
      && Fee(ClaimableAmount(s, t).value, feeBps).Some?
  {
    AlwaysOk(w, calls);
    ClaimableIsOwed(RunTo(w, calls).streams[id], RunTo(w, calls).now, t);
  }
}
