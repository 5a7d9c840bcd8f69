/** Short runs from a fresh deployment in which the code does depart from its documentation: the failing side
    of each if-and-only-if, at a concrete input. */
module Witnesses {
  import opened Common
  import opened Streams
  import opened World
  import opened Steps
  import opened Escrow
  import opened Solvency
  import opened Fees
  import opened Lifecycle
  import opened Accrual
  import opened Indexes
  import Control
  import MapSums
  import Token
  import B = BalanceService

  const BOSS: Address := Address(1)
  const WORKER: Address := Address(2)
  const COLLECTOR: Address := Address(3)
  const COIN: Address := Address(4)

  /** A fresh contract beside one sound token, all of it held by the employer. */
  function Start(): World {
    World(0, map[], 0, map[COIN := Token.Ledger(Some(BOSS), 10_000, map[BOSS := 10_000], map[], {})],
          Control.Initial, map[], map[], map[], map[], map[])
  }

  /** The start that every run below begins with. */
  ghost predicate FreshStart() {
    Genesis(Start()) && NoPull(Start()) && TokensSound(Start().tokens)
  }

  lemma StartIsFresh()
    ensures FreshStart()
  {
    var balances: map<Address, int> := map[BOSS := 10_000];
    MapSums.SumUpdate(map[], BOSS, 10_000);
    assert map[][BOSS := 10_000] == balances;
  }

  // ----- composing runs

  function Ticks(n: nat): seq<Call> {
    seq(n, _ => Tick)
  }

  lemma OneMore(w: World, xs: seq<Call>, c: Call)
    ensures RunTo(w, xs + [c]) == After(RunTo(w, xs), c)
  {
    assert (xs + [c])[..|xs|] == xs;
  }

  lemma {:induction false} TimePasses(w: World, xs: seq<Call>, n: nat)
    requires RunTo(w, xs).now + n <= U64_MAX
    ensures RunTo(w, xs + Ticks(n)) == RunTo(w, xs).(now := RunTo(w, xs).now + n)
  {
    if n == 0 {
      assert xs + Ticks(0) == xs;
    } else {
      TimePasses(w, xs, n - 1);
      OneMore(w, xs + Ticks(n - 1), Tick);
      assert xs + Ticks(n) == xs + Ticks(n - 1) + [Tick];
    }
  }

  lemma WaitThen(w: World, xs: seq<Call>, n: nat, c: Call)
    requires RunTo(w, xs).now + n <= U64_MAX
    ensures RunTo(w, xs + Ticks(n)) == RunTo(w, xs).(now := RunTo(w, xs).now + n)
    ensures RunTo(w, xs + Ticks(n) + [c]) == After(RunTo(w, xs).(now := RunTo(w, xs).now + n), c)
  {
    TimePasses(w, xs, n);
    OneMore(w, xs + Ticks(n), c);
  }

  lemma PaySingle(tokens: map<Address, Token.Ledger>, t: Address, a: Transfer)
    ensures PayAll(tokens, t, [a]) == PayOne(tokens, t, a)
  {
    assert [a][1..] == [];
  }

  lemma PayTwo(tokens: map<Address, Token.Ledger>, t: Address, a: Transfer, b: Transfer)
    ensures PayAll(tokens, t, [a, b]) ==
      if PayOne(tokens, t, a).Some? then PayOne(PayOne(tokens, t, a).value, t, b) else None
  {
    assert [a, b][1..] == [b];
    var first := PayOne(tokens, t, a);
    if first.Some? {
      PaySingle(first.value, t, b);
    }
  }

  /** A transfer that its sender can afford moves exactly its amount. */
  lemma PayMoves(tokens: map<Address, Token.Ledger>, t: Address, a: Transfer)
    requires t in tokens && a.amount > 0 && a.from != a.to
    requires Token.BalanceOf(tokens[t], a.from) >= a.amount && Token.BalanceOf(tokens[t], a.to) <= 10_000
    requires a.amount <= 10_000
    ensures PayOne(tokens, t, a).Some? && t in PayOne(tokens, t, a).value
    ensures forall x ::
      Token.BalanceOf(PayOne(tokens, t, a).value[t], x)
      == Token.BalanceOf(tokens[t], x) + (if x == a.to then a.amount else 0) - (if x == a.from then a.amount else 0)
  {
  }

  /** An operation with this effect, whose transfers go through. */
  lemma OperateSaves(w: World, id: u64, op: StreamOp, effect: Effect, tokens: map<Address, Token.Ledger>)
    requires id in w.streams && Decide(EnvOf(w, id), w.streams[id], op) == Some(effect)
    requires PayAll(w.tokens, effect.after.token, effect.transfers) == Some(tokens)
    ensures Exec(w, OnStream(id, op)).Some?
    ensures var w' := After(w, OnStream(id, op));
      && w'.now == w.now && w'.streams == w.streams[id := effect.after] && w'.tokens == tokens
      && w'.control == w.control && w'.feeBalance == Book(w.feeBalance, effect.after.token, effect.booked)
      && w'.pendingEmployer == SetSlot(w.pendingEmployer, id, effect.pending) && w'.employerIndex == w.employerIndex
  {
  }

  // ----- one stream of 600 tokens at 10 a second

  function Opening(stop: u64): seq<Call> {
    [Create(BOSS, Params(WORKER, COIN, 600, 10, stop, 0), 0)]
  }

  function Opened(stop: u64): Stream {
    Stream(1, BOSS, WORKER, COIN, 600, 0, 10, 0, stop, 0, 0, Active, false, 0, 0, None)
  }

  /** At time `now`, stream 1 is `s`, and contract and worker hold these amounts. */
  predicate Shows(w: World, now: u64, s: Stream, escrow: int, paid: int) {
    && w.now == now && 1 in w.streams && w.streams[1] == s && COIN in w.tokens
    && Token.BalanceOf(w.tokens[COIN], SELF) == escrow && Token.BalanceOf(w.tokens[COIN], WORKER) == paid
    && Token.BalanceOf(w.tokens[COIN], BOSS) == 10_000 - escrow - paid
  }

  lemma OpeningShows(stop: u64)
    requires stop <= 1000
    ensures Shows(RunTo(Start(), Opening(stop)), 0, Opened(stop), 600, 0)
    ensures var w := RunTo(Start(), Opening(stop));
      && w.control == Control.Initial && w.streams == map[1 := Opened(stop)] && w.tokens[COIN].allowances == map[]
      && w.employerIndex == map[BOSS := [1]]
  {
    var w := Start();
    OneMore(w, [], Opening(stop)[0]);
    assert [] + Opening(stop) == Opening(stop);
    assert StreamedSeconds(600, 10) == 60;
    var none: seq<u64> := [];
    assert none + [1] == [1];
    var pay := Transfer(BOSS, SELF, 600);
    assert PayAll(w.tokens, COIN, [pay]) == PayOne(w.tokens, COIN, pay);
  }

  /** Paused after 20 seconds. */
  function Pausing(stop: u64): seq<Call> {
    Opening(stop) + Ticks(20) + [OnStream(1, Pause(BOSS))]
  }

  lemma PauseShows(w: World, stop: u64)
    requires Shows(w, 20, Opened(stop), 600, 0)
    ensures Shows(After(w, OnStream(1, Pause(BOSS))), 20, Opened(stop).(status := Paused, pausedAt := 20), 600, 0)
  {
    OperateSaves(w, 1, Pause(BOSS), Decide(EnvOf(w, 1), Opened(stop), Pause(BOSS)).value, w.tokens);
  }

  lemma PausingShows(stop: u64)
    requires stop <= 1000
    ensures Shows(RunTo(Start(), Pausing(stop)), 20, Opened(stop).(status := Paused, pausedAt := 20), 600, 0)
  {
    OpeningShows(stop);
    TimePasses(Start(), Opening(stop), 20);
    PauseShows(RunTo(Start(), Opening(stop) + Ticks(20)), stop);
    OneMore(Start(), Opening(stop) + Ticks(20), OnStream(1, Pause(BOSS)));
  }

  /** A paused stream's claimable amount grows: 200 at the pause, 300 ten seconds into it. */
  lemma PausedStreamAccrues()
    ensures FreshStart()
    ensures 1 in RunTo(Start(), Pausing(0)).streams && 1 in RunTo(Start(), Pausing(0) + Ticks(10)).streams
    ensures var s, s' := RunTo(Start(), Pausing(0)).streams[1], RunTo(Start(), Pausing(0) + Ticks(10)).streams[1];
      && s.status == Paused && s' == s
      && RunTo(Start(), Pausing(0)).now == 20 && RunTo(Start(), Pausing(0) + Ticks(10)).now == 30
      && ClaimableAmount(s, 20) == Some(200) && ClaimableAmount(s', 30) == Some(300)
  {
    StartIsFresh();
    PausingShows(0);
    TimePasses(Start(), Pausing(0), 10);
  }

  /** Resumed ten seconds after its stop time of 50. */
  function LateResume(): seq<Call> {
    Pausing(50) + Ticks(40) + [OnStream(1, Resume(BOSS))]
  }

  lemma LateResumeShows()
    ensures Shows(RunTo(Start(), LateResume()), 60, Opened(50).(lastWithdrawTime := 40), 600, 0)
    ensures !NoResumeLoss(Start(), LateResume(), 1)
  {
    PausingShows(50);
    WaitThen(Start(), Pausing(50), 40, OnStream(1, Resume(BOSS)));
    var calls := LateResume();
    var n := |calls| - 1;
    assert calls[..n] == Pausing(50) + Ticks(40) && calls[n] == OnStream(1, Resume(BOSS));
    var v := RunTo(Start(), calls[..n]);
    assert !HarmlessCall(v, calls[n], 1);
  }

  /** A late resume makes the two implementations disagree: 20 seconds were worked before the pause, but the
      contract then owes 10 of them only, and the balance service reports more. */
  lemma LateResumeDisagrees()
    ensures FreshStart() && 1 in RunTo(Start(), LateResume()).streams
    ensures var v := RunTo(Start(), LateResume());
      var view := ServiceView(v.streams[1], Anchor(Start(), LateResume(), 1), HistoryOf(v, 1));
      && v.streams[1].status == Active
      && ClaimableAmount(v.streams[1], v.now) == Some(100) && 100 < B.CalculateBalance(view, v.now).claimable
  {
    StartIsFresh();
    LateResumeShows();
    ImplementationsAgree(Start(), LateResume(), 1);
  }

  // ----- rate changes

  /** A stream of 2000 tokens at 10 a second with its cliff at 100. */
  function CliffOpening(): seq<Call> {
    [Create(BOSS, Params(WORKER, COIN, 2_000, 10, 0, 100), 0)]
  }

  function Cliffed(): Stream {
    Stream(1, BOSS, WORKER, COIN, 2_000, 0, 10, 0, 0, 0, 0, Active, false, 100, 0, None)
  }

  lemma CliffOpeningShows()
    ensures Shows(RunTo(Start(), CliffOpening()), 0, Cliffed(), 2_000, 0)
  {
    var w := Start();
    OneMore(w, [], CliffOpening()[0]);
    assert [] + CliffOpening() == CliffOpening();
    assert StreamedSeconds(2_000, 10) == 200;
    var pay := Transfer(BOSS, SELF, 2_000);
    assert PayAll(w.tokens, COIN, [pay]) == PayOne(w.tokens, COIN, pay);
  }

  lemma RateShows(w: World, s: Stream, s': Stream, newRate: i128, escrow: int)
    requires Shows(w, w.now, s, escrow, 0) && 0 < newRate <= MAX_RATE_PER_SECOND
    requires ClaimableAmount(s, w.now).Some? && s.withdrawn + ClaimableAmount(s, w.now).value <= I128_MAX
    requires s.employer == BOSS && s.status == Active && s.withdrawn >= 0
    requires s' == s.(withdrawn := s.withdrawn + ClaimableAmount(s, w.now).value, lastWithdrawTime := w.now,
                      rate := newRate)
    ensures Shows(After(w, OnStream(1, UpdateRate(BOSS, newRate))), w.now, s', escrow, 0)
  {
    OperateSaves(w, 1, UpdateRate(BOSS, newRate), Effect(s', [], 0, None, EnvOf(w, 1).pending, Unit), w.tokens);
  }

  /** The rate is set to what it was, half-way to the cliff. */
  function Reset(): seq<Call> {
    CliffOpening() + Ticks(50) + [OnStream(1, UpdateRate(BOSS, 10))]
  }

  lemma ResetShows()
    ensures Shows(RunTo(Start(), Reset()), 50, Cliffed().(lastWithdrawTime := 50), 2_000, 0)
  {
    CliffOpeningShows();
    TimePasses(Start(), CliffOpening(), 50);
    RateShows(RunTo(Start(), CliffOpening() + Ticks(50)), Cliffed(), Cliffed().(lastWithdrawTime := 50), 10, 2_000);
    OneMore(Start(), CliffOpening() + Ticks(50), OnStream(1, UpdateRate(BOSS, 10)));
  }

  lemma CliffReached()
    ensures Shows(RunTo(Start(), CliffOpening() + Ticks(100)), 100, Cliffed(), 2_000, 0)
  {
    CliffOpeningShows();
    TimePasses(Start(), CliffOpening(), 100);
  }

  lemma CliffReachedAfterReset()
    ensures Shows(RunTo(Start(), Reset() + Ticks(50)), 100, Cliffed().(lastWithdrawTime := 50), 2_000, 0)
  {
    ResetShows();
    TimePasses(Start(), Reset(), 50);
  }

  /** A rate change before the cliff, even to the same rate, drops what had accrued: at the cliff the stream owes
      500 instead of 1000, though nothing was paid out or written off. */
  lemma EarlyRateChangeDrops()
    ensures FreshStart()
    ensures var plain, reset := Cliffed(), Cliffed().(lastWithdrawTime := 50);
      && Shows(RunTo(Start(), CliffOpening() + Ticks(100)), 100, plain, 2_000, 0)
      && Shows(RunTo(Start(), Reset() + Ticks(50)), 100, reset, 2_000, 0)
      && ClaimableAmount(plain, 100) == Some(1_000) && ClaimableAmount(reset, 100) == Some(500)
  {
    StartIsFresh();
    CliffReached();
    CliffReachedAfterReset();
  }

  /** A rate change past the cliff writes off the 200 tokens earned so far as withdrawn, but nobody is paid: the
      contract keeps all 600 and the stream may draw 400 only. */
  lemma RateChangeWritesOff()
    ensures FreshStart()
    ensures var w := RunTo(Start(), Opening(0) + Ticks(20) + [OnStream(1, UpdateRate(BOSS, 20))]);
      var s := Opened(0).(withdrawn := 200, lastWithdrawTime := 20, rate := 20);
      && Shows(w, 20, s, 600, 0) && ClaimableAmount(s, 20) == Some(0) && s.deposit - s.withdrawn == 400
  {
    StartIsFresh();
    OpeningShows(0);
    TimePasses(Start(), Opening(0), 20);
    RateShows(RunTo(Start(), Opening(0) + Ticks(20)), Opened(0),
              Opened(0).(withdrawn := 200, lastWithdrawTime := 20, rate := 20), 20, 600);
    OneMore(Start(), Opening(0) + Ticks(20), OnStream(1, UpdateRate(BOSS, 20)));
  }

  // ----- hand-overs

  function Proposed(): seq<Call> {
    Opening(0) + [OnStream(1, ProposeEmployer(BOSS, COLLECTOR))]
  }

  lemma ProposedShows()
    ensures var w := RunTo(Start(), Proposed());
      && Shows(w, 0, Opened(0), 600, 0) && w.employerIndex == map[BOSS := [1]]
      && Slot(w.pendingEmployer, 1) == Some(COLLECTOR)
  {
    OpeningShows(0);
    OneMore(Start(), Opening(0), OnStream(1, ProposeEmployer(BOSS, COLLECTOR)));
    OperateSaves(RunTo(Start(), Opening(0)), 1, ProposeEmployer(BOSS, COLLECTOR),
                 Effect(Opened(0), [], 0, None, Some(COLLECTOR), Unit), RunTo(Start(), Opening(0)).tokens);
  }

  lemma AcceptShows(w: World)
    requires Shows(w, 0, Opened(0), 600, 0) && Slot(w.pendingEmployer, 1) == Some(COLLECTOR)
    ensures var w' := After(w, OnStream(1, AcceptEmployer(COLLECTOR)));
      Shows(w', 0, Opened(0).(employer := COLLECTOR), 600, 0) && w'.employerIndex == w.employerIndex
  {
    OperateSaves(w, 1, AcceptEmployer(COLLECTOR),
                 Effect(Opened(0).(employer := COLLECTOR), [], 0, None, None, Unit), w.tokens);
  }

  /** After a hand-over the stream is still listed under its old employer, and not under the new one. */
  lemma IndexGoesStale()
    ensures FreshStart()
    ensures var w := RunTo(Start(), Proposed() + [OnStream(1, AcceptEmployer(COLLECTOR))]);
      && Shows(w, 0, Opened(0).(employer := COLLECTOR), 600, 0)
      && EmployerIds(w, BOSS) == [1] && EmployerIds(w, COLLECTOR) == []
  {
    StartIsFresh();
    ProposedShows();
    AcceptShows(RunTo(Start(), Proposed()));
    OneMore(Start(), Proposed(), OnStream(1, AcceptEmployer(COLLECTOR)));
  }

  // ----- ends of streams

  lemma ReclaimDecided(e: Env, s: Stream)
    requires e.now == 50 && s == Opened(50).(status := Paused, pausedAt := 20)
    ensures Decide(e, s, Reclaim(BOSS)) == Some(Effect(
      s.(withdrawn := 500, status := Exhausted),
      [Transfer(SELF, WORKER, 500), Transfer(SELF, BOSS, 100)], 0, None, e.pending, Unit))
  {
    assert [Transfer(SELF, WORKER, 500)] + [Transfer(SELF, BOSS, 100)]
        == [Transfer(SELF, WORKER, 500), Transfer(SELF, BOSS, 100)];
  }

  lemma ReclaimShows(w: World, s: Stream)
    requires Shows(w, 50, s, 600, 0) && s == Opened(50).(status := Paused, pausedAt := 20)
    ensures Shows(After(w, OnStream(1, Reclaim(BOSS))), 50, s.(status := Exhausted, withdrawn := 500), 0, 500)
  {
    var pay, back := Transfer(SELF, WORKER, 500), Transfer(SELF, BOSS, 100);
    ReclaimDecided(EnvOf(w, 1), s);
    PayMoves(w.tokens, COIN, pay);
    var tokens := PayOne(w.tokens, COIN, pay).value;
    PayMoves(tokens, COIN, back);
    PayTwo(w.tokens, COIN, pay, back);
    OperateSaves(w, 1, Reclaim(BOSS), Decide(EnvOf(w, 1), s, Reclaim(BOSS)).value, PayOne(tokens, COIN, back).value);
  }

  /** `reclaim_expired` takes a paused stream to exhausted, which the transition table does not allow, and pays
      for the 30 paused seconds before the stop time. */
  lemma ReclaimLeavesTheTable()
    ensures FreshStart()
    ensures var calls := Pausing(50) + Ticks(30);
      var s, w' := Opened(50).(status := Paused, pausedAt := 20), RunTo(Start(), calls + [OnStream(1, Reclaim(BOSS))]);
      && Shows(RunTo(Start(), calls), 50, s, 600, 0) && !IsValidTransition(Paused, Exhausted)
      && Shows(w', 50, s.(status := Exhausted, withdrawn := 500), 0, 500)
  {
    StartIsFresh();
    PausingShows(50);
    TimePasses(Start(), Pausing(50), 30);
    var calls := Pausing(50) + Ticks(30);
    ReclaimShows(RunTo(Start(), calls), Opened(50).(status := Paused, pausedAt := 20));
    OneMore(Start(), calls, OnStream(1, Reclaim(BOSS)));
  }

  lemma GetCloses(w: World)
    requires Shows(w, 100, Opened(100), 600, 0)
    ensures Shows(After(w, OnStream(1, Get)), 100, Opened(100).(status := Exhausted), 600, 0)
  {
    var closed := Opened(100).(status := Exhausted);
    assert Decide(EnvOf(w, 1), Opened(100), Get)
        == Some(Effect(closed, [], 0, None, EnvOf(w, 1).pending, Info(closed)));
    OperateSaves(w, 1, Get, Effect(closed, [], 0, None, EnvOf(w, 1).pending, Info(closed)), w.tokens);
  }

  lemma ClosedPaysNothing(w: World)
    requires Shows(w, 100, Opened(100).(status := Exhausted), 600, 0) && !w.control.config.paused
    ensures Exec(w, OnStream(1, Withdraw(WORKER))).Some?
    ensures After(w, OnStream(1, Withdraw(WORKER))).tokens == w.tokens
  {
    var s := w.streams[1];
    assert Decide(EnvOf(w, 1), s, Withdraw(WORKER))
        == Some(Effect(s, [], 0, None, EnvOf(w, 1).pending, Number(0)));
    OperateSaves(w, 1, Withdraw(WORKER), Effect(s, [], 0, None, EnvOf(w, 1).pending, Number(0)), w.tokens);
  }

  function Expiring(): seq<Call> {
    Opening(100) + Ticks(100)
  }

  lemma ExpiringShows()
    ensures Shows(RunTo(Start(), Expiring()), 100, Opened(100), 600, 0)
    ensures RunTo(Start(), Expiring()).control == Control.Initial
  {
    OpeningShows(100);
    TimePasses(Start(), Opening(100), 100);
  }

  lemma OperateLeavesControl(w: World, id: u64, op: StreamOp)
    ensures After(w, OnStream(id, op)).control == w.control
  {
  }

  /** A read forfeits the salary: all 600 tokens are claimable until `get_stream` is called; after it a
      withdrawal is accepted but pays nothing, and they stay in the contract. */
  lemma ReadForfeits()
    ensures FreshStart()
    ensures var before, after := RunTo(Start(), Expiring()), RunTo(Start(), Expiring() + [OnStream(1, Get)]);
      && Shows(before, 100, Opened(100), 600, 0) && ClaimableAmount(Opened(100), 100) == Some(600)
      && Shows(after, 100, Opened(100).(status := Exhausted), 600, 0)
      && Exec(after, OnStream(1, Withdraw(WORKER))).Some?
      && After(after, OnStream(1, Withdraw(WORKER))).tokens == after.tokens
  {
    StartIsFresh();
    ExpiringShows();
    OneMore(Start(), Expiring(), OnStream(1, Get));
    var before := RunTo(Start(), Expiring());
    GetCloses(before);
    OperateLeavesControl(before, 1, Get);
    ClosedPaysNothing(After(before, OnStream(1, Get)));
  }

  lemma OnePledge(w: World, s: Stream)
    requires w.streams == map[1 := s]
    ensures Pledges(w, s.token) == Pledged(s, s.token)
  {
    PledgeUpdate(map[], 1, s, s.token);
    assert map[][1 := s] == w.streams;
    assert PledgeMap(map[], s.token) == map[];
  }

  lemma PullsBack(w: World)
    requires Shows(w, 0, Opened(0), 600, 0) && Token.Allowance(w.tokens[COIN], WORKER, WORKER) == 0
    ensures var w' := After(w, Outside(COIN, Token.TransferFrom(WORKER, WORKER, SELF, -600)));
      Shows(w', 0, Opened(0), 0, 600) && w'.streams == w.streams
  {
  }

  /** A pull of a negative amount empties the contract under a stream that may still draw all of it. */
  lemma NegativePullUncovers()
    ensures FreshStart()
    ensures var w' := RunTo(Start(), Opening(0) + [Outside(COIN, Token.TransferFrom(WORKER, WORKER, SELF, -600))]);
      Shows(w', 0, Opened(0), 0, 600) && Held(w', COIN) == 0 && Pledges(w', COIN) == 600
  {
    StartIsFresh();
    OpeningShows(0);
    var w := RunTo(Start(), Opening(0));
    OneMore(Start(), Opening(0), Outside(COIN, Token.TransferFrom(WORKER, WORKER, SELF, -600)));
    PullsBack(w);
    OnePledge(w, Opened(0));
  }

  // ----- fees

  /** The employer appoints itself administrator and sets a fee of one per cent for the collector. */
  function Charging(): seq<Call> {
    [Admin(Control.Initialize(BOSS))] + [Admin(Control.SetProtocolFee(BOSS, 0, 100, COLLECTOR))]
  }

  predicate FeeIsSet(c: Control.State) {
    && c.admin == Some(BOSS) && c.allowed == [] && c.feeRecipient == Some(COLLECTOR)
    && c.config == Control.Config(0, 100, 100, 1, false)
  }

  lemma ChargingShows()
    ensures var w := RunTo(Start(), Charging()); w == Start().(control := w.control) && FeeIsSet(w.control)
  {
    var first := Admin(Control.Initialize(BOSS));
    OneMore(Start(), [], first);
    assert [] + [first] == [first];
    OneMore(Start(), [first], Admin(Control.SetProtocolFee(BOSS, 0, 100, COLLECTOR)));
  }

  /** The terms of a stream of 1000 tokens, 990 after the fee. */
  const TERMS: Params := Params(WORKER, COIN, 1_000, 10, 0, 0)

  function Charged(): Stream {
    Stream(1, BOSS, WORKER, COIN, 990, 0, 10, 0, 0, 0, 0, Active, false, 0, 0, None)
  }

  /** At time `now`, stream 1 is `s`; contract, collector and worker hold, and the contract books, these amounts. */
  predicate FeeShows(w: World, now: u64, s: Stream, escrow: int, collected: int, paid: int, booked: int) {
    && w.now == now && 1 in w.streams && w.streams == map[1 := s] && COIN in w.tokens
    && Token.BalanceOf(w.tokens[COIN], SELF) == escrow
    && Token.BalanceOf(w.tokens[COIN], COLLECTOR) == collected
    && Token.BalanceOf(w.tokens[COIN], WORKER) == paid
    && Booked(w, COIN) == booked && FeeIsSet(w.control)
  }

  lemma FeeOpens(w: World)
    requires w == Start().(control := w.control) && FeeIsSet(w.control)
    ensures FeeShows(After(w, Create(BOSS, TERMS, 0)), 0, Charged(), 990, 10, 0, 0)
  {
    assert StreamedSeconds(1_000, 10) == 100;
    var net, levy := Transfer(BOSS, SELF, 990), Transfer(BOSS, COLLECTOR, 10);
    assert Fund(w.control, BOSS, 1_000) == Some(Funding(990, [net, levy]));
    PayTwo(w.tokens, COIN, net, levy);
  }

  function FeeOpening(): seq<Call> {
    Charging() + [Create(BOSS, TERMS, 0)]
  }

  lemma FeeOpeningShows()
    ensures FeeShows(RunTo(Start(), FeeOpening()), 0, Charged(), 990, 10, 0, 0)
  {
    ChargingShows();
    OneMore(Start(), Charging(), Create(BOSS, TERMS, 0));
    FeeOpens(RunTo(Start(), Charging()));
  }

  /** Then 20 seconds of the stream are withdrawn. */
  function Withdrawn(): seq<Call> {
    FeeOpening() + Ticks(20) + [OnStream(1, Withdraw(WORKER))]
  }

  lemma WithdrawalDecided(e: Env)
    requires e.now == 20 && !e.paused && e.feeBps == 100 && e.feeRecipient == Some(COLLECTOR)
    ensures DecideWithdraw(e, Charged(), WORKER) == Some(Effect(
      Charged().(withdrawn := 200, lastWithdrawTime := 20),
      [Transfer(SELF, COLLECTOR, 2), Transfer(SELF, WORKER, 198)], 2, None, e.pending, Number(198)))
  {
    assert [Transfer(SELF, COLLECTOR, 2)] + [Transfer(SELF, WORKER, 198)]
        == [Transfer(SELF, COLLECTOR, 2), Transfer(SELF, WORKER, 198)];
  }

  lemma FeeWithdraws(w: World)
    requires FeeShows(w, 20, Charged(), 990, 10, 0, 0)
    ensures FeeShows(After(w, OnStream(1, Withdraw(WORKER))), 20,
                     Charged().(withdrawn := 200, lastWithdrawTime := 20), 790, 12, 198, 2)
  {
    var levy, pay := Transfer(SELF, COLLECTOR, 2), Transfer(SELF, WORKER, 198);
    WithdrawalDecided(EnvOf(w, 1));
    PayMoves(w.tokens, COIN, levy);
    var tokens := PayOne(w.tokens, COIN, levy).value;
    PayMoves(tokens, COIN, pay);
    PayTwo(w.tokens, COIN, levy, pay);
    OperateSaves(w, 1, Withdraw(WORKER), DecideWithdraw(EnvOf(w, 1), Charged(), WORKER).value,
                 PayOne(tokens, COIN, pay).value);
  }

  lemma WithdrawnShows()
    ensures FeeShows(RunTo(Start(), Withdrawn()), 20,
                     Charged().(withdrawn := 200, lastWithdrawTime := 20), 790, 12, 198, 2)
  {
    FeeOpeningShows();
    TimePasses(Start(), FeeOpening(), 20);
    FeeWithdraws(RunTo(Start(), FeeOpening() + Ticks(20)));
    OneMore(Start(), FeeOpening() + Ticks(20), OnStream(1, Withdraw(WORKER)));
  }

  lemma FeeIsCollected(w: World)
    requires FeeShows(w, 20, Charged().(withdrawn := 200, lastWithdrawTime := 20), 790, 12, 198, 2)
    ensures Exec(w, WithdrawFees(BOSS, COIN, 2)).Some?
    ensures FeeShows(After(w, WithdrawFees(BOSS, COIN, 2)), 20,
                     Charged().(withdrawn := 200, lastWithdrawTime := 20), 788, 14, 198, 0)
  {
  }

  lemma CollectedShows()
    ensures CollectFees(RunTo(Start(), Withdrawn()), BOSS, COIN, 2).Some?
    ensures var w' := RunTo(Start(), Withdrawn() + [WithdrawFees(BOSS, COIN, 2)]);
      && FeeShows(w', 20, Charged().(withdrawn := 200, lastWithdrawTime := 20), 788, 14, 198, 0)
      && Held(w', COIN) == 788 && Pledges(w', COIN) == 790
  {
    WithdrawnShows();
    OneMore(Start(), Withdrawn(), WithdrawFees(BOSS, COIN, 2));
    var w := RunTo(Start(), Withdrawn());
    FeeIsCollected(w);
    OnePledge(After(w, WithdrawFees(BOSS, COIN, 2)), w.streams[1]);
  }

  /** The first collection pays the collector a second time, out of the stream's deposit: the contract then
      holds 788 tokens against the 790 that the stream may still draw. */
  lemma FirstCollectionPaysTwice()
    ensures FreshStart()
    ensures var w, w' := RunTo(Start(), Withdrawn()), RunTo(Start(), Withdrawn() + [WithdrawFees(BOSS, COIN, 2)]);
      && COIN in w.tokens && Token.BalanceOf(w.tokens[COIN], COLLECTOR) == 12
      && COIN in w'.tokens && Token.BalanceOf(w'.tokens[COIN], COLLECTOR) == 14
      && Held(w', COIN) == 788 && Pledges(w', COIN) == 790 && !Covered(w', COIN)
    ensures Collected(Start(), Withdrawn(), COIN) + 2 <= Levied(Start(), Withdrawn(), COIN)
  {
    StartIsFresh();
    WithdrawnShows();
    CollectedShows();
    CollectionIsSecondPayment(Start(), Withdrawn(), BOSS, COIN, 2);
  }

  // ----- governance

  /** A stream opens, and a proposal of a fee of 100 per cent passes with a single vote. */
  function Voted(): seq<Call> {
    Opening(0) + [Admin(Control.ProposeParameter(BOSS, Control.FeeBps, 10_000))]
    + [Admin(Control.Vote(BOSS, 1, true))] + [Admin(Control.Tally(1))]
  }

  lemma VotePasses(w: World)
    requires Shows(w, 0, Opened(0), 600, 0) && w.control == Control.Initial
    ensures var w' := After(After(After(w, Admin(Control.ProposeParameter(BOSS, Control.FeeBps, 10_000))),
                                  Admin(Control.Vote(BOSS, 1, true))), Admin(Control.Tally(1)));
      && w' == w.(control := w'.control) && 1 in w'.control.proposals
      && w'.control.proposals[1] == Control.Proposal(Control.FeeBps, 10_000, 1, 0, Control.Passed, 172_800)
  {
  }

  lemma VotedShows()
    ensures var w := RunTo(Start(), Voted());
      && Shows(w, 0, Opened(0), 600, 0) && 1 in w.control.proposals
      && w.control.proposals[1] == Control.Proposal(Control.FeeBps, 10_000, 1, 0, Control.Passed, 172_800)
  {
    OpeningShows(0);
    VotePasses(RunTo(Start(), Opening(0)));
    var xs := Opening(0);
    OneMore(Start(), xs, Admin(Control.ProposeParameter(BOSS, Control.FeeBps, 10_000)));
    xs := xs + [Admin(Control.ProposeParameter(BOSS, Control.FeeBps, 10_000))];
    OneMore(Start(), xs, Admin(Control.Vote(BOSS, 1, true)));
    xs := xs + [Admin(Control.Vote(BOSS, 1, true))];
    OneMore(Start(), xs, Admin(Control.Tally(1)));
  }

  lemma ProposalExecutes(w: World)
    requires Shows(w, 172_800, Opened(0), 600, 0) && 1 in w.control.proposals
    requires w.control.proposals[1] == Control.Proposal(Control.FeeBps, 10_000, 1, 0, Control.Passed, 172_800)
    ensures var w' := After(w, Admin(Control.ExecuteProposal(1)));
      Shows(w', 172_800, Opened(0), 600, 0) && w'.control.config.feeBps == 10_000
  {
  }

  lemma FullFeeRejects(w: World)
    requires 1 in w.streams && w.streams[1] == Opened(0) && w.now == 172_800 && w.control.config.feeBps == 10_000
    ensures Exec(w, OnStream(1, Withdraw(WORKER))).None?
  {
    var effect := DecideWithdraw(EnvOf(w, 1), w.streams[1], WORKER);
    if effect.Some? {
      var ts := effect.value.transfers;
      assert ts[|ts| - 1] == Transfer(SELF, WORKER, 0);
      if PayAll(w.tokens, COIN, ts).Some? {
        PayAllMoves(w.tokens, COIN, ts, COIN);
      }
    }
  }

  /** Two days later it is executed, and the worker, owed all 600 tokens, can withdraw none of them. */
  lemma PassedFeeBlocksWithdrawal()
    ensures FreshStart()
    ensures var w := RunTo(Start(), Voted() + Ticks(172_800) + [Admin(Control.ExecuteProposal(1))]);
      && Shows(w, 172_800, Opened(0), 600, 0) && w.control.config.feeBps == 10_000
      && ClaimableAmount(w.streams[1], w.now) == Some(600)
      && Exec(w, OnStream(1, Withdraw(WORKER))).None?
  {
    StartIsFresh();
    VotedShows();
    TimePasses(Start(), Voted(), 172_800);
    ProposalExecutes(RunTo(Start(), Voted() + Ticks(172_800)));
    OneMore(Start(), Voted() + Ticks(172_800), Admin(Control.ExecuteProposal(1)));
    FullFeeRejects(RunTo(Start(), Voted() + Ticks(172_800) + [Admin(Control.ExecuteProposal(1))]));
  }
}
