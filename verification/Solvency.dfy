/** Consequences of the ledger identity: when the escrow covers its streams, and that payouts then
    never fail for lack of money. */
module Solvency {
  import opened Common
  import opened Streams
  import opened World
  import opened Steps
  import opened Escrow
  import Control
  import Token
  import MapSums

  /** The escrow holds everything live streams may still draw in token `t`. */
  ghost predicate Covered(w: World, t: Address) {
    Held(w, t) >= Pledges(w, t)
  }

  /** After any run the escrow covers its live streams exactly when no more has left as collected fees and
      outside pulls than is stranded. */
  lemma CoveredIff(w: World, calls: seq<Call>, t: Address)
    requires Genesis(w)
    requires forall i :: 0 <= i < |calls| ==> External(calls[i])
    ensures Covered(RunTo(w, calls), t) <==>
      FeesPaid(w, calls, t) + Pulled(w, calls, t) <= Stranded(w, calls, t)
  {
    LedgerIdentity(w, calls, t);
  }

  lemma {:induction false} NoFeesPaid(w: World, calls: seq<Call>, t: Address)
    requires forall i :: 0 <= i < |calls| ==> !calls[i].WithdrawFees?
    ensures FeesPaid(w, calls, t) == 0
  {
    if calls != [] {
      NoFeesPaid(w, calls[..|calls| - 1], t);
    }
  }

  /** A run that collects no booked fees and pulls no negative amount on the contract always covers them. */
  lemma CoveredAlways(w: World, calls: seq<Call>, t: Address)
    requires Genesis(w) && NoPull(w) && Held(w, t) >= 0
    requires forall i :: 0 <= i < |calls| ==> External(calls[i]) && !calls[i].WithdrawFees? && Forward(calls[i])
    ensures Covered(RunTo(w, calls), t)
    ensures FeesPaid(w, calls, t) + Pulled(w, calls, t) <= Stranded(w, calls, t)
  {
    LedgerIdentity(w, calls, t);
    NoFeesPaid(w, calls, t);
    NothingPulled(w, calls, t);
  }

  /** How many tokens a draining call takes out. */
  function Drained(c: Token.TokenCall): int {
    Max(-Flow(c), 0)
  }

  /** One accepted outside call on a covered escrow leaves it covered exactly when it is not one of the
      draining kinds, told by sign, sender and recipient, or takes no more than the surplus. */
  lemma OutsideKeepsCoveredIff(w: World, t: Address, c: Token.TokenCall)
    requires Token.Signer(c) != SELF && Exec(w, Outside(t, c)).Some? && Covered(w, t)
    ensures Covered(After(w, Outside(t, c)), t) <==> (Drains(c) ==> Drained(c) <= Held(w, t) - Pledges(w, t))
    ensures Drains(c) ==>
      && Held(After(w, Outside(t, c)), t) == Held(w, t) - Drained(c)
      && Drained(c) == Max(c.amount, -(c.amount as int))
  {
    OutsideCall(w.tokens[t], c);
  }

  lemma CoversEach(w: World, id: u64)
    requires WorldOk(w) && id in w.streams
    ensures 0 <= Pledged(w.streams[id], w.streams[id].token) <= Pledges(w, w.streams[id].token)
  {
    var m := PledgeMap(w.streams, w.streams[id].token);
    assert forall k :: k in m ==> m[k] >= 0;
    MapSums.SumRemove(m, id);
    MapSums.SumBoundsEntries(m - {id});
  }

  // ----- token ledgers beside the contract stay sound

  ghost predicate TokensSound(tokens: map<Address, Token.Ledger>) {
    forall t :: t in tokens ==> Token.Sound(tokens[t])
  }

  ghost predicate TokensReady(w: World) {
    && TokensSound(w.tokens)
    && (forall id :: id in w.streams ==> w.streams[id].token in w.tokens)
  }

  /** Accepted outside token calls that keep their token's books in order. */
  predicate Orderly(w: World, c: Call) {
    c.Outside? && Exec(w, c).Some? ==> Token.Orderly(w.tokens[c.token], c.tokenCall)
  }

  lemma {:induction false} PayAllKeepsSound(tokens: map<Address, Token.Ledger>, token: Address, ts: seq<Transfer>)
    requires PayAll(tokens, token, ts).Some? && TokensSound(tokens)
    ensures TokensSound(PayAll(tokens, token, ts).value) && PayAll(tokens, token, ts).value.Keys == tokens.Keys
  {
    if ts != [] {
      Token.SoundStep(tokens[token], Token.Transfer(ts[0].from, ts[0].to, ts[0].amount));
      PayAllKeepsSound(PayOne(tokens, token, ts[0]).value, token, ts[1..]);
    }
  }

  lemma CreateKeepsReady(w: World, employer: Address, p: Params, cooldown: u64)
    requires TokensReady(w) && CreateOne(w, employer, p, cooldown).Some?
    ensures TokensReady(CreateOne(w, employer, p, cooldown).value.world)
  {
    PayAllKeepsSound(w.tokens, p.token, Fund(w.control, employer, p.deposit).value.transfers);
  }

  lemma {:induction false} CreateEachKeepsReady(w: World, employer: Address, list: seq<Params>)
    requires TokensReady(w) && CreateEach(w, employer, list).Some?
    ensures TokensReady(CreateEach(w, employer, list).value.world)
  {
    if list != [] {
      var n := |list| - 1;
      CreateEachKeepsReady(w, employer, list[..n]);
      CreateKeepsReady(CreateEach(w, employer, list[..n]).value.world, employer, list[n], 0);
    }
  }

  lemma OperateKeepsReady(w: World, id: u64, op: StreamOp)
    requires WorldOk(w) && TokensReady(w) && Operate(w, id, op).Some?
    ensures TokensReady(Operate(w, id, op).value.world)
  {
    var effect := Decide(EnvOf(w, id), w.streams[id], op).value;
    OpKeepsToken(EnvOf(w, id), w.streams[id], op);
    PayAllKeepsSound(w.tokens, effect.after.token, effect.transfers);
  }

  lemma CollectKeepsReady(w: World, admin: Address, token: Address, amount: i128)
    requires TokensReady(w) && CollectFees(w, admin, token, amount).Some?
    ensures TokensReady(CollectFees(w, admin, token, amount).value.world)
  {
    Token.SoundStep(w.tokens[token], Token.Transfer(SELF, w.control.feeRecipient.Or(admin), amount));
  }

  lemma OutsideKeepsReadyIff(w: World, token: Address, call: Token.TokenCall)
    requires TokensReady(w) && Exec(w, Outside(token, call)).Some?
    ensures TokensReady(After(w, Outside(token, call))) <==> Token.Orderly(w.tokens[token], call)
  {
    Token.SoundStep(w.tokens[token], call);
    assert After(w, Outside(token, call)).tokens[token] == Token.After(w.tokens[token], call);
  }

  /** An attempted call keeps the token ledgers sound, and every stream's token known, exactly when it is
      orderly; the contract's own calls always are. */
  lemma ReadyStep(w: World, c: Call)
    requires WorldOk(w) && TokensReady(w)
    ensures TokensReady(After(w, c)) <==> Orderly(w, c)
  {
    if Exec(w, c).Some? {
      match c
      case OnStream(id, op) => OperateKeepsReady(w, id, op);
      case Create(employer, p, cooldown) => CreateKeepsReady(w, employer, p, cooldown);
      case CreateBatch(employer, list) => CreateEachKeepsReady(w, employer, list);
      case WithdrawFees(admin, token, amount) => CollectKeepsReady(w, admin, token, amount);
      case Outside(token, call) => OutsideKeepsReadyIff(w, token, call);
      case _ =>
    }
  }

  // ----- deposits a sound token can fund

  lemma {:induction false} PaidWithinSupply(tokens: map<Address, Token.Ledger>, token: Address, ts: seq<Transfer>)
    requires PayAll(tokens, token, ts).Some? && TokensSound(tokens)
    ensures forall i :: 0 <= i < |ts| ==> ts[i].amount <= Token.MAX_SUPPLY
  {
    if ts != [] {
      MapSums.SumBoundsEntries(tokens[token].balances);
      Token.SoundStep(tokens[token], Token.Transfer(ts[0].from, ts[0].to, ts[0].amount));
      PaidWithinSupply(PayOne(tokens, token, ts[0]).value, token, ts[1..]);
    }
  }

  lemma QuotientBound(a: int, b: int)
    requires 0 <= a && 1 <= b
    ensures 0 <= a / b <= a
  {
    assert (a / b) * b <= a;
  }

  /** Beside sound tokens the ten-year cap does mean what it says: a deposit whose quotient overflows the 64-bit
      cast can never be paid in, so every accepted creation streams for ten years at most. */
  lemma AcceptedDurationIsCapped(w: World, employer: Address, p: Params, cooldown: u64)
    requires TokensSound(w.tokens) && CreateOne(w, employer, p, cooldown).Some?
    ensures p.deposit <= 2 * Token.MAX_SUPPLY
    ensures p.deposit / p.rate <= MAX_STREAM_DURATION
  {
    var ts := Fund(w.control, employer, p.deposit).value.transfers;
    PaidWithinSupply(w.tokens, p.token, ts);
    assert ts[0].amount <= Token.MAX_SUPPLY && ts[|ts| - 1].amount <= Token.MAX_SUPPLY;
    QuotientBound(p.deposit, p.rate);
    DurationCapTruncates(p.deposit, p.rate);
  }

  // ----- when a creation is accepted

  /** The fee on a deposit, where one is due: it must not round to zero, and must leave something. */
  predicate FeeFits(c: Control.State, deposit: i128) {
    c.config.feeBps > 0 && c.feeRecipient.Some? ==> deposit * c.config.feeBps >= 10_000 && c.config.feeBps < 10_000
  }

  /** The fee leaves something for the employee exactly when it is below 100 per cent. */
  lemma FeeLeavesSomething(gross: i128, feeBps: u32)
    requires gross > 0 && Fee(gross, feeBps).Some?
    ensures 0 <= Fee(gross, feeBps).value
    ensures Fee(gross, feeBps).value < gross <==> feeBps < 10_000
  {
    var product := gross * feeBps;
    if feeBps < 10_000 {
      ProductBounds(gross, feeBps, gross, 9_999);
    } else {
      ProductBounds(gross, 10_000, gross, feeBps);
    }
  }

  lemma FeeFitsMeans(deposit: i128, feeBps: u32)
    requires 0 < deposit <= Token.MAX_SUPPLY && feeBps > 0
    ensures Fee(deposit, feeBps).Some?
    ensures 0 < Fee(deposit, feeBps).value < deposit <==> deposit * feeBps >= 10_000 && feeBps < 10_000
  {
    ProductBounds(deposit, feeBps, Token.MAX_SUPPLY, U32_MAX);
    FeeLeavesSomething(deposit, feeBps);
  }

  /** One transfer beside sound tokens goes through exactly when it is positive and affordable. */
  lemma PayOneIff(tokens: map<Address, Token.Ledger>, t: Address, a: Transfer)
    requires TokensSound(tokens) && t in tokens
    ensures PayOne(tokens, t, a).Some? <==> 0 < a.amount <= Token.BalanceOf(tokens[t], a.from)
    ensures PayOne(tokens, t, a).Some? ==>
      && TokensSound(PayOne(tokens, t, a).value) && t in PayOne(tokens, t, a).value
      && (a.from != a.to ==>
            Token.BalanceOf(PayOne(tokens, t, a).value[t], a.from) == Token.BalanceOf(tokens[t], a.from) - a.amount)
  {
    MapSums.SumBoundsEntries(tokens[t].balances);
    if PayOne(tokens, t, a).Some? {
      Token.SoundStep(tokens[t], Token.Transfer(a.from, a.to, a.amount));
    }
  }

  lemma FeeIsPaidIff(w: World, employer: Address, token: Address, deposit: i128)
    requires TokensSound(w.tokens) && token in w.tokens && employer != SELF && deposit > 0
    requires w.control.config.feeBps > 0 && w.control.feeRecipient.Some?
    ensures
      (var funding := Fund(w.control, employer, deposit);
       funding.Some? && PayAll(w.tokens, token, funding.value.transfers).Some?)
      <==> Token.BalanceOf(w.tokens[token], employer) >= deposit && FeeFits(w.control, deposit)
  {
    var c := w.control;
    MapSums.SumBoundsEntries(w.tokens[token].balances);
    var funding := Fund(c, employer, deposit);
    if funding.Some? {
      var fee := Fee(deposit, c.config.feeBps).value;
      var pay, levy := Transfer(employer, SELF, deposit - fee), Transfer(employer, c.feeRecipient.value, fee);
      assert funding.value.transfers == [pay, levy] && [pay, levy][1..] == [levy];
      PayOneIff(w.tokens, token, pay);
      if PayOne(w.tokens, token, pay).Some? {
        var tokens := PayOne(w.tokens, token, pay).value;
        PayOneIff(tokens, token, levy);
        assert PayAll(tokens, token, [levy]) == PayOne(tokens, token, levy);
      }
    }
    if deposit <= Token.MAX_SUPPLY {
      FeeFitsMeans(deposit, c.config.feeBps);
    }
  }

  lemma FundingIsPaidIff(w: World, employer: Address, token: Address, deposit: i128)
    requires TokensSound(w.tokens) && token in w.tokens && employer != SELF && deposit > 0
    ensures
      (var funding := Fund(w.control, employer, deposit);
       funding.Some? && PayAll(w.tokens, token, funding.value.transfers).Some?)
      <==> Token.BalanceOf(w.tokens[token], employer) >= deposit && FeeFits(w.control, deposit)
  {
    var c := w.control;
    MapSums.SumBoundsEntries(w.tokens[token].balances);
    if c.config.feeBps > 0 && c.feeRecipient.Some? {
      FeeIsPaidIff(w, employer, token, deposit);
    } else {
      var pay := Transfer(employer, SELF, deposit);
      PayOneIff(w.tokens, token, pay);
      assert PayAll(w.tokens, token, [pay]) == PayOne(w.tokens, token, pay);
    }
  }

  /** Beside sound tokens, a creation is accepted exactly when the checks on its terms pass, the employer holds
      the deposit, the fee neither rounds to zero nor reaches 100 per cent, and an id is left. */
  lemma CreateAcceptedIff(w: World, employer: Address, p: Params, cooldown: u64)
    requires TokensSound(w.tokens) && employer != SELF
    ensures CreateOne(w, employer, p, cooldown).Some? <==>
      && Admits(w, employer, p)
      && Token.BalanceOf(w.tokens[p.token], employer) >= p.deposit
      && FeeFits(w.control, p.deposit)
      && w.streamCount < U64_MAX
  {
    if Admits(w, employer, p) {
      FundingIsPaidIff(w, employer, p.token, p.deposit);
    }
  }

  // ----- payouts cannot be refused

  function Total(ts: seq<Transfer>): int {
    if ts == [] then 0 else ts[0].amount + Total(ts[1..])
  }

  lemma {:induction false} TotalNonNegative(ts: seq<Transfer>)
    requires forall i :: 0 <= i < |ts| ==> ts[i].amount > 0
    ensures Total(ts) >= 0
  {
    if ts != [] {
      TotalNonNegative(ts[1..]);
    }
  }

  /** Positive payouts from the contract that fit into its balance all go through. */
  lemma {:induction false} PayoutsSucceed(tokens: map<Address, Token.Ledger>, token: Address, ts: seq<Transfer>)
    requires TokensSound(tokens) && token in tokens
    requires forall i :: 0 <= i < |ts| ==> ts[i].from == SELF && ts[i].amount > 0
    requires Total(ts) <= HeldBy(tokens, token)
    ensures PayAll(tokens, token, ts).Some?
  {
    if ts != [] {
      TotalNonNegative(ts[1..]);
      MapSums.SumBoundsEntries(tokens[token].balances);
      var t := ts[0];
      assert Token.BalanceOf(tokens[token], t.to) <= Token.MAX_SUPPLY;
      var tokens1 := PayOne(tokens, token, t).value;
      Token.SoundStep(tokens[token], Token.Transfer(t.from, t.to, t.amount));
      PayoutsSucceed(tokens1, token, ts[1..]);
    }
  }

  lemma TotalOfTwo(a: Transfer, b: Transfer)
    ensures Total([a]) == a.amount && Total([a, b]) == a.amount + b.amount
  {
    assert [a, b][1..] == [b];
    assert Total([b]) == b.amount;
  }

  /** A settlement pays out of the contract exactly what the stream may still draw. */
  lemma SettleTransfers(e: Env, s: Stream, end: Status)
    requires StreamOk(s, e.now) && !IsTerminal(s.status)
    ensures SettleAs(e, s, s.employer, end).Some?
    ensures var ts := SettleAs(e, s, s.employer, end).value.transfers;
      && (forall i :: 0 <= i < |ts| ==> ts[i].from == SELF && ts[i].amount > 0)
      && Total(ts) == s.deposit - s.withdrawn
  {
    ClaimableIsOwed(s, e.now, e.now);
    var ts := SettleAs(e, s, s.employer, end).value.transfers;
    var owed, refund := Owed(s, e.now), s.deposit - s.withdrawn - Owed(s, e.now);
    var pay, back := Transfer(SELF, s.employee, owed), Transfer(SELF, s.employer, refund);
    TotalOfTwo(pay, back);
    TotalOfTwo(back, back);
    if owed > 0 && refund > 0 {
      assert ts == [pay, back];
    } else if owed > 0 {
      assert ts == [pay];
    } else if refund > 0 {
      assert ts == [back];
    }
  }

  /** Every live stream can be settled: its employer's cancellation is accepted. */
  lemma CancelAccepted(w: World, id: u64)
    requires WorldOk(w) && TokensReady(w) && id in w.streams && !IsTerminal(w.streams[id].status)
    requires Covered(w, w.streams[id].token)
    ensures Operate(w, id, Cancel(w.streams[id].employer)).Some?
  {
    var s := w.streams[id];
    CoversEach(w, id);
    SettleTransfers(EnvOf(w, id), s, Cancelled);
    PayoutsSucceed(w.tokens, s.token, SettleAs(EnvOf(w, id), s, s.employer, Cancelled).value.transfers);
  }

  /** Caller, pause switch, status and cooldown allow a withdrawal. */
  predicate Entitled(w: World, id: u64, employee: Address) {
    && id in w.streams
    && !w.control.config.paused
    && employee == w.streams[id].employee
    && w.streams[id].status in {Active, Exhausted}
    && CooledDown(w.streams[id], w.now)
  }

  /** The conditions a withdrawal needs, with no mention of money. */
  predicate MayWithdraw(w: World, id: u64, employee: Address) {
    Entitled(w, id, employee) && (Owed(w.streams[id], w.now) == 0 || w.control.config.feeBps < 10_000)
  }

  lemma DecidesToPay(e: Env, s: Stream, employee: Address)
    requires StreamOk(s, e.now)
    ensures DecideWithdraw(e, s, employee).Some? <==>
      !e.paused && employee == s.employee && s.status in {Active, Exhausted} && CooledDown(s, e.now)
  {
    ClaimableIsOwed(s, e.now, e.now);
  }

  /** The transfers of a paying withdrawal: out of the contract, within what is owed, and all positive
      exactly when the fee is below 100 per cent. */
  lemma WithdrawTransfers(e: Env, s: Stream, employee: Address)
    requires StreamOk(s, e.now) && DecideWithdraw(e, s, employee).Some? && Owed(s, e.now) > 0
    ensures var ts := DecideWithdraw(e, s, employee).value.transfers;
      && (forall i :: 0 <= i < |ts| ==> ts[i].from == SELF)
      && (e.feeBps < 10_000 ==> Total(ts) <= Owed(s, e.now))
      && ((forall i :: 0 <= i < |ts| ==> ts[i].amount > 0) <==> e.feeBps < 10_000)
  {
    ClaimableIsOwed(s, e.now, e.now);
    var gross := Owed(s, e.now);
    FeeLeavesSomething(gross, e.feeBps);
    var ts := DecideWithdraw(e, s, employee).value.transfers;
    var fee := Fee(gross, e.feeBps).value;
    var pay := Transfer(SELF, employee, Max(gross - fee, 0));
    if fee > 0 && e.feeRecipient.Some? {
      var levy := Transfer(SELF, e.feeRecipient.value, fee);
      TotalOfTwo(levy, pay);
      assert ts == [levy, pay];
    } else {
      TotalOfTwo(pay, pay);
      assert ts == [pay];
    }
    assert ts[|ts| - 1] == pay;
  }

  /** A withdrawal that is decided is accepted exactly when its transfers go through. */
  lemma WithdrawIsSaved(w: World, id: u64, employee: Address)
    requires id in w.streams && DecideWithdraw(EnvOf(w, id), w.streams[id], employee).Some?
    ensures Operate(w, id, Withdraw(employee)).Some? <==>
      PayAll(w.tokens, w.streams[id].token, DecideWithdraw(EnvOf(w, id), w.streams[id], employee).value.transfers).Some?
  {
    assert DecideWithdraw(EnvOf(w, id), w.streams[id], employee).value.after.token == w.streams[id].token;
  }

  lemma WithdrawIsPaidIff(w: World, id: u64, employee: Address)
    requires WorldOk(w) && TokensReady(w) && id in w.streams
    requires Covered(w, w.streams[id].token)
    requires DecideWithdraw(EnvOf(w, id), w.streams[id], employee).Some?
    ensures var s, e := w.streams[id], EnvOf(w, id);
      PayAll(w.tokens, s.token, DecideWithdraw(e, s, employee).value.transfers).Some? <==>
        (Owed(s, w.now) == 0 || e.feeBps < 10_000)
  {
    var s, e := w.streams[id], EnvOf(w, id);
    CoversEach(w, id);
    ClaimableIsOwed(s, w.now, w.now);
    var ts := DecideWithdraw(e, s, employee).value.transfers;
    if Owed(s, w.now) > 0 {
      WithdrawTransfers(e, s, employee);
      if e.feeBps < 10_000 {
        PayoutsSucceed(w.tokens, s.token, ts);
      } else if PayAll(w.tokens, s.token, ts).Some? {
        PayAllMoves(w.tokens, s.token, ts, s.token);
      }
    }
  }

  /** In a covered state a withdrawal is accepted exactly when `MayWithdraw` says so: it never fails for
      lack of funds or by overflow, and fees of 100 per cent or more block every paying withdrawal. */
  lemma WithdrawAcceptedIff(w: World, id: u64, employee: Address)
    requires WorldOk(w) && TokensReady(w)
    requires id in w.streams ==> Covered(w, w.streams[id].token)
    ensures Operate(w, id, Withdraw(employee)).Some? <==> MayWithdraw(w, id, employee)
  {
    if id in w.streams {
      var s, e := w.streams[id], EnvOf(w, id);
      DecidesToPay(e, s, employee);
      if DecideWithdraw(e, s, employee).Some? {
        WithdrawIsSaved(w, id, employee);
        WithdrawIsPaidIff(w, id, employee);
      }
    }
  }

  /** A deployed contract beside sound tokens, and a run whose outside calls keep those tokens sound. */
  ghost predicate SoundRun(w: World, calls: seq<Call>) {
    && Genesis(w) && TokensSound(w.tokens)
    && (forall i :: 0 <= i < |calls| ==> External(calls[i]) && Orderly(RunTo(w, calls[..i]), calls[i]))
  }

  lemma SoundRunPrefix(w: World, calls: seq<Call>, n: nat)
    requires SoundRun(w, calls) && n <= |calls|
    ensures SoundRun(w, calls[..n])
  {
    forall i | 0 <= i < n
      ensures External(calls[..n][i]) && Orderly(RunTo(w, calls[..n][..i]), calls[..n][i])
    {
      assert calls[..n][..i] == calls[..i];
    }
  }

  lemma {:induction false} ReadyAlways(w: World, calls: seq<Call>)
    requires SoundRun(w, calls)
    ensures TokensReady(RunTo(w, calls))
  {
    if calls != [] {
      var n := |calls| - 1;
      SoundRunPrefix(w, calls, n);
      ReadyAlways(w, calls[..n]);
      AlwaysOk(w, calls[..n]);
      ReadyStep(RunTo(w, calls[..n]), calls[n]);
    }
  }

  /** No payout on stream `id` is refused for lack of money: its employer can cancel it while it is live, and a
      withdrawal is accepted exactly under the conditions of `MayWithdraw`. */
  ghost predicate Payable(w: World, id: u64, employee: Address) {
    && (id in w.streams && !IsTerminal(w.streams[id].status) ==>
          Exec(w, OnStream(id, Cancel(w.streams[id].employer))).Some?)
    && (Exec(w, OnStream(id, Withdraw(employee))).Some? <==> MayWithdraw(w, id, employee))
  }

  /** After any sound run, fee collections and pulls included, a stream is payable whenever no more of its
      token has been collected and pulled out than is stranded, that is, whenever the escrow covers it. */
  lemma PayoutsAvailable(w: World, calls: seq<Call>, id: u64, employee: Address)
    requires SoundRun(w, calls)
    requires id in RunTo(w, calls).streams ==>
      var t := RunTo(w, calls).streams[id].token;
      FeesPaid(w, calls, t) + Pulled(w, calls, t) <= Stranded(w, calls, t)
    ensures Payable(RunTo(w, calls), id, employee)
  {
    var w' := RunTo(w, calls);
    AlwaysOk(w, calls);
    ReadyAlways(w, calls);
    if id in w'.streams {
      CoveredIff(w, calls, w'.streams[id].token);
      if !IsTerminal(w'.streams[id].status) {
        CancelAccepted(w', id);
      }
    }
    WithdrawAcceptedIff(w', id, employee);
  }

  /** In particular always, when no booked fee is collected and no negative amount is pulled on the contract. */
  lemma PayoutsAlwaysAvailable(w: World, calls: seq<Call>, id: u64, employee: Address)
    requires SoundRun(w, calls) && NoPull(w)
    requires forall i :: 0 <= i < |calls| ==> !calls[i].WithdrawFees? && Forward(calls[i])
    ensures Payable(RunTo(w, calls), id, employee)
  {
    if id in RunTo(w, calls).streams {
      var t := RunTo(w, calls).streams[id].token;
      assert Held(w, t) >= 0;
      CoveredAlways(w, calls, t);
    }
    PayoutsAvailable(w, calls, id, employee);
  }
}
