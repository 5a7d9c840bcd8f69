/** Money conservation: what the contract holds of each token against what it owes to live streams. */
module Escrow {
  import opened Common
  import opened Streams
  import opened World
  import opened Steps
  import Control
  import Token
  import MapSums

  // ----- balances

  function HeldBy(tokens: map<Address, Token.Ledger>, t: Address): int {
    if t in tokens then Token.BalanceOf(tokens[t], SELF) else 0
  }

  /** The contract's own balance of token `t`. */
  function Held(w: World, t: Address): int {
    HeldBy(w.tokens, t)
  }

  function Pledged(s: Stream, t: Address): int {
    if s.token == t && !IsTerminal(s.status) then s.deposit - s.withdrawn else 0
  }

  function PledgeMap(streams: map<u64, Stream>, t: Address): map<u64, int> {
    map id | id in streams :: Pledged(streams[id], t)
  }

  /** What all active and paused streams in token `t` may still draw. */
  ghost function Pledges(w: World, t: Address): int {
    MapSums.Sum(PledgeMap(w.streams, t))
  }

  lemma PledgeUpdate(streams: map<u64, Stream>, id: u64, s: Stream, t: Address)
    ensures MapSums.Sum(PledgeMap(streams[id := s], t))
         == MapSums.Sum(PledgeMap(streams, t)) + Pledged(s, t) - (if id in streams then Pledged(streams[id], t) else 0)
  {
    MapSums.SumUpdate(PledgeMap(streams, t), id, Pledged(s, t));
    assert PledgeMap(streams[id := s], t) == PledgeMap(streams, t)[id := Pledged(s, t)];
  }

  /** What a list of transfers adds to the contract's own balance. */
  function Net(ts: seq<Transfer>): int {
    if ts == [] then 0 else
      (if ts[0].to == SELF then ts[0].amount else 0) - (if ts[0].from == SELF then ts[0].amount else 0) + Net(ts[1..])
  }

  lemma NetOfTwo(a: Transfer, b: Transfer)
    ensures Net([a]) == (if a.to == SELF then a.amount else 0) - (if a.from == SELF then a.amount else 0)
    ensures Net([a, b]) == Net([a]) + Net([b])
  {
    assert [a, b][1..] == [b];
  }

  lemma {:induction false} PayAllMoves(tokens: map<Address, Token.Ledger>, token: Address, ts: seq<Transfer>,
                                       t: Address)
    requires PayAll(tokens, token, ts).Some?
    ensures HeldBy(PayAll(tokens, token, ts).value, t) == HeldBy(tokens, t) + (if t == token then Net(ts) else 0)
    ensures forall i :: 0 <= i < |ts| ==> ts[i].amount > 0
  {
    if ts != [] {
      PayAllMoves(PayOne(tokens, token, ts[0]).value, token, ts[1..], t);
    }
  }

  // ----- how money gets stuck, leaves twice, or is pulled out

  /** Tokens that an accepted operation leaves in the contract but no longer owes to any stream. */
  function StrandedByOp(e: Env, s: Stream, op: StreamOp): int {
    match op
    case Withdraw(_) =>
      if e.feeRecipient.None? || e.feeRecipient == Some(SELF) then Owed(s, e.now) * e.feeBps / 10_000 else 0
    case UpdateRate(_, _) => Owed(s, e.now)
    case Get => if Closes(s, e.now) then s.deposit - s.withdrawn else 0
    case Cancel(_) => if s.employee == SELF then Owed(s, e.now) else 0
    case Reclaim(_) => if s.employee == SELF then Owed(s, e.now) else 0
    case _ => 0
  }

  /** A creation fee strands only when the fee recipient is the contract itself. */
  function StrandedByCreate(c: Control.State, deposit: i128): int {
    if c.config.feeBps > 0 && c.feeRecipient == Some(SELF) && deposit > 0 then deposit * c.config.feeBps / 10_000 else 0
  }

  function StrandedByList(c: Control.State, list: seq<Params>, t: Address): int {
    if list == [] then 0 else
      var n := |list| - 1;
      StrandedByList(c, list[..n], t) + (if list[n].token == t then StrandedByCreate(c, list[n].deposit) else 0)
  }

  function MovedBy(from: Address, to: Address, amount: int): int {
    (if to == SELF then amount else 0) - (if from == SELF then amount else 0)
  }

  /** What an accepted token call adds to the contract's own balance; negative when it takes tokens out. */
  function Flow(c: Token.TokenCall): int {
    match c
    case Transfer(from, to, amount) => MovedBy(from, to, amount)
    case TransferFrom(_, from, to, amount) => MovedBy(from, to, amount)
    case Mint(_, to, amount) => if to == SELF then amount else 0
    case Burn(from, amount) => if from == SELF then -(amount as int) else 0
    case BurnFrom(_, from, amount) => if from == SELF then -(amount as int) else 0
    case _ => 0
  }

  /** Sign, sender and recipient of the token calls that take tokens out of the contract: a pull of a
      negative amount into it, a pull of a positive amount out of it, or a burn of what it holds. */
  predicate Drains(c: Token.TokenCall) {
    match c
    case TransferFrom(_, from, to, amount) =>
      (from != SELF && to == SELF && amount < 0) || (from == SELF && to != SELF && amount > 0)
    case BurnFrom(_, from, _) => from == SELF
    case _ => false
  }

  /** How much of token `t` one attempted call strands. */
  function StrandedBy(w: World, c: Call, t: Address): int {
    if Exec(w, c).None? then 0 else
      match c
      case OnStream(id, op) =>
        if id in w.streams && w.streams[id].token == t then StrandedByOp(EnvOf(w, id), w.streams[id], op) else 0
      case Create(_, p, _) => if p.token == t then StrandedByCreate(w.control, p.deposit) else 0
      case CreateBatch(_, list) => StrandedByList(w.control, list, t)
      case Outside(token, call) => if token == t then Max(Flow(call), 0) else 0
      case _ => 0
  }

  /** How much of token `t` one attempted call pays out as protocol fees a second time. */
  function FeesPaidBy(w: World, c: Call, t: Address): int {
    if c.WithdrawFees? && c.token == t && Exec(w, c).Some? && w.control.feeRecipient.Or(c.admin) != SELF
    then c.amount else 0
  }

  /** How much of token `t` one attempted outside call takes out of the contract. */
  function PulledBy(w: World, c: Call, t: Address): int {
    if c.Outside? && c.token == t && Exec(w, c).Some? then Max(-Flow(c.tokenCall), 0) else 0
  }

  function Stranded(w: World, calls: seq<Call>, t: Address): int {
    if calls == [] then Held(w, t) else
      var n := |calls| - 1;
      Stranded(w, calls[..n], t) + StrandedBy(RunTo(w, calls[..n]), calls[n], t)
  }

  function FeesPaid(w: World, calls: seq<Call>, t: Address): int {
    if calls == [] then 0 else
      var n := |calls| - 1;
      FeesPaid(w, calls[..n], t) + FeesPaidBy(RunTo(w, calls[..n]), calls[n], t)
  }

  function Pulled(w: World, calls: seq<Call>, t: Address): int {
    if calls == [] then 0 else
      var n := |calls| - 1;
      Pulled(w, calls[..n], t) + PulledBy(RunTo(w, calls[..n]), calls[n], t)
  }

  // ----- outside calls

  function OpSigner(op: StreamOp): Option<Address> {
    match op
    case Withdraw(a) => Some(a)
    case TopUp(a, _) => Some(a)
    case Pause(a) => Some(a)
    case Resume(a) => Some(a)
    case Cancel(a) => Some(a)
    case UpdateRate(a, _) => Some(a)
    case Get => None
    case Reclaim(a) => Some(a)
    case TransferStream(a, _) => Some(a)
    case SetDelegate(a, _) => Some(a)
    case ProposeEmployer(a, _) => Some(a)
    case AcceptEmployer(a) => Some(a)
  }

  /** The contract's own address never signs a call. */
  predicate External(c: Call) {
    match c
    case Create(employer, _, _) => employer != SELF
    case CreateBatch(employer, _) => employer != SELF
    case OnStream(_, op) => OpSigner(op) != Some(SELF)
    case WithdrawFees(admin, _, _) => admin != SELF
    case Outside(_, call) => Token.Signer(call) != SELF
    case _ => true
  }

  lemma PullMoves(l: Token.Ledger, spender: Address, from: Address, to: Address, amount: i128)
    requires Token.PayFrom(l, spender, from, to, amount).Some?
    ensures Token.BalanceOf(Token.PayFrom(l, spender, from, to, amount).value, SELF)
         == Token.BalanceOf(l, SELF) + MovedBy(from, to, amount)
  {
  }

  /** An outside token call changes the contract's own balance by exactly its flow, whatever the ledger and
      whatever the sign of the amount, and lowers it exactly when it is one of those that drain. */
  lemma OutsideCall(l: Token.Ledger, c: Token.TokenCall)
    requires Token.Signer(c) != SELF && Token.Apply(l, c).Some?
    ensures Token.BalanceOf(Token.Apply(l, c).value, SELF) == Token.BalanceOf(l, SELF) + Flow(c)
    ensures Token.BalanceOf(Token.Apply(l, c).value, SELF) < Token.BalanceOf(l, SELF) <==> Drains(c)
  {
    match c
    case TransferFrom(spender, from, to, amount) => PullMoves(l, spender, from, to, amount);
    case _ =>
  }

  /** Nobody may pull tokens out of the contract: it never calls `approve`. */
  ghost predicate NoPullFrom(l: Token.Ledger) {
    forall spender :: Token.Allowance(l, SELF, spender) <= 0
  }

  ghost predicate NoPull(w: World) {
    forall t :: t in w.tokens ==> NoPullFrom(w.tokens[t])
  }

  /** An outside call gives someone an allowance over the contract exactly when it pulls out of the contract
      an amount below its signer's own allowance, which a negative amount can be. */
  lemma OutsideAllowances(l: Token.Ledger, c: Token.TokenCall)
    requires NoPullFrom(l) && Token.Signer(c) != SELF && Token.Apply(l, c).Some?
    ensures NoPullFrom(Token.Apply(l, c).value) <==>
      (c.TransferFrom? && c.from == SELF ==> Token.Allowance(l, SELF, c.spender) - c.amount <= 0)
  {
    var l' := Token.Apply(l, c).value;
    forall spender
      ensures Token.Allowance(l', SELF, spender) + Token.Taken(l, c, SELF, spender) == Token.Allowance(l, SELF, spender)
    {
      Token.AllowanceStep(l, c, SELF, spender);
    }
    if c.TransferFrom? && c.from == SELF {
      assert Token.Taken(l, c, SELF, c.spender) == c.amount;
      assert Token.Allowance(l', SELF, c.spender) == Token.Allowance(l, SELF, c.spender) - c.amount;
    }
  }

  // ----- one step

  /** What a payout with a given fee takes out of the contract, when both of its transfers are positive. */
  lemma PayOutNet(e: Env, s: Stream, employee: Address, gross: i128, fee: i128)
    requires employee != SELF && 0 <= fee && PayOut(e, s, employee, gross, fee).Some?
    requires var ts := PayOut(e, s, employee, gross, fee).value.transfers; ts[|ts| - 1].amount > 0
    ensures Net(PayOut(e, s, employee, gross, fee).value.transfers)
         == -gross + (if e.feeRecipient in {None, Some(SELF)} then fee else 0)
  {
    var ts := PayOut(e, s, employee, gross, fee).value.transfers;
    var pay := Transfer(SELF, employee, Max(gross - fee, 0));
    assert ts[|ts| - 1] == pay;
    NetOfTwo(pay, pay);
    if fee > 0 && e.feeRecipient.Some? {
      NetOfTwo(Transfer(SELF, e.feeRecipient.value, fee), pay);
      assert ts == [Transfer(SELF, e.feeRecipient.value, fee), pay];
    } else {
      assert ts == [pay];
    }
  }

  lemma WithdrawBalances(e: Env, s: Stream, employee: Address)
    requires StreamOk(s, e.now) && employee != SELF
    requires DecideWithdraw(e, s, employee).Some?
    requires var ts := DecideWithdraw(e, s, employee).value.transfers; forall i :: 0 <= i < |ts| ==> ts[i].amount > 0
    ensures var eff := DecideWithdraw(e, s, employee).value;
      Net(eff.transfers) == Pledged(eff.after, s.token) - Pledged(s, s.token) + StrandedByOp(e, s, Withdraw(employee))
  {
    ClaimableIsOwed(s, e.now, e.now);
    var gross := Owed(s, e.now);
    if gross > 0 {
      PayOutNet(e, s, employee, gross, Fee(gross, e.feeBps).value);
    }
  }

  lemma SettleBalances(e: Env, s: Stream, employer: Address, end: Status)
    requires StreamOk(s, e.now) && employer != SELF && !IsTerminal(s.status) && IsTerminal(end)
    requires SettleAs(e, s, employer, end).Some?
    ensures var eff := SettleAs(e, s, employer, end).value;
      Net(eff.transfers) == -Pledged(s, s.token) + (if s.employee == SELF then Owed(s, e.now) else 0)
  {
    ClaimableIsOwed(s, e.now, e.now);
    var owed := Owed(s, e.now);
    var refund := s.deposit - s.withdrawn - owed;
    var eff := SettleAs(e, s, employer, end).value;
    var pay, back := Transfer(SELF, s.employee, owed), Transfer(SELF, employer, refund);
    NetOfTwo(pay, back);
    NetOfTwo(back, back);
    if owed > 0 && refund > 0 {
      assert eff.transfers == [pay, back];
    } else if owed > 0 {
      assert eff.transfers == [pay];
    } else if refund > 0 {
      assert eff.transfers == [back];
    }
  }

  /** Whatever an operation moves is exactly the change in what the stream may still draw, plus what it strands. */
  lemma OpBalances(e: Env, s: Stream, op: StreamOp)
    requires StreamOk(s, e.now) && OpSigner(op) != Some(SELF)
    requires Decide(e, s, op).Some?
    requires var ts := Decide(e, s, op).value.transfers; forall i :: 0 <= i < |ts| ==> ts[i].amount > 0
    ensures var eff := Decide(e, s, op).value;
      Net(eff.transfers) == Pledged(eff.after, s.token) - Pledged(s, s.token) + StrandedByOp(e, s, op)
    ensures StrandedByOp(e, s, op) >= 0
  {
    DecideMeaning(e, s, op);
    ClaimableIsOwed(s, e.now, e.now);
    match op
    case Withdraw(employee) => WithdrawBalances(e, s, employee);
    case TopUp(caller, amount) =>
      NetOfTwo(Transfer(caller, SELF, amount), Transfer(caller, SELF, amount));
    case Cancel(employer) => SettleBalances(e, s, employer, Cancelled);
    case Reclaim(employer) => SettleBalances(e, s, employer, Exhausted);
    case _ =>
  }

  lemma SaveMoves(w: World, id: u64, effect: Effect, t: Address)
    requires Save(w, id, effect).Some?
    ensures var w' := Save(w, id, effect).value.world;
      && w'.streams == w.streams[id := effect.after]
      && Held(w', t) == Held(w, t) + (if effect.after.token == t then Net(effect.transfers) else 0)
    ensures forall i :: 0 <= i < |effect.transfers| ==> effect.transfers[i].amount > 0
  {
    PayAllMoves(w.tokens, effect.after.token, effect.transfers, t);
  }

  lemma OpKeepsToken(e: Env, s: Stream, op: StreamOp)
    requires StreamOk(s, e.now) && Decide(e, s, op).Some?
    ensures Decide(e, s, op).value.after.token == s.token
  {
    DecideMeaning(e, s, op);
    BecomesOk(e.now, s, op, Decide(e, s, op).value.after);
  }

  lemma OperateStep(w: World, id: u64, op: StreamOp, t: Address)
    requires WorldOk(w) && OpSigner(op) != Some(SELF) && Operate(w, id, op).Some?
    ensures var w' := Operate(w, id, op).value.world;
      && Held(w', t) - Held(w, t)
         == Pledges(w', t) - Pledges(w, t)
            + (if w.streams[id].token == t then StrandedByOp(EnvOf(w, id), w.streams[id], op) else 0)
    ensures StrandedByOp(EnvOf(w, id), w.streams[id], op) >= 0
  {
    var s, e := w.streams[id], EnvOf(w, id);
    var effect := Decide(e, s, op).value;
    SaveMoves(w, id, effect, t);
    OpBalances(e, s, op);
    OpKeepsToken(e, s, op);
    PledgeUpdate(w.streams, id, effect.after, t);
  }

  lemma FundBalances(c: Control.State, employer: Address, deposit: i128)
    requires deposit > 0 && employer != SELF && Fund(c, employer, deposit).Some?
    requires var ts := Fund(c, employer, deposit).value.transfers; forall i :: 0 <= i < |ts| ==> ts[i].amount > 0
    ensures var f := Fund(c, employer, deposit).value; Net(f.transfers) == f.net + StrandedByCreate(c, deposit)
    ensures StrandedByCreate(c, deposit) >= 0
  {
    var f := Fund(c, employer, deposit).value;
    NetOfTwo(f.transfers[0], f.transfers[|f.transfers| - 1]);
    NetOfTwo(f.transfers[|f.transfers| - 1], f.transfers[0]);
    if c.config.feeBps > 0 && c.feeRecipient.Some? {
      assert f.transfers == [f.transfers[0], f.transfers[1]];
    } else {
      assert f.transfers == [f.transfers[0]];
    }
  }

  lemma CreateFunds(w: World, employer: Address, p: Params, cooldown: u64, t: Address)
    requires employer != SELF && CreateOne(w, employer, p, cooldown).Some?
    ensures var w', f := CreateOne(w, employer, p, cooldown).value.world, Fund(w.control, employer, p.deposit).value;
      && Held(w', t) == Held(w, t) + (if p.token == t then f.net + StrandedByCreate(w.control, p.deposit) else 0)
    ensures StrandedByCreate(w.control, p.deposit) >= 0
  {
    var f := Fund(w.control, employer, p.deposit).value;
    PayAllMoves(w.tokens, p.token, f.transfers, t);
    FundBalances(w.control, employer, p.deposit);
  }

  lemma CreateStep(w: World, employer: Address, p: Params, cooldown: u64, t: Address)
    requires WorldOk(w) && employer != SELF && CreateOne(w, employer, p, cooldown).Some?
    ensures var w' := CreateOne(w, employer, p, cooldown).value.world;
      && Held(w', t) - Held(w, t)
         == Pledges(w', t) - Pledges(w, t) + (if p.token == t then StrandedByCreate(w.control, p.deposit) else 0)
    ensures StrandedByCreate(w.control, p.deposit) >= 0
  {
    CreateFunds(w, employer, p, cooldown, t);
    var id := w.streamCount + 1;
    assert id !in w.streams;
    var net := Fund(w.control, employer, p.deposit).value.net;
    PledgeUpdate(w.streams, id, NewStream(id, employer, p, net, cooldown, w.now), t);
  }

  lemma {:induction false} CreateEachStep(w: World, employer: Address, list: seq<Params>, t: Address)
    requires WorldOk(w) && employer != SELF && CreateEach(w, employer, list).Some?
    ensures var w' := CreateEach(w, employer, list).value.world;
      && Held(w', t) - Held(w, t) == Pledges(w', t) - Pledges(w, t) + StrandedByList(w.control, list, t)
    ensures StrandedByList(w.control, list, t) >= 0
  {
    if list != [] {
      var n := |list| - 1;
      CreateEachStep(w, employer, list[..n], t);
      CreateEachMeaning(w, employer, list[..n]);
      CreateStep(CreateEach(w, employer, list[..n]).value.world, employer, list[n], 0, t);
    }
  }

  lemma FeesStep(w: World, admin: Address, token: Address, amount: i128, t: Address)
    requires admin != SELF && CollectFees(w, admin, token, amount).Some?
    ensures var w' := CollectFees(w, admin, token, amount).value.world;
      && w'.streams == w.streams
      && Held(w', t) == Held(w, t) - FeesPaidBy(w, WithdrawFees(admin, token, amount), t)
    ensures FeesPaidBy(w, WithdrawFees(admin, token, amount), t) >= 0
  {
    var one := Transfer(SELF, w.control.feeRecipient.Or(admin), amount);
    assert PayAll(w.tokens, token, [one]) == PayOne(w.tokens, token, one);
    PayAllMoves(w.tokens, token, [one], t);
    NetOfTwo(one, one);
  }

  lemma OutsideStep(w: World, token: Address, call: Token.TokenCall, t: Address)
    requires Token.Signer(call) != SELF && Exec(w, Outside(token, call)).Some?
    ensures var w' := After(w, Outside(token, call));
      w'.streams == w.streams && Held(w', t) == Held(w, t) + (if token == t then Flow(call) else 0)
  {
    OutsideCall(w.tokens[token], call);
  }

  /** Every attempted call that the contract does not sign keeps the identity between escrow and pledges. */
  lemma EscrowStep(w: World, c: Call, t: Address)
    requires WorldOk(w) && External(c)
    ensures Held(After(w, c), t) - Held(w, t) + FeesPaidBy(w, c, t) + PulledBy(w, c, t)
         == Pledges(After(w, c), t) - Pledges(w, t) + StrandedBy(w, c, t)
    ensures StrandedBy(w, c, t) >= 0 && FeesPaidBy(w, c, t) >= 0
  {
    if Exec(w, c).Some? {
      match c
      case OnStream(id, op) => OperateStep(w, id, op, t);
      case Create(employer, p, cooldown) => CreateStep(w, employer, p, cooldown, t);
      case CreateBatch(employer, list) => CreateEachStep(w, employer, list, t);
      case WithdrawFees(admin, token, amount) => FeesStep(w, admin, token, amount, t);
      case Outside(token, call) => OutsideStep(w, token, call, t);
      case _ =>
    }
  }

  // ----- whole runs

  /** In every run of calls that the contract itself does not sign, beside any token ledgers, for every token:
      escrow balance plus fees collected plus what outside calls pulled out equals what live streams may still
      draw plus what is stranded, and none of the three totals ever shrinks. */
  lemma {:induction false} LedgerIdentity(w: World, calls: seq<Call>, t: Address)
    requires Genesis(w)
    requires forall i :: 0 <= i < |calls| ==> External(calls[i])
    ensures Held(RunTo(w, calls), t) + FeesPaid(w, calls, t) + Pulled(w, calls, t)
         == Pledges(RunTo(w, calls), t) + Stranded(w, calls, t)
    ensures calls != [] ==>
      && Stranded(w, calls, t) >= Stranded(w, calls[..|calls| - 1], t)
      && FeesPaid(w, calls, t) >= FeesPaid(w, calls[..|calls| - 1], t)
      && Pulled(w, calls, t) >= Pulled(w, calls[..|calls| - 1], t)
    ensures Stranded(w, calls, t) >= Held(w, t) && FeesPaid(w, calls, t) >= 0 && Pulled(w, calls, t) >= 0
  {
    if calls == [] {
      assert PledgeMap(w.streams, t) == map[];
    } else {
      var n := |calls| - 1;
      LedgerIdentity(w, calls[..n], t);
      AlwaysOk(w, calls[..n]);
      EscrowStep(RunTo(w, calls[..n]), calls[n], t);
    }
  }

  // ----- when nothing can be pulled out

  lemma {:induction false} PayAllKeepsNoPull(tokens: map<Address, Token.Ledger>, token: Address, ts: seq<Transfer>)
    requires PayAll(tokens, token, ts).Some?
    requires forall t :: t in tokens ==> NoPullFrom(tokens[t])
    ensures forall t :: t in PayAll(tokens, token, ts).value ==> NoPullFrom(PayAll(tokens, token, ts).value[t])
  {
    if ts != [] {
      var tokens1 := PayOne(tokens, token, ts[0]).value;
      assert NoPullFrom(tokens1[token]) by {
        assert tokens1[token].allowances == tokens[token].allowances;
        assert forall spender ::
          Token.Allowance(tokens1[token], SELF, spender) == Token.Allowance(tokens[token], SELF, spender);
      }
      PayAllKeepsNoPull(tokens1, token, ts[1..]);
    }
  }

  lemma CreateKeepsNoPull(w: World, employer: Address, p: Params, cooldown: u64)
    requires NoPull(w) && CreateOne(w, employer, p, cooldown).Some?
    ensures NoPull(CreateOne(w, employer, p, cooldown).value.world)
  {
    PayAllKeepsNoPull(w.tokens, p.token, Fund(w.control, employer, p.deposit).value.transfers);
  }

  lemma {:induction false} CreateEachKeepsNoPull(w: World, employer: Address, list: seq<Params>)
    requires NoPull(w) && CreateEach(w, employer, list).Some?
    ensures NoPull(CreateEach(w, employer, list).value.world)
  {
    if list != [] {
      var n := |list| - 1;
      CreateEachKeepsNoPull(w, employer, list[..n]);
      CreateKeepsNoPull(CreateEach(w, employer, list[..n]).value.world, employer, list[n], 0);
    }
  }

  lemma OperateKeepsNoPull(w: World, id: u64, op: StreamOp)
    requires NoPull(w) && Operate(w, id, op).Some?
    ensures NoPull(Operate(w, id, op).value.world)
  {
    var effect := Decide(EnvOf(w, id), w.streams[id], op).value;
    PayAllKeepsNoPull(w.tokens, effect.after.token, effect.transfers);
  }

  lemma FeesKeepNoPull(w: World, admin: Address, token: Address, amount: i128)
    requires NoPull(w) && CollectFees(w, admin, token, amount).Some?
    ensures NoPull(CollectFees(w, admin, token, amount).value.world)
  {
    var one := Transfer(SELF, w.control.feeRecipient.Or(admin), amount);
    assert PayAll(w.tokens, token, [one]) == PayOne(w.tokens, token, one);
    PayAllKeepsNoPull(w.tokens, token, [one]);
  }

  /** No pull of a negative amount into or out of the contract. */
  predicate Forward(c: Call) {
    c.Outside? && c.tokenCall.TransferFrom? && (c.tokenCall.from == SELF || c.tokenCall.to == SELF) ==>
      c.tokenCall.amount >= 0
  }

  lemma ForwardCall(l: Token.Ledger, c: Token.TokenCall)
    requires NoPullFrom(l) && Token.Signer(c) != SELF && Token.Apply(l, c).Some?
    requires c.TransferFrom? && (c.from == SELF || c.to == SELF) ==> c.amount >= 0
    ensures NoPullFrom(Token.Apply(l, c).value) && Flow(c) >= 0
  {
    OutsideAllowances(l, c);
    if c.TransferFrom? || c.BurnFrom? {
      assert Token.Allowance(l, SELF, c.spender) <= 0;
    }
  }

  /** With no allowance over the contract and no negative pull on it, a call takes nothing out of it and
      leaves nobody an allowance over it. */
  lemma NoPullStep(w: World, c: Call, t: Address)
    requires NoPull(w) && External(c) && Forward(c)
    ensures NoPull(After(w, c)) && PulledBy(w, c, t) == 0
  {
    if Exec(w, c).Some? {
      match c
      case OnStream(id, op) => OperateKeepsNoPull(w, id, op);
      case Create(employer, p, cooldown) => CreateKeepsNoPull(w, employer, p, cooldown);
      case CreateBatch(employer, list) => CreateEachKeepsNoPull(w, employer, list);
      case WithdrawFees(admin, token, amount) => FeesKeepNoPull(w, admin, token, amount);
      case Outside(token, call) => ForwardCall(w.tokens[token], call);
      case _ =>
    }
  }

  /** Beside tokens that give nobody an allowance over the contract, only pulls of negative amounts on it can
      take anything out of it or open such an allowance. */
  lemma {:induction false} NothingPulled(w: World, calls: seq<Call>, t: Address)
    requires NoPull(w)
    requires forall i :: 0 <= i < |calls| ==> External(calls[i]) && Forward(calls[i])
    ensures NoPull(RunTo(w, calls)) && Pulled(w, calls, t) == 0
  {
    if calls != [] {
      var n := |calls| - 1;
      NothingPulled(w, calls[..n], t);
      NoPullStep(RunTo(w, calls[..n]), calls[n], t);
    }
  }
}
