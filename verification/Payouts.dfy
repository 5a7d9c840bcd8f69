/** Who is paid: the token balance of every account, in every token, before and after each entry point. */
module Payouts {
  import opened Common
  import opened Streams
  import opened World
  import opened Steps
  import opened Solvency
  import Control
  import Token

  type Tokens = map<Address, Token.Ledger>

  /** The balance of `x` in token `t`; 0 where there is no such token. */
  function BalanceAt(tokens: Tokens, t: Address, x: Address): int {
    if t in tokens then Token.BalanceOf(tokens[t], x) else 0
  }

  // ----- lists of transfers

  /** What one transfer adds to the balance of `x`. */
  function CreditOf(a: Transfer, x: Address): int {
    (if a.to == x then a.amount else 0) - (if a.from == x then a.amount else 0)
  }

  function Credit(ts: seq<Transfer>, x: Address): int {
    if ts == [] then 0 else CreditOf(ts[0], x) + Credit(ts[1..], x)
  }

  lemma CreditOfTwo(a: Transfer, b: Transfer, x: Address)
    ensures Credit([], x) == 0 && Credit([a], x) == CreditOf(a, x)
    ensures Credit([a, b], x) == CreditOf(a, x) + CreditOf(b, x)
  {
    assert [a, b][1..] == [b];
    assert Credit([b], x) == CreditOf(b, x);
  }

  lemma PayOneAdds(tokens: Tokens, token: Address, a: Transfer, t: Address, x: Address)
    requires PayOne(tokens, token, a).Some?
    ensures a.amount > 0
    ensures BalanceAt(PayOne(tokens, token, a).value, t, x)
         == BalanceAt(tokens, t, x) + (if t == token then CreditOf(a, x) else 0)
  {
  }

  lemma {:induction false} PayAllAdds(tokens: Tokens, token: Address, ts: seq<Transfer>, t: Address, x: Address)
    requires PayAll(tokens, token, ts).Some?
    ensures forall i :: 0 <= i < |ts| ==> ts[i].amount > 0
    ensures BalanceAt(PayAll(tokens, token, ts).value, t, x)
         == BalanceAt(tokens, t, x) + (if t == token then Credit(ts, x) else 0)
  {
    if ts != [] {
      PayOneAdds(tokens, token, ts[0], t, x);
      PayAllAdds(PayOne(tokens, token, ts[0]).value, token, ts[1..], t, x);
    }
  }

  // ----- operations on a stream

  /** The protocol fee on `gross`, as it reaches a recipient. */
  function FeeSent(e: Env, gross: int): int {
    if e.feeRecipient.Some? then gross * e.feeBps / 10_000 else 0
  }

  function Settlement(e: Env, s: Stream, x: Address): int {
    (if x == s.employee then Owed(s, e.now) else 0)
    + (if x == s.employer then s.deposit - s.withdrawn - Owed(s, e.now) else 0)
    - (if x == SELF then s.deposit - s.withdrawn else 0)
  }

  /** What an accepted operation adds to the balance of `x` in the stream's token. A withdrawal pays its caller
      what is owed less the fee, and the fee to its recipient if there is one; a top-up takes from its caller; a
      cancellation or reclaim pays the employee what is owed and the employer the rest of the deposit; nothing
      else moves any money. */
  function Share(e: Env, s: Stream, op: StreamOp, x: Address): int {
    match op
    case Withdraw(employee) =>
      var gross := Owed(s, e.now);
      var net := gross - gross * e.feeBps / 10_000;
      (if x == employee then net else 0) + (if e.feeRecipient == Some(x) then FeeSent(e, gross) else 0)
      - (if x == SELF then net + FeeSent(e, gross) else 0)
    case TopUp(caller, amount) => (if x == SELF then amount else 0) - (if x == caller then amount else 0)
    case Cancel(_) => Settlement(e, s, x)
    case Reclaim(_) => Settlement(e, s, x)
    case _ => 0
  }

  /** The transfers of a payout with a given fee, one account at a time. */
  lemma PayOutCredits(e: Env, s: Stream, employee: Address, gross: i128, fee: i128, x: Address)
    requires 0 <= fee && PayOut(e, s, employee, gross, fee).Some?
    requires var ts := PayOut(e, s, employee, gross, fee).value.transfers; ts[|ts| - 1].amount > 0
    ensures var sent := if e.feeRecipient.Some? then fee else 0;
      Credit(PayOut(e, s, employee, gross, fee).value.transfers, x) ==
        (if x == employee then gross - fee else 0) + (if e.feeRecipient == Some(x) then fee else 0)
        - (if x == SELF then gross - fee + sent else 0)
  {
    var ts := PayOut(e, s, employee, gross, fee).value.transfers;
    var pay := Transfer(SELF, employee, Max(gross - fee, 0));
    assert ts[|ts| - 1].amount == pay.amount;
    if fee > 0 && e.feeRecipient.Some? {
      var levy := Transfer(SELF, e.feeRecipient.value, fee);
      CreditOfTwo(levy, pay, x);
      assert [levy] + [pay] == [levy, pay];
    } else {
      CreditOfTwo(pay, pay, x);
      assert [] + [pay] == [pay];
    }
  }

  lemma WithdrawPaysOut(e: Env, s: Stream, employee: Address)
    requires StreamOk(s, e.now) && DecideWithdraw(e, s, employee).Some?
    ensures Owed(s, e.now) >= 0
    ensures Owed(s, e.now) == 0 ==> DecideWithdraw(e, s, employee).value.transfers == []
    ensures var gross := Owed(s, e.now);
      gross > 0 ==>
        && Fee(gross, e.feeBps) == Some(gross * e.feeBps / 10_000)
        && DecideWithdraw(e, s, employee) == PayOut(e, s, employee, gross, Fee(gross, e.feeBps).value)
  {
    ClaimableIsOwed(s, e.now, e.now);
  }

  lemma WithdrawCredits(e: Env, s: Stream, employee: Address, x: Address)
    requires StreamOk(s, e.now) && DecideWithdraw(e, s, employee).Some?
    requires var ts := DecideWithdraw(e, s, employee).value.transfers; forall i :: 0 <= i < |ts| ==> ts[i].amount > 0
    ensures Credit(DecideWithdraw(e, s, employee).value.transfers, x) == Share(e, s, Withdraw(employee), x)
  {
    WithdrawPaysOut(e, s, employee);
    var gross := Owed(s, e.now);
    if gross > 0 {
      PayOutCredits(e, s, employee, gross, Fee(gross, e.feeBps).value, x);
    }
  }

  lemma SettleCredits(e: Env, s: Stream, end: Status, x: Address)
    requires StreamOk(s, e.now) && !IsTerminal(s.status)
    requires SettleAs(e, s, s.employer, end).Some?
    ensures Credit(SettleAs(e, s, s.employer, end).value.transfers, x) == Settlement(e, s, x)
  {
    ClaimableIsOwed(s, e.now, e.now);
    var owed := Owed(s, e.now);
    var refund := s.deposit - s.withdrawn - owed;
    var ts := SettleAs(e, s, s.employer, end).value.transfers;
    var pay, back := Transfer(SELF, s.employee, owed), Transfer(SELF, s.employer, refund);
    CreditOfTwo(pay, back, x);
    CreditOfTwo(back, pay, x);
    if owed > 0 && refund > 0 {
      assert ts == [pay, back];
    } else if owed > 0 {
      assert ts == [pay];
    } else if refund > 0 {
      assert ts == [back];
    }
  }

  lemma DecisionCredits(e: Env, s: Stream, op: StreamOp, x: Address)
    requires StreamOk(s, e.now) && Decide(e, s, op).Some?
    requires var ts := Decide(e, s, op).value.transfers; forall i :: 0 <= i < |ts| ==> ts[i].amount > 0
    ensures Credit(Decide(e, s, op).value.transfers, x) == Share(e, s, op, x)
    ensures Decide(e, s, op).value.after.token == s.token
  {
    DecideMeaning(e, s, op);
    BecomesOk(e.now, s, op, Decide(e, s, op).value.after);
    match op
    case Withdraw(employee) => WithdrawCredits(e, s, employee, x);
    case TopUp(caller, amount) =>
      CreditOfTwo(Transfer(caller, SELF, amount), Transfer(caller, SELF, amount), x);
    case Cancel(employer) => SettleCredits(e, s, Cancelled, x);
    case Reclaim(employer) => SettleCredits(e, s, Exhausted, x);
    case _ =>
  }

  /** An accepted operation moves, for every account and every token, exactly its share. */
  lemma OperationPays(w: World, id: u64, op: StreamOp, t: Address, x: Address)
    requires WorldOk(w) && Operate(w, id, op).Some?
    ensures BalanceAt(Operate(w, id, op).value.world.tokens, t, x)
         == BalanceAt(w.tokens, t, x)
            + (if t == w.streams[id].token then Share(EnvOf(w, id), w.streams[id], op, x) else 0)
  {
    var s, e := w.streams[id], EnvOf(w, id);
    var effect := Decide(e, s, op).value;
    PayAllAdds(w.tokens, effect.after.token, effect.transfers, t, x);
    DecisionCredits(e, s, op, x);
  }

  /** In particular, a withdrawal pays the employee who calls it: fee or no fee, recipient or none. */
  lemma WithdrawPaysEmployee(w: World, id: u64, a: Address, x: Address)
    requires WorldOk(w) && Operate(w, id, Withdraw(a)).Some?
    requires a != SELF && w.control.feeRecipient != Some(a)
    ensures a == w.streams[id].employee
    ensures var t, gross := w.streams[id].token, Owed(w.streams[id], w.now);
      var tokens' := Operate(w, id, Withdraw(a)).value.world.tokens;
      && BalanceAt(tokens', t, a) == BalanceAt(w.tokens, t, a) + gross - gross * w.control.config.feeBps / 10_000
      && (x !in {a, SELF} && w.control.feeRecipient != Some(x) ==>
            BalanceAt(tokens', t, x) == BalanceAt(w.tokens, t, x))
  {
    OperationPays(w, id, Withdraw(a), w.streams[id].token, a);
    OperationPays(w, id, Withdraw(a), w.streams[id].token, x);
  }

  /** And closing a stream, by whichever of the two calls, pays the employee what is owed and refunds the stored
      employer, and nobody else. */
  lemma ClosingPaysBoth(w: World, id: u64, op: StreamOp, x: Address)
    requires WorldOk(w) && (op.Cancel? || op.Reclaim?) && Operate(w, id, op).Some?
    requires var s := w.streams[id]; s.employee != SELF && s.employer != SELF && s.employee != s.employer
    ensures op.employer == w.streams[id].employer
    ensures var s, owed := w.streams[id], Owed(w.streams[id], w.now);
      var tokens' := Operate(w, id, op).value.world.tokens;
      && BalanceAt(tokens', s.token, s.employee) == BalanceAt(w.tokens, s.token, s.employee) + owed
      && BalanceAt(tokens', s.token, s.employer)
         == BalanceAt(w.tokens, s.token, s.employer) + (s.deposit - s.withdrawn - owed)
      && (x !in {s.employee, s.employer, SELF} ==>
            BalanceAt(tokens', s.token, x) == BalanceAt(w.tokens, s.token, x))
  {
    var s := w.streams[id];
    OperationPays(w, id, op, s.token, s.employee);
    OperationPays(w, id, op, s.token, s.employer);
    OperationPays(w, id, op, s.token, x);
  }

  // ----- creations

  /** The fee on a deposit: charged only where there is a recipient. */
  function CreationFee(c: Control.State, deposit: int): int {
    if c.feeRecipient.Some? then deposit * c.config.feeBps / 10_000 else 0
  }

  function CreationShare(c: Control.State, employer: Address, deposit: int, x: Address): int {
    (if x == SELF then deposit - CreationFee(c, deposit) else 0)
    + (if c.feeRecipient == Some(x) then CreationFee(c, deposit) else 0)
    - (if x == employer then deposit else 0)
  }

  lemma FundCredits(c: Control.State, employer: Address, deposit: i128, x: Address)
    requires deposit > 0 && Fund(c, employer, deposit).Some?
    ensures var f := Fund(c, employer, deposit).value;
      && f.net == deposit - CreationFee(c, deposit)
      && Credit(f.transfers, x) == CreationShare(c, employer, deposit, x)
  {
    var f := Fund(c, employer, deposit).value;
    CreditOfTwo(f.transfers[0], f.transfers[|f.transfers| - 1], x);
    if c.config.feeBps > 0 && c.feeRecipient.Some? {
      assert f.transfers == [f.transfers[0], f.transfers[1]];
    } else {
      assert f.transfers == [f.transfers[0]];
    }
  }

  /** An accepted creation takes the whole deposit from the employer; the fee goes to its recipient and the rest
      into the contract. */
  lemma CreationPays(w: World, employer: Address, p: Params, cooldown: u64, t: Address, x: Address)
    requires CreateOne(w, employer, p, cooldown).Some?
    ensures BalanceAt(CreateOne(w, employer, p, cooldown).value.world.tokens, t, x)
         == BalanceAt(w.tokens, t, x)
            + (if t == p.token then CreationShare(w.control, employer, p.deposit, x) else 0)
  {
    PayAllAdds(w.tokens, p.token, Fund(w.control, employer, p.deposit).value.transfers, t, x);
    FundCredits(w.control, employer, p.deposit, x);
  }

  function CreationShares(c: Control.State, employer: Address, list: seq<Params>, t: Address, x: Address): int {
    if list == [] then 0 else
      var n := |list| - 1;
      CreationShares(c, employer, list[..n], t, x)
      + (if list[n].token == t then CreationShare(c, employer, list[n].deposit, x) else 0)
  }

  lemma {:induction false} BatchPays(w: World, employer: Address, list: seq<Params>, t: Address, x: Address)
    requires WorldOk(w) && CreateEach(w, employer, list).Some?
    ensures BalanceAt(CreateEach(w, employer, list).value.world.tokens, t, x)
         == BalanceAt(w.tokens, t, x) + CreationShares(w.control, employer, list, t, x)
  {
    if list != [] {
      var n := |list| - 1;
      BatchPays(w, employer, list[..n], t, x);
      CreateEachMeaning(w, employer, list[..n]);
      CreationPays(CreateEach(w, employer, list[..n]).value.world, employer, list[n], 0, t, x);
    }
  }

  // ----- fee collection

  /** Only the administrator collects, no more than is booked, to the recipient if there is one and else to
      itself; the books fall by the amount, and no other account, token or booking moves. */
  lemma CollectionPays(w: World, admin: Address, token: Address, amount: i128, t: Address, x: Address)
    requires CollectFees(w, admin, token, amount).Some?
    ensures w.control.admin == Some(admin) && 0 < amount <= Lookup(w.feeBalance, token, 0)
    ensures var w' := CollectFees(w, admin, token, amount).value.world;
      var payee := if w.control.feeRecipient.Some? then w.control.feeRecipient.value else admin;
      && BalanceAt(w'.tokens, t, x)
         == BalanceAt(w.tokens, t, x)
            + (if t == token then (if x == payee then amount else 0) - (if x == SELF then amount else 0) else 0)
      && Lookup(w'.feeBalance, t, 0) == Lookup(w.feeBalance, t, 0) - (if t == token then amount else 0)
      && w'.streams == w.streams && w'.control == w.control
  {
    PayOneAdds(w.tokens, token, Transfer(SELF, w.control.feeRecipient.Or(admin), amount), t, x);
  }

  /** Beside sound tokens it is accepted exactly under those conditions and when the contract holds the amount. */
  lemma CollectionAcceptedIff(w: World, admin: Address, token: Address, amount: i128)
    requires TokensSound(w.tokens)
    ensures CollectFees(w, admin, token, amount).Some? <==>
      && w.control.admin == Some(admin) && 0 < amount <= Lookup(w.feeBalance, token, 0)
      && token in w.tokens && amount <= BalanceAt(w.tokens, token, SELF)
  {
    if token in w.tokens {
      PayOneIff(w.tokens, token, Transfer(SELF, w.control.feeRecipient.Or(admin), amount));
    }
  }

  // ----- outside token calls

  /** An outside token call changes the ledger it names as that token contract says, and nothing else at all. */
  lemma OutsideTouchesOneLedger(w: World, token: Address, call: Token.TokenCall, t: Address)
    ensures Exec(w, Outside(token, call)).Some? <==> token in w.tokens && Token.Apply(w.tokens[token], call).Some?
    ensures var w' := After(w, Outside(token, call));
      && (t in w'.tokens <==> t in w.tokens)
      && (t in w.tokens ==>
            w'.tokens[t] == if t == token then Token.After(w.tokens[t], call) else w.tokens[t])
      && w'.streams == w.streams && w'.control == w.control && w'.feeBalance == w.feeBalance && w'.now == w.now
  {
  }
}
