/** The booked protocol fees against the levies that withdrawals have already transferred. */
module Fees {
  import opened Common
  import opened Streams
  import opened World
  import opened Steps
  import opened Escrow
  import Token

  /** The fee balance that `withdraw_protocol_fees` pays from. */
  function Booked(w: World, t: Address): i128 {
    Lookup(w.feeBalance, t, 0)
  }

  /** The levy among the transfers of a withdrawal: the first of two. */
  function Levy(ts: seq<Transfer>): int {
    if |ts| == 2 then ts[0].amount else 0
  }

  /** What an attempted call transfers to the fee recipient out of a withdrawal in token `t`. */
  function LeviedBy(w: World, c: Call, t: Address): int {
    if c.OnStream? && c.op.Withdraw? && Exec(w, c).Some? && w.streams[c.id].token == t
    then Levy(Decide(EnvOf(w, c.id), w.streams[c.id], c.op).value.transfers) else 0
  }

  /** The part of a levy that is not booked because the fee balance would overflow. */
  function DroppedBy(w: World, c: Call, t: Address): int {
    if Booked(w, t) + LeviedBy(w, c, t) > I128_MAX then LeviedBy(w, c, t) else 0
  }

  function CollectedBy(w: World, c: Call, t: Address): int {
    if c.WithdrawFees? && c.token == t && Exec(w, c).Some? then c.amount else 0
  }

  /** All levies transferred during a run. */
  function Levied(w: World, calls: seq<Call>, t: Address): int {
    if calls == [] then 0 else
      var n := |calls| - 1;
      Levied(w, calls[..n], t) + LeviedBy(RunTo(w, calls[..n]), calls[n], t)
  }

  function Dropped(w: World, calls: seq<Call>, t: Address): int {
    if calls == [] then 0 else
      var n := |calls| - 1;
      Dropped(w, calls[..n], t) + DroppedBy(RunTo(w, calls[..n]), calls[n], t)
  }

  /** All booked fees collected during a run. */
  function Collected(w: World, calls: seq<Call>, t: Address): int {
    if calls == [] then 0 else
      var n := |calls| - 1;
      Collected(w, calls[..n], t) + CollectedBy(RunTo(w, calls[..n]), calls[n], t)
  }

  /** The transfers of an accepted withdrawal: at most one levy, to the recipient configured at that moment,
      before the payment to the employee; exactly the levy is booked. */
  lemma LevyTransfers(e: Env, s: Stream, employee: Address)
    requires StreamOk(s, e.now) && DecideWithdraw(e, s, employee).Some?
    ensures var eff := DecideWithdraw(e, s, employee).value;
      && eff.booked == Levy(eff.transfers) && eff.after.token == s.token
      && Levy(eff.transfers) == (if e.feeRecipient.Some? then Owed(s, e.now) * e.feeBps / 10_000 else 0)
      && (Levy(eff.transfers) != 0 ==>
            && e.feeRecipient.Some?
            && eff.transfers[0] == Transfer(SELF, e.feeRecipient.value, Levy(eff.transfers))
            && eff.transfers[1].to == employee)
  {
    ClaimableIsOwed(s, e.now, e.now);
  }

  lemma PaidInTurn(tokens: map<Address, Token.Ledger>, t: Address, ts: seq<Transfer>)
    requires |ts| == 2 && ts[0].from == SELF && ts[1].from == SELF && PayAll(tokens, t, ts).Some?
    requires ts[0].to != SELF && ts[0].to != ts[1].to
    ensures t in tokens && t in PayAll(tokens, t, ts).value
    ensures Token.BalanceOf(PayAll(tokens, t, ts).value[t], ts[0].to)
         == Token.BalanceOf(tokens[t], ts[0].to) + ts[0].amount
  {
    var tokens1 := PayOne(tokens, t, ts[0]).value;
    assert ts[1..] == [ts[1]];
    assert PayAll(tokens1, t, [ts[1]]) == PayOne(tokens1, t, ts[1]);
  }

  /** A levy really arrives: it raises the balance of its recipient, unless that is the contract itself or the
      employee, who is paid in the same call. */
  lemma LevyArrives(w: World, id: u64, employee: Address)
    requires WorldOk(w) && Operate(w, id, Withdraw(employee)).Some?
    requires w.control.feeRecipient.Some? && w.control.feeRecipient.value !in {SELF, employee}
    ensures var t, r := w.streams[id].token, w.control.feeRecipient.value;
      LeviedBy(w, OnStream(id, Withdraw(employee)), t) > 0 ==>
        && t in w.tokens && t in Operate(w, id, Withdraw(employee)).value.world.tokens
        && Token.BalanceOf(Operate(w, id, Withdraw(employee)).value.world.tokens[t], r)
           == Token.BalanceOf(w.tokens[t], r) + LeviedBy(w, OnStream(id, Withdraw(employee)), t)
  {
    var t := w.streams[id].token;
    LevyTransfers(EnvOf(w, id), w.streams[id], employee);
    var ts := DecideWithdraw(EnvOf(w, id), w.streams[id], employee).value.transfers;
    if Levy(ts) > 0 {
      PaidInTurn(w.tokens, t, ts);
    }
  }

  lemma SaveBooks(w: World, id: u64, effect: Effect, t: Address)
    requires Save(w, id, effect).Some?
    ensures Booked(Save(w, id, effect).value.world, t) ==
      if effect.after.token == t then Checked(Booked(w, t) + effect.booked).Or(Booked(w, t)) else Booked(w, t)
  {
  }

  lemma OthersBookNothing(e: Env, s: Stream, op: StreamOp)
    requires !op.Withdraw? && Decide(e, s, op).Some?
    ensures Decide(e, s, op).value.booked == 0
  {
  }

  lemma LevyNotNegative(e: Env, s: Stream)
    requires StreamOk(s, e.now)
    ensures Owed(s, e.now) * e.feeBps / 10_000 >= 0
  {
    ClaimableIsOwed(s, e.now, e.now);
  }

  lemma OperateBooks(w: World, id: u64, op: StreamOp, t: Address)
    requires WorldOk(w) && Booked(w, t) >= 0 && Operate(w, id, op).Some?
    ensures LeviedBy(w, OnStream(id, op), t) >= 0
    ensures Booked(Operate(w, id, op).value.world, t)
         == Booked(w, t) + LeviedBy(w, OnStream(id, op), t) - DroppedBy(w, OnStream(id, op), t)
  {
    var s, e := w.streams[id], EnvOf(w, id);
    var effect := Decide(e, s, op).value;
    SaveBooks(w, id, effect, t);
    if op.Withdraw? {
      LevyTransfers(e, s, op.employee);
      LevyNotNegative(e, s);
    } else {
      OthersBookNothing(e, s, op);
    }
  }

  /** One attempted call moves the fee balance by what it levies, less what is dropped and collected. */
  lemma FeeStep(w: World, c: Call, t: Address)
    requires WorldOk(w) && Booked(w, t) >= 0
    ensures Booked(After(w, c), t) == Booked(w, t) + LeviedBy(w, c, t) - DroppedBy(w, c, t) - CollectedBy(w, c, t)
    ensures Booked(After(w, c), t) >= 0 && LeviedBy(w, c, t) >= 0
  {
    if Exec(w, c).Some? {
      match c
      case OnStream(id, op) => OperateBooks(w, id, op, t);
      case Create(employer, p, cooldown) => CreateOneMeaning(w, employer, p, cooldown);
      case CreateBatch(employer, list) => CreateEachMeaning(w, employer, list);
      case _ =>
    }
  }

  /** In every run, for every token: the fee balance, plus all fees collected, plus bookings dropped on
      overflow, is exactly what withdrawals have already transferred to fee recipients. */
  lemma {:induction false} BookedIsAlreadySent(w: World, calls: seq<Call>, t: Address)
    requires Genesis(w)
    ensures Booked(RunTo(w, calls), t) + Collected(w, calls, t) + Dropped(w, calls, t) == Levied(w, calls, t)
    ensures Booked(RunTo(w, calls), t) >= 0 && Dropped(w, calls, t) >= 0
  {
    if calls != [] {
      var n := |calls| - 1;
      BookedIsAlreadySent(w, calls[..n], t);
      AlwaysOk(w, calls[..n]);
      FeeStep(RunTo(w, calls[..n]), calls[n], t);
    }
  }

  /** Every accepted collection pays a second time: together with all earlier ones it stays within what
      withdrawals had already transferred. */
  lemma CollectionIsSecondPayment(w: World, calls: seq<Call>, admin: Address, t: Address, amount: i128)
    requires Genesis(w) && CollectFees(RunTo(w, calls), admin, t, amount).Some?
    ensures amount > 0 && Collected(w, calls, t) + amount <= Levied(w, calls, t)
  {
    BookedIsAlreadySent(w, calls, t);
  }
}
