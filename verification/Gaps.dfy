/** Places where the code departs from what its documentation suggests, each for all inputs. */
module Gaps {
  import opened Common
  import opened Streams
  import opened World
  import opened Steps
  import opened Escrow
  import opened Solvency
  import opened Fees
  import opened Accrual
  import opened Lifetime
  import Control
  import Token

  // ----- booked fees are paid a second time

  /** After any run, collecting booked fees pays out what withdrawals had already transferred, and leaves the
      escrow covering its streams exactly when that much is stranded on top of all that has left before, or the
      amount returns to the contract itself. */
  lemma CollectionCoveredIff(w: World, calls: seq<Call>, admin: Address, t: Address, amount: i128)
    requires Genesis(w) && admin != SELF && CollectFees(RunTo(w, calls), admin, t, amount).Some?
    requires forall i :: 0 <= i < |calls| ==> External(calls[i])
    ensures Collected(w, calls, t) + amount <= Levied(w, calls, t)
    ensures var again := if RunTo(w, calls).control.feeRecipient == Some(SELF) then 0 else amount;
      Covered(CollectFees(RunTo(w, calls), admin, t, amount).value.world, t) <==>
        FeesPaid(w, calls, t) + again + Pulled(w, calls, t) <= Stranded(w, calls, t)
  {
    LedgerIdentity(w, calls, t);
    FeesStep(RunTo(w, calls), admin, t, amount, t);
    CollectionIsSecondPayment(w, calls, admin, t, amount);
  }

  /** After any run in which nothing of the token is stranded and nothing has been collected or pulled out, the
      first collection to an outside recipient leaves the escrow short of its streams by exactly its amount. */
  lemma CollectionLeavesEscrowShort(w: World, calls: seq<Call>, admin: Address, t: Address, amount: i128)
    requires Genesis(w) && admin != SELF && CollectFees(RunTo(w, calls), admin, t, amount).Some?
    requires forall i :: 0 <= i < |calls| ==> External(calls[i])
    requires Stranded(w, calls, t) == FeesPaid(w, calls, t) == Pulled(w, calls, t) == 0
    requires RunTo(w, calls).control.feeRecipient != Some(SELF)
    ensures amount <= Levied(w, calls, t) - Collected(w, calls, t)
    ensures var w' := CollectFees(RunTo(w, calls), admin, t, amount).value.world;
      Held(w', t) == Pledges(w', t) - amount < Pledges(w', t)
  {
    LedgerIdentity(w, calls, t);
    FeesStep(RunTo(w, calls), admin, t, amount, t);
    CollectionIsSecondPayment(w, calls, admin, t, amount);
  }

  // ----- pulls of negative amounts run backwards

  /** A pull of `-n` runs backwards: the named owner gains `n` and the recipient loses `n`, at whoever's request.
      It is accepted exactly when neither the owner nor the allowance is further than `n` below zero and nothing
      overflows. */
  lemma NegativePull(l: Token.Ledger, spender: Address, from: Address, to: Address, n: i128)
    requires from != to && 0 < n
    ensures var paid := Token.PayFrom(l, spender, from, to, -n);
      && (paid.Some? <==>
            && -n <= Token.Allowance(l, from, spender) && Token.Allowance(l, from, spender) + n <= I128_MAX
            && -n <= Token.BalanceOf(l, from) && Token.BalanceOf(l, from) + n <= I128_MAX
            && I128_MIN <= Token.BalanceOf(l, to) - n)
      && (paid.Some? ==>
            && Token.BalanceOf(paid.value, to) == Token.BalanceOf(l, to) - n
            && Token.BalanceOf(paid.value, from) == Token.BalanceOf(l, from) + n
            && Token.Allowance(paid.value, from, spender) == Token.Allowance(l, from, spender) + n)
  {
  }

  /** It keeps a sound ledger sound exactly when the recipient held at least `n`. */
  lemma NegativePullSoundIff(l: Token.Ledger, spender: Address, from: Address, to: Address, n: i128)
    requires from != to && 0 < n && Token.Sound(l) && Token.PayFrom(l, spender, from, to, -n).Some?
    ensures Token.Sound(Token.PayFrom(l, spender, from, to, -n).value) <==> n <= Token.BalanceOf(l, to)
  {
    Token.SoundStep(l, Token.TransferFrom(spender, from, to, -n));
  }

  /** `transfer_from` takes an amount below zero from any signer who is not in debt: it then moves tokens from
      the recipient to the named owner, and nobody is left in debt. Pulled on the contract, it is accepted
      exactly as long as nothing overflows, takes exactly `n` out of the escrow and leaves all else alone. */
  lemma NegativePullIntoContract(w: World, t: Address, caller: Address, n: i128)
    requires t in w.tokens && caller != SELF && 0 < n <= Held(w, t)
    requires Token.BalanceOf(w.tokens[t], caller) >= 0 && Token.Allowance(w.tokens[t], caller, caller) >= 0
    ensures var c := Outside(t, Token.TransferFrom(caller, caller, SELF, -n));
      var l, l' := w.tokens[t], Token.PayFrom(w.tokens[t], caller, caller, SELF, -n);
      && External(c)
      && Exec(w, c) == (if l'.Some? then Some(Outcome(w.(tokens := w.tokens[t := l'.value]), Unit)) else None)
      && (l'.Some? <==>
            Token.BalanceOf(l, caller) + n <= I128_MAX && Token.Allowance(l, caller, caller) + n <= I128_MAX)
      && (l'.Some? ==>
            && Token.BalanceOf(l'.value, SELF) == Held(w, t) - n
            && Token.BalanceOf(l'.value, caller) == Token.BalanceOf(l, caller) + n
            && (Token.Sound(l) ==> Token.Sound(l'.value)))
  {
    NegativePull(w.tokens[t], caller, caller, SELF, n);
    if Token.Sound(w.tokens[t]) && Token.PayFrom(w.tokens[t], caller, caller, SELF, -n).Some? {
      NegativePullSoundIff(w.tokens[t], caller, caller, SELF, n);
    }
  }

  /** Pulled out of the contract, it leaves its signer an allowance over the escrow. */
  lemma NegativePullOutOfContract(w: World, t: Address, caller: Address, owner: Address, n: i128)
    requires caller != SELF && 0 < n && Exec(w, Outside(t, Token.TransferFrom(caller, SELF, owner, -n))).Some?
    ensures t in w.tokens && External(Outside(t, Token.TransferFrom(caller, SELF, owner, -n)))
    ensures Token.Allowance(After(w, Outside(t, Token.TransferFrom(caller, SELF, owner, -n))).tokens[t], SELF, caller)
         == Token.Allowance(w.tokens[t], SELF, caller) + n
  {
  }

  // ----- governance has no fee cap

  lemma ExecutingSetsFee(w: World, proposal: u64)
    requires proposal in w.control.proposals
    requires var p := w.control.proposals[proposal];
      p.status == Control.Passed && p.param == Control.FeeBps && w.now >= p.executableAfter
    ensures Exec(w, Admin(Control.ExecuteProposal(proposal))).Some?
    ensures var w' := After(w, Admin(Control.ExecuteProposal(proposal)));
      && w' == w.(control := w'.control)
      && w'.control.config.paused == w.control.config.paused
      && w'.control.config.feeBps == w.control.proposals[proposal].newValue % (U32_MAX + 1)
  {
  }

  /** After a passed fee proposal is executed, an entitled employee's paying withdrawal is accepted exactly when
      the low 32 bits of the proposed value are below 100 per cent. */
  lemma GovernanceFeeBlocksIff(w: World, proposal: u64, id: u64, employee: Address)
    requires WorldOk(w) && TokensReady(w) && proposal in w.control.proposals
    requires var p := w.control.proposals[proposal];
      p.status == Control.Passed && p.param == Control.FeeBps && w.now >= p.executableAfter
    requires id in w.streams && Owed(w.streams[id], w.now) > 0 && Covered(w, w.streams[id].token)
    ensures Exec(w, Admin(Control.ExecuteProposal(proposal))).Some?
    ensures Exec(After(w, Admin(Control.ExecuteProposal(proposal))), OnStream(id, Withdraw(employee))).Some? <==>
      Entitled(w, id, employee) && w.control.proposals[proposal].newValue % (U32_MAX + 1) < 10_000
  {
    ExecutingSetsFee(w, proposal);
    WithdrawAcceptedIff(After(w, Admin(Control.ExecuteProposal(proposal))), id, employee);
  }

  // ----- `update_rate` does not always crystallise

  /** An accepted rate change writes off exactly what had accrued at the old rate if and only if nothing had
      accrued, or the cliff is past and the deposit still pays for all of it; otherwise it writes off less and
      the rest is gone. In every case it transfers nothing and leaves nothing claimable. */
  lemma RateChangeCrystallisesIff(e: Env, s: Stream, employer: Address, newRate: i128)
    requires StreamOk(s, e.now) && DecideUpdateRate(e, s, employer, newRate).Some?
    ensures var eff := DecideUpdateRate(e, s, employer, newRate).value;
      var accrued, writtenOff := Elapsed(s, e.now) * s.rate, eff.after.withdrawn - s.withdrawn;
      && writtenOff <= accrued
      && (writtenOff == accrued <==>
            Elapsed(s, e.now) == 0
            || (!BeforeCliff(s, e.now) && Elapsed(s, e.now) * s.rate <= s.deposit - s.withdrawn))
      && (BeforeCliff(s, e.now) ==> writtenOff == 0)
      && eff.transfers == [] && Owed(eff.after, e.now) == 0 && Elapsed(eff.after, e.now) == 0
  {
    DecideMeaning(e, s, UpdateRate(employer, newRate));
    RateChangeMove(e.now, UpdateRate(employer, newRate), s, DecideUpdateRate(e, s, employer, newRate).value.after);
  }

  // ----- `get_stream` is not a read

  /** When `get_stream` closes a stream, everything it could still pay is out of the employee's reach for good. */
  lemma GetForfeitsTheRest(s: Stream, now: u64, s': Stream, t: u64)
    requires StreamOk(s, now) && Becomes(now, s, Get, s')
    ensures s' != s <==> Closes(s, now)
    ensures Closes(s, now) ==> Owed(s, now) == s.deposit - s.withdrawn && Owed(s', t) == 0
  {
    ClaimableIsOwed(s, now, now);
  }

  // ----- closing a paused stream pays for the pause

  /** Paused seconds before the stop time, up to now. */
  function PausedBeforeStop(s: Stream, now: u64): int {
    Max(EffectiveEnd(s, now) - s.pausedAt, 0)
  }

  /** Cancelling or reclaiming a paused stream past its cliff pays the employee for the paused seconds up to the
      stop time as well, as far as the deposit goes. */
  lemma ClosingPaysForThePause(now: u64, s: Stream, op: StreamOp, s': Stream)
    requires StreamOk(s, now) && s.status == Paused && (op.Cancel? || op.Reclaim?) && Becomes(now, s, op, s')
    requires !BeforeCliff(s, now)
    ensures s'.withdrawn - s.withdrawn
         == Min((Accounted(s, now) + PausedBeforeStop(s, now)) * s.rate, s.deposit - s.withdrawn)
  {
    assert Elapsed(s, now) == Accounted(s, now) + PausedBeforeStop(s, now);
  }
}
