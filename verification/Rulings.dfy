/** Administration call by call: who may call what, what each accepted call changes and leaves alone, and what
    that means over whole runs for the nonce, the fee and the administrator. */
module Rulings {
  import opened Common
  import opened Control
  import D = Decisions

  // ----- who may call what

  /** The administrator, with the next nonce. */
  predicate SignedNext(c: State, caller: Address, nonce: u64) {
    c.admin == Some(caller) && nonce == c.config.adminNonce && nonce < U64_MAX
  }

  /** A configured multisig administrator. */
  predicate Cosigner(c: State, caller: Address) {
    c.multisig.Some? && caller in c.multisig.value.admins
  }

  predicate Permitted(c: State, now: u64, call: AdminCall) {
    match call
    case Initialize(_) => true
    case ProposeAdmin(caller, _) => c.admin == Some(caller)
    case AcceptAdmin(caller) => c.pendingAdmin == Some(caller)
    case SetPaused(caller, nonce, _) => SignedNext(c, caller, nonce)
    case EmergencyPause(caller) => c.admin == Some(caller)
    case SetMinDeposit(caller, nonce, amount) => SignedNext(c, caller, nonce) && 0 < amount
    case SetProtocolFee(caller, nonce, feeBps, _) => SignedNext(c, caller, nonce) && feeBps <= 100
    case SetMaxStreams(caller, nonce, _) => SignedNext(c, caller, nonce)
    case AddAllowedToken(caller, _) => c.admin == Some(caller)
    case RemoveAllowedToken(caller, _) => c.admin == Some(caller)
    case ProposeParameter(_, _, _) => c.proposalCount < U64_MAX && now + 172_800 <= U64_MAX
    case Vote(caller, id, support) =>
      && id in c.proposals && c.proposals[id].status == Open && (id, caller) !in c.voted
      && (if support then c.proposals[id].votesFor else c.proposals[id].votesAgainst) < U64_MAX
    case Tally(id) => id in c.proposals && c.proposals[id].status == Open
    case ExecuteProposal(id) =>
      id in c.proposals && c.proposals[id].status == Passed && c.proposals[id].executableAfter <= now
    case ConfigureMultisig(caller, admins, threshold) =>
      c.admin == Some(caller) && 1 <= threshold <= |admins|
    case MultisigPropose(caller, _) => Cosigner(c, caller) && c.opCount < U64_MAX && now + 604_800 <= U64_MAX
    case MultisigApprove(caller, id) =>
      && Cosigner(c, caller) && id in c.ops && !c.ops[id].executed && now < c.ops[id].expiresAt
      && caller !in c.ops[id].approvals
  }

  /** An administrative call is accepted exactly when it is permitted. */
  lemma AcceptedIff(c: State, now: u64, call: AdminCall)
    ensures Apply(c, now, call).Some? <==> Permitted(c, now, call)
  {
  }

  // ----- what changes

  /** The call consumes a nonce. */
  predicate Numbered(call: AdminCall) {
    call.SetPaused? || call.SetMinDeposit? || call.SetProtocolFee? || call.SetMaxStreams?
  }

  /** The call executes a proposal on this parameter. */
  predicate Enacts(c: State, call: AdminCall, param: GovParam) {
    call.ExecuteProposal? && call.id in c.proposals && c.proposals[call.id].param == param
  }

  /** The approval brings the operation to its threshold. */
  predicate Completes(c: State, call: AdminCall) {
    && call.MultisigApprove? && c.multisig.Some? && call.id in c.ops
    && |c.ops[call.id].approvals| + 1 >= c.multisig.value.threshold
  }

  /** The configuration after an accepted call, field by field: a pause flag moves by a numbered call, an emergency
      pause, or an emergency stop that reaches its threshold; each other field by its own call or by a proposal on
      it, of which 32-bit fields keep the low 32 bits; and the nonce by numbered calls only. */
  lemma ConfigMeaning(c: State, now: u64, call: AdminCall)
    requires Apply(c, now, call).Some?
    ensures var k, k' := c.config, Apply(c, now, call).value.state.config;
      && k'.paused == (
           if call.SetPaused? then call.paused
           else k.paused || call.EmergencyPause? || (Completes(c, call) && c.ops[call.id].op.EmergencyStop?))
      && k'.minDeposit == (
           if call.SetMinDeposit? then call.amount
           else if Enacts(c, call, MinDeposit) then c.proposals[call.id].newValue else k.minDeposit)
      && k'.feeBps == (
           if call.SetProtocolFee? then call.feeBps
           else if Enacts(c, call, FeeBps) then c.proposals[call.id].newValue % 0x1_0000_0000 else k.feeBps)
      && k'.maxStreams == (
           if call.SetMaxStreams? then call.limit
           else if Enacts(c, call, MaxDuration) then c.proposals[call.id].newValue % 0x1_0000_0000 else k.maxStreams)
      && k'.adminNonce == k.adminNonce + (if Numbered(call) then 1 else 0)
  {
  }

  lemma {:induction false} WithoutKeepsOthers(list: seq<Address>, token: Address, t: Address)
    ensures t in Without(list, token) <==> t in list && t != token
  {
    if list != [] {
      WithoutKeepsOthers(list[1..], token, t);
    }
  }

  /** Who is in office, who receives fees, which tokens are allowed and who cosigns, after an accepted call. */
  lemma OfficesMeaning(c: State, now: u64, call: AdminCall, t: Address)
    requires Apply(c, now, call).Some?
    ensures var c' := Apply(c, now, call).value.state;
      && c'.admin == (if call.Initialize? || call.AcceptAdmin? then Some(call.caller) else c.admin)
      && c'.pendingAdmin == (
           if call.ProposeAdmin? then Some(call.newAdmin) else if call.AcceptAdmin? then None else c.pendingAdmin)
      && c'.feeRecipient == (if call.SetProtocolFee? then Some(call.recipient) else c.feeRecipient)
      && (t in c'.allowed <==>
            if call.AddAllowedToken? && t == call.token then true
            else if call.RemoveAllowedToken? && t == call.token then false
            else t in c.allowed)
      && c'.multisig == (
           if call.ConfigureMultisig? then Some(Multisig(call.admins, call.threshold)) else c.multisig)
  {
    if call.RemoveAllowedToken? {
      WithoutKeepsOthers(c.allowed, call.token, t);
    }
  }

  function Slot<K, V>(m: map<K, V>, k: K): Option<V> {
    if k in m then Some(m[k]) else None
  }

  /** A multisig operation after an accepted call: a new one carries its proposer's approval and a week to live; an
      approval adds one name, and the operation fires with exactly the approval that reaches the threshold. */
  lemma OpsMeaning(c: State, now: u64, call: AdminCall, id: u64)
    requires Apply(c, now, call).Some?
    ensures var ruling := Apply(c, now, call).value;
      Slot(ruling.state.ops, id) == (
        if call.MultisigPropose? && id == c.opCount + 1 then
          Some(PendingOp(call.op, [call.caller], now + 604_800, false))
        else if call.MultisigApprove? && id == call.id then
          Some(PendingOp(c.ops[id].op, c.ops[id].approvals + [call.caller], c.ops[id].expiresAt, Completes(c, call)))
        else Slot(c.ops, id))
    ensures call.MultisigPropose? ==> Apply(c, now, call).value.id == Some(c.opCount + 1)
  {
  }

  /** A proposal after an accepted call. */
  lemma ProposalsMeaning(c: State, now: u64, call: AdminCall, id: u64)
    requires Apply(c, now, call).Some?
    ensures var ruling := Apply(c, now, call).value;
      Slot(ruling.state.proposals, id) == (
        if call.ProposeParameter? && id == c.proposalCount + 1 then
          Some(Proposal(call.param, call.newValue, 0, 0, Open, now + 172_800))
        else if call.Vote? && id == call.id then
          Some(c.proposals[id].(votesFor := c.proposals[id].votesFor + (if call.support then 1 else 0),
                                votesAgainst := c.proposals[id].votesAgainst + (if call.support then 0 else 1)))
        else if call.Tally? && id == call.id then
          Some(c.proposals[id].(status :=
            if c.proposals[id].votesFor > c.proposals[id].votesAgainst then Passed else Rejected))
        else if call.ExecuteProposal? && id == call.id then Some(c.proposals[id].(status := Executed))
        else Slot(c.proposals, id))
    ensures call.ProposeParameter? ==> Apply(c, now, call).value.id == Some(c.proposalCount + 1)
  {
  }

  // ----- whole runs

  /** How many numbered calls the run has accepted. */
  ghost function NumberedSoFar(t0: u64, es: seq<D.Event>): nat {
    if es == [] then 0 else
      var n := |es| - 1;
      var m := D.RunTo(t0, es[..n]);
      NumberedSoFar(t0, es[..n])
      + (if es[n].Act? && Numbered(es[n].call) && Apply(m.c, m.now, es[n].call).Some? then 1 else 0)
  }

  lemma {:induction false} NonceCounts(t0: u64, es: seq<D.Event>)
    ensures D.RunTo(t0, es).c.config.adminNonce == NumberedSoFar(t0, es)
  {
    if es != [] {
      var n := |es| - 1;
      var m := D.RunTo(t0, es[..n]);
      NonceCounts(t0, es[..n]);
      if es[n].Act? && Apply(m.c, m.now, es[n].call).Some? {
        ConfigMeaning(m.c, m.now, es[n].call);
      }
    }
  }

  lemma {:induction false} NumberedGrows(t0: u64, es: seq<D.Event>, i: nat, j: nat)
    requires i <= j <= |es|
    ensures NumberedSoFar(t0, es[..i]) <= NumberedSoFar(t0, es[..j])
    decreases j - i
  {
    if i < j {
      NumberedGrows(t0, es, i, j - 1);
      assert es[..j][..j - 1] == es[..j - 1];
    }
  }

  /** In every run no two accepted numbered calls carry the same nonce: none can be replayed. */
  lemma NoncesAreUsedOnce(t0: u64, es: seq<D.Event>, i: nat, j: nat)
    requires i < j < |es| && es[i].Act? && es[j].Act? && Numbered(es[i].call) && Numbered(es[j].call)
    requires D.Accepted(t0, es, i, es[i].call) && D.Accepted(t0, es, j, es[j].call)
    ensures es[i].call.nonce < es[j].call.nonce
  {
    NonceCounts(t0, es[..i]);
    NonceCounts(t0, es[..j]);
    assert es[..i + 1][..i] == es[..i];
    NumberedGrows(t0, es, i + 1, j);
    AcceptedIff(D.At(t0, es, i).c, D.At(t0, es, i).now, es[i].call);
    AcceptedIff(D.At(t0, es, j).c, D.At(t0, es, j).now, es[j].call);
  }

  /** The run has enacted a fee proposal. */
  ghost predicate FeeEnacted(t0: u64, es: seq<D.Event>) {
    es != [] &&
    (var n := |es| - 1;
     var m := D.RunTo(t0, es[..n]);
     FeeEnacted(t0, es[..n])
     || (es[n].Act? && Enacts(m.c, es[n].call, FeeBps) && Apply(m.c, m.now, es[n].call).Some?))
  }

  /** In every run the fee stays within one per cent unless governance has enacted one. */
  lemma {:induction false} FeeIsCapped(t0: u64, es: seq<D.Event>)
    requires !FeeEnacted(t0, es)
    ensures D.RunTo(t0, es).c.config.feeBps <= 100
  {
    if es != [] {
      var n := |es| - 1;
      var m := D.RunTo(t0, es[..n]);
      FeeIsCapped(t0, es[..n]);
      if es[n].Act? && Apply(m.c, m.now, es[n].call).Some? {
        ConfigMeaning(m.c, m.now, es[n].call);
        AcceptedIff(m.c, m.now, es[n].call);
      }
    }
  }

  /** Minimum deposit and streams per employer: 0 and 100 at first, then whatever the administrator or a proposal
      last put in force. */
  ghost function InForce(t0: u64, es: seq<D.Event>): (int, int) {
    if es == [] then (0, 100) else
      var n := |es| - 1;
      var m, before := D.RunTo(t0, es[..n]), InForce(t0, es[..n]);
      if es[n].Tick? || Apply(m.c, m.now, es[n].call).None? then before else
        match es[n].call
        case SetMinDeposit(_, _, amount) => (amount, before.1)
        case SetMaxStreams(_, _, limit) => (before.0, limit)
        case ExecuteProposal(id) =>
          if Enacts(m.c, es[n].call, MinDeposit) then (m.c.proposals[id].newValue, before.1)
          else if Enacts(m.c, es[n].call, MaxDuration) then (before.0, m.c.proposals[id].newValue % 0x1_0000_0000)
          else before
        case _ => before
  }

  lemma {:induction false} LimitsInForce(t0: u64, es: seq<D.Event>)
    ensures (D.RunTo(t0, es).c.config.minDeposit, D.RunTo(t0, es).c.config.maxStreams) == InForce(t0, es)
  {
    if es != [] {
      var n := |es| - 1;
      var m := D.RunTo(t0, es[..n]);
      LimitsInForce(t0, es[..n]);
      if es[n].Act? && Apply(m.c, m.now, es[n].call).Some? {
        ConfigMeaning(m.c, m.now, es[n].call);
      }
    }
  }

  /** Who last took office: by `initialize`, or by accepting an offer. */
  ghost function InOffice(t0: u64, es: seq<D.Event>): Option<Address> {
    if es == [] then None else
      var n := |es| - 1;
      var m := D.RunTo(t0, es[..n]);
      if es[n].Act? && (es[n].call.Initialize? || es[n].call.AcceptAdmin?) && Apply(m.c, m.now, es[n].call).Some?
      then Some(es[n].call.caller)
      else InOffice(t0, es[..n])
  }

  /** In every run the administrator is whoever last took office. */
  lemma {:induction false} AdminTookOffice(t0: u64, es: seq<D.Event>)
    ensures D.RunTo(t0, es).c.admin == InOffice(t0, es)
  {
    if es != [] {
      var n := |es| - 1;
      var m := D.RunTo(t0, es[..n]);
      AdminTookOffice(t0, es[..n]);
      if es[n].Act? && Apply(m.c, m.now, es[n].call).Some? {
        OfficesMeaning(m.c, m.now, es[n].call, SELF);
      }
    }
  }
}
