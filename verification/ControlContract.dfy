/** Administration as the source has it: configuration, allowlist, proposals, votes and pending operations
    that each call loads, changes and saves. A panic is `None` and leaves storage alone. */
module ControlContract {
  import opened Common
  import opened Control
  import D = Decisions

  /** A call whose specified ruling on `c` is `ruling` ends in `c'` and replies `r`. */
  ghost predicate Rules(c: State, ruling: Option<Ruling>, c': State, r: Option<Option<u64>>) {
    if ruling.Some? then c' == ruling.value.state && r == Some(ruling.value.id) else c' == c && r == None
  }

  class Desk {
    var config: Config
    var feeRecipient: Option<Address>
    var allowed: seq<Address>
    var admin: Option<Address>
    var pendingAdmin: Option<Address>
    var multisig: Option<Multisig>
    var ops: map<u64, PendingOp>
    var opCount: u64
    var proposals: map<u64, Proposal>
    var proposalCount: u64
    var voted: set<(u64, Address)>

    function View(): State
      reads this
    {
      State(config, feeRecipient, allowed, admin, pendingAdmin, multisig, ops, opCount, proposals, proposalCount, voted)
    }

    constructor ()
      ensures View() == Initial
    {
      config, feeRecipient, allowed, admin, pendingAdmin := Config(0, 0, 100, 0, false), None, [], None, None;
      multisig, ops, opCount, proposals, proposalCount, voted := None, map[], 0, map[], 0, {};
    }

    method Initialize(caller: Address, now: u64) returns (r: Option<Option<u64>>)
      modifies this
      ensures Rules(old(View()), Apply(old(View()), now, AdminCall.Initialize(caller)), View(), r)
    {
      admin := Some(caller);
      return Some(None);
    }

    method ProposeAdmin(caller: Address, newAdmin: Address, now: u64) returns (r: Option<Option<u64>>)
      modifies this
      ensures Rules(old(View()), Apply(old(View()), now, AdminCall.ProposeAdmin(caller, newAdmin)), View(), r)
    {
      if admin != Some(caller) { return None; }
      pendingAdmin := Some(newAdmin);
      return Some(None);
    }

    method AcceptAdmin(caller: Address, now: u64) returns (r: Option<Option<u64>>)
      modifies this
      ensures Rules(old(View()), Apply(old(View()), now, AdminCall.AcceptAdmin(caller)), View(), r)
    {
      if pendingAdmin != Some(caller) { return None; }
      admin, pendingAdmin := Some(caller), None;
      return Some(None);
    }

    /** `pause_contract` and `unpause_contract`. */
    method SetPaused(caller: Address, nonce: u64, paused: bool, now: u64) returns (r: Option<Option<u64>>)
      modifies this
      ensures Rules(old(View()), Apply(old(View()), now, AdminCall.SetPaused(caller, nonce, paused)), View(), r)
    {
      if admin != Some(caller) || nonce != config.adminNonce || nonce == U64_MAX { return None; }
      config := config.(adminNonce := nonce + 1);
      config := config.(paused := paused);
      return Some(None);
    }

    method EmergencyPause(caller: Address, now: u64) returns (r: Option<Option<u64>>)
      modifies this
      ensures Rules(old(View()), Apply(old(View()), now, AdminCall.EmergencyPause(caller)), View(), r)
    {
      if admin != Some(caller) { return None; }
      config := config.(paused := true);
      return Some(None);
    }

    method SetMinDeposit(caller: Address, nonce: u64, amount: i128, now: u64) returns (r: Option<Option<u64>>)
      modifies this
      ensures Rules(old(View()), Apply(old(View()), now, AdminCall.SetMinDeposit(caller, nonce, amount)), View(), r)
    {
      if admin != Some(caller) || nonce != config.adminNonce || nonce == U64_MAX || amount <= 0 { return None; }
      config := config.(adminNonce := nonce + 1);
      config := config.(minDeposit := amount);
      return Some(None);
    }

    method SetProtocolFee(caller: Address, nonce: u64, feeBps: u32, recipient: Address, now: u64)
      returns (r: Option<Option<u64>>)
      modifies this
      ensures
        Rules(old(View()), Apply(old(View()), now, AdminCall.SetProtocolFee(caller, nonce, feeBps, recipient)),
              View(), r)
    {
      if admin != Some(caller) || nonce != config.adminNonce || nonce == U64_MAX || feeBps > 100 { return None; }
      config := config.(adminNonce := nonce + 1);
      config := config.(feeBps := feeBps);
      feeRecipient := Some(recipient);
      return Some(None);
    }

    method SetMaxStreams(caller: Address, nonce: u64, limit: u32, now: u64) returns (r: Option<Option<u64>>)
      modifies this
      ensures Rules(old(View()), Apply(old(View()), now, AdminCall.SetMaxStreams(caller, nonce, limit)), View(), r)
    {
      if admin != Some(caller) || nonce != config.adminNonce || nonce == U64_MAX { return None; }
      config := config.(adminNonce := nonce + 1);
      config := config.(maxStreams := limit);
      return Some(None);
    }

    method AddAllowedToken(caller: Address, token: Address, now: u64) returns (r: Option<Option<u64>>)
      modifies this
      ensures Rules(old(View()), Apply(old(View()), now, AdminCall.AddAllowedToken(caller, token)), View(), r)
    {
      if admin != Some(caller) { return None; }
      if token !in allowed {
        allowed := allowed + [token];
      }
      return Some(None);
    }

    /** Copies every other token to a new list. */
    method RemoveAllowedToken(caller: Address, token: Address, now: u64) returns (r: Option<Option<u64>>)
      modifies this
      ensures Rules(old(View()), Apply(old(View()), now, AdminCall.RemoveAllowedToken(caller, token)), View(), r)
    {
      if admin != Some(caller) { return None; }
      var rest: seq<Address> := [];
      for i := 0 to |allowed|
        invariant View() == old(View())
        invariant rest + Without(allowed[i..], token) == Without(allowed, token)
      {
        assert allowed[i..][0] == allowed[i] && allowed[i..][1..] == allowed[i + 1..];
        if allowed[i] != token {
          rest := rest + [allowed[i]];
        }
      }
      allowed := rest;
      return Some(None);
    }

    method ConfigureMultisig(caller: Address, admins: seq<Address>, threshold: u32, now: u64)
      returns (r: Option<Option<u64>>)
      modifies this
      ensures
        Rules(old(View()), Apply(old(View()), now, AdminCall.ConfigureMultisig(caller, admins, threshold)), View(), r)
    {
      if admin != Some(caller) || threshold == 0 || threshold > |admins| { return None; }
      multisig := Some(Multisig(admins, threshold));
      return Some(None);
    }

    method ProposeParameter(now: u64, param: GovParam, newValue: u64) returns (r: Option<Option<u64>>)
      modifies this
      ensures Rules(old(View()), OpenProposal(old(View()), now, param, newValue), View(), r)
    {
      if proposalCount == U64_MAX || now + GOV_TIMELOCK > U64_MAX { return None; }
      proposalCount := proposalCount + 1;
      proposals := proposals[proposalCount := Proposal(param, newValue, 0, 0, Open, now + GOV_TIMELOCK)];
      return Some(Some(proposalCount));
    }

    method Vote(voter: Address, id: u64, support: bool) returns (r: Option<Option<u64>>)
      modifies this
      ensures Rules(old(View()), CastVote(old(View()), voter, id, support), View(), r)
    {
      if id !in proposals || proposals[id].status != Open || (id, voter) in voted { return None; }
      var proposal := proposals[id];
      if support {
        if proposal.votesFor == U64_MAX { return None; }
        proposal := proposal.(votesFor := proposal.votesFor + 1);
      } else {
        if proposal.votesAgainst == U64_MAX { return None; }
        proposal := proposal.(votesAgainst := proposal.votesAgainst + 1);
      }
      voted := voted + {(id, voter)};
      proposals := proposals[id := proposal];
      return Some(None);
    }

    method Tally(id: u64) returns (r: Option<Option<u64>>)
      modifies this
      ensures Rules(old(View()), TallyProposal(old(View()), id), View(), r)
    {
      if id !in proposals || proposals[id].status != Open { return None; }
      var proposal := proposals[id];
      if proposal.votesFor > proposal.votesAgainst {
        proposal := proposal.(status := Passed);
      } else {
        proposal := proposal.(status := Rejected);
      }
      proposals := proposals[id := proposal];
      return Some(None);
    }

    method ExecuteProposal(now: u64, id: u64) returns (r: Option<Option<u64>>)
      modifies this
      ensures Rules(old(View()), Execute(old(View()), now, id), View(), r)
    {
      if id !in proposals || proposals[id].status != Passed || now < proposals[id].executableAfter { return None; }
      var proposal := proposals[id];
      match proposal.param {
        case MinDeposit => config := config.(minDeposit := proposal.newValue);
        case MaxDuration => config := config.(maxStreams := proposal.newValue % (U32_MAX + 1));
        case FeeBps => config := config.(feeBps := proposal.newValue % (U32_MAX + 1));
      }
      proposals := proposals[id := proposal.(status := Executed)];
      return Some(None);
    }

    method MultisigPropose(now: u64, caller: Address, op: AdminOp) returns (r: Option<Option<u64>>)
      modifies this
      ensures Rules(old(View()), ProposeOp(old(View()), now, caller, op), View(), r)
    {
      if multisig.None? || caller !in multisig.value.admins { return None; }
      if opCount == U64_MAX || now + MULTISIG_OP_TTL > U64_MAX { return None; }
      opCount := opCount + 1;
      ops := ops[opCount := PendingOp(op, [caller], now + MULTISIG_OP_TTL, false)];
      return Some(Some(opCount));
    }

    method MultisigApprove(now: u64, caller: Address, id: u64) returns (r: Option<Option<u64>>)
      modifies this
      ensures Rules(old(View()), ApproveOp(old(View()), now, caller, id), View(), r)
    {
      if multisig.None? || caller !in multisig.value.admins || id !in ops { return None; }
      var pending := ops[id];
      if pending.executed || now >= pending.expiresAt || caller in pending.approvals { return None; }
      pending := pending.(approvals := pending.approvals + [caller]);
      if |pending.approvals| >= multisig.value.threshold {
        if pending.op.EmergencyStop? {
          config := config.(paused := true);
        }
        pending := pending.(executed := true);
      }
      ops := ops[id := pending];
      return Some(None);
    }

    /** One administrative call. */
    method Perform(call: AdminCall, now: u64) returns (r: Option<Option<u64>>)
      modifies this
      ensures Rules(old(View()), Apply(old(View()), now, call), View(), r)
    {
      match call {
        case Initialize(caller) => r := Initialize(caller, now);
        case ProposeAdmin(caller, newAdmin) => r := ProposeAdmin(caller, newAdmin, now);
        case AcceptAdmin(caller) => r := AcceptAdmin(caller, now);
        case SetPaused(caller, nonce, paused) => r := SetPaused(caller, nonce, paused, now);
        case EmergencyPause(caller) => r := EmergencyPause(caller, now);
        case SetMinDeposit(caller, nonce, amount) => r := SetMinDeposit(caller, nonce, amount, now);
        case SetProtocolFee(caller, nonce, feeBps, recipient) =>
          r := SetProtocolFee(caller, nonce, feeBps, recipient, now);
        case SetMaxStreams(caller, nonce, limit) => r := SetMaxStreams(caller, nonce, limit, now);
        case AddAllowedToken(caller, token) => r := AddAllowedToken(caller, token, now);
        case RemoveAllowedToken(caller, token) => r := RemoveAllowedToken(caller, token, now);
        case ProposeParameter(_, param, newValue) => r := ProposeParameter(now, param, newValue);
        case Vote(caller, id, support) => r := Vote(caller, id, support);
        case Tally(id) => r := Tally(id);
        case ExecuteProposal(id) => r := ExecuteProposal(now, id);
        case ConfigureMultisig(caller, admins, threshold) => r := ConfigureMultisig(caller, admins, threshold, now);
        case MultisigPropose(caller, op) => r := MultisigPropose(now, caller, op);
        case MultisigApprove(caller, id) => r := MultisigApprove(now, caller, id);
      }
    }

    /** A new desk driven through clock ticks and calls is the one the theorems about runs speak about. */
    method Drive(t0: u64, es: seq<D.Event>) returns (now: u64)
      requires View() == Initial
      modifies this
      ensures D.Moment(now, View()) == D.RunTo(t0, es)
    {
      now := t0;
      for i := 0 to |es|
        invariant D.Moment(now, View()) == D.RunTo(t0, es[..i])
      {
        assert es[..i + 1][..i] == es[..i];
        match es[i] {
          case Tick => if now < U64_MAX { now := now + 1; }
          case Act(call) => var _ := Perform(call, now);
        }
      }
      assert es[..|es|] == es;
    }
  }
}
