/** Administration of the stream contract: packed config, admin hand-over, token allowlist,
    governance proposals and the M-of-N multisig. None of it touches streams or money. */
module Control {
  import opened Common

  const GOV_TIMELOCK: u64 := 172_800
  const MULTISIG_OP_TTL: u64 := 604_800

  datatype Config = Config(minDeposit: i128, feeBps: u32, maxStreams: u32, adminNonce: u64, paused: bool)

  datatype GovParam = MinDeposit | MaxDuration | FeeBps
  datatype ProposalStatus = Open | Passed | Executed | Rejected
  datatype Proposal = Proposal(
    param: GovParam,
    newValue: u64,
    votesFor: u64,
    votesAgainst: u64,
    status: ProposalStatus,
    executableAfter: u64)

  datatype Multisig = Multisig(admins: seq<Address>, threshold: u32)
  datatype AdminOp = Upgrade(hash: nat) | EmergencyStop
  datatype PendingOp = PendingOp(op: AdminOp, approvals: seq<Address>, expiresAt: u64, executed: bool)

  datatype State = State(
    config: Config,
    feeRecipient: Option<Address>,
    allowed: seq<Address>,
    admin: Option<Address>,
    pendingAdmin: Option<Address>,
    multisig: Option<Multisig>,
    ops: map<u64, PendingOp>,
    opCount: u64,
    proposals: map<u64, Proposal>,
    proposalCount: u64,
    voted: set<(u64, Address)>)

  const Initial: State :=
    State(Config(0, 0, 100, 0, false), None, [], None, None, None, map[], 0, map[], 0, {})

  datatype AdminCall =
    | Initialize(caller: Address)
    | ProposeAdmin(caller: Address, newAdmin: Address)
    | AcceptAdmin(caller: Address)
    | SetPaused(caller: Address, nonce: u64, paused: bool)
    | EmergencyPause(caller: Address)
    | SetMinDeposit(caller: Address, nonce: u64, amount: i128)
    | SetProtocolFee(caller: Address, nonce: u64, feeBps: u32, recipient: Address)
    | SetMaxStreams(caller: Address, nonce: u64, limit: u32)
    | AddAllowedToken(caller: Address, token: Address)
    | RemoveAllowedToken(caller: Address, token: Address)
    | ProposeParameter(caller: Address, param: GovParam, newValue: u64)
    | Vote(caller: Address, id: u64, support: bool)
    | Tally(id: u64)
    | ExecuteProposal(id: u64)
    | ConfigureMultisig(caller: Address, admins: seq<Address>, threshold: u32)
    | MultisigPropose(caller: Address, op: AdminOp)
    | MultisigApprove(caller: Address, id: u64)

  /** The new state and, for calls that create something, its identifier. */
  datatype Ruling = Ruling(state: State, id: Option<u64>)

  function IsAdmin(c: State, caller: Address): Check {
    Need(c.admin == Some(caller))
  }

  /** Checks and bumps the replay nonce. */
  function UseNonce(config: Config, nonce: u64): Option<Config> {
    if nonce != config.adminNonce then None else
    :- Need(config.adminNonce < U64_MAX);
    Some(config.(adminNonce := config.adminNonce + 1))
  }

  function IsTokenAllowed(c: State, token: Address): bool {
    c.allowed == [] || token in c.allowed
  }

  function Without(list: seq<Address>, token: Address): seq<Address> {
    if list == [] then [] else
      (if list[0] == token then [] else [list[0]]) + Without(list[1..], token)
  }

  function ApplyProposal(config: Config, p: Proposal): Config {
    match p.param
    case MinDeposit => config.(minDeposit := p.newValue)
    case MaxDuration => config.(maxStreams := p.newValue % (U32_MAX + 1))
    case FeeBps => config.(feeBps := p.newValue % (U32_MAX + 1))
  }

  function OpenProposal(c: State, now: u64, param: GovParam, newValue: u64): Option<Ruling> {
    if c.proposalCount == U64_MAX || now + GOV_TIMELOCK > U64_MAX then None else
    var id := c.proposalCount + 1;
    Some(Ruling(c.(proposals := c.proposals[id := Proposal(param, newValue, 0, 0, Open, now + GOV_TIMELOCK)],
                   proposalCount := id), Some(id)))
  }

  function CastVote(c: State, voter: Address, id: u64, support: bool): Option<Ruling> {
    if id !in c.proposals then None else
    var p := c.proposals[id];
    :- Need(p.status == Open);
    :- Need((id, voter) !in c.voted);
    :- Need(if support then p.votesFor < U64_MAX else p.votesAgainst < U64_MAX);
    var p' := if support then p.(votesFor := p.votesFor + 1) else p.(votesAgainst := p.votesAgainst + 1);
    Some(Ruling(c.(voted := c.voted + {(id, voter)}, proposals := c.proposals[id := p']), None))
  }

  function TallyProposal(c: State, id: u64): Option<Ruling> {
    if id !in c.proposals then None else
    var p := c.proposals[id];
    :- Need(p.status == Open);
    var verdict := if p.votesFor > p.votesAgainst then Passed else Rejected;
    Some(Ruling(c.(proposals := c.proposals[id := p.(status := verdict)]), None))
  }

  function Execute(c: State, now: u64, id: u64): Option<Ruling> {
    if id !in c.proposals then None else
    var p := c.proposals[id];
    :- Need(p.status == Passed);
    :- Need(now >= p.executableAfter);
    Some(Ruling(c.(config := ApplyProposal(c.config, p),
                   proposals := c.proposals[id := p.(status := Executed)]), None))
  }

  function ProposeOp(c: State, now: u64, caller: Address, op: AdminOp): Option<Ruling> {
    var m :- c.multisig;
    :- Need(caller in m.admins);
    :- Need(c.opCount < U64_MAX && now + MULTISIG_OP_TTL <= U64_MAX);
    var id := c.opCount + 1;
    Some(Ruling(c.(ops := c.ops[id := PendingOp(op, [caller], now + MULTISIG_OP_TTL, false)], opCount := id), Some(id)))
  }

  function ApproveOp(c: State, now: u64, caller: Address, id: u64): Option<Ruling> {
    var m :- c.multisig;
    :- Need(caller in m.admins);
    :- Need(id in c.ops);
    var p := c.ops[id];
    :- Need(!p.executed);
    :- Need(now < p.expiresAt);
    :- Need(caller !in p.approvals);
    var approvals := p.approvals + [caller];
    var fires := |approvals| >= m.threshold;
    var config := if fires && p.op.EmergencyStop? then c.config.(paused := true) else c.config;
    Some(Ruling(c.(config := config, ops := c.ops[id := p.(approvals := approvals, executed := fires)]), None))
  }

  /** One administrative call; `None` when it panics. */
  function Apply(c: State, now: u64, call: AdminCall): Option<Ruling> {
    match call
    case Initialize(caller) => Some(Ruling(c.(admin := Some(caller)), None))
    case ProposeAdmin(caller, newAdmin) =>
      :- IsAdmin(c, caller);
      Some(Ruling(c.(pendingAdmin := Some(newAdmin)), None))
    case AcceptAdmin(caller) =>
      :- Need(c.pendingAdmin == Some(caller));
      Some(Ruling(c.(admin := Some(caller), pendingAdmin := None), None))
    case SetPaused(caller, nonce, paused) =>
      :- IsAdmin(c, caller);
      var config :- UseNonce(c.config, nonce);
      Some(Ruling(c.(config := config.(paused := paused)), None))
    case EmergencyPause(caller) =>
      :- IsAdmin(c, caller);
      Some(Ruling(c.(config := c.config.(paused := true)), None))
    case SetMinDeposit(caller, nonce, amount) =>
      :- IsAdmin(c, caller);
      var config :- UseNonce(c.config, nonce);
      :- Need(amount > 0);
      Some(Ruling(c.(config := config.(minDeposit := amount)), None))
    case SetProtocolFee(caller, nonce, feeBps, recipient) =>
      :- IsAdmin(c, caller);
      var config :- UseNonce(c.config, nonce);
      :- Need(feeBps <= 100);
      Some(Ruling(c.(config := config.(feeBps := feeBps), feeRecipient := Some(recipient)), None))
    case SetMaxStreams(caller, nonce, limit) =>
      :- IsAdmin(c, caller);
      var config :- UseNonce(c.config, nonce);
      Some(Ruling(c.(config := config.(maxStreams := limit)), None))
    case AddAllowedToken(caller, token) =>
      :- IsAdmin(c, caller);
      Some(Ruling(if token in c.allowed then c else c.(allowed := c.allowed + [token]), None))
    case RemoveAllowedToken(caller, token) =>
      :- IsAdmin(c, caller);
      Some(Ruling(c.(allowed := Without(c.allowed, token)), None))
    case ProposeParameter(_, param, newValue) => OpenProposal(c, now, param, newValue)
    case Vote(caller, id, support) => CastVote(c, caller, id, support)
    case Tally(id) => TallyProposal(c, id)
    case ExecuteProposal(id) => Execute(c, now, id)
    case ConfigureMultisig(caller, admins, threshold) =>
      :- IsAdmin(c, caller);
      :- Need(0 < threshold <= |admins|);
      Some(Ruling(c.(multisig := Some(Multisig(admins, threshold))), None))
    case MultisigPropose(caller, op) => ProposeOp(c, now, caller, op)
    case MultisigApprove(caller, id) => ApproveOp(c, now, caller, id)
  }
}
