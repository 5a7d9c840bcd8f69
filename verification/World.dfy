/** The stream contract composed with the token ledgers it pays from: one value for the whole
    state, one function per entry point, and runs as lists of attempted calls. */
module World {
  import opened Common
  import opened Streams
  import Control
  import Token

  datatype World = World(
    now: u64,
    streams: map<u64, Stream>,
    streamCount: u64,
    tokens: map<Address, Token.Ledger>,
    control: Control.State,
    feeBalance: map<Address, i128>,
    employerIndex: map<Address, seq<u64>>,
    employeeIndex: map<Address, seq<u64>>,
    pauseHistory: map<u64, seq<PauseEvent>>,
    pendingEmployer: map<u64, Address>)

  /** What a call returns to its caller. */
  datatype Reply = Unit | Number(n: int) | Ids(ids: seq<u64>) | Info(stream: Stream)

  datatype Outcome = Outcome(world: World, reply: Reply)

  datatype StreamOp =
    | Withdraw(employee: Address)
    | TopUp(caller: Address, amount: i128)
    | Pause(caller: Address)
    | Resume(caller: Address)
    | Cancel(employer: Address)
    | UpdateRate(employer: Address, newRate: i128)
    | Get
    | Reclaim(employer: Address)
    | TransferStream(employee: Address, newEmployee: Address)
    | SetDelegate(employer: Address, delegate: Option<Address>)
    | ProposeEmployer(employer: Address, newEmployer: Address)
    | AcceptEmployer(newEmployer: Address)

  datatype Call =
    | Tick
    | Create(employer: Address, params: Params, cooldown: u64)
    | CreateBatch(employer: Address, list: seq<Params>)
    | OnStream(id: u64, op: StreamOp)
    | WithdrawFees(admin: Address, token: Address, amount: i128)
    | Admin(adminCall: Control.AdminCall)
    | Outside(token: Address, tokenCall: Token.TokenCall)

  // ----- decisions about one stream

  /** One token transfer requested by the contract. */
  datatype Transfer = Transfer(from: Address, to: Address, amount: i128)

  /** The part of the contract state that an operation on one stream reads. */
  datatype Env = Env(
    now: u64,
    paused: bool,
    feeBps: u32,
    feeRecipient: Option<Address>,
    pending: Option<Address>)

  /** What an accepted operation does: the stream it saves, the transfers it makes in order, the fee it
      books, the pause event it records and the pending employer it leaves. */
  datatype Effect = Effect(
    after: Stream,
    transfers: seq<Transfer>,
    booked: i128,
    event: Option<bool>,
    pending: Option<Address>,
    reply: Reply)

  predicate Manages(s: Stream, caller: Address) {
    caller == s.employer || s.delegate == Some(caller)
  }

  predicate CooledDown(s: Stream, now: u64) {
    s.status == Active && s.cooldown > 0 ==> now >= SatAdd(s.lastWithdrawTime, s.cooldown)
  }

  function Fee(amount: i128, feeBps: u32): (fee: Option<i128>)
    requires amount >= 0
    ensures fee.Some? ==> 0 <= fee.value
  {
    if feeBps == 0 then Some(0) else
      var product :- Checked(amount * feeBps);
      Some(product / 10_000)
  }

  /** Pays `gross` out of the stream: the fee to its recipient, if there is one, the rest to the employee. */
  function PayOut(e: Env, s: Stream, employee: Address, gross: i128, fee: i128): Option<Effect> {
    var net :- Checked(Max(gross - fee, 0));
    var withdrawn :- Checked(s.withdrawn + gross);
    var levy := if fee > 0 && e.feeRecipient.Some? then [Transfer(SELF, e.feeRecipient.value, fee)] else [];
    Some(Effect(
      s.(withdrawn := withdrawn, lastWithdrawTime := e.now, locked := false,
         status := if withdrawn >= s.deposit then Exhausted else s.status),
      levy + [Transfer(SELF, employee, net)],
      if fee > 0 && e.feeRecipient.Some? then fee else 0, None, e.pending, Number(net)))
  }

  function DecideWithdraw(e: Env, s: Stream, employee: Address): Option<Effect> {
    if e.paused then None else
    :- Need(employee == s.employee);
    :- Need(s.status == Active || s.status == Exhausted);
    :- Need(CooledDown(s, e.now));
    var gross :- ClaimableAmount(s, e.now);
    if gross == 0 then Some(Effect(s, [], 0, None, e.pending, Number(0))) else
      :- Need(!s.locked);
      var fee :- Fee(gross, e.feeBps);
      PayOut(e, s, employee, gross, fee)
  }

  function DecideTopUp(e: Env, s: Stream, caller: Address, amount: i128): Option<Effect> {
    if amount <= 0 then None else
    :- Need(Manages(s, caller));
    :- Need(!IsTerminal(s.status));
    var deposit :- Checked(s.deposit + amount);
    Some(Effect(s.(deposit := deposit), [Transfer(caller, SELF, amount)], 0, None, e.pending, Unit))
  }

  function DecidePause(e: Env, s: Stream, caller: Address): Option<Effect> {
    if !Manages(s, caller) then None else
    :- Need(s.status == Active && IsValidTransition(s.status, Paused));
    Some(Effect(s.(pausedAt := e.now, status := Paused), [], 0, Some(true), e.pending, Unit))
  }

  function DecideResume(e: Env, s: Stream, caller: Address): Option<Effect> {
    if !Manages(s, caller) then None else
    :- Need(s.status == Paused && IsValidTransition(s.status, Active));
    var pausedFor := SatSub(e.now, s.pausedAt);
    Some(Effect(s.(lastWithdrawTime := SatAdd(s.lastWithdrawTime, pausedFor), pausedAt := 0, status := Active),
                [], 0, Some(false), e.pending, Unit))
  }

  /** Pays the employee `claimable` and the employer the rest, then closes the stream as `end`. */
  function Settle(e: Env, s: Stream, employer: Address, end: Status, claimable: i128): Option<Effect> {
    var withdrawn :- Checked(s.withdrawn + claimable);
    var refund := RemainingDeposit(s.(withdrawn := withdrawn));
    Some(Effect(s.(withdrawn := withdrawn, status := end),
                (if claimable > 0 then [Transfer(SELF, s.employee, claimable)] else [])
                + (if refund > 0 then [Transfer(SELF, employer, refund)] else []),
                0, None, e.pending, Unit))
  }

  function SettleAs(e: Env, s: Stream, employer: Address, end: Status): Option<Effect> {
    var claimable :- ClaimableAmount(s, e.now);
    Settle(e, s, employer, end, claimable)
  }

  function DecideCancel(e: Env, s: Stream, employer: Address): Option<Effect> {
    if employer != s.employer then None else
    :- Need(IsValidTransition(s.status, Cancelled));
    SettleAs(e, s, employer, Cancelled)
  }

  function DecideReclaim(e: Env, s: Stream, employer: Address): Option<Effect> {
    if employer != s.employer then None else
    :- Need(s.status == Active || s.status == Paused);
    :- Need(s.stopTime > 0 && e.now >= s.stopTime);
    SettleAs(e, s, employer, Exhausted)
  }

  function DecideUpdateRate(e: Env, s: Stream, employer: Address, newRate: i128): Option<Effect> {
    if newRate <= 0 || newRate > MAX_RATE_PER_SECOND then None else
    :- Need(employer == s.employer);
    :- Need(s.status == Active);
    var accrued :- ClaimableAmount(s, e.now);
    var withdrawn :- Checked(s.withdrawn + accrued);
    Some(Effect(s.(withdrawn := withdrawn, lastWithdrawTime := e.now, rate := newRate), [], 0, None, e.pending, Unit))
  }

  /** `get_stream` closes an active stream past its stop time once the deposit is fully streamed. */
  function DecideGet(e: Env, s: Stream): Option<Effect> {
    if s.status == Active && s.stopTime > 0 && e.now >= s.stopTime then
      var claimable :- ClaimableAmount(s, e.now);
      if claimable == 0 && s.withdrawn >= s.deposit then
        var after := s.(status := Exhausted);
        Some(Effect(after, [], 0, None, e.pending, Info(after)))
      else
        var earnedAtStop :- ClaimableAmount(s, s.stopTime);
        var streamed := Checked(s.withdrawn + earnedAtStop).Or(s.deposit);
        var after := if streamed >= s.deposit then s.(status := Exhausted) else s;
        Some(Effect(after, [], 0, None, e.pending, Info(after)))
    else
      Some(Effect(s, [], 0, None, e.pending, Info(s)))
  }

  function Decide(e: Env, s: Stream, op: StreamOp): Option<Effect> {
    match op
    case Withdraw(employee) => DecideWithdraw(e, s, employee)
    case TopUp(caller, amount) => DecideTopUp(e, s, caller, amount)
    case Pause(caller) => DecidePause(e, s, caller)
    case Resume(caller) => DecideResume(e, s, caller)
    case Cancel(employer) => DecideCancel(e, s, employer)
    case UpdateRate(employer, newRate) => DecideUpdateRate(e, s, employer, newRate)
    case Get => DecideGet(e, s)
    case Reclaim(employer) => DecideReclaim(e, s, employer)
    case TransferStream(employee, newEmployee) =>
      :- Need(employee == s.employee);
      :- Need(s.status == Active || s.status == Paused);
      Some(Effect(s.(employee := newEmployee), [], 0, None, e.pending, Unit))
    case SetDelegate(employer, delegate) =>
      :- Need(employer == s.employer);
      Some(Effect(s.(delegate := delegate), [], 0, None, e.pending, Unit))
    case ProposeEmployer(employer, newEmployer) =>
      :- Need(employer == s.employer);
      Some(Effect(s, [], 0, None, Some(newEmployer), Unit))
    case AcceptEmployer(newEmployer) =>
      :- Need(e.pending == Some(newEmployer));
      Some(Effect(s.(employer := newEmployer), [], 0, None, None, Unit))
  }

  // ----- applying a decision to the world

  /** One token transfer on the ledger of `token`; rejected when no such token contract exists. */
  function PayOne(tokens: map<Address, Token.Ledger>, token: Address, t: Transfer): Option<map<Address, Token.Ledger>> {
    if token !in tokens then None else
    var ledger :- Token.Pay(tokens[token], t.from, t.to, t.amount);
    Some(tokens[token := ledger])
  }

  function PayAll(tokens: map<Address, Token.Ledger>, token: Address, ts: seq<Transfer>)
    : Option<map<Address, Token.Ledger>>
  {
    if ts == [] then Some(tokens) else
      var tokens1 :- PayOne(tokens, token, ts[0]);
      PayAll(tokens1, token, ts[1..])
  }

  function Slot<K, V>(m: map<K, V>, k: K): Option<V> {
    if k in m then Some(m[k]) else None
  }

  function SetSlot<K, V>(m: map<K, V>, k: K, v: Option<V>): map<K, V> {
    if v.Some? then m[k := v.value] else m - {k}
  }

  function EnvOf(w: World, id: u64): Env {
    Env(w.now, w.control.config.paused, w.control.config.feeBps, w.control.feeRecipient, Slot(w.pendingEmployer, id))
  }

  /** `add_fee_balance`: on overflow the old balance is kept. */
  function Book(fees: map<Address, i128>, token: Address, amount: i128): map<Address, i128> {
    if amount == 0 then fees else
      var current := Lookup(fees, token, 0);
      fees[token := Checked(current + amount).Or(current)]
  }

  function Record(history: map<u64, seq<PauseEvent>>, id: u64, now: u64, event: Option<bool>)
    : map<u64, seq<PauseEvent>>
  {
    if event.None? then history
    else history[id := Lookup(history, id, []) + [PauseEvent(now, event.value)]]
  }

  /** Carries out a decision: all transfers, then the writes. */
  function Save(w: World, id: u64, effect: Effect): Option<Outcome> {
    var token := effect.after.token;
    var tokens :- PayAll(w.tokens, token, effect.transfers);
    Some(Outcome(
      w.(streams := w.streams[id := effect.after],
         tokens := tokens,
         feeBalance := Book(w.feeBalance, token, effect.booked),
         pauseHistory := Record(w.pauseHistory, id, w.now, effect.event),
         pendingEmployer := SetSlot(w.pendingEmployer, id, effect.pending)),
      effect.reply))
  }

  function Operate(w: World, id: u64, op: StreamOp): Option<Outcome> {
    if id !in w.streams then None else
    var effect :- Decide(EnvOf(w, id), w.streams[id], op);
    Save(w, id, effect)
  }

  /** The net deposit a new stream starts with and the transfers that fund it. */
  datatype Funding = Funding(net: i128, transfers: seq<Transfer>)

  function Fund(c: Control.State, employer: Address, deposit: i128): Option<Funding>
    requires deposit >= 0
  {
    if c.config.feeBps > 0 && c.feeRecipient.Some? then
      var fee :- Fee(deposit, c.config.feeBps);
      var net :- Checked(deposit - fee);
      Some(Funding(net, [Transfer(employer, SELF, net), Transfer(employer, c.feeRecipient.value, fee)]))
    else
      Some(Funding(deposit, [Transfer(employer, SELF, deposit)]))
  }

  function NewStream(id: u64, employer: Address, p: Params, net: i128, cooldown: u64, now: u64): Stream {
    Stream(id, employer, p.employee, p.token, net, 0, p.rate, now, p.stopTime, now, cooldown, Active, false,
           p.cliffTime, 0, None)
  }

  function Append(index: map<Address, seq<u64>>, a: Address, ids: seq<u64>): map<Address, seq<u64>> {
    index[a := Lookup(index, a, []) + ids]
  }

  /** The checks a creation passes before any money moves. */
  predicate Admits(w: World, employer: Address, p: Params) {
    && !w.control.config.paused
    && |Lookup(w.employerIndex, employer, [])| < w.control.config.maxStreams
    && ValidParams(p, w.control.config.minDeposit, w.now, employer)
    && p.token in w.tokens
    && Control.IsTokenAllowed(w.control, p.token)
  }

  /** The writes of a creation. */
  function Open(w: World, employer: Address, p: Params, cooldown: u64, net: i128, tokens: map<Address, Token.Ledger>)
    : World
    requires w.streamCount < U64_MAX
  {
    var id := w.streamCount + 1;
    w.(streams := w.streams[id := NewStream(id, employer, p, net, cooldown, w.now)],
       streamCount := id,
       tokens := tokens,
       employerIndex := Append(w.employerIndex, employer, [id]),
       employeeIndex := Append(w.employeeIndex, p.employee, [id]))
  }

  function CreateOne(w: World, employer: Address, p: Params, cooldown: u64): Option<Outcome> {
    if !Admits(w, employer, p) then None else
    var funding :- Fund(w.control, employer, p.deposit);
    var tokens :- PayAll(w.tokens, p.token, funding.transfers);
    :- Need(w.streamCount < U64_MAX);
    Some(Outcome(Open(w, employer, p, cooldown, funding.net, tokens), Ids([w.streamCount + 1])))
  }

  /** The naive batch: the same streams created one by one with cooldown 0, all or nothing. */
  function CreateEach(w: World, employer: Address, list: seq<Params>): Option<Outcome> {
    if list == [] then Some(Outcome(w, Ids([]))) else
      var n := |list| - 1;
      var before :- CreateEach(w, employer, list[..n]);
      var last :- CreateOne(before.world, employer, list[n], 0);
      :- Need(before.reply.Ids? && last.reply.Ids?);
      Some(Outcome(last.world, Ids(before.reply.ids + last.reply.ids)))
  }

  function CollectFees(w: World, admin: Address, token: Address, amount: i128): Option<Outcome> {
    if w.control.admin != Some(admin) then None else
    :- Need(amount > 0);
    var balance := Lookup(w.feeBalance, token, 0);
    :- Need(balance >= amount);
    var recipient := w.control.feeRecipient.Or(admin);
    var tokens :- PayOne(w.tokens, token, Transfer(SELF, recipient, amount));
    Some(Outcome(w.(tokens := tokens, feeBalance := w.feeBalance[token := balance - amount]), Unit))
  }

  /** One attempted call; `None` when it panics, and then nothing changes. */
  function Exec(w: World, c: Call): Option<Outcome> {
    match c
    case Tick => if w.now < U64_MAX then Some(Outcome(w.(now := w.now + 1), Unit)) else None
    case Create(employer, p, cooldown) => CreateOne(w, employer, p, cooldown)
    case CreateBatch(employer, list) =>
      :- Need(!w.control.config.paused && list != []);
      CreateEach(w, employer, list)
    case OnStream(id, op) => Operate(w, id, op)
    case WithdrawFees(admin, token, amount) => CollectFees(w, admin, token, amount)
    case Admin(adminCall) =>
      var ruling :- Control.Apply(w.control, w.now, adminCall);
      Some(Outcome(w.(control := ruling.state), if ruling.id.Some? then Number(ruling.id.value) else Unit))
    case Outside(token, tokenCall) =>
      :- Need(token in w.tokens);
      var ledger :- Token.Apply(w.tokens[token], tokenCall);
      Some(Outcome(w.(tokens := w.tokens[token := ledger]), Unit))
  }

  function After(w: World, c: Call): World {
    match Exec(w, c)
    case Some(outcome) => outcome.world
    case None => w
  }

  /** The world after a whole list of attempted calls. */
  function RunTo(w: World, calls: seq<Call>): World {
    if calls == [] then w else After(RunTo(w, calls[..|calls| - 1]), calls[|calls| - 1])
  }

  /** A freshly deployed contract beside any set of token contracts. */
  ghost predicate Genesis(w: World) {
    && w.streams == map[] && w.streamCount == 0
    && w.control == Control.Initial
    && w.feeBalance == map[] && w.employerIndex == map[] && w.employeeIndex == map[]
    && w.pauseHistory == map[] && w.pendingEmployer == map[]
  }
}
