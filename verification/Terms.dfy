/** Who may call each entry point and when, what the caller is told, and that a stream is stored on the very
    terms it was asked for. */
module Terms {
  import opened Common
  import opened Streams
  import opened World
  import opened Steps
  import opened Lifecycle
  import opened Payouts
  import opened Solvency
  import Control
  import MapSums
  import Token

  // ----- who may call, and when

  /** The callers of each operation: a withdrawal and a transfer are the employee's, a top-up, pause or resume
      the employer's or the delegate's, everything else the employer's; a hand-over is accepted by the address
      it was offered to, and anybody may read. */
  predicate MayCall(e: Env, s: Stream, op: StreamOp) {
    match op
    case Withdraw(a) => a == s.employee
    case TopUp(a, _) => a == s.employer || s.delegate == Some(a)
    case Pause(a) => a == s.employer || s.delegate == Some(a)
    case Resume(a) => a == s.employer || s.delegate == Some(a)
    case Cancel(a) => a == s.employer
    case UpdateRate(a, _) => a == s.employer
    case Get => true
    case Reclaim(a) => a == s.employer
    case TransferStream(a, _) => a == s.employee
    case SetDelegate(a, _) => a == s.employer
    case ProposeEmployer(a, _) => a == s.employer
    case AcceptEmployer(a) => e.pending == Some(a)
  }

  /** The state of the stream and the clock allow the operation, whoever calls. */
  predicate InOrder(e: Env, s: Stream, op: StreamOp) {
    match op
    case Withdraw(_) =>
      && !e.paused && s.status in {Active, Exhausted}
      && (s.status == Active && s.cooldown > 0 ==>
            e.now >= s.lastWithdrawTime + s.cooldown || e.now == U64_MAX)
    case TopUp(_, amount) => s.status in {Active, Paused} && 0 < amount && s.deposit + amount <= I128_MAX
    case Pause(_) => s.status == Active
    case Resume(_) => s.status == Paused
    case Cancel(_) => s.status in {Active, Paused}
    case UpdateRate(_, newRate) => s.status == Active && 0 < newRate <= 1_000_000_000
    case Get => true
    case Reclaim(_) => s.status in {Active, Paused} && 0 < s.stopTime <= e.now
    case TransferStream(_, _) => s.status in {Active, Paused}
    case _ => true
  }

  /** Money apart, an operation is accepted exactly when its caller may call it and it is in order. */
  lemma DecidesIff(e: Env, s: Stream, op: StreamOp)
    requires StreamOk(s, e.now)
    ensures Decide(e, s, op).Some? <==> MayCall(e, s, op) && InOrder(e, s, op)
  {
    ClaimableIsOwed(s, e.now, e.now);
    ClaimableIsOwed(s, e.now, s.stopTime);
  }

  /** An accepted operation on a stored stream was called by somebody who may, and was in order. */
  lemma AcceptedMeansAllowed(w: World, id: u64, op: StreamOp)
    requires WorldOk(w) && Operate(w, id, op).Some?
    ensures MayCall(EnvOf(w, id), w.streams[id], op) && InOrder(EnvOf(w, id), w.streams[id], op)
  {
    DecidesIff(EnvOf(w, id), w.streams[id], op);
  }

  lemma DecisionReplies(e: Env, s: Stream, op: StreamOp)
    requires StreamOk(s, e.now) && Decide(e, s, op).Some?
    ensures var eff := Decide(e, s, op).value;
      match op
      case Withdraw(_) => eff.reply == Number(Max(Owed(s, e.now) - Owed(s, e.now) * e.feeBps / 10_000, 0))
      case Get => eff.reply == Info(eff.after)
      case _ => eff.reply == Unit
  {
    ClaimableIsOwed(s, e.now, e.now);
  }

  lemma SavedReply(w: World, id: u64, op: StreamOp)
    requires Operate(w, id, op).Some?
    ensures id in w.streams && Decide(EnvOf(w, id), w.streams[id], op).Some?
    ensures var r, eff := Operate(w, id, op).value, Decide(EnvOf(w, id), w.streams[id], op).value;
      r.reply == eff.reply && id in r.world.streams && r.world.streams[id] == eff.after
  {
  }

  /** The caller of a withdrawal is told what it was paid, a reader the stream as it then is, others nothing. */
  lemma RepliesTell(w: World, id: u64, op: StreamOp)
    requires WorldOk(w) && Operate(w, id, op).Some?
    ensures id in Operate(w, id, op).value.world.streams
    ensures var r, s, now := Operate(w, id, op).value, w.streams[id], w.now;
      && (op.Withdraw? ==>
            r.reply == Number(Max(Owed(s, now) - Owed(s, now) * w.control.config.feeBps / 10_000, 0)))
      && (op.Get? ==> r.reply == Info(r.world.streams[id]))
      && (!op.Withdraw? && !op.Get? ==> r.reply == Unit)
  {
    SavedReply(w, id, op);
    DecisionReplies(EnvOf(w, id), w.streams[id], op);
  }

  // ----- hand-overs

  /** To whom the stream is offered: the last offer, until it is accepted. */
  ghost function OfferedTo(w: World, calls: seq<Call>, id: u64): Option<Address> {
    if calls == [] then None else
      var n := |calls| - 1;
      var v, c := RunTo(w, calls[..n]), calls[n];
      if c.OnStream? && c.id == id && Exec(v, c).Some? && c.op.ProposeEmployer? then Some(c.op.newEmployer)
      else if c.OnStream? && c.id == id && Exec(v, c).Some? && c.op.AcceptEmployer? then None
      else OfferedTo(w, calls[..n], id)
  }

  lemma OperateOffers(w: World, k: u64, op: StreamOp, id: u64)
    requires Operate(w, k, op).Some?
    ensures Slot(Operate(w, k, op).value.world.pendingEmployer, id) ==
      if k != id then Slot(w.pendingEmployer, id)
      else if op.ProposeEmployer? then Some(op.newEmployer)
      else if op.AcceptEmployer? then None
      else Slot(w.pendingEmployer, id)
  {
  }

  lemma {:induction false} CreateEachOffersNothing(w: World, employer: Address, list: seq<Params>)
    requires CreateEach(w, employer, list).Some?
    ensures CreateEach(w, employer, list).value.world.pendingEmployer == w.pendingEmployer
  {
    if list != [] {
      CreateEachOffersNothing(w, employer, list[..|list| - 1]);
    }
  }

  lemma OfferStep(w: World, c: Call, id: u64)
    ensures Slot(After(w, c).pendingEmployer, id) ==
      if c.OnStream? && c.id == id && Exec(w, c).Some? && c.op.ProposeEmployer? then Some(c.op.newEmployer)
      else if c.OnStream? && c.id == id && Exec(w, c).Some? && c.op.AcceptEmployer? then None
      else Slot(w.pendingEmployer, id)
  {
    if Exec(w, c).Some? {
      match c
      case OnStream(k, op) => OperateOffers(w, k, op, id);
      case CreateBatch(employer, list) => CreateEachOffersNothing(w, employer, list);
      case _ =>
    }
  }

  lemma {:induction false} OfferIsPending(w: World, calls: seq<Call>, id: u64)
    requires Genesis(w)
    ensures Slot(RunTo(w, calls).pendingEmployer, id) == OfferedTo(w, calls, id)
  {
    if calls != [] {
      var n := |calls| - 1;
      OfferIsPending(w, calls[..n], id);
      OfferStep(RunTo(w, calls[..n]), calls[n], id);
    }
  }

  /** In every run, a hand-over is accepted exactly when the stream's last open offer was to that address. */
  lemma HandOverNeedsOffer(w: World, calls: seq<Call>, id: u64, a: Address)
    requires Genesis(w) && id in RunTo(w, calls).streams
    ensures Exec(RunTo(w, calls), OnStream(id, AcceptEmployer(a))).Some? <==> OfferedTo(w, calls, id) == Some(a)
  {
    OfferIsPending(w, calls, id);
  }

  // ----- the terms of a creation

  /** The stream stored under `id` has the terms asked for, field by field; its deposit is what is left after the
      fee, and nothing has been drawn from it. */
  predicate HasTerms(s: Stream, id: int, employer: Address, p: Params, cooldown: u64, fee: int, now: u64) {
    && s.id == id && s.employer == employer && s.employee == p.employee && s.token == p.token
    && s.deposit == p.deposit - fee && s.withdrawn == 0 && s.rate == p.rate
    && s.stopTime == p.stopTime && s.cliffTime == p.cliffTime && s.cooldown == cooldown
    && s.startTime == now && s.lastWithdrawTime == now && s.pausedAt == 0
    && s.status == Active && !s.locked && s.delegate == None
  }

  /** What a creation was checked for. */
  predicate SoundTerms(w: World, employer: Address, p: Params) {
    && !w.control.config.paused && w.control.config.minDeposit <= p.deposit
    && 0 < p.rate <= 1_000_000_000 && 60 * p.rate <= p.deposit && employer != p.employee
    && (0 < p.stopTime ==> w.now < p.stopTime <= w.now + 315_360_000)
    && (0 < p.stopTime && 0 < p.cliffTime ==> p.cliffTime <= p.stopTime)
    && (w.control.allowed == [] || p.token in w.control.allowed)
    && |Lookup(w.employerIndex, employer, [])| < w.control.config.maxStreams
  }

  /** An accepted creation replies with the next id, stores exactly one stream under it, on the terms asked for,
      and those terms passed the checks. */
  lemma CreationHasTerms(w: World, employer: Address, p: Params, cooldown: u64)
    requires CreateOne(w, employer, p, cooldown).Some?
    ensures var o, id := CreateOne(w, employer, p, cooldown).value, w.streamCount + 1;
      && o.reply == Ids([id]) && o.world.streamCount == id
      && id in o.world.streams && o.world.streams == w.streams[id := o.world.streams[id]]
      && HasTerms(o.world.streams[id], id, employer, p, cooldown, CreationFee(w.control, p.deposit), w.now)
    ensures SoundTerms(w, employer, p)
  {
  }

  lemma {:induction false} BatchNumbers(w: World, employer: Address, list: seq<Params>)
    requires WorldOk(w) && CreateEach(w, employer, list).Some?
    ensures var o := CreateEach(w, employer, list).value;
      && o.world.streamCount == w.streamCount + |list| && o.world.control == w.control && o.world.now == w.now
      && o.reply.Ids? && |o.reply.ids| == |list|
      && (forall i :: 0 <= i < |list| ==> o.reply.ids[i] == w.streamCount + 1 + i)
  {
    if list != [] {
      var n := |list| - 1;
      BatchNumbers(w, employer, list[..n]);
      CreateEachMeaning(w, employer, list[..n]);
      CreationHasTerms(CreateEach(w, employer, list[..n]).value.world, employer, list[n], 0);
      CreateOneMeaning(CreateEach(w, employer, list[..n]).value.world, employer, list[n], 0);
    }
  }

  lemma TermsAdmit(w: World, employer: Address, p: Params)
    requires SoundTerms(w, employer, p) && p.token in w.tokens
    requires StreamedSeconds(p.deposit, p.rate) <= MAX_STREAM_DURATION <==> p.deposit / p.rate <= MAX_STREAM_DURATION
    ensures Admits(w, employer, p) <==> p.deposit / p.rate <= 315_360_000
  {
  }

  lemma DepositIsFundable(w: World, employer: Address, p: Params)
    requires TokensSound(w.tokens) && p.token in w.tokens && p.deposit <= BalanceAt(w.tokens, p.token, employer)
    ensures p.deposit <= Token.MAX_SUPPLY
  {
    MapSums.SumBoundsEntries(w.tokens[p.token].balances);
  }

  /** Beside sound tokens, with every condition spelled out: a creation is accepted exactly when the contract is
      not paused, the employer has room in its index, the deposit reaches the minimum, pays for a minute and for
      ten years at most, the rate, stop time and cliff are in range, nobody pays itself, the token exists and is
      allowed, the employer holds the deposit, the fee leaves both sides something, and an id is left. */
  lemma CreationAcceptedIff(w: World, employer: Address, p: Params, cooldown: u64)
    requires TokensSound(w.tokens) && employer != SELF
    ensures CreateOne(w, employer, p, cooldown).Some? <==>
      && SoundTerms(w, employer, p) && p.deposit / p.rate <= 315_360_000
      && p.token in w.tokens && p.deposit <= BalanceAt(w.tokens, p.token, employer)
      && (w.control.config.feeBps > 0 && w.control.feeRecipient.Some? ==>
            10_000 <= p.deposit * w.control.config.feeBps && w.control.config.feeBps < 10_000)
      && w.streamCount < U64_MAX
  {
    CreateAcceptedIff(w, employer, p, cooldown);
    if SoundTerms(w, employer, p) && p.token in w.tokens && p.deposit <= BalanceAt(w.tokens, p.token, employer) {
      DepositIsFundable(w, employer, p);
      QuotientBound(p.deposit, p.rate);
      DurationCapTruncates(p.deposit, p.rate);
      TermsAdmit(w, employer, p);
    }
    if CreateOne(w, employer, p, cooldown).Some? {
      CreationHasTerms(w, employer, p, cooldown);
      AcceptedDurationIsCapped(w, employer, p, cooldown);
    }
  }

  lemma BatchUnfolds(w: World, employer: Address, list: seq<Params>)
    requires CreateEach(w, employer, list).Some? && list != []
    ensures var n := |list| - 1;
      && CreateEach(w, employer, list[..n]).Some?
      && var mid := CreateEach(w, employer, list[..n]).value.world;
         && CreateOne(mid, employer, list[n], 0).Some?
         && CreateEach(w, employer, list).value.world == CreateOne(mid, employer, list[n], 0).value.world
  {
  }

  /** Stream `id` is there, with the terms of `p` and no cooldown. */
  predicate Listed(w: World, id: int, employer: Address, p: Params, fee: int, now: u64) {
    id in w.streams && HasTerms(w.streams[id], id, employer, p, 0, fee, now)
  }

  lemma OneListed(w: World, employer: Address, p: Params, id: int, fee: int, now: u64)
    requires CreateOne(w, employer, p, 0).Some? && id == w.streamCount + 1 && now == w.now
    requires fee == CreationFee(w.control, p.deposit)
    ensures Listed(CreateOne(w, employer, p, 0).value.world, id, employer, p, fee, now)
  {
    CreationHasTerms(w, employer, p, 0);
  }

  lemma {:induction false} BatchCounts(w: World, employer: Address, list: seq<Params>)
    requires CreateEach(w, employer, list).Some?
    ensures var w' := CreateEach(w, employer, list).value.world;
      w'.streamCount == w.streamCount + |list| && w'.now == w.now && w'.control == w.control
  {
    if list != [] {
      BatchCounts(w, employer, list[..|list| - 1]);
    }
  }

  lemma NextNumber(w: World, employer: Address, list: seq<Params>, id: int)
    requires list != [] && CreateEach(w, employer, list[..|list| - 1]).Some? && id == w.streamCount + |list|
    ensures var mid := CreateEach(w, employer, list[..|list| - 1]).value.world;
      id == mid.streamCount + 1 && mid.now == w.now && mid.control == w.control
  {
    BatchCounts(w, employer, list[..|list| - 1]);
  }

  lemma LastListed(w: World, employer: Address, list: seq<Params>, id: int, p: Params, fee: int)
    requires CreateEach(w, employer, list).Some? && list != [] && id == w.streamCount + |list|
    requires p == list[|list| - 1] && fee == CreationFee(w.control, p.deposit)
    ensures Listed(CreateEach(w, employer, list).value.world, id, employer, p, fee, w.now)
  {
    BatchUnfolds(w, employer, list);
    NextNumber(w, employer, list, id);
    OneListed(CreateEach(w, employer, list[..|list| - 1]).value.world, employer, p, id, fee, w.now);
  }

  lemma OneStays(mid: World, employer: Address, p: Params, id: int, q: Params, fee: int, now: u64)
    requires WorldOk(mid) && CreateOne(mid, employer, p, 0).Some? && Listed(mid, id, employer, q, fee, now)
    ensures Listed(CreateOne(mid, employer, p, 0).value.world, id, employer, q, fee, now)
  {
    CreateOneMeaning(mid, employer, p, 0);
  }

  lemma StaysListed(w: World, employer: Address, list: seq<Params>, id: int, q: Params, fee: int, now: u64)
    requires WorldOk(w) && CreateEach(w, employer, list).Some? && list != []
    requires CreateEach(w, employer, list[..|list| - 1]).Some?
    requires Listed(CreateEach(w, employer, list[..|list| - 1]).value.world, id, employer, q, fee, now)
    ensures Listed(CreateEach(w, employer, list).value.world, id, employer, q, fee, now)
  {
    var n := |list| - 1;
    BatchUnfolds(w, employer, list);
    CreateEachMeaning(w, employer, list[..n]);
    OneStays(CreateEach(w, employer, list[..n]).value.world, employer, list[n], id, q, fee, now);
  }

  lemma {:induction false} BatchListed(w: World, employer: Address, list: seq<Params>, i: nat, id: int, p: Params,
                                       fee: int)
    requires WorldOk(w) && CreateEach(w, employer, list).Some?
    requires i < |list| && id == w.streamCount + 1 + i && p == list[i] && fee == CreationFee(w.control, p.deposit)
    ensures Listed(CreateEach(w, employer, list).value.world, id, employer, p, fee, w.now)
  {
    if i == |list| - 1 {
      LastListed(w, employer, list, id, p, fee);
    } else {
      BatchUnfolds(w, employer, list);
      BatchListed(w, employer, list[..|list| - 1], i, id, p, fee);
      StaysListed(w, employer, list, id, p, fee, w.now);
    }
  }

  /** An accepted batch stores its streams under consecutive ids, each on its own terms and without a cooldown,
      and replies with those ids in order. */
  lemma BatchHasTerms(w: World, employer: Address, list: seq<Params>, i: nat)
    requires WorldOk(w) && CreateEach(w, employer, list).Some? && i < |list|
    ensures var o, id := CreateEach(w, employer, list).value, w.streamCount + 1 + i;
      && o.reply.Ids? && |o.reply.ids| == |list| && o.reply.ids[i] == id
      && Listed(o.world, id, employer, list[i], CreationFee(w.control, list[i].deposit), w.now)
  {
    BatchNumbers(w, employer, list);
    BatchListed(w, employer, list, i, w.streamCount + 1 + i, list[i], CreationFee(w.control, list[i].deposit));
  }

  // ----- the cooldown asked for

  /** Call `k` of the run creates stream `id` on its own with a cooldown of `cooldown`. */
  predicate Asks(w: World, calls: seq<Call>, k: nat, id: u64, cooldown: u64)
    requires k < |calls|
  {
    && calls[k].Create? && calls[k].cooldown == cooldown
    && Exec(At(w, calls, k), calls[k]).Some? && Exec(At(w, calls, k), calls[k]).value.reply == Ids([id])
  }

  /** Any two paying withdrawals from a stream are at least the cooldown apart that its creating call asked for,
      and the first comes at least that long after the creation, except at the very end of u64 time. */
  lemma CooldownAsAsked(w: World, calls: seq<Call>, k: nat, i: nat, j: nat, id: u64, cooldown: u64)
    requires Genesis(w) && k < i <= j < |calls| && Asks(w, calls, k, id, cooldown)
    requires Pays(w, calls, i, id) && Pays(w, calls, j, id)
    ensures At(w, calls, k).now + cooldown <= At(w, calls, i).now || At(w, calls, i).now == U64_MAX
    ensures i < j ==> At(w, calls, i).now + cooldown <= At(w, calls, j).now || At(w, calls, j).now == U64_MAX
  {
    var v, c := At(w, calls, k), calls[k];
    AtStep(w, calls, k);
    CreationHasTerms(v, c.employer, c.params, c.cooldown);
    LaterInRun(w, calls, k + 1, i, id);
    PaidMoves(w, calls, i, id);
    if i < j {
      CooldownSpacing(w, calls, i, j, id);
    }
  }
}
