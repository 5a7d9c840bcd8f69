/** The stream contract as the source has it: entry points that load a stream, assign its fields, move
    token balances and save. Each is proved to do exactly what `World.Exec` says. A panic is the reply
    `None`; the host then discards the call's writes, so storage is assigned only at the end of a call. */
module StreamContract {
  import opened Common
  import opened Streams
  import opened World
  import Control
  import Token

  type Ledgers = map<Address, Token.Ledger>

  lemma SlotKept<K, V>(m: map<K, V>, k: K)
    ensures SetSlot(m, k, Slot(m, k)) == m
  {
  }

  /** Paying one list after another is paying both. */
  lemma {:induction false} PayAllConcat(tokens: Ledgers, token: Address, xs: seq<Transfer>, ys: seq<Transfer>)
    ensures PayAll(tokens, token, xs).None? ==> PayAll(tokens, token, xs + ys).None?
    ensures PayAll(tokens, token, xs).Some? ==>
      PayAll(tokens, token, xs + ys) == PayAll(PayAll(tokens, token, xs).value, token, ys)
  {
    if xs == [] {
      assert xs + ys == ys;
    } else {
      assert (xs + ys)[0] == xs[0] && (xs + ys)[1..] == xs[1..] + ys;
      var first := PayOne(tokens, token, xs[0]);
      if first.Some? {
        PayAllConcat(first.value, token, xs[1..], ys);
      }
    }
  }

  lemma PayAllSingle(tokens: Ledgers, token: Address, a: Transfer)
    ensures PayAll(tokens, token, [a]) == PayOne(tokens, token, a)
  {
    assert [a][1..] == [];
  }

  function Listed(t: Option<Transfer>): seq<Transfer> {
    if t.Some? then [t.value] else []
  }

  /** A call whose specified outcome on `w` is `outcome` ends in `w'` and replies `r`. */
  ghost predicate Commits(w: World, outcome: Option<Outcome>, w': World, r: Option<Reply>) {
    if outcome.Some? then w' == outcome.value.world && r == Some(outcome.value.reply)
    else w' == w && r == None
  }

  /** The decision `effect` on `w` ends in `w'`, with success reported as `done`. */
  ghost predicate Saves(w: World, id: u64, effect: Option<Effect>, w': World, done: bool) {
    if effect.Some? && Save(w, id, effect.value).Some?
    then done && w' == Save(w, id, effect.value).value.world
    else !done && w' == w
  }

  /** A decision that records no pause event and leaves the pending employer alone, carried out. */
  lemma SaveQuietly(w: World, id: u64, effect: Effect)
    requires effect.event.None? && effect.pending == Slot(w.pendingEmployer, id)
    ensures var paid := PayAll(w.tokens, effect.after.token, effect.transfers);
      Save(w, id, effect) == if paid.None? then None else
        Some(Outcome(w.(streams := w.streams[id := effect.after], tokens := paid.value,
                        feeBalance := Book(w.feeBalance, effect.after.token, effect.booked)), effect.reply))
  {
    SlotKept(w.pendingEmployer, id);
  }

  /** `net` and `paid` are what taking the deposit for `p` yields on the ledgers of `w`. */
  predicate Deposited(w: World, employer: Address, p: Params, net: i128, paid: Option<Ledgers>)
    requires p.deposit >= 0
  {
    var funding := Fund(w.control, employer, p.deposit);
    if funding.None? then paid == None
    else net == funding.value.net && paid == PayAll(w.tokens, p.token, funding.value.transfers)
  }

  lemma CreateOneIs(w: World, employer: Address, p: Params, cooldown: u64, net: i128, paid: Option<Ledgers>)
    requires Admits(w, employer, p)
    requires Deposited(w, employer, p, net, paid)
    ensures CreateOne(w, employer, p, cooldown) ==
      if paid.Some? && w.streamCount < U64_MAX
      then Some(Outcome(Open(w, employer, p, cooldown, net, paid.value), Ids([w.streamCount + 1])))
      else None
  {
  }

  /** What the batch loop has built so far, before anything is stored. */
  datatype Draft = Draft(
    streams: map<u64, Stream>,
    count: u64,
    ledgers: Ledgers,
    employees: map<Address, seq<u64>>,
    ids: seq<u64>)

  /** The world of a draft, with its employer index as if already written. */
  function Drafted(w: World, employer: Address, d: Draft): World {
    w.(streams := d.streams, streamCount := d.count, tokens := d.ledgers, employeeIndex := d.employees,
       employerIndex := if d.ids == [] then w.employerIndex else Append(w.employerIndex, employer, d.ids))
  }

  /** The draft after one more `create_stream` on its world. */
  function Extended(w: World, employer: Address, d: Draft, p: Params): Option<Draft> {
    match CreateOne(Drafted(w, employer, d), employer, p, 0)
    case Some(o) =>
      Some(Draft(o.world.streams, o.world.streamCount, o.world.tokens, o.world.employeeIndex,
                 d.ids + [o.world.streamCount]))
    case None => None
  }

  /** The draft after one more creation, in terms of what taking the deposit yields. */
  lemma ExtendedIs(w: World, employer: Address, d: Draft, p: Params, net: i128, paid: Option<Ledgers>)
    requires Admits(Drafted(w, employer, d), employer, p)
    requires Deposited(Drafted(w, employer, d), employer, p, net, paid)
    ensures Extended(w, employer, d, p) ==
      if paid.None? || d.count == U64_MAX then None
      else
        var id := d.count + 1;
        Some(Draft(d.streams[id := NewStream(id, employer, p, net, 0, w.now)], id, paid.value,
                   Append(d.employees, p.employee, [id]), d.ids + [id]))
  {
    CreateOneIs(Drafted(w, employer, d), employer, p, 0, net, paid);
  }

  /** The loop's checks against the hoisted values are the checks of `create_stream` on the draft. */
  lemma DraftAdmits(w: World, employer: Address, d: Draft, p: Params)
    requires !w.control.config.paused
    requires |Lookup(w.employerIndex, employer, [])| + |d.ids| < w.control.config.maxStreams
    ensures Admits(Drafted(w, employer, d), employer, p) <==>
      && ValidParams(p, w.control.config.minDeposit, w.now, employer)
      && (w.control.allowed != [] ==> p.token in w.control.allowed)
      && p.token in d.ledgers
  {
    var drafted := Drafted(w, employer, d);
    assert |Lookup(drafted.employerIndex, employer, [])| == |Lookup(w.employerIndex, employer, [])| + |d.ids|;
  }

  lemma AppendTwice(index: map<Address, seq<u64>>, a: Address, ids: seq<u64>, id: u64)
    ensures Append(Append(index, a, ids), a, [id]) == Append(index, a, ids + [id])
    ensures Append(index, a, [] + [id]) == Append(index, a, [id])
  {
    assert Lookup(index, a, []) + ids + [id] == Lookup(index, a, []) + (ids + [id]);
    assert [] + [id] == [id];
  }

  lemma ExtendedWorld(w: World, employer: Address, d: Draft, p: Params)
    requires Extended(w, employer, d, p).Some?
    ensures var next := Extended(w, employer, d, p).value;
      CreateOne(Drafted(w, employer, d), employer, p, 0) == Some(Outcome(Drafted(w, employer, next), Ids([next.count])))
  {
    AppendTwice(w.employerIndex, employer, d.ids, d.count + 1);
  }

  /** A rejected prefix rejects the whole list. */
  lemma {:induction false} RejectedPrefix(w: World, employer: Address, list: seq<Params>, k: nat)
    requires k <= |list| && CreateEach(w, employer, list[..k]).None?
    ensures CreateEach(w, employer, list).None?
  {
    if k == |list| {
      assert list[..k] == list;
    } else {
      assert list[..|list| - 1][..k] == list[..k];
      RejectedPrefix(w, employer, list[..|list| - 1], k);
    }
  }

  /** One round of the loop is one step of creating the streams one by one, or rejects the whole list. */
  lemma ExtendedIsNext(w: World, employer: Address, list: seq<Params>, i: nat, d: Draft)
    requires i < |list| && |d.ids| == i
    requires CreateEach(w, employer, list[..i]) == Some(Outcome(Drafted(w, employer, d), Ids(d.ids)))
    ensures match Extended(w, employer, d, list[i])
      case Some(d') => |d'.ids| == i + 1
        && CreateEach(w, employer, list[..i + 1]) == Some(Outcome(Drafted(w, employer, d'), Ids(d'.ids)))
      case None => CreateEach(w, employer, list).None?
  {
    assert list[..i + 1][..i] == list[..i];
    if Extended(w, employer, d, list[i]).Some? {
      ExtendedWorld(w, employer, d, list[i]);
    } else {
      RejectedPrefix(w, employer, list, i + 1);
    }
  }

  /** One by one, each creation adds one entry to the employer's index and needs room for it. */
  lemma {:induction false} IndexGrows(w: World, employer: Address, list: seq<Params>)
    requires CreateEach(w, employer, list).Some?
    ensures var w' := CreateEach(w, employer, list).value.world;
      && |Lookup(w'.employerIndex, employer, [])| == |Lookup(w.employerIndex, employer, [])| + |list|
      && w'.control == w.control
      && (list != [] ==> |Lookup(w'.employerIndex, employer, [])| <= w.control.config.maxStreams)
  {
    if list != [] {
      IndexGrows(w, employer, list[..|list| - 1]);
    }
  }

  /** Checking the limit once, up front, is as good as checking it before every creation: a list that fits never
      meets the per-stream limit, at whatever creation, and one that does not fit is rejected one by one too. */
  lemma LimitCheckedUpFront(w: World, employer: Address, list: seq<Params>, i: nat)
    requires i < |list| && CreateEach(w, employer, list[..i]).Some?
    ensures var room := w.control.config.maxStreams - |Lookup(w.employerIndex, employer, [])|;
      var w' := CreateEach(w, employer, list[..i]).value.world;
      && (|list| <= room ==>
            |Lookup(w'.employerIndex, employer, [])| < w'.control.config.maxStreams)
      && (|list| > room ==> CreateEach(w, employer, list).None?)
  {
    IndexGrows(w, employer, list[..i]);
    if CreateEach(w, employer, list).Some? {
      IndexGrows(w, employer, list);
    }
  }

  lemma TooManyRejected(w: World, employer: Address, list: seq<Params>)
    requires list != [] && |Lookup(w.employerIndex, employer, [])| + |list| > w.control.config.maxStreams
    ensures CreateEach(w, employer, list).None?
  {
    if CreateEach(w, employer, list).Some? {
      IndexGrows(w, employer, list);
    }
  }

  class Contract {
    var now: u64
    var streams: map<u64, Stream>
    var streamCount: u64
    var tokens: Ledgers
    var control: Control.State
    var feeBalance: map<Address, i128>
    var employerIndex: map<Address, seq<u64>>
    var employeeIndex: map<Address, seq<u64>>
    var pauseHistory: map<u64, seq<PauseEvent>>
    var pendingEmployer: map<u64, Address>

    function View(): World
      reads this
    {
      World(now, streams, streamCount, tokens, control, feeBalance, employerIndex, employeeIndex, pauseHistory,
            pendingEmployer)
    }

    constructor (time: u64, ledgers: Ledgers)
      ensures Genesis(View()) && View().now == time && View().tokens == ledgers
    {
      now, tokens, streams, streamCount := time, ledgers, map[], 0;
      control, feeBalance := Control.Initial, map[];
      employerIndex, employeeIndex, pauseHistory, pendingEmployer := map[], map[], map[], map[];
    }

    /** Writes the outcome of a call that moved money. */
    method Store(id: u64, stream: Stream, ledgers: Ledgers, booked: i128)
      modifies this
      ensures View() == old(View()).(streams := old(streams)[id := stream], tokens := ledgers,
                                     feeBalance := Book(old(feeBalance), stream.token, booked))
    {
      streams := streams[id := stream];
      tokens := ledgers;
      feeBalance := Book(feeBalance, stream.token, booked);
    }

    /** The checks `withdraw` makes before it writes anything, and the gross amount then due. */
    method DueNow(employee: Address, id: u64) returns (due: Option<i128>)
      ensures due.None? && id in streams ==> DecideWithdraw(EnvOf(View(), id), streams[id], employee).None?
      ensures due.Some? ==>
        && id in streams && !control.config.paused && employee == streams[id].employee
        && (streams[id].status == Active || streams[id].status == Exhausted)
        && CooledDown(streams[id], now) && ClaimableAmount(streams[id], now) == due
    {
      if control.config.paused || id !in streams { return None; }
      var stream := streams[id];
      if stream.employee != employee { return None; }
      if stream.status != Active && stream.status != Exhausted { return None; }
      if stream.status == Active && stream.cooldown > 0 {
        if now < SatAdd(stream.lastWithdrawTime, stream.cooldown) { return None; }
      }
      return ClaimableAmount(stream, now);
    }

    /** Makes one or two transfers in order, each only if it is wanted. */
    static method PayInOrder(ledgers: Ledgers, token: Address, first: Option<Transfer>, second: Option<Transfer>)
      returns (paid: Option<Ledgers>)
      ensures paid == PayAll(ledgers, token, Listed(first) + Listed(second))
    {
      PayAllConcat(ledgers, token, Listed(first), Listed(second));
      paid := Some(ledgers);
      if first.Some? {
        PayAllSingle(ledgers, token, first.value);
        paid := PayOne(ledgers, token, first.value);
        if paid.None? { return None; }
      }
      if second.Some? {
        PayAllSingle(paid.value, token, second.value);
        paid := PayOne(paid.value, token, second.value);
      }
    }

    /** The writing half of `withdraw`. */
    method PayEmployee(employee: Address, id: u64, gross: i128, fee: i128) returns (done: bool)
      requires id in streams && gross > 0 && fee >= 0
      modifies this
      ensures Saves(old(View()), id, PayOut(EnvOf(old(View()), id), old(streams[id]), employee, gross, fee),
                    View(), done)
    {
      var stream := streams[id].(locked := true);
      var net := if gross - fee > 0 then gross - fee else 0;
      if stream.withdrawn + gross > I128_MAX { return false; }
      stream := stream.(withdrawn := stream.withdrawn + gross, lastWithdrawTime := now);
      if stream.withdrawn >= stream.deposit {
        stream := stream.(status := Exhausted);
      }
      var levy, booked: i128 := None, 0;
      if fee > 0 && control.feeRecipient.Some? {
        levy, booked := Some(Transfer(SELF, control.feeRecipient.value, fee)), fee;
      }
      var ledgers := PayInOrder(tokens, stream.token, levy, Some(Transfer(SELF, employee, net)));
      stream := stream.(locked := false);
      ghost var effect := PayOut(EnvOf(View(), id), streams[id], employee, gross, fee).value;
      assert effect.transfers == Listed(levy) + Listed(Some(Transfer(SELF, employee, net)));
      assert effect.after == stream && effect.booked == booked;
      SaveQuietly(View(), id, effect);
      if ledgers.None? { return false; }
      Store(id, stream, ledgers.value, booked);
      return true;
    }

    method Withdraw(employee: Address, id: u64) returns (r: Option<Reply>)
      modifies this
      ensures Commits(old(View()), Operate(old(View()), id, StreamOp.Withdraw(employee)), View(), r)
    {
      SlotKept(pendingEmployer, id);
      var due := DueNow(employee, id);
      if due.None? { return None; }
      if due.value == 0 {
        assert streams[id := streams[id]] == streams;
        return Some(Number(0));
      }
      if streams[id].locked { return None; }
      var fee := Fee(due.value, control.config.feeBps);
      if fee.None? { return None; }
      var done := PayEmployee(employee, id, due.value, fee.value);
      return if done then Some(Number(Max(due.value - fee.value, 0))) else None;
    }

    method TopUp(caller: Address, id: u64, amount: i128) returns (r: Option<Reply>)
      modifies this
      ensures Commits(old(View()), Operate(old(View()), id, StreamOp.TopUp(caller, amount)), View(), r)
    {
      if amount <= 0 || id !in streams { return None; }
      var stream := streams[id];
      if caller != stream.employer && stream.delegate != Some(caller) { return None; }
      if stream.status == Cancelled || stream.status == Exhausted { return None; }
      var transfer := Transfer(caller, SELF, amount);
      PayAllSingle(tokens, stream.token, transfer);
      var paid := PayOne(tokens, stream.token, transfer);
      if stream.deposit + amount > I128_MAX { return None; }
      stream := stream.(deposit := stream.deposit + amount);
      SaveQuietly(View(), id, DecideTopUp(EnvOf(View(), id), streams[id], caller, amount).value);
      if paid.None? { return None; }
      Store(id, stream, paid.value, 0);
      return Some(Unit);
    }

    method PauseStream(caller: Address, id: u64) returns (r: Option<Reply>)
      modifies this
      ensures Commits(old(View()), Operate(old(View()), id, StreamOp.Pause(caller)), View(), r)
    {
      SlotKept(pendingEmployer, id);
      if id !in streams { return None; }
      var stream := streams[id];
      if caller != stream.employer && stream.delegate != Some(caller) { return None; }
      if stream.status == Paused || stream.status != Active { return None; }
      stream := stream.(pausedAt := now);
      stream := stream.(status := Paused);
      streams := streams[id := stream];
      pauseHistory := pauseHistory[id := Lookup(pauseHistory, id, []) + [PauseEvent(now, true)]];
      return Some(Unit);
    }

    method ResumeStream(caller: Address, id: u64) returns (r: Option<Reply>)
      modifies this
      ensures Commits(old(View()), Operate(old(View()), id, StreamOp.Resume(caller)), View(), r)
    {
      SlotKept(pendingEmployer, id);
      if id !in streams { return None; }
      var stream := streams[id];
      if caller != stream.employer && stream.delegate != Some(caller) { return None; }
      if stream.status == Active || stream.status != Paused { return None; }
      var pausedFor := SatSub(now, stream.pausedAt);
      stream := stream.(lastWithdrawTime := SatAdd(stream.lastWithdrawTime, pausedFor));
      stream := stream.(pausedAt := 0);
      stream := stream.(status := Active);
      streams := streams[id := stream];
      pauseHistory := pauseHistory[id := Lookup(pauseHistory, id, []) + [PauseEvent(now, false)]];
      return Some(Unit);
    }

    /** The shared tail of `cancel_stream` and `reclaim_expired`: pay the employee, refund the employer, close. */
    method Close(employer: Address, id: u64, end: Status, claimable: i128) returns (done: bool)
      requires id in streams && claimable >= 0
      modifies this
      ensures Saves(old(View()), id, Settle(EnvOf(old(View()), id), old(streams[id]), employer, end, claimable),
                    View(), done)
    {
      var stream, pay, back := streams[id], None, None;
      if claimable > 0 {
        if stream.withdrawn + claimable > I128_MAX { return false; }
        pay := Some(Transfer(SELF, stream.employee, claimable));
        stream := stream.(withdrawn := stream.withdrawn + claimable);
      }
      var refund := RemainingDeposit(stream);
      if refund > 0 {
        back := Some(Transfer(SELF, employer, refund));
      }
      var ledgers := PayInOrder(tokens, stream.token, pay, back);
      stream := stream.(status := end);
      ghost var effect := Settle(EnvOf(View(), id), streams[id], employer, end, claimable).value;
      assert effect.transfers == Listed(pay) + Listed(back);
      assert effect.after == stream && effect.booked == 0;
      SaveQuietly(View(), id, effect);
      if ledgers.None? { return false; }
      Store(id, stream, ledgers.value, 0);
      return true;
    }

    method CancelStream(employer: Address, id: u64) returns (r: Option<Reply>)
      modifies this
      ensures Commits(old(View()), Operate(old(View()), id, StreamOp.Cancel(employer)), View(), r)
    {
      if id !in streams || streams[id].employer != employer { return None; }
      if streams[id].status != Active && streams[id].status != Paused { return None; }
      var claimable := ClaimableAmount(streams[id], now);
      if claimable.None? { return None; }
      var done := Close(employer, id, Cancelled, claimable.value);
      return if done then Some(Unit) else None;
    }

    method ReclaimExpired(employer: Address, id: u64) returns (r: Option<Reply>)
      modifies this
      ensures Commits(old(View()), Operate(old(View()), id, StreamOp.Reclaim(employer)), View(), r)
    {
      if id !in streams || streams[id].employer != employer { return None; }
      var stream := streams[id];
      if stream.status != Active && stream.status != Paused { return None; }
      if !(stream.stopTime > 0 && now >= stream.stopTime) { return None; }
      var claimable := ClaimableAmount(stream, now);
      if claimable.None? { return None; }
      var done := Close(employer, id, Exhausted, claimable.value);
      return if done then Some(Unit) else None;
    }

    method UpdateRate(employer: Address, id: u64, newRate: i128) returns (r: Option<Reply>)
      modifies this
      ensures Commits(old(View()), Operate(old(View()), id, StreamOp.UpdateRate(employer, newRate)), View(), r)
    {
      if newRate <= 0 || newRate > MAX_RATE_PER_SECOND { return None; }
      if id !in streams || streams[id].employer != employer { return None; }
      var stream := streams[id];
      if stream.status != Active { return None; }
      var accrued := ClaimableAmount(stream, now);
      if accrued.None? || stream.withdrawn + accrued.value > I128_MAX { return None; }
      stream := stream.(withdrawn := stream.withdrawn + accrued.value);
      stream := stream.(lastWithdrawTime := now);
      stream := stream.(rate := newRate);
      SaveQuietly(View(), id, DecideUpdateRate(EnvOf(View(), id), streams[id], employer, newRate).value);
      streams := streams[id := stream];
      return Some(Unit);
    }

    method GetStream(id: u64) returns (r: Option<Reply>)
      modifies this
      ensures Commits(old(View()), Operate(old(View()), id, StreamOp.Get), View(), r)
    {
      if id !in streams { return None; }
      var stream := streams[id];
      if stream.status == Active && stream.stopTime > 0 && now >= stream.stopTime {
        var claimable := ClaimableAmount(stream, now);
        if claimable.None? { return None; }
        if claimable.value == 0 && stream.withdrawn >= stream.deposit {
          stream := stream.(status := Exhausted);
        } else {
          var earned := ClaimableAmount(stream, stream.stopTime);
          if earned.None? { return None; }
          var streamed := Checked(stream.withdrawn + earned.value).Or(stream.deposit);
          if streamed >= stream.deposit {
            stream := stream.(status := Exhausted);
          }
        }
      }
      ghost var effect := DecideGet(EnvOf(View(), id), streams[id]).value;
      assert effect.after == stream;
      SaveQuietly(View(), id, effect);
      streams := streams[id := stream];
      return Some(Info(stream));
    }

    method TransferStream(employee: Address, id: u64, newEmployee: Address) returns (r: Option<Reply>)
      modifies this
      ensures Commits(old(View()), Operate(old(View()), id, StreamOp.TransferStream(employee, newEmployee)), View(), r)
    {
      SlotKept(pendingEmployer, id);
      if id !in streams || streams[id].employee != employee { return None; }
      var stream := streams[id];
      if stream.status != Active && stream.status != Paused { return None; }
      streams := streams[id := stream.(employee := newEmployee)];
      return Some(Unit);
    }

    method SetDelegate(employer: Address, id: u64, delegate: Option<Address>) returns (r: Option<Reply>)
      modifies this
      ensures Commits(old(View()), Operate(old(View()), id, StreamOp.SetDelegate(employer, delegate)), View(), r)
    {
      SlotKept(pendingEmployer, id);
      if id !in streams || streams[id].employer != employer { return None; }
      streams := streams[id := streams[id].(delegate := delegate)];
      return Some(Unit);
    }

    method ProposeEmployerTransfer(employer: Address, id: u64, newEmployer: Address) returns (r: Option<Reply>)
      modifies this
      ensures Commits(old(View()), Operate(old(View()), id, StreamOp.ProposeEmployer(employer, newEmployer)), View(), r)
    {
      if id !in streams || streams[id].employer != employer { return None; }
      assert streams[id := streams[id]] == streams;
      pendingEmployer := pendingEmployer[id := newEmployer];
      return Some(Unit);
    }

    method AcceptEmployerTransfer(newEmployer: Address, id: u64) returns (r: Option<Reply>)
      modifies this
      ensures Commits(old(View()), Operate(old(View()), id, StreamOp.AcceptEmployer(newEmployer)), View(), r)
    {
      if id !in pendingEmployer || pendingEmployer[id] != newEmployer || id !in streams { return None; }
      streams := streams[id := streams[id].(employer := newEmployer)];
      pendingEmployer := pendingEmployer - {id};
      return Some(Unit);
    }

    method WithdrawProtocolFees(admin: Address, token: Address, amount: i128) returns (r: Option<Reply>)
      modifies this
      ensures Commits(old(View()), CollectFees(old(View()), admin, token, amount), View(), r)
    {
      if control.admin != Some(admin) || amount <= 0 { return None; }
      var balance := Lookup(feeBalance, token, 0);
      if balance < amount { return None; }
      var recipient := if control.feeRecipient.Some? then control.feeRecipient.value else admin;
      var paid := PayOne(tokens, token, Transfer(SELF, recipient, amount));
      if paid.None? { return None; }
      tokens := paid.value;
      feeBalance := feeBalance[token := balance - amount];
      return Some(Unit);
    }

    /** Splits a deposit into the net part and the levy owed to the fee recipient, if there is one. */
    static method SplitDeposit(c: Control.State, employer: Address, deposit: i128)
      returns (fits: bool, net: i128, levy: Option<Transfer>)
      requires deposit > 0
      ensures fits == Fund(c, employer, deposit).Some?
      ensures fits ==>
        Fund(c, employer, deposit) == Some(Funding(net, Listed(Some(Transfer(employer, SELF, net))) + Listed(levy)))
    {
      fits, net, levy := true, deposit, None;
      if c.config.feeBps > 0 && c.feeRecipient.Some? {
        var fee := Fee(deposit, c.config.feeBps);
        fits := fee.Some? && I128_MIN <= deposit - fee.value;
        if fits {
          net := deposit - fee.value;
          levy := Some(Transfer(employer, c.feeRecipient.value, fee.value));
        }
      }
      assert fits ==>
        Fund(c, employer, deposit).value.transfers == Listed(Some(Transfer(employer, SELF, net))) + Listed(levy);
    }

    /** Takes a deposit from the employer: the net part into the contract, then the fee to its recipient. */
    static method TakeDeposit(c: Control.State, ledgers: Ledgers, employer: Address, token: Address, deposit: i128)
      returns (net: i128, paid: Option<Ledgers>)
      requires deposit > 0
      ensures var funding := Fund(c, employer, deposit);
        if funding.None? then paid == None
        else net == funding.value.net && paid == PayAll(ledgers, token, funding.value.transfers)
    {
      var fits, part, levy := SplitDeposit(c, employer, deposit);
      net, paid := part, None;
      if fits {
        paid := PayInOrder(ledgers, token, Some(Transfer(employer, SELF, net)), levy);
      }
    }

    /** Stores a new stream and indexes it for both parties. */
    method StoreNew(id: u64, stream: Stream, ledgers: Ledgers)
      modifies this
      ensures View() == old(View()).(
        streams := old(streams)[id := stream], streamCount := id, tokens := ledgers,
        employerIndex := Append(old(employerIndex), stream.employer, [id]),
        employeeIndex := Append(old(employeeIndex), stream.employee, [id]))
    {
      streamCount, tokens := id, ledgers;
      streams := streams[id := stream];
      employerIndex := Append(employerIndex, stream.employer, [id]);
      employeeIndex := Append(employeeIndex, stream.employee, [id]);
    }

    method CreateStream(employer: Address, p: Params, cooldown: u64) returns (r: Option<Reply>)
      modifies this
      ensures Commits(old(View()), CreateOne(old(View()), employer, p, cooldown), View(), r)
    {
      var admitted :=
        && !control.config.paused
        && |Lookup(employerIndex, employer, [])| < control.config.maxStreams
        && ValidParams(p, control.config.minDeposit, now, employer)
        && p.token in tokens
        && Control.IsTokenAllowed(control, p.token);
      if !admitted { return None; }
      var net, paid := TakeDeposit(control, tokens, employer, p.token, p.deposit);
      CreateOneIs(View(), employer, p, cooldown, net, paid);
      if paid.None? || streamCount == U64_MAX { return None; }
      var id := streamCount + 1;
      StoreNew(id, NewStream(id, employer, p, net, cooldown, now), paid.value);
      return Some(Ids([id]));
    }

    /** One round of the batch loop, against the values read up front. */
    method ExtendDraft(employer: Address, p: Params, minDeposit: i128, allowed: seq<Address>, d: Draft)
      returns (next: Option<Draft>)
      requires minDeposit == control.config.minDeposit && allowed == control.allowed && !control.config.paused
      requires |Lookup(employerIndex, employer, [])| + |d.ids| < control.config.maxStreams
      ensures next == Extended(View(), employer, d, p)
    {
      DraftAdmits(View(), employer, d, p);
      var admitted :=
        && ValidParams(p, minDeposit, now, employer)
        && (allowed != [] ==> p.token in allowed)
        && p.token in d.ledgers;
      if !admitted { return None; }
      var net, paid := TakeDeposit(control, d.ledgers, employer, p.token, p.deposit);
      ExtendedIs(View(), employer, d, p, net, paid);
      if paid.None? || d.count == U64_MAX { return None; }
      var id := d.count + 1;
      next := Some(Draft(d.streams[id := NewStream(id, employer, p, net, 0, now)], id, paid.value,
                         Append(d.employees, p.employee, [id]), d.ids + [id]));
    }

    /** The optimised batch: the allowlist and the limit are read once, up front, and the employer index is
        written once, at the end; proved to do exactly what creating the streams one by one does. */
    method CreateStreamsBatch(employer: Address, list: seq<Params>) returns (r: Option<Reply>)
      modifies this
      ensures old(control.config.paused) || list == [] ==> r == None && View() == old(View())
      ensures !old(control.config.paused) && list != [] ==>
        Commits(old(View()), CreateEach(old(View()), employer, list), View(), r)
    {
      if control.config.paused || list == [] { return None; }
      ghost var w := View();
      if |Lookup(employerIndex, employer, [])| + |list| > control.config.maxStreams {
        TooManyRejected(w, employer, list);
        return None;
      }
      var minDeposit, allowed := control.config.minDeposit, control.allowed;
      var d := Draft(streams, streamCount, tokens, employeeIndex, []);
      var i := 0;
      assert list[..0] == [];
      while i < |list|
        invariant 0 <= i <= |list| && |d.ids| == i
        invariant View() == w
        invariant CreateEach(w, employer, list[..i]) == Some(Outcome(Drafted(w, employer, d), Ids(d.ids)))
      {
        ExtendedIsNext(w, employer, list, i, d);
        var next := ExtendDraft(employer, list[i], minDeposit, allowed, d);
        if next.None? { return None; }
        d, i := next.value, i + 1;
      }
      assert list[..i] == list;
      streams, streamCount, tokens, employeeIndex := d.streams, d.count, d.ledgers, d.employees;
      employerIndex := Append(employerIndex, employer, d.ids);
      return Some(Ids(d.ids));
    }

    /** One operation on a stream. */
    method Operation(id: u64, op: StreamOp) returns (r: Option<Reply>)
      modifies this
      ensures Commits(old(View()), Operate(old(View()), id, op), View(), r)
    {
      match op {
        case Withdraw(employee) => r := Withdraw(employee, id);
        case TopUp(caller, amount) => r := TopUp(caller, id, amount);
        case Pause(caller) => r := PauseStream(caller, id);
        case Resume(caller) => r := ResumeStream(caller, id);
        case Cancel(employer) => r := CancelStream(employer, id);
        case UpdateRate(employer, newRate) => r := UpdateRate(employer, id, newRate);
        case Get => r := GetStream(id);
        case Reclaim(employer) => r := ReclaimExpired(employer, id);
        case TransferStream(employee, newEmployee) => r := TransferStream(employee, id, newEmployee);
        case SetDelegate(employer, delegate) => r := SetDelegate(employer, id, delegate);
        case ProposeEmployer(employer, newEmployer) => r := ProposeEmployerTransfer(employer, id, newEmployer);
        case AcceptEmployer(newEmployer) => r := AcceptEmployerTransfer(newEmployer, id);
      }
    }

    /** Time passes, or an administrative or outside token call happens. */
    method Elsewhere(c: Call) returns (r: Option<Reply>)
      requires c.Tick? || c.Admin? || c.Outside?
      modifies this
      ensures Commits(old(View()), Exec(old(View()), c), View(), r)
    {
      match c {
        case Tick =>
          if now == U64_MAX { return None; }
          now := now + 1;
          return Some(Unit);
        case Admin(call) =>
          var ruling := Control.Apply(control, now, call);
          if ruling.None? { return None; }
          control := ruling.value.state;
          return Some(if ruling.value.id.Some? then Number(ruling.value.id.value) else Unit);
        case Outside(token, call) =>
          if token !in tokens { return None; }
          var ledger := Token.Apply(tokens[token], call);
          if ledger.None? { return None; }
          tokens := tokens[token := ledger.value];
          return Some(Unit);
      }
    }

    /** One call of any kind. */
    method Perform(c: Call) returns (r: Option<Reply>)
      modifies this
      ensures Commits(old(View()), Exec(old(View()), c), View(), r)
    {
      match c {
        case Create(employer, p, cooldown) => r := CreateStream(employer, p, cooldown);
        case CreateBatch(employer, list) => r := CreateStreamsBatch(employer, list);
        case OnStream(id, op) => r := Operation(id, op);
        case WithdrawFees(admin, token, amount) => r := WithdrawProtocolFees(admin, token, amount);
        case _ => r := Elsewhere(c);
      }
    }

    /** The deployed contract driven through a list of attempted calls runs as the theorems about runs say. */
    method Drive(calls: seq<Call>)
      modifies this
      ensures View() == RunTo(old(View()), calls)
    {
      for i := 0 to |calls|
        invariant View() == RunTo(old(View()), calls[..i])
      {
        assert calls[..i + 1][..i] == calls[..i];
        var _ := Perform(calls[i]);
      }
      assert calls[..|calls|] == calls;
    }
  }
}
