/** What the employer and employee indexes list: the streams an address created or was first named on, in the
    order of their ids, whatever becomes of them later. */
module Indexes {
  import opened Common
  import opened Streams
  import opened World
  import opened Steps
  import Token

  function EmployerIds(w: World, a: Address): seq<u64> {
    Lookup(w.employerIndex, a, [])
  }

  function EmployeeIds(w: World, a: Address): seq<u64> {
    Lookup(w.employeeIndex, a, [])
  }

  /** Strictly ascending, and none above `last`. */
  ghost predicate AscendingTo(ids: seq<u64>, last: int) {
    && (forall i, j :: 0 <= i < j < |ids| ==> ids[i] < ids[j])
    && (forall i :: 0 <= i < |ids| ==> ids[i] <= last)
  }

  lemma AppendAscends(ids: seq<u64>, last: int, id: u64)
    requires AscendingTo(ids, last) && last < id
    ensures AscendingTo(ids + [id], id)
    ensures forall k :: k in ids + [id] <==> k in ids || k == id
  {
  }

  // ----- one step

  /** From `w` to `w'`, the index list of one address stays ascending and gains exactly the new streams that
      `mine` picks out. */
  ghost predicate Gains(w: World, w': World, ids: seq<u64>, ids': seq<u64>, mine: Stream -> bool) {
    && AscendingTo(ids', w'.streamCount)
    && (forall id :: id in ids' <==> id in ids || (id in w'.streams && id !in w.streams && mine(w'.streams[id])))
  }

  ghost predicate Registers(w: World, w': World, a: Address) {
    && Gains(w, w', EmployerIds(w, a), EmployerIds(w', a), (s: Stream) => s.employer == a)
    && Gains(w, w', EmployeeIds(w, a), EmployeeIds(w', a), (s: Stream) => s.employee == a)
  }

  ghost predicate Indexed(w: World, a: Address) {
    AscendingTo(EmployerIds(w, a), w.streamCount) && AscendingTo(EmployeeIds(w, a), w.streamCount)
  }

  lemma OneGained(w: World, w': World, ids: seq<u64>, mine: Stream -> bool)
    requires AscendingTo(ids, w.streamCount) && w'.streamCount == w.streamCount + 1
    requires w'.streamCount !in w.streams && w'.streams.Keys == w.streams.Keys + {w'.streamCount}
    ensures Gains(w, w', ids, if mine(w'.streams[w'.streamCount]) then ids + [w'.streamCount] else ids, mine)
  {
    var id := w'.streamCount;
    AppendAscends(ids, w.streamCount, id);
    assert forall k :: k in w'.streams <==> k in w.streams || k == id by {
      assert forall k :: k in w'.streams <==> k in w'.streams.Keys;
    }
  }

  lemma OpenRegisters(w: World, employer: Address, p: Params, cooldown: u64, net: i128,
                      tokens: map<Address, Token.Ledger>, a: Address)
    requires WorldOk(w) && Indexed(w, a) && w.streamCount < U64_MAX
    ensures Registers(w, Open(w, employer, p, cooldown, net, tokens), a)
  {
    var w' := Open(w, employer, p, cooldown, net, tokens);
    OneGained(w, w', EmployerIds(w, a), (s: Stream) => s.employer == a);
    OneGained(w, w', EmployeeIds(w, a), (s: Stream) => s.employee == a);
  }

  lemma CreateRegisters(w: World, employer: Address, p: Params, cooldown: u64, a: Address)
    requires WorldOk(w) && Indexed(w, a) && CreateOne(w, employer, p, cooldown).Some?
    ensures Registers(w, CreateOne(w, employer, p, cooldown).value.world, a)
  {
    var f := Fund(w.control, employer, p.deposit).value;
    OpenRegisters(w, employer, p, cooldown, f.net, PayAll(w.tokens, p.token, f.transfers).value, a);
  }

  lemma RegistersInTurn(w: World, mid: World, w': World, a: Address)
    requires Registers(w, mid, a) && Registers(mid, w', a) && OnlyAdds(w, mid) && OnlyAdds(mid, w')
    ensures Registers(w, w', a)
  {
  }

  lemma {:induction false} CreateEachRegisters(w: World, employer: Address, list: seq<Params>, a: Address)
    requires WorldOk(w) && Indexed(w, a) && CreateEach(w, employer, list).Some?
    ensures Registers(w, CreateEach(w, employer, list).value.world, a)
  {
    if list != [] {
      var n := |list| - 1;
      var mid := CreateEach(w, employer, list[..n]).value.world;
      CreateEachRegisters(w, employer, list[..n], a);
      CreateEachMeaning(w, employer, list[..n]);
      CreateRegisters(mid, employer, list[n], 0, a);
      CreateOneMeaning(mid, employer, list[n], 0);
      RegistersInTurn(w, mid, CreateEach(w, employer, list).value.world, a);
    }
  }

  lemma NothingRegistered(w: World, w': World, a: Address)
    requires Indexed(w, a) && w'.streams.Keys == w.streams.Keys && w'.streamCount == w.streamCount
    requires w'.employerIndex == w.employerIndex && w'.employeeIndex == w.employeeIndex
    ensures Registers(w, w', a)
  {
    assert forall id :: id in w'.streams ==> id in w'.streams.Keys;
  }

  lemma OperateLeavesIndexes(w: World, id: u64, op: StreamOp)
    requires Operate(w, id, op).Some?
    ensures var w' := Operate(w, id, op).value.world;
      && w'.streams.Keys == w.streams.Keys && w'.streamCount == w.streamCount
      && w'.employerIndex == w.employerIndex && w'.employeeIndex == w.employeeIndex
  {
  }

  lemma OthersLeaveIndexes(w: World, c: Call)
    requires !c.Create? && !c.CreateBatch?
    ensures var w' := After(w, c);
      && w'.streams.Keys == w.streams.Keys && w'.streamCount == w.streamCount
      && w'.employerIndex == w.employerIndex && w'.employeeIndex == w.employeeIndex
  {
    if c.OnStream? && Exec(w, c).Some? {
      OperateLeavesIndexes(w, c.id, c.op);
    }
  }

  /** Every attempted call adds to an index exactly the streams it creates for that address. */
  lemma RegisterStep(w: World, c: Call, a: Address)
    requires WorldOk(w) && Indexed(w, a)
    ensures Registers(w, After(w, c), a)
  {
    if Exec(w, c).None? {
      NothingRegistered(w, w, a);
    } else if c.Create? {
      CreateRegisters(w, c.employer, c.params, c.cooldown, a);
    } else if c.CreateBatch? {
      CreateEachRegisters(w, c.employer, c.list, a);
    } else {
      OthersLeaveIndexes(w, c);
      NothingRegistered(w, After(w, c), a);
    }
  }

  // ----- whole runs

  /** The party a stream was created with. */
  ghost function FirstEmployer(w: World, calls: seq<Call>, id: u64): Address
    requires id in RunTo(w, calls).streams
  {
    if calls != [] && id in RunTo(w, calls[..|calls| - 1]).streams
    then FirstEmployer(w, calls[..|calls| - 1], id)
    else RunTo(w, calls).streams[id].employer
  }

  ghost function FirstEmployee(w: World, calls: seq<Call>, id: u64): Address
    requires id in RunTo(w, calls).streams
  {
    if calls != [] && id in RunTo(w, calls[..|calls| - 1]).streams
    then FirstEmployee(w, calls[..|calls| - 1], id)
    else RunTo(w, calls).streams[id].employee
  }

  lemma {:induction false} AlwaysIndexed(w: World, calls: seq<Call>, a: Address)
    requires Genesis(w)
    ensures Indexed(RunTo(w, calls), a)
  {
    if calls != [] {
      var n := |calls| - 1;
      AlwaysIndexed(w, calls[..n], a);
      AlwaysOk(w, calls[..n]);
      RegisterStep(RunTo(w, calls[..n]), calls[n], a);
    }
  }

  /** In every run an employer's index lists, in ascending order, exactly the streams that employer created, and
      an employee's index exactly those it was first named on: live or ended, handed over or not. */
  lemma {:induction false} IndexesListCreations(w: World, calls: seq<Call>, a: Address, id: u64)
    requires Genesis(w)
    ensures Indexed(RunTo(w, calls), a)
    ensures id in EmployerIds(RunTo(w, calls), a) <==>
      id in RunTo(w, calls).streams && FirstEmployer(w, calls, id) == a
    ensures id in EmployeeIds(RunTo(w, calls), a) <==>
      id in RunTo(w, calls).streams && FirstEmployee(w, calls, id) == a
  {
    AlwaysIndexed(w, calls, a);
    if calls != [] {
      var n := |calls| - 1;
      var v, c := RunTo(w, calls[..n]), calls[n];
      IndexesListCreations(w, calls[..n], a, id);
      AlwaysOk(w, calls[..n]);
      StepMeaning(v, c);
      RegisterStep(v, c, a);
    }
  }

  // ----- hand-overs leave the indexes behind

  /** Who last accepted to be the stream's employer, if anybody did. */
  ghost function HandedTo(w: World, calls: seq<Call>, id: u64): Option<Address> {
    if calls == [] then None else
      var n := |calls| - 1;
      var v, c := RunTo(w, calls[..n]), calls[n];
      if c.OnStream? && c.id == id && c.op.AcceptEmployer? && Exec(v, c).Some? then Some(c.op.newEmployer)
      else HandedTo(w, calls[..n], id)
  }

  /** To whom the employee last transferred the stream, if ever. */
  ghost function PassedTo(w: World, calls: seq<Call>, id: u64): Option<Address> {
    if calls == [] then None else
      var n := |calls| - 1;
      var v, c := RunTo(w, calls[..n]), calls[n];
      if c.OnStream? && c.id == id && c.op.TransferStream? && Exec(v, c).Some? then Some(c.op.newEmployee)
      else PassedTo(w, calls[..n], id)
  }

  lemma OperatesOnExisting(v: World, c: Call, id: u64)
    requires c.OnStream? && c.id == id && Exec(v, c).Some?
    ensures id in v.streams
  {
  }

  lemma MoveParties(now: u64, op: StreamOp, s: Stream, s': Stream)
    requires Becomes(now, s, op, s')
    ensures s'.employer == if op.AcceptEmployer? then op.newEmployer else s.employer
    ensures s'.employee == if op.TransferStream? then op.newEmployee else s.employee
  {
  }

  lemma {:induction false} PartiesInRun(w: World, calls: seq<Call>, id: u64)
    requires Genesis(w)
    ensures id !in RunTo(w, calls).streams ==> HandedTo(w, calls, id) == None && PassedTo(w, calls, id) == None
    ensures id in RunTo(w, calls).streams ==>
      && RunTo(w, calls).streams[id].employer == HandedTo(w, calls, id).Or(FirstEmployer(w, calls, id))
      && RunTo(w, calls).streams[id].employee == PassedTo(w, calls, id).Or(FirstEmployee(w, calls, id))
  {
    if calls != [] {
      var n := |calls| - 1;
      var v, c := RunTo(w, calls[..n]), calls[n];
      PartiesInRun(w, calls[..n], id);
      AlwaysOk(w, calls[..n]);
      StepMeaning(v, c);
      if c.OnStream? && c.id == id && Exec(v, c).Some? {
        OperatesOnExisting(v, c, id);
        MoveParties(v.now, c.op, v.streams[id], After(v, c).streams[id]);
      }
    }
  }

  /** A stream is listed under its current employer, or employee, exactly when it was never handed over, or last
      handed back to the one it was created with. */
  lemma IndexFollowsPartyIff(w: World, calls: seq<Call>, id: u64)
    requires Genesis(w) && id in RunTo(w, calls).streams
    ensures var v := RunTo(w, calls);
      && (id in EmployerIds(v, v.streams[id].employer) <==>
            HandedTo(w, calls, id) in {None, Some(FirstEmployer(w, calls, id))})
      && (id in EmployeeIds(v, v.streams[id].employee) <==>
            PassedTo(w, calls, id) in {None, Some(FirstEmployee(w, calls, id))})
  {
    var s := RunTo(w, calls).streams[id];
    PartiesInRun(w, calls, id);
    IndexesListCreations(w, calls, s.employer, id);
    IndexesListCreations(w, calls, s.employee, id);
  }

  // ----- what the limit counts

  /** All streams an employer ever created. */
  ghost function Created(w: World, calls: seq<Call>, a: Address): set<u64> {
    set id | id in RunTo(w, calls).streams && FirstEmployer(w, calls, id) == a
  }

  ghost function Members(ids: seq<u64>): set<u64> {
    set id | id in ids
  }

  lemma {:induction false} AscendingCounts(ids: seq<u64>, last: int)
    requires AscendingTo(ids, last)
    ensures |Members(ids)| == |ids|
  {
    if ids != [] {
      var n := |ids| - 1;
      AscendingCounts(ids[..n], last);
      assert ids[n] !in ids[..n];
      assert Members(ids) == Members(ids[..n]) + {ids[n]};
    } else {
      assert Members(ids) == {};
    }
  }

  /** The limit per employer counts every stream the employer ever created, ended and handed-over ones too: an
      accepted creation means that there were fewer of them. */
  lemma LimitCountsAllCreated(w: World, calls: seq<Call>, a: Address, p: Params, cooldown: u64)
    requires Genesis(w)
    ensures |EmployerIds(RunTo(w, calls), a)| == |Created(w, calls, a)|
    ensures |Created(w, calls, a)| >= RunTo(w, calls).control.config.maxStreams ==>
      CreateOne(RunTo(w, calls), a, p, cooldown).None?
  {
    var ids := EmployerIds(RunTo(w, calls), a);
    AlwaysIndexed(w, calls, a);
    AscendingCounts(ids, RunTo(w, calls).streamCount);
    forall id
      ensures id in Members(ids) <==> id in Created(w, calls, a)
    {
      IndexesListCreations(w, calls, a, id);
    }
    assert Members(ids) == Created(w, calls, a);
  }
}
