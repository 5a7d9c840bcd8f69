/** Whole runs of the administrative calls: what an executed proposal or multisig operation proves
    about everything that happened before it. */
module Decisions {
  import opened Common
  import opened Control

  datatype Event = Tick | Act(call: AdminCall)
  datatype Moment = Moment(now: u64, c: State)

  function Next(m: Moment, e: Event): Moment {
    match e
    case Tick => if m.now < U64_MAX then m.(now := m.now + 1) else m
    case Act(call) =>
      match Apply(m.c, m.now, call)
      case Some(ruling) => m.(c := ruling.state)
      case None => m
  }

  /** The contract deployed at time `t0`, after the events `es`. */
  function RunTo(t0: u64, es: seq<Event>): Moment {
    if es == [] then Moment(t0, Initial) else Next(RunTo(t0, es[..|es| - 1]), es[|es| - 1])
  }

  /** The moment just before event `i`. */
  function At(t0: u64, es: seq<Event>, i: nat): Moment
    requires i <= |es|
  {
    RunTo(t0, es[..i])
  }

  predicate Accepted(t0: u64, es: seq<Event>, i: nat, call: AdminCall)
    requires i < |es|
  {
    es[i] == Act(call) && Apply(At(t0, es, i).c, At(t0, es, i).now, call).Some?
  }

  function RulingAt(t0: u64, es: seq<Event>, i: nat, call: AdminCall): Ruling
    requires i < |es| && Accepted(t0, es, i, call)
  {
    Apply(At(t0, es, i).c, At(t0, es, i).now, call).value
  }

  lemma AtStep(t0: u64, es: seq<Event>, i: nat)
    requires i < |es|
    ensures At(t0, es, i + 1) == Next(At(t0, es, i), es[i])
  {
    assert es[..i + 1][..i] == es[..i];
  }

  // ----- the invariant

  function Ballots(c: State, id: u64): set<(u64, Address)> {
    set v | v in c.voted && v.0 == id
  }

  ghost predicate ProposalOk(c: State, id: u64, p: Proposal) {
    && id <= c.proposalCount
    && p.votesFor + p.votesAgainst == |Ballots(c, id)|
    && (p.status in {Passed, Executed} ==> p.votesFor > p.votesAgainst)
  }

  predicate Distinct(s: seq<Address>) {
    forall i, j :: 0 <= i < j < |s| ==> s[i] != s[j]
  }

  ghost predicate VotesOk(c: State) {
    && (forall id :: id in c.proposals ==> ProposalOk(c, id, c.proposals[id]))
    && (forall v :: v in c.voted ==> v.0 in c.proposals)
  }

  ghost predicate OpsOk(c: State) {
    forall id :: id in c.ops ==> id <= c.opCount && Distinct(c.ops[id].approvals)
  }

  ghost predicate Ok(c: State) {
    VotesOk(c) && OpsOk(c)
  }

  lemma VoteKeepsOk(c: State, voter: Address, id: u64, support: bool)
    requires VotesOk(c) && CastVote(c, voter, id, support).Some?
    ensures VotesOk(CastVote(c, voter, id, support).value.state)
  {
    var c' := CastVote(c, voter, id, support).value.state;
    assert Ballots(c', id) == Ballots(c, id) + {(id, voter)};
    forall k | k in c'.proposals
      ensures ProposalOk(c', k, c'.proposals[k])
    {
      if k != id {
        assert Ballots(c', k) == Ballots(c, k);
      }
    }
  }

  /** Which calls touch proposals, and which touch multisig operations. */
  lemma Frames(c: State, now: u64, call: AdminCall)
    requires Apply(c, now, call).Some?
    ensures var c' := Apply(c, now, call).value.state;
      && (!(call.ProposeParameter? || call.Vote? || call.Tally? || call.ExecuteProposal?) ==>
            c'.proposals == c.proposals && c'.proposalCount == c.proposalCount && c'.voted == c.voted)
      && (!(call.MultisigPropose? || call.MultisigApprove?) ==> c'.ops == c.ops && c'.opCount == c.opCount)
  {
  }

  lemma SameVotes(c: State, c': State)
    requires VotesOk(c) && c'.proposals == c.proposals && c'.proposalCount == c.proposalCount && c'.voted == c.voted
    ensures VotesOk(c')
  {
    assert forall k :: Ballots(c', k) == Ballots(c, k);
  }

  lemma VotesStep(c: State, now: u64, call: AdminCall)
    requires VotesOk(c) && Apply(c, now, call).Some?
    ensures VotesOk(Apply(c, now, call).value.state)
  {
    var c' := Apply(c, now, call).value.state;
    match call
    case Vote(caller, id, support) => VoteKeepsOk(c, caller, id, support);
    case ProposeParameter(_, param, newValue) =>
      assert Ballots(c', c'.proposalCount) == {};
      assert forall k :: Ballots(c', k) == Ballots(c, k);
    case Tally(id) =>
      assert forall k :: Ballots(c', k) == Ballots(c, k);
    case ExecuteProposal(id) =>
      assert forall k :: Ballots(c', k) == Ballots(c, k);
    case _ =>
      Frames(c, now, call);
      SameVotes(c, c');
  }

  lemma OpsStep(c: State, now: u64, call: AdminCall)
    requires OpsOk(c) && Apply(c, now, call).Some?
    ensures OpsOk(Apply(c, now, call).value.state)
  {
    if !call.MultisigPropose? && !call.MultisigApprove? {
      Frames(c, now, call);
    }
  }

  lemma {:induction false} AlwaysOk(t0: u64, es: seq<Event>)
    ensures Ok(RunTo(t0, es).c)
  {
    if es != [] {
      var n := |es| - 1;
      AlwaysOk(t0, es[..n]);
      var m := RunTo(t0, es[..n]);
      if es[n].Act? && Apply(m.c, m.now, es[n].call).Some? {
        VotesStep(m.c, m.now, es[n].call);
        OpsStep(m.c, m.now, es[n].call);
      }
    }
  }

  // ----- governance

  /** Event `i` is the accepted call that opened proposal `id`. */
  predicate Opens(t0: u64, es: seq<Event>, i: nat, id: u64, p: Proposal)
    requires i < |es|
  {
    && es[i].Act? && es[i].call.ProposeParameter?
    && es[i].call.param == p.param && es[i].call.newValue == p.newValue
    && Accepted(t0, es, i, es[i].call)
    && RulingAt(t0, es, i, es[i].call).id == Some(id)
    && p.executableAfter == At(t0, es, i).now + GOV_TIMELOCK
  }

  predicate SameTerms(p: Proposal, q: Proposal) {
    p.param == q.param && p.newValue == q.newValue && p.executableAfter == q.executableAfter
  }

  /** One event either keeps a proposal's terms or is the call that opens it; a closed case stays closed. */
  lemma TermsAreFixed(m: Moment, e: Event, id: u64)
    requires Ok(m.c) && id in Next(m, e).c.proposals
    ensures id in m.c.proposals ==> SameTerms(m.c.proposals[id], Next(m, e).c.proposals[id])
    ensures id in m.c.proposals && m.c.proposals[id].status in {Executed, Rejected} ==>
      Next(m, e).c.proposals[id] == m.c.proposals[id]
    ensures id !in m.c.proposals ==>
      && e.Act? && e.call.ProposeParameter? && Apply(m.c, m.now, e.call).Some?
      && Apply(m.c, m.now, e.call).value.id == Some(id)
      && Next(m, e).c.proposals[id] == Proposal(e.call.param, e.call.newValue, 0, 0, Open, m.now + GOV_TIMELOCK)
  {
    if e.Act? && Apply(m.c, m.now, e.call).Some? {
      match e.call
      case ProposeParameter(_, param, newValue) =>
      case Vote(_, k, _) =>
      case Tally(k) =>
      case ExecuteProposal(k) =>
      case _ => Frames(m.c, m.now, e.call);
    }
  }

  lemma {:induction false} EveryProposalWasOpened(t0: u64, es: seq<Event>, j: nat, id: u64)
    requires j <= |es| && id in At(t0, es, j).c.proposals
    ensures exists i :: 0 <= i < j && Opens(t0, es, i, id, At(t0, es, j).c.proposals[id])
  {
    if j > 0 {
      AtStep(t0, es, j - 1);
      var before, after := At(t0, es, j - 1).c, At(t0, es, j).c;
      if id in before.proposals && SameTerms(before.proposals[id], after.proposals[id]) {
        EveryProposalWasOpened(t0, es, j - 1, id);
        var i :| 0 <= i < j - 1 && Opens(t0, es, i, id, before.proposals[id]);
        assert Opens(t0, es, i, id, after.proposals[id]);
      } else {
        AlwaysOk(t0, es[..j - 1]);
        TermsAreFixed(At(t0, es, j - 1), es[j - 1], id);
        assert Opens(t0, es, j - 1, id, after.proposals[id]);
      }
    }
  }

  lemma KeysStay(m: Moment, e: Event, id: u64)
    ensures id in m.c.proposals ==> id in Next(m, e).c.proposals
    ensures id in m.c.ops ==> id in Next(m, e).c.ops
  {
    if e.Act? && Apply(m.c, m.now, e.call).Some? {
      Frames(m.c, m.now, e.call);
    }
  }

  lemma {:induction false} ExecutedForever(t0: u64, es: seq<Event>, i: nat, j: nat, id: u64)
    requires i <= j <= |es|
    requires id in At(t0, es, i).c.proposals && At(t0, es, i).c.proposals[id].status == Executed
    ensures id in At(t0, es, j).c.proposals && At(t0, es, j).c.proposals[id] == At(t0, es, i).c.proposals[id]
    decreases j - i
  {
    if i < j {
      ExecutedForever(t0, es, i, j - 1, id);
      AtStep(t0, es, j - 1);
      AlwaysOk(t0, es[..j - 1]);
      KeysStay(At(t0, es, j - 1), es[j - 1], id);
      TermsAreFixed(At(t0, es, j - 1), es[j - 1], id);
    }
  }

  // ----- what each vote counts for

  /** Event `i` is an accepted vote of `a` on proposal `id`, for it or against it. */
  predicate Votes(t0: u64, es: seq<Event>, i: nat, id: u64, a: Address, support: bool)
    requires i < |es|
  {
    Accepted(t0, es, i, Vote(a, id, support))
  }

  /** Whom one event adds to the voters for, or against, proposal `id`. */
  function Joining(m: Moment, e: Event, id: u64, support: bool): set<Address> {
    if e.Act? && e.call.Vote? && e.call.id == id && e.call.support == support && Apply(m.c, m.now, e.call).Some?
    then {e.call.caller} else {}
  }

  /** Everybody with an accepted vote for, or against, proposal `id`. */
  ghost function Voters(t0: u64, es: seq<Event>, id: u64, support: bool): set<Address> {
    if es == [] then {} else
      var n := |es| - 1;
      Voters(t0, es[..n], id, support) + Joining(RunTo(t0, es[..n]), es[n], id, support)
  }

  lemma {:induction false} VotersVoted(t0: u64, es: seq<Event>, id: u64, support: bool, a: Address)
    ensures a in Voters(t0, es, id, support) <==> exists i :: 0 <= i < |es| && Votes(t0, es, i, id, a, support)
  {
    if es != [] {
      var n := |es| - 1;
      VotersVoted(t0, es[..n], id, support, a);
      assert forall i :: 0 <= i < n ==> es[..n][..i] == es[..i];
      assert forall i :: 0 <= i < n ==> (Votes(t0, es[..n], i, id, a, support) <==> Votes(t0, es, i, id, a, support));
      assert Votes(t0, es, n, id, a, support) <==>
        es[n] == Act(Vote(a, id, support)) && Apply(RunTo(t0, es[..n]).c, RunTo(t0, es[..n]).now, es[n].call).Some?;
    }
  }

  /** The counters of a proposal and who has voted, in terms of two sets of voters. */
  ghost predicate Counted(c: State, id: u64, yes: set<Address>, no: set<Address>) {
    && (id !in c.proposals ==> yes == {} && no == {})
    && (id in c.proposals ==>
          && c.proposals[id].votesFor == |yes| && c.proposals[id].votesAgainst == |no| && yes !! no)
    && (forall a :: (id, a) in c.voted <==> a in yes || a in no)
  }

  lemma CastCounts(c: State, voter: Address, k: u64, support: bool, id: u64, yes: set<Address>, no: set<Address>)
    requires Counted(c, id, yes, no) && CastVote(c, voter, k, support).Some?
    ensures Counted(CastVote(c, voter, k, support).value.state, id,
                    if k == id && support then yes + {voter} else yes,
                    if k == id && !support then no + {voter} else no)
  {
  }

  lemma CountStep(c: State, now: u64, call: AdminCall, id: u64, yes: set<Address>, no: set<Address>)
    requires VotesOk(c) && Counted(c, id, yes, no) && Apply(c, now, call).Some?
    ensures Counted(Apply(c, now, call).value.state, id,
                    if call.Vote? && call.id == id && call.support then yes + {call.caller} else yes,
                    if call.Vote? && call.id == id && !call.support then no + {call.caller} else no)
  {
    match call
    case Vote(caller, k, support) => CastCounts(c, caller, k, support, id, yes, no);
    case ProposeParameter(_, _, _) =>
    case Tally(_) =>
    case ExecuteProposal(_) =>
    case _ => Frames(c, now, call);
  }

  lemma CountEvent(m: Moment, e: Event, id: u64, yes: set<Address>, no: set<Address>)
    requires VotesOk(m.c) && Counted(m.c, id, yes, no)
    ensures Counted(Next(m, e).c, id, yes + Joining(m, e, id, true), no + Joining(m, e, id, false))
  {
    assert yes + {} == yes && no + {} == no;
    if e.Act? && Apply(m.c, m.now, e.call).Some? {
      CountStep(m.c, m.now, e.call, id, yes, no);
    }
  }

  /** In every run `votesFor` is the number of addresses with an accepted vote for the proposal, `votesAgainst` the
      number with one against it, and nobody is on both sides. */
  lemma {:induction false} CountsAreVotes(t0: u64, es: seq<Event>, id: u64)
    ensures Counted(RunTo(t0, es).c, id, Voters(t0, es, id, true), Voters(t0, es, id, false))
  {
    if es != [] {
      var n := |es| - 1;
      CountsAreVotes(t0, es[..n], id);
      AlwaysOk(t0, es[..n]);
      CountEvent(RunTo(t0, es[..n]), es[n], id, Voters(t0, es[..n], id, true), Voters(t0, es[..n], id, false));
    }
  }

  /** A tally is accepted on open proposals only, and passes exactly those with more voters for than against. */
  lemma TallyDecides(t0: u64, es: seq<Event>, j: nat, id: u64)
    requires j < |es| && Accepted(t0, es, j, Tally(id))
    ensures id in At(t0, es, j).c.proposals && At(t0, es, j).c.proposals[id].status == Open
    ensures id in At(t0, es, j + 1).c.proposals
    ensures At(t0, es, j + 1).c.proposals[id].status ==
      if |Voters(t0, es[..j], id, true)| > |Voters(t0, es[..j], id, false)| then Passed else Rejected
  {
    AtStep(t0, es, j);
    CountsAreVotes(t0, es[..j], id);
  }

  lemma NotExecutedAgain(t0: u64, es: seq<Event>, i: nat, j: nat, id: u64)
    requires i < j < |es| && Accepted(t0, es, i, ExecuteProposal(id))
    ensures !Accepted(t0, es, j, ExecuteProposal(id))
  {
    AtStep(t0, es, i);
    ExecutedForever(t0, es, i + 1, j, id);
  }

  /** Whenever a proposal is executed: it was opened earlier with those very terms, at least two days (172,800
      seconds) before; more distinct addresses have voted for it than against it; and no other event of the run,
      before or after, executes it. */
  lemma ExecutedProposalWasDecided(t0: u64, es: seq<Event>, j: nat, id: u64)
    requires j < |es| && Accepted(t0, es, j, ExecuteProposal(id))
    ensures var p := At(t0, es, j).c.proposals[id];
      && (exists i :: 0 <= i < j && Opens(t0, es, i, id, p) && At(t0, es, i).now + 172_800 <= At(t0, es, j).now)
      && p.votesFor == |Voters(t0, es[..j], id, true)| && p.votesAgainst == |Voters(t0, es[..j], id, false)|
      && |Voters(t0, es[..j], id, true)| > |Voters(t0, es[..j], id, false)|
      && Voters(t0, es[..j], id, true) !! Voters(t0, es[..j], id, false)
    ensures forall k :: 0 <= k < |es| && k != j ==> !Accepted(t0, es, k, ExecuteProposal(id))
  {
    AlwaysOk(t0, es[..j]);
    CountsAreVotes(t0, es[..j], id);
    EveryProposalWasOpened(t0, es, j, id);
    var i :| 0 <= i < j && Opens(t0, es, i, id, At(t0, es, j).c.proposals[id]);
    assert At(t0, es, i).now + 172_800 <= At(t0, es, j).now;
    forall k | 0 <= k < |es| && k != j
      ensures !Accepted(t0, es, k, ExecuteProposal(id))
    {
      if j < k {
        NotExecutedAgain(t0, es, j, k, id);
      } else if Accepted(t0, es, k, ExecuteProposal(id)) {
        NotExecutedAgain(t0, es, k, j, id);
      }
    }
  }

  // ----- multisig

  /** Event `i` is an accepted proposal or approval of operation `id` by `a`, a configured admin then. */
  predicate Endorses(t0: u64, es: seq<Event>, i: nat, id: u64, a: Address)
    requires i < |es|
  {
    && es[i].Act? && Accepted(t0, es, i, es[i].call)
    && (|| es[i].call == MultisigApprove(a, id)
        || (es[i].call.MultisigPropose? && es[i].call.caller == a && RulingAt(t0, es, i, es[i].call).id == Some(id)))
    && At(t0, es, i).c.multisig.Some? && a in At(t0, es, i).c.multisig.value.admins
  }

  /** One event leaves an operation alone, or adds one endorsement to it; an executed one is frozen. */
  lemma ApprovalsGrow(m: Moment, e: Event, id: u64)
    requires Ok(m.c) && id in Next(m, e).c.ops
    ensures id in m.c.ops && m.c.ops[id].executed ==> Next(m, e).c.ops[id] == m.c.ops[id]
    ensures Next(m, e).c.ops[id] != Lookup(m.c.ops, id, Next(m, e).c.ops[id]) || id !in m.c.ops ==>
      && e.Act? && Apply(m.c, m.now, e.call).Some?
      && m.c.multisig.Some?
      && ((e.call.MultisigPropose? && Apply(m.c, m.now, e.call).value.id == Some(id)
           && Next(m, e).c.ops[id].approvals == [e.call.caller])
          || (id in m.c.ops && e.call.MultisigApprove? && e.call.id == id
              && Next(m, e).c.ops[id].approvals == m.c.ops[id].approvals + [e.call.caller]))
      && e.call.caller in m.c.multisig.value.admins
  {
    if e.Act? && Apply(m.c, m.now, e.call).Some? {
      match e.call
      case MultisigPropose(caller, op) =>
      case MultisigApprove(caller, k) =>
      case _ => Frames(m.c, m.now, e.call);
    }
  }

  lemma {:induction false} EveryApprovalWasGiven(t0: u64, es: seq<Event>, j: nat, id: u64, a: Address)
    requires j <= |es| && id in At(t0, es, j).c.ops && a in At(t0, es, j).c.ops[id].approvals
    ensures exists i :: 0 <= i < j && Endorses(t0, es, i, id, a)
  {
    if j > 0 {
      AtStep(t0, es, j - 1);
      AlwaysOk(t0, es[..j - 1]);
      var m := At(t0, es, j - 1);
      ApprovalsGrow(m, es[j - 1], id);
      if id in m.c.ops && a in m.c.ops[id].approvals {
        EveryApprovalWasGiven(t0, es, j - 1, id, a);
      } else {
        assert Endorses(t0, es, j - 1, id, a);
      }
    }
  }

  /** Event `j` is the approval that fires operation `id`. */
  predicate Fires(t0: u64, es: seq<Event>, j: nat, id: u64)
    requires j < |es|
  {
    && es[j].Act? && es[j].call.MultisigApprove? && es[j].call.id == id
    && Accepted(t0, es, j, es[j].call)
    && RulingAt(t0, es, j, es[j].call).state.ops[id].executed
  }

  lemma {:induction false} FiredForever(t0: u64, es: seq<Event>, i: nat, j: nat, id: u64)
    requires i <= j <= |es|
    requires id in At(t0, es, i).c.ops && At(t0, es, i).c.ops[id].executed
    ensures id in At(t0, es, j).c.ops && At(t0, es, j).c.ops[id] == At(t0, es, i).c.ops[id]
    decreases j - i
  {
    if i < j {
      FiredForever(t0, es, i, j - 1, id);
      AtStep(t0, es, j - 1);
      AlwaysOk(t0, es[..j - 1]);
      KeysStay(At(t0, es, j - 1), es[j - 1], id);
      ApprovalsGrow(At(t0, es, j - 1), es[j - 1], id);
    }
  }

  lemma NotFiredTwice(t0: u64, es: seq<Event>, j: nat, k: nat, id: u64)
    requires j < k < |es| && Fires(t0, es, j, id)
    ensures !Fires(t0, es, k, id)
  {
    AtStep(t0, es, j);
    FiredForever(t0, es, j + 1, k, id);
  }

  /** Whenever a multisig operation fires: it carries at least the threshold then in force of pairwise
      distinct approvals, the last one before expiry, each given by an address configured when it
      approved; and it fires once in the whole run, whatever reconfigurations happen. */
  lemma FiredOpWasApproved(t0: u64, es: seq<Event>, j: nat, id: u64)
    requires j < |es| && Fires(t0, es, j, id)
    ensures var m, op := At(t0, es, j), RulingAt(t0, es, j, es[j].call).state.ops[id];
      && |op.approvals| >= m.c.multisig.value.threshold
      && Distinct(op.approvals)
      && m.now < op.expiresAt
      && (forall a :: a in op.approvals ==> exists i :: 0 <= i <= j && Endorses(t0, es, i, id, a))
    ensures forall k :: 0 <= k < |es| && k != j ==> !Fires(t0, es, k, id)
  {
    AtStep(t0, es, j);
    AlwaysOk(t0, es[..j + 1]);
    var op := At(t0, es, j + 1).c.ops[id];
    forall a | a in op.approvals
      ensures exists i :: 0 <= i <= j && Endorses(t0, es, i, id, a)
    {
      EveryApprovalWasGiven(t0, es, j + 1, id, a);
    }
    forall k | 0 <= k < |es| && k != j
      ensures !Fires(t0, es, k, id)
    {
      if Fires(t0, es, k, id) {
        NotFiredTwice(t0, es, Min(j, k), Max(j, k), id);
      }
    }
  }
}
