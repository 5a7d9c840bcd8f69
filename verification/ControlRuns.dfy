/** Whole contract runs, seen from the administration only. */
module ControlRuns {
  import opened Common
  import opened World
  import Steps
  import Control
  import D = Decisions

  /** What one call is for the administration: a clock tick, an administrative call, or nothing. */
  function EventOf(c: Call): seq<D.Event> {
    match c
    case Tick => [D.Tick]
    case Admin(a) => [D.Act(a)]
    case _ => []
  }

  /** The administrative events of a run, with its clock ticks. */
  function Events(calls: seq<Call>): seq<D.Event> {
    if calls == [] then [] else Events(calls[..|calls| - 1]) + EventOf(calls[|calls| - 1])
  }

  lemma OthersLeaveControl(w: World, c: Call)
    requires Steps.WorldOk(w) && !c.Tick? && !c.Admin?
    ensures After(w, c).now == w.now && After(w, c).control == w.control
  {
    if Exec(w, c).Some? {
      match c
      case OnStream(id, op) => Steps.OperateMeaning(w, id, op);
      case Create(employer, p, cooldown) => Steps.CreateOneMeaning(w, employer, p, cooldown);
      case CreateBatch(employer, list) => Steps.CreateEachMeaning(w, employer, list);
      case _ =>
    }
  }

  lemma TickAndAdmin(w: World, c: Call)
    requires c.Tick? || c.Admin?
    ensures D.Next(D.Moment(w.now, w.control), EventOf(c)[0]) == D.Moment(After(w, c).now, After(w, c).control)
  {
  }

  lemma LastEvent(t0: u64, es: seq<D.Event>, e: D.Event)
    ensures D.RunTo(t0, es + [e]) == D.Next(D.RunTo(t0, es), e)
  {
    assert (es + [e])[..|es|] == es;
  }

  /** One call moves the administration as its event does. */
  lemma ProjectStep(t0: u64, es: seq<D.Event>, w: World, c: Call)
    requires Steps.WorldOk(w) && D.RunTo(t0, es) == D.Moment(w.now, w.control)
    ensures D.RunTo(t0, es + EventOf(c)) == D.Moment(After(w, c).now, After(w, c).control)
  {
    if c.Tick? || c.Admin? {
      TickAndAdmin(w, c);
      LastEvent(t0, es, EventOf(c)[0]);
      assert EventOf(c) == [EventOf(c)[0]];
    } else {
      OthersLeaveControl(w, c);
      assert es + EventOf(c) == es;
    }
  }

  /** Every run of the whole contract is, for its administration and clock, a run of the administrative calls
      alone: so what holds of every such run holds in the deployed contract, whatever the streams do. */
  lemma {:induction false} ControlProjection(w: World, calls: seq<Call>)
    requires Genesis(w)
    ensures D.RunTo(w.now, Events(calls)) == D.Moment(RunTo(w, calls).now, RunTo(w, calls).control)
  {
    if calls != [] {
      var n := |calls| - 1;
      ControlProjection(w, calls[..n]);
      Steps.AlwaysOk(w, calls[..n]);
      ProjectStep(w.now, Events(calls[..n]), RunTo(w, calls[..n]), calls[n]);
    }
  }
}
