/**
  What surrounds the controller: the clock, the planner and the tool handlers, any of which may
  answer anything.  The world remembers every answer it gave and everything that made a call fail.
 */
module AgentWorld {
  import opened AgentModels
  import Policy = AgentPolicy

  datatype PlannerAnswer = Proposed(proposal: Proposal) | PlannerError

  /** One call of a tool handler with what came of it. */
  datatype HandlerCall = HandlerCall(call: ToolCall, outcome: Policy.HandlerOutcome)

  /** Why a call gives up part-way. */
  datatype Trouble =
    | ClockBehind(updatedAt: int, now: int)
    | Overtaken(held: nat, stored: nat)
    | Unusable(outcome: Policy.HandlerOutcome)

  /** The clock ran backwards, another call saved the task first, or a handler raised an error without a message. */
  predicate Real(trouble: Trouble) {
    match trouble
    case ClockBehind(updatedAt, now) => now < updatedAt
    case Overtaken(held, stored) => held != stored
    case Unusable(outcome) => outcome.Raised? && outcome.message == ""
  }

  type RealTrouble = t: Trouble | Real(t) witness ClockBehind(1, 0)

  class World {
    ghost var clock: seq<int>
    ghost var answers: seq<PlannerAnswer>
    ghost var calls: seq<HandlerCall>
    ghost var troubles: seq<RealTrouble>

    constructor ()
      ensures clock == [] && answers == [] && calls == [] && troubles == []
    {
      clock, answers, calls, troubles := [], [], [], [];
    }

    method Now() returns (now: int)
      modifies this`clock
      ensures clock == old(clock) + [now]
    {
      now := *;
      clock := clock + [now];
    }

    /** Call a handler once. */
    method Handle(call: ToolCall) returns (outcome: Policy.HandlerOutcome)
      modifies this`calls
      ensures calls == old(calls) + [HandlerCall(call, outcome)]
    {
      outcome := *;
      calls := calls + [HandlerCall(call, outcome)];
    }

    ghost method Hear(answer: PlannerAnswer)
      modifies this`answers
      ensures answers == old(answers) + [answer]
    {
      answers := answers + [answer];
    }

    ghost method Suffer(trouble: RealTrouble)
      modifies this`troubles
      ensures troubles == old(troubles) + [trouble]
    {
      troubles := troubles + [trouble];
    }
  }
}
