/**
 * What a run meets and what it leaves behind: budgets (domain/employees/limits.py), the model, the tools, the person
 * asked, the clock and the cancellation signal, and the journal of everything a run does to the outside.
 *
 * The outside is a record of functions of the transcript. Within one run every transcript is met once, so the
 * functions answer freely every time they are asked.
 */
module Worlds {
  import opened Wrappers
  import opened Transcripts
  import opened Tasks
  import opened Policies

  datatype Limits = Limits(maxSteps: int, maxCost: real, maxWallTime: real)

  /** `exceeded_by`: the first budget that is used up. */
  function ExceededBy(limits: Limits, steps: int, cost: real, elapsed: real): Option<LimitKind> {
    if steps >= limits.maxSteps then Some(STEPS)
    else if cost >= limits.maxCost then Some(COST)
    else if elapsed >= limits.maxWallTime then Some(WALL_TIME)
    else None
  }

  /** The employee a run is for: the tools it was granted, its policies, its budgets, and whether anybody can be asked. */
  datatype Employee = Employee(granted: seq<ToolSpec>, policies: set<string>, limits: Limits, approver: bool)

  datatype Reply = Reply(content: string, calls: seq<ToolCall>, cost: real) | NoReply(error: Exception)

  datatype ToolResult = ToolResult(success: bool, output: string, error: string)

  /** A tool's own judgement of a call. */
  datatype Judgement = NoJudgement | Judged(assessment: RiskAssessment) | JudgementFailed(error: Exception)

  datatype ApprovalState = PENDING | APPROVED | REJECTED | EXPIRED

  datatype Answer = Answered(state: ApprovalState) | NoAnswer(error: Exception)

  datatype World = World(
    cancelled: Transcript -> bool,
    elapsed: Transcript -> real,
    generate: (Transcript, seq<ToolSpec>) -> Reply,
    find: (Transcript, string) -> Option<ToolSpec>,
    assess: (Transcript, ToolCall) -> Judgement,
    answer: (Transcript, ToolCall) -> Answer,
    execute: (Transcript, ToolCall) -> ToolResult)

  /** One thing a run does that somebody else can see, in the order it happens. */
  datatype Act =
    | Asked(spent: real, offered: seq<string>)
    | Paid(cost: real)
    | Decided(tool: string, decision: Decision)
    | Told(status: TaskStatus)
    | Heard(tool: string, state: ApprovalState)
    | Executed(tool: string)
    | Saved(transcript: Transcript)

  class Journal {
    var acts: seq<Act>

    constructor ()
      ensures acts == []
    {
      acts := [];
    }

    method Record(act: Act)
      modifies this
      ensures acts == old(acts) + [act]
    {
      acts := acts + [act];
    }
  }
}
