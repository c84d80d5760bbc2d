/** The append-only session log that every protocol below folds and extends. */
module SessionLog {
  import opened Wrappers
  import opened Utf8

  type Id = bytes
  type Text = bytes

  datatype TurnOrigin = User | FollowUp | Steer | Injection | Maintenance

  datatype FailureCode =
    | StepLimitExceeded | ContextAssemblyFailed | ProviderFailed | InboxFull | CompactionFailed | Internal
    | NoCode | Aborted

  /** A goal round's address: which goal, at which revision, as which round. */
  datatype GoalRoundRef = GoalRoundRef(goal: nat, revision: nat, round: nat)

  /** Who speaks in a message. */
  datatype Source =
    | FromUser
    | FromPlugin(plugin: Id)
    | FromGoal(ref: GoalRoundRef)

  datatype Message = Message(source: Source, text: Text)

  datatype Call = Call(id: Id, name: Id, arguments: Text)

  datatype Outcome = Ok | Error | Denied | Cancelled

  datatype Result = Result(id: Id, name: Id, outcome: Outcome, output: Text)

  datatype GoalPhase = Active | Paused | Blocked | Complete
  datatype BlockReason = BlockReason(code: Text, message: Text)
  datatype GoalSnapshot =
    GoalSnapshot(
      id: nat, revision: nat, objective: Text, phase: GoalPhase, blocked: Option<BlockReason>, maxRounds: nat)
  datatype GoalOperation = Create | Edit | Pause | Resume | Finish | Block | Clear

  datatype GoalChange =
    GoalChange(operation: GoalOperation, goal: Option<GoalSnapshot>, cleared: Option<nat>, rounds: nat)

  datatype Event =
    | TurnStarted(turn: nat, origin: TurnOrigin)
    | StepStarted(turn: nat, step: nat)
    | StepEnded(turn: nat, step: nat)
    | TurnEnded(turn: nat)
    | TurnFailed(turn: nat, code: FailureCode)
    | TurnCancelled(turn: nat)
    | UserMessage(message: Message)
    | ContextInjected(context: Message)
    | AssistantMessage
    | AssistantAttempt
    | TokenUsage
    | RequestHeader
    | ModelSelected
    | ContextCompaction
    | ToolCall(call: Call)
    | PermissionDecision(id: Id, allowed: bool)
    | ToolResult(result: Result)
    | ContextPrune(shadowed: nat)
    | PlanMode(active: bool)
    | GoalChanged(change: GoalChange)
    | SubagentFanIn(child: Id, noticeExpected: bool)

  type Log = seq<Event>
}
