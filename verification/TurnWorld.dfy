/** What the agent loop does not decide, and what a step makes of it. */
module TurnWorld {
  import opened Wrappers
  import opened SessionLog
  import opened TurnBudget
  import Pruner
  import Scheduler = ToolScheduler

  datatype AgentState = Idle | Thinking | CallingTool | Errored

  datatype StreamError = Unspecified | Interrupted | ContextTooLong | ProviderError
  datatype Response = Completed(calls: seq<Call>, usage: bool) | StreamCancelled | StreamFailed(error: StreamError)
  datatype Attempt = NotDispatched | FlushFailed | Settled(response: Response)
  datatype Compaction = NothingToDo | Compacted(usage: bool) | CompactionCancelled | CompactionUnsuccessful
  datatype Assembly = Assembly(contexts: seq<Message>, fails: bool)

  /** Everything the loop does not decide, by turn, or by step (and by attempt or occasion
      within it). */
  datatype World = World(
    pruning: Pruner.Config,
    contextMissing: bool,
    runtimeMissing: bool,
    retriesOnOverflow: bool,
    opening: nat -> seq<Message>,
    instructions: nat -> seq<Message>,
    selection: nat -> Option<bool>,
    modelSelection: nat -> bool,
    flush: nat -> Option<bool>,
    modelFlush: nat -> bool,
    assembly: (nat, nat) -> Assembly,
    header: (nat, nat) -> bool,
    pressure: nat -> bool,
    compaction: (nat, nat) -> Compaction,
    maintenance: nat -> Compaction,
    slot: (nat, nat) -> bool,
    attempt: (nat, nat) -> Attempt,
    nonAction: nat -> bool,
    schedule: nat -> Scheduler.Environment)

  /** The corrective nudge; its text stands for the fixed wording. */
  const NUDGE := Message(FromPlugin([0x61, 0x67, 0x65, 0x6E, 0x74, 0x2D, 0x6E, 0x75, 0x64, 0x67, 0x65]), [0x6E])

  /** `mapAgentError` */
  function FailureFor(error: StreamError): FailureCode {
    match error
    case Unspecified => NoCode
    case Interrupted => Aborted
    case ContextTooLong => CompactionFailed
    case ProviderError => ProviderFailed
  }

  /** Every failure but a recoverable stop leaves the agent failed. */
  function StateAfter(event: Event): AgentState {
    if event.TurnFailed? && !event.code.StepLimitExceeded? then Errored else Idle
  }

  // ---------------------------------------------------------------------------
  // What is logged
  // ---------------------------------------------------------------------------

  /** Queued selections that take effect: plan mode first, then the model. */
  function SelectionEvents(selection: Option<bool>, model: bool): Log {
    (if selection.Some? then [PlanMode(selection.value)] else []) + if model then [ModelSelected] else []
  }

  function ContextEvents(contexts: seq<Message>): Log {
    if contexts == [] then []
    else ContextEvents(contexts[..|contexts| - 1]) + [ContextInjected(contexts[|contexts| - 1])]
  }

  function UsageEvents(usage: bool): Log {
    if usage then [TokenUsage] else []
  }

  function CompactionEvents(compaction: Compaction): Log {
    if compaction.Compacted? then [ContextCompaction] + UsageEvents(compaction.usage) else []
  }

  /** Compactions counted against the cap of the turn. */
  function CompactionsIn(compaction: Compaction): nat {
    if compaction.Compacted? then 1 else 0
  }

  /** A settled attempt is one event; one that was never dispatched is none. */
  function SettledEvents(world: World, step: nat, attempt: nat): Log {
    if world.slot(step, attempt) && world.attempt(step, attempt).Settled? then
      [if world.attempt(step, attempt).response.Completed? then AssistantMessage else AssistantAttempt]
    else []
  }

  /** `assemble_messages`: one pruning pass, then the contexts that changed. */
  ghost predicate IsAssembly(world: World, step: nat, occasion: nat, before: Log, after: Log) {
    exists pruned ::
      Pruner.PassedOnce(world.pruning, before, pruned)
      && after == pruned + ContextEvents(world.assembly(step, occasion).contexts)
  }

  /** `buildRequest`: another pruning pass, then the header if it changed. */
  ghost predicate IsRequest(world: World, step: nat, occasion: nat, before: Log, after: Log) {
    exists pruned ::
      Pruner.PassedOnce(world.pruning, before, pruned)
      && after == pruned + if world.header(step, occasion) then [RequestHeader] else []
  }

  // ---------------------------------------------------------------------------
  // How a step goes
  // ---------------------------------------------------------------------------

  /** The request is too long, and the turn may still compact. */
  predicate Pressed(rules: Rules, world: World, step: nat, compactions: nat) {
    compactions < rules.compactionCap && world.pressure(step)
  }

  predicate CanAssemble(rules: Rules, world: World, step: nat, compactions: nat) {
    !world.assembly(step, 0).fails && (Pressed(rules, world, step, compactions) ==> !world.assembly(step, 1).fails)
  }

  predicate CanPrepare(rules: Rules, world: World, step: nat, compactions: nat) {
    !world.contextMissing && CanAssemble(rules, world, step, compactions) && !world.runtimeMissing
  }

  /** Compactions of the turn once the request is prepared. */
  function Spent(rules: Rules, world: World, step: nat, compactions: nat): nat {
    compactions + if Pressed(rules, world, step, compactions) then CompactionsIn(world.compaction(step, 0)) else 0
  }

  /** What the log holds once the messages of the first request are assembled, the workspace
      instructions before them. */
  ghost predicate IsCompactedAssembly(
    rules: Rules, world: World, step: nat, compactions: nat, before: Log, assembled: Log, after: Log)
  {
    && IsAssembly(world, step, 0, before + ContextEvents(world.instructions(step)), assembled)
    && if Pressed(rules, world, step, compactions)
       then IsAssembly(world, step, 1, assembled + CompactionEvents(world.compaction(step, 0)), after)
       else after == assembled
  }

  /** What the log holds once the first request of a step is built. */
  ghost predicate IsPreparation(rules: Rules, world: World, step: nat, compactions: nat, before: Log, after: Log) {
    exists assembled, ready ::
      && IsCompactedAssembly(rules, world, step, compactions, before, assembled, ready)
      && IsRequest(world, step, 0, ready, after)
  }

  /** What attempt number `attempt` of a step comes to, when it does not fail the turn itself. */
  function ReplyTo(world: World, step: nat, attempt: nat): Response {
    if !world.slot(step, attempt) then StreamCancelled
    else
      match world.attempt(step, attempt)
      case Settled(response) => response
      case _ => StreamFailed(ProviderError)
  }

  predicate Flushes(world: World, step: nat, attempt: nat) {
    world.slot(step, attempt) ==> !world.attempt(step, attempt).FlushFailed?
  }

  /** The first attempt overflowed and there is a second one. */
  predicate Retries(rules: Rules, world: World, step: nat, compactions: nat) {
    && ReplyTo(world, step, 0) == StreamFailed(ContextTooLong)
    && compactions < rules.compactionCap && world.retriesOnOverflow
  }

  predicate CanConverse(rules: Rules, world: World, step: nat, compactions: nat) {
    && Flushes(world, step, 0)
    && (Retries(rules, world, step, compactions) ==> !world.assembly(step, 2).fails && Flushes(world, step, 1))
  }

  /** What the attempts of a step log, with what comes between two of them. */
  ghost predicate IsConversation(rules: Rules, world: World, step: nat, compactions: nat, before: Log, after: Log) {
    var first := before + SettledEvents(world, step, 0);
    if Retries(rules, world, step, compactions) then
      exists assembled, ready ::
        && IsAssembly(world, step, 2, first + CompactionEvents(world.compaction(step, 1)), assembled)
        && IsRequest(world, step, 1, assembled, ready)
        && after == ready + SettledEvents(world, step, 1)
    else after == first
  }

  /** Why no request could be built, when none could. */
  function PreparationFailure(rules: Rules, world: World, step: nat, compactions: nat): FailureCode {
    if world.contextMissing || !CanAssemble(rules, world, step, compactions) then ContextAssemblyFailed
    else ProviderFailed
  }

  /** Why the attempts failed the turn, when they did. */
  function ConversationFailure(world: World, step: nat): FailureCode {
    if Flushes(world, step, 0) && world.assembly(step, 2).fails then ContextAssemblyFailed else Internal
  }

  /** What the loop acts on, unless the turn fails on the way. */
  datatype Reply = Failing(code: FailureCode) | Replying(response: Response)

  function StepReply(rules: Rules, world: World, step: nat, compactions: nat): Reply {
    var spent := Spent(rules, world, step, compactions);
    if !CanPrepare(rules, world, step, compactions) then Failing(PreparationFailure(rules, world, step, compactions))
    else if !CanConverse(rules, world, step, spent) then Failing(ConversationFailure(world, step))
    else Replying(ReplyTo(world, step, if Retries(rules, world, step, spent) then 1 else 0))
  }

  /** Compactions of the turn between the attempts included. */
  function WithRetry(rules: Rules, world: World, step: nat, compactions: nat): nat {
    compactions + if Retries(rules, world, step, compactions) then CompactionsIn(world.compaction(step, 1)) else 0
  }

  function SpentInAll(rules: Rules, world: World, step: nat, compactions: nat): nat {
    WithRetry(rules, world, step, Spent(rules, world, step, compactions))
  }

  /** The step calls tools, and the token is cancelled before any of them starts. */
  predicate IsCancelledLate(rules: Rules, world: World, step: nat, compactions: nat) {
    var reply := StepReply(rules, world, step, compactions);
    && reply.Replying? && reply.response.Completed? && reply.response.calls != []
    && world.schedule(step).cancelled(0)
  }
}
