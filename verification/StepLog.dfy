/** What a step and a turn leave in the log, event by event, and in the inbox. */
module StepLog {
  import opened Wrappers
  import opened SessionLog
  import opened TurnBudget
  import opened TurnWorld
  import opened TurnOutcome
  import opened AgentInbox
  import Pruner
  import Scheduler = ToolScheduler
  import SchedulerRun

  // ---------------------------------------------------------------------------
  // One step
  // ---------------------------------------------------------------------------

  /** A step begins with its start and the selections queued. */
  function OpeningEvents(world: World, turn: nat, step: nat): Log {
    [StepStarted(turn, step)] + SelectionEvents(world.selection(step), world.modelSelection(step))
  }

  /** What the scheduler logs of the calls of a response: the calls announced with what the gate
      said, one result each, as it is due, and the reminders they earned. */
  ghost predicate IsScheduleOf(
    env: Scheduler.Environment, calls: seq<Call>, before: Log, after: Log, results: seq<Result>, committed: nat)
  {
    && Scheduler.ExtendedBySchedule(before, after) && committed <= |calls|
    && SchedulerRun.ResultsAreDue(env, calls, results, committed)
    && Scheduler.ResultsIn(after) == Scheduler.ResultsIn(before) + results
    && SchedulerRun.Announced(env, calls, before, after, committed)
    && Scheduler.ContextsIn(after) == Scheduler.ContextsIn(before) + Scheduler.RemindersOf(env, committed)
  }

  ghost predicate IsSchedule(env: Scheduler.Environment, calls: seq<Call>, before: Log, after: Log) {
    exists results, committed :: IsScheduleOf(env, calls, before, after, results, committed)
  }

  /** What may follow the end of a step that called tools. */
  predicate IsToolEnding(turn: nat, ending: Log) {
    ending == [] || ending == [TurnCancelled(turn)] || ending == [TurnFailed(turn, StepLimitExceeded)]
  }

  /** A step that called tools: the schedule, the usage, its end, and what ends the turn. */
  ghost predicate CallsLogged(
    world: World, turn: nat, step: nat, calls: seq<Call>, usage: bool, before: Log, after: Log)
  {
    exists scheduled, ending :: CallsLoggedAs(world, turn, step, calls, usage, before, scheduled, ending, after)
  }

  ghost predicate CallsLoggedAs(
    world: World, turn: nat, step: nat, calls: seq<Call>, usage: bool, before: Log, scheduled: Log, ending: Log,
    after: Log)
  {
    && IsSchedule(world.schedule(step), calls, before, scheduled) && IsToolEnding(turn, ending)
    && after == scheduled + UsageEvents(usage) + [StepEnded(turn, step)] + ending
  }

  /** What a response makes the step log. */
  ghost predicate ResponseLogged(
    world: World, turn: nat, step: nat, response: Response, nudged: bool, before: Log, after: Log)
  {
    match response
    case StreamCancelled => after == before + [TurnCancelled(turn)]
    case StreamFailed(error) => after == before + [TurnFailed(turn, FailureFor(error))]
    case Completed(calls, usage) =>
      if calls == [] then
        after == before + UsageEvents(usage)
                 + [StepEnded(turn, step),
                    if !world.nonAction(step) then TurnEnded(turn)
                    else if nudged then TurnFailed(turn, StepLimitExceeded)
                    else UserMessage(NUDGE)]
      else CallsLogged(world, turn, step, calls, usage, before, after)
  }

  /** From the prepared request on: the attempts, then what their response makes the step log. */
  ghost predicate RequestLogged(
    rules: Rules, world: World, turn: nat, step: nat, progress: Progress, spent: nat, before: Log, after: Log)
  {
    CanConverse(rules, world, step, spent) ==>
      exists conversed ::
        && IsConversation(rules, world, step, spent, before, conversed)
        && ResponseLogged(world, turn, step, ReplyTo(world, step, if Retries(rules, world, step, spent) then 1 else 0),
                          progress.nudged, conversed, after)
  }

  /** Behind the items that folded: the request is prepared, if it can be, and the provider asked. */
  ghost predicate WorkLogged(
    rules: Rules, world: World, turn: nat, step: nat, progress: Progress, before: Log, after: Log)
  {
    CanPrepare(rules, world, step, progress.compactions) ==>
      exists prepared ::
        && IsPreparation(rules, world, step, progress.compactions, before, prepared)
        && RequestLogged(rules, world, turn, step, progress, Spent(rules, world, step, progress.compactions),
                         prepared, after)
  }

  /** Behind the start of the step exactly the items that fold are logged, then its work. */
  ghost predicate StepLogged(
    rules: Rules, world: World, turn: nat, step: nat, progress: Progress, folded: seq<InboxItem>, before: Log,
    after: Log)
  {
    var begun := before + OpeningEvents(world, turn, step) + AllPosts(folded);
    begun <= after && WorkLogged(rules, world, turn, step, progress, begun, after)
  }

  lemma UnpreparedIsLogged(
    rules: Rules, world: World, turn: nat, step: nat, progress: Progress, before: Log, after: Log)
    requires !CanPrepare(rules, world, step, progress.compactions)
    ensures WorkLogged(rules, world, turn, step, progress, before, after)
  {
  }

  lemma PreparedIsLogged(
    rules: Rules, world: World, turn: nat, step: nat, progress: Progress, before: Log, prepared: Log, after: Log)
    requires IsPreparation(rules, world, step, progress.compactions, before, prepared)
    requires RequestLogged(rules, world, turn, step, progress, Spent(rules, world, step, progress.compactions),
                           prepared, after)
    ensures WorkLogged(rules, world, turn, step, progress, before, after)
  {
    hide IsPreparation, RequestLogged;
  }

  lemma ConversationIsLogged(
    rules: Rules, world: World, turn: nat, step: nat, progress: Progress, spent: nat, before: Log, conversed: Log,
    after: Log)
    requires IsConversation(rules, world, step, spent, before, conversed)
    requires ResponseLogged(world, turn, step,
                            ReplyTo(world, step, if Retries(rules, world, step, spent) then 1 else 0),
                            progress.nudged, conversed, after)
    ensures RequestLogged(rules, world, turn, step, progress, spent, before, after)
  {
    hide IsConversation, ResponseLogged, ReplyTo, Retries;
  }

  lemma UnansweredIsLogged(
    rules: Rules, world: World, turn: nat, step: nat, progress: Progress, spent: nat, before: Log, after: Log)
    requires !CanConverse(rules, world, step, spent)
    ensures RequestLogged(rules, world, turn, step, progress, spent, before, after)
  {
  }

  /** A request is built, an attempt settles, or a tool is called. */
  predicate UsesContext(event: Event) {
    event.RequestHeader? || event.AssistantMessage? || event.AssistantAttempt? || event.ToolCall?
  }

  lemma {:induction false} PostsUseNothing(items: seq<InboxItem>)
    ensures forall k :: 0 <= k < |AllPosts(items)| ==> !UsesContext(AllPosts(items)[k])
  {
    if items != [] {
      PostsUseNothing(items[..|items| - 1]);
    }
  }

  /** Whatever uses the context of a step comes behind all items that folded into the step. */
  lemma FoldedBeforeUse(
    rules: Rules, world: World, turn: nat, step: nat, progress: Progress, folded: seq<InboxItem>, before: Log,
    after: Log, k: nat)
    requires StepLogged(rules, world, turn, step, progress, folded, before, after)
    requires |before| <= k < |after| && UsesContext(after[k])
    ensures k >= |before + OpeningEvents(world, turn, step) + AllPosts(folded)|
    ensures before + OpeningEvents(world, turn, step) + AllPosts(folded) <= after[..k]
  {
    hide AllPosts, WorkLogged, UsesContext, OpeningEvents;
    var opening, posts := OpeningEvents(world, turn, step), AllPosts(folded);
    OpeningUsesNothing(world, turn, step);
    PostsUseNothing(folded);
    var begun := before + opening + posts;
    forall j | |before| <= j < |begun| ensures !UsesContext(begun[j]) {
      assert begun[j] == if j < |before| + |opening| then opening[j - |before|] else posts[j - |before| - |opening|];
    }
    if k < |begun| {
      SharedBeginning(begun, after, k);
    }
  }

  lemma SharedBeginning(log: Log, more: Log, k: nat)
    requires log <= more && k < |log|
    ensures more[k] == log[k]
  {
  }

  lemma OpeningUsesNothing(world: World, turn: nat, step: nat)
    ensures forall k :: 0 <= k < |OpeningEvents(world, turn, step)| ==>
              !UsesContext(OpeningEvents(world, turn, step)[k])
  {
  }

  // ---------------------------------------------------------------------------
  // A turn
  // ---------------------------------------------------------------------------

  /** The first `n` steps of a turn, each with what it folded. */
  ghost predicate StepsLogged(
    rules: Rules, world: World, maxInbox: nat, turn: nat, first: nat, n: nat, queue: Queue, before: Log, after: Log)
    decreases n, 1
  {
    if n == 0 then after == before
    else exists middle :: LoggedVia(rules, world, maxInbox, turn, first, n, queue, before, middle, after)
  }

  /** `middle` is where the last of the steps begins. */
  ghost predicate LoggedVia(
    rules: Rules, world: World, maxInbox: nat, turn: nat, first: nat, n: nat, queue: Queue, before: Log, middle: Log,
    after: Log)
    requires n > 0
    decreases n, 0
  {
    && StepsLogged(rules, world, maxInbox, turn, first, n - 1, queue, before, middle)
    && StepLogged(rules, world, turn, first + n - 1, ProgressAfter(rules, world, first, n - 1),
                  FoldedIn(queue, maxInbox, n - 1), middle, after)
  }

  /** All steps of a turn, and what the ceiling adds. */
  ghost predicate TurnLogged(
    rules: Rules, world: World, maxInbox: nat, turn: nat, first: nat, count: nat, queue: Queue, before: Log, after: Log)
  {
    || StepsLogged(rules, world, maxInbox, turn, first, count, queue, before, after)
    || (count == rules.TurnCeiling() && after != [] && after[|after| - 1] == TurnFailed(turn, StepLimitExceeded)
        && StepsLogged(rules, world, maxInbox, turn, first, count, queue, before, after[..|after| - 1]))
  }

  lemma OneMoreLogged(
    rules: Rules, world: World, maxInbox: nat, turn: nat, first: nat, n: nat, queue: Queue, before: Log, middle: Log,
    after: Log)
    requires StepsLogged(rules, world, maxInbox, turn, first, n, queue, before, middle)
    requires StepLogged(rules, world, turn, first + n, ProgressAfter(rules, world, first, n),
                        FoldedIn(queue, maxInbox, n), middle, after)
    ensures StepsLogged(rules, world, maxInbox, turn, first, n + 1, queue, before, after)
    ensures TurnLogged(rules, world, maxInbox, turn, first, n + 1, queue, before, after)
  {
    hide StepLogged, FoldedIn, ProgressAfter;
    assert LoggedVia(rules, world, maxInbox, turn, first, n + 1, queue, before, middle, after);
  }

  lemma CeilingLogged(
    rules: Rules, world: World, maxInbox: nat, turn: nat, first: nat, queue: Queue, before: Log, after: Log)
    requires StepsLogged(rules, world, maxInbox, turn, first, rules.TurnCeiling(), queue, before, after)
    ensures TurnLogged(rules, world, maxInbox, turn, first, rules.TurnCeiling(), queue, before,
                       after + [TurnFailed(turn, StepLimitExceeded)])
  {
    hide StepsLogged;
    var more := after + [TurnFailed(turn, StepLimitExceeded)];
    assert more[..|more| - 1] == after;
  }

  /** Every step adds to the log. */
  lemma {:induction false} StepsGrow(
    rules: Rules, world: World, maxInbox: nat, turn: nat, first: nat, n: nat, queue: Queue, before: Log, after: Log)
    requires StepsLogged(rules, world, maxInbox, turn, first, n, queue, before, after)
    ensures before <= after && |after| >= |before| + n
  {
    hide StepLogged, FoldedIn, ProgressAfter;
    if n > 0 {
      var middle :| LoggedVia(rules, world, maxInbox, turn, first, n, queue, before, middle, after);
      StepsGrow(rules, world, maxInbox, turn, first, n - 1, queue, before, middle);
      StepGrows(rules, world, turn, first + n - 1, ProgressAfter(rules, world, first, n - 1),
                FoldedIn(queue, maxInbox, n - 1), middle, after);
    }
  }

  lemma BeginningGrows(log: Log, opening: Log, posts: Log, after: Log)
    requires log + opening + posts <= after && opening != []
    ensures log <= after && |after| > |log|
  {
  }

  lemma TurnGrows(
    rules: Rules, world: World, maxInbox: nat, turn: nat, first: nat, count: nat, queue: Queue, before: Log, after: Log)
    requires TurnLogged(rules, world, maxInbox, turn, first, count, queue, before, after)
    ensures before <= after && |after| >= |before| + count
  {
    hide StepsLogged;
    if StepsLogged(rules, world, maxInbox, turn, first, count, queue, before, after) {
      StepsGrow(rules, world, maxInbox, turn, first, count, queue, before, after);
    } else {
      StepsGrow(rules, world, maxInbox, turn, first, count, queue, before, after[..|after| - 1]);
    }
  }

  /** Whenever a request is built, an attempt settles or a tool is called, the step under way has
      logged all that led the inbox and folds, and nothing that folds leads what still waits. */
  lemma {:induction false} NothingWaitsAtUse(
    rules: Rules, world: World, maxInbox: nat, turn: nat, first: nat, n: nat, queue: Queue, before: Log, after: Log,
    k: nat)
    returns (i: nat, middle: Log, last: Log)
    requires StepsLogged(rules, world, maxInbox, turn, first, n, queue, before, after)
    requires |before| <= k < |after| && UsesContext(after[k])
    ensures i < n && |middle| <= k < |last| && last <= after
    ensures StepLogged(rules, world, turn, first + i, ProgressAfter(rules, world, first, i),
                       FoldedIn(queue, maxInbox, i), middle, last)
    ensures middle + OpeningEvents(world, turn, first + i) + AllPosts(FoldedIn(queue, maxInbox, i)) <= after[..k]
    ensures var waiting := QueueAfter(queue, maxInbox, i + 1).inbox; waiting == [] || !Folds(waiting[0])
  {
    hide StepLogged, FoldedIn, ProgressAfter, QueueAfter, UsesContext, Folds, OpeningEvents, AllPosts;
    middle :| LoggedVia(rules, world, maxInbox, turn, first, n, queue, before, middle, after);
    StepGrows(rules, world, turn, first + n - 1, ProgressAfter(rules, world, first, n - 1),
              FoldedIn(queue, maxInbox, n - 1), middle, after);
    if k < |middle| {
      var earlier := middle;
      i, middle, last := NothingWaitsAtUse(rules, world, maxInbox, turn, first, n - 1, queue, before, earlier, k);
      assert earlier[..k] == after[..k];
    } else {
      i, last := n - 1, after;
      NothingLeads(queue, maxInbox, n);
      FoldedBeforeUse(rules, world, turn, first + n - 1, ProgressAfter(rules, world, first, n - 1),
                      FoldedIn(queue, maxInbox, n - 1), middle, after, k);
    }
  }

  lemma StepGrows(
    rules: Rules, world: World, turn: nat, step: nat, progress: Progress, folded: seq<InboxItem>, before: Log,
    after: Log)
    requires StepLogged(rules, world, turn, step, progress, folded, before, after)
    ensures before <= after && |after| > |before|
  {
    hide WorkLogged, AllPosts;
    BeginningGrows(before, OpeningEvents(world, turn, step), AllPosts(folded), after);
  }
}
