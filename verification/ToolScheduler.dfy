/** `execute_tool_calls`: bounded parallelism that commits results in call order,
    with exclusive barriers and cancellation. */
module ToolScheduler {
  import opened Wrappers
  import opened SessionLog

  /** What the scheduler does not decide. `cancelled(k)` is the answer to the k-th
      question put to the cancellation token during one schedule. */
  datatype Environment = Environment(
    exclusive: Id -> bool,
    hasPlan: Text -> bool,
    planActive: nat -> bool,
    allowed: nat -> bool,
    tool: nat -> Result,
    reminder: nat -> Option<Message>,
    cancelled: nat -> bool)

  /** Cancellation is never taken back. */
  ghost predicate Monotone(env: Environment) {
    forall i, j :: 0 <= i <= j && env.cancelled(i) ==> env.cancelled(j)
  }

  /** "exit_plan_mode" */
  const EXIT_PLAN: Id := [0x65, 0x78, 0x69, 0x74, 0x5F, 0x70, 0x6C, 0x61, 0x6E, 0x5F, 0x6D, 0x6F, 0x64, 0x65]

  /** Stand for the fixed wordings of the results the scheduler makes up itself. */
  const REJECTION: Text := [0x72]
  const DENIAL: Text := [0x64]
  const CANCELLATION: Text := [0x63]

  // ---------------------------------------------------------------------------
  // One call
  // ---------------------------------------------------------------------------

  datatype Plan = RunTool | Decided(result: Result)

  /** `exit_plan_mode` outside plan mode or without a plan is rejected unasked. */
  predicate IsRejected(env: Environment, calls: seq<Call>, i: nat)
    requires i < |calls|
  {
    calls[i].name == EXIT_PLAN && (!env.planActive(i) || !env.hasPlan(calls[i].arguments))
  }

  /** Permission is asked for every call but an `exit_plan_mode` with nothing to leave. */
  predicate MayAsk(env: Environment, calls: seq<Call>, i: nat)
    requires i < |calls|
  {
    calls[i].name == EXIT_PLAN ==> env.planActive(i) && env.hasPlan(calls[i].arguments)
  }

  /** The only calls whose tools ever run. */
  predicate MayRun(env: Environment, calls: seq<Call>, i: nat)
    requires i < |calls|
  {
    MayAsk(env, calls, i) && env.allowed(i)
  }

  /** The result a call is due once it was carried out or decided. */
  predicate IsDue(env: Environment, calls: seq<Call>, i: nat, result: Result)
    requires i < |calls|
  {
    if !MayAsk(env, calls, i) then result == Result(calls[i].id, calls[i].name, Error, REJECTION)
    else if !env.allowed(i) then result == Result(calls[i].id, calls[i].name, Denied, DENIAL)
    else
      && result.outcome == env.tool(i).outcome && result.output == env.tool(i).output
      && result.id == (if env.tool(i).id == [] then calls[i].id else env.tool(i).id)
      && result.name == (if env.tool(i).name == [] then calls[i].name else env.tool(i).name)
  }

  /** `prepareToolCall` */
  function PlanOf(env: Environment, calls: seq<Call>, i: nat): Plan
    requires i < |calls|
  {
    if IsRejected(env, calls, i) then Decided(Result(calls[i].id, calls[i].name, Error, REJECTION))
    else if !env.allowed(i) then Decided(Result(calls[i].id, calls[i].name, Denied, DENIAL))
    else RunTool
  }

  function PreparationEvents(env: Environment, calls: seq<Call>, i: nat): Log
    requires i < |calls|
  {
    [ToolCall(calls[i])] +
    if IsRejected(env, calls, i) then [] else [PermissionDecision(calls[i].id, env.allowed(i))]
  }

  /** `commitToolResult` fills in an id or a name the tool left empty. */
  function Filled(call: Call, raw: Result): Result {
    raw.(id := if raw.id == [] then call.id else raw.id, name := if raw.name == [] then call.name else raw.name)
  }

  /** The committed result of a call that was carried out or decided. */
  function RealResult(env: Environment, calls: seq<Call>, i: nat): Result
    requires i < |calls|
  {
    Filled(calls[i], if PlanOf(env, calls, i).RunTool? then env.tool(i) else PlanOf(env, calls, i).result)
  }

  /** The result made up for a call that cancellation overtook. */
  function CancelledResult(call: Call): Result {
    Result(call.id, call.name, Cancelled, CANCELLATION)
  }

  // ---------------------------------------------------------------------------
  // The schedule's state
  // ---------------------------------------------------------------------------

  /** When tools ran (started in parallel, awaited, or run alone), and the answers of the
      cancellation token in between. */
  datatype Action = Launch(i: nat) | Join(i: nat) | RunAlone(i: nat) | Asked(answer: bool)
  {
    predicate Starts() { Launch? || RunAlone? }
  }

  datatype Schedule = Schedule(
    log: Log, slots: seq<Option<Result>>, inFlight: seq<nat>, trace: seq<Action>, exitRequested: bool)

  function ReminderEvents(env: Environment, i: nat): Log {
    match env.reminder(i) case Some(message) => [ContextInjected(message)] case None => []
  }

  predicate RequestsExit(call: Call, result: Result) {
    call.name == EXIT_PLAN && result.outcome == Ok
  }

  /** Logs a result, fills its slot and observes the call. */
  function Committed(env: Environment, calls: seq<Call>, s: Schedule, i: nat, raw: Result): Schedule
    requires i < |calls| == |s.slots|
  {
    var result := Filled(calls[i], raw);
    s.(log := s.log + [ToolResult(result)] + ReminderEvents(env, i),
       slots := s.slots[i := Some(result)],
       exitRequested := s.exitRequested || RequestsExit(calls[i], result))
  }

  method Prepare(env: Environment, calls: seq<Call>, s: Schedule, i: nat) returns (next: Schedule, plan: Plan)
    requires i < |calls|
    ensures next == s.(log := s.log + PreparationEvents(env, calls, i)) && plan == PlanOf(env, calls, i)
    ensures plan.RunTool? <==> MayRun(env, calls, i)
    ensures plan.Decided? ==> IsDue(env, calls, i, plan.result)
    ensures next.log == s.log + [ToolCall(calls[i])] +
                        if MayAsk(env, calls, i) then [PermissionDecision(calls[i].id, env.allowed(i))] else []
  {
    var call := calls[i];
    var log := s.log + [ToolCall(call)];
    if call.name == EXIT_PLAN {
      if !env.planActive(i) {
        assert PreparationEvents(env, calls, i) == [ToolCall(call)] && log == s.log + [ToolCall(call)] + [];
        return s.(log := log), Decided(Result(call.id, call.name, Error, REJECTION));
      }
      if !env.hasPlan(call.arguments) {
        assert PreparationEvents(env, calls, i) == [ToolCall(call)] && log == s.log + [ToolCall(call)] + [];
        return s.(log := log), Decided(Result(call.id, call.name, Error, REJECTION));
      }
    }
    log := log + [PermissionDecision(call.id, env.allowed(i))];
    assert log == s.log + PreparationEvents(env, calls, i);
    plan := if env.allowed(i) then RunTool else Decided(Result(call.id, call.name, Denied, DENIAL));
    next := s.(log := log);
  }

  // ---------------------------------------------------------------------------
  // What the trace and the log must show
  // ---------------------------------------------------------------------------

  /** Tools running after `trace`. */
  function Running(trace: seq<Action>): int {
    if trace == [] then 0
    else
      var earlier, last := Running(trace[..|trace| - 1]), trace[|trace| - 1];
      match last case Launch(_) => earlier + 1 case Join(_) => earlier - 1 case _ => earlier
  }

  /** Never more than `bound` tools at once, and none beside one that runs alone. */
  ghost predicate RespectsBound(trace: seq<Action>, bound: nat) {
    forall n :: 0 <= n <= |trace| ==>
      0 <= Running(trace[..n]) <= bound && (n < |trace| && trace[n].RunAlone? ==> Running(trace[..n]) == 0)
  }

  /** An exclusive tool runs alone and nothing else does: with `RespectsBound`, an exclusive
      tool starts only when nothing is in flight, and nothing starts beside it. */
  ghost predicate RespectsModes(env: Environment, calls: seq<Call>, trace: seq<Action>) {
    forall n :: 0 <= n < |trace| && trace[n].Starts() ==>
      trace[n].i < |calls| && (trace[n].RunAlone? <==> env.exclusive(calls[trace[n].i].name))
  }

  /** Between the starts of two successive calls in parallel a tool is awaited only when as many
      are in flight as may be. */
  ghost predicate WaitsOnlyWhenFull(trace: seq<Action>, bound: nat) {
    forall l, m, n ::
      0 <= l < m < n < |trace| && trace[l].Launch? && trace[m].Join? && trace[n] == Launch(trace[l].i + 1) ==>
        Running(trace[..m]) == bound
  }

  /** Every tool is started right after the token denied being cancelled. */
  ghost predicate AsksBeforeStarting(trace: seq<Action>) {
    forall n :: 0 <= n < |trace| && trace[n].Starts() ==> JustDenied(trace[..n])
  }

  predicate JustDenied(trace: seq<Action>) {
    trace != [] && trace[|trace| - 1] == Asked(false)
  }

  /** The calls whose tools were started, in order. */
  function Started(trace: seq<Action>): seq<nat> {
    if trace == [] then []
    else
      var earlier, last := Started(trace[..|trace| - 1]), trace[|trace| - 1];
      if last.Starts() then earlier + [last.i] else earlier
  }

  /** How often the tool of call `i` was started. */
  function StartsOf(trace: seq<Action>, i: nat): nat {
    if trace == [] then 0
    else
      var last := trace[|trace| - 1];
      StartsOf(trace[..|trace| - 1], i) + if last.Starts() && last.i == i then 1 else 0
  }

  /** No tool starts without permission. */
  ghost predicate StartsPermitted(env: Environment, calls: seq<Call>, trace: seq<Action>) {
    forall n :: 0 <= n < |trace| && trace[n].Starts() ==> trace[n].i < |calls| && MayRun(env, calls, trace[n].i)
  }

  /** The tools of the calls before `n` that may run start exactly once, and no others. */
  ghost predicate StartsEachOnce(env: Environment, calls: seq<Call>, trace: seq<Action>, n: nat)
    requires n <= |calls|
  {
    forall i: nat :: StartsOf(trace, i) == if i < n && MayRun(env, calls, i) then 1 else 0
  }

  /** The calls before `n` whose tools may run, in order. */
  function Runnable(env: Environment, calls: seq<Call>, n: nat): seq<nat>
    requires n <= |calls|
  {
    if n == 0 then []
    else Runnable(env, calls, n - 1) + if PlanOf(env, calls, n - 1).RunTool? then [n - 1] else []
  }

  function ResultsIn(log: Log): seq<Result> {
    if log == [] then []
    else ResultsIn(log[..|log| - 1]) + if log[|log| - 1].ToolResult? then [log[|log| - 1].result] else []
  }

  /** The calls announced in the log, in order. */
  function CallsIn(log: Log): seq<Call> {
    if log == [] then []
    else CallsIn(log[..|log| - 1]) + if log[|log| - 1].ToolCall? then [log[|log| - 1].call] else []
  }

  /** The permission decisions in the log, in order. */
  function DecisionsIn(log: Log): Log {
    if log == [] then []
    else DecisionsIn(log[..|log| - 1]) + if log[|log| - 1].PermissionDecision? then [log[|log| - 1]] else []
  }

  /** The contexts in the log, in order. */
  function ContextsIn(log: Log): Log {
    if log == [] then []
    else ContextsIn(log[..|log| - 1]) + if log[|log| - 1].ContextInjected? then [log[|log| - 1]] else []
  }

  /** What the permission gate said about the calls before `n`. */
  function DecisionsOn(env: Environment, calls: seq<Call>, n: nat): Log
    requires n <= |calls|
  {
    if n == 0 then []
    else
      DecisionsOn(env, calls, n - 1) +
      if MayAsk(env, calls, n - 1) then [PermissionDecision(calls[n - 1].id, env.allowed(n - 1))] else []
  }

  /** The reminders that the calls before `n` earned. */
  function RemindersOf(env: Environment, n: nat): Log {
    if n == 0 then []
    else
      RemindersOf(env, n - 1) +
      if env.reminder(n - 1).Some? then [ContextInjected(env.reminder(n - 1).value)] else []
  }

  /** What a schedule may log. */
  predicate LoggedBySchedule(event: Event) {
    event.ToolCall? || event.PermissionDecision? || event.ToolResult? || event.ContextInjected?
  }

  ghost predicate ExtendedBySchedule(base: Log, log: Log) {
    base <= log && forall i :: |base| <= i < |log| ==> LoggedBySchedule(log[i])
  }

  /** At no moment are there more results than announced calls, but for made-up results once
      the `limit` first calls are announced: calls and results being logged in call order, no
      real result stands before its own call. */
  ghost predicate AnnouncedFirst(base: Log, log: Log, limit: nat) {
    forall n :: |base| <= n <= |log| ==> AnnouncedBy(base, log[..n], limit)
  }

  predicate AnnouncedBy(base: Log, log: Log, limit: nat) {
    || |ResultsIn(log)| - |ResultsIn(base)| <= |CallsIn(log)| - |CallsIn(base)|
    || limit <= |CallsIn(log)| - |CallsIn(base)|
  }

  function RealResults(env: Environment, calls: seq<Call>, n: nat): (results: seq<Result>)
    requires n <= |calls|
    ensures |results| == n
  {
    seq(n, i requires 0 <= i < n => RealResult(env, calls, i))
  }
}
