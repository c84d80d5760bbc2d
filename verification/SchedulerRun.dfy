/** The scheduling loop, proved to commit exactly one result per call in call order,
    within the concurrency bound, whatever the tools and the cancellation do. */
module SchedulerRun {
  import opened Wrappers
  import opened SessionLog
  import opened ToolScheduler

  // ---------------------------------------------------------------------------
  // Projections of what is appended
  // ---------------------------------------------------------------------------

  lemma {:induction false} CallsAndResultsOfConcat(a: Log, b: Log)
    ensures ResultsIn(a + b) == ResultsIn(a) + ResultsIn(b)
    ensures CallsIn(a + b) == CallsIn(a) + CallsIn(b)
  {
    if b == [] {
      assert a + b == a;
    } else {
      CallsAndResultsOfConcat(a, b[..|b| - 1]);
      assert (a + b)[..|a + b| - 1] == a + b[..|b| - 1];
    }
  }

  lemma {:induction false} DecisionsAndContextsOfConcat(a: Log, b: Log)
    ensures DecisionsIn(a + b) == DecisionsIn(a) + DecisionsIn(b)
    ensures ContextsIn(a + b) == ContextsIn(a) + ContextsIn(b)
  {
    if b == [] {
      assert a + b == a;
    } else {
      DecisionsAndContextsOfConcat(a, b[..|b| - 1]);
      assert (a + b)[..|a + b| - 1] == a + b[..|b| - 1];
    }
  }

  lemma ProjectionsOfConcat(a: Log, b: Log)
    ensures ResultsIn(a + b) == ResultsIn(a) + ResultsIn(b)
    ensures CallsIn(a + b) == CallsIn(a) + CallsIn(b)
    ensures DecisionsIn(a + b) == DecisionsIn(a) + DecisionsIn(b)
    ensures ContextsIn(a + b) == ContextsIn(a) + ContextsIn(b)
  {
    hide ResultsIn, CallsIn, DecisionsIn, ContextsIn;
    CallsAndResultsOfConcat(a, b);
    DecisionsAndContextsOfConcat(a, b);
  }

  lemma ProjectionsOfOne(event: Event)
    ensures ResultsIn([event]) == if event.ToolResult? then [event.result] else []
    ensures CallsIn([event]) == if event.ToolCall? then [event.call] else []
    ensures DecisionsIn([event]) == if event.PermissionDecision? then [event] else []
    ensures ContextsIn([event]) == if event.ContextInjected? then [event] else []
  {
    assert [event][..0] == [];
  }

  lemma NothingProjected()
    ensures ResultsIn([]) == [] && CallsIn([]) == [] && DecisionsIn([]) == [] && ContextsIn([]) == []
  {
  }

  lemma PreparationIsAnnounced(env: Environment, calls: seq<Call>, log: Log, i: nat)
    requires i < |calls|
    ensures var more := log + PreparationEvents(env, calls, i);
            && ResultsIn(more) == ResultsIn(log) && CallsIn(more) == CallsIn(log) + [calls[i]]
            && DecisionsIn(more) == DecisionsIn(log) + (if MayAsk(env, calls, i) then
                                                          [PermissionDecision(calls[i].id, env.allowed(i))] else [])
            && ContextsIn(more) == ContextsIn(log)
            && ExtendedBySchedule(log, more)
  {
    hide ResultsIn, CallsIn, DecisionsIn, ContextsIn;
    var events := PreparationEvents(env, calls, i);
    var announced, decision := ToolCall(calls[i]), PermissionDecision(calls[i].id, env.allowed(i));
    ProjectionsOfConcat(log, events);
    ProjectionsOfOne(announced);
    ProjectionsOfOne(decision);
    ProjectionsOfConcat([announced], [decision]);
    assert events == [announced] || events == [announced] + [decision];
  }

  lemma CommitIsLogged(env: Environment, log: Log, i: nat, result: Result)
    ensures var more := log + [ToolResult(result)] + ReminderEvents(env, i);
            && ResultsIn(more) == ResultsIn(log) + [result] && CallsIn(more) == CallsIn(log)
            && DecisionsIn(more) == DecisionsIn(log)
            && ContextsIn(more) == ContextsIn(log) + (if env.reminder(i).Some?
                                                      then [ContextInjected(env.reminder(i).value)] else [])
            && ExtendedBySchedule(log, more)
  {
    NothingProjected();
    hide ResultsIn, CallsIn, DecisionsIn, ContextsIn;
    var reminder := ReminderEvents(env, i);
    ProjectionsOfOne(ToolResult(result));
    ProjectionsOfConcat(log, [ToolResult(result)]);
    ProjectionsOfConcat(log + [ToolResult(result)], reminder);
    if reminder != [] {
      ProjectionsOfOne(reminder[0]);
      assert reminder == [reminder[0]];
    }
  }

  lemma ProjectionsGrow(log: Log, more: Log)
    requires log <= more
    ensures |ResultsIn(log)| <= |ResultsIn(more)| && |CallsIn(log)| <= |CallsIn(more)|
  {
    ProjectionsOfConcat(log, more[|log|..]);
    assert log + more[|log|..] == more;
  }

  /** What is appended brings no more results than calls are announced already. */
  lemma {:induction false} AnnouncedExtends(base: Log, log: Log, more: Log, limit: nat)
    requires base <= log <= more && AnnouncedFirst(base, log, limit)
    requires || |ResultsIn(more)| - |ResultsIn(base)| <= |CallsIn(log)| - |CallsIn(base)|
             || limit <= |CallsIn(log)| - |CallsIn(base)|
    ensures AnnouncedFirst(base, more, limit)
  {
    hide ResultsIn, CallsIn;
    forall n | |base| <= n <= |more| ensures AnnouncedBy(base, more[..n], limit) {
      if n <= |log| {
        assert more[..n] == log[..n];
      } else {
        ProjectionsGrow(log, more[..n]);
        ProjectionsGrow(more[..n], more);
      }
    }
  }

  lemma ExtendedTwice(base: Log, log: Log, more: Log)
    requires ExtendedBySchedule(base, log) && ExtendedBySchedule(log, more)
    ensures ExtendedBySchedule(base, more)
  {
  }

  lemma CountsOneMore(trace: seq<Action>, action: Action)
    ensures Running(trace + [action]) ==
            Running(trace) + match action case Launch(_) => 1 case Join(_) => -1 case _ => 0
    ensures Started(trace + [action]) == Started(trace) + if action.Starts() then [action.i] else []
  {
    var more := trace + [action];
    assert more[..|more| - 1] == trace;
  }

  lemma BoundOneMore(trace: seq<Action>, action: Action, bound: nat)
    requires RespectsBound(trace, bound) && 0 <= Running(trace + [action]) <= bound
    requires action.RunAlone? ==> Running(trace) == 0
    ensures RespectsBound(trace + [action], bound)
  {
    hide Running;
    var more := trace + [action];
    forall n | 0 <= n <= |more|
      ensures 0 <= Running(more[..n]) <= bound && (n < |more| && more[n].RunAlone? ==> Running(more[..n]) == 0)
    {
      if n <= |trace| {
        assert more[..n] == trace[..n];
        assert n == |trace| ==> trace[..n] == trace;
      } else {
        assert more[..n] == more;
      }
    }
  }

  lemma AskedOneMore(trace: seq<Action>, action: Action)
    requires AsksBeforeStarting(trace) && (action.Starts() ==> JustDenied(trace))
    ensures AsksBeforeStarting(trace + [action])
  {
    hide JustDenied;
    var more := trace + [action];
    forall n | 0 <= n < |more| && more[n].Starts() ensures JustDenied(more[..n]) {
      assert more[..n] == trace[..n];
      assert n == |trace| ==> trace[..n] == trace;
    }
  }

  lemma {:induction false} TraceOneMore(trace: seq<Action>, action: Action, bound: nat)
    ensures Running(trace + [action]) ==
            Running(trace) + match action case Launch(_) => 1 case Join(_) => -1 case _ => 0
    ensures Started(trace + [action]) == Started(trace) + if action.Starts() then [action.i] else []
    ensures (RespectsBound(trace, bound) && 0 <= Running(trace + [action]) <= bound
             && (action.RunAlone? ==> Running(trace) == 0)) ==> RespectsBound(trace + [action], bound)
    ensures (AsksBeforeStarting(trace) && (action.Starts() ==> JustDenied(trace))) ==>
              AsksBeforeStarting(trace + [action])
  {
    hide Running, Started, RespectsBound, AsksBeforeStarting, JustDenied;
    CountsOneMore(trace, action);
    if RespectsBound(trace, bound) && 0 <= Running(trace + [action]) <= bound
       && (action.RunAlone? ==> Running(trace) == 0) {
      BoundOneMore(trace, action, bound);
    }
    if AsksBeforeStarting(trace) && (action.Starts() ==> JustDenied(trace)) {
      AskedOneMore(trace, action);
    }
  }

  lemma ModesOneMore(env: Environment, calls: seq<Call>, trace: seq<Action>, action: Action)
    requires RespectsModes(env, calls, trace)
    requires action.Starts() ==> action.i < |calls| && (action.RunAlone? <==> env.exclusive(calls[action.i].name))
    ensures RespectsModes(env, calls, trace + [action])
  {
  }

  // ---------------------------------------------------------------------------
  // Waiting
  // ---------------------------------------------------------------------------

  /** Since call `i` was started in parallel, a tool was awaited only with the bound reached. */
  ghost predicate WaitedWhenFull(trace: seq<Action>, i: int, bound: nat) {
    forall l, m :: 0 <= l < m < |trace| && trace[l].Launch? && trace[l].i == i && trace[m].Join? ==>
      Running(trace[..m]) == bound
  }

  /** Since call `i` was started in parallel, no tool was awaited. */
  ghost predicate NotWaited(trace: seq<Action>, i: int) {
    forall l, m :: 0 <= l < m < |trace| && trace[l].Launch? && trace[l].i == i ==> !trace[m].Join?
  }

  predicate NotLaunched(trace: seq<Action>, i: nat) {
    forall l :: 0 <= l < |trace| ==> trace[l] != Launch(i)
  }

  lemma WaitsOneMore(trace: seq<Action>, action: Action, bound: nat)
    requires WaitsOnlyWhenFull(trace, bound)
    requires action.Launch? ==> WaitedWhenFull(trace, action.i - 1, bound)
    ensures WaitsOnlyWhenFull(trace + [action], bound)
  {
    hide Running;
    var more := trace + [action];
    forall l, m, n | 0 <= l < m < n < |more| && more[l].Launch? && more[m].Join? && more[n] == Launch(more[l].i + 1)
      ensures Running(more[..m]) == bound
    {
      assert more[..m] == trace[..m] && more[l] == trace[l] && more[m] == trace[m];
      if n < |trace| {
        assert more[n] == trace[n];
      }
    }
  }

  lemma WaitedOneMore(trace: seq<Action>, action: Action, i: int, bound: nat)
    requires WaitedWhenFull(trace, i, bound) && (action.Join? ==> Running(trace) == bound)
    ensures WaitedWhenFull(trace + [action], i, bound)
  {
    hide Running;
    var more := trace + [action];
    forall l, m | 0 <= l < m < |more| && more[l].Launch? && more[l].i == i && more[m].Join?
      ensures Running(more[..m]) == bound
    {
      assert more[..m] == trace[..m] && more[l] == trace[l];
      if m < |trace| {
        assert more[m] == trace[m];
      } else {
        assert trace[..m] == trace;
      }
    }
  }

  lemma NotWaitedYet(trace: seq<Action>, i: nat)
    requires NotLaunched(trace, i)
    ensures NotWaited(trace, i) && NotWaited(trace + [Launch(i)], i)
  {
  }

  lemma NothingWaited()
    ensures NotWaited([], -1)
  {
  }

  lemma NotWaitedAtAll(trace: seq<Action>, i: int, bound: nat)
    requires NotWaited(trace, i)
    ensures WaitedWhenFull(trace, i, bound)
  {
  }

  // ---------------------------------------------------------------------------
  // The invariant: `done` committed, `reached` started or decided, `prepared` announced
  // ---------------------------------------------------------------------------

  ghost predicate SlotsFilled(env: Environment, calls: seq<Call>, slots: seq<Option<Result>>, done: nat)
  {
    && |slots| == |calls| && done <= |calls|
    && forall i :: 0 <= i < |calls| ==> slots[i] == if i < done then Some(RealResult(env, calls, i)) else None
  }

  /** In flight are exactly the runnable calls `done..reached`, oldest first. */
  ghost predicate InFlightIs(env: Environment, calls: seq<Call>, inFlight: seq<nat>, done: nat, reached: nat)
  {
    && done + |inFlight| == reached <= |calls|
    && forall j :: 0 <= j < |inFlight| ==> inFlight[j] == done + j && PlanOf(env, calls, inFlight[j]).RunTool?
  }

  ghost predicate LogShows(env: Environment, calls: seq<Call>, base: Log, log: Log, done: nat, prepared: nat)
  {
    && done <= |calls| && prepared <= |calls|
    && ResultsIn(log) == ResultsIn(base) + RealResults(env, calls, done)
    && CallsIn(log) == CallsIn(base) + calls[..prepared]
    && DecisionsIn(log) == DecisionsIn(base) + DecisionsOn(env, calls, prepared)
    && ContextsIn(log) == ContextsIn(base) + RemindersOf(env, done)
    && base <= log && ExtendedBySchedule(base, log) && AnnouncedFirst(base, log, |calls|)
  }

  ghost predicate TraceShows(
    env: Environment, calls: seq<Call>, trace: seq<Action>, bound: nat, running: nat, reached: nat)
  {
    && reached <= |calls|
    && RespectsBound(trace, bound) && AsksBeforeStarting(trace) && RespectsModes(env, calls, trace)
    && Running(trace) == running <= bound
    && Started(trace) == Runnable(env, calls, reached)
    && WaitsOnlyWhenFull(trace, bound)
  }

  ghost predicate ExitShows(env: Environment, calls: seq<Call>, exitRequested: bool, done: nat)
  {
    && done <= |calls|
    && (exitRequested <==> exists i :: 0 <= i < done && RequestsExit(calls[i], RealResult(env, calls, i)))
  }

  ghost predicate Progress(
    env: Environment, calls: seq<Call>, base: Log, bound: nat, s: Schedule, done: nat, reached: nat, prepared: nat)
  {
    && reached <= prepared <= |calls|
    && SlotsFilled(env, calls, s.slots, done)
    && InFlightIs(env, calls, s.inFlight, done, reached)
    && LogShows(env, calls, base, s.log, done, prepared)
    && TraceShows(env, calls, s.trace, bound, |s.inFlight|, reached)
    && ExitShows(env, calls, s.exitRequested, done)
  }

  lemma SlotPerCall(env: Environment, calls: seq<Call>, slots: seq<Option<Result>>, done: nat)
    requires SlotsFilled(env, calls, slots, done)
    ensures |slots| == |calls|
  {
  }

  lemma RealResultsGrow(env: Environment, calls: seq<Call>, n: nat)
    requires n < |calls|
    ensures RealResults(env, calls, n + 1) == RealResults(env, calls, n) + [RealResult(env, calls, n)]
  {
  }

  lemma PrepareShows(env: Environment, calls: seq<Call>, base: Log, log: Log, done: nat, reached: nat)
    requires LogShows(env, calls, base, log, done, reached) && done <= reached < |calls|
    ensures LogShows(env, calls, base, log + PreparationEvents(env, calls, reached), done, reached + 1)
  {
    hide ResultsIn, CallsIn, DecisionsIn, ContextsIn, RealResults, ExtendedBySchedule, PreparationEvents,
         AnnouncedFirst;
    var more := log + PreparationEvents(env, calls, reached);
    PreparationIsAnnounced(env, calls, log, reached);
    ExtendedTwice(base, log, more);
    AnnouncedExtends(base, log, more, |calls|);
    assert calls[..reached + 1] == calls[..reached] + [calls[reached]];
  }

  lemma {:induction false} PrepareProgress(
    env: Environment, calls: seq<Call>, base: Log, bound: nat, s: Schedule, done: nat, reached: nat)
    requires Progress(env, calls, base, bound, s, done, reached, reached) && reached < |calls|
    ensures Progress(env, calls, base, bound, s.(log := s.log + PreparationEvents(env, calls, reached)),
                     done, reached, reached + 1)
  {
    InFlightCounts(env, calls, s.inFlight, done, reached);
    hide LogShows, PreparationEvents, TraceShows, ExitShows, SlotsFilled, InFlightIs;
    PrepareShows(env, calls, base, s.log, done, reached);
  }

  lemma {:induction false} LaunchProgress(
    env: Environment, calls: seq<Call>, base: Log, bound: nat, s: Schedule, done: nat, reached: nat)
    requires Progress(env, calls, base, bound, s, done, reached, reached + 1) && |s.inFlight| < bound
    requires PlanOf(env, calls, reached).RunTool? && !env.exclusive(calls[reached].name) && JustDenied(s.trace)
    requires WaitedWhenFull(s.trace, reached - 1, bound)
    ensures Progress(env, calls, base, bound,
                     s.(inFlight := s.inFlight + [reached], trace := s.trace + [Launch(reached)]),
                     done, reached + 1, reached + 1)
  {
    hide PlanOf, LogShows, ExitShows, SlotsFilled, InFlightIs, TraceShows, WaitedWhenFull;
    LaunchIsInFlight(env, calls, s.inFlight, done, reached);
    LaunchIsTraced(env, calls, s.trace, bound, |s.inFlight|, reached);
  }

  lemma LaunchIsInFlight(env: Environment, calls: seq<Call>, inFlight: seq<nat>, done: nat, reached: nat)
    requires InFlightIs(env, calls, inFlight, done, reached)
    requires reached < |calls| && PlanOf(env, calls, reached).RunTool?
    ensures InFlightIs(env, calls, inFlight + [reached], done, reached + 1)
  {
    hide PlanOf;
  }

  lemma LaunchIsTraced(env: Environment, calls: seq<Call>, trace: seq<Action>, bound: nat, running: nat, reached: nat)
    requires TraceShows(env, calls, trace, bound, running, reached) && running < bound && reached < |calls|
    requires PlanOf(env, calls, reached).RunTool? && !env.exclusive(calls[reached].name) && JustDenied(trace)
    requires WaitedWhenFull(trace, reached - 1, bound)
    ensures TraceShows(env, calls, trace + [Launch(reached)], bound, running + 1, reached + 1)
  {
    hide PlanOf, RespectsBound, AsksBeforeStarting, RespectsModes, Running, Started, JustDenied, WaitsOnlyWhenFull,
         WaitedWhenFull;
    TraceOneMore(trace, Launch(reached), bound);
    WaitsOneMore(trace, Launch(reached), bound);
    ModesOneMore(env, calls, trace, Launch(reached));
  }

  lemma OldestIsJoined(env: Environment, calls: seq<Call>, inFlight: seq<nat>, done: nat, reached: nat)
    requires InFlightIs(env, calls, inFlight, done, reached) && inFlight != []
    ensures inFlight[0] == done < |calls| && PlanOf(env, calls, done).RunTool?
    ensures InFlightIs(env, calls, inFlight[1..], done + 1, reached)
  {
    hide PlanOf;
    var rest := inFlight[1..];
    assert inFlight[0] == done + 0 && PlanOf(env, calls, inFlight[0]).RunTool?;
    forall j | 0 <= j < |rest| ensures rest[j] == done + 1 + j && PlanOf(env, calls, rest[j]).RunTool? {
      var next := j + 1;
      assert rest[j] == inFlight[next];
    }
  }

  lemma JoinIsTraced(
    env: Environment, calls: seq<Call>, trace: seq<Action>, bound: nat, running: nat, reached: nat, i: nat)
    requires TraceShows(env, calls, trace, bound, running, reached) && running > 0
    ensures TraceShows(env, calls, trace + [Join(i)], bound, running - 1, reached)
  {
    hide PlanOf, RespectsBound, AsksBeforeStarting, RespectsModes, Running, Started, Runnable, JustDenied,
         WaitsOnlyWhenFull;
    TraceOneMore(trace, Join(i), bound);
    WaitsOneMore(trace, Join(i), bound);
    ModesOneMore(env, calls, trace, Join(i));
  }

  lemma InFlightCounts(env: Environment, calls: seq<Call>, inFlight: seq<nat>, done: nat, reached: nat)
    requires InFlightIs(env, calls, inFlight, done, reached)
    ensures done <= reached && (inFlight != [] ==> done < reached)
  {
  }

  /** Committing call `done` once nothing before it is outstanding. */
  lemma {:induction false} CommitFills(
    env: Environment, calls: seq<Call>, base: Log, s: Schedule, done: nat, prepared: nat, raw: Result)
    requires done < |calls| && done < prepared && SlotsFilled(env, calls, s.slots, done)
    requires LogShows(env, calls, base, s.log, done, prepared) && ExitShows(env, calls, s.exitRequested, done)
    requires Filled(calls[done], raw) == RealResult(env, calls, done)
    ensures var next := Committed(env, calls, s, done, raw);
            && SlotsFilled(env, calls, next.slots, done + 1)
            && LogShows(env, calls, base, next.log, done + 1, prepared)
            && ExitShows(env, calls, next.exitRequested, done + 1)
  {
    hide ResultsIn, CallsIn, DecisionsIn, ContextsIn, DecisionsOn, RealResults, ExtendedBySchedule, ReminderEvents,
         RealResult, Filled, RequestsExit, AnnouncedFirst;
    var result := RealResult(env, calls, done);
    CommitIsLogged(env, s.log, done, result);
    RealResultsGrow(env, calls, done);
    ExtendedTwice(base, s.log, s.log + [ToolResult(result)] + ReminderEvents(env, done));
    AnnouncedExtends(base, s.log, s.log + [ToolResult(result)] + ReminderEvents(env, done), |calls|);
    var next := Committed(env, calls, s, done, raw);
    assert next.exitRequested ==>
             exists i :: 0 <= i < done + 1 && RequestsExit(calls[i], RealResult(env, calls, i)) by {
      if RequestsExit(calls[done], result) {
        assert RequestsExit(calls[done], RealResult(env, calls, done));
      }
    }
  }

  lemma {:induction false} JoinProgress(
    env: Environment, calls: seq<Call>, base: Log, bound: nat, s: Schedule, done: nat, reached: nat, prepared: nat)
    requires Progress(env, calls, base, bound, s, done, reached, prepared) && s.inFlight != []
    ensures s.inFlight[0] == done < |calls|
    ensures Progress(env, calls, base, bound,
                     Committed(env, calls, s.(inFlight := s.inFlight[1..], trace := s.trace + [Join(done)]),
                               done, env.tool(done)),
                     done + 1, reached, prepared)
  {
    hide PlanOf, LogShows, ExitShows, SlotsFilled, InFlightIs, TraceShows, RealResult, Filled;
    OldestIsJoined(env, calls, s.inFlight, done, reached);
    InFlightCounts(env, calls, s.inFlight, done, reached);
    SlotPerCall(env, calls, s.slots, done);
    ToolResultIsReal(env, calls, done);
    JoinIsTraced(env, calls, s.trace, bound, |s.inFlight|, reached, done);
    CommitFills(env, calls, base, s, done, prepared, env.tool(done));
    CommitIgnoresRest(env, calls, s, s.inFlight[1..], s.trace + [Join(done)], done, env.tool(done));
  }

  lemma ToolResultIsReal(env: Environment, calls: seq<Call>, i: nat)
    requires i < |calls|
    ensures RealResult(env, calls, i) ==
            Filled(calls[i], if PlanOf(env, calls, i).RunTool? then env.tool(i) else PlanOf(env, calls, i).result)
  {
  }

  lemma CommitKeepsInFlight(env: Environment, calls: seq<Call>, s: Schedule, i: nat, raw: Result)
    requires i < |calls| == |s.slots|
    ensures Committed(env, calls, s, i, raw).inFlight == s.inFlight
  {
  }

  lemma CommitIgnoresRest(
    env: Environment, calls: seq<Call>, s: Schedule, inFlight: seq<nat>, trace: seq<Action>, i: nat, raw: Result)
    requires i < |calls| == |s.slots|
    ensures Committed(env, calls, s.(inFlight := inFlight, trace := trace), i, raw) ==
            Committed(env, calls, s, i, raw).(inFlight := inFlight, trace := trace)
  {
  }

  lemma {:induction false} AskProgress(
    env: Environment, calls: seq<Call>, base: Log, bound: nat, s: Schedule, done: nat, reached: nat, prepared: nat,
    answer: bool)
    requires Progress(env, calls, base, bound, s, done, reached, prepared)
    ensures Progress(env, calls, base, bound, s.(trace := s.trace + [Asked(answer)]), done, reached, prepared)
  {
    hide LogShows, ExitShows, SlotsFilled, InFlightIs, RespectsBound, AsksBeforeStarting, RespectsModes, Running,
         Started, WaitsOnlyWhenFull;
    TraceOneMore(s.trace, Asked(answer), bound);
    WaitsOneMore(s.trace, Asked(answer), bound);
    ModesOneMore(env, calls, s.trace, Asked(answer));
  }

  /** A call that is decided or run alone, with nothing in flight. */
  lemma {:induction false} CommitAlone(
    env: Environment, calls: seq<Call>, base: Log, bound: nat, s: Schedule, at: nat, raw: Result)
    requires Progress(env, calls, base, bound, s, at, at, at + 1)
    requires Filled(calls[at], raw) == RealResult(env, calls, at)
    requires PlanOf(env, calls, at).RunTool? ==> JustDenied(s.trace) && env.exclusive(calls[at].name)
    ensures var trace := if PlanOf(env, calls, at).RunTool? then s.trace + [RunAlone(at)] else s.trace;
            Progress(
              env, calls, base, bound, Committed(env, calls, s.(trace := trace), at, raw), at + 1, at + 1, at + 1)
  {
    hide LogShows, ExitShows, SlotsFilled, RespectsBound, AsksBeforeStarting, RespectsModes, Running, Started,
         RealResult, Filled, PlanOf, WaitsOnlyWhenFull;
    SlotPerCall(env, calls, s.slots, at);
    TraceOneMore(s.trace, RunAlone(at), bound);
    WaitsOneMore(s.trace, RunAlone(at), bound);
    if env.exclusive(calls[at].name) {
      ModesOneMore(env, calls, s.trace, RunAlone(at));
    }
    CommitFills(env, calls, base, s, at, at + 1, raw);
    var trace := if PlanOf(env, calls, at).RunTool? then s.trace + [RunAlone(at)] else s.trace;
    CommitIgnoresRest(env, calls, s, s.inFlight, trace, at, raw);
    assert s.(trace := trace) == s.(inFlight := s.inFlight, trace := trace);
  }

  lemma NothingDoneYet(env: Environment, calls: seq<Call>, base: Log, bound: nat)
    ensures Progress(env, calls, base, bound,
                     Schedule(base, seq(|calls|, _ => None), [], [], false), 0, 0, 0)
  {
    assert RealResults(env, calls, 0) == [] && calls[..0] == [] && base[..|base|] == base;
  }

  lemma AllAccountedFor(
    env: Environment, calls: seq<Call>, base: Log, bound: nat, s: Schedule, done: nat, reached: nat, prepared: nat)
    requires Progress(env, calls, base, bound, s, done, reached, prepared)
    ensures done + |s.inFlight| == reached <= prepared <= |calls| == |s.slots| && |s.inFlight| <= bound
    ensures s.inFlight != [] ==> s.inFlight[0] == done
    ensures Running(s.trace) == |s.inFlight|
  {
    hide LogShows, ExitShows, RespectsBound, AsksBeforeStarting, RespectsModes, Running, Started, PlanOf,
         WaitsOnlyWhenFull;
  }

  /** No call behind the reached ones has started, and none but a permitted one ever has. */
  lemma NotYetLaunched(
    env: Environment, calls: seq<Call>, base: Log, bound: nat, s: Schedule, done: nat, reached: nat, prepared: nat,
    i: nat)
    requires Progress(env, calls, base, bound, s, done, reached, prepared) && i < |calls|
    requires i >= reached || PlanOf(env, calls, i).Decided? || env.exclusive(calls[i].name)
    ensures NotLaunched(s.trace, i)
  {
    hide LogShows, ExitShows, SlotsFilled, InFlightIs, RespectsBound, AsksBeforeStarting, Running, Started, Runnable,
         WaitsOnlyWhenFull, PlanOf, MayRun, StartsOf;
    StartsArePermitted(env, calls, s.trace, reached);
    PlanIsDue(env, calls, i);
    forall l | 0 <= l < |s.trace| ensures s.trace[l] != Launch(i) {
      if s.trace[l] == Launch(i) {
        StartIsCounted(s.trace, l);
      }
    }
  }

  // ---------------------------------------------------------------------------
  // The loop
  // ---------------------------------------------------------------------------

  /** Puts the next question to the token. */
  method Ask(
    env: Environment, calls: seq<Call>, ghost base: Log, ghost bound: nat, s: Schedule, polls: nat,
    ghost done: nat, ghost reached: nat, ghost prepared: nat)
    returns (answer: bool, next: Schedule)
    requires Progress(env, calls, base, bound, s, done, reached, prepared)
    ensures answer == env.cancelled(polls) && next == s.(trace := s.trace + [Asked(answer)])
    ensures Progress(env, calls, base, bound, next, done, reached, prepared)
    ensures !answer ==> JustDenied(next.trace)
  {
    hide Progress;
    answer := env.cancelled(polls);
    next := s.(trace := s.trace + [Asked(answer)]);
    AskProgress(env, calls, base, bound, s, done, reached, prepared, answer);
  }

  method JoinOldest(
    env: Environment, calls: seq<Call>, ghost base: Log, ghost bound: nat, s: Schedule,
    ghost done: nat, ghost reached: nat, ghost prepared: nat)
    returns (next: Schedule)
    requires Progress(env, calls, base, bound, s, done, reached, prepared) && s.inFlight != []
    ensures next.inFlight == s.inFlight[1..] && done < reached
    ensures next.trace == s.trace + [Join(s.inFlight[0])] && Running(s.trace) == |s.inFlight|
    ensures Progress(env, calls, base, bound, next, done + 1, reached, prepared)
  {
    hide Progress, Running;
    AllAccountedFor(env, calls, base, bound, s, done, reached, prepared);
    JoinProgress(env, calls, base, bound, s, done, reached, prepared);
    var oldest := s.inFlight[0];
    next := s.(inFlight := s.inFlight[1..], trace := s.trace + [Join(oldest)]);
    next := Committed(env, calls, next, oldest, env.tool(oldest));
  }

  method DrainAll(
    env: Environment, calls: seq<Call>, ghost base: Log, ghost bound: nat, s: Schedule,
    ghost done: nat, ghost reached: nat, ghost prepared: nat)
    returns (next: Schedule)
    requires Progress(env, calls, base, bound, s, done, reached, prepared)
    ensures next.inFlight == [] && Progress(env, calls, base, bound, next, reached, reached, prepared)
    ensures s.inFlight == [] ==> next == s
  {
    hide Progress;
    next := s;
    ghost var joined := done;
    while next.inFlight != []
      invariant Progress(env, calls, base, bound, next, joined, reached, prepared)
      invariant s.inFlight == [] ==> next == s
      decreases |next.inFlight|
    {
      next := JoinOldest(env, calls, base, bound, next, joined, reached, prepared);
      joined := joined + 1;
    }
    AllAccountedFor(env, calls, base, bound, next, joined, reached, prepared);
  }

  /** What the schedule returns: real results up to `committed`, made-up ones after. */
  function Outcomes(env: Environment, calls: seq<Call>, committed: nat): (results: seq<Result>)
    ensures |results| == |calls|
  {
    seq(|calls|, i requires 0 <= i < |calls| =>
      if i < committed then RealResult(env, calls, i) else CancelledResult(calls[i]))
  }

  lemma OutcomesBegin(env: Environment, calls: seq<Call>, committed: nat)
    requires committed <= |calls|
    ensures Outcomes(env, calls, committed)[..committed] == RealResults(env, calls, committed)
  {
  }

  /** One round of the loop: starts, runs or commits `calls[index]`, or stops because the
      token was found cancelled. `reached` calls are then started or committed, and
      `prepared` announced. */
  method ScheduleCall(
    env: Environment, calls: seq<Call>, ghost base: Log, bound: nat, s: Schedule, polls: nat, index: nat,
    ghost done: nat)
    returns (next: Schedule, asked: nat, stop: bool, ghost joined: nat, ghost reached: nat, ghost prepared: nat)
    requires Progress(env, calls, base, bound, s, done, index, index) && index < |calls| && bound > 0
    requires NotWaited(s.trace, index - 1)
    ensures Progress(env, calls, base, bound, next, joined, reached, prepared)
    ensures !stop ==> reached == prepared == index + 1 && NotWaited(next.trace, index)
    ensures asked > polls
    ensures stop ==> index <= reached <= prepared <= index + 1 && env.cancelled(asked - 1)
    ensures env.cancelled(polls) ==> stop && reached == index
  {
    hide Progress, PlanOf, PreparationEvents, RealResult, Filled, Committed, MayAsk, MayRun, IsDue, WaitedWhenFull,
         NotWaited, NotLaunched, Running;
    var plan: Plan;
    NotWaitedAtAll(s.trace, index - 1, bound);
    WaitedOneMore(s.trace, Asked(false), index - 1, bound);
    joined, reached, prepared, asked := done, index, index, polls + 1;
    stop, next := Ask(env, calls, base, bound, s, polls, joined, reached, prepared);
    if stop { return; }

    if env.exclusive(calls[index].name) {
      next := DrainAll(env, calls, base, bound, next, joined, reached, prepared);
      joined := index;
      asked := asked + 1;
      stop, next := Ask(env, calls, base, bound, next, polls + 1, joined, reached, prepared);
      if stop { return; }
      PrepareProgress(env, calls, base, bound, next, joined, reached);
      next, plan := Prepare(env, calls, next, index);
      next := RunOrCommit(env, calls, base, bound, next, index, plan);
      joined, reached, prepared := index + 1, index + 1, index + 1;
      NotYetLaunched(env, calls, base, bound, next, joined, reached, prepared, index);
      NotWaitedYet(next.trace, index);
      return;
    }

    AllAccountedFor(env, calls, base, bound, next, joined, reached, prepared);
    if |next.inFlight| >= bound {
      WaitedOneMore(next.trace, Join(next.inFlight[0]), index - 1, bound);
      WaitedOneMore(next.trace + [Join(next.inFlight[0])], Asked(false), index - 1, bound);
      next := JoinOldest(env, calls, base, bound, next, joined, reached, prepared);
      joined := joined + 1;
      asked := asked + 1;
      stop, next := Ask(env, calls, base, bound, next, polls + 1, joined, reached, prepared);
      if stop { return; }
    }
    PrepareProgress(env, calls, base, bound, next, joined, reached);
    next, plan := Prepare(env, calls, next, index);
    prepared := index + 1;
    if plan.Decided? {
      next := DrainAll(env, calls, base, bound, next, joined, reached, prepared);
      next := RunOrCommit(env, calls, base, bound, next, index, plan);
      joined, reached := index + 1, index + 1;
      asked := asked + 1;
      stop, next := Ask(env, calls, base, bound, next, asked - 1, joined, reached, prepared);
      NotYetLaunched(env, calls, base, bound, next, joined, reached, prepared, index);
      NotWaitedYet(next.trace, index);
      return;
    }
    asked := asked + 1;
    WaitedOneMore(next.trace, Asked(false), index - 1, bound);
    stop, next := Ask(env, calls, base, bound, next, asked - 1, joined, reached, prepared);
    if stop { return; }
    LaunchProgress(env, calls, base, bound, next, joined, reached);
    NotYetLaunched(env, calls, base, bound, next, joined, reached, prepared, index);
    NotWaitedYet(next.trace, index);
    next := next.(inFlight := next.inFlight + [index], trace := next.trace + [Launch(index)]);
    reached := index + 1;
  }

  /** Commits a decided call, or runs its tool with nothing beside it. */
  method RunOrCommit(
    env: Environment, calls: seq<Call>, ghost base: Log, ghost bound: nat, s: Schedule, at: nat, plan: Plan)
    returns (next: Schedule)
    requires Progress(env, calls, base, bound, s, at, at, at + 1)
    requires plan == PlanOf(env, calls, at)
    requires plan.RunTool? ==> JustDenied(s.trace) && env.exclusive(calls[at].name)
    ensures Progress(env, calls, base, bound, next, at + 1, at + 1, at + 1) && next.inFlight == s.inFlight
  {
    hide Progress, PlanOf, RealResult, Filled, Committed, JustDenied;
    AllAccountedFor(env, calls, base, bound, s, at, at, at + 1);
    ToolResultIsReal(env, calls, at);
    var raw := if plan.RunTool? then env.tool(at) else plan.result;
    CommitAlone(env, calls, base, bound, s, at, raw);
    next := if plan.RunTool? then s.(trace := s.trace + [RunAlone(at)]) else s;
    assert plan.Decided? ==> s.(trace := s.trace) == s;
    CommitKeepsInFlight(env, calls, next, at, raw);
    next := Committed(env, calls, next, at, raw);
  }

  /** The first `n` calls are announced, in order, with what the permission gate said. */
  ghost predicate IsAnnounced(env: Environment, calls: seq<Call>, base: Log, log: Log, n: nat) {
    && n <= |calls| && CallsIn(log) == CallsIn(base) + calls[..n]
    && DecisionsIn(log) == DecisionsIn(base) + DecisionsOn(env, calls, n)
  }

  /** Calls are announced in order, at most one of them (decided on, then overtaken by
      cancellation) without being committed. */
  ghost predicate Announced(env: Environment, calls: seq<Call>, base: Log, log: Log, committed: nat) {
    exists n :: committed <= n <= committed + 1 && IsAnnounced(env, calls, base, log, n)
  }

  lemma AnnouncedStays(env: Environment, calls: seq<Call>, base: Log, log: Log, more: Log, committed: nat)
    requires Announced(env, calls, base, log, committed)
    requires CallsIn(more) == CallsIn(log) && DecisionsIn(more) == DecisionsIn(log)
    ensures Announced(env, calls, base, more, committed)
  {
    hide CallsIn, DecisionsIn, DecisionsOn;
    var n :| committed <= n <= committed + 1 && IsAnnounced(env, calls, base, log, n);
    assert IsAnnounced(env, calls, base, more, n);
  }

  /** What every call comes to: its due result, or a made-up one once cancellation overtook it. */
  ghost predicate ResultsAreDue(env: Environment, calls: seq<Call>, results: seq<Result>, committed: nat) {
    && |results| == |calls|
    && forall i :: 0 <= i < |calls| ==>
         if i < committed then IsDue(env, calls, i, results[i])
         else results[i] == Result(calls[i].id, calls[i].name, Cancelled, CANCELLATION)
  }

  lemma PlanIsDue(env: Environment, calls: seq<Call>, i: nat)
    requires i < |calls|
    ensures PlanOf(env, calls, i).RunTool? <==> MayRun(env, calls, i)
    ensures IsDue(env, calls, i, RealResult(env, calls, i))
  {
  }

  lemma OutcomesAreDue(env: Environment, calls: seq<Call>, committed: nat)
    ensures ResultsAreDue(env, calls, Outcomes(env, calls, committed), committed)
  {
    hide IsDue, RealResult;
    forall i | 0 <= i < |calls| && i < committed ensures IsDue(env, calls, i, Outcomes(env, calls, committed)[i]) {
      PlanIsDue(env, calls, i);
    }
  }

  function Occurrences(ids: seq<nat>, i: nat): nat {
    if ids == [] then 0 else Occurrences(ids[..|ids| - 1], i) + if ids[|ids| - 1] == i then 1 else 0
  }

  lemma OccurrencesOneMore(ids: seq<nat>, id: nat, i: nat)
    ensures Occurrences(ids + [id], i) == Occurrences(ids, i) + if id == i then 1 else 0
  {
    assert (ids + [id])[..|ids|] == ids;
  }

  lemma {:induction false} StartsAreCounted(trace: seq<Action>, i: nat)
    ensures Occurrences(Started(trace), i) == StartsOf(trace, i)
  {
    if trace != [] {
      var earlier, last := trace[..|trace| - 1], trace[|trace| - 1];
      StartsAreCounted(earlier, i);
      if last.Starts() {
        OccurrencesOneMore(Started(earlier), last.i, i);
      }
    }
  }

  lemma {:induction false} RunnableIsCounted(env: Environment, calls: seq<Call>, n: nat, i: nat)
    requires n <= |calls|
    ensures Occurrences(Runnable(env, calls, n), i) == if i < n && MayRun(env, calls, i) then 1 else 0
  {
    hide PlanOf, MayRun, Occurrences;
    if n > 0 {
      var earlier := Runnable(env, calls, n - 1);
      RunnableIsCounted(env, calls, n - 1, i);
      PlanIsDue(env, calls, n - 1);
      OccurrencesOneMore(earlier, n - 1, i);
      assert earlier + [] == earlier;
    } else {
      NothingOccurs(i);
    }
  }

  lemma NothingOccurs(i: nat)
    ensures Occurrences([], i) == 0
  {
  }

  lemma {:induction false} StartIsCounted(trace: seq<Action>, n: nat)
    requires n < |trace| && trace[n].Starts()
    ensures StartsOf(trace, trace[n].i) > 0
  {
    if n < |trace| - 1 {
      StartIsCounted(trace[..|trace| - 1], n);
    }
  }

  /** What the order of the started calls says about each one of them. */
  lemma {:induction false} StartsArePermitted(env: Environment, calls: seq<Call>, trace: seq<Action>, committed: nat)
    requires committed <= |calls| && Started(trace) == Runnable(env, calls, committed)
    ensures StartsEachOnce(env, calls, trace, committed) && StartsPermitted(env, calls, trace)
  {
    hide Started, Runnable, MayRun, StartsOf, Occurrences;
    forall i: nat ensures StartsOf(trace, i) == if i < committed && MayRun(env, calls, i) then 1 else 0 {
      StartsAreCounted(trace, i);
      RunnableIsCounted(env, calls, committed, i);
    }
    forall n | 0 <= n < |trace| && trace[n].Starts()
      ensures trace[n].i < |calls| && MayRun(env, calls, trace[n].i)
    {
      StartIsCounted(trace, n);
    }
  }

  /** Plan mode is left when an `exit_plan_mode` call succeeded. */
  ghost predicate ExitSucceeded(calls: seq<Call>, results: seq<Result>, committed: nat) {
    exists i :: 0 <= i < committed && i < |calls| == |results| && calls[i].name == EXIT_PLAN && results[i].outcome == Ok
  }

  lemma ExitIsSeen(env: Environment, calls: seq<Call>, committed: nat)
    requires committed <= |calls|
    ensures (exists i :: 0 <= i < committed && RequestsExit(calls[i], RealResult(env, calls, i))) <==>
            ExitSucceeded(calls, Outcomes(env, calls, committed), committed)
  {
    hide RealResult;
    var outcomes := Outcomes(env, calls, committed);
    if i :| 0 <= i < committed && RequestsExit(calls[i], RealResult(env, calls, i)) {
      assert outcomes[i] == RealResult(env, calls, i);
    }
    if ExitSucceeded(calls, outcomes, committed) {
      var i :| 0 <= i < committed && calls[i].name == EXIT_PLAN && outcomes[i].outcome == Ok;
      assert RequestsExit(calls[i], RealResult(env, calls, i));
    }
  }

  ghost predicate Settled(env: Environment, calls: seq<Call>, slots: seq<Option<Result>>, committed: nat, upTo: nat)
  {
    && |slots| == |calls|
    && forall i :: 0 <= i < |calls| ==>
         slots[i] == if i < committed || i < upTo then Some(Outcomes(env, calls, committed)[i]) else None
  }

  lemma SettledSoFar(
    env: Environment, calls: seq<Call>, base: Log, bound: nat, s: Schedule, committed: nat, prepared: nat)
    requires Progress(env, calls, base, bound, s, committed, committed, prepared)
    ensures committed <= |calls| && Settled(env, calls, s.slots, committed, committed)
    ensures ResultsIn(s.log) == ResultsIn(base) + Outcomes(env, calls, committed)[..committed]
    ensures base <= s.log && AnnouncedFirst(base, s.log, committed)
  {
    hide ResultsIn, CallsIn, DecisionsIn, ContextsIn, RealResult, RespectsBound, AsksBeforeStarting, RespectsModes,
         Running, Started, InFlightIs, WaitsOnlyWhenFull;
    OutcomesBegin(env, calls, committed);
  }

  lemma SettleOneMore(env: Environment, calls: seq<Call>, base: Log, log: Log, committed: nat, i: nat)
    requires committed <= i < |calls|
    requires ResultsIn(log) == ResultsIn(base) + Outcomes(env, calls, committed)[..i]
    ensures var more := log + [ToolResult(CancelledResult(calls[i]))];
            && ResultsIn(more) == ResultsIn(base) + Outcomes(env, calls, committed)[..i + 1]
            && CallsIn(more) == CallsIn(log) && DecisionsIn(more) == DecisionsIn(log)
            && ContextsIn(more) == ContextsIn(log)
  {
    hide ResultsIn, CallsIn, DecisionsIn, ContextsIn;
    var result := CancelledResult(calls[i]);
    ProjectionsOfOne(ToolResult(result));
    ProjectionsOfConcat(log, [ToolResult(result)]);
    var outcomes := Outcomes(env, calls, committed);
    assert outcomes[i] == result;
    assert outcomes[..i + 1] == outcomes[..i] + [result];
  }

  /** Logs a made-up result for every call without one. */
  method FillCancelled(
    env: Environment, calls: seq<Call>, ghost base: Log, s: Schedule, ghost committed: nat)
    returns (next: Schedule)
    requires committed <= |calls| && Settled(env, calls, s.slots, committed, committed)
    requires ResultsIn(s.log) == ResultsIn(base) + Outcomes(env, calls, committed)[..committed]
    requires ExtendedBySchedule(base, s.log) && AnnouncedFirst(base, s.log, committed)
    requires |CallsIn(s.log)| >= |CallsIn(base)| + committed
    ensures next == s.(log := next.log, slots := next.slots)
    ensures Settled(env, calls, next.slots, committed, |calls|)
    ensures ResultsIn(next.log) == ResultsIn(base) + Outcomes(env, calls, committed)
    ensures CallsIn(next.log) == CallsIn(s.log) && ExtendedBySchedule(base, next.log)
    ensures DecisionsIn(next.log) == DecisionsIn(s.log) && ContextsIn(next.log) == ContextsIn(s.log)
    ensures AnnouncedFirst(base, next.log, committed)
  {
    hide ResultsIn, CallsIn, DecisionsIn, ContextsIn, AnnouncedFirst;
    next := s;
    var i := 0;
    while i < |calls|
      invariant 0 <= i <= |calls| && next == s.(log := next.log, slots := next.slots)
      invariant Settled(env, calls, next.slots, committed, i)
      invariant var settled := if i < committed then committed else i;
                ResultsIn(next.log) == ResultsIn(base) + Outcomes(env, calls, committed)[..settled]
      invariant CallsIn(next.log) == CallsIn(s.log) && ExtendedBySchedule(base, next.log) && s.log <= next.log
      invariant DecisionsIn(next.log) == DecisionsIn(s.log) && ContextsIn(next.log) == ContextsIn(s.log)
    {
      if next.slots[i].None? {
        SettleOneMore(env, calls, base, next.log, committed, i);
        var result := CancelledResult(calls[i]);
        next := next.(log := next.log + [ToolResult(result)], slots := next.slots[i := Some(result)]);
      }
      i := i + 1;
    }
    AnnouncedExtends(base, s.log, next.log, committed);
    assert Outcomes(env, calls, committed)[..|calls|] == Outcomes(env, calls, committed);
  }

  lemma ScheduleShows(
    env: Environment, calls: seq<Call>, base: Log, bound: nat, s: Schedule, committed: nat, prepared: nat)
    requires Progress(env, calls, base, bound, s, committed, committed, prepared) && prepared <= committed + 1
    ensures Announced(env, calls, base, s.log, committed) && ExtendedBySchedule(base, s.log)
    ensures |CallsIn(s.log)| >= |CallsIn(base)| + committed
    ensures ContextsIn(s.log) == ContextsIn(base) + RemindersOf(env, committed)
    ensures RespectsBound(s.trace, bound) && Running(s.trace) == 0 && WaitsOnlyWhenFull(s.trace, bound)
    ensures AsksBeforeStarting(s.trace) && RespectsModes(env, calls, s.trace)
    ensures Started(s.trace) == Runnable(env, calls, committed)
    ensures s.exitRequested <==> exists i :: 0 <= i < committed && RequestsExit(calls[i], RealResult(env, calls, i))
  {
    hide ResultsIn, CallsIn, DecisionsIn, ContextsIn, DecisionsOn, RemindersOf, RealResults, RespectsBound,
         AsksBeforeStarting, RespectsModes, Running, Started, Runnable, RealResult, WaitsOnlyWhenFull;
    assert IsAnnounced(env, calls, base, s.log, prepared);
  }

  /** `execute_tool_calls`: exactly one result per call, logged in call order, real up to
      `committed` and made up after, whatever the tools and the token do. */
  method ExecuteToolCalls(env: Environment, calls: seq<Call>, maxParallel: nat, base: Log)
    returns (results: seq<Result>, aborted: bool, s: Schedule, asked: nat, ghost committed: nat)
    requires Monotone(env)
    ensures committed <= |calls| && results == Outcomes(env, calls, committed)
    ensures ResultsAreDue(env, calls, results, committed)
    ensures ResultsIn(s.log) == ResultsIn(base) + results
    ensures !aborted ==> committed == |calls|
    ensures aborted ==> exists k: nat :: env.cancelled(k)
    ensures env.cancelled(0) ==> committed == 0
    ensures asked > 0 && aborted == env.cancelled(asked - 1)
    ensures ExtendedBySchedule(base, s.log)
    ensures Announced(env, calls, base, s.log, committed) && AnnouncedFirst(base, s.log, committed)
    ensures ContextsIn(s.log) == ContextsIn(base) + RemindersOf(env, committed)
    ensures RespectsBound(s.trace, if maxParallel < 1 then 1 else maxParallel) && Running(s.trace) == 0
    ensures WaitsOnlyWhenFull(s.trace, if maxParallel < 1 then 1 else maxParallel)
    ensures AsksBeforeStarting(s.trace) && RespectsModes(env, calls, s.trace)
    ensures Started(s.trace) == Runnable(env, calls, committed)
    ensures StartsEachOnce(env, calls, s.trace, committed) && StartsPermitted(env, calls, s.trace)
    ensures s.exitRequested <==> ExitSucceeded(calls, results, committed)
  {
    hide Progress, RespectsBound, AsksBeforeStarting, RespectsModes, Running, Started, Runnable, RealResult,
         ResultsIn, CallsIn, DecisionsIn, ContextsIn, DecisionsOn, RemindersOf, RequestsExit, AnnouncedFirst,
         Announced, ResultsAreDue, StartsEachOnce, StartsPermitted, ExitSucceeded, WaitsOnlyWhenFull, NotWaited;
    var bound := if maxParallel < 1 then 1 else maxParallel;
    s := Schedule(base, seq(|calls|, _ => None), [], [], false);
    NothingDoneYet(env, calls, base, bound);
    assert NotWaited(s.trace, -1) by { NothingWaited(); }
    var polls: nat, index: nat, stop := 0, 0, false;
    ghost var joined: nat, prepared: nat := 0, 0;
    committed := 0;
    while index < |calls| && !stop
      invariant 0 <= index <= |calls| && Progress(env, calls, base, bound, s, joined, committed, prepared)
      invariant !stop ==> committed == prepared == index && NotWaited(s.trace, index - 1)
      invariant stop ==> polls > 0 && env.cancelled(polls - 1) && committed <= prepared <= committed + 1
      invariant env.cancelled(0) ==> committed == 0 && (!stop ==> polls == 0)
    {
      s, polls, stop, joined, committed, prepared := ScheduleCall(env, calls, base, bound, s, polls, index, joined);
      index := index + 1;
    }
    s := DrainAll(env, calls, base, bound, s, joined, committed, prepared);
    SettledSoFar(env, calls, base, bound, s, committed, prepared);
    ScheduleShows(env, calls, base, bound, s, committed, prepared);
    OutcomesAreDue(env, calls, committed);
    StartsArePermitted(env, calls, s.trace, committed);
    ExitIsSeen(env, calls, committed);
    aborted := env.cancelled(polls);
    asked := polls + 1;
    if aborted {
      ghost var log := s.log;
      s := FillCancelled(env, calls, base, s, committed);
      AnnouncedStays(env, calls, base, log, s.log, committed);
    }
    results := seq(|calls|, i requires 0 <= i < |calls| && s.slots[i].Some? => s.slots[i].value);
    assert !aborted ==> Outcomes(env, calls, committed)[..committed] == Outcomes(env, calls, committed);
  }
}
