/** The goal service and the round driver of one session. */
module GoalService {
  import opened Wrappers
  import opened Utf8
  import opened SessionLog
  import opened GoalProjection

  datatype Refusal =
    | NotFound | AlreadyExists | InvalidObjective | InvalidMaxRounds | StaleRevision
    | InvalidEdit | InvalidTransition | InvalidBlockReason

  datatype GoalRef = GoalRef(id: nat, revision: nat)

  datatype Request =
    | RequestCreate(objective: Text, maxRounds: Option<nat>)
    | RequestEdit(ref: GoalRef, newObjective: Option<Text>, newMaxRounds: Option<nat>)
    | RequestPause(ref: GoalRef)
    | RequestResume(ref: GoalRef)
    | RequestComplete(ref: GoalRef)
    | RequestBlock(ref: GoalRef, reason: BlockReason)
    | RequestClear(ref: GoalRef)

  /** The durable log, and what lives in memory beside it: the activation of the
      session and the round the driver has queued. */
  datatype State = State(log: Log, armed: bool, pending: Option<GoalRoundRef>)

  // ---------------------------------------------------------------------------
  // Text checks
  // ---------------------------------------------------------------------------

  predicate IsTrimmed(b: byte) {
    b == 0x20 || b == 0x09 || b == 0x0D || b == 0x0A
  }

  /** Without leading and trailing white space. */
  function Trim(text: Text): Text
    decreases |text|
  {
    if text == [] then []
    else if IsTrimmed(text[0]) then Trim(text[1..])
    else if IsTrimmed(text[|text| - 1]) then Trim(text[..|text| - 1])
    else text
  }

  const DASH: byte := 0x2D

  /** Lower-case letters, digits and single inner dashes. */
  ghost predicate LowerKebab(code: Text)
  {
    && code != [] && code[0] != DASH && code[|code| - 1] != DASH
    && (forall i :: 0 <= i < |code| ==> code[i] == DASH || 0x61 <= code[i] <= 0x7A || 0x30 <= code[i] <= 0x39)
    && forall i :: 0 < i < |code| ==> !(code[i - 1] == DASH && code[i] == DASH)
  }

  method IsLowerKebab(code: Text) returns (ok: bool)
    ensures ok <==> LowerKebab(code)
  {
    if code == [] || code[0] == DASH || code[|code| - 1] == DASH {
      return false;
    }
    var previousDash := false;
    for i := 0 to |code|
      invariant previousDash <==> i > 0 && code[i - 1] == DASH
      invariant forall j :: 0 <= j < i ==> code[j] == DASH || 0x61 <= code[j] <= 0x7A || 0x30 <= code[j] <= 0x39
      invariant forall j :: 0 < j < i ==> !(code[j - 1] == DASH && code[j] == DASH)
    {
      if code[i] == DASH {
        if previousDash {
          return false;
        }
        previousDash := true;
        continue;
      }
      previousDash := false;
      if code[i] < 0x61 || code[i] > 0x7A {
        if code[i] < 0x30 || code[i] > 0x39 {
          return false;
        }
      }
    }
    return true;
  }

  // ---------------------------------------------------------------------------
  // What each operation does
  // ---------------------------------------------------------------------------

  function Highest(ids: seq<nat>): (highest: nat)
    ensures forall id :: id in ids ==> id <= highest
  {
    if ids == [] then 0
    else
      var earlier, last := Highest(ids[..|ids| - 1]), ids[|ids| - 1];
      assert ids == ids[..|ids| - 1] + [last];
      if last > earlier then last else earlier
  }

  /** `next_goal_id`: above every id seen and above the current one. */
  function NextGoalId(fold: Fold): nat {
    var seen := Highest(fold.seen);
    1 + if fold.current.Some? && fold.current.value.goal.id > seen then fold.current.value.goal.id else seen
  }

  predicate Matches(current: Current, ref: GoalRef) {
    ref.id == current.goal.id && ref.revision == current.goal.revision
  }

  function MaxRoundsOf(request: Request, defaultMaxRounds: nat): nat
    requires request.RequestCreate?
  {
    if request.maxRounds.Some? then request.maxRounds.value else defaultMaxRounds
  }

  /** Why an operation on the current goal throws, if it does. */
  ghost function RefusalFor(current: Current, armed: bool, request: Request): Option<Refusal>
    requires !request.RequestCreate?
  {
    if !Matches(current, request.ref) then Some(StaleRevision)
    else
      match request
      case RequestEdit(_, objective, maxRounds) =>
        if objective.None? && maxRounds.None? then Some(InvalidEdit)
        else if objective.Some? && Trim(objective.value) == [] then Some(InvalidObjective)
        else if maxRounds.Some? && maxRounds.value == 0 then Some(InvalidMaxRounds)
        else None
      case RequestPause(_) =>
        if current.goal.phase != Active then Some(InvalidTransition) else None
      case RequestResume(_) =>
        if current.goal.phase == Complete then Some(InvalidTransition)
        else if current.rounds >= current.goal.maxRounds then Some(InvalidTransition)
        else if current.goal.phase == Active && armed then Some(InvalidTransition)
        else None
      case RequestComplete(_) =>
        if current.goal.phase == Complete then Some(InvalidTransition) else None
      case RequestBlock(_, reason) =>
        if current.goal.phase != Active then Some(InvalidTransition)
        else if !LowerKebab(reason.code) then Some(InvalidBlockReason)
        else if Trim(reason.message) == [] then Some(InvalidBlockReason)
        else None
      case RequestClear(_) => None
  }

  ghost function Refused(state: State, request: Request, defaultMaxRounds: nat): Option<Refusal> {
    var fold := Projected(state.log);
    if fold.failure.Some? then Some(InvalidTransition)
    else if request.RequestCreate? then
      if fold.current.Some? && fold.current.value.goal.phase != Complete then Some(AlreadyExists)
      else if Trim(request.objective) == [] then Some(InvalidObjective)
      else if MaxRoundsOf(request, defaultMaxRounds) == 0 then Some(InvalidMaxRounds)
      else None
    else if fold.current.None? then Some(NotFound)
    else RefusalFor(fold.current.value, state.armed, request)
  }

  function Value<T>(option: Option<T>, default: T): T {
    if option.Some? then option.value else default
  }

  /** The change an accepted operation appends. */
  function ChangeFor(fold: Fold, request: Request, defaultMaxRounds: nat): GoalChange
    requires request.RequestCreate? || fold.current.Some?
  {
    if request.RequestCreate? then
      GoalChange(Create,
                 Some(GoalSnapshot(NextGoalId(fold), 1, request.objective, Active, None,
                                   MaxRoundsOf(request, defaultMaxRounds))),
                 None, 0)
    else
      var goal, rounds := fold.current.value.goal, fold.current.value.rounds;
      var next := goal.(revision := goal.revision + 1);
      match request
      case RequestEdit(_, objective, maxRounds) =>
        GoalChange(Edit, Some(next.(objective := Value(objective, goal.objective),
                                    maxRounds := Value(maxRounds, goal.maxRounds))), None, rounds)
      case RequestPause(_) => GoalChange(Pause, Some(next.(phase := Paused, blocked := None)), None, rounds)
      case RequestResume(_) => GoalChange(Resume, Some(next.(phase := Active, blocked := None)), None, rounds)
      case RequestComplete(_) => GoalChange(Finish, Some(next.(phase := Complete, blocked := None)), None, rounds)
      case RequestBlock(_, reason) =>
        var blocked := next.(phase := Blocked, blocked := Some(reason.(message := Trim(reason.message))));
        GoalChange(Block, Some(blocked), None, rounds)
      case RequestClear(_) => GoalChange(Clear, None, Some(goal.id), 0)
  }

  function ArmedAfter(armed: bool, request: Request): bool {
    match request
    case RequestCreate(_, _) => true
    case RequestResume(_) => true
    case RequestEdit(_, _, _) => armed
    case _ => false
  }

  ghost function Performed(state: State, request: Request, defaultMaxRounds: nat): State {
    if Refused(state, request, defaultMaxRounds).Some? then state
    else state.(log := state.log + [GoalChanged(ChangeFor(Projected(state.log), request, defaultMaxRounds))],
                armed := ArmedAfter(state.armed, request))
  }

  // ---------------------------------------------------------------------------
  // The driver
  // ---------------------------------------------------------------------------

  datatype Decision = DoNothing | BlockRoundLimit | Enqueue

  /** `plan_goal_round` */
  function PlanGoalRound(current: Current, armed: bool): Decision {
    if current.goal.phase != Active || !armed then DoNothing
    else if current.rounds >= current.goal.maxRounds then BlockRoundLimit
    else Enqueue
  }

  function BlockCurrent(current: Current, code: Text): Request {
    RequestBlock(GoalRef(current.goal.id, current.goal.revision), BlockReason(code, MESSAGE))
  }

  const ROUND_LIMIT: Text := [0x72, 0x6F, 0x75, 0x6E, 0x64, 0x2D, 0x6C, 0x69, 0x6D, 0x69, 0x74]
  const QUEUE_FAILED: Text := [0x71, 0x75, 0x65, 0x75, 0x65, 0x2D, 0x66, 0x61, 0x69, 0x6C, 0x65, 0x64]
  const PROMPT_REJECTED: Text := [
    0x70, 0x72, 0x6F, 0x6D, 0x70, 0x74, 0x2D, 0x72, 0x65, 0x6A, 0x65, 0x63, 0x74, 0x65, 0x64]
  /** Stands for the driver's fixed, non-blank wordings. */
  const MESSAGE: Text := [0x67, 0x6F, 0x61, 0x6C]

  /** `run_turn_end`; `accepted` is the inbox's answer to the follow-up. */
  ghost function AfterTurnEnd(state: State, accepted: bool): State {
    var fold := Projected(state.log);
    if fold.failure.Some? || fold.current.None? then state
    else
      var current := fold.current.value;
      match PlanGoalRound(current, state.armed)
      case DoNothing => state
      case BlockRoundLimit => Performed(state, BlockCurrent(current, ROUND_LIMIT), 0)
      case Enqueue =>
        if accepted
        then state.(pending := Some(GoalRoundRef(current.goal.id, current.goal.revision, current.rounds + 1)))
        else Performed(state, BlockCurrent(current, QUEUE_FAILED), 0)
  }

  predicate Admissible(current: Current, armed: bool, round: GoalRoundRef) {
    && current.goal.id == round.goal && current.goal.revision == round.revision
    && current.goal.phase == Active && armed && round.round == current.rounds + 1
  }

  /** `admit_round`: the state it leaves and its verdict. The round's message is
      logged in the same step, and only when the verdict is true. */
  ghost function RoundOffered(state: State, round: GoalRoundRef, text: Text): (State, bool) {
    if state.pending != Some(round) then (state, false)
    else
      var taken, fold := state.(pending := None), Projected(state.log);
      if fold.failure.Some? || fold.current.None? then (taken, false)
      else if Admissible(fold.current.value, state.armed, round) then
        (taken.(log := state.log + [UserMessage(Message(FromGoal(round), text))]), true)
      else if fold.current.value.goal.phase == Active then
        (Performed(taken, BlockCurrent(fold.current.value, PROMPT_REJECTED), 0), false)
      else (taken, false)
  }

  // ---------------------------------------------------------------------------
  // What the caller and the projection see of an operation
  // ---------------------------------------------------------------------------

  predicate Blank(text: Text) {
    forall i :: 0 <= i < |text| ==> IsTrimmed(text[i])
  }

  /** What blank ends surround, with no blank end of its own. */
  predicate IsTrimBetween(text: Text, i: nat, j: nat, trimmed: Text) {
    && i <= j <= |text| && trimmed == text[i..j]
    && (forall k :: 0 <= k < |text| && !(i <= k < j) ==> IsTrimmed(text[k]))
    && (i < j ==> !IsTrimmed(text[i]) && !IsTrimmed(text[j - 1]))
  }

  ghost predicate IsTrimOf(text: Text, trimmed: Text) {
    exists i, j :: IsTrimBetween(text, i, j, trimmed)
  }

  lemma RestSlice(text: Text, i: nat, j: nat)
    requires text != [] && i <= j < |text|
    ensures text[1..][i..j] == text[i + 1..j + 1]
  {
  }

  lemma {:induction false} TrimCutsEnds(text: Text) returns (i: nat, j: nat)
    ensures IsTrimBetween(text, i, j, Trim(text))
    decreases |text|
  {
    hide IsTrimmed;
    i, j := 0, |text|;
    if text != [] && IsTrimmed(text[0]) {
      i, j := TrimCutsEnds(text[1..]);
      RestSlice(text, i, j);
      i, j := i + 1, j + 1;
    } else if text != [] && IsTrimmed(text[|text| - 1]) {
      i, j := TrimCutsEnds(text[..|text| - 1]);
    }
  }

  lemma TrimIsTight(text: Text)
    ensures IsTrimOf(text, Trim(text)) && (Trim(text) == [] <==> Blank(text))
  {
    hide Trim, IsTrimmed;
    var i, j := TrimCutsEnds(text);
    assert i < j ==> !IsTrimmed(text[i]);
  }

  /** The operation names the current goal at its revision. */
  predicate Addresses(fold: Fold, ref: GoalRef) {
    fold.current.Some? && fold.current.value.goal.id == ref.id && fold.current.value.goal.revision == ref.revision
  }

  predicate InPhase(fold: Fold, phase: GoalPhase) {
    fold.current.Some? && fold.current.value.goal.phase == phase
  }

  /** When the operation is carried out. */
  ghost predicate Allowed(fold: Fold, armed: bool, request: Request, defaultMaxRounds: nat) {
    && fold.failure.None?
    && match request
       case RequestCreate(objective, maxRounds) =>
         && (fold.current.Some? ==> InPhase(fold, Complete)) && !Blank(objective)
         && maxRounds != Some(0) && (maxRounds.None? ==> defaultMaxRounds > 0)
       case RequestEdit(ref, objective, maxRounds) =>
         && Addresses(fold, ref) && (objective.Some? || maxRounds.Some?)
         && (objective.Some? ==> !Blank(objective.value)) && maxRounds != Some(0)
       case RequestPause(ref) => Addresses(fold, ref) && InPhase(fold, Active)
       case RequestResume(ref) =>
         && Addresses(fold, ref) && !InPhase(fold, Complete)
         && fold.current.value.rounds < fold.current.value.goal.maxRounds && !(InPhase(fold, Active) && armed)
       case RequestComplete(ref) => Addresses(fold, ref) && !InPhase(fold, Complete)
       case RequestBlock(ref, reason) =>
         Addresses(fold, ref) && InPhase(fold, Active) && LowerKebab(reason.code) && !Blank(reason.message)
       case RequestClear(ref) => Addresses(fold, ref)
  }

  /** Nothing but its own arguments and the goal's progress can stop the operation. */
  predicate Applies(fold: Fold, request: Request) {
    && fold.failure.None?
    && if request.RequestCreate? then fold.current.Some? ==> InPhase(fold, Complete)
       else Addresses(fold, request.ref)
  }

  /** Why the operation throws. */
  ghost predicate Explains(refusal: Refusal, fold: Fold, armed: bool, request: Request, defaultMaxRounds: nat) {
    match refusal
    case NotFound => fold.failure.None? && !request.RequestCreate? && fold.current.None?
    case AlreadyExists => fold.failure.None? && request.RequestCreate? && !Applies(fold, request)
    case StaleRevision =>
      fold.failure.None? && !request.RequestCreate? && fold.current.Some? && !Addresses(fold, request.ref)
    case InvalidObjective =>
      && Applies(fold, request)
      && (request.RequestCreate? ==> Blank(request.objective))
      && (!request.RequestCreate? ==>
            request.RequestEdit? && request.newObjective.Some? && Blank(request.newObjective.value))
    case InvalidMaxRounds =>
      && Applies(fold, request)
      && (request.RequestCreate? ==>
            request.maxRounds == Some(0) || (request.maxRounds.None? && defaultMaxRounds == 0))
      && (!request.RequestCreate? ==> request.RequestEdit? && request.newMaxRounds == Some(0))
    case InvalidEdit =>
      && Applies(fold, request)
      && request.RequestEdit? && request.newObjective.None? && request.newMaxRounds.None?
    case InvalidBlockReason =>
      && Applies(fold, request)
      && request.RequestBlock? && (!LowerKebab(request.reason.code) || Blank(request.reason.message))
    case InvalidTransition =>
      || fold.failure.Some?
      || (&& Applies(fold, request) && !request.RequestCreate?
          && match request
             case RequestPause(_) => !InPhase(fold, Active)
             case RequestBlock(_, _) => !InPhase(fold, Active)
             case RequestComplete(_) => InPhase(fold, Complete)
             case RequestResume(_) =>
               || InPhase(fold, Complete) || (InPhase(fold, Active) && armed)
               || fold.current.value.rounds >= fold.current.value.goal.maxRounds
             case _ => false)
  }

  /** The same goal one revision later, with its rounds. */
  predicate IsNextRevision(was: Current, now: Current) {
    && now.goal.id == was.goal.id && now.goal.revision == was.goal.revision + 1 && now.rounds == was.rounds
  }

  predicate KeepsTerms(was: Current, now: Current) {
    now.goal.objective == was.goal.objective && now.goal.maxRounds == was.goal.maxRounds
  }

  /** One more than every id the session has used. */
  predicate IsNextId(id: nat, fold: Fold) {
    && (forall other :: other in fold.seen ==> other < id)
    && (fold.current.Some? ==> fold.current.value.goal.id < id)
    && (id == 1 || id - 1 in fold.seen || (fold.current.Some? && fold.current.value.goal.id == id - 1))
  }

  /** The current goal goes on, one revision later. */
  predicate GoesOn(was: Fold, now: Fold) {
    && was.current.Some? && now.current.Some? && now.seen == was.seen
    && IsNextRevision(was.current.value, now.current.value)
  }

  /** It goes on with its objective and its cap, in another phase and not blocked. */
  predicate MovesTo(was: Fold, phase: GoalPhase, now: Fold) {
    && GoesOn(was, now) && KeepsTerms(was.current.value, now.current.value)
    && now.current.value.goal.phase == phase && now.current.value.goal.blocked.None?
  }

  /** How the projection changes over an operation that is carried out. */
  ghost predicate HasEffect(was: Fold, request: Request, defaultMaxRounds: nat, now: Fold) {
    && now.failure.None?
    && match request
       case RequestCreate(objective, maxRounds) =>
         && now.current.Some? && now.current.value.rounds == 0
         && now.seen == was.seen + [now.current.value.goal.id]
         && var goal := now.current.value.goal;
            && IsNextId(goal.id, was) && goal.revision == 1 && goal.objective == objective
            && goal.phase == Active && goal.blocked.None?
            && goal.maxRounds == Value(maxRounds, defaultMaxRounds)
       case RequestEdit(_, objective, maxRounds) =>
         && GoesOn(was, now)
         && var before, after := was.current.value.goal, now.current.value.goal;
            && after.objective == Value(objective, before.objective)
            && after.maxRounds == Value(maxRounds, before.maxRounds)
            && after.phase == before.phase && after.blocked == before.blocked
       case RequestPause(_) => MovesTo(was, Paused, now)
       case RequestResume(_) => MovesTo(was, Active, now)
       case RequestComplete(_) => MovesTo(was, Complete, now)
       case RequestBlock(_, reason) =>
         && GoesOn(was, now) && KeepsTerms(was.current.value, now.current.value)
         && var after := now.current.value.goal;
            && after.phase == Blocked && after.blocked.Some?
            && after.blocked.value.code == reason.code && IsTrimOf(reason.message, after.blocked.value.message)
       case RequestClear(ref) => now.current.None? && now.seen == was.seen + [ref.id]
  }

  /** What an operation leaves: nothing but its effect when allowed, nothing at all otherwise. */
  ghost predicate Operated(was: State, request: Request, defaultMaxRounds: nat, refusal: Option<Refusal>, now: State) {
    && (refusal.None? <==> Allowed(Projected(was.log), was.armed, request, defaultMaxRounds))
    && (refusal.Some? ==>
          now == was && Explains(refusal.value, Projected(was.log), was.armed, request, defaultMaxRounds))
    && (refusal.None? ==>
          && |now.log| == |was.log| + 1 && was.log <= now.log && now.pending == was.pending
          && HasEffect(Projected(was.log), request, defaultMaxRounds, Projected(now.log))
          && (now.armed <==> request.RequestCreate? || request.RequestResume? || (request.RequestEdit? && was.armed)))
  }

  lemma HighestIsAbove(fold: Fold)
    ensures NextGoalId(fold) !in fold.seen
    ensures fold.current.Some? ==> NextGoalId(fold) != fold.current.value.goal.id
  {
  }

  lemma NextIdIsNext(fold: Fold)
    ensures IsNextId(NextGoalId(fold), fold)
  {
    HighestIsUsed(fold.seen);
  }

  lemma {:induction false} HighestIsUsed(ids: seq<nat>)
    ensures Highest(ids) == 0 || Highest(ids) in ids
  {
    if ids != [] {
      HighestIsUsed(ids[..|ids| - 1]);
    }
  }

  lemma RefusalsAreExplained(state: State, request: Request, defaultMaxRounds: nat)
    ensures var refusal, fold := Refused(state, request, defaultMaxRounds), Projected(state.log);
            && (refusal.None? <==> Allowed(fold, state.armed, request, defaultMaxRounds))
            && (refusal.Some? ==> Explains(refusal.value, fold, state.armed, request, defaultMaxRounds))
  {
    hide Trim, Projected, LowerKebab, Blank, IsTrimOf;
    match request
    case RequestCreate(objective, _) => TrimIsTight(objective);
    case RequestEdit(_, objective, _) => if objective.Some? { TrimIsTight(objective.value); }
    case RequestBlock(_, reason) => TrimIsTight(reason.message);
    case _ =>
  }

  lemma ChangeHasEffect(fold: Fold, request: Request, defaultMaxRounds: nat)
    requires Applies(fold, request)
    ensures HasEffect(fold, request, defaultMaxRounds,
                      Apply(fold, GoalChanged(ChangeFor(fold, request, defaultMaxRounds))))
  {
    hide NextGoalId, IsNextId, Trim, IsTrimOf;
    match request
    case RequestCreate(_, _) => NextIdIsNext(fold); HighestIsAbove(fold);
    case RequestBlock(_, reason) => TrimIsTight(reason.message);
    case _ =>
  }

  lemma PerformedIsOperated(state: State, request: Request, defaultMaxRounds: nat)
    ensures Operated(state, request, defaultMaxRounds, Refused(state, request, defaultMaxRounds),
                     Performed(state, request, defaultMaxRounds))
  {
    hide HasEffect, Explains, Projected, Trim, LowerKebab, Refused, ChangeFor, Apply;
    RefusalsAreExplained(state, request, defaultMaxRounds);
    if Refused(state, request, defaultMaxRounds).None? {
      var fold := Projected(state.log);
      ChangeHasEffect(fold, request, defaultMaxRounds);
      ProjectOneMore(state.log, GoalChanged(ChangeFor(fold, request, defaultMaxRounds)));
    }
  }

  /** The driver plans a round, or gives up on one, only for a current goal that is active. */
  ghost predicate Plans(state: State) {
    var fold := Projected(state.log);
    fold.failure.None? && InPhase(fold, Active) && state.armed
  }

  /** The driver blocked the current goal with `code`, which also disarms the session. */
  ghost predicate BlockedBy(was: State, code: Text, now: State) {
    var before, after := Projected(was.log), Projected(now.log);
    && |now.log| == |was.log| + 1 && was.log <= now.log && !now.armed
    && after.failure.None? && GoesOn(before, after) && KeepsTerms(before.current.value, after.current.value)
    && after.current.value.goal.phase == Blocked
    && after.current.value.goal.blocked == Some(BlockReason(code, MESSAGE))
  }

  lemma DriverTextsAreValid()
    ensures LowerKebab(ROUND_LIMIT) && LowerKebab(QUEUE_FAILED) && LowerKebab(PROMPT_REJECTED)
    ensures Trim(MESSAGE) == MESSAGE != []
  {
  }

  /** The driver's own block requests are never refused. */
  lemma DriverBlocks(state: State, code: Text)
    requires code == ROUND_LIMIT || code == QUEUE_FAILED || code == PROMPT_REJECTED
    requires Projected(state.log).failure.None? && InPhase(Projected(state.log), Active)
    ensures BlockedBy(state, code, Performed(state, BlockCurrent(Projected(state.log).current.value, code), 0))
    ensures Performed(state, BlockCurrent(Projected(state.log).current.value, code), 0).pending == state.pending
  {
    hide LowerKebab, Trim, Projected;
    DriverTextsAreValid();
    var fold := Projected(state.log);
    var change := ChangeFor(fold, BlockCurrent(fold.current.value, code), 0);
    ProjectOneMore(state.log, GoalChanged(change));
  }

  lemma BlockedAnyway(state: State, taken: State, code: Text, next: State)
    requires state.log == taken.log && BlockedBy(taken, code, next)
    ensures BlockedBy(state, code, next)
  {
  }

  // ---------------------------------------------------------------------------
  // The service, imperatively
  // ---------------------------------------------------------------------------

  class GoalSession {
    const defaultMaxRounds: nat
    var log: Log
    var armed: bool
    var pending: Option<GoalRoundRef>

    ghost function Abs(): State
      reads this
    {
      State(log, armed, pending)
    }

    constructor (log: Log, defaultMaxRounds: nat)
      ensures Abs() == State(log, false, None) && this.defaultMaxRounds == defaultMaxRounds
    {
      this.log, this.defaultMaxRounds := log, defaultMaxRounds;
      armed, pending := false, None;
    }

    method Append(change: GoalChange)
      modifies this`log
      ensures log == old(log) + [GoalChanged(change)]
    {
      log := log + [GoalChanged(change)];
    }

    method Create(request: Request) returns (refusal: Option<Refusal>)
      requires request.RequestCreate?
      modifies this
      ensures refusal == old(Refused(Abs(), request, defaultMaxRounds))
      ensures Abs() == old(Performed(Abs(), request, defaultMaxRounds))
      ensures Operated(old(Abs()), request, defaultMaxRounds, refusal, Abs())
    {
      hide Operated;
      PerformedIsOperated(Abs(), request, defaultMaxRounds);
      var fold := Project(log);
      if fold.failure.Some? { return Some(InvalidTransition); }
      if fold.current.Some? && fold.current.value.goal.phase != Complete { return Some(AlreadyExists); }
      if Trim(request.objective) == [] { return Some(InvalidObjective); }
      var maxRounds := if request.maxRounds.Some? then request.maxRounds.value else defaultMaxRounds;
      if maxRounds == 0 { return Some(InvalidMaxRounds); }
      var snapshot := GoalSnapshot(NextGoalId(fold), 1, request.objective, Active, None, maxRounds);
      Append(GoalChange(SessionLog.Create, Some(snapshot), None, 0));
      armed := true;
      return None;
    }

    /** `require_current` and the revision check every mutation starts with. */
    method RequireCurrent(ref: GoalRef) returns (refusal: Option<Refusal>, current: Option<Current>)
      ensures var fold := Projected(log);
              if fold.failure.Some? then refusal == Some(InvalidTransition)
              else if fold.current.None? then refusal == Some(NotFound)
              else if !Matches(fold.current.value, ref) then refusal == Some(StaleRevision)
              else refusal == None && current == fold.current
    {
      var fold := Project(log);
      current := None;
      if fold.failure.Some? { return Some(InvalidTransition), current; }
      if fold.current.None? { return Some(NotFound), current; }
      if !Matches(fold.current.value, ref) { return Some(StaleRevision), current; }
      return None, fold.current;
    }

    method EditGoal(request: Request) returns (refusal: Option<Refusal>)
      requires request.RequestEdit?
      modifies this
      ensures refusal == old(Refused(Abs(), request, defaultMaxRounds))
      ensures Abs() == old(Performed(Abs(), request, defaultMaxRounds))
      ensures Operated(old(Abs()), request, defaultMaxRounds, refusal, Abs())
    {
      hide Operated;
      PerformedIsOperated(Abs(), request, defaultMaxRounds);
      var current;
      refusal, current := RequireCurrent(request.ref);
      if refusal.Some? { return; }
      if request.newObjective.None? && request.newMaxRounds.None? { return Some(InvalidEdit); }
      var snapshot := current.value.goal.(revision := current.value.goal.revision + 1);
      if request.newObjective.Some? {
        if Trim(request.newObjective.value) == [] { return Some(InvalidObjective); }
        snapshot := snapshot.(objective := request.newObjective.value);
      }
      if request.newMaxRounds.Some? {
        if request.newMaxRounds.value == 0 { return Some(InvalidMaxRounds); }
        snapshot := snapshot.(maxRounds := request.newMaxRounds.value);
      }
      Append(GoalChange(Edit, Some(snapshot), None, current.value.rounds));
    }

    method PauseGoal(request: Request) returns (refusal: Option<Refusal>)
      requires request.RequestPause?
      modifies this
      ensures refusal == old(Refused(Abs(), request, defaultMaxRounds))
      ensures Abs() == old(Performed(Abs(), request, defaultMaxRounds))
      ensures Operated(old(Abs()), request, defaultMaxRounds, refusal, Abs())
    {
      hide Operated;
      PerformedIsOperated(Abs(), request, defaultMaxRounds);
      var current;
      refusal, current := RequireCurrent(request.ref);
      if refusal.Some? { return; }
      if current.value.goal.phase != Active { return Some(InvalidTransition); }
      var goal := current.value.goal;
      var snapshot := goal.(revision := goal.revision + 1, phase := Paused, blocked := None);
      Append(GoalChange(Pause, Some(snapshot), None, current.value.rounds));
      armed := false;
    }

    method ResumeGoal(request: Request) returns (refusal: Option<Refusal>)
      requires request.RequestResume?
      modifies this
      ensures refusal == old(Refused(Abs(), request, defaultMaxRounds))
      ensures Abs() == old(Performed(Abs(), request, defaultMaxRounds))
      ensures Operated(old(Abs()), request, defaultMaxRounds, refusal, Abs())
    {
      hide Operated;
      PerformedIsOperated(Abs(), request, defaultMaxRounds);
      var current;
      refusal, current := RequireCurrent(request.ref);
      if refusal.Some? { return; }
      if current.value.goal.phase == Complete { return Some(InvalidTransition); }
      if current.value.rounds >= current.value.goal.maxRounds { return Some(InvalidTransition); }
      if current.value.goal.phase == Active && armed { return Some(InvalidTransition); }
      var goal := current.value.goal;
      var snapshot := goal.(revision := goal.revision + 1, phase := Active, blocked := None);
      Append(GoalChange(Resume, Some(snapshot), None, current.value.rounds));
      armed := true;
    }

    method CompleteGoal(request: Request) returns (refusal: Option<Refusal>)
      requires request.RequestComplete?
      modifies this
      ensures refusal == old(Refused(Abs(), request, defaultMaxRounds))
      ensures Abs() == old(Performed(Abs(), request, defaultMaxRounds))
      ensures Operated(old(Abs()), request, defaultMaxRounds, refusal, Abs())
    {
      hide Operated;
      PerformedIsOperated(Abs(), request, defaultMaxRounds);
      var current;
      refusal, current := RequireCurrent(request.ref);
      if refusal.Some? { return; }
      if current.value.goal.phase == Complete { return Some(InvalidTransition); }
      var goal := current.value.goal;
      var snapshot := goal.(revision := goal.revision + 1, phase := Complete, blocked := None);
      Append(GoalChange(Finish, Some(snapshot), None, current.value.rounds));
      armed := false;
    }

    method BlockGoal(request: Request) returns (refusal: Option<Refusal>)
      requires request.RequestBlock?
      modifies this
      ensures refusal == old(Refused(Abs(), request, defaultMaxRounds))
      ensures Abs() == old(Performed(Abs(), request, defaultMaxRounds))
      ensures Operated(old(Abs()), request, defaultMaxRounds, refusal, Abs())
    {
      hide Operated;
      PerformedIsOperated(Abs(), request, defaultMaxRounds);
      var current;
      refusal, current := RequireCurrent(request.ref);
      if refusal.Some? { return; }
      if current.value.goal.phase != Active { return Some(InvalidTransition); }
      var kebab := IsLowerKebab(request.reason.code);
      if !kebab { return Some(InvalidBlockReason); }
      var message := Trim(request.reason.message);
      if message == [] { return Some(InvalidBlockReason); }
      var snapshot := current.value.goal.(revision := current.value.goal.revision + 1, phase := Blocked,
                                          blocked := Some(BlockReason(request.reason.code, message)));
      Append(GoalChange(Block, Some(snapshot), None, current.value.rounds));
      armed := false;
    }

    method ClearGoal(request: Request) returns (refusal: Option<Refusal>)
      requires request.RequestClear?
      modifies this
      ensures refusal == old(Refused(Abs(), request, defaultMaxRounds))
      ensures Abs() == old(Performed(Abs(), request, defaultMaxRounds))
      ensures Operated(old(Abs()), request, defaultMaxRounds, refusal, Abs())
    {
      hide Operated;
      PerformedIsOperated(Abs(), request, defaultMaxRounds);
      var current;
      refusal, current := RequireCurrent(request.ref);
      if refusal.Some? { return; }
      Append(GoalChange(Clear, None, Some(current.value.goal.id), 0));
      armed := false;
    }

    method Disarm()
      modifies this
      ensures Abs() == old(Abs()).(armed := false)
    {
      armed := false;
    }

    method RunTurnEnd(accepted: bool)
      modifies this
      ensures Abs() == old(AfterTurnEnd(Abs(), accepted))
      ensures !old(Plans(Abs())) ==> Abs() == old(Abs())
      ensures old(Plans(Abs())) ==>
                var Current(goal, rounds) := Projected(old(log)).current.value;
                if rounds < goal.maxRounds && accepted then
                  log == old(log) && armed && pending == Some(GoalRoundRef(goal.id, goal.revision, rounds + 1))
                else
                  && BlockedBy(old(Abs()), if rounds < goal.maxRounds then QUEUE_FAILED else ROUND_LIMIT, Abs())
                  && pending == old(pending)
    {
      hide BlockedBy, Operated;
      if Plans(Abs()) {
        DriverBlocks(Abs(), ROUND_LIMIT);
        DriverBlocks(Abs(), QUEUE_FAILED);
      }
      var fold := Project(log);
      if fold.failure.Some? || fold.current.None? {
        return;
      }
      var current := fold.current.value;
      match PlanGoalRound(current, armed)
      case DoNothing =>
      case BlockRoundLimit =>
        var _ := BlockGoal(BlockCurrent(current, ROUND_LIMIT));
      case Enqueue =>
        if !accepted {
          var _ := BlockGoal(BlockCurrent(current, QUEUE_FAILED));
          return;
        }
        pending := Some(GoalRoundRef(current.goal.id, current.goal.revision, current.rounds + 1));
    }

    /** `admit_round`, and the append its caller performs on a true verdict. */
    method OfferRound(round: GoalRoundRef, text: Text) returns (admitted: bool)
      modifies this
      ensures (Abs(), admitted) == old(RoundOffered(Abs(), round, text))
      ensures admitted <==>
              && old(pending) == Some(round) && old(Plans(Abs()))
              && var Current(goal, rounds) := Projected(old(log)).current.value;
                 round == GoalRoundRef(goal.id, goal.revision, rounds + 1)
      ensures admitted ==> log == old(log) + [UserMessage(Message(FromGoal(round), text))] && armed
      ensures pending == if old(pending) == Some(round) then None else old(pending)
      ensures !admitted ==>
                if old(pending) == Some(round) && Projected(old(log)).failure.None?
                   && InPhase(Projected(old(log)), Active)
                then BlockedBy(old(Abs()), PROMPT_REJECTED, Abs())
                else log == old(log) && armed == old(armed)
    {
      hide BlockedBy, Operated;
      ghost var taken := Abs().(pending := None);
      if Projected(log).failure.None? && InPhase(Projected(log), Active) {
        ghost var request := BlockCurrent(Projected(log).current.value, PROMPT_REJECTED);
        DriverBlocks(taken, PROMPT_REJECTED);
        BlockedAnyway(Abs(), taken, PROMPT_REJECTED, Performed(taken, request, 0));
      }
      if pending != Some(round) {
        return false;
      }
      pending := None;
      var fold := Project(log);
      if fold.failure.Some? || fold.current.None? {
        return false;
      }
      var current := fold.current.value;
      if Admissible(current, armed, round) {
        log := log + [UserMessage(Message(FromGoal(round), text))];
        return true;
      }
      if current.goal.phase == Active {
        var _ := BlockGoal(BlockCurrent(current, PROMPT_REJECTED));
      }
      return false;
    }
  }
}
