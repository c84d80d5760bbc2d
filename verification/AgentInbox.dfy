/** The agent loop's inbox: what is accepted, in which order it is used, and how it is logged. */
module AgentInbox {
  import opened SessionLog

  datatype InboxItem =
    | Prompt(followUp: bool, message: Message)
    | Steering(message: Message)
    | Context(startsTurn: bool, message: Message)
    | CompactionRequest

  function OriginOf(item: InboxItem): TurnOrigin {
    match item
    case Prompt(followUp, _) => if followUp then TurnOrigin.FollowUp else TurnOrigin.User
    case Steering(_) => TurnOrigin.Steer
    case Context(startsTurn, _) => if startsTurn then Injection else TurnOrigin.User
    case CompactionRequest => Maintenance
  }

  /** Joins the current turn, or the next, without starting one. */
  predicate Folds(item: InboxItem) {
    item.Steering? || (item.Context? && !item.startsTurn)
  }

  /** Wakes the loop. */
  predicate Wakes(item: InboxItem) {
    item.Context? ==> item.startsTurn
  }

  predicate AllFold(inbox: seq<InboxItem>) {
    forall i :: 0 <= i < |inbox| ==> Folds(inbox[i])
  }

  predicate AnyWakes(inbox: seq<InboxItem>) {
    exists i :: 0 <= i < |inbox| && Wakes(inbox[i])
  }

  lemma AWakingItemIsThere(inbox: seq<InboxItem>)
    requires AnyWakes(inbox)
    ensures inbox != []
  {
  }

  lemma NothingWakes()
    ensures AllFold([]) && !AnyWakes([])
  {
  }

  lemma FoldingOwesNothing(item: InboxItem)
    requires Folds(item)
    ensures TurnFor(item) == []
  {
  }

  /** What starts a turn, and the origin it is logged with. */
  lemma TriggersStartTurns(item: InboxItem)
    requires !Folds(item)
    ensures TurnFor(item) == [OriginOf(item)]
    ensures item.Prompt? ==> OriginOf(item) == if item.followUp then FollowUp else User
    ensures item.Context? ==> OriginOf(item) == Injection
    ensures item.CompactionRequest? <==> OriginOf(item) == Maintenance
  {
  }

  /** How much of a batch finds room: its beginning, up to the limit of the inbox. */
  function Admitted(inbox: seq<InboxItem>, batch: seq<InboxItem>, maxInbox: nat): seq<InboxItem> {
    var room := if |inbox| < maxInbox then maxInbox - |inbox| else 0;
    if room < |batch| then batch[..room] else batch
  }

  /** A compaction request is among what finds none. */
  predicate RefusesCompaction(inbox: seq<InboxItem>, batch: seq<InboxItem>, maxInbox: nat) {
    CompactionRequest in batch[|Admitted(inbox, batch, maxInbox)|..]
  }

  function NextBatch(arrivals: seq<seq<InboxItem>>): seq<InboxItem> {
    if arrivals == [] then [] else arrivals[0]
  }

  lemma FullAdmitsNothing(inbox: seq<InboxItem>, batch: seq<InboxItem>, maxInbox: nat)
    requires |inbox| >= maxInbox
    ensures Admitted(inbox, batch, maxInbox) == []
    ensures RefusesCompaction(inbox, batch, maxInbox) <==> CompactionRequest in batch
  {
    assert batch[0..] == batch;
  }

  lemma NothingArrives(inbox: seq<InboxItem>, batch: seq<InboxItem>, maxInbox: nat)
    ensures Admitted(inbox, [], maxInbox) == [] && !RefusesCompaction(inbox, [], maxInbox)
    ensures Admitted(inbox, batch[..0], maxInbox) == [] && !RefusesCompaction(inbox, batch[..0], maxInbox)
    ensures inbox + [] == inbox
  {
  }

  /** A request is refused only when the inbox is full, and stays so. */
  lemma RefusalFills(inbox: seq<InboxItem>, batch: seq<InboxItem>, maxInbox: nat)
    requires |inbox| <= maxInbox
    ensures RefusesCompaction(inbox, batch, maxInbox) ==> |inbox + Admitted(inbox, batch, maxInbox)| == maxInbox
    ensures |inbox| == maxInbox ==> Admitted(inbox, batch, maxInbox) == []
  {
  }

  lemma MoreStillWakes(inbox: seq<InboxItem>, more: seq<InboxItem>)
    requires inbox <= more && AnyWakes(inbox)
    ensures AnyWakes(more)
  {
    var i :| 0 <= i < |inbox| && Wakes(inbox[i]);
    assert Wakes(more[i]);
  }

  lemma OneWakes(inbox: seq<InboxItem>, item: InboxItem)
    requires Wakes(item)
    ensures AnyWakes(inbox + [item])
  {
    assert Wakes((inbox + [item])[|inbox|]);
  }

  /** One more item of a batch arrives. */
  lemma AdmittedOneMore(inbox: seq<InboxItem>, batch: seq<InboxItem>, maxInbox: nat, i: nat)
    requires i < |batch|
    ensures var before, after := Admitted(inbox, batch[..i], maxInbox), Admitted(inbox, batch[..i + 1], maxInbox);
            && after == (if |inbox + before| < maxInbox then before + [batch[i]] else before)
            && (RefusesCompaction(inbox, batch[..i + 1], maxInbox) <==>
                  || RefusesCompaction(inbox, batch[..i], maxInbox)
                  || (|inbox + before| >= maxInbox && batch[i].CompactionRequest?))
  {
    assert batch[..i + 1] == batch[..i] + [batch[i]];
    var room := if |inbox| < maxInbox then maxInbox - |inbox| else 0;
    var n := if room < i then room else i;
    if n < i {
      assert batch[..i + 1][n..] == batch[..i][n..] + [batch[i]];
    } else {
      assert batch[..i][n..] == [];
    }
  }

  /** How an item appears in the log. */
  function Posts(item: InboxItem): Log {
    if item.CompactionRequest? then []
    else if item.Context? then [ContextInjected(item.message)]
    else [UserMessage(item.message)]
  }

  function AllPosts(items: seq<InboxItem>): Log {
    if items == [] then [] else AllPosts(items[..|items| - 1]) + Posts(items[|items| - 1])
  }

  /** The user messages among the items. */
  function SaidBy(items: seq<InboxItem>): seq<Message> {
    if items == [] then []
    else
      var last := items[|items| - 1];
      SaidBy(items[..|items| - 1]) + if last.Prompt? || last.Steering? then [last.message] else []
  }

  /** The origins of the turns the items start. */
  function TurnsFor(items: seq<InboxItem>): seq<TurnOrigin> {
    if items == [] then [] else TurnsFor(items[..|items| - 1]) + TurnFor(items[|items| - 1])
  }

  function TurnFor(item: InboxItem): seq<TurnOrigin> {
    if Folds(item) then [] else [OriginOf(item)]
  }

  lemma OneMoreItem(items: seq<InboxItem>, item: InboxItem)
    ensures AllPosts(items + [item]) == AllPosts(items) + Posts(item)
    ensures TurnsFor(items + [item]) == TurnsFor(items) + TurnFor(item)
    ensures SaidBy(items + [item]) == SaidBy(items) + if item.Prompt? || item.Steering? then [item.message] else []
  {
    assert (items + [item])[..|items|] == items;
  }

  /** Each posted item has its own place in the log, in the order the items were used. */
  ghost predicate PostedAt(log: Log, base: nat, items: seq<InboxItem>, places: seq<nat>) {
    && |places| == |AllPosts(items)|
    && (forall k :: 0 <= k < |places| ==> base <= places[k] < |log| && log[places[k]] == AllPosts(items)[k])
    && forall j, k :: 0 <= j < k < |places| ==> places[j] < places[k]
  }

  lemma PostedStays(log: Log, base: nat, items: seq<InboxItem>, places: seq<nat>, event: Event)
    requires PostedAt(log, base, items, places)
    ensures PostedAt(log + [event], base, items, places)
  {
  }

  lemma PostedExtends(log: Log, more: Log, base: nat, items: seq<InboxItem>, places: seq<nat>)
    requires PostedAt(log, base, items, places) && log <= more
    ensures PostedAt(more, base, items, places)
  {
  }

  lemma PostedOneMore(log: Log, base: nat, items: seq<InboxItem>, places: seq<nat>, item: InboxItem)
    requires PostedAt(log, base, items, places) && base <= |log|
    ensures PostedAt(log + Posts(item), base, items + [item], places + if item.CompactionRequest? then [] else [|log|])
  {
    hide AllPosts, SaidBy, TurnsFor, TurnFor;
    OneMoreItem(items, item);
  }

  /** The first `n` items have moved from the inbox to the log. */
  ghost predicate Drained(before: seq<InboxItem>, inbox: seq<InboxItem>, base: Log, log: Log, n: nat) {
    n <= |before| && AllFold(before[..n]) && inbox == before[n..] && log == base + AllPosts(before[..n])
  }

  lemma NothingDrained(inbox: seq<InboxItem>, log: Log)
    ensures Drained(inbox, inbox, log, log, 0)
  {
  }

  lemma DrainedOneMore(before: seq<InboxItem>, inbox: seq<InboxItem>, base: Log, log: Log, n: nat)
    requires Drained(before, inbox, base, log, n) && inbox != [] && Folds(inbox[0])
    ensures Drained(before, inbox[1..], base, log + Posts(inbox[0]), n + 1)
  {
    hide AllPosts, Posts, Folds;
    OneMoreItem(before[..n], inbox[0]);
    assert before[..n + 1] == before[..n] + [inbox[0]];
    assert base + AllPosts(before[..n]) + Posts(inbox[0]) == base + (AllPosts(before[..n]) + Posts(inbox[0]));
  }

  lemma {:induction false} DrainedShrinks(before: seq<InboxItem>, inbox: seq<InboxItem>, base: Log, log: Log, n: nat)
    requires Drained(before, inbox, base, log, n)
    ensures |inbox| + n == |before|
    ensures n == |before| ==> AllFold(before) && log == base + AllPosts(before)
    ensures n > 0 ==> Folds(before[0])
  {
    if n == |before| {
      assert before[..n] == before;
    }
    if n > 0 {
      assert before[..n][0] == before[0];
    }
  }

  /** Draining stops at the first item that does not fold. */
  lemma {:induction false} DrainStops(before: seq<InboxItem>, inbox: seq<InboxItem>, base: Log, log: Log, n: nat)
    requires Drained(before, inbox, base, log, n) && (inbox == [] || !Folds(inbox[0]))
    ensures |inbox| + n == |before|
    ensures AllFold(before) ==> inbox == [] && log == base + AllPosts(before)
    ensures before != [] && !Folds(before[0]) ==> inbox == before && log == base
  {
    DrainedShrinks(before, inbox, base, log, n);
    if inbox != [] {
      assert inbox[0] == before[n];
    }
  }

  lemma SteeringAlone(item: InboxItem)
    requires item.Steering?
    ensures AllFold([item]) && AnyWakes([item]) && AllPosts([item]) == [UserMessage(item.message)]
  {
    OneMoreItem([], item);
    assert [item][0] == item;
    assert [] + [item] == [item];
  }

  // ---------------------------------------------------------------------------
  // What waits, from one look at the inbox to the next
  // ---------------------------------------------------------------------------

  /** The inbox, the batches still to come, and whether a refusal is still to be recorded. */
  datatype Queue = Queue(inbox: seq<InboxItem>, arrivals: seq<seq<InboxItem>>, refused: bool)

  /** The next batch has arrived. */
  function Looked(queue: Queue, maxInbox: nat): Queue {
    Queue(queue.inbox + Admitted(queue.inbox, NextBatch(queue.arrivals), maxInbox),
          if queue.arrivals == [] then [] else queue.arrivals[1..],
          queue.refused || RefusesCompaction(queue.inbox, NextBatch(queue.arrivals), maxInbox))
  }

  /** How many items at the head fold. */
  function LeadingFolds(items: seq<InboxItem>): (n: nat)
    ensures n <= |items| && AllFold(items[..n]) && (n < |items| ==> !Folds(items[n]))
    ensures forall i :: 0 <= i < n ==> items[i].Steering? || (items[i].Context? && !items[i].startsTurn)
    ensures n < |items| ==>
              items[n].Prompt? || items[n].CompactionRequest? || (items[n].Context? && items[n].startsTurn)
  {
    if items == [] || !Folds(items[0]) then 0
    else
      var n := LeadingFolds(items[1..]);
      assert items[..n + 1] == [items[0]] + items[1..][..n];
      n + 1
  }

  function Folded(items: seq<InboxItem>): seq<InboxItem> {
    items[..LeadingFolds(items)]
  }

  function Unfolded(items: seq<InboxItem>): seq<InboxItem> {
    items[LeadingFolds(items)..]
  }

  /** What waits once `n` steps have looked at the inbox and folded what led it. */
  function QueueAfter(queue: Queue, maxInbox: nat, n: nat): Queue {
    if n == 0 then queue
    else
      var looked := Looked(QueueAfter(queue, maxInbox, n - 1), maxInbox);
      looked.(inbox := Unfolded(looked.inbox))
  }

  /** What the step behind `n` others folds. */
  function FoldedIn(queue: Queue, maxInbox: nat, n: nat): seq<InboxItem> {
    Folded(Looked(QueueAfter(queue, maxInbox, n), maxInbox).inbox)
  }

  lemma {:induction false} QueueAfterMore(queue: Queue, maxInbox: nat, n: nat)
    ensures QueueAfter(QueueAfter(queue, maxInbox, n), maxInbox, 1) == QueueAfter(queue, maxInbox, n + 1)
    ensures FoldedIn(QueueAfter(queue, maxInbox, n), maxInbox, 0) == FoldedIn(queue, maxInbox, n)
  {
    hide Looked, LeadingFolds, Unfolded, Folded;
    assert QueueAfter(QueueAfter(queue, maxInbox, n), maxInbox, 0) == QueueAfter(queue, maxInbox, n);
  }

  lemma OneLook(queue: Queue, maxInbox: nat)
    ensures FoldedIn(queue, maxInbox, 0) == Folded(Looked(queue, maxInbox).inbox)
    ensures QueueAfter(queue, maxInbox, 1).inbox == Unfolded(Looked(queue, maxInbox).inbox)
  {
    hide Looked, LeadingFolds, Unfolded, Folded;
    assert QueueAfter(queue, maxInbox, 0) == queue;
  }

  lemma FoldsHaveOneEnd(items: seq<InboxItem>, n: nat)
    requires n <= |items| && AllFold(items[..n]) && (n < |items| ==> !Folds(items[n]))
    ensures n == LeadingFolds(items)
  {
    hide LeadingFolds, Folds, AllFold;
    var m := LeadingFolds(items);
    if m < n {
      FoldsBefore(items, n, m);
    } else if n < m {
      FoldsBefore(items, m, n);
    }
  }

  lemma FoldsBefore(items: seq<InboxItem>, n: nat, i: nat)
    requires i < n <= |items| && AllFold(items[..n])
    ensures Folds(items[i])
  {
    assert items[..n][i] == items[i];
  }

  /** Draining takes exactly what folds at the head. */
  lemma {:induction false} DrainTakesFolded(
    before: seq<InboxItem>, inbox: seq<InboxItem>, base: Log, log: Log, n: nat)
    requires Drained(before, inbox, base, log, n) && (inbox == [] || !Folds(inbox[0]))
    ensures inbox == Unfolded(before) && log == base + AllPosts(Folded(before))
  {
    hide LeadingFolds, Folds, AllPosts;
    if n < |before| {
      assert inbox[0] == before[n];
    }
    FoldsHaveOneEnd(before, n);
  }

  /** Once a step has looked, nothing that folds leads the inbox. */
  lemma NothingLeads(queue: Queue, maxInbox: nat, n: nat)
    requires n > 0
    ensures var inbox := QueueAfter(queue, maxInbox, n).inbox; inbox == [] || !Folds(inbox[0])
  {
    hide Looked;
    var items := Looked(QueueAfter(queue, maxInbox, n - 1), maxInbox).inbox;
    assert LeadingFolds(items) < |items| ==> Unfolded(items)[0] == items[LeadingFolds(items)];
  }
}
