/** `bound_view`: the part of a conversation that a hand-off summary is asked about. */
module HandoffView {
  import opened Wrappers

  /** A message as far as bounding looks at it: who speaks, and how long it serializes. */
  datatype Entry = Entry(fromUser: bool, width: nat)

  /** The length of the serialized view. */
  function Width(view: seq<Entry>): nat {
    if view == [] then 0 else view[0].width + Width(view[1..])
  }

  lemma {:induction false} LaterIsNarrower(view: seq<Entry>, from: nat)
    requires from <= |view|
    ensures Width(view[from..]) <= Width(view)
  {
    if from > 0 {
      LaterIsNarrower(view[1..], from - 1);
      assert view[from..] == view[1..][from - 1..];
    } else {
      assert view[from..] == view;
    }
  }

  ghost predicate AreTurnStarts(view: seq<Entry>, starts: seq<nat>, upTo: nat)
    requires upTo <= |view|
  {
    && (forall k :: 0 <= k < |starts| ==> starts[k] < upTo && view[starts[k]].fromUser)
    && (forall j, k :: 0 <= j < k < |starts| ==> starts[j] < starts[k])
    && (forall i :: 0 <= i < upTo && view[i].fromUser ==> i in starts)
  }

  method TurnStarts(view: seq<Entry>) returns (starts: seq<nat>)
    ensures AreTurnStarts(view, starts, |view|)
  {
    starts := [];
    for index := 0 to |view|
      invariant AreTurnStarts(view, starts, index)
    {
      if view[index].fromUser {
        starts := starts + [index];
      }
    }
  }

  /** The view from turn `k` on. */
  function Cut(view: seq<Entry>, starts: seq<nat>, k: int): seq<Entry>
    requires 0 <= k < |starts| && starts[k] <= |view|
  {
    view[starts[k]..]
  }

  /** A cut may fall at the start of any turn but the first, and leaves `keep` turns. */
  ghost predicate MayCutAt(starts: seq<nat>, keep: nat, k: int) {
    1 <= k < |starts| && k + keep <= |starts|
  }

  ghost predicate NoCutFits(view: seq<Entry>, starts: seq<nat>, budget: nat, keep: nat)
    requires AreTurnStarts(view, starts, |view|)
  {
    forall k :: MayCutAt(starts, keep, k) ==> Width(Cut(view, starts, k)) > budget
  }

  /** Asked to keep no turns, the search runs past the last turn. */
  ghost predicate Overruns(view: seq<Entry>, starts: seq<nat>, budget: nat, keep: nat)
    requires AreTurnStarts(view, starts, |view|)
  {
    keep == 0 && starts != [] && Width(view) > budget && NoCutFits(view, starts, budget, keep)
  }

  /** The cut at turn `k` fits, and no wider one does. */
  ghost predicate IsWidestFit(view: seq<Entry>, starts: seq<nat>, budget: nat, keep: nat, k: int)
    requires AreTurnStarts(view, starts, |view|)
  {
    && MayCutAt(starts, keep, k) && Width(Cut(view, starts, k)) <= budget
    && forall j :: MayCutAt(starts, keep, j) && j < k ==> Width(Cut(view, starts, j)) > budget
  }

  /** None is the read behind the end of `starts`; it happens exactly when `Overruns`. */
  method BoundView(view: seq<Entry>, budget: nat, keepRecent: nat)
    returns (bounded: Option<seq<Entry>>, starts: seq<nat>)
    ensures AreTurnStarts(view, starts, |view|)
    ensures bounded.None? <==> Overruns(view, starts, budget, keepRecent)
    ensures Width(view) <= budget ==> bounded == Some(view)
    ensures bounded.Some? && Width(view) > budget ==>
              var keep := if keepRecent < |starts| then keepRecent else |starts|;
              || (exists k :: IsWidestFit(view, starts, budget, keep, k) && bounded.value == Cut(view, starts, k))
              || (NoCutFits(view, starts, budget, keep)
                  && bounded.value == if keep == 0 then [] else Cut(view, starts, |starts| - keep))
  {
    hide Width, Cut;
    starts := TurnStarts(view);
    if Width(view) <= budget {
      return Some(view), starts;
    }
    var keep := if keepRecent < |starts| then keepRecent else |starts|;
    var drop := 1;
    while drop + keep <= |starts|
      invariant drop == 1 || (1 <= drop && drop + keep <= |starts| + 1 && (keep == 0 ==> drop <= |starts|))
      invariant forall k :: MayCutAt(starts, keep, k) && k < drop ==> Width(Cut(view, starts, k)) > budget
    {
      if drop == |starts| {
        return None, starts;
      }
      var candidate := Cut(view, starts, drop);
      if Width(candidate) <= budget {
        assert IsWidestFit(view, starts, budget, keep, drop);
        return Some(candidate), starts;
      }
      drop := drop + 1;
    }
    assert NoCutFits(view, starts, budget, keep);
    bounded := Some(if keep == 0 then [] else Cut(view, starts, |starts| - keep));
  }

  /** With at least one turn to keep, what is sent is a whole number of the latest turns, and
      the widest such that fits if any does. */
  lemma WidestFitBeatsEveryFit(view: seq<Entry>, starts: seq<nat>, budget: nat, keep: nat, widest: int, k: int)
    requires AreTurnStarts(view, starts, |view|) && IsWidestFit(view, starts, budget, keep, widest)
    requires MayCutAt(starts, keep, k) && Width(Cut(view, starts, k)) <= budget
    ensures starts[widest] <= starts[k] && Width(Cut(view, starts, k)) <= Width(Cut(view, starts, widest))
  {
    var bounded := Cut(view, starts, widest);
    assert widest <= k;
    assert starts[widest] <= starts[k];
    LaterIsNarrower(bounded, starts[k] - starts[widest]);
    assert bounded[starts[k] - starts[widest]..] == Cut(view, starts, k);
  }
}
