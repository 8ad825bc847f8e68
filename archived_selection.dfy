/**
 * The archived take-selection manager (_archived/implementation/transcript_core/selection.py):
 * chooses the active take of a group by id, by position, or by stepping forwards and
 * backwards with wrap-around.
 */
module ArchivedSelection {
  import opened Wrappers
  import Seqs
  import opened TranscriptCore

  /** The dict `get_selection_summary` returns. */
  datatype Summary = Summary(totalGroups: nat, groupsWithSelection: nat, totalSelectedTakes: nat)

  /** The active take of every group that has one, in group order. */
  function ActiveTakes(groups: seq<Group>): seq<Take>
  {
    if groups == [] then []
    else
      var n := |groups| - 1;
      var a := ActiveTake(groups[n]);
      ActiveTakes(groups[..n]) + (if a.Some? then [a.value] else [])
  }

  /** One selected take per group that has an active take, and each of them is active. */
  lemma {:induction false} ActiveTakesFacts(groups: seq<Group>)
    ensures |ActiveTakes(groups)| == GroupsWithActive(groups)
    ensures forall t :: t in ActiveTakes(groups) ==> t.isActive
    decreases |groups|
  {
    if groups != [] {
      var n := |groups| - 1;
      ActiveTakesFacts(groups[..n]);
      ActiveTakeIsFirstActive(groups[n]);
    }
  }

  /** `[take for take in group.takes if not take.is_active]`. */
  function Inactive(takes: seq<Take>): seq<Take>
  {
    if takes == [] then []
    else
      var n := |takes| - 1;
      Inactive(takes[..n]) + (if takes[n].isActive then [] else [takes[n]])
  }

  /** The inactive takes are the takes of the group that are not active: none is lost. */
  lemma InactiveFacts(takes: seq<Take>)
    ensures |Inactive(takes)| + ActiveCount(takes) == |takes|
    ensures forall t :: t in Inactive(takes) ==> t in takes && !t.isActive
    ensures forall i :: 0 <= i < |takes| && !takes[i].isActive ==> takes[i] in Inactive(takes)
  {
    InactiveCount(takes);
    InactiveSound(takes);
    InactiveComplete(takes);
  }

  lemma {:induction false} InactiveCount(takes: seq<Take>)
    ensures |Inactive(takes)| + ActiveCount(takes) == |takes|
    decreases |takes|
  {
    if takes != [] {
      InactiveCount(takes[..|takes| - 1]);
    }
  }

  lemma {:induction false} InactiveSound(takes: seq<Take>)
    ensures forall t :: t in Inactive(takes) ==> t in takes && !t.isActive
    decreases |takes|
  {
    if takes != [] {
      var n := |takes| - 1;
      InactiveSound(takes[..n]);
      forall t | t in takes[..n] ensures t in takes {
        var i :| 0 <= i < n && takes[..n][i] == t;
        assert takes[i] == t;
      }
    }
  }

  lemma {:induction false} InactiveComplete(takes: seq<Take>)
    ensures forall i :: 0 <= i < |takes| && !takes[i].isActive ==> takes[i] in Inactive(takes)
    decreases |takes|
  {
    if takes != [] {
      var n := |takes| - 1;
      InactiveComplete(takes[..n]);
      forall i | 0 <= i < n && !takes[i].isActive ensures takes[i] in Inactive(takes) {
        assert takes[..n][i] == takes[i];
      }
    }
  }

  /** The index `select_next_take` moves to. */
  function NextIndex(current: Option<nat>, count: nat): (r: nat)
    requires count > 0
    ensures r < count
  {
    if current.None? then 0 else (current.value + 1) % count
  }

  /** The index `select_previous_take` moves to; Python's `%` is never negative here. */
  function PreviousIndex(current: Option<nat>, count: nat): (r: nat)
    requires count > 0
    ensures r < count
  {
    if current.None? then count - 1 else (current.value - 1) % count
  }

  /** Stepping forwards then backwards (or the reverse) returns to the same take. */
  lemma StepsAreInverse(i: nat, count: nat)
    requires i < count
    ensures PreviousIndex(Some(NextIndex(Some(i), count)), count) == i
    ensures NextIndex(Some(PreviousIndex(Some(i), count)), count) == i
  {
    if i + 1 < count {
      ModSmall(i + 1, count);
      ModSmall(i, count);
    } else {
      ModSelf(count);
      ModMinusOne(count);
    }
    if i > 0 {
      ModSmall(i - 1, count);
      ModSmall(i, count);
    } else {
      ModMinusOne(count);
      ModSelf(count);
    }
  }

  lemma ModSmall(a: int, count: nat)
    requires 0 <= a < count
    ensures a % count == a
  {
  }

  lemma ModSelf(count: nat)
    requires count > 0
    ensures count % count == 0
  {
  }

  lemma ModMinusOne(count: nat)
    requires count > 0
    ensures (0 - 1) % count == count - 1
  {
  }

  /** With nothing active, next selects the first take and previous the last. */
  lemma StepsFromNothing(count: nat)
    requires count > 0
    ensures NextIndex(None, count) == 0 && PreviousIndex(None, count) == count - 1
  {
  }

  function ClearGroup(g: Group): Group { g.(takes := Seqs.Map(g.takes, Deactivate)) }

  /** After `clear_all_selections` no group has a selection. */
  lemma {:induction false} ClearAllLeavesNone(groups: seq<Group>)
    ensures GroupsWithActive(Seqs.Map(groups, ClearGroup)) == 0
    decreases |groups|
  {
    var m := Seqs.Map(groups, ClearGroup);
    forall i | 0 <= i < |m|
      ensures ActiveTake(m[i]).None?
    {
      Seqs.MapAt(groups, ClearGroup, i);
      ActiveCountDeactivate(groups[i].takes);
      ActiveCountZero(m[i].takes);
      ActiveTakeIsFirstActive(m[i]);
    }
    GroupsWithActiveBound(m);
  }

  class SelectionManager {
    var groups: seq<Group>

    constructor(groups: seq<Group>)
      ensures this.groups == groups
    {
      this.groups := groups;
    }

    /** `select_take` (selection.py:9-22): the same loop as `set_active_take`. */
    method SelectTake(takeId: string, groupId: string) returns (found: bool)
      modifies this
      ensures found == (GroupIndex(old(groups), groupId).Some? &&
                        TakeIndex(old(groups)[GroupIndex(old(groups), groupId).value].takes, takeId).Some?)
      ensures GroupIndex(old(groups), groupId).Some? ==>
        var i := GroupIndex(old(groups), groupId).value;
        groups == old(groups)[i := old(groups)[i].(takes := Seqs.Map(old(groups)[i].takes, Activate(takeId)))]
      ensures GroupIndex(old(groups), groupId).None? ==> groups == old(groups)
    {
      var i := FindGroupIndex(groups, groupId);
      if i.None? {
        return false;
      }
      var g := groups[i.value];
      var updated;
      updated, found := ActivateAll(g.takes, takeId);
      groups := groups[i.value := g.(takes := updated)];
    }

    /** `get_selected_take` (selection.py:24-28). */
    method GetSelectedTake(groupId: string) returns (r: Option<Take>)
      ensures GroupIndex(groups, groupId).Some? ==> r == ActiveTake(groups[GroupIndex(groups, groupId).value])
      ensures GroupIndex(groups, groupId).None? ==> r == None
    {
      var i := FindGroupIndex(groups, groupId);
      if i.None? {
        return None;
      }
      r := FindActiveTake(groups[i.value]);
    }

    /** `get_all_selected_takes` (selection.py:30-35). */
    method GetAllSelectedTakes() returns (selected: seq<Take>)
      ensures selected == ActiveTakes(groups)
    {
      selected := [];
      var k := 0;
      while k < |groups|
        invariant 0 <= k <= |groups|
        invariant selected == ActiveTakes(groups[..k])
      {
        assert groups[..k + 1][..k] == groups[..k];
        var a := FindActiveTake(groups[k]);
        if a.Some? {
          selected := selected + [a.value];
        }
        k := k + 1;
      }
      assert groups[..k] == groups;
    }

    /** `clear_selection` (selection.py:37-43): false only for a missing group. */
    method ClearSelection(groupId: string) returns (ok: bool)
      modifies this
      ensures ok == GroupIndex(old(groups), groupId).Some?
      ensures ok ==>
        var i := GroupIndex(old(groups), groupId).value;
        groups == old(groups)[i := ClearGroup(old(groups)[i])]
      ensures !ok ==> groups == old(groups)
    {
      var i := FindGroupIndex(groups, groupId);
      if i.None? {
        return false;
      }
      var g := groups[i.value];
      var cleared := DeactivateAll(g.takes);
      groups := groups[i.value := g.(takes := cleared)];
      return true;
    }

    /** `clear_all_selections` (selection.py:45-48). */
    method ClearAllSelections()
      modifies this
      ensures groups == Seqs.Map(old(groups), ClearGroup)
    {
      var k := 0;
      ghost var before := groups;
      while k < |groups|
        invariant 0 <= k <= |groups| == |before|
        invariant groups[..k] == Seqs.Map(before[..k], ClearGroup)
        invariant groups[k..] == before[k..]
      {
        Seqs.MapSnoc(before, ClearGroup, k);
        var g := groups[k];
        assert g == before[k];
        var cleared := DeactivateAll(g.takes);
        ghost var prev := groups;
        groups := groups[k := g.(takes := cleared)];
        assert groups[..k] == prev[..k];
        assert groups[k + 1..] == prev[k..][1..] == before[k..][1..];
        assert groups[..k + 1] == groups[..k] + [groups[k]];
        k := k + 1;
      }
      assert groups == groups[..k];
      assert before == before[..k];
    }

    /** `has_selection` (selection.py:50-54). */
    method HasSelection(groupId: string) returns (r: bool)
      ensures r == (GroupIndex(groups, groupId).Some? && ActiveTake(groups[GroupIndex(groups, groupId).value]).Some?)
    {
      var i := FindGroupIndex(groups, groupId);
      if i.None? {
        return false;
      }
      var a := FindActiveTake(groups[i.value]);
      r := a.Some?;
    }

    /** `get_selection_summary` (selection.py:56-68): both counters count the groups with an active take. */
    method GetSelectionSummary() returns (summary: Summary)
      ensures summary == Summary(|groups|, GroupsWithActive(groups), GroupsWithActive(groups))
    {
      summary := Summary(|groups|, 0, 0);
      var k := 0;
      while k < |groups|
        invariant 0 <= k <= |groups|
        invariant summary == Summary(|groups|, GroupsWithActive(groups[..k]), GroupsWithActive(groups[..k]))
      {
        assert groups[..k + 1][..k] == groups[..k];
        var a := FindActiveTake(groups[k]);
        if a.Some? {
          summary := summary.(groupsWithSelection := summary.groupsWithSelection + 1,
                              totalSelectedTakes := summary.totalSelectedTakes + 1);
        }
        k := k + 1;
      }
      assert groups[..k] == groups;
    }

    /** `select_take_by_index` (selection.py:70-78): take `index` becomes the only active one. */
    method SelectTakeByIndex(groupId: string, index: int) returns (ok: bool)
      modifies this
      ensures ok == (GroupIndex(old(groups), groupId).Some? &&
                     0 <= index < |old(groups)[GroupIndex(old(groups), groupId).value].takes|)
      ensures ok ==>
        var i := GroupIndex(old(groups), groupId).value;
        groups == old(groups)[i := old(groups)[i].(takes := Seqs.MapIndexed(old(groups)[i].takes, ActivateIndex(index)))]
      ensures !ok ==> groups == old(groups)
    {
      var i := FindGroupIndex(groups, groupId);
      if i.None? || index < 0 || index >= |groups[i.value].takes| {
        return false;
      }
      var g := groups[i.value];
      var updated := ActivateIndexAll(g.takes, index);
      groups := groups[i.value := g.(takes := updated)];
      return true;
    }

    /** The loop of `_find_active_take_index` (selection.py:110-114). */
    static method FindActiveTakeIndex(g: Group) returns (r: Option<nat>)
      ensures r == ActiveIndex(g)
    {
      var i := 0;
      while i < |g.takes|
        invariant 0 <= i <= |g.takes|
        invariant forall j :: 0 <= j < i ==> !g.takes[j].isActive
      {
        if g.takes[i].isActive {
          return Some(i);
        }
        i := i + 1;
      }
      return None;
    }

    /** `select_next_take` (selection.py:80-90): the first take when none is active, else the next one with wrap-around. */
    method SelectNextTake(groupId: string) returns (ok: bool)
      modifies this
      ensures ok == (GroupIndex(old(groups), groupId).Some? &&
                     |old(groups)[GroupIndex(old(groups), groupId).value].takes| > 0)
      ensures ok ==>
        var i := GroupIndex(old(groups), groupId).value;
        var g := old(groups)[i];
        var next := NextIndex(ActiveIndex(g), |g.takes|);
        groups == old(groups)[i := g.(takes := Seqs.MapIndexed(g.takes, ActivateIndex(next)))]
      ensures !ok ==> groups == old(groups)
    {
      var i := FindGroupIndex(groups, groupId);
      if i.None? || |groups[i.value].takes| == 0 {
        return false;
      }
      var current := FindActiveTakeIndex(groups[i.value]);
      if current.None? {
        ok := SelectTakeByIndex(groupId, 0);
        return;
      }
      var nextIndex := (current.value + 1) % |groups[i.value].takes|;
      ok := SelectTakeByIndex(groupId, nextIndex);
    }

    /** `select_previous_take` (selection.py:92-102): the last take when none is active, else the previous one with wrap-around. */
    method SelectPreviousTake(groupId: string) returns (ok: bool)
      modifies this
      ensures ok == (GroupIndex(old(groups), groupId).Some? &&
                     |old(groups)[GroupIndex(old(groups), groupId).value].takes| > 0)
      ensures ok ==>
        var i := GroupIndex(old(groups), groupId).value;
        var g := old(groups)[i];
        var prev := PreviousIndex(ActiveIndex(g), |g.takes|);
        groups == old(groups)[i := g.(takes := Seqs.MapIndexed(g.takes, ActivateIndex(prev)))]
      ensures !ok ==> groups == old(groups)
    {
      var i := FindGroupIndex(groups, groupId);
      if i.None? || |groups[i.value].takes| == 0 {
        return false;
      }
      var current := FindActiveTakeIndex(groups[i.value]);
      if current.None? {
        ok := SelectTakeByIndex(groupId, |groups[i.value].takes| - 1);
        return;
      }
      var prevIndex := (current.value - 1) % |groups[i.value].takes|;
      ok := SelectTakeByIndex(groupId, prevIndex);
    }

    /** `validate_selection_state` (selection.py:116-121): no group has two active takes. */
    method ValidateSelectionState() returns (ok: bool)
      ensures ok == forall i :: 0 <= i < |groups| ==> ActiveCount(groups[i].takes) <= 1
    {
      var k := 0;
      while k < |groups|
        invariant 0 <= k <= |groups|
        invariant forall i :: 0 <= i < k ==> ActiveCount(groups[i].takes) <= 1
      {
        if ActiveCount(groups[k].takes) > 1 {
          return false;
        }
        k := k + 1;
      }
      return true;
    }

    /** `get_unselected_takes` (selection.py:123-127): the inactive takes in order, none for a missing group. */
    method GetUnselectedTakes(groupId: string) returns (r: seq<Take>)
      ensures GroupIndex(groups, groupId).Some? ==> r == Inactive(groups[GroupIndex(groups, groupId).value].takes)
      ensures GroupIndex(groups, groupId).None? ==> r == []
    {
      var i := FindGroupIndex(groups, groupId);
      if i.None? {
        return [];
      }
      r := Inactive(groups[i.value].takes);
    }
  }
}
