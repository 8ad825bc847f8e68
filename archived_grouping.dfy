/**
 * The archived take-group manager (_archived/implementation/transcript_core/grouping.py):
 * an ordered list of groups whose take lists are edited in place.
 */
module ArchivedGrouping {
  import opened Wrappers
  import Seqs
  import opened TranscriptCore

  /** `del xs[i]`. */
  function RemoveAt<T>(xs: seq<T>, i: nat): (r: seq<T>)
    requires i < |xs|
    ensures |r| == |xs| - 1
    ensures forall j :: 0 <= j < i ==> r[j] == xs[j]
    ensures forall j :: i <= j < |r| ==> r[j] == xs[j + 1]
  {
    xs[..i] + xs[i + 1..]
  }

  /** The number of takes over all groups. */
  function TotalTakes(groups: seq<Group>): nat
  {
    if groups == [] then 0 else TotalTakes(groups[..|groups| - 1]) + |groups[|groups| - 1].takes|
  }

  lemma {:induction false} TotalTakesAppend(a: seq<Group>, b: seq<Group>)
    ensures TotalTakes(a + b) == TotalTakes(a) + TotalTakes(b)
    decreases |b|
  {
    if b != [] {
      var n := |b| - 1;
      TotalTakesAppend(a, b[..n]);
      assert (a + b)[..|a + b| - 1] == a + b[..n];
    } else {
      assert a + b == a;
    }
  }

  /** Splits a group list around position `i`. */
  lemma TotalTakesAround(groups: seq<Group>, i: nat)
    requires i < |groups|
    ensures TotalTakes(groups) == TotalTakes(groups[..i]) + |groups[i].takes| + TotalTakes(groups[i + 1..])
  {
    assert groups == groups[..i] + [groups[i]] + groups[i + 1..];
    TotalTakesAppend(groups[..i] + [groups[i]], groups[i + 1..]);
    TotalTakesAppend(groups[..i], [groups[i]]);
    assert ([] + [groups[i]]) == [groups[i]];
  }

  /** The takes `reorder_group_takes` collects, or none at the first id that does not resolve. */
  function ResolveTakes(takes: seq<Take>, ids: seq<string>): Option<seq<Take>>
  {
    Seqs.Resolve(takes, ids, TakeHasId)
  }

  /**
   * `reorder_group_takes` checks only that every id resolves and that the counts
   * agree, so a repeated id replaces a take by a copy of another one.
   */
  lemma ReorderAcceptsRepeatedIds(a: Take, b: Take)
    requires a.id == "a" && b.id == "b"
    ensures ResolveTakes([a, b], ["a", "a"]) == Some([a, a])
    ensures multiset([a, a]) != multiset([a, b])
  {
    var takes, ids := [a, b], ["a", "a"];
    assert TakeHasId("a")(takes[0]);
    Seqs.ResolveFacts(takes, ids, TakeHasId);
    var r := ResolveTakes(takes, ids).value;
    assert r[0] == a && r[1] == a;
    assert r == [a, a];
    assert multiset([a, a])[a] == 2;
  }

  /** The segments of the active takes, group by group. */
  function ActiveSegments(groups: seq<Group>): seq<Segment>
  {
    if groups == [] then []
    else
      var n := |groups| - 1;
      var a := ActiveTake(groups[n]);
      ActiveSegments(groups[..n]) + (if a.Some? then [a.value.segment] else [])
  }

  /** One segment for each group that has an active take. */
  lemma {:induction false} ActiveSegmentsCount(groups: seq<Group>)
    ensures |ActiveSegments(groups)| == GroupsWithActive(groups)
    decreases |groups|
  {
    if groups != [] {
      ActiveSegmentsCount(groups[..|groups| - 1]);
    }
  }

  class GroupManager {
    var groups: seq<Group>

    constructor()
      ensures groups == []
    {
      groups := [];
    }

    /** `create_group` (grouping.py:9-12): appends an empty group; ids are not checked for duplicates. */
    method CreateGroup(groupId: string) returns (g: Group)
      modifies this
      ensures g == Group(groupId, [])
      ensures groups == old(groups) + [g]
    {
      g := Group(groupId, []);
      groups := groups + [g];
    }

    /** `delete_group` (grouping.py:14-19): removes the first group with the id. */
    method DeleteGroup(groupId: string) returns (found: bool)
      modifies this
      ensures found == GroupIndex(old(groups), groupId).Some?
      ensures found ==> groups == RemoveAt(old(groups), GroupIndex(old(groups), groupId).value)
      ensures !found ==> groups == old(groups)
    {
      var i := FindGroupIndex(groups, groupId);
      if i.None? {
        return false;
      }
      groups := RemoveAt(groups, i.value);
      return true;
    }

    /** `get_group` (grouping.py:21-25). */
    method GetGroup(groupId: string) returns (r: Option<Group>)
      ensures r == Seqs.FirstMatch(groups, GroupHasId(groupId))
    {
      var i := FindGroupIndex(groups, groupId);
      r := if i.Some? then Some(groups[i.value]) else None;
    }

    /** `add_take_to_group` (grouping.py:30-35): appends to the first group with the id. */
    method AddTakeToGroup(groupId: string, take: Take) returns (ok: bool)
      modifies this
      ensures ok == GroupIndex(old(groups), groupId).Some?
      ensures ok ==>
        var i := GroupIndex(old(groups), groupId).value;
        groups == old(groups)[i := old(groups)[i].(takes := old(groups)[i].takes + [take])]
      ensures !ok ==> groups == old(groups)
    {
      var i := FindGroupIndex(groups, groupId);
      if i.None? {
        return false;
      }
      var g := groups[i.value];
      groups := groups[i.value := g.(takes := g.takes + [take])];
      return true;
    }

    /** `remove_take_from_group` (grouping.py:37-44): deletes the first take with the id. */
    method RemoveTakeFromGroup(groupId: string, takeId: string) returns (ok: bool)
      modifies this
      ensures ok == (GroupIndex(old(groups), groupId).Some? &&
                     TakeIndex(old(groups)[GroupIndex(old(groups), groupId).value].takes, takeId).Some?)
      ensures ok ==>
        var i := GroupIndex(old(groups), groupId).value;
        var g := old(groups)[i];
        groups == old(groups)[i := g.(takes := RemoveAt(g.takes, TakeIndex(g.takes, takeId).value))]
      ensures !ok ==> groups == old(groups)
    {
      var i := FindGroupIndex(groups, groupId);
      if i.None? {
        return false;
      }
      var g := groups[i.value];
      var k := FindTakeIndex(g.takes, takeId);
      if k.None? {
        return false;
      }
      groups := groups[i.value := g.(takes := RemoveAt(g.takes, k.value))];
      return true;
    }

    /**
     * `reorder_group_takes` (grouping.py:46-62): succeeds when every id resolves in
     * the group and there are as many ids as takes; the takes become the resolved list.
     */
    method ReorderGroupTakes(groupId: string, takeIds: seq<string>) returns (ok: bool)
      modifies this
      ensures ok == (GroupIndex(old(groups), groupId).Some? &&
                     ResolveTakes(old(groups)[GroupIndex(old(groups), groupId).value].takes, takeIds).Some? &&
                     |takeIds| == |old(groups)[GroupIndex(old(groups), groupId).value].takes|)
      ensures ok ==>
        var i := GroupIndex(old(groups), groupId).value;
        var g := old(groups)[i];
        groups == old(groups)[i := g.(takes := ResolveTakes(g.takes, takeIds).value)]
      ensures !ok ==> groups == old(groups)
    {
      var i := FindGroupIndex(groups, groupId);
      if i.None? {
        return false;
      }
      var g := groups[i.value];
      var newOrder: seq<Take> := [];
      var k := 0;
      while k < |takeIds|
        invariant 0 <= k <= |takeIds|
        invariant ResolveTakes(g.takes, takeIds[..k]) == Some(newOrder)
        invariant |newOrder| == k
        invariant groups == old(groups)
      {
        assert takeIds[..k + 1][..k] == takeIds[..k];
        var take := FindTake(g.takes, takeIds[k]);
        if take.None? {
          Seqs.ResolveFacts(g.takes, takeIds, TakeHasId);
          return false;
        }
        newOrder := newOrder + [take.value];
        k := k + 1;
      }
      assert takeIds[..k] == takeIds;
      if |newOrder| != |g.takes| {
        return false;
      }
      groups := groups[i.value := g.(takes := newOrder)];
      return true;
    }

    /** `set_active_take` (grouping.py:64-77). */
    method SetActiveTake(groupId: string, takeId: string) returns (found: bool)
      modifies this
      ensures found == (GroupIndex(old(groups), groupId).Some? &&
                        TakeIndex(old(groups)[GroupIndex(old(groups), groupId).value].takes, takeId).Some?)
      ensures GroupIndex(old(groups), groupId).Some? ==>
        var i := GroupIndex(old(groups), groupId).value;
        groups == old(groups)[i := old(groups)[i].(takes := Seqs.Map(old(groups)[i].takes, Activate(takeId)))]
      ensures GroupIndex(old(groups), groupId).None? ==> groups == old(groups)
    {
      var i := FindGroupIndex(groups, groupId);
      if i.None? {
        return false;
      }
      var g := groups[i.value];
      var updated;
      updated, found := ActivateAll(g.takes, takeId);
      groups := groups[i.value := g.(takes := updated)];
    }

    /** `get_active_take` (grouping.py:79-83). */
    method GetActiveTake(groupId: string) returns (r: Option<Take>)
      ensures GroupIndex(groups, groupId).Some? ==> r == ActiveTake(groups[GroupIndex(groups, groupId).value])
      ensures GroupIndex(groups, groupId).None? ==> r == None
    {
      var i := FindGroupIndex(groups, groupId);
      if i.None? {
        return None;
      }
      r := FindActiveTake(groups[i.value]);
    }

    /** `get_active_segments` (grouping.py:85-91). */
    method GetActiveSegments() returns (segments: seq<Segment>)
      ensures segments == ActiveSegments(groups)
    {
      segments := [];
      var k := 0;
      while k < |groups|
        invariant 0 <= k <= |groups|
        invariant segments == ActiveSegments(groups[..k])
      {
        assert groups[..k + 1][..k] == groups[..k];
        var a := FindActiveTake(groups[k]);
        if a.Some? {
          segments := segments + [a.value.segment];
        }
        k := k + 1;
      }
      assert groups[..k] == groups;
    }

    /** `clear_active_take` (grouping.py:93-99). */
    method ClearActiveTake(groupId: string) returns (ok: bool)
      modifies this
      ensures ok == GroupIndex(old(groups), groupId).Some?
      ensures ok ==>
        var i := GroupIndex(old(groups), groupId).value;
        groups == old(groups)[i := old(groups)[i].(takes := Seqs.Map(old(groups)[i].takes, Deactivate))]
      ensures !ok ==> groups == old(groups)
    {
      var i := FindGroupIndex(groups, groupId);
      if i.None? {
        return false;
      }
      var g := groups[i.value];
      var cleared := DeactivateAll(g.takes);
      groups := groups[i.value := g.(takes := cleared)];
      return true;
    }

    /**
     * `merge_groups` (grouping.py:101-109): the source's takes are appended to the
     * target's and the source group is deleted.
     */
    method MergeGroups(targetGroupId: string, sourceGroupId: string) returns (ok: bool)
      modifies this
      ensures ok == (GroupIndex(old(groups), targetGroupId).Some? &&
                     GroupIndex(old(groups), sourceGroupId).Some? && targetGroupId != sourceGroupId)
      ensures ok ==>
        var t := GroupIndex(old(groups), targetGroupId).value;
        var s := GroupIndex(old(groups), sourceGroupId).value;
        var merged := old(groups)[t].(takes := old(groups)[t].takes + old(groups)[s].takes);
        groups == RemoveAt(old(groups)[t := merged], s)
      ensures !ok ==> groups == old(groups)
    {
      var t := FindGroupIndex(groups, targetGroupId);
      var s := FindGroupIndex(groups, sourceGroupId);
      if t.None? || s.None? || groups[t.value].id == groups[s.value].id {
        return false;
      }
      var target := groups[t.value];
      var source := groups[s.value];
      GroupIndexKeepsIds(groups, t.value, target.takes + source.takes, sourceGroupId);
      groups := groups[t.value := target.(takes := target.takes + source.takes)];
      ok := DeleteGroup(sourceGroupId);
    }

    /**
     * `split_group` (grouping.py:111-124): for `0 < splitIndex < count` the group keeps
     * the takes before the index and a new group with the rest is appended.
     */
    method SplitGroup(groupId: string, newGroupId: string, splitIndex: int) returns (ok: bool)
      modifies this
      ensures ok == (GroupIndex(old(groups), groupId).Some? &&
                     0 < splitIndex < |old(groups)[GroupIndex(old(groups), groupId).value].takes|)
      ensures ok ==>
        var i := GroupIndex(old(groups), groupId).value;
        var g := old(groups)[i];
        groups == old(groups)[i := g.(takes := g.takes[..splitIndex])] + [Group(newGroupId, g.takes[splitIndex..])]
      ensures !ok ==> groups == old(groups)
    {
      var i := FindGroupIndex(groups, groupId);
      if i.None? || splitIndex < 0 || splitIndex >= |groups[i.value].takes| {
        return false;
      }
      if splitIndex == 0 {
        return false;
      }
      var g := groups[i.value];
      var newGroup := Group(newGroupId, g.takes[splitIndex..]);
      groups := groups[i.value := g.(takes := g.takes[..splitIndex])];
      groups := groups + [newGroup];
      return true;
    }

    /** `validate_group_integrity` (grouping.py:132-138): the group exists and has at most one active take. */
    method ValidateGroupIntegrity(groupId: string) returns (ok: bool)
      ensures ok == (GroupIndex(groups, groupId).Some? &&
                     ActiveCount(groups[GroupIndex(groups, groupId).value].takes) <= 1)
    {
      var i := FindGroupIndex(groups, groupId);
      if i.None? {
        return false;
      }
      ok := ActiveCount(groups[i.value].takes) <= 1;
    }
  }

  /** Merging moves takes between groups without losing or adding any. */
  lemma MergeKeepsTakes(groups: seq<Group>, t: nat, s: nat)
    requires t < |groups| && s < |groups| && t != s
    ensures TotalTakes(RemoveAt(groups[t := groups[t].(takes := groups[t].takes + groups[s].takes)], s))
            == TotalTakes(groups)
  {
    var merged := groups[t := groups[t].(takes := groups[t].takes + groups[s].takes)];
    TotalTakesAround(groups, t);
    TotalTakesAround(merged, t);
    assert merged[..t] == groups[..t];
    assert merged[t + 1..] == groups[t + 1..];
    TotalTakesAround(merged, s);
    var r := RemoveAt(merged, s);
    TotalTakesAppend(merged[..s], merged[s + 1..]);
    assert |merged[s].takes| == |groups[s].takes|;
  }

  /** Splitting a group keeps every take. */
  lemma SplitKeepsTakes(groups: seq<Group>, i: nat, k: nat, newGroupId: string)
    requires i < |groups| && k <= |groups[i].takes|
    ensures TotalTakes(groups[i := groups[i].(takes := groups[i].takes[..k])] + [Group(newGroupId, groups[i].takes[k..])])
            == TotalTakes(groups)
  {
    var takes := groups[i].takes;
    var cut := groups[i := groups[i].(takes := takes[..k])];
    var extra := Group(newGroupId, takes[k..]);
    TotalTakesReplace(groups, i, groups[i].(takes := takes[..k]));
    TotalTakesSnoc(cut, extra);
  }

  lemma TotalTakesReplace(groups: seq<Group>, i: nat, g: Group)
    requires i < |groups|
    ensures TotalTakes(groups[i := g]) + |groups[i].takes| == TotalTakes(groups) + |g.takes|
  {
    var cut := groups[i := g];
    TotalTakesAround(groups, i);
    TotalTakesAround(cut, i);
    assert cut[..i] == groups[..i];
    assert cut[i + 1..] == groups[i + 1..];
  }

  lemma TotalTakesSnoc(groups: seq<Group>, g: Group)
    ensures TotalTakes(groups + [g]) == TotalTakes(groups) + |g.takes|
  {
    assert (groups + [g])[..|groups|] == groups;
  }
}
