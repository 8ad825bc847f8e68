/**
 * Groups of transcript segments in the take selector
 * (implementation/take_selector_v2/backend/take_selector/grouping.py).
 * A segment belongs to at most one group; `segmentToGroup` mirrors the groups'
 * member sets, with `None` left behind for segments that were ungrouped.
 */
module TakeGrouping {
  import opened Wrappers
  import opened JsonValues

  type Metadata = map<string, Json>

  /** grouping.py `Group`. */
  datatype Group = Group(groupId: string, segmentIds: set<string>, metadata: Option<Metadata>)

  predicate Distinct(s: seq<string>)
  {
    forall i, j :: 0 <= i < j < |s| ==> s[i] != s[j]
  }

  /** `order` with `g` taken out, the rest kept in order. */
  function Without(order: seq<string>, g: string): (r: seq<string>)
    ensures forall x :: x in r <==> x in order && x != g
  {
    if order == [] then []
    else
      var init, last := order[..|order| - 1], order[|order| - 1];
      assert order == init + [last];
      Without(init, g) + (if last == g then [] else [last])
  }

  lemma {:induction false} WithoutDistinct(order: seq<string>, g: string)
    requires Distinct(order)
    ensures Distinct(Without(order, g))
  {
    if order != [] {
      var init, last := order[..|order| - 1], order[|order| - 1];
      assert Distinct(init);
      WithoutDistinct(init, g);
      var w := Without(init, g);
      assert last !in init;
      if last != g {
        assert last !in w;
        forall i, j | 0 <= i < j < |w| + 1 ensures (w + [last])[i] != (w + [last])[j] {
          if j == |w| {
            assert (w + [last])[i] == w[i];
          }
        }
      } else {
        assert w + [] == w;
      }
    }
  }

  /** The group `g` with `s` added to its members. */
  function WithMember(groups: map<string, Group>, g: string, s: string): (r: map<string, Group>)
    requires g in groups
    ensures r.Keys == groups.Keys
  {
    groups[g := groups[g].(segmentIds := groups[g].segmentIds + {s})]
  }

  /** The group `g` with `s` taken out of its members. */
  function WithoutMember(groups: map<string, Group>, g: string, s: string): (r: map<string, Group>)
    requires g in groups
    ensures r.Keys == groups.Keys
  {
    groups[g := groups[g].(segmentIds := groups[g].segmentIds - {s})]
  }

  /** Every segment of `members` mapped to `None`, the other entries kept. */
  function Ungrouped(mapping: map<string, Option<string>>, members: set<string>): (r: map<string, Option<string>>)
    ensures r.Keys == mapping.Keys + members
  {
    map s | s in mapping.Keys + members :: if s in members then None else mapping[s]
  }

  /**
   * The groups, their creation order and the segment-to-group mapping agree:
   * the mapping names a group exactly for the segments that group holds.
   */
  ghost predicate Consistent(groups: map<string, Group>, order: seq<string>, mapping: map<string, Option<string>>)
  {
    && Distinct(order)
    && (forall g :: g in order <==> g in groups)
    && (forall g :: g in groups ==> groups[g].groupId == g)
    && (forall s :: s in mapping && mapping[s].Some? ==> mapping[s].value in groups && s in groups[mapping[s].value].segmentIds)
    && (forall g, s :: g in groups && s in groups[g].segmentIds ==> s in mapping && mapping[s] == Some(g))
  }

  /** Deleting a group and ungrouping its members keeps the mapping consistent. */
  lemma DeleteConsistent(groups: map<string, Group>, order: seq<string>, mapping: map<string, Option<string>>, g: string)
    requires Consistent(groups, order, mapping) && g in groups
    ensures Consistent(groups - {g}, Without(order, g), Ungrouped(mapping, groups[g].segmentIds))
  {
    WithoutDistinct(order, g);
    DeleteKeepsOrder(groups, order, mapping, g);
    DeleteKeepsMapped(groups, order, mapping, g);
    DeleteKeepsMembers(groups, order, mapping, g);
  }

  /** After a delete, the order lists exactly the remaining groups, each under its own id. */
  lemma DeleteKeepsOrder(groups: map<string, Group>, order: seq<string>, mapping: map<string, Option<string>>, g: string)
    requires Consistent(groups, order, mapping) && g in groups
    ensures forall h :: h in Without(order, g) <==> h in groups - {g}
    ensures forall h :: h in groups - {g} ==> (groups - {g})[h].groupId == h
  {
  }

  /** After a delete, every segment still mapped names a remaining group that holds it. */
  lemma DeleteKeepsMapped(groups: map<string, Group>, order: seq<string>, mapping: map<string, Option<string>>, g: string)
    requires Consistent(groups, order, mapping) && g in groups
    ensures var groups', mapping' := groups - {g}, Ungrouped(mapping, groups[g].segmentIds);
      forall s :: s in mapping' && mapping'[s].Some? ==> mapping'[s].value in groups' && s in groups'[mapping'[s].value].segmentIds
  {
    var groups', mapping' := groups - {g}, Ungrouped(mapping, groups[g].segmentIds);
    var members := groups[g].segmentIds;
    forall s | s in mapping' && mapping'[s].Some?
      ensures mapping'[s].value in groups' && s in groups'[mapping'[s].value].segmentIds
    {
      assert s !in members && s in mapping && mapping'[s] == mapping[s];
      var h := mapping[s].value;
      assert h in groups && s in groups[h].segmentIds;
      assert h != g;
    }
  }

  /** After a delete, every member of a remaining group is still mapped to it. */
  lemma DeleteKeepsMembers(groups: map<string, Group>, order: seq<string>, mapping: map<string, Option<string>>, g: string)
    requires Consistent(groups, order, mapping) && g in groups
    ensures var groups', mapping' := groups - {g}, Ungrouped(mapping, groups[g].segmentIds);
      forall h, s :: h in groups' && s in groups'[h].segmentIds ==> s in mapping' && mapping'[s] == Some(h)
  {
    var groups', mapping' := groups - {g}, Ungrouped(mapping, groups[g].segmentIds);
    var members := groups[g].segmentIds;
    forall h, s | h in groups' && s in groups'[h].segmentIds
      ensures s in mapping' && mapping'[s] == Some(h)
    {
      assert h in groups && s in groups[h].segmentIds;
      assert mapping[s] == Some(h);
      assert s !in members;
    }
  }

  /** A segment the mapping sends to a group is a member of that group. */
  lemma MappedIsMember(groups: map<string, Group>, order: seq<string>, mapping: map<string, Option<string>>, s: string)
    requires Consistent(groups, order, mapping) && s in mapping && mapping[s].Some?
    ensures mapping[s].value in groups && s in groups[mapping[s].value].segmentIds
  {
  }

  /** Taking a member out of its group and unmapping it keeps the mapping consistent. */
  lemma LeaveConsistent(groups: map<string, Group>, order: seq<string>, mapping: map<string, Option<string>>, g: string, s: string)
    requires Consistent(groups, order, mapping) && g in groups && s in groups[g].segmentIds
    ensures Consistent(WithoutMember(groups, g, s), order, mapping[s := None])
  {
    var groups', mapping' := WithoutMember(groups, g, s), mapping[s := None];
    forall t | t in mapping' && mapping'[t].Some?
      ensures mapping'[t].value in groups' && t in groups'[mapping'[t].value].segmentIds
    {
      assert t != s && mapping'[t] == mapping[t];
      assert t in groups[mapping[t].value].segmentIds;
    }
    forall h, t | h in groups' && t in groups'[h].segmentIds
      ensures t in mapping' && mapping'[t] == Some(h)
    {
      assert t in groups[h].segmentIds;
      assert mapping[t] == Some(h) && mapping[s] == Some(g);
      assert t != s;
    }
  }

  /** Adding an ungrouped segment to a group and mapping it there keeps the mapping consistent. */
  lemma JoinConsistent(groups: map<string, Group>, order: seq<string>, mapping: map<string, Option<string>>, g: string, s: string)
    requires Consistent(groups, order, mapping) && g in groups
    requires s !in mapping || mapping[s] == None
    ensures Consistent(WithMember(groups, g, s), order, mapping[s := Some(g)])
  {
    var groups', mapping' := WithMember(groups, g, s), mapping[s := Some(g)];
    forall t | t in mapping' && mapping'[t].Some?
      ensures mapping'[t].value in groups' && t in groups'[mapping'[t].value].segmentIds
    {
      if t != s {
        assert t in groups[mapping[t].value].segmentIds;
      }
    }
    forall h, t | h in groups' && t in groups'[h].segmentIds
      ensures t in mapping' && mapping'[t] == Some(h)
    {
      if t != s {
        assert t in groups[h].segmentIds;
      } else if h != g {
        assert false;
      }
    }
  }

  lemma UngroupedStep(mapping: map<string, Option<string>>, done: set<string>, s: string)
    ensures Ungrouped(mapping, done + {s}) == Ungrouped(mapping, done)[s := None]
  {
  }

  class GroupManager {
    var groups: map<string, Group>
    /** The insertion order of `groups`, which a Python dict keeps. */
    var order: seq<string>
    var segmentToGroup: map<string, Option<string>>

    /** `s` is a member of group `g`. */
    predicate Member(g: string, s: string)
      reads this
    {
      g in groups && s in groups[g].segmentIds
    }

    /** `_segment_to_group.get(segment_id)`. */
    function CurrentGroup(s: string): Option<string>
      reads this
    {
      if s in segmentToGroup then segmentToGroup[s] else None
    }

    ghost predicate Valid()
      reads this
    {
      Consistent(groups, order, segmentToGroup)
    }

    constructor ()
      ensures Valid()
      ensures groups == map[] && order == [] && segmentToGroup == map[]
    {
      groups := map[];
      order := [];
      segmentToGroup := map[];
    }

    /** A segment is a member of at most one group. */
    lemma AtMostOneGroup(s: string, g1: string, g2: string)
      requires Valid()
      requires Member(g1, s) && Member(g2, s)
      ensures g1 == g2
    {
      assert CurrentGroup(s) == Some(g1);
    }

    /** create_group (grouping.py:40-59). */
    method CreateGroup(groupId: string, metadata: Option<Metadata>) returns (r: Result<Group, string>)
      requires Valid()
      modifies this
      ensures Valid()
      ensures groupId in old(groups) ==> r == Err("Group '" + groupId + "' already exists")
      ensures groupId !in old(groups) ==> r == Ok(Group(groupId, {}, metadata))
      ensures r.Ok? ==> groups == old(groups)[groupId := r.value] && order == old(order) + [groupId]
      ensures r.Err? ==> groups == old(groups) && order == old(order)
      ensures segmentToGroup == old(segmentToGroup)
    {
      if groupId in groups {
        return Err("Group '" + groupId + "' already exists");
      }
      var group := Group(groupId, {}, metadata);
      groups := groups[groupId := group];
      order := order + [groupId];
      return Ok(group);
    }

    /** delete_group (grouping.py:61-79): every member is left ungrouped. */
    method DeleteGroup(groupId: string) returns (deleted: bool)
      requires Valid()
      modifies this
      ensures Valid()
      ensures deleted == (groupId in old(groups))
      ensures deleted ==> groups == old(groups) - {groupId} && order == Without(old(order), groupId)
      ensures deleted ==> segmentToGroup == Ungrouped(old(segmentToGroup), old(groups)[groupId].segmentIds)
      ensures !deleted ==> groups == old(groups) && order == old(order) && segmentToGroup == old(segmentToGroup)
    {
      if groupId !in groups {
        return false;
      }
      UngroupMembers(groups[groupId].segmentIds);
      DeleteConsistent(groups, order, old(segmentToGroup), groupId);
      groups := groups - {groupId};
      order := Without(order, groupId);
      return true;
    }

    /** The loop of delete_group (grouping.py:75-76): every member mapped to `None`. */
    method UngroupMembers(members: set<string>)
      modifies this
      ensures segmentToGroup == Ungrouped(old(segmentToGroup), members)
      ensures groups == old(groups) && order == old(order)
    {
      var remaining := members;
      while remaining != {}
        invariant remaining <= members
        invariant segmentToGroup == Ungrouped(old(segmentToGroup), members - remaining)
        invariant groups == old(groups) && order == old(order)
        decreases |remaining|
      {
        var s :| s in remaining;
        ghost var done := members - remaining;
        UngroupedStep(old(segmentToGroup), done, s);
        segmentToGroup := segmentToGroup[s := None];
        remaining := remaining - {s};
        assert members - remaining == done + {s};
      }
      assert members - remaining == members;
    }

    /**
     * add_segment_to_group (grouping.py:81-110): the segment leaves its
     * previous group, if any, and joins `groupId`.
     */
    method AddSegmentToGroup(segmentId: string, groupId: string) returns (r: Result<bool, string>)
      requires Valid()
      modifies this
      ensures Valid()
      ensures groupId !in old(groups) ==> r == Ok(false)
      ensures groupId in old(groups) && old(CurrentGroup(segmentId)) == Some(groupId) ==>
        r == Err("Segment '" + segmentId + "' is already in group '" + groupId + "'")
      ensures groupId in old(groups) && old(CurrentGroup(segmentId)) != Some(groupId) ==> r == Ok(true)
      ensures r == Ok(true) ==>
        && segmentToGroup == old(segmentToGroup)[segmentId := Some(groupId)]
        && groups == WithMember(
             if old(CurrentGroup(segmentId)).Some? then WithoutMember(old(groups), old(CurrentGroup(segmentId)).value, segmentId)
             else old(groups), groupId, segmentId)
      ensures r != Ok(true) ==> groups == old(groups) && segmentToGroup == old(segmentToGroup)
      ensures order == old(order)
    {
      if groupId !in groups {
        return Ok(false);
      }
      var currentGroupId := CurrentGroup(segmentId);
      if currentGroupId == Some(groupId) {
        return Err("Segment '" + segmentId + "' is already in group '" + groupId + "'");
      }
      MoveInto(segmentId, groupId);
      return Ok(true);
    }

    /** The last part of add_segment_to_group (grouping.py:105-109): leave the current group, if any, and join `groupId`. */
    method MoveInto(segmentId: string, groupId: string)
      requires Valid() && groupId in groups && CurrentGroup(segmentId) != Some(groupId)
      modifies this
      ensures Valid()
      ensures segmentToGroup == old(segmentToGroup)[segmentId := Some(groupId)]
      ensures groups == WithMember(
                if old(CurrentGroup(segmentId)).Some? then WithoutMember(old(groups), old(CurrentGroup(segmentId)).value, segmentId)
                else old(groups), groupId, segmentId)
      ensures order == old(order)
    {
      var currentGroupId := CurrentGroup(segmentId);
      if currentGroupId.Some? {
        MappedIsMember(groups, order, segmentToGroup, segmentId);
        var _ := RemoveSegmentFromGroup(segmentId, currentGroupId.value);
      }
      JoinConsistent(groups, order, segmentToGroup, groupId, segmentId);
      groups := WithMember(groups, groupId, segmentId);
      segmentToGroup := segmentToGroup[segmentId := Some(groupId)];
    }

    /** remove_segment_from_group (grouping.py:112-131). */
    method RemoveSegmentFromGroup(segmentId: string, groupId: string) returns (removed: bool)
      requires Valid()
      modifies this
      ensures Valid()
      ensures removed == old(Member(groupId, segmentId))
      ensures removed ==>
        groups == WithoutMember(old(groups), groupId, segmentId) && segmentToGroup == old(segmentToGroup)[segmentId := None]
      ensures !removed ==> groups == old(groups) && segmentToGroup == old(segmentToGroup)
      ensures order == old(order)
    {
      if groupId !in groups {
        return false;
      }
      if segmentId !in groups[groupId].segmentIds {
        return false;
      }
      LeaveConsistent(groups, order, segmentToGroup, groupId, segmentId);
      groups := WithoutMember(groups, groupId, segmentId);
      segmentToGroup := segmentToGroup[segmentId := None];
      return true;
    }

    /** move_segment (grouping.py:133-156). */
    method MoveSegment(segmentId: string, fromGroupId: string, toGroupId: string) returns (moved: bool)
      requires Valid()
      modifies this
      ensures Valid()
      ensures moved == (fromGroupId in old(groups) && toGroupId in old(groups) && old(Member(fromGroupId, segmentId)))
      ensures moved && fromGroupId != toGroupId ==>
        && groups == WithMember(WithoutMember(old(groups), fromGroupId, segmentId), toGroupId, segmentId)
        && segmentToGroup == old(segmentToGroup)[segmentId := Some(toGroupId)]
      ensures !moved || fromGroupId == toGroupId ==> groups == old(groups) && segmentToGroup == old(segmentToGroup)
      ensures order == old(order)
    {
      if fromGroupId !in groups || toGroupId !in groups {
        return false;
      }
      if segmentId !in groups[fromGroupId].segmentIds {
        return false;
      }
      if fromGroupId == toGroupId {
        return true;
      }
      ghost var mapping0 := segmentToGroup;
      var _ := RemoveSegmentFromGroup(segmentId, fromGroupId);
      assert CurrentGroup(segmentId) == None;
      var _ := AddSegmentToGroup(segmentId, toGroupId);
      assert mapping0[segmentId := None][segmentId := Some(toGroupId)] == mapping0[segmentId := Some(toGroupId)];
      return true;
    }

    /** get_group (grouping.py:158-168). */
    function GetGroup(groupId: string): (r: Option<Group>)
      reads this
      ensures r.Some? <==> groupId in groups
      ensures r.Some? ==> r.value == groups[groupId]
    {
      if groupId in groups then Some(groups[groupId]) else None
    }

    /** get_group_for_segment (grouping.py:170-183): the one group holding the segment. */
    function GetGroupForSegment(segmentId: string): (r: Option<Group>)
      requires Valid()
      reads this
      ensures r.Some? <==> exists g :: Member(g, segmentId)
      ensures r.Some? ==>
        r.value.groupId in groups && r.value == groups[r.value.groupId] && segmentId in r.value.segmentIds
    {
      var groupId := CurrentGroup(segmentId);
      assert groupId.Some? ==> Member(groupId.value, segmentId);
      assert forall g :: Member(g, segmentId) ==> groupId == Some(g);
      if groupId.None? then None else GetGroup(groupId.value)
    }

    /** list_groups (grouping.py:185-192): every group once, in creation order. */
    function ListGroups(): (r: seq<Group>)
      requires Valid()
      reads this
      ensures |r| == |order| == |groups|
      ensures forall i :: 0 <= i < |r| ==> r[i] == groups[order[i]] && r[i].groupId == order[i]
    {
      DistinctCard(order, groups.Keys);
      GroupsOf(order)
    }

    function GroupsOf(ids: seq<string>): (r: seq<Group>)
      requires forall g :: g in ids ==> g in groups
      reads this
      ensures |r| == |ids| && forall i :: 0 <= i < |r| ==> r[i] == groups[ids[i]]
    {
      if ids == [] then [] else [groups[ids[0]]] + GroupsOf(ids[1..])
    }

    /** is_segment_grouped (grouping.py:194-204). */
    predicate IsSegmentGrouped(segmentId: string)
      reads this
    {
      segmentId in segmentToGroup && segmentToGroup[segmentId] != None
    }

    /** get_ungrouped_segments (grouping.py:206-216): the given ids that no group holds. */
    function GetUngroupedSegments(allSegmentIds: set<string>): (r: set<string>)
      requires Valid()
      reads this
      ensures forall s :: s in r <==> s in allSegmentIds && forall g :: !Member(g, s)
    {
      assert forall s :: IsSegmentGrouped(s) <==> exists g :: Member(g, s) by {
        forall s ensures IsSegmentGrouped(s) <==> exists g :: Member(g, s) {
          if IsSegmentGrouped(s) {
            assert Member(segmentToGroup[s].value, s);
          }
        }
      }
      set s | s in allSegmentIds && !IsSegmentGrouped(s)
    }
  }

  /** The ids of `order` are distinct, so the number of groups is its length. */
  lemma DistinctCard(order: seq<string>, keys: set<string>)
    requires Distinct(order) && (forall g :: g in order <==> g in keys)
    ensures |keys| == |order|
    decreases |order|
  {
    if order != [] {
      var last := order[|order| - 1];
      var init := order[..|order| - 1];
      assert forall g :: g in init <==> g in keys - {last} by {
        forall g ensures g in init <==> g in keys - {last} {
          if g in init {
            var k :| 0 <= k < |init| && init[k] == g;
            assert order[k] == g;
          }
          assert g in order ==> g in init || g == last;
        }
      }
      DistinctCard(init, keys - {last});
    }
  }
}
