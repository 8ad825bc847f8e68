/**
 * The take selector's single entry point
 * (implementation/take_selector_v2/backend/take_selector/workflow.py): loaded
 * segments plus a group manager and a selection manager it delegates to.
 */
module TakeWorkflow {
  import opened Wrappers
  import opened JsonValues
  import opened Similarity
  import opened TakeGrouping
  import opened TakeSelection
  import Seqs
  import opened Sorting

  /** One entry of `WorkflowState.segments`. */
  datatype SegmentEntry = SegmentEntry(segmentId: string, startTime: real, endTime: real, text: string, duration: real)

  /** One entry of `WorkflowState.groups`; `metadata` is `None` when the key is absent. */
  datatype GroupEntry = GroupEntry(groupId: string, segmentIds: set<string>, selectedSegment: Option<string>, metadata: Option<Metadata>)

  /** workflow.py `WorkflowState`. */
  datatype WorkflowState = WorkflowState(segments: seq<SegmentEntry>, groups: seq<GroupEntry>, selections: map<string, string>)

  /** Python's truth value of the group's metadata (`if group.metadata:`). */
  predicate MetadataTruthy(m: Option<Metadata>)
  {
    m.Some? && m.value != map[]
  }

  /** The first segment with the given id. */
  function FirstWithId(segs: seq<Segment>, segmentId: string): (r: Option<Segment>)
    ensures r.None? <==> forall i :: 0 <= i < |segs| ==> segs[i].segmentId != segmentId
    ensures r.Some? ==>
      exists i :: 0 <= i < |segs| && segs[i] == r.value && r.value.segmentId == segmentId && forall j :: 0 <= j < i ==> segs[j].segmentId != segmentId
  {
    if segs == [] then None
    else if segs[0].segmentId == segmentId then
      assert segs[0] == segs[0];
      Some(segs[0])
    else
      var r := FirstWithId(segs[1..], segmentId);
      assert forall i :: 1 <= i < |segs| ==> segs[i] == segs[1..][i - 1];
      r
  }

  function SegmentEntryOf(s: Segment): SegmentEntry
  {
    SegmentEntry(s.segmentId, s.startTime, s.endTime, s.text, Duration(s))
  }

  class TakeSelectorWorkflow {
    var segments: seq<Segment>
    const groupManager: GroupManager
    const selectionManager: SelectionManager

    ghost predicate Valid()
      reads this, groupManager, selectionManager
    {
      groupManager.Valid() && selectionManager.groupManager == groupManager
    }

    constructor ()
      ensures Valid() && fresh(groupManager) && fresh(selectionManager)
      ensures segments == [] && groupManager.groups == map[] && selectionManager.selections == map[]
    {
      segments := [];
      var gm := new GroupManager();
      groupManager := gm;
      selectionManager := new SelectionManager(gm);
    }

    /** The assignment of load_transcript (workflow.py:57-58), given the parsed segments. */
    method LoadSegments(loaded: seq<Segment>)
      requires Valid()
      modifies this
      ensures Valid() && segments == loaded
    {
      segments := loaded;
    }

    /** get_segment_by_id (workflow.py:69-82). */
    method GetSegmentById(segmentId: string) returns (r: Option<Segment>)
      ensures r == FirstWithId(segments, segmentId)
    {
      var i := 0;
      while i < |segments|
        invariant 0 <= i <= |segments|
        invariant FirstWithId(segments, segmentId) == FirstWithId(segments[i..], segmentId)
      {
        if segments[i].segmentId == segmentId {
          return Some(segments[i]);
        }
        assert segments[i..][1..] == segments[i + 1..];
        i := i + 1;
      }
      return None;
    }

    /** get_similarity_candidates (workflow.py:84-94). */
    method GetSimilarityCandidates(threshold: real) returns (r: Result<seq<Candidate>, SimilarityError>)
      ensures !(0.0 <= threshold <= 1.0) <==> r.Err?
      ensures r.Ok? ==> r.value == SortBy(Rows(segments, |segments|, threshold, ComputeSegmentSimilarity), NegScore)
    {
      r := FindCandidateDuplicates(segments, threshold);
    }

    /** compute_similarity (workflow.py:96-118): the first id is looked up and reported first. */
    method ComputeSimilarity(segmentIdA: string, segmentIdB: string) returns (r: Result<real, string>)
      ensures FirstWithId(segments, segmentIdA).None? ==> r == Err("Segment '" + segmentIdA + "' not found")
      ensures FirstWithId(segments, segmentIdA).Some? && FirstWithId(segments, segmentIdB).None? ==>
        r == Err("Segment '" + segmentIdB + "' not found")
      ensures r.Ok? ==>
        FirstWithId(segments, segmentIdA).Some? && FirstWithId(segments, segmentIdB).Some? && r.value == ComputeSegmentSimilarity(FirstWithId(segments, segmentIdA).value, FirstWithId(segments, segmentIdB).value)
      ensures FirstWithId(segments, segmentIdA).Some? && FirstWithId(segments, segmentIdB).Some? ==> r.Ok?
    {
      var segmentA := GetSegmentById(segmentIdA);
      var segmentB := GetSegmentById(segmentIdB);
      if segmentA.None? {
        return Err("Segment '" + segmentIdA + "' not found");
      }
      if segmentB.None? {
        return Err("Segment '" + segmentIdB + "' not found");
      }
      return Ok(ComputeSegmentSimilarity(segmentA.value, segmentB.value));
    }

    /** create_group (workflow.py:120-131); selections are not touched. */
    method CreateGroup(groupId: string, metadata: Option<Metadata>) returns (r: Result<Group, string>)
      requires Valid()
      modifies groupManager
      ensures Valid()
      ensures groupId in old(groupManager.groups) <==> r.Err?
      ensures r.Ok? ==> r.value == Group(groupId, {}, metadata) && groupManager.groups == old(groupManager.groups)[groupId := r.value]
      ensures r.Err? ==> groupManager.groups == old(groupManager.groups)
      ensures selectionManager.selections == old(selectionManager.selections)
    {
      r := groupManager.CreateGroup(groupId, metadata);
    }

    /** delete_group (workflow.py:133-143): a selection made in the group stays behind. */
    method DeleteGroup(groupId: string) returns (deleted: bool)
      requires Valid()
      modifies groupManager
      ensures Valid()
      ensures deleted == (groupId in old(groupManager.groups))
      ensures deleted ==> groupManager.groups == old(groupManager.groups) - {groupId}
      ensures deleted ==> forall s :: s in old(groupManager.groups)[groupId].segmentIds ==> !groupManager.IsSegmentGrouped(s)
      ensures selectionManager.selections == old(selectionManager.selections)
    {
      deleted := groupManager.DeleteGroup(groupId);
    }

    /**
     * add_segment_to_group (workflow.py:145-156): the manager's outcome, with the segment
     * leaving its previous group and ending up in the target and nowhere else.
     */
    method AddSegmentToGroup(segmentId: string, groupId: string) returns (r: Result<bool, string>)
      requires Valid()
      modifies groupManager
      ensures Valid()
      ensures groupId !in old(groupManager.groups) ==> r == Ok(false)
      ensures groupId in old(groupManager.groups) ==> (r.Err? <==> old(groupManager.Member(groupId, segmentId)))
      ensures r.Err? ==> r == Err("Segment '" + segmentId + "' is already in group '" + groupId + "'")
      ensures r == Ok(true) ==>
        && groupManager.segmentToGroup == old(groupManager.segmentToGroup)[segmentId := Some(groupId)]
        && groupManager.groups == WithMember(
             if old(groupManager.CurrentGroup(segmentId)).Some?
             then WithoutMember(old(groupManager.groups), old(groupManager.CurrentGroup(segmentId)).value, segmentId)
             else old(groupManager.groups), groupId, segmentId)
      ensures r == Ok(true) ==> forall g :: groupManager.Member(g, segmentId) <==> g == groupId
      ensures r != Ok(true) ==>
        groupManager.groups == old(groupManager.groups) && groupManager.segmentToGroup == old(groupManager.segmentToGroup)
      ensures groupManager.order == old(groupManager.order)
      ensures selectionManager.selections == old(selectionManager.selections)
    {
      r := groupManager.AddSegmentToGroup(segmentId, groupId);
      assert old(groupManager.Member(groupId, segmentId)) ==> old(groupManager.CurrentGroup(segmentId)) == Some(groupId);
      if r == Ok(true) {
        OnlyGroup(segmentId, groupId);
      }
    }

    /** A member of `groupId` is a member of no other group. */
    lemma OnlyGroup(segmentId: string, groupId: string)
      requires Valid() && groupManager.Member(groupId, segmentId)
      ensures forall g :: groupManager.Member(g, segmentId) <==> g == groupId
    {
      forall g | groupManager.Member(g, segmentId) ensures g == groupId {
        groupManager.AtMostOneGroup(segmentId, g, groupId);
      }
    }

    /** A member of some group is mapped to it. */
    lemma MemberIsMapped(segmentId: string)
      requires Valid()
      ensures forall g :: groupManager.Member(g, segmentId) ==> groupManager.CurrentGroup(segmentId) == Some(g)
    {
    }

    /**
     * remove_segment_from_group (workflow.py:158-169): a removed segment belongs to no
     * group afterwards and maps to none; otherwise nothing changes.
     */
    method RemoveSegmentFromGroup(segmentId: string, groupId: string) returns (removed: bool)
      requires Valid()
      modifies groupManager
      ensures Valid()
      ensures removed == old(groupManager.Member(groupId, segmentId))
      ensures removed ==>
        && groupManager.groups == WithoutMember(old(groupManager.groups), groupId, segmentId)
        && groupManager.segmentToGroup == old(groupManager.segmentToGroup)[segmentId := None]
      ensures removed ==> forall g :: !groupManager.Member(g, segmentId)
      ensures !removed ==>
        groupManager.groups == old(groupManager.groups) && groupManager.segmentToGroup == old(groupManager.segmentToGroup)
      ensures !groupManager.Member(groupId, segmentId)
      ensures groupManager.order == old(groupManager.order)
      ensures selectionManager.selections == old(selectionManager.selections)
    {
      removed := groupManager.RemoveSegmentFromGroup(segmentId, groupId);
      MemberIsMapped(segmentId);
    }

    /**
     * move_segment (workflow.py:171-183): a moved segment leaves the source group and
     * belongs to the target alone; every other group and the order stay as they were.
     */
    method MoveSegment(segmentId: string, fromGroupId: string, toGroupId: string) returns (moved: bool)
      requires Valid()
      modifies groupManager
      ensures Valid()
      ensures moved == (fromGroupId in old(groupManager.groups) && toGroupId in old(groupManager.groups)
        && old(groupManager.Member(fromGroupId, segmentId)))
      ensures moved && fromGroupId != toGroupId ==>
        && groupManager.groups == WithMember(WithoutMember(old(groupManager.groups), fromGroupId, segmentId), toGroupId, segmentId)
        && groupManager.segmentToGroup == old(groupManager.segmentToGroup)[segmentId := Some(toGroupId)]
      ensures !moved || fromGroupId == toGroupId ==>
        groupManager.groups == old(groupManager.groups) && groupManager.segmentToGroup == old(groupManager.segmentToGroup)
      ensures moved ==> forall g :: groupManager.Member(g, segmentId) <==> g == toGroupId
      ensures groupManager.order == old(groupManager.order)
      ensures selectionManager.selections == old(selectionManager.selections)
    {
      moved := groupManager.MoveSegment(segmentId, fromGroupId, toGroupId);
      if moved {
        OnlyGroup(segmentId, toGroupId);
      }
    }

    /** select_segment_for_group (workflow.py:185-196); the groups are not touched. */
    method SelectSegmentForGroup(groupId: string, segmentId: string) returns (r: Result<bool, string>)
      requires Valid()
      modifies selectionManager
      ensures Valid()
      ensures groupId !in groupManager.groups ==> r == Ok(false)
      ensures groupId in groupManager.groups ==> (r.Ok? <==> groupManager.Member(groupId, segmentId))
      ensures groupId in groupManager.groups && !groupManager.Member(groupId, segmentId) ==>
        r == Err("Segment '" + segmentId + "' is not a member of group '" + groupId + "'")
      ensures r == Ok(true) ==> selectionManager.selections == old(selectionManager.selections)[groupId := Some(segmentId)]
      ensures r == Ok(true) ==> selectionManager.GetSelectedSegment(groupId) == Some(segmentId)
      ensures r != Ok(true) ==> selectionManager.selections == old(selectionManager.selections)
      ensures groupManager.groups == old(groupManager.groups)
    {
      r := selectionManager.SelectSegment(groupId, segmentId);
    }

    /** clear_selection_for_group (workflow.py:198-208). */
    method ClearSelectionForGroup(groupId: string) returns (cleared: bool)
      requires Valid()
      modifies selectionManager
      ensures Valid()
      ensures cleared == old(selectionManager.HasSelection(groupId))
      ensures cleared ==> selectionManager.selections == old(selectionManager.selections)[groupId := None]
      ensures !cleared ==> selectionManager.selections == old(selectionManager.selections)
      ensures !selectionManager.HasSelection(groupId)
      ensures forall g :: g != groupId ==> selectionManager.GetSelectedSegment(g) == old(selectionManager.GetSelectedSegment(g))
      ensures groupManager.groups == old(groupManager.groups)
    {
      cleared := selectionManager.ClearSelection(groupId);
    }

    /** get_ungrouped_segments (workflow.py:267-276): the loaded ids no group holds, each once. */
    method GetUngroupedSegments() returns (ids: seq<string>)
      requires Valid()
      ensures Distinct(ids)
      ensures forall s :: s in ids <==>
        (exists i :: 0 <= i < |segments| && segments[i].segmentId == s) && forall g :: !groupManager.Member(g, s)
    {
      var allSegmentIds := set i | 0 <= i < |segments| :: segments[i].segmentId;
      var ungrouped := groupManager.GetUngroupedSegments(allSegmentIds);
      ids := [];
      var rest := ungrouped;
      while rest != {}
        invariant rest <= ungrouped
        invariant Distinct(ids)
        invariant forall s :: s in ids <==> s in ungrouped - rest
        decreases |rest|
      {
        var s :| s in rest;
        assert s !in ids;
        ids := ids + [s];
        rest := rest - {s};
      }
    }

    /** get_current_state (workflow.py:278-316). */
    method GetCurrentState() returns (state: WorkflowState)
      requires Valid()
      ensures |state.segments| == |segments|
      ensures forall i :: 0 <= i < |segments| ==>
        var e, s := state.segments[i], segments[i];
        e.segmentId == s.segmentId && e.startTime == s.startTime && e.endTime == s.endTime
        && e.text == s.text && e.duration == s.endTime - s.startTime
      ensures |state.groups| == |groupManager.groups| == |groupManager.order|
      ensures forall i :: 0 <= i < |state.groups| ==>
        var e, g := state.groups[i], groupManager.groups[groupManager.order[i]];
        e.groupId == groupManager.order[i] && e.segmentIds == g.segmentIds
        && e.selectedSegment == selectionManager.GetSelectedSegment(e.groupId)
        && (e.metadata.Some? <==> MetadataTruthy(g.metadata))
        && (e.metadata.Some? ==> e.metadata == g.metadata)
      ensures state.selections == selectionManager.ListSelections()
    {
      var segmentsData := Seqs.Map(segments, SegmentEntryOf);
      forall i | 0 <= i < |segments| ensures segmentsData[i] == SegmentEntryOf(segments[i]) {
        Seqs.MapAt(segments, SegmentEntryOf, i);
      }
      var groups := groupManager.ListGroups();
      var groupsData := GroupEntries(groups);
      state := WorkflowState(segmentsData, groupsData, selectionManager.ListSelections());
    }

    /** The group dictionaries of get_current_state (workflow.py:299-308), one per group in order. */
    method GroupEntries(groups: seq<Group>) returns (groupsData: seq<GroupEntry>)
      ensures |groupsData| == |groups|
      ensures forall k :: 0 <= k < |groups| ==>
        var e, g := groupsData[k], groups[k];
        e.groupId == g.groupId && e.segmentIds == g.segmentIds
        && e.selectedSegment == selectionManager.GetSelectedSegment(g.groupId)
        && (e.metadata.Some? <==> MetadataTruthy(g.metadata))
        && (e.metadata.Some? ==> e.metadata == g.metadata)
    {
      groupsData := [];
      var i := 0;
      while i < |groups|
        invariant 0 <= i <= |groups|
        invariant |groupsData| == i
        invariant forall k :: 0 <= k < i ==>
          var e, g := groupsData[k], groups[k];
          e.groupId == g.groupId && e.segmentIds == g.segmentIds
          && e.selectedSegment == selectionManager.GetSelectedSegment(g.groupId)
          && (e.metadata.Some? <==> MetadataTruthy(g.metadata))
          && (e.metadata.Some? ==> e.metadata == g.metadata)
      {
        var group := groups[i];
        var groupDict := GroupEntry(group.groupId, group.segmentIds, selectionManager.GetSelectedSegment(group.groupId), None);
        if MetadataTruthy(group.metadata) {
          groupDict := groupDict.(metadata := group.metadata);
        }
        groupsData := groupsData + [groupDict];
        i := i + 1;
      }
    }
  }
}
