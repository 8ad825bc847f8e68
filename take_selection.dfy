/**
 * The winning take of each group
 * (implementation/take_selector_v2/backend/take_selector/selection.py).
 * Selections are one map entry per group, so a group never has two; they are
 * checked against the group manager when made and not revisited afterwards.
 */
module TakeSelection {
  import opened Wrappers
  import opened TakeGrouping

  class SelectionManager {
    const groupManager: GroupManager
    /** `_selections`: a cleared selection stays as a `None` entry. */
    var selections: map<string, Option<string>>

    constructor (groupManager: GroupManager)
      ensures this.groupManager == groupManager && selections == map[]
    {
      this.groupManager := groupManager;
      selections := map[];
    }

    /** select_segment (selection.py:33-59). */
    method SelectSegment(groupId: string, segmentId: string) returns (r: Result<bool, string>)
      modifies this
      ensures groupId !in groupManager.groups ==> r == Ok(false)
      ensures groupId in groupManager.groups && segmentId !in groupManager.groups[groupId].segmentIds ==>
        r == Err("Segment '" + segmentId + "' is not a member of group '" + groupId + "'")
      ensures groupManager.Member(groupId, segmentId) ==> r == Ok(true)
      ensures r == Ok(true) ==> selections == old(selections)[groupId := Some(segmentId)]
      ensures r != Ok(true) ==> selections == old(selections)
    {
      var group := groupManager.GetGroup(groupId);
      if group.None? {
        return Ok(false);
      }
      if segmentId !in group.value.segmentIds {
        return Err("Segment '" + segmentId + "' is not a member of group '" + groupId + "'");
      }
      selections := selections[groupId := Some(segmentId)];
      return Ok(true);
    }

    /** clear_selection (selection.py:61-77): afterwards the group has no selection. */
    method ClearSelection(groupId: string) returns (cleared: bool)
      modifies this
      ensures cleared == old(HasSelection(groupId))
      ensures cleared ==> selections == old(selections)[groupId := None]
      ensures !cleared ==> selections == old(selections)
      ensures !HasSelection(groupId)
    {
      if groupId !in selections {
        return false;
      }
      if selections[groupId] == None {
        return false;
      }
      selections := selections[groupId := None];
      return true;
    }

    /** get_selected_segment (selection.py:79-89): `_selections.get(group_id)`. */
    function GetSelectedSegment(groupId: string): Option<string>
      reads this
    {
      if groupId in selections then selections[groupId] else None
    }

    /** has_selection (selection.py:91-102). */
    predicate HasSelection(groupId: string)
      reads this
    {
      var selection := if groupId in selections then selections[groupId] else None;
      selection != None
    }

    /** A group has a selection exactly when get_selected_segment gives a segment. */
    lemma HasSelectionIffSelected(groupId: string)
      ensures HasSelection(groupId) <==> GetSelectedSegment(groupId).Some?
    {
    }

    /** list_selections (selection.py:104-115): the groups whose selection is set, with it. */
    function ListSelections(): (r: map<string, string>)
      reads this
      ensures forall g :: g in r <==> HasSelection(g)
      ensures forall g :: g in r ==> GetSelectedSegment(g) == Some(r[g])
    {
      map g | g in selections && selections[g] != None :: selections[g].value
    }

    /** clear_all (selection.py:117-121). */
    method ClearAll()
      modifies this
      ensures selections == map[]
      ensures ListSelections() == map[]
    {
      selections := map[];
    }
  }
}
