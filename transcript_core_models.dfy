/**
 * The transcript-editing data model of implementation/transcript_core/models.py:
 * words, segments, takes (a segment plus an active flag) and groups of takes.
 * The take-list helpers shared by the group and selection managers live here too.
 */
module TranscriptCore {
  import opened Wrappers
  import Seqs

  datatype Word = Word(id: string, text: string, startTime: real, endTime: real)

  datatype Segment = Segment(id: string, text: string, startTime: real, endTime: real, words: seq<Word>)

  /** A take is one recorded variant of a segment; `isActive` marks the chosen one. */
  datatype Take = Take(id: string, segment: Segment, isActive: bool)

  datatype Group = Group(id: string, takes: seq<Take>)

  datatype Transcript = Transcript(segments: seq<Segment>, groups: seq<Group>)

  // ---------------------------------------------------------------- derived values

  /** `Word.duration` (models.py:13-15). */
  function WordDuration(w: Word): (d: real)
    ensures w.startTime + d == w.endTime
  {
    w.endTime - w.startTime
  }

  /** `Segment.duration` (models.py:26-28). */
  function SegmentDuration(s: Segment): (d: real)
    ensures s.startTime + d == s.endTime
  {
    s.endTime - s.startTime
  }

  /** The largest segment end; `max(seg.end_time for seg in segments)`. */
  function MaxEnd(segments: seq<Segment>): (r: real)
    requires segments != []
    ensures forall i :: 0 <= i < |segments| ==> segments[i].endTime <= r
    ensures exists i :: 0 <= i < |segments| && segments[i].endTime == r
  {
    var n := |segments| - 1;
    if n == 0 then segments[0].endTime
    else
      var m := MaxEnd(segments[..n]);
      assert forall i :: 0 <= i < n ==> segments[..n][i] == segments[i];
      if segments[n].endTime > m then segments[n].endTime else m
  }

  /** `Transcript.duration` (models.py:72-76): the latest segment end, 0 with no segments. */
  function TranscriptDuration(t: Transcript): (r: real)
    ensures t.segments == [] ==> r == 0.0
    ensures forall i :: 0 <= i < |t.segments| ==> t.segments[i].endTime <= r
    ensures t.segments != [] ==> exists i :: 0 <= i < |t.segments| && t.segments[i].endTime == r
  {
    if t.segments == [] then 0.0 else MaxEnd(t.segments)
  }

  // ---------------------------------------------------------------- the active take

  predicate IsActive(t: Take) { t.isActive }

  /** Index of `Group.active_take`: the first active take. */
  function ActiveIndex(g: Group): Option<nat>
  {
    Seqs.FirstIndex(g.takes, IsActive)
  }

  /** `Group.active_take` (models.py:47-52): the first active take, or none. */
  function ActiveTake(g: Group): Option<Take>
  {
    Seqs.FirstMatch(g.takes, IsActive)
  }

  lemma ActiveTakeIsFirstActive(g: Group)
    ensures ActiveTake(g).None? <==> forall i :: 0 <= i < |g.takes| ==> !g.takes[i].isActive
    ensures ActiveTake(g).Some? <==> ActiveIndex(g).Some?
    ensures ActiveIndex(g).Some? ==>
      var i := ActiveIndex(g).value;
      i < |g.takes| && ActiveTake(g) == Some(g.takes[i]) && g.takes[i].isActive &&
      forall j :: 0 <= j < i ==> !g.takes[j].isActive
  {
  }

  /** The loop of `Group.active_take`. */
  method FindActiveTake(g: Group) returns (r: Option<Take>)
    ensures r == ActiveTake(g)
  {
    var i := 0;
    while i < |g.takes|
      invariant 0 <= i <= |g.takes|
      invariant forall j :: 0 <= j < i ==> !g.takes[j].isActive
    {
      if g.takes[i].isActive {
        return Some(g.takes[i]);
      }
      i := i + 1;
    }
    return None;
  }

  // ---------------------------------------------------------------- lookups by id

  function GroupHasId(id: string): Group -> bool { (g: Group) => g.id == id }

  function TakeHasId(id: string): Take -> bool { (t: Take) => t.id == id }

  /** Position of the first group with this id (what `get_group` finds). */
  function GroupIndex(groups: seq<Group>, id: string): Option<nat>
  {
    Seqs.FirstIndex(groups, GroupHasId(id))
  }

  /** Position of the first take with this id. */
  function TakeIndex(takes: seq<Take>, id: string): Option<nat>
  {
    Seqs.FirstIndex(takes, TakeHasId(id))
  }

  /** The `for ... if x.id == id: return x` loop over groups. */
  method FindGroupIndex(groups: seq<Group>, id: string) returns (r: Option<nat>)
    ensures r == GroupIndex(groups, id)
  {
    var i := 0;
    while i < |groups|
      invariant 0 <= i <= |groups|
      invariant forall j :: 0 <= j < i ==> groups[j].id != id
    {
      if groups[i].id == id {
        return Some(i);
      }
      i := i + 1;
    }
    return None;
  }

  /** The same loop over the takes of a group. */
  method FindTake(takes: seq<Take>, id: string) returns (r: Option<Take>)
    ensures r == Seqs.FirstMatch(takes, TakeHasId(id))
  {
    var i := 0;
    while i < |takes|
      invariant 0 <= i <= |takes|
      invariant forall j :: 0 <= j < i ==> takes[j].id != id
    {
      if takes[i].id == id {
        return Some(takes[i]);
      }
      i := i + 1;
    }
    return None;
  }

  /** The same loop, reporting the position (`for i, take in enumerate(takes)`). */
  method FindTakeIndex(takes: seq<Take>, id: string) returns (r: Option<nat>)
    ensures r == TakeIndex(takes, id)
  {
    var i := 0;
    while i < |takes|
      invariant 0 <= i <= |takes|
      invariant forall j :: 0 <= j < i ==> takes[j].id != id
    {
      if takes[i].id == id {
        return Some(i);
      }
      i := i + 1;
    }
    return None;
  }

  /** Replacing a group's takes does not move any id. */
  lemma GroupIndexKeepsIds(groups: seq<Group>, i: nat, takes: seq<Take>, id: string)
    requires i < |groups|
    ensures GroupIndex(groups[i := groups[i].(takes := takes)], id) == GroupIndex(groups, id)
  {
    var u := groups[i := groups[i].(takes := takes)];
    assert forall j :: 0 <= j < |u| ==> GroupHasId(id)(u[j]) == GroupHasId(id)(groups[j]);
    Seqs.FirstIndexAgree(u, GroupHasId(id), groups, GroupHasId(id));
  }

  // ---------------------------------------------------------------- activation

  /** One step of the `set_active_take` loop: a take is active iff it carries the id. */
  function Activate(takeId: string): Take -> Take
  {
    (t: Take) => t.(isActive := t.id == takeId)
  }

  function Deactivate(t: Take): Take { t.(isActive := false) }

  /** One step of `select_take_by_index`: `take.is_active = (i == index)`. */
  function ActivateIndex(index: int): (nat, Take) -> Take
  {
    (i: nat, t: Take) => t.(isActive := i == index)
  }

  /** `sum(1 for take in takes if take.is_active)`. */
  function ActiveCount(takes: seq<Take>): nat
  {
    if takes == [] then 0
    else ActiveCount(takes[..|takes| - 1]) + (if takes[|takes| - 1].isActive then 1 else 0)
  }

  /** The number of takes carrying `id`. */
  function IdCount(takes: seq<Take>, id: string): nat
  {
    if takes == [] then 0
    else IdCount(takes[..|takes| - 1], id) + (if takes[|takes| - 1].id == id then 1 else 0)
  }

  predicate DistinctIds(takes: seq<Take>)
  {
    forall i, j :: 0 <= i < j < |takes| ==> takes[i].id != takes[j].id
  }

  /** After activating `id`, exactly the takes carrying `id` are active. */
  lemma {:induction false} ActiveCountActivate(takes: seq<Take>, id: string)
    ensures ActiveCount(Seqs.Map(takes, Activate(id))) == IdCount(takes, id)
    decreases |takes|
  {
    if takes != [] {
      var n := |takes| - 1;
      var f := Activate(id);
      ActiveCountActivate(takes[..n], id);
      var m := Seqs.Map(takes, f);
      assert m == Seqs.Map(takes[..n], f) + [f(takes[n])];
      assert m[..n] == Seqs.Map(takes[..n], f);
    }
  }

  /** Clearing leaves no active take. */
  lemma {:induction false} ActiveCountDeactivate(takes: seq<Take>)
    ensures ActiveCount(Seqs.Map(takes, Deactivate)) == 0
    decreases |takes|
  {
    if takes != [] {
      var n := |takes| - 1;
      ActiveCountDeactivate(takes[..n]);
      var m := Seqs.Map(takes, Deactivate);
      assert m == Seqs.Map(takes[..n], Deactivate) + [Deactivate(takes[n])];
      assert m[..n] == Seqs.Map(takes[..n], Deactivate);
    }
  }

  /** No take carries `id` exactly when the count is zero. */
  lemma {:induction false} IdCountZero(takes: seq<Take>, id: string)
    ensures IdCount(takes, id) == 0 <==> forall i :: 0 <= i < |takes| ==> takes[i].id != id
    decreases |takes|
  {
    if takes != [] {
      var n := |takes| - 1;
      IdCountZero(takes[..n], id);
      assert forall i :: 0 <= i < n ==> takes[..n][i] == takes[i];
    }
  }

  /**
   * With distinct ids at most one take carries `id`, and one does exactly when
   * the id is found.
   */
  lemma {:induction false} IdCountDistinct(takes: seq<Take>, id: string)
    requires DistinctIds(takes)
    ensures IdCount(takes, id) <= 1
    ensures IdCount(takes, id) == 1 <==> TakeIndex(takes, id).Some?
    decreases |takes|
  {
    IdCountZero(takes, id);
    if takes != [] {
      var n := |takes| - 1;
      assert forall i :: 0 <= i < n ==> takes[..n][i] == takes[i];
      IdCountDistinct(takes[..n], id);
      IdCountZero(takes[..n], id);
    }
  }

  /** `take.is_active = False` for every take of one group. */
  method DeactivateAll(takes: seq<Take>) returns (r: seq<Take>)
    ensures r == Seqs.Map(takes, Deactivate)
  {
    r := [];
    var k := 0;
    while k < |takes|
      invariant 0 <= k <= |takes|
      invariant r == Seqs.Map(takes[..k], Deactivate)
    {
      Seqs.MapSnoc(takes, Deactivate, k);
      r := r + [Deactivate(takes[k])];
      k := k + 1;
    }
    assert takes[..k] == takes;
  }

  /** The `set_active_take` loop: activates the takes carrying `takeId`, deactivates the rest. */
  method ActivateAll(takes: seq<Take>, takeId: string) returns (r: seq<Take>, found: bool)
    ensures r == Seqs.Map(takes, Activate(takeId))
    ensures found == TakeIndex(takes, takeId).Some?
  {
    r := [];
    found := false;
    var k := 0;
    while k < |takes|
      invariant 0 <= k <= |takes|
      invariant r == Seqs.Map(takes[..k], Activate(takeId))
      invariant found == exists j :: 0 <= j < k && takes[j].id == takeId
    {
      Seqs.MapSnoc(takes, Activate(takeId), k);
      if takes[k].id == takeId {
        found := true;
      }
      r := r + [Activate(takeId)(takes[k])];
      k := k + 1;
    }
    assert takes[..k] == takes;
  }

  /** `take.is_active = (i == index)` for every take of one group. */
  method ActivateIndexAll(takes: seq<Take>, index: int) returns (r: seq<Take>)
    ensures r == Seqs.MapIndexed(takes, ActivateIndex(index))
  {
    r := [];
    var k := 0;
    while k < |takes|
      invariant 0 <= k <= |takes|
      invariant r == Seqs.MapIndexed(takes[..k], ActivateIndex(index))
    {
      Seqs.MapIndexedSnoc(takes, ActivateIndex(index), k);
      r := r + [ActivateIndex(index)(k, takes[k])];
      k := k + 1;
    }
    assert takes[..k] == takes;
  }

  /** No take is active exactly when the active count is zero. */
  lemma {:induction false} ActiveCountZero(takes: seq<Take>)
    ensures ActiveCount(takes) == 0 <==> forall i :: 0 <= i < |takes| ==> !takes[i].isActive
    decreases |takes|
  {
    if takes != [] {
      var n := |takes| - 1;
      ActiveCountZero(takes[..n]);
      assert forall i :: 0 <= i < n ==> takes[..n][i] == takes[i];
    }
  }

  /** After `set_active_take(id)` the active take is the first take carrying `id`. */
  lemma ActivateSelectsFirst(g: Group, id: string)
    ensures ActiveIndex(g.(takes := Seqs.Map(g.takes, Activate(id)))) == TakeIndex(g.takes, id)
  {
    var m := Seqs.Map(g.takes, Activate(id));
    forall i | 0 <= i < |m|
      ensures IsActive(m[i]) == TakeHasId(id)(g.takes[i])
    {
      Seqs.MapAt(g.takes, Activate(id), i);
    }
    Seqs.FirstIndexAgree(m, IsActive, g.takes, TakeHasId(id));
  }

  /** After `select_take_by_index(k)` take `k` is the one active take. */
  lemma ActivateIndexSelects(g: Group, k: nat)
    requires k < |g.takes|
    ensures ActiveIndex(g.(takes := Seqs.MapIndexed(g.takes, ActivateIndex(k)))) == Some(k)
    ensures ActiveCount(Seqs.MapIndexed(g.takes, ActivateIndex(k))) == 1
  {
    var m := Seqs.MapIndexed(g.takes, ActivateIndex(k));
    forall i | 0 <= i < |m|
      ensures m[i].isActive == (i == k)
    {
      Seqs.MapIndexedAt(g.takes, ActivateIndex(k), i);
    }
    assert IsActive(m[k]);
    ActiveCountOnly(m, k);
  }

  /** A take list whose only active take sits at `k` has one active take. */
  lemma {:induction false} ActiveCountOnly(takes: seq<Take>, k: nat)
    requires forall i :: 0 <= i < |takes| ==> takes[i].isActive == (i == k)
    ensures ActiveCount(takes) == if k < |takes| then 1 else 0
    decreases |takes|
  {
    if takes != [] {
      var n := |takes| - 1;
      assert forall i :: 0 <= i < n ==> takes[..n][i] == takes[i];
      ActiveCountOnly(takes[..n], k);
    }
  }

  /** Groups that have an active take (`if group.active_take:` counts). */
  function GroupsWithActive(groups: seq<Group>): nat
  {
    if groups == [] then 0
    else GroupsWithActive(groups[..|groups| - 1]) + (if ActiveTake(groups[|groups| - 1]).Some? then 1 else 0)
  }

  lemma {:induction false} GroupsWithActiveBound(groups: seq<Group>)
    ensures GroupsWithActive(groups) <= |groups|
    ensures GroupsWithActive(groups) == 0 <==> forall i :: 0 <= i < |groups| ==> ActiveTake(groups[i]).None?
    decreases |groups|
  {
    if groups != [] {
      var n := |groups| - 1;
      assert forall i :: 0 <= i < n ==> groups[..n][i] == groups[i];
      GroupsWithActiveBound(groups[..n]);
    }
  }

  /** `set_active_take` over takes with distinct ids keeps at most one take active. */
  lemma ActivateKeepsIntegrity(takes: seq<Take>, id: string)
    requires DistinctIds(takes)
    ensures ActiveCount(Seqs.Map(takes, Activate(id))) <= 1
  {
    ActiveCountActivate(takes, id);
    IdCountDistinct(takes, id);
  }
}
