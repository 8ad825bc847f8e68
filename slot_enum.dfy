/**
 * The seven daily content slot functions
 * (text-content-pipeline/src/slots/enum.py): a string-valued enum whose only
 * non-automated member is the human slot.
 */
module SlotEnum {
  import opened Wrappers

  datatype SlotFunction =
    | DeclarativeStatement
    | Excerpt
    | ProcessNote
    | UnansweredQuestion
    | Reframing
    | QuietObservation
    | HumanIntentional

  /** The member's string value. */
  function Value(s: SlotFunction): string
  {
    match s
    case DeclarativeStatement => "declarative_statement"
    case Excerpt => "excerpt"
    case ProcessNote => "process_note"
    case UnansweredQuestion => "unanswered_question"
    case Reframing => "reframing"
    case QuietObservation => "quiet_observation"
    case HumanIntentional => "human_intentional"
  }

  /** The members in declaration order (iteration over the enum class). */
  const Members: seq<SlotFunction> :=
    [DeclarativeStatement, Excerpt, ProcessNote, UnansweredQuestion, Reframing, QuietObservation, HumanIntentional]

  /** `SlotFunction(text)`: `None` stands for the `ValueError` of an unknown value. */
  function FromValue(text: string): (r: Option<SlotFunction>)
    ensures r.None? ==> forall s :: Value(s) != text
    ensures r.Some? ==> Value(r.value) == text
  {
    if text == "declarative_statement" then Some(DeclarativeStatement)
    else if text == "excerpt" then Some(Excerpt)
    else if text == "process_note" then Some(ProcessNote)
    else if text == "unanswered_question" then Some(UnansweredQuestion)
    else if text == "reframing" then Some(Reframing)
    else if text == "quiet_observation" then Some(QuietObservation)
    else if text == "human_intentional" then Some(HumanIntentional)
    else None
  }

  /** Every member is recovered from its value, so distinct members have distinct values. */
  lemma FromValueRoundTrip(s: SlotFunction)
    ensures FromValue(Value(s)) == Some(s)
  {
  }

  /** is_automated (enum.py:17-19). */
  predicate IsAutomated(s: SlotFunction)
  {
    s != HumanIntentional
  }

  /** automated_slots (enum.py:21-24): every member but the human one, in declaration order. */
  function AutomatedSlots(): (r: seq<SlotFunction>)
    ensures r == [DeclarativeStatement, Excerpt, ProcessNote, UnansweredQuestion, Reframing, QuietObservation]
    ensures r == Members[..6]
  {
    var r := Filter(Members);
    assert Members == Members[..6] + [HumanIntentional];
    FilterAppend(Members[..6], [HumanIntentional]);
    FilterKeeps(Members[..6]);
    assert Filter([HumanIntentional]) == [];
    r
  }

  /** automated_slots holds exactly the automated members: six, without the human one. */
  lemma AutomatedSlotsFacts(s: SlotFunction)
    ensures |AutomatedSlots()| == 6
    ensures HumanIntentional !in AutomatedSlots()
    ensures IsAutomated(s) <==> s in AutomatedSlots()
  {
  }

  /** automated_slots lists no member twice. */
  lemma AutomatedSlotsDistinct(i: int, j: int)
    requires 0 <= i < j < |AutomatedSlots()|
    ensures AutomatedSlots()[i] != AutomatedSlots()[j]
  {
  }

  /** The members of `members` that are automated, in order. */
  function Filter(members: seq<SlotFunction>): seq<SlotFunction>
  {
    if members == [] then []
    else (if IsAutomated(members[0]) then [members[0]] else []) + Filter(members[1..])
  }

  lemma {:induction false} FilterAppend(a: seq<SlotFunction>, b: seq<SlotFunction>)
    ensures Filter(a + b) == Filter(a) + Filter(b)
  {
    if a == [] {
      assert a + b == b;
    } else {
      assert (a + b)[1..] == a[1..] + b;
      FilterAppend(a[1..], b);
    }
  }

  lemma {:induction false} FilterKeeps(members: seq<SlotFunction>)
    requires forall i :: 0 <= i < |members| ==> IsAutomated(members[i])
    ensures Filter(members) == members
  {
    if members != [] {
      FilterKeeps(members[1..]);
    }
  }
}
