/** The target settings table: monthly and yearly targets per role, edited on a copy with
    sliders from 50 to 100 and committed by "Save Changes". */
module TargetSettings {

  datatype Target = Target(id: int, role: string, monthlyTarget: int, previousTarget: int, yearlyTarget: int)

  /** The two columns a slider edits. */
  datatype TargetField = MonthlyTarget | YearlyTarget

  const SliderMin: int := 50
  const SliderMax: int := 100

  const InitialTargets: seq<Target> := [
    Target(1, "Engineer", 85, 80, 90),
    Target(2, "Service Admin", 80, 75, 85),
    Target(3, "Store", 75, 70, 80),
    Target(4, "Reception", 80, 75, 85)
  ]

  /** `{ ...target, [field]: value }` */
  function WithValue(t: Target, field: TargetField, value: int): Target
  {
    match field
    case MonthlyTarget => t.(monthlyTarget := value)
    case YearlyTarget => t.(yearlyTarget := value)
  }

  /** `handleTargetChange`'s map: the rows with that id take the value in that column. */
  function SetTarget(ts: seq<Target>, id: int, field: TargetField, value: int): (r: seq<Target>)
    ensures |r| == |ts|
    ensures forall i :: 0 <= i < |ts| && ts[i].id != id ==> r[i] == ts[i]
    ensures forall i :: 0 <= i < |ts| && ts[i].id == id ==>
      && r[i].id == ts[i].id && r[i].role == ts[i].role && r[i].previousTarget == ts[i].previousTarget
      && (field == MonthlyTarget ==> r[i].monthlyTarget == value && r[i].yearlyTarget == ts[i].yearlyTarget)
      && (field == YearlyTarget ==> r[i].yearlyTarget == value && r[i].monthlyTarget == ts[i].monthlyTarget)
  {
    seq(|ts|, i requires 0 <= i < |ts| => if ts[i].id == id then WithValue(ts[i], field, value) else ts[i])
  }

  /** A second change of the same cell overrides the first. */
  lemma LastChangeWins(ts: seq<Target>, id: int, field: TargetField, v1: int, v2: int)
    ensures SetTarget(SetTarget(ts, id, field, v1), id, field, v2) == SetTarget(ts, id, field, v2)
  {
  }

  /** Changes to different rows or different columns can be made in either order. */
  lemma ChangesCommute(ts: seq<Target>, id1: int, f1: TargetField, v1: int, id2: int, f2: TargetField, v2: int)
    requires id1 != id2 || f1 != f2
    ensures SetTarget(SetTarget(ts, id1, f1, v1), id2, f2, v2) == SetTarget(SetTarget(ts, id2, f2, v2), id1, f1, v1)
  {
  }

  /** Two lists describe the same rows: the same ids, roles and previous targets. */
  predicate SameRows(a: seq<Target>, b: seq<Target>)
  {
    |a| == |b| &&
    forall i :: 0 <= i < |a| ==> a[i].id == b[i].id && a[i].role == b[i].role && a[i].previousTarget == b[i].previousTarget
  }

  /** Every monthly and yearly target lies within the sliders' range. */
  predicate WithinSliders(ts: seq<Target>)
  {
    forall i :: 0 <= i < |ts| ==>
      SliderMin <= ts[i].monthlyTarget <= SliderMax && SliderMin <= ts[i].yearlyTarget <= SliderMax
  }

  /** A slider change keeps the rows and, with a slider value, the range. */
  lemma SetTargetKeepsRows(ts: seq<Target>, id: int, field: TargetField, value: int)
    requires WithinSliders(ts) && SliderMin <= value <= SliderMax
    ensures SameRows(ts, SetTarget(ts, id, field, value))
    ensures WithinSliders(SetTarget(ts, id, field, value))
  {
  }

  class TargetEditor {
    var targets: seq<Target>
    var editedTargets: seq<Target>
    var editMode: bool

    /** The saved and the edited list describe the same rows, all within the sliders. */
    predicate Valid()
      reads this
    {
      SameRows(targets, editedTargets) && WithinSliders(targets) && WithinSliders(editedTargets)
    }

    constructor()
      ensures Valid()
      ensures targets == InitialTargets && editedTargets == InitialTargets && !editMode
    {
      targets := InitialTargets;
      editedTargets := InitialTargets;
      editMode := false;
    }

    /** The rows the table shows: the edited copy while editing, the saved targets otherwise. */
    function Shown(): (rows: seq<Target>)
      reads this
      ensures editMode ==> rows == editedTargets
      ensures !editMode ==> rows == targets
    {
      if editMode then editedTargets else targets
    }

    /** The header button: "Save Changes" commits the copy and leaves edit mode; "Edit
        Targets" starts a fresh copy of the saved targets, dropping any earlier edits. */
    method ToggleEdit()
      requires Valid()
      modifies this
      ensures Valid()
      ensures old(editMode) ==> targets == old(editedTargets) && editedTargets == old(editedTargets) && !editMode
      ensures !old(editMode) ==> targets == old(targets) && editedTargets == old(targets) && editMode
    {
      if editMode {
        targets := editedTargets;
        editMode := false;
      } else {
        editedTargets := targets;
        editMode := true;
      }
    }

    /** A slider moved: only the edited copy changes; the saved targets wait for "Save". */
    method ChangeTarget(id: int, field: TargetField, value: int)
      requires Valid() && SliderMin <= value <= SliderMax
      modifies this
      ensures Valid()
      ensures editedTargets == SetTarget(old(editedTargets), id, field, value)
      ensures targets == old(targets) && editMode == old(editMode)
    {
      SetTargetKeepsRows(editedTargets, id, field, value);
      editedTargets := SetTarget(editedTargets, id, field, value);
    }
  }

  /** Editing and saving: entering edit mode, moving one slider and saving gives the saved
      targets with that one cell changed. */
  method EditOneTarget(editor: TargetEditor, id: int, field: TargetField, value: int)
    requires editor.Valid() && !editor.editMode && SliderMin <= value <= SliderMax
    modifies editor
    ensures editor.Valid() && !editor.editMode
    ensures editor.targets == SetTarget(old(editor.targets), id, field, value)
  {
    editor.ToggleEdit();
    editor.ChangeTarget(id, field, value);
    editor.ToggleEdit();
  }
}
