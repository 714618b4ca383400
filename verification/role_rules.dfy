/** The per-role evaluation field editor: four built-in roles, a tab per role, and the
    adding and removing of fields of the role on the active tab. */
module RoleRules {
  import opened Wrappers
  import opened NewScoreForm
  import JsNumber
  import Str = Text
  import Seqs

  datatype RuleField = RuleField(id: int, name: string, fieldType: FieldType, required: bool)

  datatype RoleDef = RoleDef(id: int, name: string, description: string, fields: seq<RuleField>)

  /** The "add field" inputs. */
  datatype NewField = NewField(name: string, fieldType: FieldType, required: bool)

  const BlankField: NewField := NewField("", Rating, true)

  // ------------------------------------------------------------ field ids

  /** No two fields share an id. */
  predicate UniqueIds(fields: seq<RuleField>)
  {
    fields == [] ||
    (UniqueIds(fields[..|fields| - 1]) &&
     forall f :: f in fields[..|fields| - 1] ==> f.id != fields[|fields| - 1].id)
  }

  /** The id `handleAddField` gives a new field, as written: `Math.max(...ids) + 1`, where
      the maximum of no ids is -Infinity. */
  function NextIdAsWritten(ids: seq<JsNumber.Num>): JsNumber.Num
  {
    JsNumber.Plus(JsNumber.MaxOf(ids), 1.0)
  }

  /** Once every field of a role has been removed, the next field gets the id -Infinity, and
      so does the one after it: two fields with the same id. */
  lemma NextIdAsWrittenCollides()
    ensures NextIdAsWritten([]) == JsNumber.NegInf
    ensures NextIdAsWritten([NextIdAsWritten([])]) == NextIdAsWritten([])
  {
    assert [JsNumber.NegInf][..0] == [];
  }

  function MaxId(fields: seq<RuleField>): int
    requires fields != []
  {
    if |fields| == 1 then fields[0].id
    else
      var m := MaxId(fields[..|fields| - 1]);
      if m < fields[|fields| - 1].id then fields[|fields| - 1].id else m
  }

  /** The id of a new field: one more than the largest id, and 1 for a role without fields. */
  function NextId(fields: seq<RuleField>): (id: int)
    ensures forall f :: f in fields ==> f.id < id
    ensures fields == [] ==> id == 1
  {
    if fields == [] then 1 else MaxIdBounds(fields); MaxId(fields) + 1
  }

  lemma {:induction false} MaxIdBounds(fields: seq<RuleField>)
    requires fields != []
    ensures forall f :: f in fields ==> f.id <= MaxId(fields)
    ensures exists f :: f in fields && f.id == MaxId(fields)
  {
    var last := fields[|fields| - 1];
    assert last in fields;
    if |fields| > 1 {
      var init := fields[..|fields| - 1];
      MaxIdBounds(init);
      assert forall f :: f in fields ==> f in init || f == last;
      var g :| g in init && g.id == MaxId(init);
      assert g in fields;
    }
  }

  /** Ids that differ pairwise are unique. */
  lemma {:induction false} PairwiseUniqueIds(fields: seq<RuleField>)
    requires forall i, j :: 0 <= i < j < |fields| ==> fields[i].id != fields[j].id
    ensures UniqueIds(fields)
  {
    if fields != [] {
      PairwiseUniqueIds(fields[..|fields| - 1]);
    }
  }

  function Ids(fields: seq<RuleField>): seq<JsNumber.Num>
  {
    seq(|fields|, i requires 0 <= i < |fields| => JsNumber.Finite(fields[i].id as real))
  }

  /** Where a role has fields, the written expression and NextId agree. */
  lemma {:induction false} NextIdAgreesWhenNonEmpty(fields: seq<RuleField>)
    requires fields != []
    ensures NextIdAsWritten(Ids(fields)) == JsNumber.Finite(NextId(fields) as real)
  {
    MaxOfIds(fields);
  }

  lemma {:induction false} MaxOfIds(fields: seq<RuleField>)
    requires fields != []
    ensures JsNumber.MaxOf(Ids(fields)) == JsNumber.Finite(MaxId(fields) as real)
  {
    var init := fields[..|fields| - 1];
    assert Ids(fields)[..|fields| - 1] == Ids(init);
    if |fields| > 1 {
      MaxOfIds(init);
    } else {
      assert Ids(init) == [];
    }
  }

  // ------------------------------------------------------------ role updates

  /** The active role with the new field appended. */
  function WithField(role: RoleDef, nf: NewField): (r: RoleDef)
    ensures r.id == role.id && r.name == role.name && r.description == role.description
    ensures |r.fields| == |role.fields| + 1 && r.fields[..|role.fields|] == role.fields
    ensures r.fields[|role.fields|] == RuleField(NextId(role.fields), nf.name, nf.fieldType, nf.required)
  {
    role.(fields := role.fields + [RuleField(NextId(role.fields), nf.name, nf.fieldType, nf.required)])
  }

  /** The active role without the fields whose id is `fieldId`. */
  function WithoutField(role: RoleDef, fieldId: int): (r: RoleDef)
    ensures r.id == role.id && r.name == role.name && r.description == role.description
    ensures forall f :: f in r.fields <==> f in role.fields && f.id != fieldId
    ensures Seqs.IsSubsequence(r.fields, role.fields)
  {
    Seqs.FilterIsSubsequence(role.fields, (f: RuleField) => f.id != fieldId);
    role.(fields := Seqs.Filter(role.fields, (f: RuleField) => f.id != fieldId))
  }

  /** `roles.map((role) => role.id === updated.id ? updated : role)` */
  function Replace(roles: seq<RoleDef>, updated: RoleDef): (r: seq<RoleDef>)
    ensures |r| == |roles|
    ensures forall i :: 0 <= i < |roles| ==> r[i] == if roles[i].id == updated.id then updated else roles[i]
  {
    seq(|roles|, i requires 0 <= i < |roles| => if roles[i].id == updated.id then updated else roles[i])
  }

  /** Adding a field keeps the ids of the role distinct. */
  lemma AddKeepsIdsDistinct(role: RoleDef, nf: NewField)
    requires UniqueIds(role.fields)
    ensures UniqueIds(WithField(role, nf).fields)
  {
    var r := WithField(role, nf).fields;
    assert r[..|r| - 1] == role.fields;
  }

  /** Removing fields keeps the ids of the role distinct. */
  lemma {:induction false} FilterKeepsIdsDistinct(fields: seq<RuleField>, fieldId: int)
    requires UniqueIds(fields)
    ensures UniqueIds(Seqs.Filter(fields, (f: RuleField) => f.id != fieldId))
  {
    if fields != [] {
      var init := fields[..|fields| - 1];
      FilterKeepsIdsDistinct(init, fieldId);
      var kept := Seqs.Filter(fields, (f: RuleField) => f.id != fieldId);
      if fields[|fields| - 1].id != fieldId {
        assert kept[..|kept| - 1] == Seqs.Filter(init, (f: RuleField) => f.id != fieldId);
      }
    }
  }

  /** Removing the field just added gives the role back as it was. */
  lemma RemoveUndoesAdd(role: RoleDef, nf: NewField)
    ensures WithoutField(WithField(role, nf), NextId(role.fields)) == role
  {
    var k := NextId(role.fields);
    var added := WithField(role, nf).fields;
    assert added[..|added| - 1] == role.fields;
    Seqs.FilterAll(role.fields, (f: RuleField) => f.id != k);
  }

  /** Removing an id no field has changes nothing. */
  lemma RemoveAbsentIsNoop(role: RoleDef, fieldId: int)
    requires forall i :: 0 <= i < |role.fields| ==> role.fields[i].id != fieldId
    ensures WithoutField(role, fieldId) == role
  {
    Seqs.FilterAll(role.fields, (f: RuleField) => f.id != fieldId);
  }

  /** `roles.find((r) => r.name === value)` */
  function FindByName(roles: seq<RoleDef>, name: string): (r: Option<RoleDef>)
    ensures r.None? <==> forall i :: 0 <= i < |roles| ==> roles[i].name != name
    ensures r.Some? ==> r.value in roles && r.value.name == name
  {
    if |roles| == 0 then None
    else if roles[0].name == name then Some(roles[0])
    else
      assert forall i :: 0 < i < |roles| ==> roles[i] == roles[1..][i - 1];
      FindByName(roles[1..], name)
  }

  // ------------------------------------------------------------ the editor

  /** The four roles the editor starts with, each with four fields numbered 1 to 4. */
  const EngineerFields: seq<RuleField> := [
    RuleField(1, "Technical Skills", Rating, true),
    RuleField(2, "Problem Solving", Rating, true),
    RuleField(3, "Response Time", Number, true),
    RuleField(4, "Documentation Quality", Rating, true)]
  const ServiceAdminFields: seq<RuleField> := [
    RuleField(1, "Customer Service", Rating, true),
    RuleField(2, "Scheduling Efficiency", Rating, true),
    RuleField(3, "Documentation Accuracy", Rating, true),
    RuleField(4, "Response Time", Number, true)]
  const StoreFields: seq<RuleField> := [
    RuleField(1, "Inventory Accuracy", Rating, true),
    RuleField(2, "Order Processing Time", Number, true),
    RuleField(3, "Stock Management", Rating, true),
    RuleField(4, "Documentation", Rating, true)]
  const ReceptionFields: seq<RuleField> := [
    RuleField(1, "Customer Service", Rating, true),
    RuleField(2, "Call Handling", Rating, true),
    RuleField(3, "Inquiry Resolution", Rating, true),
    RuleField(4, "Documentation", Rating, false)]

  const InitialRoles: seq<RoleDef> := [
    RoleDef(1, "Engineer", "Technical staff responsible for maintenance and repairs", EngineerFields),
    RoleDef(2, "Service Admin", "Administrative staff handling service requests and scheduling", ServiceAdminFields),
    RoleDef(3, "Store", "Inventory and parts management staff", StoreFields),
    RoleDef(4, "Reception", "Front desk staff handling customer inquiries", ReceptionFields)
  ]

  /** Role ids are distinct, and within every role field ids are distinct. */
  predicate RolesValid(roles: seq<RoleDef>)
  {
    && (forall i, j :: 0 <= i < j < |roles| ==> roles[i].id != roles[j].id)
    && (forall i :: 0 <= i < |roles| ==> UniqueIds(roles[i].fields))
  }

  lemma InitialRolesValid()
    ensures RolesValid(InitialRoles)
  {
    EngineerFieldsUnique();
    ServiceAdminFieldsUnique();
    StoreFieldsUnique();
    ReceptionFieldsUnique();
    var roles := InitialRoles;
    FourRolesValid(roles[0], roles[1], roles[2], roles[3]);
    assert roles == [roles[0], roles[1], roles[2], roles[3]];
  }

  // Each built-in list is checked on its own: together the four proofs are far costlier.
  lemma EngineerFieldsUnique() ensures UniqueIds(EngineerFields) { PairwiseUniqueIds(EngineerFields); }
  lemma ServiceAdminFieldsUnique() ensures UniqueIds(ServiceAdminFields) { PairwiseUniqueIds(ServiceAdminFields); }
  lemma StoreFieldsUnique() ensures UniqueIds(StoreFields) { PairwiseUniqueIds(StoreFields); }
  lemma ReceptionFieldsUnique() ensures UniqueIds(ReceptionFields) { PairwiseUniqueIds(ReceptionFields); }

  lemma FourRolesValid(a: RoleDef, b: RoleDef, c: RoleDef, d: RoleDef)
    requires a.id != b.id && a.id != c.id && a.id != d.id && b.id != c.id && b.id != d.id && c.id != d.id
    requires UniqueIds(a.fields) && UniqueIds(b.fields) && UniqueIds(c.fields) && UniqueIds(d.fields)
    ensures RolesValid([a, b, c, d])
  {
  }

  /** Putting an edited version of one of the roles back keeps the roles valid and makes the
      edited role one of them. */
  lemma ReplaceKeepsRolesValid(roles: seq<RoleDef>, i: int, updated: RoleDef)
    requires RolesValid(roles) && 0 <= i < |roles| && roles[i].id == updated.id
    requires UniqueIds(updated.fields)
    ensures RolesValid(Replace(roles, updated))
    ensures updated in Replace(roles, updated)
  {
    var r := Replace(roles, updated);
    assert r[i] == updated;
    assert forall k :: 0 <= k < |roles| ==> r[k].id == roles[k].id;
  }

  class RoleEditor {
    var roles: seq<RoleDef>
    var activeRole: RoleDef
    var editMode: bool
    var newField: NewField

    /** The active role is one of the roles, role ids are distinct, and within every role
        field ids are distinct. */
    predicate Valid()
      reads this
    {
      activeRole in roles && RolesValid(roles)
    }

    constructor()
      ensures Valid()
      ensures roles == InitialRoles && activeRole == InitialRoles[0]
      ensures !editMode && newField == BlankField
    {
      InitialRolesValid();
      roles := InitialRoles;
      activeRole := InitialRoles[0];
      editMode := false;
      newField := BlankField;
    }

    /** `handleAddField`: a name that trims to nothing changes nothing; otherwise the field
        is appended to the active role with a fresh id, the roles list takes the updated
        role and the inputs are cleared. */
    method AddField()
      requires Valid()
      modifies this
      ensures Valid()
      ensures Str.Trim(old(newField.name)) == [] ==>
        roles == old(roles) && activeRole == old(activeRole) && newField == old(newField)
      ensures Str.Trim(old(newField.name)) != [] ==>
        && activeRole == WithField(old(activeRole), old(newField))
        && roles == Replace(old(roles), activeRole)
        && newField == BlankField
      ensures editMode == old(editMode)
    {
      if Str.Trim(newField.name) == [] {
        return;
      }
      var updated := WithField(activeRole, newField);
      var i :| 0 <= i < |roles| && roles[i] == activeRole;
      AddKeepsIdsDistinct(activeRole, newField);
      ReplaceKeepsRolesValid(roles, i, updated);
      var updatedRoles := Replace(roles, updated);
      activeRole := updated;
      newField := BlankField;
      roles := updatedRoles;
    }

    /** `handleRemoveField`: the active role loses every field with that id, everywhere. */
    method RemoveField(fieldId: int)
      requires Valid()
      modifies this
      ensures Valid()
      ensures activeRole == WithoutField(old(activeRole), fieldId)
      ensures roles == Replace(old(roles), activeRole)
      ensures editMode == old(editMode) && newField == old(newField)
    {
      var updated := WithoutField(activeRole, fieldId);
      var i :| 0 <= i < |roles| && roles[i] == activeRole;
      FilterKeepsIdsDistinct(activeRole.fields, fieldId);
      ReplaceKeepsRolesValid(roles, i, updated);
      var updatedRoles := Replace(roles, updated);
      activeRole := updated;
      roles := updatedRoles;
    }

    /** Choosing a tab: the first role with that name becomes active, if there is one, and
        edit mode ends. */
    method SelectTab(name: string)
      requires Valid()
      modifies this
      ensures Valid()
      ensures FindByName(roles, name).Some? ==> activeRole == FindByName(roles, name).value
      ensures FindByName(roles, name).None? ==> activeRole == old(activeRole)
      ensures !editMode && roles == old(roles) && newField == old(newField)
    {
      var role := FindByName(roles, name);
      if role.Some? {
        activeRole := role.value;
      }
      editMode := false;
    }

    /** The Edit/Save button: toggles edit mode and nothing else. */
    method ToggleEdit()
      requires Valid()
      modifies this
      ensures Valid()
      ensures editMode == !old(editMode)
      ensures roles == old(roles) && activeRole == old(activeRole) && newField == old(newField)
    {
      editMode := !editMode;
    }
  }
}
