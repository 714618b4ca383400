/** The evaluation field table of the settings page: loading the fields of every role,
    the table body, the type badge and the pagination footer. */
module ScoreRules {
  import opened Wrappers
  import NewScoreForm
  import ScoresList

  datatype Role = Role(id: int, name: string)

  datatype RuleField = RuleField(id: int, name: string, fieldType: NewScoreForm.FieldType, scoreWeight: int, roleId: int)

  /** What `getFieldsByRole` answers for one role id: its fields, or `None` when it throws. */
  type FieldSource = int -> Option<seq<RuleField>>

  // ------------------------------------------------------------ loading

  /** What one run of `fetchFields` obtains: the fields of every role, role after role,
      or `None` as soon as one of the requests fails. */
  function Fetched(roles: seq<Role>, source: FieldSource): Option<seq<RuleField>>
  {
    if |roles| == 0 then Some([])
    else
      var before := Fetched(roles[..|roles| - 1], source);
      var last := source(roles[|roles| - 1].id);
      if before.None? || last.None? then None else Some(before.value + last.value)
  }

  lemma {:induction false} FetchFailurePersists(roles: seq<Role>, source: FieldSource, i: int)
    requires 0 <= i <= |roles| && Fetched(roles[..i], source) == None
    ensures Fetched(roles, source) == None
    decreases |roles| - i
  {
    if i < |roles| {
      assert roles[..i + 1][..i] == roles[..i];
      FetchFailurePersists(roles, source, i + 1);
    } else {
      assert roles[..i] == roles;
    }
  }

  /** The load fails exactly when the request for some role fails. */
  lemma {:induction false} FetchedFails(roles: seq<Role>, source: FieldSource)
    ensures Fetched(roles, source).None? <==> exists i :: 0 <= i < |roles| && source(roles[i].id).None?
  {
    if |roles| > 0 {
      var init := roles[..|roles| - 1];
      FetchedFails(init, source);
      if Fetched(init, source).None? {
        var i :| 0 <= i < |init| && source(init[i].id).None?;
        assert roles[i] == init[i];
      }
      if exists i :: 0 <= i < |roles| && source(roles[i].id).None? {
        var i :| 0 <= i < |roles| && source(roles[i].id).None?;
        if i < |roles| - 1 {
          assert init[i] == roles[i];
        }
      }
    }
  }

  /** A successful load holds exactly the fields returned for the roles, each role's fields
      together and in role order. */
  lemma {:induction false} FetchedContents(roles: seq<Role>, source: FieldSource, f: RuleField)
    requires Fetched(roles, source).Some?
    ensures forall i :: 0 <= i < |roles| ==> source(roles[i].id).Some?
    ensures f in Fetched(roles, source).value <==>
      exists i :: 0 <= i < |roles| && f in source(roles[i].id).value
  {
    FetchedFails(roles, source);
    if |roles| > 0 {
      var init := roles[..|roles| - 1];
      FetchedContents(init, source, f);
      var all := Fetched(roles, source).value;
      var last := source(roles[|roles| - 1].id).value;
      assert all == Fetched(init, source).value + last;
      if f in all {
        if f in Fetched(init, source).value {
          var i :| 0 <= i < |init| && f in source(init[i].id).value;
          assert roles[i] == init[i];
        } else {
          assert f in last;
        }
      }
      if exists i :: 0 <= i < |roles| && f in source(roles[i].id).value {
        var i :| 0 <= i < |roles| && f in source(roles[i].id).value;
        if i < |roles| - 1 {
          assert init[i] == roles[i];
        }
      }
    }
  }

  // ------------------------------------------------------------ display

  /** The type badge: "Yes/No" for a boolean field, "Rating (1-5)" for a rating field and
      "Number" for anything else. */
  function TypeLabel(t: NewScoreForm.FieldType): (badge: string)
    ensures t == NewScoreForm.Boolean <==> badge == "Yes/No"
    ensures t == NewScoreForm.Rating <==> badge == "Rating (1-5)"
    ensures t.Number? || t.Text? <==> badge == "Number"
  {
    match t
    case Boolean => "Yes/No"
    case Rating => "Rating (1-5)"
    case _ => "Number"
  }

  /** The role column: the name of the first role whose id is the field's role id. */
  function RoleNameOf(roles: seq<Role>, roleId: int): (name: Option<string>)
    ensures name.None? <==> forall i :: 0 <= i < |roles| ==> roles[i].id != roleId
    ensures name.Some? ==> exists i :: 0 <= i < |roles| && roles[i].id == roleId && roles[i].name == name.value
                              && forall j :: 0 <= j < i ==> roles[j].id != roleId
  {
    if |roles| == 0 then None
    else if roles[0].id == roleId then Some(roles[0].name)
    else
      var rest := RoleNameOf(roles[1..], roleId);
      assert forall i :: 0 < i < |roles| ==> roles[i] == roles[1..][i - 1];
      rest
  }

  datatype RuleRow = RuleRow(name: string, typeLabel: string, roleName: Option<string>, scoreWeight: int)

  /** The table body: a loading row, an empty-state row, or one row per field of the page. */
  datatype TableBody = LoadingRow | EmptyRow | Rows(rows: seq<RuleRow>)

  function RowOf(roles: seq<Role>, f: RuleField): RuleRow
  {
    RuleRow(f.name, TypeLabel(f.fieldType), RoleNameOf(roles, f.roleId), f.scoreWeight)
  }

  /** The body shown for the fields of `page`: at most ten rows, the page's fields in order. */
  function Body(roles: seq<Role>, fields: seq<RuleField>, loading: bool, page: int): (body: TableBody)
    requires page >= 1
    ensures loading ==> body == LoadingRow
    ensures !loading && ScoresList.PageOf(fields, page) == [] ==> body == EmptyRow
    ensures body.Rows? ==> 0 < |body.rows| <= ScoresList.ItemsPerPage
    ensures body.Rows? ==> forall i :: 0 <= i < |body.rows| ==>
      (page - 1) * ScoresList.ItemsPerPage + i < |fields| &&
      body.rows[i] == RowOf(roles, fields[(page - 1) * ScoresList.ItemsPerPage + i])
  {
    var current := ScoresList.PageOf(fields, page);
    if loading then LoadingRow
    else if |current| == 0 then EmptyRow
    else Rows(seq(|current|, i requires 0 <= i < |current| => RowOf(roles, current[i])))
  }

  /** "Showing first to last of total entries". */
  datatype Footer = Footer(first: int, last: int, total: int)

  /** The footer, shown only when there is at least one field. */
  function FooterOf(n: nat, page: int): (footer: Option<Footer>)
    ensures footer.None? <==> n == 0
  {
    if n == 0 then None
    else
      var start := (page - 1) * ScoresList.ItemsPerPage;
      var end := start + ScoresList.ItemsPerPage;
      Some(Footer(start + 1, if end < n then end else n, n))
  }

  /** On a page that has fields, the footer names exactly the positions (counting from one)
      of the fields shown on it. */
  lemma FooterCountsShownFields<T>(items: seq<T>, page: int)
    requires 1 <= page <= ScoresList.PageCount(|items|)
    ensures var footer := FooterOf(|items|, page);
            && footer.Some?
            && 1 <= footer.value.first <= footer.value.last <= |items|
            && footer.value.total == |items|
            && ScoresList.PageOf(items, page) == items[footer.value.first - 1 .. footer.value.last]
  {
    var rows := ScoresList.PageOf(items, page);
    var start := (page - 1) * ScoresList.ItemsPerPage;
    assert start < |items|;
    var footer := FooterOf(|items|, page).value;
    assert |rows| == footer.last - start;
    assert rows == items[start .. footer.last];
  }

  /** The page is not reset when the fields shrink: past the last page the footer names an
      empty range ("Showing 11 to 10 of 10 entries") and the table shows no field. */
  lemma FooterPastLastPage<T>(items: seq<T>, page: int)
    requires |items| > 0 && page > ScoresList.PageCount(|items|)
    ensures FooterOf(|items|, page).value.first > FooterOf(|items|, page).value.last
    ensures ScoresList.PageOf(items, page) == []
  {
  }

  // ------------------------------------------------------------ state

  /** The component's state: the loaded fields, the loading flag and the current page. */
  class ScoreRulesTable {
    const roles: seq<Role>
    var fields: seq<RuleField>
    var loading: bool
    var currentPage: int

    predicate Valid()
      reads this
    {
      currentPage >= 1
    }

    /** `Math.ceil(fields.length / itemsPerPage)` */
    function TotalPages(): nat
      reads this
    {
      ScoresList.PageCount(|fields|)
    }

    constructor(roles: seq<Role>)
      ensures Valid()
      ensures this.roles == roles && fields == [] && loading && currentPage == 1
    {
      this.roles := roles;
      fields := [];
      loading := true;
      currentPage := 1;
    }

    /** `fetchFields`: asks for the fields of every role in turn; when every request
        succeeds the table holds their concatenation, and when one fails (the toast) the
        fields stay as they were. Loading ends either way. */
    method FetchFields(source: FieldSource)
      requires Valid()
      modifies this
      ensures Valid()
      ensures Fetched(roles, source).Some? ==> fields == Fetched(roles, source).value
      ensures Fetched(roles, source).None? ==> fields == old(fields)
      ensures !loading && currentPage == old(currentPage)
    {
      var allFields: seq<RuleField> := [];
      for i := 0 to |roles|
        invariant Fetched(roles[..i], source) == Some(allFields)
      {
        assert roles[..i + 1][..i] == roles[..i];
        var roleFields := source(roles[i].id);
        if roleFields.None? {
          FetchFailurePersists(roles, source, i + 1);
          loading := false;
          return;
        }
        allFields := allFields + roleFields.value;
      }
      assert roles[..|roles|] == roles;
      fields := allFields;
      loading := false;
    }

    /** The "Previous" button, rendered only with the footer and disabled on page 1:
        moves one page back. */
    method PreviousPage()
      requires Valid()
      modifies this
      ensures Valid()
      ensures |fields| == 0 || old(currentPage) == 1 ==> currentPage == old(currentPage)
      ensures |fields| > 0 && old(currentPage) != 1 ==> currentPage == old(currentPage) - 1
      ensures fields == old(fields) && loading == old(loading)
    {
      if |fields| > 0 && currentPage != 1 {
        currentPage := if currentPage - 1 > 1 then currentPage - 1 else 1;
      }
    }

    /** The "Next" button, rendered only with the footer and disabled on the last page:
        moves one page on, or back to the last page when the current one lies past it. */
    method NextPage()
      requires Valid()
      modifies this
      ensures Valid()
      ensures |fields| == 0 || old(currentPage) == TotalPages() ==> currentPage == old(currentPage)
      ensures |fields| > 0 && old(currentPage) < TotalPages() ==> currentPage == old(currentPage) + 1
      ensures |fields| > 0 && old(currentPage) > TotalPages() ==> currentPage == TotalPages()
      ensures fields == old(fields) && loading == old(loading)
    {
      var totalPages := TotalPages();
      if |fields| > 0 && currentPage != totalPages {
        currentPage := if currentPage + 1 < totalPages then currentPage + 1 else totalPages;
      }
    }

    /** The table body of the current state. */
    function CurrentBody(): TableBody
      requires Valid()
      reads this
    {
      Body(roles, fields, loading, currentPage)
    }
  }

  /** Walking with "Next" from page 1 stays within the pages: every page it reaches shows
      at least one field. */
  lemma NextStaysOnFields<T>(items: seq<T>, page: int)
    requires 1 <= page < ScoresList.PageCount(|items|)
    ensures ScoresList.PageOf(items, page + 1) != []
  {
    assert (page + 1 - 1) * ScoresList.ItemsPerPage < |items|;
    assert ScoresList.PageOf(items, page + 1)[0] == items[page * ScoresList.ItemsPerPage];
  }
}
