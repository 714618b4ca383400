/** The admin score table: its colour bands and avatar initials, the filter over the
    loaded scores, and the table state (loaded scores, selected rows, current page) with
    the handlers that replace it. */
module ScoresList {
  import opened Wrappers
  import opened JsNumber
  import Str = Text
  import Seqs

  // ------------------------------------------------------------ getScoreColor

  datatype ScoreColor = Green | Yellow | Red

  /** `getScoreColor(ratio)`: 0.9 and above green, 0.7 yellow, anything else (NaN
      included) red. */
  function GetScoreColor(ratio: Num): (c: ScoreColor)
    ensures c == Green <==> AtLeast(ratio, 0.9)
    ensures c == Yellow <==> !AtLeast(ratio, 0.9) && AtLeast(ratio, 0.7)
    ensures c == Red <==> !AtLeast(ratio, 0.7)
  {
    if AtLeast(ratio, 0.9) then Green
    else if AtLeast(ratio, 0.7) then Yellow
    else Red
  }

  /** The colour of a row, called with `total_score / target_score`. */
  function RowColor(totalScore: int, targetScore: int): ScoreColor
  {
    GetScoreColor(Div(totalScore as real, targetScore as real))
  }

  /** For a positive target the bands are whole-number comparisons: green from 90% of the
      target, yellow from 70%. A zero target makes any positive total green and 0/0 red. */
  lemma RowColorBands(totalScore: int, targetScore: int)
    ensures targetScore > 0 ==>
      && (RowColor(totalScore, targetScore) == Green <==> 10 * totalScore >= 9 * targetScore)
      && (RowColor(totalScore, targetScore) == Yellow <==> 7 * targetScore <= 10 * totalScore < 9 * targetScore)
    ensures targetScore == 0 ==> (RowColor(totalScore, 0) == Green <==> totalScore > 0)
  {
    if targetScore > 0 {
      var t, g := totalScore as real, targetScore as real;
      QuotientAtLeastIff(t, g, 0.9);
      QuotientAtLeastIff(t, g, 0.7);
    }
  }

  lemma QuotientAtLeastIff(a: real, b: real, c: real)
    requires b > 0.0
    ensures c <= a / b <==> c * b <= a
  {
    if c * b <= a {
      QuotientAtLeast(a, b, c);
    } else {
      QuotientAtMost(a, b, c);
    }
  }

  // ------------------------------------------------------------ getAvatarText

  /** `word.charAt(0).toUpperCase()`: nothing for an empty word. */
  function Initial(word: string): string
  {
    if word == [] then [] else [Str.UpperChar(word[0])]
  }

  /** `words.map(initial).join('')` */
  function Initials(words: seq<string>): string
  {
    if words == [] then [] else Initials(words[..|words| - 1]) + Initial(words[|words| - 1])
  }

  /** `getAvatarText(name)`: "NA" for a missing or empty name, otherwise the upper-cased
      first character of every space-separated word. */
  function AvatarText(name: Option<string>): (text: string)
    ensures name.None? || name == Some("") ==> text == "NA"
  {
    if name.None? || name.value == "" then "NA" else Initials(Str.Split(name.value))
  }

  function NonEmptyWords(words: seq<string>): seq<string>
  {
    Seqs.Filter(words, (w: string) => w != [])
  }

  /** The initials are exactly one upper-cased letter per non-empty word, in order; empty
      pieces (from doubled or outer spaces) add nothing. */
  lemma {:induction false} InitialsOfNonEmptyWords(words: seq<string>)
    ensures var ne := NonEmptyWords(words);
            && |Initials(words)| == |ne|
            && forall k :: 0 <= k < |ne| ==> ne[k] != [] && Initials(words)[k] == Str.UpperChar(ne[k][0])
  {
    if words != [] {
      var init, last := words[..|words| - 1], words[|words| - 1];
      InitialsOfNonEmptyWords(init);
      var ne := NonEmptyWords(words);
      var ne0 := NonEmptyWords(init);
      if last != [] {
        assert ne == ne0 + [last];
      } else {
        assert ne == ne0;
      }
    }
  }

  /** No initial is a space. */
  lemma {:induction false} InitialsHaveNoSpace(words: seq<string>)
    requires forall k :: 0 <= k < |words| ==> ' ' !in words[k]
    ensures ' ' !in Initials(words)
  {
    if words != [] {
      InitialsHaveNoSpace(words[..|words| - 1]);
      var last := words[|words| - 1];
      if last != [] {
        assert last[0] in last;
      }
    }
  }

  // ------------------------------------------------------------ filteredScores

  datatype ScoreUser = ScoreUser(fullName: Option<string>, roleId: Option<int>)

  /** A loaded score with the fields the table reads. */
  datatype ListScore = ListScore(
    id: int, scoreDate: string, totalScore: int, targetScore: int, user: Option<ScoreUser>)

  datatype ScoreFilter = ScoreFilter(search: string, role: string, startDate: string, endDate: string)

  const AllRoles: string := "all"

  function FullNameOf(s: ListScore): string
  {
    if s.user.Some? && s.user.value.fullName.Some? then s.user.value.fullName.value else ""
  }

  predicate MatchesSearch(s: ListScore, search: string)
  {
    search == "" || Str.Includes(Str.Lower(FullNameOf(s)), Str.Lower(search))
  }

  predicate MatchesRole(s: ListScore, role: string)
  {
    role == AllRoles || (s.user.Some? && s.user.value.roleId.Some? && Str.IntToString(s.user.value.roleId.value) == role)
  }

  /** The date range applies only when both ends are set; then the date string must lie
      between them, inclusive. */
  predicate MatchesDate(s: ListScore, f: ScoreFilter)
  {
    f.startDate == "" || f.endDate == ""
    || (s.scoreDate != "" && Str.LexLessEq(f.startDate, s.scoreDate) && Str.LexLessEq(s.scoreDate, f.endDate))
  }

  predicate Matches(s: ListScore, f: ScoreFilter)
  {
    MatchesSearch(s, f.search) && MatchesRole(s, f.role) && MatchesDate(s, f)
  }

  /** `filteredScores`: the loaded scores passing all three tests, in their order. */
  function FilteredScores(scores: seq<ListScore>, f: ScoreFilter): (r: seq<ListScore>)
    ensures forall s :: s in r <==> s in scores && Matches(s, f)
  {
    Seqs.Filter(scores, (s: ListScore) => Matches(s, f))
  }

  /** The filter keeps scores in their loaded order. */
  lemma FilteredScoresInOrder(scores: seq<ListScore>, f: ScoreFilter)
    ensures Seqs.IsSubsequence(FilteredScores(scores, f), scores)
  {
    Seqs.FilterIsSubsequence(scores, (s: ListScore) => Matches(s, f));
  }

  /** Choosing a role id keeps exactly the scores whose user has that role id; a score
      without one is kept only under "all". */
  lemma RoleFilterSelectsId(s: ListScore, roleId: int)
    ensures MatchesRole(s, Str.IntToString(roleId)) <==>
      s.user.Some? && s.user.value.roleId == Some(roleId)
    ensures s.user.None? || s.user.value.roleId.None? ==> forall role :: MatchesRole(s, role) <==> role == AllRoles
  {
    Str.IntToStringNotWord(roleId, AllRoles);
    if s.user.Some? && s.user.value.roleId.Some? {
      Str.IntToStringInjective(s.user.value.roleId.value, roleId);
    }
  }

  /** The initial filter keeps every loaded score. */
  lemma DefaultFilterKeepsAll(scores: seq<ListScore>)
    ensures FilteredScores(scores, ScoreFilter("", AllRoles, "", "")) == scores
  {
    Seqs.FilterAll(scores, (s: ListScore) => Matches(s, ScoreFilter("", AllRoles, "", "")));
  }

  // ------------------------------------------------------------ pagination

  const ItemsPerPage: int := 10

  /** `Math.ceil(n / itemsPerPage)` */
  function PageCount(n: nat): (c: nat)
    ensures (c - 1) * ItemsPerPage < n <= c * ItemsPerPage || (n == 0 && c == 0)
  {
    (n + ItemsPerPage - 1) / ItemsPerPage
  }

  /** `items.slice((page - 1) * 10, page * 10)`, with slice's clamping to the length. */
  function PageOf<T>(items: seq<T>, page: int): (rows: seq<T>)
    requires page >= 1
    ensures |rows| <= ItemsPerPage
    ensures forall i :: 0 <= i < |rows| ==>
      (page - 1) * ItemsPerPage + i < |items| && rows[i] == items[(page - 1) * ItemsPerPage + i]
    ensures (page - 1) * ItemsPerPage + |rows| == |items| || |rows| == ItemsPerPage || (page - 1) * ItemsPerPage >= |items|
  {
    var start := (page - 1) * ItemsPerPage;
    var end := page * ItemsPerPage;
    if start >= |items| then [] else items[start..if end < |items| then end else |items|]
  }

  /** The number shown in the "No." column for the row at `index` of the page. */
  function RowNumber(page: int, index: int): int
  {
    (page - 1) * ItemsPerPage + index + 1
  }

  /** Row numbers count every filtered score once, across pages: the row numbered k is the
      k-th filtered score. */
  lemma RowNumbersCountFromOne(items: seq<ListScore>, page: int, index: int)
    requires page >= 1 && 0 <= index < |PageOf(items, page)|
    ensures 1 <= RowNumber(page, index) <= |items|
    ensures PageOf(items, page)[index] == items[RowNumber(page, index) - 1]
  {
  }

  // ------------------------------------------------------------ table state

  /** The table's state: loaded scores, filter, selected ids and current page. */
  class ScoresTable {
    var scores: seq<ListScore>
    var filter: ScoreFilter
    var selectedRows: seq<int>
    var page: int

    ghost predicate Valid()
      reads this
    {
      page >= 1
    }

    /** Nothing loaded, the default filter, no selection, page 1. */
    constructor ()
      ensures Valid()
      ensures scores == [] && selectedRows == [] && page == 1
      ensures filter == ScoreFilter("", AllRoles, "", "")
    {
      scores := [];
      filter := ScoreFilter("", AllRoles, "", "");
      selectedRows := [];
      page := 1;
    }

    /** The rows of the current page. */
    function Visible(): (rows: seq<ListScore>)
      reads this
      requires Valid()
      ensures |rows| <= ItemsPerPage
      ensures forall s :: s in rows ==> s in scores && Matches(s, filter)
    {
      PageOf(FilteredScores(scores, filter), page)
    }

    /** The fetch succeeded: `setScores(data)`. */
    method Loaded(data: seq<ListScore>)
      requires Valid()
      modifies this
      ensures Valid()
      ensures scores == data && filter == old(filter) && selectedRows == old(selectedRows) && page == old(page)
    {
      scores := data;
    }

    method SetFilter(f: ScoreFilter)
      requires Valid()
      modifies this
      ensures Valid()
      ensures filter == f && scores == old(scores) && selectedRows == old(selectedRows) && page == old(page)
    {
      filter := f;
    }

    /** `handleDelete(id)`: after confirmation and a successful delete, exactly the scores
        with that id leave the list; otherwise the list stays as it was. */
    method HandleDelete(id: int, confirmed: bool, deleted: bool)
      requires Valid()
      modifies this
      ensures Valid()
      ensures confirmed && deleted ==> scores == Seqs.Filter(old(scores), (s: ListScore) => s.id != id)
      ensures !(confirmed && deleted) ==> scores == old(scores)
      ensures selectedRows == old(selectedRows) && page == old(page) && filter == old(filter)
    {
      if !confirmed {
        return;
      }
      if deleted {
        scores := Seqs.Filter(scores, (s: ListScore) => s.id != id);
      }
    }

    /** The row checkbox: checking appends the id, unchecking removes every copy of it. */
    method ToggleRow(id: int, checked: bool)
      requires Valid()
      modifies this
      ensures Valid()
      ensures checked ==> selectedRows == old(selectedRows) + [id]
      ensures !checked ==> selectedRows == Seqs.Filter(old(selectedRows), (x: int) => x != id)
      ensures scores == old(scores) && page == old(page) && filter == old(filter)
    {
      if checked {
        selectedRows := selectedRows + [id];
      } else {
        selectedRows := Seqs.Filter(selectedRows, (x: int) => x != id);
      }
    }

    /** The header checkbox: selects the ids of every loaded score, or clears them all. */
    method ToggleAll(checked: bool)
      requires Valid()
      modifies this
      ensures Valid()
      ensures checked ==> selectedRows == Ids(scores)
      ensures !checked ==> selectedRows == []
      ensures scores == old(scores) && page == old(page) && filter == old(filter)
    {
      if checked {
        selectedRows := Ids(scores);
      } else {
        selectedRows := [];
      }
    }

    /** The header checkbox is shown checked when as many rows are selected as loaded. */
    predicate AllSelected()
      reads this
    {
      |selectedRows| == |scores|
    }

    /** Previous: disabled on page 1, otherwise one page back, never below 1. */
    method PreviousPage()
      requires Valid()
      modifies this
      ensures Valid()
      ensures page == if old(page) - 1 < 1 then 1 else old(page) - 1
      ensures scores == old(scores) && selectedRows == old(selectedRows) && filter == old(filter)
    {
      if page != 1 {
        page := if page - 1 < 1 then 1 else page - 1;
      }
    }

    /** Next: disabled from the last page of the unfiltered list on, otherwise one page on. */
    method NextPage()
      requires Valid()
      modifies this
      ensures Valid()
      ensures old(page) >= PageCount(|scores|) ==> page == old(page)
      ensures old(page) < PageCount(|scores|) ==> page == old(page) + 1
      ensures scores == old(scores) && selectedRows == old(selectedRows) && filter == old(filter)
    {
      if page < PageCount(|scores|) {
        page := page + 1;
      }
    }
  }

  /** `scores.map(s => s.id)` */
  function Ids(scores: seq<ListScore>): (ids: seq<int>)
    ensures |ids| == |scores| && forall i :: 0 <= i < |scores| ==> ids[i] == scores[i].id
  {
    seq(|scores|, i requires 0 <= i < |scores| => scores[i].id)
  }

  /** A successful delete removes exactly the scores with that id, keeping the others in
      order. */
  lemma DeleteRemovesOnlyId(scores: seq<ListScore>, id: int)
    ensures var r := Seqs.Filter(scores, (s: ListScore) => s.id != id);
            && (forall s :: s in r <==> s in scores && s.id != id)
            && Seqs.IsSubsequence(r, scores)
            && ((forall i :: 0 <= i < |scores| ==> scores[i].id != id) ==> r == scores)
  {
    Seqs.FilterIsSubsequence(scores, (s: ListScore) => s.id != id);
    if forall i :: 0 <= i < |scores| ==> scores[i].id != id {
      Seqs.FilterAll(scores, (s: ListScore) => s.id != id);
    }
  }

  /** Unchecking a row deselects it and keeps every other selection in order. */
  lemma UncheckRemovesOnlyId(selected: seq<int>, id: int)
    ensures var r := Seqs.Filter(selected, (x: int) => x != id);
            && id !in r
            && (forall x :: x != id ==> (x in r <==> x in selected))
            && Seqs.IsSubsequence(r, selected)
  {
    Seqs.FilterIsSubsequence(selected, (x: int) => x != id);
  }
}
