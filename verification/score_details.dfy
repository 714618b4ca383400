/** The score details dialog: its avatar, fallbacks and value display. */
module ScoreDetails {
  import opened Wrappers
  import Str = Text
  import Seqs
  import ScoresList

  datatype DetailUser = DetailUser(fullName: Option<string>, roleName: Option<string>)

  datatype Detail = Detail(fieldName: string, fieldValue: string, fieldScore: Option<int>)

  datatype DetailScore = DetailScore(
    user: Option<DetailUser>, totalScore: int, targetScore: int, comments: Option<string>, details: Option<seq<Detail>>)

  /** What the dialog shows for a score. */
  datatype View = View(avatar: string, userName: string, roleName: string, values: seq<string>, comments: string)

  /** The avatar: `getAvatarText` applied to initials that are already joined. */
  function Avatar(fullName: Option<string>): string
  {
    ScoresList.AvatarText(if fullName.Some? then Some(ScoresList.Initials(Str.Split(fullName.value))) else None)
  }

  /** The avatar is a single upper-cased character, the first one of the first non-empty
      word of the name, or "NA" when the name is missing or has no non-empty word. */
  lemma AvatarIsOneInitial(fullName: Option<string>)
    ensures var words := if fullName.Some? then ScoresList.NonEmptyWords(Str.Split(fullName.value)) else [];
            && (words == [] ==> Avatar(fullName) == "NA")
            && (words != [] ==> words[0] != [] && Avatar(fullName) == [Str.UpperChar(words[0][0])])
  {
    if fullName.Some? {
      var parts := Str.Split(fullName.value);
      var inner := ScoresList.Initials(parts);
      ScoresList.InitialsOfNonEmptyWords(parts);
      ScoresList.InitialsHaveNoSpace(parts);
      if inner != [] {
        Str.SplitNoSpace(inner);
        assert ScoresList.Initials([inner]) == ScoresList.Initials([]) + ScoresList.Initial(inner);
      }
    }
  }

  /** The value column: "true" shows "Yes", "false" shows "No", anything else verbatim. */
  function DisplayValue(value: string): (shown: string)
    ensures value == "true" ==> shown == "Yes"
    ensures value == "false" ==> shown == "No"
    ensures value != "true" && value != "false" ==> shown == value
  {
    if value == "true" then "Yes" else if value == "false" then "No" else value
  }

  /** `x || fallback` for a string. */
  function OrElse(x: Option<string>, fallback: string): string
  {
    if x.Some? && x.value != "" then x.value else fallback
  }

  /** The dialog: nothing for a missing score; otherwise the avatar, the name or "Unknown
      User", the role or "Unknown Role", one displayed value per detail and the comments or
      "No comments provided". */
  function ScoreDetailsView(score: Option<DetailScore>): (v: Option<View>)
    ensures score.None? ==> v.None?
    ensures score.Some? ==> v.Some?
    ensures score.Some? ==>
      var s := score.value;
      var name := if s.user.Some? then s.user.value.fullName else None;
      var role := if s.user.Some? then s.user.value.roleName else None;
      && v.value.avatar == Avatar(name)
      && (name.None? || name == Some("") ==> v.value.userName == "Unknown User")
      && (name.Some? && name != Some("") ==> v.value.userName == name.value)
      && (role.None? || role == Some("") ==> v.value.roleName == "Unknown Role")
      && (role.Some? && role != Some("") ==> v.value.roleName == role.value)
      && (s.comments.None? || s.comments == Some("") ==> v.value.comments == "No comments provided")
      && (s.comments.Some? && s.comments != Some("") ==> v.value.comments == s.comments.value)
      && |v.value.values| == |s.details.GetOr([])|
      && forall i :: 0 <= i < |s.details.GetOr([])| ==> v.value.values[i] == DisplayValue(s.details.GetOr([])[i].fieldValue)
  {
    match score
    case None => None
    case Some(s) =>
      var name := if s.user.Some? then s.user.value.fullName else None;
      var role := if s.user.Some? then s.user.value.roleName else None;
      var details := s.details.GetOr([]);
      Some(View(
        Avatar(name),
        OrElse(name, "Unknown User"),
        OrElse(role, "Unknown Role"),
        seq(|details|, i requires 0 <= i < |details| => DisplayValue(details[i].fieldValue)),
        OrElse(s.comments, "No comments provided")))
  }
}
