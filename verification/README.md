# Scoreboard evaluation core in Dafny

This project models the evaluation core of a staff scoreboard web application. An
evaluator picks a user, a role and a date and fills in the role's evaluation fields.
Each field is a yes/no answer, a 1–5 rating, a 0–100 number or free text, and each has a
score weight. The form computes per-field points and a rounded total and submits them.
The server stores a score row followed by one detail row per field. Dashboards then
aggregate the stored scores per role and per user. Around this sit small list and state
helpers:

- the filters, pagination, selection and deletion of the score and user tables;
- the avatar initials;
- the evaluation field table and the per-role field editor;
- the target editor;
- the chart configuration lookup;
- the route guard of the score pages;
- the client-side auth store.

Modules follow the source files, one module per file:

| module | models |
|---|---|
| `NewScoreForm` | the score entry form |
| `Actions` | the server actions `getDashboardStats` and `createScore` |
| `DashboardService` | the dashboard service |
| `ScoreService` | the score service |
| `ScoresPage` | the personal score history page |
| `AdminDashboard` | the admin dashboard page |
| `EngineerProgressCard`, `EngineerStats`, `RolePerformance` | the engineer cards and the role chart |
| `ScoresList` | the score table |
| `UsersList` | the user table |
| `ScoreDetails` | the score details dialog |
| `ScoreRules` | the evaluation field table |
| `RoleRules` | the per-role field editor |
| `TargetSettings` | the target editor |
| `Chart` | the chart wrapper |
| `ScoresLayout` | the route guard |
| `UseAuth` | the auth store |

Four helper modules carry the JavaScript semantics the core relies on:

- `JsNumber`: numbers, with NaN and ±Infinity from a division by zero, and `Math.round` as `floor(x + 1/2)`.
- `Text`: ASCII case mapping, `includes`, `split(' ')`/`join`, `trim`, string comparison and integer numerals.
- `Seqs`: `filter` and the summing `reduce`.
- `Wrappers`: optional values.

`Records` holds the table row shapes.

Database and auth calls are not modelled. Their results enter as parameters: the rows a
query returns, or the error it reports. Components whose handlers replace state become
classes with `modifies` clauses: the score table, the field table, the field editor, the
target editor and the auth store. Loops that build a value in place become methods with
loop invariants, each proved equal to a recursive specification function:

- `calculateTotalScore`;
- the default field values;
- the `roleScores` rollup;
- `fetchFields`.

The form's total follows the code. It sums the unrounded per-field contributions and
rounds once, with contributions kept exactly in hundredths of a point. The saved
per-field scores are rounded one by one. `NewScoreForm.TotalDiffersFromDetailSum` shows
that the two can disagree. A sum of separately rounded field scores would differ; the
model follows the code.

Percentages (`calculatePercentage`, `progressPercentage`, `targetCompletion`) have no
guard against a zero divisor in the code. The model yields NaN or ±Infinity there, as
JavaScript does.

## Model

| member | source | states |
|---|---|---|
| NewScoreForm.Clamp | components/new-score-form.tsx:101 | the clamped number lies in 0..100 and equals the input when that is already in range |
| NewScoreForm.BooleanScore | components/new-score-form.tsx:92-94 | a boolean field scores its full weight for exactly "yes" and 0 for every other value, missing included |
| NewScoreForm.RatingScore | components/new-score-form.tsx:95-99 | a rating field whose value parses as r scores Math.round(r/5·w) = (2rw+5) div 10; r is not clamped to 1..5 |
| NewScoreForm.NumberScore | components/new-score-form.tsx:100-103 | a number v scores Math.round(clamp(v)/100·w) = (2·clamp(v)·w+100) div 200 |
| NewScoreForm.RoundRatingTerm | components/new-score-form.tsx:95-99 | the source's rating expression Math.round(r / 5 · w) equals (2rw+5) div 10, the closed form of the rating score |
| NewScoreForm.RoundNumberTerm | components/new-score-form.tsx:100-103 | the source's number expression Math.round(clamp(v) / 100 · w) equals (2cw+100) div 200, the closed form of the number score |
| NewScoreForm.NumberScoreBounds | components/new-score-form.tsx:100-103 | for weight ≥ 0 a number field scores between 0 and its weight, whatever number is entered |
| NewScoreForm.NumberScoreClamped | components/new-score-form.tsx:101-102 | scoring a number is the same as scoring its clamped value |
| NewScoreForm.TextScoresZero | components/new-score-form.tsx:104 | a field of any other type (text) scores 0 |
| NewScoreForm.RatingScoresWeightTen | components/new-score-form.tsx:95-99 | with weight 10 the ratings 1..5 score 2, 4, 6, 8 and 10 |
| NewScoreForm.RatingContributionIsExact | components/new-score-form.tsx:129-134 | a rating's integer hundredths, divided by 100, are exactly the source's sum term rating / 5 · weight |
| NewScoreForm.NumberContributionIsExact | components/new-score-form.tsx:136-140 | a number's integer hundredths, divided by 100, are exactly the source's sum term clamp(v) / 100 · weight |
| NewScoreForm.AccumulateField | components/new-score-form.tsx:121-140 | one field adds its contribution in hundredths (boolean 100w for "yes", rating 20·r·w, number clamp(v)·w, text nothing) and its weight to the maximum unless it is text; a value that is not an integer numeral makes the total None: NaN in the source for non-numeric text, or a value the model does not read (see "## Left out") |
| NewScoreForm.CalculateTotalScore | components/new-score-form.tsx:114-145 | the loop computes {points: round(total hundredths / 100), maxPoints: weight of the non-text fields}; points is None when a value is not an integer numeral (NaN in the source for non-numeric text, or a value the model does not read, see "## Left out"), and maxPoints is still the weight sum; {0, 0} without fields |
| NewScoreForm.MaxPointsIsScoredWeight | components/new-score-form.tsx:123-141 | maxPoints is the weight sum of the boolean, rating and number fields, independent of the values |
| NewScoreForm.ContributionBounds | components/new-score-form.tsx:123-141 | with ratings in 1..5 and non-negative weights a field adds between 0 and its full weight |
| NewScoreForm.HundredthsWithinMax | components/new-score-form.tsx:117-142 | under the same ranges the unrounded total lies between 0 and maxPoints |
| NewScoreForm.PointsWithinMax | components/new-score-form.tsx:144 | the rounded total shown and submitted lies between 0 and maxPoints |
| NewScoreForm.FieldScoreRoundsContribution | components/new-score-form.tsx:91-142 | each saved field score is that field's own total contribution rounded on its own |
| NewScoreForm.DetailSumNearTotal | components/new-score-form.tsx:144-169 | the saved field scores are defined exactly when the unrounded total is; their sum, in hundredths, exceeds the unrounded total by at most 50 per field and falls short of it by less than 50 per field |
| NewScoreForm.DetailSumNearSavedTotal | components/new-score-form.tsx:144-169 | the sum of the saved field scores and the saved total (the unrounded total rounded once) differ by at most half a point per field |
| NewScoreForm.TotalDiffersFromDetailSum | components/new-score-form.tsx:144-176 | two rating fields of weight 1 rated 3: the field scores sum to 2 but the saved total is 1 |
| NewScoreForm.InitialValues | components/new-score-form.tsx:64-76 | the loop builds exactly the defaults map: one entry per loaded field |
| NewScoreForm.DefaultsPerField | components/new-score-form.tsx:64-76 | after loading, exactly the loaded field ids have values: rating "3", number "0", text "", boolean "yes" |
| NewScoreForm.DefaultsKeys | components/new-score-form.tsx:64-76 | the defaults map has a key for every loaded field id and no other key |
| NewScoreForm.DefaultsValues | components/new-score-form.tsx:64-76 | with distinct field ids, each loaded field's value is its type's default |
| NewScoreForm.DefaultValueScore | components/new-score-form.tsx:64-105 | the default values score: a rating round(3/5·w), a number 0, a boolean its full weight, a text field 0 |
| NewScoreForm.DefaultScores | components/new-score-form.tsx:64-105 | right after loading, each field scores exactly what its type's default value scores |
| NewScoreForm.FieldChange | components/new-score-form.tsx:107-112 | the changed field reads the new value; every other field reads what it read before |
| NewScoreForm.HandleSubmit | components/new-score-form.tsx:147-180 | refused with no createScore call iff user, role or date is empty; otherwise the payload carries the rounded total (None when a value is not an integer numeral: NaN in the source for non-numeric text, or a value the model does not read), maxPoints as target in every case, and one entry per field with its own score |
| Actions.AverageScore | app/actions.ts:17-20 | 0 with no rows; otherwise the unrounded mean: mean times count equals the sum |
| Actions.AverageWithinBounds | app/actions.ts:19 | the mean lies between the smallest and the largest total |
| Actions.RollUpRoles | app/actions.ts:62-82 | the nested loops build the same dictionary as the specification fold, keys in insertion order, for `roles` embedded either as a list or as a single role object; they fail where `roles[0].name` throws |
| Actions.AddEachScore | app/actions.ts:74-78 | each score adds its total and one to the role's count, and the role's target becomes the last score's target |
| Actions.RollUpFails | app/actions.ts:65-66 | the rollup fails exactly when some user with roles and scores has an empty role list or a single role object (the row type allows either shape), so `roles[0].name` throws |
| Actions.RoleObjectFails | app/actions.ts:65-66 | if one user with scores has its role embedded as a single object, the whole rollup fails |
| Actions.AddScoresSums | app/actions.ts:75-79 | folding a user's scores adds their total and their count, and keeps the last target |
| Actions.RollUpEntries | app/actions.ts:64-79 | a role has an entry iff some user with at least one score has it first in a role list; its total and count are those of all such users' scores, its target the last one |
| Actions.RollUpValid | app/actions.ts:62-82 | keys are distinct, list exactly the entries, and every entry has counted at least one score |
| Actions.RolePerformanceData | app/actions.ts:85-89 | one point per key, in key order, named by the key, with that entry's target |
| Actions.RolePerformanceMeans | app/actions.ts:85-89 | each point's score is the rounded mean of its role's totals (the 0 branch never applies), its target the last target |
| Actions.DetailRows | app/actions.ts:222-228 | one detail row per submitted field, in order, with the new score id and the field's id, name, value and score |
| Actions.CreateScore | app/actions.ts:199-238 | the score row is inserted first; a failed score insert stops before any detail insert; a failed detail insert reports failure after the score row is written; success carries the new id |
| Actions.SubmittedDetailsCarryFieldScores | app/actions.ts:222-228 | composed with the form, each detail row's score is that field's own rounded score |
| DashboardService.RoleEntry | lib/services/dashboard.ts:131-141 | a role's entry has its name, the number of its users' scores, and their unrounded mean or 0 |
| DashboardService.RolePerformanceData | lib/services/dashboard.ts:130-142 | one entry per returned role, in order, roles without scores included; no data gives [] |
| DashboardService.FlattenLength | lib/services/dashboard.ts:131-132 | flattening the users' scores keeps every score: missing users or score lists count as empty |
| DashboardService.TotalScoresCountsUsers | lib/services/dashboard.ts:131-132 | total_scores counts the scores of all of the role's users |
| DashboardService.DashboardStatsOf | lib/services/dashboard.ts:144-160 | throws exactly when some monthly score's user has no role; otherwise a returned user count, score count and average score are passed through and missing ones default to 0 or null, the top performer is the first row, and monthly scores keep order and length with the user flattened to name, email and role |
| ScoreService.TotalsAdditive | lib/services/scores.ts:75-76 | the total and target sums are 0 for no details and add up over concatenated details |
| ScoreService.TotalAtMostTarget | lib/services/scores.ts:75-76 | with each field score between 0 and its field value, the total never exceeds the target |
| ScoreService.DetailRows | lib/services/scores.ts:100-105 | every inserted detail row is the input detail plus the created score's id, one per detail, in order |
| ScoreService.CreateScore | lib/services/scores.ts:71-113 | inserts the summed totals first; a failed score insert throws before any detail is written; a failed detail insert throws; otherwise returns the created row |
| ScoresPage.TransformedScores | app/scores/page.tsx:79-87 | one Score per fetched row, in order, copying every field but evaluator_id; no data gives [] |
| ScoresPage.CalculatePercentage | app/scores/page.tsx:101-103 | for a positive target the rounded percentage (200·score+target) div (2·target); for target 0 NaN or ±Infinity |
| ScoresPage.SummaryOf | app/scores/page.tsx:122-163 | total = sum of totals; average = rounded mean or 0; latest = the first entry's percentage and points, or none; entries = count |
| ScoresPage.AverageCardWithinTotals | app/scores/page.tsx:136 | the Average Score card lies between the lowest and the highest total |
| ScoresPage.LatestIsNewest | app/scores/page.tsx:74-149 | with rows ordered newest first, the Latest card shows an entry created no earlier than any other |
| AdminDashboard.OverviewData | app/admin/dashboard/page.tsx:43-47 | one point per monthly score, in order, actual = total score and target = target score |
| AdminDashboard.TargetCompletion | app/admin/dashboard/page.tsx:50-52 | 0 without a top performer; otherwise the average as a rounded percentage of the top performer's target |
| AdminDashboard.RemainingToTarget | app/admin/dashboard/page.tsx:54 | 100 minus the completion, unclamped |
| AdminDashboard.RemainingNegativeBeyondTarget | app/admin/dashboard/page.tsx:50-54 | the remainder is negative exactly when completion passes 100 percent |
| AdminDashboard.CompletionAtTarget | app/admin/dashboard/page.tsx:50-54 | an average equal to the target gives 100 percent and 0 remaining |
| AdminDashboard.LastFive | app/admin/dashboard/page.tsx:114 | the last min(5, n) scores, in their original order |
| EngineerProgressCard.ProgressPercentage | components/engineer-progress-card.tsx:16 | the rounded percentage of the maximum score; NaN or ±Infinity for a zero maximum |
| EngineerProgressCard.GetProgressColor | components/engineer-progress-card.tsx:19-24 | green iff ≥ 90, blue iff in [70, 90), yellow iff in [50, 70), red otherwise (NaN included): exactly one band |
| EngineerProgressCard.ColorMonotone | components/engineer-progress-card.tsx:19-24 | a higher percentage never gets a lower band |
| EngineerProgressCard.FullScoreIsGreen | components/engineer-progress-card.tsx:16-20 | a total equal to a non-zero maximum gives 100 and green |
| EngineerStats.ProgressAtTarget | components/engineer-stats.tsx:21 | the month-to-date percentage, which is the progress card's rounded percentage of the target, is 100 for a score equal to any non-zero target |
| EngineerStats.BarValue | components/engineer-stats.tsx:57 | a bar's value is score / maxScore · 100, unrounded |
| EngineerStats.BarWithinRange | components/engineer-stats.tsx:57 | a score within 0..maxScore fills the bar between 0 and 100 |
| EngineerStats.Breakdown | components/engineer-stats.tsx:48-57 | one bar per breakdown item, in input order |
| RolePerformance.ChartData | components/role-performance.tsx:15-20 | one point per input row, in order, with name = role, score = average, total = count, target = 85 |
| RolePerformance.ChartFollowsService | components/role-performance.tsx:15-20 | composed with the service, every returned role gets a bar; one without scores shows score 0 |
| ScoresList.GetScoreColor | components/scores-list.tsx:25-29 | green iff the ratio is ≥ 0.9, yellow iff in [0.7, 0.9), red otherwise (NaN included) |
| ScoresList.RowColorBands | components/scores-list.tsx:237 | for a positive target: green iff 10·total ≥ 9·target, yellow iff 7·target ≤ 10·total < 9·target; a zero target makes any positive total green |
| ScoresList.AvatarText | components/scores-list.tsx:31-37 | "NA" for a missing or empty name |
| ScoresList.InitialsOfNonEmptyWords | components/scores-list.tsx:33-36 | the initials are one upper-cased character per non-empty piece; empty pieces add nothing |
| ScoresList.InitialsHaveNoSpace | components/scores-list.tsx:33-36 | pieces split on spaces give initials that contain no space |
| ScoresList.FilteredScores | components/scores-list.tsx:94-101 | a score is kept iff it matches the search (ASCII case ignored, missing name read as ""), the role and the date range |
| ScoresList.FilteredScoresInOrder | components/scores-list.tsx:94 | the filtered scores are a subsequence of the loaded ones |
| ScoresList.RoleFilterSelectsId | components/scores-list.tsx:96 | a role id string keeps exactly the scores whose user has that id; a score without one is kept only under "all" |
| ScoresList.DefaultFilterKeepsAll | components/scores-list.tsx:40-101 | the initial filter keeps every loaded score |
| ScoresList.PageCount | components/scores-list.tsx:281 | the page count is ⌈n/10⌉ |
| ScoresList.PageOf | components/scores-list.tsx:185 | a page holds at most 10 rows: the items from (page−1)·10 on, in order |
| ScoresList.RowNumbersCountFromOne | components/scores-list.tsx:185-201 | the row numbered k is the k-th filtered score |
| ScoresList.ScoresTable.constructor | components/scores-list.tsx:40-49 | nothing loaded, the default filter, no selection, page 1 |
| ScoresList.ScoresTable.Visible | components/scores-list.tsx:184-186 | the rows shown are at most 10 loaded scores that pass the filter |
| ScoresList.ScoresTable.Loaded | components/scores-list.tsx:58-59 | a successful fetch replaces the scores and nothing else |
| ScoresList.ScoresTable.SetFilter | components/scores-list.tsx:40-45 | a filter change replaces the filter and nothing else |
| ScoresList.ScoresTable.HandleDelete | components/scores-list.tsx:74-92 | after confirmation and a successful delete exactly the scores with that id leave; otherwise the list is unchanged |
| ScoresList.ScoresTable.ToggleRow | components/scores-list.tsx:191-197 | checking appends the id; unchecking removes it |
| ScoresList.ScoresTable.ToggleAll | components/scores-list.tsx:159-165 | the header checkbox selects every loaded id or clears the selection |
| ScoresList.ScoresTable.PreviousPage | components/scores-list.tsx:275-276 | one page back, never below 1 |
| ScoresList.ScoresTable.NextPage | components/scores-list.tsx:281-287 | one page on while below ⌈n/10⌉ of the unfiltered list; disabled from there on |
| ScoresList.DeleteRemovesOnlyId | components/scores-list.tsx:84 | a delete removes exactly the scores with that id and keeps the rest in order; an absent id changes nothing |
| ScoresList.UncheckRemovesOnlyId | components/scores-list.tsx:195 | unchecking deselects that id and keeps every other selection in order |
| UsersList.FilteredUsers | components/users-list.tsx:49-57 | a user is kept iff the name or email contains the search (ASCII case ignored) and the role matches |
| UsersList.FilteredUsersInOrder | components/users-list.tsx:49 | the result is a subsequence of the users |
| UsersList.EmptySearchKeepsAll | components/users-list.tsx:51-52 | an empty search matches every user; with role "all" nothing is filtered out |
| UsersList.SearchIgnoresCase | components/users-list.tsx:51 | a search finds exactly the users its lower-cased form finds, so searches differing only in case find the same users; a user's name in any case finds that user |
| UsersList.RoleMatch | components/users-list.tsx:54 | a user without role id matches only "all"; a role id string matches exactly that id |
| ScoreDetails.AvatarIsOneInitial | components/score-details.tsx:23-43 | the avatar is the upper-cased first character of the first non-empty word of the name, or "NA" |
| ScoreDetails.DisplayValue | components/score-details.tsx:89-91 | "true" shows "Yes", "false" shows "No", anything else verbatim |
| ScoreDetails.ScoreDetailsView | components/score-details.tsx:21-105 | nothing for a missing score; the user name, role name and comments, or the fallbacks "Unknown User", "Unknown Role" and "No comments provided" when they are missing or empty; one displayed value per detail |
| ScoreRules.FetchedFails | components/score-rules.tsx:27-45 | loading fails exactly when the request for some role fails |
| ScoreRules.FetchedContents | components/score-rules.tsx:33-36 | a successful load holds exactly the fields returned for the roles |
| ScoreRules.ScoreRulesTable.FetchFields | components/score-rules.tsx:27-45 | the loop concatenates each role's fields in role order; on a failure the fields stay as they were; loading ends either way |
| ScoreRules.ScoreRulesTable.constructor | components/score-rules.tsx:18-24 | the table starts with the given roles, no fields, loading, on page 1 |
| ScoreRules.TypeLabel | components/score-rules.tsx:129-131 | "Yes/No" iff boolean, "Rating (1-5)" iff rating, "Number" for anything else |
| ScoreRules.RoleNameOf | components/score-rules.tsx:135 | the name of the first role with the field's role id, or nothing |
| ScoreRules.Body | components/score-rules.tsx:110-160 | loading row while loading, empty row for an empty page, otherwise at most 10 rows, the page's fields in order |
| ScoreRules.FooterOf | components/score-rules.tsx:168-171 | the footer is shown iff there is at least one field |
| ScoreRules.FooterCountsShownFields | components/score-rules.tsx:69-171 | on a page with fields the footer names exactly the positions of the fields shown, within 1..n |
| ScoreRules.FooterPastLastPage | components/score-rules.tsx:69-171 | past the last page the footer range is empty and no field is shown |
| ScoreRules.ScoreRulesTable.PreviousPage | components/score-rules.tsx:174-180 | disabled on page 1; otherwise one page back, never below 1 |
| ScoreRules.ScoreRulesTable.NextPage | components/score-rules.tsx:182-188 | disabled on the last page; otherwise one page on, or back to the last page when beyond it |
| ScoreRules.NextStaysOnFields | components/score-rules.tsx:69-186 | every page Next reaches from below the last page shows at least one field |
| RoleRules.NextIdAsWrittenCollides | components/role-rules.tsx:72 | for a role without fields the new id is -Infinity, and so is the next one |
| RoleRules.NextId | components/role-rules.tsx:72 | the new id exceeds every existing id, and is 1 for a role without fields |
| RoleRules.NextIdAgreesWhenNonEmpty | components/role-rules.tsx:72 | where the role has fields, max + 1 as written gives the same id |
| RoleRules.WithField | components/role-rules.tsx:67-76 | appends exactly one field after the unchanged existing ones |
| RoleRules.WithoutField | components/role-rules.tsx:87-88 | keeps exactly the fields with a different id, in order |
| RoleRules.Replace | components/role-rules.tsx:82-93 | only roles whose id equals the updated role's id are replaced |
| RoleRules.AddKeepsIdsDistinct | components/role-rules.tsx:72 | adding keeps the role's field ids distinct |
| RoleRules.FilterKeepsIdsDistinct | components/role-rules.tsx:87 | removing keeps the role's field ids distinct |
| RoleRules.RemoveUndoesAdd | components/role-rules.tsx:64-95 | removing the field just added gives the role back |
| RoleRules.RemoveAbsentIsNoop | components/role-rules.tsx:87 | removing an absent id changes nothing |
| RoleRules.FindByName | components/role-rules.tsx:102 | a role of the list with that name; nothing exactly when no role has it |
| RoleRules.InitialRolesValid | components/role-rules.tsx:13-58 | the built-in roles have distinct ids and each has distinct field ids |
| RoleRules.ReplaceKeepsRolesValid | components/role-rules.tsx:82-93 | replacing a role by an updated one with the same id and distinct field ids keeps the roles valid and puts the update in the list |
| RoleRules.RoleEditor.constructor | components/role-rules.tsx:13-62 | the four built-in roles with fields 1..4, the first role active, edit mode off, a blank draft |
| RoleRules.RoleEditor.AddField | components/role-rules.tsx:64-84 | a name that trims to nothing changes nothing; otherwise the field is appended with a fresh id, the roles list takes the updated role, and the draft is reset |
| RoleRules.RoleEditor.RemoveField | components/role-rules.tsx:86-95 | the active role loses the fields with that id, in the roles list too; the active role stays a role of the list |
| RoleRules.RoleEditor.SelectTab | components/role-rules.tsx:101-105 | a role with that name becomes active if there is one, else the active role stays; edit mode ends |
| RoleRules.RoleEditor.ToggleEdit | components/role-rules.tsx:122 | flips edit mode and nothing else |
| TargetSettings.SetTarget | components/target-settings.tsx:49-52 | only the named column of the rows with that id changes; length, order and every other row are unchanged |
| TargetSettings.LastChangeWins | components/target-settings.tsx:49-52 | a second change of the same cell overrides the first |
| TargetSettings.ChangesCommute | components/target-settings.tsx:49-52 | changes to different rows or different columns give the same list in either order |
| TargetSettings.SetTargetKeepsRows | components/target-settings.tsx:49-116 | a slider change keeps ids, roles and previous targets, and keeps every target within 50..100 |
| TargetSettings.TargetEditor.constructor | components/target-settings.tsx:10-42 | the four built-in targets, an identical edited copy, edit mode off |
| TargetSettings.TargetEditor.Shown | components/target-settings.tsx:87 | the edited copy in edit mode, the saved targets otherwise |
| TargetSettings.TargetEditor.ToggleEdit | components/target-settings.tsx:44-67 | Save copies the edits into the targets and leaves edit mode; Edit starts from a fresh copy of the targets |
| TargetSettings.TargetEditor.ChangeTarget | components/target-settings.tsx:49-116 | a slider changes the edited copy only; the saved targets wait for Save |
| TargetSettings.EditOneTarget | components/target-settings.tsx:44-67 | Edit, one slider change and Save change exactly that cell of the saved targets |
| Chart.Get | components/ui/chart.tsx:74-184 | `config[key]`: the entry with that key, or nothing when no entry has it |
| Chart.PayloadConfig | components/ui/chart.tsx:162-185 | nothing for a non-object payload; otherwise the entry under the lookup key when there is one, else the entry under the key |
| Chart.DirectStringWins | components/ui/chart.tsx:174-175 | a string under the key in the payload itself beats one in the nested payload |
| Chart.NoStringMeansPlainKey | components/ui/chart.tsx:172-184 | with no string under the key, either directly or nested, the lookup is plain `config[key]` |
| Chart.PayloadConfigIsConfigured | components/ui/chart.tsx:184 | any result is one of the configured entries |
| Chart.CssVariables | components/ui/chart.tsx:30-35 | exactly two variables per entry, `--color-<key>` and `--label-<key>`, in entry order |
| Chart.CssVariableNamesDistinct | components/ui/chart.tsx:30-35 | with distinct keys, the variable names are distinct |
| Chart.TooltipContent | components/ui/chart.tsx:60-97 | a tooltip is shown iff it is active, has a non-empty payload and sits in a container |
| Chart.TooltipRowsAreConfiguredItems | components/ui/chart.tsx:72-91 | one row per payload item with a configured data key, in payload order; unconfigured items are skipped |
| Chart.LegendKey | components/ui/chart.tsx:134 | nameKey if non-empty, else the data key if non-empty, else "value" |
| Chart.LegendContent | components/ui/chart.tsx:112-158 | throws outside a container; nothing for an empty payload; otherwise one entry per item with its configured label |
| ScoresLayout.Decide | app/scores/layout.tsx:17-50 | while loading: spinner, no redirect; no user: to /login, nothing rendered; role 1: to /admin/dashboard, nothing rendered |
| ScoresLayout.ChildrenOnlyForSignedInNonAdmins | app/scores/layout.tsx:37-50 | the page renders iff loading is over and a non-admin user is signed in; a redirect never comes with rendering |
| ScoresLayout.SignedInStoreSkipsSpinner | app/scores/layout.tsx:28-34 | with the auth store's invariant, a signed-in user never sees the spinner |
| UseAuth.AuthenticateUser | hooks/useAuth.ts:27-66 | succeeds iff a row came back with truthy id and email and a numeric role id, and then yields exactly {id, email, role_id}; every error is passed on |
| UseAuth.PasswordIsIgnored | hooks/useAuth.ts:27-35 | the password does not influence the outcome |
| UseAuth.AuthStore.constructor | hooks/useAuth.ts:71-72 | no user, loading |
| UseAuth.AuthStore.SignIn | hooks/useAuth.ts:73-98 | success stores the authenticated user; every failure stores no user and returns the error; loading ends either way |
| UseAuth.AuthStore.SignUp | hooks/useAuth.ts:99-116 | sends the credentials and full name with role 5, returns the service's error, and leaves the store alone |
| UseAuth.AuthStore.SignOut | hooks/useAuth.ts:117-124 | a returning sign-out clears the user and loading; a throwing one changes nothing |
| UseAuth.AuthStore.Rehydrate | hooks/useAuth.ts:126-134 | the stored state is merged in and loading ends; a failed hydration changes nothing |
| JsNumber.RoundHalfUp | components/new-score-form.tsx:98 | `Math.round`: the integer n with n − 1/2 ≤ x < n + 1/2 |
| JsNumber.Div | app/scores/page.tsx:102 | division: the quotient for a non-zero divisor; for zero, ±Infinity by the dividend's sign and NaN for 0/0 |
| Text.SplitJoin | components/scores-list.tsx:34 | `split(' ')` loses nothing: joining its pieces with single spaces gives the name back |
| JsNumber.Max | components/role-rules.tsx:72 | `Math.max` of two numbers: NaN if either is NaN, otherwise the larger one |
| Text.TrimEmpty | components/role-rules.tsx:65 | a name trims to "" iff every character is whitespace |
| Text.LexLessEqTransitive | components/scores-list.tsx:98 | string comparison is transitive, so the date range is an interval |

## Findings

| source | as written | input that shows it | evidently intended | confidence | as-written member | corrected member |
|---|---|---|---|---|---|---|
| components/role-rules.tsx:72 | the new field's id is `Math.max(...ids) + 1` over the active role's field ids, which is -Infinity when the role has no fields | remove all four fields of "Engineer", then add two fields: both get the id -Infinity, and removing one removes both | one more than the largest id, and 1 for a role without fields, so ids stay distinct | not executed | RoleRules.NextIdAsWrittenCollides | RoleRules.NextId |

## Left out

- Floating point: `Math.round` and divisions are exact over reals. The model reads form values only as integer numerals with an optional minus sign, and gives None for any other text. For non-numeric text None matches the source's NaN. Text that `Number()` does turn into a number gives a number in the source but None in the model: decimals such as "2.5", exponents such as "1e2" (both of which the `type="number"` input accepts), surrounding whitespace such as " 3", hexadecimal such as "0x10", and "Infinity".
- `toFixed`, date formatting, `toLocaleDateString` and the width of the score bar in the score table are display only.
- `toLowerCase`/`toUpperCase` map ASCII letters only. `trim` is modelled in full: it removes ECMAScript's white space and line terminators, including the Unicode space separators.
- `Object.keys` lists integer-like keys before the others. The rollup models keys in insertion order only.
- Every database and auth call (queries, inserts, deletes, RPCs, sign-in and sign-out requests) enters as a parameter: the rows returned or the error reported. The database's own filters in the score service are not modelled.
- Toasts, router navigation, `revalidatePath`, `useEffect` timing and rendering are not modelled.
- The demo widgets with hard-coded data (recent scores and overview) are not part of this model. Nor are the forms for users and evaluation fields, the login page, navigation, providers and the type-only files.
- UseAuth.AuthStore.SignIn: the "No user data" branch and the outer catch cannot be reached, because `authenticateUser` returns either data or an error and catches its own exceptions. Neither branch is modelled.
- UseAuth.AuthStore.Rehydrate: rehydration assigns `isLoading` on the state object directly, without `set`. Subscribers are therefore not notified; the model only records the new value.
- UseAuth.AuthenticateUser: a `role_id` that is a non-integer number, or NaN, counts as a number in the source; the model admits integers only.
- Actions.RollUpRoles: a role name that is a key every object inherits (such as "constructor") finds `roleScores[roleName]` already truthy, so the source skips creating the entry, adds to the inherited value, and never lists the role under `Object.keys`. The model treats every role name as an own key.
- Chart.PayloadConfig: keys inherited by every object (such as "toString") count as present under `in` in the source; the model sees own keys only. Data keys are strings only, never numbers.
- ChartStyle always renders nothing and is not modelled.
- ScoreService.CreateScore: `field_value` is typed as a number in the create input, so `Number(field_value)` is that number.
- ScoresList.ScoresTable.HandleDelete: the delete request is a parameter (success or failure). Selected ids of deleted scores stay selected, as in the source.
- Evaluation field creation, editing and deletion through the settings form is not modelled. The model covers only the reload that follows (`FetchFields`).
- RoleRules.RoleEditor: edits to the draft through the name input, type select and required switch are plain assignments and are not modelled separately.
- NewScoreForm.HandleSubmit: the target score of 85 set when a role is selected is not used in the payload and is not modelled.
