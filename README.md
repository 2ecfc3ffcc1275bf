# Fat Free CRM list-view state and helper decisions, in Dafny

This project models the decision logic behind a Rails CRM's list pages and helpers:

- **Opportunities list view** (`Opportunities.dfy`). The session keeps three values:
  `filter_by_opportunity_stage` (a comma-joined stage list), `opportunities_current_page`
  and `opportunities_current_query`. The actions index, filter, search, create, update and
  destroy read and reset them.
  - The list the index shows passes the stage filter and the query, and is then sliced into pages.
  - The sidebar totals (one count per stage, plus `:other` and `:all`) are
    produced only when the request came from the opportunities index.
  - An update stores the submitted access level. When that access is `Shared`, it also stores
    exactly the submitted users as the record's permissions.
  - The `Opportunities.Controller` class holds the session fields and the opportunities table. Its
    methods are the actions.
  - The opportunities controller's code is not part of this model. Its behaviour
    comes from the assertions of `spec/controllers/opportunities_controller_spec.rb`.
    `OpportunitiesScenarios.dfy` replays those cases against the model.
- **Task filter checkboxes** (`TasksHelper.dfy`): the session key a view's filters live under,
  whether a due-date checkbox is checked, and `all_filtered_out?`.
- **Accounts controller** (`AccountsController.dfy`):
  - the stage hash built by `show`;
  - the previous account named by the trailing digits of `params[:open]` in `edit`;
  - the form context saved and dropped by `create`;
  - the users list that `update` fetches again only when the save fails.
- **Application helper** (`ApplicationHelper.dfy`):
  - `tabs` marks the active tab in place;
  - `tabless_layout?`;
  - the flash message chosen by `show_flash_if_any`;
  - the default text of `subtitle`;
  - the collapsed flag of `inline`;
  - `hidden_if` and `invisible_if`.
- **Ruby string behaviour** (`RubyString.dfy`):
  - `String#split` with a one-character separator other than a space (Ruby splits on `" "` awk-style, which is not modelled), including the dropping of trailing empty fields, so that `"".split(",")` is empty;
  - its inverse, a join;
  - ActiveSupport's `blank?`;
  - ASCII `downcase` and `capitalize`;
  - the trailing digit run matched by `/(\d+)\z/` and its decimal value.
- **Users** (`Users.dfy`): the user id type shared by the accounts and opportunities models.

Values the code takes from outside become parameters:

| Value | Parameter |
|---|---|
| The current user's visibility rule (`Opportunity.my`) | `mine` |
| The page size | `perPage` |
| The stage settings | `stageKeys`, or the pair list of `Show` |
| Whether a save succeeded (`save_with_permissions`, `update_attributes`) | `saved` |
| The users that `User.all_except` returns | `others` |
| Whether the referer is the opportunities index | `fromIndex` |
| A new record's id, which the database assigns fresh | `id` |

## Model

| member | source | states |
|---|---|---|
| RubyString.Split | app/helpers/tasks_helper.rb:8 | The last entry is never empty, and no entry is left exactly when the string is all separators (so `"".split(",")` is empty) |
| RubyString.SplitJoin | app/helpers/tasks_helper.rb:8 | Splitting a comma-joined list of separator-free entries whose last entry is non-empty gives back exactly that list |
| RubyString.SplitIgnoresTrailingSeparator | app/helpers/application_helper.rb:25 | A trailing separator adds no field: split drops trailing empty fields |
| RubyString.SplitEntries | app/helpers/tasks_helper.rb:8 | Every split entry is free of the separator and made only of characters from the string |
| RubyString.SplitOfBlankIsBlank | app/helpers/tasks_helper.rb:8-15 | Every entry split from a blank string is blank |
| RubyString.Downcase | app/helpers/application_helper.rb:7 | Same length; each character is lowered and no character is upper case afterwards |
| RubyString.Capitalize | app/helpers/application_helper.rb:25 | Same length; first character upper-cased, the rest down-cased |
| RubyString.TrailingDigits | app/controllers/accounts_controller.rb:52 | The longest digit-only suffix of the string: a suffix, all digits, and not preceded by a digit |
| RubyString.DecimalRoundTrip | app/controllers/accounts_controller.rb:53 | Reading back the decimal digits of n gives n |
| RubyString.TrailingDigitsOfSuffix | app/controllers/accounts_controller.rb:52 | A digit run after a non-digit (or at the start) is exactly what the trailing-digit match captures |
| TasksHelper.FilterKeyInjective | app/helpers/tasks_helper.rb:7-15 | The "filter_by_task_" key of a view names that view only: distinct views never share a session key |
| TasksHelper.FilterChecked | app/helpers/tasks_helper.rb:6-8 | A filter checked by a stored value is one of its comma-separated entries: it holds no comma, only characters of the value, and is blank when the value is blank |
| TasksHelper.AllFilteredOut | app/helpers/tasks_helper.rb:14-16 | True when nothing is stored; when true over a stored value, no non-blank filter is checked; false exactly when the stored value has a non-space character (so a stored ",,," is not blank) |
| TasksHelper.CheckedByDefault | app/helpers/tasks_helper.rb:8 | With no value stored for the view, a checkbox is checked iff its count is positive |
| TasksHelper.CheckedIgnoresCount | app/helpers/tasks_helper.rb:8 | With a stored value, the count has no effect on the checkbox |
| TasksHelper.CheckedIffStored | app/helpers/tasks_helper.rb:8 | With the stored value being the joined list of checked filters, a checkbox is checked iff its filter is in that list |
| TasksHelper.EmptyValueChecksNothing | app/helpers/tasks_helper.rb:8 | A stored empty string checks no filter whatever the count |
| TasksHelper.WholeEntryMatch | app/helpers/tasks_helper.rb:8 | Matching is whole-entry: "due" is unchecked and "overdue" checked under "due_asap,overdue" |
| AccountsController.StageHash | app/controllers/accounts_controller.rb:23 | The hash never has more keys than the setting has pairs |
| AccountsController.StageHashKeys | app/controllers/accounts_controller.rb:23 | The stage hash has exactly the keys carried by the pairs |
| AccountsController.StageHashLastWins | app/controllers/accounts_controller.rb:23 | A key maps to the title of the last pair carrying it: a later pair overrides an earlier one |
| AccountsController.PreviousId | app/controllers/accounts_controller.rb:52-54 | A previous id exists iff the open parameter is present and ends in a digit |
| AccountsController.PreviousIdOfDomId | app/controllers/accounts_controller.rb:52-53 | A prefix not ending in a digit followed by the decimal id names that id (account_42 gives 42) |
| AccountsController.PreviousIdExample | app/controllers/accounts_controller.rb:52-54 | "account_42" gives 42; "account_" gives no previous account |
| AccountsController.Controller.Show | app/controllers/accounts_controller.rb:21-23 | The stage field becomes the stage hash of the setting; nothing else changes |
| AccountsController.Controller.Edit | app/controllers/accounts_controller.rb:48-55 | Users are listed, the account context is saved, and previous is set only when a trailing digit run names an id |
| AccountsController.Controller.Create | app/controllers/accounts_controller.rb:60-77 | The create context is saved, and it is dropped iff the save succeeds |
| AccountsController.Controller.Update | app/controllers/accounts_controller.rb:82-97 | The users list is fetched only when the update fails; otherwise it is untouched |
| ApplicationHelper.Tabs | app/helpers/application_helper.rb:5-8 | The current tab is set to home only when unset; each tab's active flag becomes (downcased text == current tab), with no other field changed, and the same list is returned |
| ApplicationHelper.TablessLayout | app/helpers/application_helper.rb:11-14 | The authentications and passwords controllers are always tabless, only they and users can be, and for users exactly the create and new actions are |
| ApplicationHelper.TablessIgnoresAction | app/helpers/application_helper.rb:11-14 | Outside the users controller the action never changes whether the layout is tabless |
| ApplicationHelper.ShowFlashIfAny | app/helpers/application_helper.rb:17-22 | Nothing is picked iff no flash kind is set; otherwise the pick is a set kind, with its message, and no earlier kind in error, warning, message, notice order is set |
| ApplicationHelper.ErrorFlashWins | app/helpers/application_helper.rb:17-22 | When an error flash is set, the first-match pick is the error |
| ApplicationHelper.SubtitleText | app/helpers/application_helper.rb:25 | There is no text (capitalize on nil) exactly when the id is empty or all underscores; otherwise the text is non-empty and holds no underscore |
| ApplicationHelper.SubtitleOfLastPart | app/helpers/application_helper.rb:25 | The default subtitle of prefix_word is the capitalized word, whatever the prefix |
| ApplicationHelper.SubtitleOfSinglePart | app/helpers/application_helper.rb:25 | An id without underscores is its own subtitle, capitalized |
| ApplicationHelper.SubtitleIgnoresTrailingUnderscore | app/helpers/application_helper.rb:25 | Trailing underscores do not change the default subtitle |
| ApplicationHelper.SubtitleExample | app/helpers/application_helper.rb:25 | "contact_info" gives "Info"; the empty id has no last part, so capitalize would be called on nil |
| ApplicationHelper.InlineFollowsOwnEntry | app/helpers/application_helper.rb:35 | Storing any value under the form's id expands it, removing the entry collapses it, and entries under other keys never change the collapsed flag |
| ApplicationHelper.HiddenIf | app/helpers/application_helper.rb:49-57 | The style always sets display only, and it is display:none exactly when asked |
| ApplicationHelper.InvisibleIf | app/helpers/application_helper.rb:51-62 | The style always sets visibility only, and it is visibility:hidden exactly when asked |
| Opportunities.Listed | spec/controllers/opportunities_controller_spec.rb:37-50 | A record is listed iff it is in the table, visible to the user, in one of the filtered stages and matching the query; never more records than the table |
| Opportunities.Visible | spec/controllers/opportunities_controller_spec.rb:23-29 | The unfiltered list holds exactly the records the user may see |
| Opportunities.StageFilterKeeps | spec/controllers/opportunities_controller_spec.rb:37-50 | Under a stored comma-joined stage list, a visible record is kept iff its stage is one of the entries |
| Opportunities.Contains | spec/controllers/opportunities_controller_spec.rb:476-482 | The name matches the query exactly when the query occurs in it at some position |
| Opportunities.ContainsChars | spec/controllers/opportunities_controller_spec.rb:476-482 | A matching name contains every character of the query |
| Opportunities.MissingCharNotContained | spec/controllers/opportunities_controller_spec.rb:476-482 | A name missing a character of the query does not match it |
| Opportunities.PageOf | spec/controllers/opportunities_controller_spec.rb:52-71 | A page holds at most perPage records, is empty iff the list ends before it starts, and holds the records from offset (page-1)*perPage in order |
| Opportunities.PageOfCovers | spec/controllers/opportunities_controller_spec.rb:52-71 | Record i of the list is at position i mod perPage on page i div perPage + 1 |
| Opportunities.StageTotals | spec/controllers/opportunities_controller_spec.rb:31-35 | The totals' keys are the stage keys plus all and other, and every one of them is present |
| Opportunities.TotalsBalance | spec/controllers/opportunities_controller_spec.rb:31-35 | For distinct stage keys, the stage counts plus other add up to all |
| Opportunities.SumStagesSnoc | spec/controllers/opportunities_controller_spec.rb:31-35 | One more record adds one to the stage counts iff its stage is one of the keys |
| Opportunities.BalanceCounts | spec/controllers/opportunities_controller_spec.rb:31-35 | Every record is counted exactly once by the stage counts and other together |
| Opportunities.Revised | spec/controllers/opportunities_controller_spec.rb:364-373 | The saved record keeps its id, takes every submitted name, stage and access and keeps each field the form leaves out; it is granted exactly the submitted users when it ends up Shared, and nothing otherwise |
| Opportunities.RevisedIdempotent | spec/controllers/opportunities_controller_spec.rb:364-373 | Saving the same form twice gives the record that saving it once gives |
| Opportunities.RevisedForgetsOld | spec/controllers/opportunities_controller_spec.rb:364-373 | For a complete form (name, stage and access all submitted), of the old record only the id survives: two records with the same id are saved to the same result |
| Opportunities.RevisedEmptyForm | spec/controllers/opportunities_controller_spec.rb:323-334 | A form that submits no field keeps name, stage and access; only the grants are reset to follow the access |
| Opportunities.ReviseById | spec/controllers/opportunities_controller_spec.rb:323-334 | The record of the id becomes its revised form; length, positions and ids are kept, so ids stay unique and the same ids are present; records of other ids are untouched; an absent id changes nothing |
| Opportunities.ReviseByIdWrites | spec/controllers/opportunities_controller_spec.rb:323-334 | The record of the id gets each submitted field, keeps each field left out, and is granted the submitted users exactly when it ends up Shared |
| Opportunities.RemoveById | spec/controllers/opportunities_controller_spec.rb:411-417 | Exactly the records without the id remain |
| Opportunities.UniqueTail | spec/controllers/opportunities_controller_spec.rb:411-417 | The tail of a table with unique ids has unique ids and lacks the head's id |
| Opportunities.RemoveByIdAbsent | spec/controllers/opportunities_controller_spec.rb:411-417 | Removing an id that no record has leaves the table unchanged |
| Opportunities.RemoveByIdKeepsUnique | spec/controllers/opportunities_controller_spec.rb:411-417 | Removing by id keeps ids unique |
| Opportunities.RemoveByIdRemovesOne | spec/controllers/opportunities_controller_spec.rb:411-417 | With unique ids, removing a present id removes exactly one record |
| Opportunities.PageAfterDestroy | spec/controllers/opportunities_controller_spec.rb:429-454 | From the index the page is kept when it still has records and moves back exactly one page when it is left empty above page 1, never going below 1; from elsewhere it is 1 |
| Opportunities.DestroyLandsOnRecords | spec/controllers/opportunities_controller_spec.rb:429-443 | Removing one record from a page that had records lands on a page that still has records, unless nothing is left |
| Opportunities.DestroyStepsBackOnePage | spec/controllers/opportunities_controller_spec.rb:429-454 | With no records left page 42 becomes 41 and page 1 stays 1 from the index; from elsewhere the page becomes 1 |
| Opportunities.Controller.Index | spec/controllers/opportunities_controller_spec.rb:23-71 | An explicit page becomes the session page, otherwise the saved page is used; a page below 1 is rejected with nothing changed; the response holds the current page of the filtered list and the totals |
| Opportunities.Controller.Filter | spec/controllers/opportunities_controller_spec.rb:497-516 | The stage filter is replaced and the page reset to 1; the index template shows the new list |
| Opportunities.Controller.Search | spec/controllers/opportunities_controller_spec.rb:476-482 | The query is stored in the session, the page reset to 1, and the index template shows the matching records |
| Opportunities.Controller.Create | spec/controllers/opportunities_controller_spec.rb:203-225 | A saved record under a fresh id is appended, keeping ids unique; the list and totals are reloaded only when saved from the index page |
| Opportunities.Controller.Update | spec/controllers/opportunities_controller_spec.rb:323-398 | A saved update revises the record's fields and sharing; totals only when saved from the index; a failed save changes nothing; an unknown id is an error |
| Opportunities.Controller.Destroy | spec/controllers/opportunities_controller_spec.rb:405-455 | Exactly one record, the one with the id, is removed; from the index the totals and current page are reloaded, and an emptied page steps back one page and renders the index; from elsewhere the page resets to 1 with no totals |
| OpportunitiesScenarios.StageFilterScenario | spec/controllers/opportunities_controller_spec.rb:37-50 | Under "prospecting,qualification" the qualification and prospecting records stay and analysis is dropped |
| OpportunitiesScenarios.SearchScenario | spec/controllers/opportunities_controller_spec.rb:470-483 | Searching for "second" keeps only "The second one" |
| OpportunitiesScenarios.TotalsScenario | spec/controllers/opportunities_controller_spec.rb:31-35 | Concrete totals for stage keys A and B: other counts the records outside both keys, all counts every record |
| OpportunitiesScenarios.SharingScenario | spec/controllers/opportunities_controller_spec.rb:364-373 | A Public record updated with name "Hello", access Shared and users 7 and 8 is renamed, keeps its stage, is Shared and has permissions exactly {7, 8} |
| OpportunitiesScenarios.RenameScenario | spec/controllers/opportunities_controller_spec.rb:323-334 | Updating record 42 with only the name "Hello world" renames it and keeps its stage and access |

## Left out

- The HTML and JavaScript the helpers build are left out: `content_tag`, `link_to_remote`, `check_box_tag`, `remote_function`, the arrow characters, `styles_for`, `highlightable`, `spacer` and the other string-building helpers. `show_flash_if_any` is modelled as the choice of message only.
- Serialisation for XML responses (`to_xml`) and the `respond_to` formats are left out; an opportunities HTML destroy redirect is left out with them.
- `time_ago` depends on the clock.
- Referer parsing is replaced by the boolean `fromIndex`.
- The bodies of `Opportunity.my`, `Account.find`, `User.all_except`, `save_with_permissions`, `update_attributes`, `find_related_asset_for` and `Setting` are not part of this model. Visibility, the page size, the stage settings, the users list and whether a save succeeds are parameters or inputs, as listed above. What `save_with_permissions` stores as grants is not an input: it is the rule of `Opportunities.Revised`, described on its own line below. `Account.find($1)` in edit is modelled as the id it looks up.
- Record validation is left out: whether a save succeeds is the input `saved`.
- `save_context` and `drop_context` are modelled as adding a context name to and removing it from a set.
- The display order of the filtered list is left out. The order checked at spec/controllers/opportunities_controller_spec.rb:49 depends on a default ordering that is not part of this model. The model keeps table order, so `StageFilterScenario` states the record set in table order.
- BigDecimal amounts and every record field other than id, name, stage, access and permissions are left out.
- Opportunities.Listed: the query matches case-sensitively as a substring of the name. The database search behind it may ignore case. The sanitising of the query that the XML search case (`"second?!"`) relies on is left out.
- Opportunities.StageTotals: the totals are counted over all records the user may see, not the filtered list. The spec pins only their keys. Whether filter and search recompute them is not asserted, so those actions return none.
- Opportunities.Controller.Index: a page below 1 is rejected with an error. The controller code that would decide this is not part of this model.
- Opportunities.Revised: the grant rule is an assumption. The code of `save_with_permissions` is not part of this model. Only one case is asserted (spec/controllers/opportunities_controller_spec.rb:364-373): a Public record saved as Shared with users 7 and 8 gets exactly the grants {7, 8}. The model also decides two untested cases. A save that leaves the record with any access other than Shared clears all grants. A save that leaves it Shared replaces the grants with the submitted list, even when that list is empty or the form did not submit the access.
- The account, campaign and contact associations that opportunity create and update make are left out (spec/controllers/opportunities_controller_spec.rb:224-256, 295-311, 344-362).
- The `@stage` hash the opportunities actions expose is left out (spec/controllers/opportunities_controller_spec.rb:33, 102, 175, 206, 331, 506). Its fold is modelled for accounts as `AccountsController.StageHash`.
- Opportunities.Controller.Create: the new record's id must be absent from the table, because the database assigns a fresh id. Id allocation itself is left out.
- Opportunities.Controller.Create: a field the create form leaves out starts as the empty name, the empty stage and Private access. The opportunities table's column defaults are not part of this model, so these values are chosen by the model (Private follows the accounts table's default in db/migrate/004_create_accounts.rb:8).
- RubyString.IsSpace, RubyString.Downcase and RubyString.Capitalize cover ASCII only: no Unicode whitespace or case mapping.
- ApplicationHelper.Tabs compares strings. The source compares a symbol with the session value, and that is left out.
- Routes, the accounts migration, the contacts controller spec, the account-opportunity model spec and the leads view spec are not part of this model. The accounts actions index, new and destroy are left out; they only find, render or delete records.
