# CRM front-end page logic, modelled in Dafny

This project models the page logic of a CRM web front end. The system's users manage
accounts (the account master), convert an account into a lead with order lines, follow leads
through a ten-status pipeline (a table view and a kanban board), mark a lead's ordered items
as executed, and maintain the settings lists: roles, lead statuses, model suggestions,
customization types, inquiry categories and staff. Every list page goes through one shared
table component, which searches, pages and numbers its rows.

Each page keeps its state in React hooks and changes it in event handlers. In this model a
page is a Dafny `class`: its fields are the hook states and its handlers are methods with
`modifies` clauses. A call to the backend becomes a parameter of the handler. The reply is
`Ok(body)` or `Failed`, so both the success path and the `catch` path are modelled. The pure
helpers (the table arithmetic, the order-line totals, the validation messages, the navbar
title, the email check) are functions. Lemmas about those functions state what the pages
promise: the page-button window shows the right pages in order, the validation messages come
in row order, sorting by `order` inserts a status before its equals, and so on.

Modules:

- `Wrappers`, `Lists` and `Text` hold the JavaScript operations the pages rely on:
  - `Wrappers`: optional values and backend replies.
  - `Lists`: `filter` and `slice`.
  - `Text`: `trim`, `toLowerCase`, `split`/`join`, `String(n)` and `padStart`.
- `CrudList` holds the delete-by-id and replace-by-id updates that every settings page repeats.
- `DataTable` models the shared table component.
- `ConvertToLead` models the order-line builder.
- `CreatedDate` models the dd-mm-yyyy date column.
- `LeadStatusConstants` holds the shared status vocabulary.
- `Leads` models the leads page.
- `OrderExecution` models the item checklist dialog.
- `FollowUp` models the follow-up dialog.
- `Navbar` models the breadcrumb title.
- `Login` models the login form.
- `RoleSettings`, `LeadStatusSettings`, `ModuleSuggestion`, `CustomizationType`,
  `InquiryCategory`, `Staff` and `AccountMaster` model the remaining pages.

The leads page has its own status list, and it differs from the shared one in third place:
the page says "Follow Remark" where the shared list says "Follow Up".
`Leads.VocabulariesDiffer` states this difference.

## Model

| member | source | states |
|---|---|---|
| Lists.Filter | src/components/DataTable.tsx:50-56 | `filter` keeps exactly the elements that pass the test, in their original order, and never lengthens the list |
| Lists.JsIndex | src/components/DataTable.tsx:84 | a `slice` bound: kept inside the list, clamped to its length, counted from the end when negative and clamped to 0 |
| Lists.JsSlice | src/components/DataTable.tsx:84 | `slice(start, end)` with bounds inside the list is the sub-sequence between them, of at most `end - start` elements |
| Text.Trim | src/components/DataTable.tsx:48 | `trim()` gives the empty string exactly when the text is all whitespace |
| Text.TrimStart | src/components/DataTable.tsx:48 | `trimStart()`: a suffix starting with a non-space, after whitespace only |
| Text.TrimEnd | src/components/DataTable.tsx:48 | `trimEnd()`: a prefix ending with a non-space, followed by whitespace only |
| Text.TrimmedEmptyAllSpace | src/pages/login.tsx:42 | an empty trim means every character was whitespace |
| Text.TrimmedNonEmpty | src/pages/login.tsx:42 | a non-empty trim comes from text that is not all whitespace |
| Text.TrimStartPadded | src/pages/login.tsx:42 | `trimStart()` drops exactly the whitespace before the first non-space character |
| Text.TrimEndPadded | src/pages/login.tsx:42 | `trimEnd()` drops exactly the whitespace after the last non-space character |
| Text.TrimPadded | src/pages/login.tsx:42 | `trim()` of whitespace, a core with non-space ends, and whitespace gives back the core |
| Text.Utf16Length | src/pages/login.tsx:42 | `length` counts UTF-16 code units: between one and two per character |
| Text.Utf16LengthAppend | src/pages/login.tsx:42 | the UTF-16 length adds over concatenation |
| Text.TrimUtf16Shorter | src/pages/login.tsx:42 | trimming never lengthens a string in UTF-16 code units |
| Text.Lower | src/components/DataTable.tsx:49 | `toLowerCase()` keeps the length and lowers each character |
| Text.Split | src/components/Navbar.tsx:11 | `split(sep)` gives at least one piece, and no piece holds the separator |
| Text.JoinSplit | src/components/Navbar.tsx:10-22 | joining the pieces of a split with the same separator gives back the string |
| Text.SplitJoin | src/components/Navbar.tsx:10-22 | splitting a join of separator-free pieces gives back the pieces |
| Text.SplitConcat | src/components/Navbar.tsx:11 | a split at one separator splits both sides independently |
| Text.NatToDecimal | src/pages/settings/customization-type.tsx:39 | `String(n)` is a non-empty digit string, single-digit exactly below 10, without a leading zero |
| Text.DecimalRoundTrip | src/pages/settings/customization-type.tsx:39 | the digits of `n` read back as `n` |
| Text.PadStart2 | src/pages/settings/customization-type.tsx:39-40 | `padStart(2, "0")` ends with the text and is preceded only by zeros, up to length 2 |
| CrudList.RemoveById | src/pages/settings/staff.tsx:38 | deleting an id keeps exactly the records without that id, in order |
| CrudList.RemoveByIdAbsent | src/pages/settings/staff.tsx:38 | deleting an id nobody has changes nothing |
| CrudList.RemoveByIdUnique | src/pages/settings/staff.tsx:38 | deleting the id of exactly one record removes that record and nothing else |
| CrudList.RemoveByIdIdempotent | src/pages/settings/role.tsx:61 | a second delete of the same id changes nothing |
| CrudList.ReplaceById | src/pages/settings/role.tsx:86 | the update replaces every record with the id by the server's copy and keeps the others |
| CrudList.ReplaceByIdAbsent | src/pages/settings/role.tsx:86 | replacing an id nobody has changes nothing |
| CrudList.ReplaceByIdTwice | src/pages/settings/role.tsx:86 | two updates of one id leave only the second copy |
| CrudList.ReplaceThenRemove | src/pages/settings/role.tsx:86 | an update touches only the edited record |
| CrudList.PrependThenRemove | src/pages/settings/role.tsx:179 | deleting the id of a freshly created record gives the old list back when the id was new |
| CrudList.TotalPagesOr1 | src/pages/settings/role.tsx:155 | a missing or zero page count reads as 1; any other count is kept |
| CrudList.TotalRecordsOr0 | src/pages/settings/role.tsx:156 | a missing record count reads as 0 |
| DataTable.FilteredData | src/components/DataTable.tsx:46-57 | with server paging, server search or a blank query, the data as given; otherwise exactly the rows with a column containing the lower-cased query, in order |
| DataTable.PageCount | src/components/DataTable.tsx:59 | the least page count of at least 1 whose pages hold all rows |
| DataTable.TotalPagesCalc | src/components/DataTable.tsx:59 | the parent's count under server paging, otherwise the page count of the filtered rows |
| DataTable.StartIndex | src/components/DataTable.tsx:83 | the first row index of a page from 1 up is non-negative |
| DataTable.PaginatedData | src/components/DataTable.tsx:84 | under client paging at most one page of rows, exactly the filtered rows of that page |
| DataTable.TotalRecords | src/components/DataTable.tsx:86 | the parent's non-zero count under server paging, otherwise the number of rows |
| DataTable.RangeEnd | src/components/DataTable.tsx:88 | never past the filtered rows or the end of the page |
| DataTable.StartWithinRows | src/components/DataTable.tsx:83 | on a valid page of non-empty data, the first row index lies inside the data |
| DataTable.ClientRangeMatchesRows | src/components/DataTable.tsx:83-88 | on a page with rows, "Showing a-b" names exactly the rows rendered |
| DataTable.RangeStartPastRangeEnd | src/components/DataTable.tsx:87 | as written, a search with no hit on non-empty data labels the range "1-0 of 0" |
| DataTable.RangeCorrectedConsistent | src/components/DataTable.tsx:87-88 | the corrected start is 0 exactly when no row matches and never passes the end |
| DataTable.PageOfRow | src/components/DataTable.tsx:83 | row `k` lies on page `k / size + 1`, inside the page count |
| DataTable.RowOnItsPage | src/components/DataTable.tsx:84 | every filtered row is rendered on its page at its offset |
| DataTable.NavigationStaysInRange | src/components/DataTable.tsx:168-170 | Prev and Next stay within the pages and are disabled exactly on the first and last page |
| DataTable.WindowIncreasing | src/components/DataTable.tsx:176-257 | the page buttons ascend |
| DataTable.WindowShown | src/components/DataTable.tsx:178-181 | the buttons are exactly the first page, the last page and the neighbours of the current one |
| DataTable.PushLeft | src/components/DataTable.tsx:183-213 | the buttons before the current one: none on page 1, page 1 on page 2, pages 1 and 2 on page 3, otherwise page 1, dots and the previous page |
| DataTable.PushRight | src/components/DataTable.tsx:224-256 | the buttons after the current one, appended: none on the last page, the last page one before it, the last two pages two before it, otherwise the next page, dots and the last page |
| DataTable.WindowEnds | src/components/DataTable.tsx:183-193 | the window starts at page 1 and ends at the last page |
| DataTable.WindowCurrent | src/components/DataTable.tsx:215-222 | exactly the current page's button is highlighted |
| DataTable.WindowGaps | src/components/DataTable.tsx:195-242 | buttons side by side are consecutive pages, and each ellipsis hides at least one page |
| DataTable.WindowMarks | src/components/DataTable.tsx:195-242 | the left ellipsis appears exactly past page 3, the right one exactly before the last three |
| DataTable.PageButtons | src/components/DataTable.tsx:176-257 | the pushes in the source's order build the window the lemmas describe |
| DataTable.TableState.constructor | src/components/DataTable.tsx:40-41 | empty query, page 1 |
| DataTable.TableState.ClampPage | src/components/DataTable.tsx:71-75 | a client-side page past the last is lowered to the last, so the page stays in range |
| DataTable.TableState.ChangeQuery | src/components/DataTable.tsx:71-81 | the query is set; without server search the page returns to 1; the page stays in range |
| DataTable.TableState.HandlePageChange | src/components/DataTable.tsx:90-96 | under server paging the parent is told, otherwise the table's page changes |
| ConvertToLead.RowTotal | src/pages/convert-to-lead.tsx:130-134 | the GST-inclusive price of the quantity; the subtotal without GST; zero for no quantity or no rate |
| ConvertToLead.DefaultRow | src/pages/convert-to-lead.tsx:66-80 | a new row: quantity 1, zero rate, GST and total, nothing chosen |
| ConvertToLead.EditsKeepTotalsCurrent | src/pages/convert-to-lead.tsx:142-171 | with every total current, every edit but choosing a category keeps every total current |
| ConvertToLead.FindModel | src/pages/convert-to-lead.tsx:157 | the first model with the id, or none exactly when no model has it |
| ConvertToLead.ApplyEdit | src/pages/convert-to-lead.tsx:145-168 | each field edit with its resets: a category clears the model, rate and GST; a found model sets rate, GST and total; quantity, rate and GST recompute the total |
| ConvertToLead.CategoryChangeKeepsStaleTotal | src/pages/convert-to-lead.tsx:148-153 | a new category zeroes rate and GST but keeps the old total |
| ConvertToLead.UpdateProducts | src/pages/convert-to-lead.tsx:142-171 | the edit reaches the rows with the id only |
| ConvertToLead.SumTotalsAppend | src/pages/convert-to-lead.tsx:137 | the sum of totals adds over concatenation |
| ConvertToLead.AddingRowKeepsGrandTotal | src/pages/convert-to-lead.tsx:182-199 | adding a default row leaves the grand total unchanged |
| ConvertToLead.RemovingRowSubtractsItsTotal | src/pages/convert-to-lead.tsx:136-140 | removing a row lowers the grand total by that row's total |
| ConvertToLead.UniqueIdsWithout | src/pages/convert-to-lead.tsx:203 | dropping a row keeps ids unique |
| ConvertToLead.RemovedById | src/pages/convert-to-lead.tsx:203 | with unique ids, the filter removes exactly the row with the id |
| ConvertToLead.MessageTextNumbered | src/pages/convert-to-lead.tsx:216-220 | a row message starts with "Product n: " |
| ConvertToLead.HeaderErrorsEmpty | src/pages/convert-to-lead.tsx:210-213 | no header message exactly when the account, lead date, client type and delivery date are set |
| ConvertToLead.RowErrorsEmpty | src/pages/convert-to-lead.tsx:216-220 | no row message exactly when the row is complete with a positive quantity; each message names the row |
| ConvertToLead.AllRowErrorsOrdered | src/pages/convert-to-lead.tsx:215-221 | row messages name rows in range and never go back to an earlier row |
| ConvertToLead.AllRowErrorsEmpty | src/pages/convert-to-lead.tsx:215-221 | no row message exactly when every row passes |
| ConvertToLead.AllRowErrorsLength | src/pages/convert-to-lead.tsx:215-221 | at most five messages per row |
| ConvertToLead.CheckHeader | src/pages/convert-to-lead.tsx:210-213 | the header pushes give the header messages, empty exactly for an accepted header |
| ConvertToLead.CheckRow | src/pages/convert-to-lead.tsx:216-220 | one row's pushes give its messages, empty exactly for an accepted row |
| ConvertToLead.Validate | src/pages/convert-to-lead.tsx:208-221 | header messages then row messages in row order; empty exactly when everything passes |
| ConvertToLead.PayloadItems | src/pages/convert-to-lead.tsx:232-246 | one item per row, the location only for personalised rows, the name only for the others |
| ConvertToLead.LeadForm.constructor | src/pages/convert-to-lead.tsx:64-80 | one default row, no messages, no cached models |
| ConvertToLead.LeadForm.RecomputeTotals | src/pages/convert-to-lead.tsx:173-180 | every row's total recomputed, nothing else changed |
| ConvertToLead.LeadForm.UpdateProduct | src/pages/convert-to-lead.tsx:142-171 | the rows become the edited rows; ids stay unique |
| ConvertToLead.LeadForm.CacheModels | src/pages/convert-to-lead.tsx:118-128 | a cached category is not fetched again; a reply stores its models or an empty list |
| ConvertToLead.LeadForm.AddProduct | src/pages/convert-to-lead.tsx:182-199 | a default row appended |
| ConvertToLead.LeadForm.RemoveProduct | src/pages/convert-to-lead.tsx:201-205 | the last row is never removed; otherwise exactly the row with the id goes |
| ConvertToLead.LeadForm.HandleConvertLead | src/pages/convert-to-lead.tsx:207-270 | the messages are shown; the lead is sent exactly when there are none; the navigation follows a successful post |
| CreatedDate.RenderCreatedAt | src/pages/settings/customization-type.tsx:36-43 | "-" for a missing date, otherwise day and month padded to two places around dashes |
| CreatedDate.PaddedReadsBack | src/pages/settings/customization-type.tsx:39-40 | a padded number below 100 is two digits reading back as the number |
| CreatedDate.RenderedDateReadsBack | src/pages/settings/inquiry-category.tsx:38-45 | a rendered date is dd-mm-yyyy whose fields read back as day, one-based month and year |
| LeadStatusConstants.LeadStatusesOrder | src/constants/leadStatus.ts:1-12 | ten distinct statuses in pipeline order |
| LeadStatusConstants.StatusColorsTotal | src/constants/leadStatus.ts:16-27 | a colour for every status and for nothing else |
| LeadStatusConstants.StatusColorsInjective | src/constants/leadStatus.ts:16-27 | distinct statuses get distinct colours |
| Leads.StatusesOrder | src/pages/leads.tsx:39-50 | the page's ten distinct statuses, "Follow Remark" third |
| Leads.StatusColorsTotal | src/pages/leads.tsx:52-63 | every status of the page has a colour, and nothing else has one |
| Leads.VocabulariesDiffer | src/pages/leads.tsx:39-50 | the page's list is the shared one except "Follow Remark" for "Follow Up" |
| Leads.SetStatus | src/pages/leads.tsx:109 | the status replaced on the leads with the id, the others unchanged |
| Leads.SetStatusUndo | src/pages/leads.tsx:109 | changing a lead back to its status undoes the change |
| Leads.ByStatus | src/pages/leads.tsx:121-123 | a column holds exactly the leads with its status, in list order |
| Leads.MovedLeadColumn | src/pages/leads.tsx:358-360 | any target status is allowed, and the lead then sits in exactly that column |
| Leads.ExactlyOneColumn | src/pages/leads.tsx:217-225 | a lead with a known status is in exactly one column |
| Leads.KanbanPartition | src/pages/leads.tsx:322 | the column badges add up to the number of leads with a column |
| Leads.KanbanCovers | src/pages/leads.tsx:322 | with every status known, the badges add up to the number of leads |
| Leads.InitialKanbanPages | src/pages/leads.tsx:96-99 | page 1 for every status and for nothing else |
| Leads.LeadsPage.constructor | src/pages/leads.tsx:68-72 | table view, no leads, no selected lead |
| Leads.LeadsPage.HandleViewLead | src/pages/leads.tsx:116-119 | the details dialog opens on the lead |
| Leads.LeadsPage.CloseViewDialog | src/pages/leads.tsx:233 | the details dialog closes |
| Leads.LeadsPage.FetchLeads | src/pages/leads.tsx:83-90 | the reply's list or `[]`; a failure changes nothing |
| Leads.LeadsPage.FetchKanbanLeads | src/pages/leads.tsx:92-104 | the reply's list and every column on page 1; a failure changes nothing |
| Leads.LeadsPage.SetView | src/pages/leads.tsx:75-81 | the current view again fetches nothing; a new view loads the list the way that view loads it, the kanban view with every status column on page 1 |
| Leads.LeadsPage.HandleStatusChange | src/pages/leads.tsx:106-114 | the PUT carries the new status, which is set locally on success only |
| OrderExecution.FindItem | src/components/OrderExecutionDialog.tsx:32 | the first item with the id, or none exactly when no item has it |
| OrderExecution.ToggleItem | src/components/OrderExecutionDialog.tsx:48-50 | the done flag flipped on the items with the id, others unchanged |
| OrderExecution.ToggleTwice | src/components/OrderExecutionDialog.tsx:48-50 | two toggles of one id restore the list |
| OrderExecution.DoneCount | src/components/OrderExecutionDialog.tsx:61 | at most the number of items |
| OrderExecution.PendingCount | src/components/OrderExecutionDialog.tsx:62 | done plus pending is the number of items |
| OrderExecution.PendingCountsNotDone | src/components/OrderExecutionDialog.tsx:61-62 | the pending count is the number of items not done |
| OrderExecution.ToggleChangesDoneCount | src/components/OrderExecutionDialog.tsx:48-62 | toggling the one item with an id changes the done count by one |
| OrderExecution.Dialog.constructor | src/components/OrderExecutionDialog.tsx:24-27 | the given items, no request running, no confirmation |
| OrderExecution.Dialog.PerformToggle | src/components/OrderExecutionDialog.tsx:42-59 | the PATCH is sent while loading; success flips the item and refreshes; loading always ends |
| OrderExecution.Dialog.HandleToggle | src/components/OrderExecutionDialog.tsx:31-40 | a pending item only asks for confirmation; anything else is toggled at once |
| OrderExecution.Dialog.Confirm | src/components/OrderExecutionDialog.tsx:182-187 | a stored id is toggled; the confirmation closes either way |
| OrderExecution.Dialog.Cancel | src/components/OrderExecutionDialog.tsx:176 | the confirmation closes with nothing toggled |
| OrderExecution.MarkDoneScenario | src/components/OrderExecutionDialog.tsx:31-59 | toggle then confirm marks the one pending item done and adds one to the done count |
| FollowUp.FollowUpDialog.constructor | src/components/FollowUpDialog.tsx:11-12 | both fields empty |
| FollowUp.FollowUpDialog.HandleSubmit | src/components/FollowUpDialog.tsx:16-23 | with both fields filled, they are handed over and cleared; otherwise nothing happens |
| Navbar.CapitalizeWord | src/components/Navbar.tsx:18 | the first letter upper-cased, the rest unchanged |
| Navbar.SegmentWords | src/components/Navbar.tsx:14-19 | one capitalized word per dash-separated piece |
| Navbar.Segments | src/components/Navbar.tsx:11-12 | the non-empty path segments, in order |
| Navbar.TitleFromPath | src/components/Navbar.tsx:7-23 | "Dashboard" for the root; otherwise the segment titles joined by " > " |
| Navbar.SegmentsAroundSlash | src/components/Navbar.tsx:11-12 | a slash separates segments and adds none |
| Navbar.EmptySegmentsDropped | src/components/Navbar.tsx:12 | leading, trailing and doubled slashes give no segment |
| Navbar.SegmentTitleAvoids | src/components/Navbar.tsx:13-21 | a segment title adds no character beyond spaces and capitals |
| Navbar.SegmentTitleWords | src/components/Navbar.tsx:20 | the words of a title are separated by exactly one space |
| Navbar.SeparatorCount | src/components/Navbar.tsx:22 | one " > " per pair of neighbouring segments |
| Navbar.OneWordTitle | src/components/Navbar.tsx:13-21 | a dashless segment's title is the word capitalized |
| Navbar.TwoWordTitle | src/components/Navbar.tsx:13-21 | a one-dash segment's title is both words capitalized with one space |
| Navbar.TwoSegmentTitle | src/components/Navbar.tsx:10-22 | a two-segment path's title is both segment titles around " > " |
| Login.FirstIndex | src/pages/login.tsx:15 | the position of the first occurrence, or the length when there is none |
| Login.ValidEmailMatchesPattern | src/pages/login.tsx:15 | the one-pass check accepts exactly what the email pattern matches |
| Login.PasswordLongEnough | src/pages/login.tsx:42 | at least six UTF-16 code units after trimming; a password that passes is not all whitespace and has at least three characters |
| Login.AstralPasswordCountsTwice | src/pages/login.tsx:42 | three emoji pass, each counting as two code units |
| Login.PaddedPasswordRejected | src/pages/login.tsx:42 | a password of whitespace only is too short however long |
| Login.PaddedPasswordJudgedByCore | src/pages/login.tsx:42 | with whitespace on both sides, a password is long enough exactly when its non-space core has six UTF-16 code units |
| Login.FailureText | src/pages/login.tsx:74-76 | the server's message when there is one, otherwise the fallback |
| Login.StorageAfterLogin | src/pages/login.tsx:58-65 | the token stored, and the email stored or removed as chosen |
| Login.RestoredEmail | src/pages/login.tsx:28-31 | the stored email when it is non-empty |
| Login.RememberedEmailNeverRestored | src/pages/login.tsx:28 | as written, a remembered email is never read back |
| Login.RestoreEmailCorrected | src/pages/login.tsx:62 | reading the written key restores a remembered email |
| Login.ForgetEmailCorrected | src/pages/login.tsx:64 | a login that does not remember leaves nothing to restore |
| Login.LoginPage.constructor | src/pages/login.tsx:19-23 | empty fields, "remember me" on, not loading |
| Login.LoginPage.RestoreEmail | src/pages/login.tsx:27-32 | a non-empty value under "crm:rememberEmail" fills the field; without that key the field is unchanged, whatever a login stored under "rememberEmail" |
| Login.LoginPage.StoreLogin | src/pages/login.tsx:58-65 | storage becomes the storage after login |
| Login.LoginPage.HandleSubmit | src/pages/login.tsx:34-80 | a bad email or short password stops without a request; otherwise post, store on success, loading always ends |
| RoleSettings.ToggleStatus | src/pages/settings/role.tsx:190-197 | a present status is removed everywhere, an absent one is appended |
| RoleSettings.ToggleAbsentTwice | src/pages/settings/role.tsx:190-197 | toggling an absent status twice restores the list |
| RoleSettings.TogglePresentTwice | src/pages/settings/role.tsx:190-197 | toggling a present status twice leaves one copy at the end |
| RoleSettings.RolePage.constructor | src/pages/settings/role.tsx:23-41 | empty lists, the default form, nothing open |
| RoleSettings.RolePage.FetchAllRoles | src/pages/settings/role.tsx:150-162 | the reply's page of roles with the count fallbacks; loading always ends |
| RoleSettings.RolePage.FetchStatuses | src/pages/settings/role.tsx:43-50 | the reply's statuses; a failure changes nothing |
| RoleSettings.RolePage.AskDelete | src/pages/settings/role.tsx:121 | the confirmation opens on the row's id |
| RoleSettings.RolePage.HandleDelete | src/pages/settings/role.tsx:56-67 | no id: nothing; success: the role removed and the dialog closed |
| RoleSettings.RolePage.HandleEdit | src/pages/settings/role.tsx:69-79 | the form takes the row; a missing view type reads as "view_own" |
| RoleSettings.RolePage.ResetForm | src/pages/settings/role.tsx:139-148 | the default form, out of edit mode |
| RoleSettings.RolePage.HandleUpdate | src/pages/settings/role.tsx:81-94 | no id: nothing; success: the role replaced and the form reset |
| RoleSettings.RolePage.HandleSubmit | src/pages/settings/role.tsx:168-171 | submitting the form opens the confirmation |
| RoleSettings.RolePage.CloseConfirm | src/pages/settings/role.tsx:380 | closing the confirmation sends nothing |
| RoleSettings.RolePage.ConfirmSubmit | src/pages/settings/role.tsx:173-188 | edit mode: the PUT, and on success the role replaced, the dialog closed, the form reset and edit mode left; no id: nothing changes; create: the POST, and on success the copy prepended and the form reset; a failure changes nothing; the confirmation closes |
| RoleSettings.RolePage.ToggleFormStatus | src/pages/settings/role.tsx:190-197 | the form's statuses toggled |
| RoleSettings.RolePage.SelectAll | src/pages/settings/role.tsx:280 | the form gets every fetched status |
| RoleSettings.RolePage.ClearAll | src/pages/settings/role.tsx:288 | the form gets no status |
| LeadStatusSettings.InitialDataSorted | src/pages/settings/lead-status.tsx:12-19 | the initial rows are in ascending order |
| LeadStatusSettings.Insert | src/pages/settings/lead-status.tsx:69 | insertion adds one row |
| LeadStatusSettings.InsertPermutes | src/pages/settings/lead-status.tsx:69 | insertion is a permutation of the list plus the row |
| LeadStatusSettings.InsertSorted | src/pages/settings/lead-status.tsx:69 | inserting into a sorted list keeps it sorted |
| LeadStatusSettings.SortByOrder | src/pages/settings/lead-status.tsx:69 | the sort is ordered and a permutation |
| LeadStatusSettings.SortSortedIdentity | src/pages/settings/lead-status.tsx:69 | sorting a sorted list changes nothing |
| LeadStatusSettings.InsertPosition | src/pages/settings/lead-status.tsx:61-69 | the new row goes after the smaller orders and before its equals |
| LeadStatusSettings.SubmitInserts | src/pages/settings/lead-status.tsx:61-69 | on a sorted list, prepend-and-sort is inserting before the equals |
| LeadStatusSettings.LeadStatusPage.constructor | src/pages/settings/lead-status.tsx:22-29 | the initial rows, the default form, closed |
| LeadStatusSettings.LeadStatusPage.ResetForm | src/pages/settings/lead-status.tsx:51-56 | the default form |
| LeadStatusSettings.LeadStatusPage.HandleSubmit | src/pages/settings/lead-status.tsx:58-74 | the list gains exactly the form's row and stays sorted; the dialog closes |
| ModuleSuggestion.Payload | src/pages/settings/module-suggestion.tsx:129-135 | the form's fields, GST as a number |
| ModuleSuggestion.GstText | src/pages/settings/module-suggestion.tsx:101-111 | a GST of 0 shows as "18", a positive one as its digits |
| ModuleSuggestion.GstTextReadsBack | src/pages/settings/module-suggestion.tsx:101-111 | the shown GST reads back as itself, or as 18 for 0 |
| ModuleSuggestion.EditForm | src/pages/settings/module-suggestion.tsx:101-111 | the form takes the row's fields and category id |
| ModuleSuggestion.FindCategory | src/pages/settings/module-suggestion.tsx:139 | the first category with the id, or none exactly when no category has it |
| ModuleSuggestion.Populated | src/pages/settings/module-suggestion.tsx:139-143 | the saved model, only its category possibly replaced |
| ModuleSuggestion.PopulatedCategory | src/pages/settings/module-suggestion.tsx:139-143 | the local category when the list has the id, the server's otherwise |
| ModuleSuggestion.ModelSuggestionPage.constructor | src/pages/settings/module-suggestion.tsx:27-45 | empty lists, the default form with GST "18" |
| ModuleSuggestion.ModelSuggestionPage.ResetForm | src/pages/settings/module-suggestion.tsx:90-99 | the default form, out of edit mode |
| ModuleSuggestion.ModelSuggestionPage.HandleEdit | src/pages/settings/module-suggestion.tsx:101-111 | the edit form of the row, in edit mode, open |
| ModuleSuggestion.ModelSuggestionPage.AskDelete | src/pages/settings/module-suggestion.tsx:72 | the confirmation opens on the row's id |
| ModuleSuggestion.ModelSuggestionPage.HandleDelete | src/pages/settings/module-suggestion.tsx:113-123 | no id: nothing; success: the models with the id removed |
| ModuleSuggestion.ModelSuggestionPage.FetchCategories | src/pages/settings/module-suggestion.tsx:155-162 | the reply's categories; a failure changes nothing |
| ModuleSuggestion.ModelSuggestionPage.FetchModels | src/pages/settings/module-suggestion.tsx:165-177 | the reply's page with the count fallbacks; loading always ends |
| ModuleSuggestion.ModelSuggestionPage.HandleUpdate | src/pages/settings/module-suggestion.tsx:125-152 | no id: nothing; success: the model replaced by the populated copy and the form reset |
| ModuleSuggestion.ModelSuggestionPage.HandleSubmit | src/pages/settings/module-suggestion.tsx:184-187 | submitting the form opens the confirmation |
| ModuleSuggestion.ModelSuggestionPage.CloseConfirm | src/pages/settings/module-suggestion.tsx:375 | closing the confirmation sends nothing |
| ModuleSuggestion.ModelSuggestionPage.ConfirmSubmit | src/pages/settings/module-suggestion.tsx:189-218 | edit mode: the PUT, and on success the model replaced by the populated copy, the dialog closed, the form reset and edit mode left; no id: nothing changes; create: the POST, and on success the populated copy prepended and the form reset; a failure changes nothing |
| CustomizationType.CustomizationTypePage.constructor | src/pages/settings/customization-type.tsx:19-28 | empty list, empty form, nothing open |
| CustomizationType.CustomizationTypePage.ResetForm | src/pages/settings/customization-type.tsx:69-72 | empty name, out of edit mode |
| CustomizationType.CustomizationTypePage.HandleEdit | src/pages/settings/customization-type.tsx:74-78 | the row's name, in edit mode, open |
| CustomizationType.CustomizationTypePage.AskDelete | src/pages/settings/customization-type.tsx:51 | the confirmation opens on the row's id |
| CustomizationType.CustomizationTypePage.HandleDelete | src/pages/settings/customization-type.tsx:80-90 | no id: nothing; success: the rows with the id removed |
| CustomizationType.CustomizationTypePage.HandleUpdate | src/pages/settings/customization-type.tsx:92-105 | no id: nothing; success: the row replaced and the form reset |
| CustomizationType.CustomizationTypePage.FetchRows | src/pages/settings/customization-type.tsx:107-120 | the reply's page with the count fallbacks |
| CustomizationType.CustomizationTypePage.HandleSubmit | src/pages/settings/customization-type.tsx:122-125 | submitting the form opens the confirmation |
| CustomizationType.CustomizationTypePage.CloseConfirm | src/pages/settings/customization-type.tsx:233 | closing the confirmation sends nothing |
| CustomizationType.CustomizationTypePage.ConfirmSubmit | src/pages/settings/customization-type.tsx:127-142 | edit mode: the PUT, and on success the row replaced, the dialog closed, the name cleared and edit mode left; no id: nothing changes; create: the POST, and on success the copy prepended and the form reset; a failure changes nothing |
| InquiryCategory.InquiryCategoryPage.constructor | src/pages/settings/inquiry-category.tsx:20-30 | empty list, loading shown, nothing open |
| InquiryCategory.InquiryCategoryPage.ResetForm | src/pages/settings/inquiry-category.tsx:71-74 | empty name, out of edit mode |
| InquiryCategory.InquiryCategoryPage.HandleEdit | src/pages/settings/inquiry-category.tsx:76-80 | the row's name, in edit mode, open |
| InquiryCategory.InquiryCategoryPage.AskDelete | src/pages/settings/inquiry-category.tsx:53 | the confirmation opens on the row's id |
| InquiryCategory.InquiryCategoryPage.HandleDelete | src/pages/settings/inquiry-category.tsx:82-92 | no id: nothing; success: the categories with the id removed |
| InquiryCategory.InquiryCategoryPage.HandleUpdate | src/pages/settings/inquiry-category.tsx:94-107 | no id: nothing; success: the row replaced and the form reset |
| InquiryCategory.InquiryCategoryPage.FetchCategories | src/pages/settings/inquiry-category.tsx:109-125 | the reply's page with the count fallbacks; loading always ends |
| InquiryCategory.InquiryCategoryPage.HandleSubmit | src/pages/settings/inquiry-category.tsx:127-130 | submitting the form opens the confirmation |
| InquiryCategory.InquiryCategoryPage.CloseConfirm | src/pages/settings/inquiry-category.tsx:242 | closing the confirmation sends nothing |
| InquiryCategory.InquiryCategoryPage.ConfirmSubmit | src/pages/settings/inquiry-category.tsx:132-147 | edit mode: the PUT, and on success the category replaced, the dialog closed, the name cleared and edit mode left; no id: nothing changes; create: the POST, and on success the copy prepended and the form reset; a failure changes nothing |
| Staff.StaffPage.constructor | src/pages/settings/staff.tsx:21-31 | empty list and form, nothing open |
| Staff.StaffPage.ResetForm | src/pages/settings/staff.tsx:66-72 | all four fields cleared |
| Staff.StaffPage.AskDelete | src/pages/settings/staff.tsx:55 | the confirmation opens on the row's id |
| Staff.StaffPage.HandleDelete | src/pages/settings/staff.tsx:33-43 | no id: nothing; success: the member removed |
| Staff.StaffPage.FetchAllStaff | src/pages/settings/staff.tsx:75-85 | the reply's list; loading always ends |
| Staff.StaffPage.HandleSubmit | src/pages/settings/staff.tsx:91-105 | the form posted; success prepends the server's copy and clears the form |
| AccountMaster.VisibleAccounts | src/pages/account-master.tsx:86-95 | in "view own" mode exactly the accounts assigned to the staff member, in order; otherwise all |
| AccountMaster.VisibleAccountsIdempotent | src/pages/account-master.tsx:89-93 | narrowing twice is narrowing once |
| AccountMaster.ViewOwnNoneAssigned | src/pages/account-master.tsx:89-93 | with nothing assigned, "view own" shows nothing |
| AccountMaster.AccessStaff | src/pages/account-master.tsx:67-69 | exactly the members whose role grants the account master, `[]` without data |
| AccountMaster.PayloadOf | src/pages/account-master.tsx:227-244 | the form's fields; an empty assignee sent as null |
| AccountMaster.AddressPart | src/pages/account-master.tsx:193-197 | a missing address or part reads as "" |
| AccountMaster.EditFormOf | src/pages/account-master.tsx:189-205 | the row's fields; each of the five address parts, the source, the remark and the assignee id as "" when missing |
| AccountMaster.EditThenSave | src/pages/account-master.tsx:189-244 | saving an unchanged edit sends back the row's assignee (null when it had none), its plain fields including `sourcebyTypeOfClient`, and its address with every missing part as "" |
| AccountMaster.AccountMasterPage.constructor | src/pages/account-master.tsx:47-56 | empty lists, loading shown, nothing open |
| AccountMaster.AccountMasterPage.FetchAccounts | src/pages/account-master.tsx:76-103 | the visible accounts with the count fallbacks; loading always ends |
| AccountMaster.AccountMasterPage.FetchStaff | src/pages/account-master.tsx:63-74 | the staff with account-master access; a failure changes nothing |
| AccountMaster.AccountMasterPage.ResetForm | src/pages/account-master.tsx:169-187 | the empty form, out of edit mode |
| AccountMaster.AccountMasterPage.HandleEdit | src/pages/account-master.tsx:189-209 | the edit form of the row, in edit mode, open |
| AccountMaster.AccountMasterPage.OpenAdd | src/pages/account-master.tsx:307-312 | the empty form, out of edit mode, the dialog open and the dropdown reloaded |
| AccountMaster.AccountMasterPage.AskDelete | src/pages/account-master.tsx:151 | the confirmation opens on the row's id |
| AccountMaster.AccountMasterPage.HandleDelete | src/pages/account-master.tsx:211-221 | no id: nothing; success: the accounts with the id removed |
| AccountMaster.AccountMasterPage.HandleUpdate | src/pages/account-master.tsx:223-254 | no id: nothing changes; success: the visible accounts and the page and record counts of the refetch (kept when it fails), loading down, the dialog closed and the form reset; a failure changes nothing |
| AccountMaster.AccountMasterPage.HandleSubmit | src/pages/account-master.tsx:256-259 | submitting the form opens the confirmation |
| AccountMaster.AccountMasterPage.CloseConfirm | src/pages/account-master.tsx:607 | closing the confirmation sends nothing |
| AccountMaster.AccountMasterPage.ConfirmSubmit | src/pages/account-master.tsx:261-301 | edit mode as `HandleUpdate`; create: the POST, and on success the refetched accounts, page and record counts (kept when the refetch fails), loading down, the dialog closed and the form reset; a failure changes nothing |

## Definitions

These definitions carry no contract of their own. The contracts and lemmas in the table above
are stated in terms of them.

- `ConvertToLead.SumTotals`, `ConvertToLead.GrandTotal`: the sum of the row totals plus shipping (src/pages/convert-to-lead.tsx:136-140).
- `ConvertToLead.HeaderErrors`, `ConvertToLead.RowErrors`, `ConvertToLead.AllRowErrors`, `ConvertToLead.MessageText`: the validation messages and their texts (src/pages/convert-to-lead.tsx:208-221).
- `DataTable.ServerPagination`, `DataTable.ServerSearch`: the two server modes (src/components/DataTable.tsx:43-44).
- `DataTable.CellMatches`, `DataTable.RowMatches`: the client search test (src/components/DataTable.tsx:49-56).
- `DataTable.CurrentPageCalc`: the page shown (src/components/DataTable.tsx:60).
- `DataTable.RangeStart`: the range label's first number as written (src/components/DataTable.tsx:87); `DataTable.RangeStartCorrected` is its corrected form. Both are used by the Findings lemmas.
- `DataTable.PrevTarget`, `DataTable.NextTarget`: the targets of the Prev and Next buttons (src/components/DataTable.tsx:168, 260).
- `Login.EmailPattern`, `Login.ValidEmail`: the email pattern and the one-pass check of it (src/pages/login.tsx:15, 37).
- `Leads.STATUSES`, `Leads.STATUS_COLORS`: the page's status list and colours (src/pages/leads.tsx:39-63).
- `LeadStatusConstants.LEAD_STATUSES`, `LeadStatusConstants.STATUS_COLORS`: the shared status list and colours (src/constants/leadStatus.ts:1-27).
- `LeadStatusSettings.InitialData`: the initial status rows (src/pages/settings/lead-status.tsx:12-19).
- `AccountMaster.AssignedTo`, `AccountMaster.HasAccountMasterAccess`, `AccountMaster.ViewOwn`: the tests that `fetchStaff` and `fetchAccounts` filter by (src/pages/account-master.tsx:67-93).
- `Text.Join`, `Text.IntToDecimal`, `Text.IsAstral`: `join`, `String(n)` on integers, and the characters that `length` counts twice.
- `Text.IsJsSpace`, `Text.AllSpace`: the whitespace set that `trim` strips and `\s` matches (src/components/DataTable.tsx:48, src/pages/login.tsx:15, 42).
- `Text.LowerChar`, `Text.UpperChar`: one character's ASCII case mapping (src/components/DataTable.tsx:49, src/components/Navbar.tsx:18).
- `Text.OccursAt`, `Text.Contains`: `includes` (src/components/DataTable.tsx:54).
- `Wrappers.Truthy`, `Wrappers.OrEmpty`, `Wrappers.Option.GetOr`: the `!x`, `x || ""` and `x || []` tests (src/pages/settings/inquiry-category.tsx:83, src/pages/account-master.tsx:86, 193-204).
- `Navbar.SegmentTitle`: one segment's words, capitalized and joined by spaces (src/components/Navbar.tsx:14-20).
- `FollowUp.CanSubmit`: the `date && description` test (src/components/FollowUpDialog.tsx:18).
- `Leads.HasStatus`: the column filter's test (src/pages/leads.tsx:122).
- `ConvertToLead.HasAccount`: the account id test (src/pages/convert-to-lead.tsx:210).
- `ConvertToLead.ProblemText`: the texts of the row messages (src/pages/convert-to-lead.tsx:216-220).
- `ConvertToLead.CachedModels`: the models cached for a category, or none (src/pages/convert-to-lead.tsx:156).
- `ConvertToLead.TotalIsCurrent`: a row's stored total equals `calculateTotal` of its numbers (src/pages/convert-to-lead.tsx:130-134).
- `ConvertToLead.IfFails`, `ConvertToLead.HeaderOk`, `ConvertToLead.RowOk`: one conditional `push`, and the header and row checks passing (src/pages/convert-to-lead.tsx:210-220).
- `ConvertToLead.IdIsNot`, `CrudList.HasNotId`, `RoleSettings.IsNot`: the `x => x._id !== id` and `s => s !== status` filter tests (src/pages/convert-to-lead.tsx:203, src/pages/settings/role.tsx:61, 194).
- `AccountMaster.AccountId`, `RoleSettings.RoleId`, `CustomizationType.RowId`, `InquiryCategory.RowId`, `ModuleSuggestion.ModelId`, `Staff.StaffId`: the `_id` field each list is keyed by.
- `AccountMaster.EmptyForm`, `RoleSettings.EmptyForm`, `Staff.EmptyForm`, `ModuleSuggestion.DefaultForm`, `LeadStatusSettings.DefaultForm`, `CrudList.NotEditing`: the initial form and edit-mode values (src/pages/account-master.tsx:105, src/pages/settings/role.tsx:35, src/pages/settings/staff.tsx:26, src/pages/settings/module-suggestion.tsx:39, src/pages/settings/lead-status.tsx:25).
- `AccountMaster.VIEW_OWN`: the stored view type that narrows the list (src/pages/account-master.tsx:89).
- `Login.TOKEN_KEY`, `Login.REMEMBER_KEY`, `Login.RESTORE_KEY_AS_WRITTEN`: the storage keys (src/pages/login.tsx:28, 58, 62).
- `Login.RunChar`, `Login.MatchesAt`: the email pattern's character class and its match at given positions (src/pages/login.tsx:15).
- `Navbar.IsNonEmpty`: `filter(Boolean)` on the path pieces (src/components/Navbar.tsx:12).
- `OrderExecution.IsDone`, `OrderExecution.IsPending`: the item tests the counts filter by (src/components/OrderExecutionDialog.tsx:61).
- `OrderExecution.Dialog.leadId`: the lead the dialog's requests name (src/components/OrderExecutionDialog.tsx:24, 45).
- `Leads.InStatuses`: a lead whose status has a column.

The members not named anywhere in this file are proof helpers: shapes, counts and lemmas that
the proofs of the listed members use, stating nothing about the source on their own.


## Left out

- Backend calls are not modelled as I/O. Each reply is a parameter of its handler: `Ok(body)` or `Failed`. Error-message toasts are modelled only where the page's logic picks a text (the login failure).
- Browser storage is a `map<string, string>`. The clock (`Date.now()` ids) and the router (`router.push`, the 800 ms login redirect) are left out; handlers report a navigation as a boolean where the source navigates.
- DataTable's debounced `onSearch` call (src/components/DataTable.tsx:62-69) is left out, because it runs on a 500 ms timer. The model keeps the query and the page but not the delayed callback.
- DataTable's rows are the column values already turned into text by `String(value)`. The page size is positive (every caller passes 10).
- `toLowerCase`/`toUpperCase` are modelled on ASCII letters only. Unicode case mapping is out of scope.
- `Number(...)` and `parseFloat(...)` stay symbolic (`NumberOf(text)`), or the parsed value is an input. Money is exact `real`, not IEEE floating point.
- ConvertToLead.PayloadItems: keeps the row's numbers and does not model their `toString()` conversions in the payload.
- CreatedDate.RenderCreatedAt: takes the calendar fields of `new Date(value)` as input, because date parsing and time zones are not modelled.
- The dropdown loads of the convert-to-lead page (`fetchAccountData`, `fetchInquiryCategories`, `fetchCustomizationTypes`) are left out: they only fill select boxes.
- The leads page's `kanbanLoading` state is never read and is left out. Per-column page changes after the first load are left out too.
- JSX rendering, styling and the shared `Dialog`, `ConfirmationDialog`, `ConfirmDialog`, `Sidebar` and `Layout` components are not part of this model; a page's `CloseConfirm` and `ConfirmSubmit` stand for the confirmation's two buttons. The table's page buttons are modelled as the list of entries pushed.
- Navbar.TitleFromPath: the worked example of a concrete path is covered by the general lemmas about segments and titles (`TwoSegmentTitle`, `TwoWordTitle`) rather than by a literal string.
- AccountMaster.AccountMasterPage.HandleUpdate: the refetch after an update is modelled as a second reply parameter rather than a call of `FetchAccounts`.
- ModuleSuggestion.GstText: takes the stored GST as a whole number. A fractional GST such as 12.5, which `String` shows as "12.5", is not modelled, because JavaScript's conversion of a fractional number to text is not.
- The `page`, `limit` and `search` query parameters of the list requests are not modelled. Each reply is a parameter, so the model does not tie the page shown to the page requested.

## Findings

| source | as written | input that shows it | evidently intended | confidence | as-written member | corrected member |
|---|---|---|---|---|---|---|
| src/components/DataTable.tsx:87 | `rangeStart` is 0 only when the unfiltered `data` is empty | one row "Alice", client search "zzz": the label reads "Showing 1-0 of 0" | 0 whenever no filtered row is shown | not executed | DataTable.RangeStartPastRangeEnd | DataTable.RangeCorrectedConsistent |
| src/pages/login.tsx:28 | the mount effect reads "crm:rememberEmail", while a login writes "rememberEmail" (line 62) | log in with "remember me" on, then reopen the page: the email field starts empty | one key for both; the logout in src/components/Navbar.tsx:50 removes "crm:rememberEmail", so writing that key at line 62 would mend it equally | not executed | Login.RememberedEmailNeverRestored | Login.RestoreEmailCorrected |
