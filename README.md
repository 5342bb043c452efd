# mpdeasy: dashboard and partner editor

mpdeasy helps a fundraiser track "partners": people asked to support them.
Each partner has a relationship status that runs from "To Ask" to "Confirmed"
or "Rejected". Other fields are contact details, a next-step date, pledged and
confirmed amounts, a confirmation date, notes and a star.

This project models two parts of the application:

- **The dashboard** (`Dashboard`, in `dashboard.dfy`). On every render it derives
  five values from the signed-in user's partner list:
  - the total pledged and the total support;
  - the number of supporters;
  - the next-steps card: the list is sorted by next-step date in place, then
    filtered to dated, unconfirmed partners, then cut to four;
  - the confirmed contributions that feed the chart.
- **The partner editor panel** (`DrawerContent`, in `editor.dfy`). Its draft
  state is a class whose methods are the panel's controls. The controls are the
  lock, the star, the status selector, the text and amount fields, and the date
  pickers. The panel also has Save, Exit and a delete behind a confirmation
  dialog. The calls the panel makes to the store and to its close callback are
  recorded in a ghost effects log.

Two more modules are shared:

- `Partners` (`partners.dfy`) holds the partner record, the status enumeration,
  and the date comparator both dashboard sorts use. It also holds the total
  preorder the model sorts by.
- `Lists` (`lists.dfy`) holds `filter` and `slice(0, n)`.

A missing amount is `None`, which is the store's `null`. A date (`Partners.Date`)
has three states: `Null`, a calendar day, or `Invalid`. `Invalid` is what the
date library makes of a null or unparsable value. When Save writes it, it
becomes the text "Invalid Date", which is not null.

## Model

| member | source | states |
|---|---|---|
| Partners.AmountOrZero | src/app/dashboard/page.tsx:42 | `amount ?? 0`: a missing amount counts as 0, a present one as itself |
| Partners.CompareDates | src/app/dashboard/page.tsx:54-61 | the comparator gives -1, 0 or 1; it gives 0 whenever either date is null or invalid; for two days it is negative exactly when the first is earlier and positive exactly when it is later |
| Partners.CompareDatesAntisymmetric | src/app/dashboard/page.tsx:54-61 | swapping the arguments negates the comparator's answer |
| Partners.CompareDatesNotTransitive | src/app/dashboard/page.tsx:54-61 | the comparator is not a consistent order: days 1 and 0 each compare equal to a null date but not to each other |
| Partners.DateLeAgreesWithComparator | src/app/dashboard/page.tsx:54-61 | between two days, the model's order is exactly the comparator's "not after"; the order is total and transitive |
| Partners.SortedIsDatedAscending | src/app/dashboard/page.tsx:53-61 | a list sorted by the model's order has its days in ascending order, and every record whose date is null or invalid comes after every record with a day |
| Lists.Filter | src/app/dashboard/page.tsx:62-65 | a filtered list is no longer than its input and holds only accepted elements of the input |
| Lists.FilterCounts | src/app/dashboard/page.tsx:62-65 | filtering keeps each accepted element exactly as often as the input has it and drops every other element |
| Lists.FilterPermutation | src/app/dashboard/page.tsx:49-51 | filtering two arrangements of the same elements keeps the same elements |
| Lists.FilterSnoc | src/app/dashboard/page.tsx:62-65 | filtering a list with one more element keeps what the list kept, then the new element if it is accepted |
| Lists.Prefix | src/app/dashboard/page.tsx:66 | `slice(0, n)` keeps min(length, n) elements, and they are a prefix of the input |
| Dashboard.SumOf | src/app/dashboard/page.tsx:41-47 | the fold both `reduce` calls perform: start at 0 and add each record's amount from left to right |
| Dashboard.SumOfNonNegative | src/app/dashboard/page.tsx:41-47 | the running sum is never negative when no amount is |
| Dashboard.TotalPledged | src/app/dashboard/page.tsx:41-43 | the pledged total: every partner's pledged amount, a null one counting 0 |
| Dashboard.Support | src/app/dashboard/page.tsx:45-47 | the support total: every partner's confirmed amount, a null one counting 0 |
| Dashboard.SumOfAppend | src/app/dashboard/page.tsx:41-47 | the running sum over a concatenation is the sum of the running sums |
| Dashboard.SumOfPermutation | src/app/dashboard/page.tsx:41-47 | the running sum depends only on which records the list holds, not on their order |
| Dashboard.SumOfBoundsEach | src/app/dashboard/page.tsx:41-47 | with no negative amounts, each single amount lies between 0 and the running sum |
| Dashboard.TotalsReorder | src/app/dashboard/page.tsx:41-47 | reordering the partner list changes neither the pledged total nor the support |
| Dashboard.TotalsAddPartner | src/app/dashboard/page.tsx:41-47 | adding a partner adds exactly its pledged and confirmed amounts, 0 when missing |
| Dashboard.PledgeWithinTotal | src/app/dashboard/page.tsx:41-43 | with no negative pledge, each partner's pledge is between 0 and the pledged total |
| Dashboard.Supporters | src/app/dashboard/page.tsx:49-51 | the supporter count is at most the number of partners |
| Dashboard.SupportersCountsRecords | src/app/dashboard/page.tsx:49-51 | the supporter count equals the number of positions whose confirmed amount is present, whatever the amount |
| Dashboard.SupportersReorder | src/app/dashboard/page.tsx:49-51 | reordering the partner list does not change the supporter count |
| Dashboard.ZeroConfirmedStillCounts | src/app/dashboard/page.tsx:45-51 | a partner with confirmed amount 0 adds one supporter but nothing to the support |
| Dashboard.SortByDate | src/app/dashboard/page.tsx:53-61 | the in-place sort leaves the same records in the array, in the model's date order |
| Dashboard.InsertBelow | src/app/dashboard/page.tsx:53-61 | one insertion step extends the sorted prefix by one record, leaves every record above it in place, and only moves records |
| Dashboard.Swap | src/app/dashboard/page.tsx:53-61 | exchanges two records and leaves every other position unchanged |
| Dashboard.FilterKeepsSortedByDate | src/app/dashboard/page.tsx:53-65 | filtering a list that is in the model's date order keeps it in that order |
| Dashboard.IsNextStep | src/app/dashboard/page.tsx:62-65 | the card's filter: the next-step date is not null and the status is not Confirmed; a stored "Invalid Date" passes |
| Dashboard.NextStepsOf | src/app/dashboard/page.tsx:62-66 | the card holds min(qualifying, 4) partners; each has a non-null next-step date and is not confirmed; they are a prefix of the qualifying partners in list order, and no record appears more often than in the list |
| Dashboard.NextStepsAreEarliest | src/app/dashboard/page.tsx:53-66 | when the list is in the model's date order, so is the card, and no qualifying partner left off the card comes before one shown: days in ascending order, invalid dates after every day |
| Dashboard.InsertByComparator | src/app/dashboard/page.tsx:53-61 | one insertion of the sort as written: the record moves down past every record the comparator places after it, and stops at the first one it does not; the result is one longer |
| Dashboard.SortByComparator | src/app/dashboard/page.tsx:53-61 | the sort as written, inserting each record in list order into the records before it; the result has the list's length |
| Dashboard.InsertByComparatorPermutes | src/app/dashboard/page.tsx:53-61 | one as-written insertion adds exactly the inserted record |
| Dashboard.SortByComparatorPermutes | src/app/dashboard/page.tsx:53-61 | the as-written sort only moves records |
| Dashboard.InsertStops | src/app/dashboard/page.tsx:54-61 | an insertion moves nothing when the comparator does not place the last sorted record after the new one |
| Dashboard.ComparatorSortMisordersNextSteps | src/app/dashboard/page.tsx:53-66 | with the comparator as written and an insertion sort, there is a list for which the card shows a later next step before an earlier one |
| Dashboard.SortByComparatorKeepsThree | src/app/dashboard/page.tsx:54-61 | next-step dates 1, null, 0 in that order are left in that order by the as-written sort |
| Dashboard.NextStepCandidatesOfThree | src/app/dashboard/page.tsx:62-65 | filtering drops the undated record from such a list and keeps the other two in order |
| Dashboard.NextStepLabel | src/app/dashboard/page.tsx:199-207 | the label is one of the five action texts, and it is "Follow up on pledge" exactly for Pledged, Confirmed and Rejected |
| Dashboard.NextStepLabelNamesStage | src/app/dashboard/page.tsx:199-207 | each of the four early stages has a label no other status shares |
| Dashboard.IsConfirmedContribution | src/app/dashboard/page.tsx:69-74 | the chart's filter: a confirmed amount greater than 0 and a confirmation date that is not null; a stored "Invalid Date" passes |
| Dashboard.ConfirmedContributions | src/app/dashboard/page.tsx:68-82 | the chart gets exactly the partners with a positive confirmed amount and a non-null confirmation date, each as often as in the list, in the model's order of confirmation date |
| Dashboard.SortedCopy | src/app/dashboard/page.tsx:75-82 | sorting the array that `filter` returned keeps the same records and puts them in date order |
| Dashboard.ChartSumStep | src/app/dashboard/page.tsx:68-74 | the chart's sum grows by the last partner's confirmed amount exactly when that partner is plotted |
| Dashboard.ChartAddsUpToSupport | src/app/dashboard/page.tsx:45-47 | with no negative confirmed amount and a non-null date on every positive one, the chart's amounts add up to the support total |
| Dashboard.DeriveView | src/app/dashboard/page.tsx:41-82 | one render: the totals and the count of the list as it was, the list sorted in place in the model's next-step-date order with the same records, the next steps of the sorted list, and the confirmed contributions of the partners |
| DrawerContent.StoredAmount | src/components/DrawerContent/DrawerContent.tsx:77-79 | an amount is stored exactly when it is a number greater than 0; zero, negatives and NaN become null |
| DrawerContent.Reopened | src/components/DrawerContent/DrawerContent.tsx:55-57 | what a date picker holds after the library reads a stored date: the same day, or an invalid date for a null or invalid one; never empty |
| DrawerContent.OpeningDraft | src/components/DrawerContent/DrawerContent.tsx:44-66 | a new partner opens blank, "To Ask", unstarred, with amounts 0 and both dates today; an existing partner opens with its own fields, with null amounts shown as 0, and with its dates as the library reads them |
| DrawerContent.ShowsNextStepDate | src/components/DrawerContent/DrawerContent.tsx:167-169 | the next-step date picker is shown exactly for Letter Sent, Contacted and Pledged |
| DrawerContent.ShowsPledgedAmount | src/components/DrawerContent/DrawerContent.tsx:274 | the pledged amount field is shown exactly for Pledged and Confirmed |
| DrawerContent.ShowsConfirmed | src/components/DrawerContent/DrawerContent.tsx:295 | the confirmed amount and date received are shown exactly for Confirmed |
| DrawerContent.VisibilityTable | src/components/DrawerContent/DrawerContent.tsx:167-169 | which optional fields each status shows: the next-step date for Letter Sent, Contacted and Pledged; the pledge for Pledged and Confirmed; the confirmation fields for Confirmed only |
| DrawerContent.SavedRecord | src/components/DrawerContent/DrawerContent.tsx:71-83 | the record Save writes has the given id, positive-or-null amounts, and every other field exactly as in the draft; an empty picker is written as null and an invalid date as "Invalid Date" |
| DrawerContent.ReopenAndSaveRoundTrip | src/components/DrawerContent/DrawerContent.tsx:44-83 | opening a record and saving it unchanged writes each date back as the library read it, so a null date comes back as "Invalid Date"; the record comes back unchanged exactly when its amounts are positive or null and neither date is null |
| DrawerContent.ZeroAmountSavedAsNull | src/components/DrawerContent/DrawerContent.tsx:58-60 | a stored pledge of 0 comes back as null after an unchanged reopen and save |
| DrawerContent.SaveIgnoresVisibility | src/components/DrawerContent/DrawerContent.tsx:71-83 | changing the status changes only the status of what Save writes; values in fields the status hides are written all the same |
| DrawerContent.NewPartnerSavedBlank | src/components/DrawerContent/DrawerContent.tsx:44-83 | saving an untouched new partner writes a blank "To Ask" record under the fresh id, dated today, with null amounts |
| DrawerContent.Editor.RecordId | src/components/DrawerContent/DrawerContent.tsx:72 | Save writes under the edited partner's id, or under a fresh id for a new partner |
| DrawerContent.Editor.Open | src/components/DrawerContent/DrawerContent.tsx:44-66 | the panel opens with the opening draft, locked exactly when a partner is being edited, the dialog closed and nothing sent |
| DrawerContent.Editor.ToggleLock | src/components/DrawerContent/DrawerContent.tsx:132 | for an existing partner the lock flips; the draft, the dialog and the log are unchanged |
| DrawerContent.Editor.ToggleStar | src/components/DrawerContent/DrawerContent.tsx:106-107 | for an existing partner, while unlocked, the star flips and nothing else changes |
| DrawerContent.Editor.SetStatus | src/components/DrawerContent/DrawerContent.tsx:152-156 | while unlocked only the status changes; the other draft values stay |
| DrawerContent.Editor.SetName | src/components/DrawerContent/DrawerContent.tsx:210-215 | while unlocked only the name changes |
| DrawerContent.Editor.SetEmail | src/components/DrawerContent/DrawerContent.tsx:228-233 | while unlocked the email becomes the typed text, possibly empty |
| DrawerContent.Editor.SetNumber | src/components/DrawerContent/DrawerContent.tsx:246-251 | while unlocked the number becomes the typed text, possibly empty |
| DrawerContent.Editor.SetNotes | src/components/DrawerContent/DrawerContent.tsx:264-271 | while unlocked only the notes change |
| DrawerContent.Editor.SetNextStepDate | src/components/DrawerContent/DrawerContent.tsx:167-183 | while unlocked and shown, only the next-step date changes, to a day, an invalid date or empty |
| DrawerContent.Editor.SetPledgedAmount | src/components/DrawerContent/DrawerContent.tsx:274-291 | while unlocked and shown, only the pledged amount changes, to the parsed number or NaN |
| DrawerContent.Editor.SetConfirmedAmount | src/components/DrawerContent/DrawerContent.tsx:295-315 | while unlocked and shown, only the confirmed amount changes |
| DrawerContent.Editor.SetConfirmedDate | src/components/DrawerContent/DrawerContent.tsx:295-331 | while unlocked and shown, only the date received changes, to a day, an invalid date or empty |
| DrawerContent.Editor.Save | src/components/DrawerContent/DrawerContent.tsx:68-85 | while unlocked and with a signed-in user, exactly one upsert of the saved record is logged; otherwise nothing; the draft stays |
| DrawerContent.Editor.Exit | src/components/DrawerContent/DrawerContent.tsx:354-366 | logs the close callback and nothing else |
| DrawerContent.Editor.OpenDeleteDialog | src/components/DrawerContent/DrawerContent.tsx:350 | opens the dialog; nothing is sent |
| DrawerContent.Editor.CancelDelete | src/components/DrawerContent/DrawerContent.tsx:383-395 | closes the dialog; nothing is sent |
| DrawerContent.Editor.ConfirmDelete | src/components/DrawerContent/DrawerContent.tsx:87-92 | from the open dialog: closes it; deletes the edited partner by id when a user is signed in and a partner is being edited; then logs the close callback |

Every editor method also keeps `Editor.Valid`. Under that invariant, every
logged upsert has positive-or-null amounts. For an existing partner, it carries
that partner's id; for a new partner, each Save carries the id generated for
it, so two Saves of a new partner write two records. Every logged delete names
the edited partner.

## Left out

- Reading and writing the store (`fetchPartners`, `fetchDocument`, `setPartner`, `deletePartner`) and authentication are not modelled. The signed-in user is an `Option<string>` parameter, and store calls are entries in the effects log.
- The dashboard loads its data in an effect and sets the list only when the fetched list is non-empty. The model starts from the list the dashboard holds.
- The fundraising target and the percentages of it are left out. The percentages are floating-point divisions formatted with `toFixed`.
- The days left until the deadline are left out. They depend on the clock and the date library.
- Dates are modelled as whole days. The source compares them to the millisecond. The "now" a new partner's pickers start at carries the time of day, which the model's `today` drops. Date formatting on the card is not modelled.
- DrawerContent.Reopened: only stored values the store can hold after a save are modelled: null, a date, or "Invalid Date". A record whose date field is absent (undefined) would open at "now", as a new partner does.
- Amounts are JavaScript numbers (doubles). The model's sums are exact integers, which agree with the source only while the totals stay below 2^53.
- Dashboard.SortByDate: JavaScript's `sort` with this comparator has an implementation-defined result once null or invalid dates are present (see Findings). The model sorts by a consistent preorder with those records last. Stability of the sort is not proved.
- UUID generation is not modelled: the fresh id is a parameter of Save.
- `parseInt` is not modelled. An amount field holds either a whole number or NaN (`AmountInput`).
- Links (`tel:`, `mailto:`), layout, icons and the chart's drawing are left out. `src/components/Chart` is not part of this model; only the list passed to it is.
- Status is a seven-value enumeration, the options the selector offers. Other strings in the store are not modelled.
- The `Partner` type declaration (`src/utils/types.ts`) is not part of this model. Its fields are taken from how the two core files use them.
- In these details the model follows what the code does:
  - Save keeps an empty email or number as the empty string, since `??` only replaces null and undefined.
  - The star is usable only while the panel is unlocked.
  - The pledged total is a plain sum, so negative amounts lower it.
  - The next-steps sort reorders the whole list before it is filtered, and the confirmed list is filtered from the reordered list.

## Findings

| source | as written | input that shows it | evidently intended | confidence | as-written member | corrected member |
|---|---|---|---|---|---|---|
| src/app/dashboard/page.tsx:53-66 | the comparator returns 0 whenever either next-step date is null or invalid, so records without a day stay in the list while it is sorted | next-step dates 1, null, 0 in that order: an insertion sort moves nothing, and the card shows day 1 before day 0 | the card lists the earliest next steps, earliest first | medium, not executed (the order an engine produces with an inconsistent comparator is implementation-defined) | Dashboard.ComparatorSortMisordersNextSteps | Dashboard.NextStepsAreEarliest |
