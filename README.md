# Vehicle inspection front-end, modelled in Dafny

This project models the logic of the two React front-ends of a vehicle-inspection service: the older `frontend/` and the newer `frontend-vite/`. Owners register vehicles, book inspections of them, follow bookings and inspection reports, and see a dashboard.

The model covers:

- **Stores.** The inspection store (inspections, bookings, the record opened last, `loading`/`error`), the vehicle store and the single-slot notification store. Each is a class whose methods state the store's whole new state.
- **String helpers.** `truncateString`, `isValidEmail`, `isStrongPassword` and `getInitials`.
- **Generic components.**
  - `DataTable`: search, a null-aware sort and pagination.
  - `FilterBar`: pending filter edits, active chips and their labels.
  - `EnhancedStepper`, `FormBuilder`, `Breadcrumbs` and `UserAvatar`.
- **Dashboard cards.** Upcoming inspections, inspection statistics and vehicle statistics.
- **Pages.**
  - the two booking wizards;
  - the profile page;
  - the vehicle list pages of both front-ends;
  - the two vehicle detail pages;
  - the two inspection lists;
  - the inspection details page;
  - the newer dashboard.

The modules share three small libraries:

- `Js`: JavaScript string and value semantics, including `trim`, `includes`, `split`, `slice`, integer `Number()`, decimal `toString` and `Math.round` of a ratio.
- `Lists`: `filter`, `map`, `find` and counting.
- `Sorting`: the stable `Array.prototype.sort`, as an insertion sort proved to return a permutation that is ordered whenever the comparator is consistent.

A state-changing handler is a method of a class holding the component's state. A derived value (`filteredRows`, `sortedInspections`, a chip label) is a function; `byMake`, built by a loop, is a method proved against a predicate describing the tally. Lemmas relate each derived value to an independent description: membership, order, counts, round trips or partitions.

Clocks, randomness and date parsing are parameters of the operations that use them:

- `now` stands for `new Date().toISOString()`;
- `draw` stands for `Math.random()`;
- `timeOf` stands for `new Date(s).getTime()`;
- `dateLabel` stands for `toLocaleDateString`;
- `daysUntil` stands for `calculateDaysUntil`;
- `today` and `currentYear` stand for the calendar.

## Model

| member | source | states |
|---|---|---|
| InspectionStore.OverlayIdempotent | frontend-vite/src/src/stores/inspectionStore.ts:254-258 | laying the same patch over an inspection twice, with the same timestamp, gives the same record as laying it once |
| InspectionStore.OverlayEmptyAndNotes | frontend-vite/src/src/stores/inspectionStore.ts:254-258 | an empty patch changes only `updatedAt`; a notes patch changes only `notes` and `updatedAt` |
| InspectionStore.FindInspection | frontend-vite/src/src/stores/inspectionStore.ts:185 | the lookup gives an inspection with that id from the list, the first one, and nothing exactly when no inspection has that id |
| InspectionStore.WithoutFirstPendingRemovesOne | frontend-vite/src/src/stores/inspectionStore.ts:301-311 | removing the first pending inspection of a vehicle removes at most one record; the list is unchanged when that vehicle has no pending inspection, and otherwise that vehicle's pending count drops by exactly one |
| InspectionStore.Store.constructor | frontend-vite/src/src/stores/inspectionStore.ts:57-63 | the store starts with no inspections, no bookings, no current inspection, not loading and no error |
| InspectionStore.Store.FetchInspection | frontend-vite/src/src/stores/inspectionStore.ts:176-195 | the lists are untouched; the first inspection with the id becomes current, or else the error is 'Inspection not found' and the current inspection stays; loading ends either way |
| InspectionStore.Store.BookInspection | frontend-vite/src/src/stores/inspectionStore.ts:197-231 | exactly one booking, status scheduled, and one inspection, status pending, are appended, both carrying the request's vehicle, date and notes; earlier records are untouched and the new booking is returned |
| InspectionStore.Store.UpdateInspection | frontend-vite/src/src/stores/inspectionStore.ts:238-274 | an unknown id gives the error 'Inspection not found' and leaves the list and the current inspection as they were; otherwise only the first entry with that id is replaced by the old record with the patch laid over it, and that record becomes current |
| InspectionStore.CancelledBookings | frontend-vite/src/src/stores/inspectionStore.ts:284-298 | cancelling keeps the list's length; an unknown id leaves it as it is; otherwise the first booking with that id alone becomes cancelled with the new timestamp, and every other booking is untouched |
| InspectionStore.Store.CancelBooking | frontend-vite/src/src/stores/inspectionStore.ts:276-322 | an unknown id gives the error 'Booking not found' and changes neither list; otherwise the first booking with that id alone becomes cancelled, and the first pending inspection of its vehicle, if any, is removed |
| InspectionStore.Store.ClearError | frontend-vite/src/src/stores/inspectionStore.ts:324 | only the error is cleared |
| InspectionStore.Store.ResetState | frontend-vite/src/src/stores/inspectionStore.ts:326-332 | both lists are empty, and there is no current inspection, no loading and no error |
| VehicleStore.OverlayLaws | frontend/src/stores/vehicleStore.ts:190-194 | laying a patch over a vehicle twice equals laying it once, and an empty patch changes only `updatedAt` |
| VehicleStore.FindVehicle | frontend/src/stores/vehicleStore.ts:133 | the lookup gives the first vehicle with that id, and nothing exactly when no vehicle has it |
| VehicleStore.DeleteFacts | frontend/src/stores/vehicleStore.ts:221 | after deleting, no record has the id, every other record is kept in order, the removed count is the number of records with that id, and an absent id changes nothing |
| VehicleStore.Store.constructor | frontend/src/stores/vehicleStore.ts:39-44 | the store starts empty, with no current vehicle, not loading and no error |
| VehicleStore.Store.FetchVehicle | frontend/src/stores/vehicleStore.ts:124-143 | the list is untouched; the first vehicle with the id becomes current, or else the error is 'Vehicle not found' and the current vehicle stays |
| VehicleStore.Store.AddVehicle | frontend/src/stores/vehicleStore.ts:145-172 | exactly one record, the input with the given id, timestamps and status 'active', is appended; earlier records are untouched |
| VehicleStore.Store.UpdateVehicle | frontend/src/stores/vehicleStore.ts:174-210 | an unknown id gives the error 'Vehicle not found' and leaves the list unchanged; otherwise only the first matching index is replaced by the merged record, which becomes current |
| VehicleStore.Store.DeleteVehicle | frontend/src/stores/vehicleStore.ts:212-232 | every record with the id is removed and the rest keep their order; the current vehicle is cleared exactly when it has that id |
| VehicleStore.Store.ClearError | frontend/src/stores/vehicleStore.ts:234 | only the error is cleared |
| VehicleStore.Store.ResetState | frontend/src/stores/vehicleStore.ts:236-241 | the list is empty, and there is no current vehicle, no loading and no error |
| NotificationStore.DurationOr | frontend-vite/src/src/stores/notificationStore.ts:58 | a missing duration and a duration of 0 both give the fallback |
| NotificationStore.Notifier.constructor | frontend-vite/src/src/stores/notificationStore.ts:29-35 | the toast starts closed, with message '', severity info, 6000 ms, at bottom centre |
| NotificationStore.Notifier.ShowNotification | frontend-vite/src/src/stores/notificationStore.ts:37-50 | the toast opens with the message; each omitted option takes its default: info, 6000, bottom, center |
| NotificationStore.Notifier.HideNotification | frontend-vite/src/src/stores/notificationStore.ts:52 | only `open` becomes false |
| NotificationStore.Notifier.Show | frontend-vite/src/src/stores/notificationStore.ts:54-80 | a shortcut opens the single slot with the message and severity, replaces a missing or 0 duration by the default, and leaves the position alone |
| NotificationStore.Notifier.ShowSuccess | frontend-vite/src/src/stores/notificationStore.ts:54-59 | opens with severity success; the default duration is 6000; the position is unchanged |
| NotificationStore.Notifier.ShowError | frontend-vite/src/src/stores/notificationStore.ts:61-66 | opens with severity error; the default duration is 8000; the position is unchanged |
| NotificationStore.Notifier.ShowWarning | frontend-vite/src/src/stores/notificationStore.ts:68-73 | opens with severity warning; the default duration is 6000; the position is unchanged |
| NotificationStore.Notifier.ShowInfo | frontend-vite/src/src/stores/notificationStore.ts:75-80 | opens with severity info; the default duration is 6000; the position is unchanged |
| NotificationStore.ZeroDuration | frontend-vite/src/src/stores/notificationStore.ts:37-58 | a duration of 0 is kept by `showNotification` but replaced by 6000 in `showSuccess` |
| Helpers.TruncateString | frontend/src/utils/helpers.ts:41-46 | '' stays ''; a string no longer than n is returned unchanged; a longer one becomes its first n characters and '...', n + 3 characters in all |
| Helpers.TruncateIdempotent | frontend/src/utils/helpers.ts:41-46 | truncating twice to the same n gives the same result as once |
| Helpers.ValidEmailIff | frontend/src/utils/helpers.ts:76-79 | the email pattern holds exactly when there is no whitespace, exactly one '@' with a non-empty part before it, and a '.' in the domain that is neither its first nor its last character |
| Helpers.StrongPasswordIff | frontend/src/utils/helpers.ts:86-90 | the password pattern holds exactly when there are at least 8 characters, no line terminator, and at least one lower-case letter, one upper-case letter and one digit |
| Helpers.FirstChars | frontend/src/utils/helpers.ts:100-103 | taking each part's first character gives at most one character per part |
| Helpers.FirstCharsOfWords | frontend/src/utils/helpers.ts:100-103 | for non-empty parts, the result is exactly the sequence of their first characters |
| Helpers.InitialsOfWords | frontend/src/utils/helpers.ts:97-105 | for words joined by single spaces, the initials are the upper-cased first character of each word, in order |
| Helpers.FirstCharsSkipsEmpty | frontend/src/utils/helpers.ts:100-103 | empty parts contribute nothing: the first characters are those of the non-empty parts |
| Helpers.InitialsOfParts | frontend/src/utils/helpers.ts:97-105 | the initials are exactly the upper-cased first characters of the non-empty space-separated parts, one per part, in order |
| Helpers.InitialsBound | frontend/src/utils/helpers.ts:97-105 | the initials are never longer than the number of spaces in the name plus one |
| DataTable.CompareValues | frontend/src/components/common/DataTable.tsx:132-146 | the comparator gives -1, 0 or 1; 0 exactly on strictly equal values; otherwise a null or undefined value sorts first ascending and last descending |
| DataTable.CompareSignConsistent | frontend/src/components/common/DataTable.tsx:132-146 | on values of comparable kinds, swapping the arguments flips the comparator's sign |
| DataTable.FilteredRows | frontend/src/components/common/DataTable.tsx:121-128 | with an external search handler, or no term or no field, every row is kept; otherwise the result is an order-preserving subsequence of exactly the rows whose field value is truthy and contains the term, ignoring case |
| DataTable.SortedRows | frontend/src/components/common/DataTable.tsx:131-147 | sorting only permutes the rows, and without a sort column leaves them in their order |
| DataTable.SortedRowsOrdered | frontend/src/components/common/DataTable.tsx:131-147 | on a column of comparable values the sorted rows are in comparator order |
| DataTable.NullsFirstAscending | frontend/src/components/common/DataTable.tsx:136-139 | in ascending order every null or undefined value comes before every other value |
| DataTable.NullsLastDescending | frontend/src/components/common/DataTable.tsx:136-139 | in descending order every null or undefined value comes after every other value |
| DataTable.PaginatedRows | frontend/src/components/common/DataTable.tsx:150-152 | with pagination the page holds at most rows-per-page rows: rows [page·rpp, page·rpp + rpp) when those exist, the rows from page·rpp to the end on a partial last page, and none past the end; without pagination every row is shown; an unparsed rows-per-page gives an empty page |
| DataTable.VisibleRowsFromInput | frontend/src/components/common/DataTable.tsx:121-152 | every visible row is an input row and, when searching locally, matches the term |
| DataTable.Table.constructor | frontend/src/components/common/DataTable.tsx:74-82 | the table starts at page 0 with an empty search, the default sort and the first rows-per-page option |
| DataTable.Table.RequestSort | frontend/src/components/common/DataTable.tsx:85-89 | the clicked column becomes the sort column; the order becomes descending only when that column was already sorted ascending, else ascending |
| DataTable.Table.ChangePage | frontend/src/components/common/DataTable.tsx:92-94 | only the page changes |
| DataTable.Table.ChangeRowsPerPage | frontend/src/components/common/DataTable.tsx:97-100 | the new rows-per-page is stored and the page resets to 0 |
| DataTable.Table.Search | frontend/src/components/common/DataTable.tsx:103-110 | the term is stored, the page resets to 0 and the term is forwarded to an external handler when there is one |
| DataTable.Table.ClearSearch | frontend/src/components/common/DataTable.tsx:113-118 | the term becomes '' and is forwarded, and the page is left as it was |
| FilterBar.ChangeFilter | frontend/src/components/common/FilterBar.tsx:216-224 | the list keeps its length; filters with another id are unchanged; each filter with the id is the same record with only the value replaced and active set exactly when the value is not undefined, '' or null; its id, caption, type and options are kept |
| FilterBar.ActiveAfterChange | frontend/src/components/common/FilterBar.tsx:220 | false, 0 and an empty array make a filter active; undefined, '' and null do not |
| FilterBar.ClearAll | frontend/src/components/common/FilterBar.tsx:227-236 | every filter is the same record with only value undefined and active false; its id, caption, type and options are kept |
| FilterBar.ClearAllIdempotent | frontend/src/components/common/FilterBar.tsx:227-236 | clearing twice is clearing once, and no filter is left active |
| FilterBar.RemoveFilter | frontend/src/components/common/FilterBar.tsx:239-245 | each filter with the id is the same record with only value undefined and active false, keeping its id, caption, type and options; the others are unchanged |
| FilterBar.RemoveIsChangeToUndefined | frontend/src/components/common/FilterBar.tsx:216-245 | removing a filter is the same edit as setting it to undefined |
| FilterBar.ActiveFilterCount | frontend/src/components/common/FilterBar.tsx:248 | the count is at most the number of filters, and 0 exactly when no filter is active |
| FilterBar.RemoveFilterCount | frontend/src/components/common/FilterBar.tsx:239-248 | removing a filter lowers the active count by exactly the number of active filters with that id |
| FilterBar.DeleteChip | frontend/src/components/common/FilterBar.tsx:316-317 | deleting a chip leaves undefined when no other value remains, and otherwise a new array holding exactly the values not strictly equal to the deleted one, in order |
| FilterBar.LastChipDeactivates | frontend/src/components/common/FilterBar.tsx:316-317 | deleting the only chip of a multiselect leaves the filter inactive |
| FilterBar.ChipLabel | frontend/src/components/common/FilterBar.tsx:657-687 | every chip label starts with the filter's caption; a select reads 'caption: option caption' for the first option whose value is the filter's value, or the bare caption when none is; a multiselect reads 'caption (n)' for n chosen values; a checkbox reads the bare caption; any other filter reads 'caption: value' unless the value is undefined or '' |
| FilterBar.DateRangeLabels | frontend/src/components/common/FilterBar.tsx:669-677 | a date range reads 'L: a to b', 'L: From a' or 'L: Until b', or just 'L' when both ends are empty |
| FilterBar.NumberRangeLabels | frontend/src/components/common/FilterBar.tsx:678-686 | a number range reads 'L: min to max', 'L: ≥ min' or 'L: ≤ max' |
| FilterBar.ActiveChips | frontend/src/components/common/FilterBar.tsx:654-657 | there is one chip per active filter, and the i-th chip is the label of the i-th active filter, in the filters' order |
| FilterBar.Bar.constructor | frontend/src/components/common/FilterBar.tsx:171-173 | the pending filters start as the committed ones, with the initial query and the popover closed |
| FilterBar.Bar.SyncFilters | frontend/src/components/common/FilterBar.tsx:176-178 | new committed filters replace the pending ones |
| FilterBar.Bar.SearchChange | frontend/src/components/common/FilterBar.tsx:181-188 | the query is stored and forwarded to a listener when there is one |
| FilterBar.Bar.ClearSearch | frontend/src/components/common/FilterBar.tsx:191-197 | the query becomes '' and '' is forwarded |
| FilterBar.Bar.OpenFilters | frontend/src/components/common/FilterBar.tsx:200-202 | only opens the popover |
| FilterBar.Bar.CloseFilters | frontend/src/components/common/FilterBar.tsx:205-207 | only closes the popover |
| FilterBar.Bar.ApplyFilters | frontend/src/components/common/FilterBar.tsx:210-213 | the pending filters are reported unchanged and the popover closes |
| FilterBar.Bar.FilterChange | frontend/src/components/common/FilterBar.tsx:216-224 | the pending filters become the changed list |
| FilterBar.Bar.ClearAllFilters | frontend/src/components/common/FilterBar.tsx:227-236 | the pending filters are all cleared and that list is reported |
| EnhancedStepper.Press | frontend/src/components/common/EnhancedStepper.tsx:408-431 | a button that is disabled or not shown changes nothing; an enabled Back lowers the step by one, an enabled Next raises it by one, Reset (shown in Next's place only once every step is done and `showResetOnComplete` is set) returns to 0, and from a step in [0, steps] every press stays in [0, steps] |
| EnhancedStepper.ButtonsStayInBounds | frontend/src/components/common/EnhancedStepper.tsx:413-426 | with Back disabled at 0 and Next disabled at the step count, any sequence of button presses keeps the step within [0, steps] |
| EnhancedStepper.NextCaption | frontend/src/components/common/EnhancedStepper.tsx:428 | the Next button reads the finish text exactly on the last step, unless both texts are the same |
| EnhancedStepper.NextFromLastCompletes | frontend/src/components/common/EnhancedStepper.tsx:241-252 | Next on the last step reaches the completed state, where Next is disabled and Reset is offered exactly when `showResetOnComplete` is set |
| EnhancedStepper.Stepper.ActiveStep | frontend/src/components/common/EnhancedStepper.tsx:224 | an externally supplied step takes precedence over the internal one |
| EnhancedStepper.Stepper.constructor | frontend/src/components/common/EnhancedStepper.tsx:221 | the internal step starts at 0 and the props are kept as given |
| EnhancedStepper.Stepper.StepTo | frontend/src/components/common/EnhancedStepper.tsx:227-238 | a click is refused when click navigation is off, or in linear mode when the target is more than one step ahead; otherwise the step becomes the target and is reported |
| EnhancedStepper.Stepper.Next | frontend/src/components/common/EnhancedStepper.tsx:241-252 | the step becomes the active step plus one, and completion is signalled exactly when that equals the step count |
| EnhancedStepper.Stepper.Back | frontend/src/components/common/EnhancedStepper.tsx:255-262 | the step becomes the active step minus one |
| EnhancedStepper.Stepper.Reset | frontend/src/components/common/EnhancedStepper.tsx:265-271 | the step returns to 0 |
| EnhancedStepper.Stepper.PressButton | frontend/src/components/common/EnhancedStepper.tsx:408-431 | a press on the horizontal buttons acts on the active step, external or internal: an enabled one sets the internal step to what `Press` gives for the active step and reports that step to `onStepChange`, Next signals completion exactly on reaching the step count, and a disabled or hidden one changes and reports nothing; the step stays within [0, steps] |
| FormBuilder.VisibilityConditions | frontend-vite/src/src/components/common/FormBuilder.tsx:189-211 | a field without a dependency is visible; a missing condition behaves as 'equals'; 'notEquals' is its negation; 'greaterThan' and 'lessThan' never both hold, and neither holds when the value is not a number |
| FormBuilder.ContainsCases | frontend-vite/src/src/components/common/FormBuilder.tsx:200-203 | 'contains' is membership in an array and substring on the string forms otherwise |
| FormBuilder.EffectiveValue | frontend-vite/src/src/components/common/FormBuilder.tsx:236 | the shown value is the form value when defined, else the default when truthy, else '' |
| FormBuilder.ShownError | frontend-vite/src/src/components/common/FormBuilder.tsx:237 | an error shows only for a touched field that has one, and is '' otherwise |
| FormBuilder.RenderField | frontend-vite/src/src/components/common/FormBuilder.tsx:214-238 | an invisible field renders nothing; a visible one gets the effective value and shown error, and is disabled exactly when the form or the field is disabled or the form is submitting |
| FormBuilder.FieldChangeValue | frontend-vite/src/src/components/common/FormBuilder.tsx:240-256 | a null event with a value yields that value, a checkbox yields `checked`, any other input its `target.value` |
| Breadcrumbs.Segments | frontend/src/components/common/Breadcrumbs.tsx:102 | the path segments are non-empty and contain no '/' |
| Breadcrumbs.DashesToSpaces | frontend/src/components/common/Breadcrumbs.tsx:106 | every '-' becomes a space and every other character is kept |
| Breadcrumbs.CrumbLabel | frontend/src/components/common/Breadcrumbs.tsx:106 | the label has the segment's length, its first character upper-cased and every later '-' replaced by a space |
| Breadcrumbs.Generate | frontend/src/components/common/Breadcrumbs.tsx:101-110 | one crumb per segment, in order, each with its label and the path of the segments up to it |
| Breadcrumbs.PathsExtend | frontend/src/components/common/Breadcrumbs.tsx:105 | each crumb's path is the previous one's plus '/' and its segment, so each path is a prefix of the next |
| Breadcrumbs.LastPathIsPathname | frontend/src/components/common/Breadcrumbs.tsx:102-105 | for a normalised path the last crumb's path is the path itself |
| Breadcrumbs.AllItems | frontend/src/components/common/Breadcrumbs.tsx:112-117 | explicit items replace the generated ones, and a home crumb is prepended exactly when the home icon is on, adding one to the length |
| Breadcrumbs.Render | frontend/src/components/common/Breadcrumbs.tsx:149-195 | the last crumb is plain text; every earlier one is a link exactly when it has a non-empty path |
| Breadcrumbs.OnlyLastUnlinked | frontend/src/components/common/Breadcrumbs.tsx:149-195 | for generated crumbs with a home path, only the last one is rendered without a link |
| UserAvatar.LetterInitials | frontend-vite/src/src/components/common/UserAvatar.tsx:82-83 | for any parts, the result is exactly the first characters of the parts that begin with an ASCII letter, in order, one per such part; empty parts and parts led by anything else give nothing |
| UserAvatar.DefaultInitials | frontend-vite/src/src/components/common/UserAvatar.tsx:80-86 | for any name, the default initials are the upper-cased first letters of the first two space-separated parts that begin with an ASCII letter (fewer when there are fewer), so at most two upper-case letters |
| UserAvatar.DigitPartSkipped | frontend-vite/src/src/components/common/UserAvatar.tsx:80-86 | 'Ann 2nd Lee' has initials 'AL': a part led by a digit gives none |
| UserAvatar.EmptyPartSkipped | frontend-vite/src/src/components/common/UserAvatar.tsx:80-86 | 'Ann  Lee' has initials 'AL': the empty part between two spaces gives none |
| UserAvatar.Initials | frontend-vite/src/src/components/common/UserAvatar.tsx:76-78 | an empty name has no initials, and a custom generator decides for any other name |
| UserAvatar.InitialsOfFullName | frontend-vite/src/src/components/common/UserAvatar.tsx:76-87 | for a name of two or more words starting with letters, the initials are the first letters of the first two words, upper-cased |
| UserAvatar.LettersOfWords | frontend-vite/src/src/components/common/UserAvatar.tsx:82-83 | for words starting with letters, every first letter is kept, in order |
| UserAvatar.HashAppend | frontend-vite/src/src/components/common/UserAvatar.tsx:94-96 | the character-code sum of a concatenation is the sum of the parts' sums |
| UserAvatar.AvatarColor | frontend-vite/src/src/components/common/UserAvatar.tsx:90-113 | without random colours or without a name the colour is primary; otherwise it is the palette entry at the hash modulo the palette size, always a palette colour |
| UserAvatar.ColorOfRotation | frontend-vite/src/src/components/common/UserAvatar.tsx:94-112 | rotating the name's characters does not change its colour |
| UserAvatar.StatusColor | frontend-vite/src/src/components/common/UserAvatar.tsx:116-128 | online is success, away is warning, busy is error, and every other status is grey |
| UpcomingInspections.Displayed | frontend/src/components/dashboard/UpcomingInspections.tsx:54 | the list shows the first `maxItems` inspections, or all of them when there are fewer |
| UpcomingInspections.DaysLabel | frontend/src/components/dashboard/UpcomingInspections.tsx:56-60 | 0 days reads 'Today', 1 reads 'Tomorrow', any other n reads 'In n days' |
| UpcomingInspections.DaysLabelInjective | frontend/src/components/dashboard/UpcomingInspections.tsx:56-60 | different day counts never share a label |
| UpcomingInspections.UrgencyColor | frontend/src/components/dashboard/UpcomingInspections.tsx:62-66 | error exactly on the day itself, warning exactly for other counts up to 2, default above 2 |
| UpcomingInspections.ViewAllWhenHidden | frontend/src/components/dashboard/UpcomingInspections.tsx:166 | with view-all enabled, the link shows exactly when some inspection is not displayed |
| InspectionStats.PassRateColor | frontend-vite/src/src/components/dashboard/InspectionStats.tsx:41-45 | success exactly from 90, warning exactly from 70 below 90, error below 70 |
| InspectionStats.StatItems | frontend-vite/src/src/components/dashboard/InspectionStats.tsx:47-72 | four items, Passed, Failed, Pending and Scheduled, in that order with their counts |
| InspectionStats.Total | frontend-vite/src/src/components/dashboard/InspectionStats.tsx:89 | the total is the sum of the four items' values |
| InspectionStats.ItemPercent | frontend-vite/src/src/components/dashboard/InspectionStats.tsx:139-141 | a share is shown exactly when the total is positive; it is the nearest whole percent and lies in [0, 100] |
| InspectionStats.SharesSumNearHundred | frontend-vite/src/src/components/dashboard/InspectionStats.tsx:139-141 | the four rounded shares of a positive total add up to between 99 and 102 |
| VehicleStats.StatusItems | frontend-vite/src/src/components/dashboard/VehicleStats.tsx:40-59 | three items, Active, Maintenance and Inactive, in that order with their counts |
| VehicleStats.SortedMakes | frontend-vite/src/src/components/dashboard/VehicleStats.tsx:77 | the sorted makes are a reordering of the input, largest count first |
| VehicleStats.TopMakes | frontend-vite/src/src/components/dashboard/VehicleStats.tsx:79 | the top makes are the first five sorted makes, or all when there are fewer |
| VehicleStats.TopMakesDominate | frontend-vite/src/src/components/dashboard/VehicleStats.tsx:77-79 | no make left out of the top five has a larger count than one shown |
| VehicleStats.StatusPercent | frontend-vite/src/src/components/dashboard/VehicleStats.tsx:117-119 | a status share is shown exactly when the total is positive; it is value·100/total rounded to the nearest integer, halves up, and lies in [0, 100] |
| VehicleStats.MakePercent | frontend-vite/src/src/components/dashboard/VehicleStats.tsx:155 | a make's share, computed without a guard, is missing exactly when the total is not positive; otherwise it is count·100/total rounded to the nearest integer, halves up, and lies in [0, 100] |
| BookInspection.ValidateStep | frontend/src/pages/BookInspection.tsx:115-151 | the step is valid exactly when its own fields are filled; only that step's messages are recomputed and the other messages are kept |
| BookInspection.StepErrors | frontend/src/pages/BookInspection.tsx:115-151 | a step recomputes only its own messages and keeps the others; the step is valid exactly when its own messages come out empty |
| BookInspection.ParseTime | frontend/src/pages/BookInspection.tsx:176 | a parsed time's hours are the number before the ':' |
| BookInspection.ParsePadded | frontend/src/pages/BookInspection.tsx:176 | a time written 'hh:mm' parses back to hours hh and minutes mm |
| BookInspection.SlotsWithinHours | frontend/src/pages/BookInspection.tsx:59-62 | every offered slot parses to a time between 09:00 and 16:30 on the hour or half hour |
| BookInspection.Wizard.constructor | frontend/src/pages/BookInspection.tsx:74-81 | a vehicle id in the query preselects that vehicle and starts at step 1; otherwise the form is empty at step 0 |
| BookInspection.Wizard.ChangeVehicle | frontend/src/pages/BookInspection.tsx:91-94 | the vehicle is stored and its error cleared |
| BookInspection.Wizard.ChangeDate | frontend/src/pages/BookInspection.tsx:96-99 | the date is stored and its error cleared |
| BookInspection.Wizard.ChangeTime | frontend/src/pages/BookInspection.tsx:101-104 | the time is stored and its error cleared |
| BookInspection.Wizard.ChangeInspector | frontend/src/pages/BookInspection.tsx:106-109 | the inspector is stored and its error cleared |
| BookInspection.Wizard.ChangeNotes | frontend/src/pages/BookInspection.tsx:111-113 | the notes are stored and no error changes |
| BookInspection.Wizard.Next | frontend/src/pages/BookInspection.tsx:153-157 | the step advances by one exactly when the current step validates; the errors become the step's validation messages with the other steps' messages kept; the form and the submitting flag are untouched |
| BookInspection.Wizard.PressLeft | frontend/src/pages/BookInspection.tsx:447-452 | disabled while submitting, when nothing changes; otherwise on step 0 the left button cancels to the list and on any later step it goes back one step |
| BookInspection.Wizard.Submit | frontend/src/pages/BookInspection.tsx:163-194 | an invalid step books nothing; a missing field shows 'Please fill in all required fields'; it books exactly when the step validates, every required field is filled and the slot parses, and the booking carries the vehicle, the date, the parsed time, the inspector and the notes; a slot that does not parse ends in the generic error with submitting off; the errors become the step's validation messages, the form and step stay, and neither refusal touches submitting |
| BookInspection.Wizard.Book | frontend/src/pages/BookInspection.tsx:166-194 | once the step has validated: a missing field gives 'Please fill in all required fields' with submitting untouched; otherwise it books exactly when the slot parses, with submitting on, or gives the generic error with submitting off |
| BookInspection.CompleteFormPassesAllSteps | frontend/src/pages/BookInspection.tsx:115-151 | a form with every required field filled passes every step's validation |
| BookInspectionPage.StepErrorsOf | frontend/src/pages/inspections/BookInspectionPage.tsx:130-162 | the error map is empty exactly when the step validates; step 0 without a vehicle records 'Please select a vehicle', step 1 records 'Please select a date' without a date and 'Please select a future date' for a past one, and no other key is set |
| BookInspectionPage.ValidateStep | frontend/src/pages/inspections/BookInspectionPage.tsx:130-162 | the step is valid exactly when it validates, and the errors built are exactly that step's error map, starting from an empty one |
| BookInspectionPage.Reference | frontend/src/pages/inspections/BookInspectionPage.tsx:186 | the booking reference is 'INS-' followed by four digits |
| BookInspectionPage.ReferenceNumber | frontend/src/pages/inspections/BookInspectionPage.tsx:186 | the reference's digits read back as 1000 plus the random draw, between 1000 and 9999 |
| BookInspectionPage.NavButtons | frontend/src/pages/inspections/BookInspectionPage.tsx:412-442 | the buttons are hidden after a successful booking; Back shows exactly after step 0; the primary button confirms exactly on the last step; both are disabled while submitting |
| BookInspectionPage.AfterPress | frontend/src/pages/inspections/BookInspectionPage.tsx:164-172 | Back lowers the step by one; Next raises it by one only when the step validates |
| BookInspectionPage.PressesStayOnSteps | frontend/src/pages/inspections/BookInspectionPage.tsx:164-172 | any sequence of button presses from a step on the wizard stays on the wizard's steps |
| BookInspectionPage.Page.constructor | frontend/src/pages/inspections/BookInspectionPage.tsx:44-60 | the wizard starts at step 0 with an empty form, no errors and no booking |
| BookInspectionPage.Page.ChangeNotes | frontend/src/pages/inspections/BookInspectionPage.tsx:117-120 | only the notes change |
| BookInspectionPage.Page.ChangeDate | frontend/src/pages/inspections/BookInspectionPage.tsx:122-124 | only the date changes |
| BookInspectionPage.Page.ChangeVehicle | frontend/src/pages/inspections/BookInspectionPage.tsx:126-128 | only the vehicle changes |
| BookInspectionPage.Page.Next | frontend/src/pages/inspections/BookInspectionPage.tsx:164-168 | the step advances exactly when it validates, and the errors become exactly the error map of the step as it was; the form and the booking state are unchanged |
| BookInspectionPage.Page.Back | frontend/src/pages/inspections/BookInspectionPage.tsx:170-172 | the step goes back by one |
| BookInspectionPage.Page.Submit | frontend/src/pages/inspections/BookInspectionPage.tsx:174-194 | the booking succeeds with reference 'INS-' and the draw, the wizard moves to step 3, submitting ends and the buttons are hidden |
| ProfilePage.FormOf | frontend/src/pages/profile/ProfilePage.tsx:61-66 | the profile form starts from the user's name and email, with a missing phone or address as '' |
| ProfilePage.ValidEmailNotBlank | frontend/src/pages/profile/ProfilePage.tsx:144-150 | an email that matches the pattern is never blank, so the 'required' and 'valid address' messages never both apply |
| ProfilePage.NoErrorsIffValid | frontend/src/pages/profile/ProfilePage.tsx:130-160 | the profile form has no error exactly when the name is not blank, the email is present and well formed, and a non-empty phone uses only digits, spaces and '-', '(', ')', '+' |
| ProfilePage.ValidateProfile | frontend/src/pages/profile/ProfilePage.tsx:130-160 | the recorded errors are the form's errors, and the form is valid exactly when there are none |
| ProfilePage.ValidatePassword | frontend/src/pages/profile/ProfilePage.tsx:162-193 | valid exactly when there is no error, exactly when the current password is given, the new one has at least 8 characters and the confirmation equals it; each field gets its own message, required first |
| ProfilePage.SetProfileField | frontend/src/pages/profile/ProfilePage.tsx:103-105 | a change writes the named profile field and no other |
| ProfilePage.ClearProfileError | frontend/src/pages/profile/ProfilePage.tsx:107-110 | a change clears the named field's error and no other |
| ProfilePage.SetPasswordField | frontend/src/pages/profile/ProfilePage.tsx:114-116 | a change writes the named password field and no other |
| ProfilePage.ClearPasswordError | frontend/src/pages/profile/ProfilePage.tsx:118-121 | a change clears the named password field's error and no other |
| ProfilePage.Toggle | frontend/src/pages/profile/ProfilePage.tsx:125-127 | toggling flips the named visibility flag and no other |
| ProfilePage.ToggleLaws | frontend/src/pages/profile/ProfilePage.tsx:125-127 | toggling the same flag twice restores the flags, and toggles of two flags commute |
| ProfilePage.Page.constructor | frontend/src/pages/profile/ProfilePage.tsx:61-100 | the page starts out of edit mode with the user's form, empty password fields, hidden passwords and no errors or message |
| ProfilePage.Page.ProfileChange | frontend/src/pages/profile/ProfilePage.tsx:103-111 | only the named profile field and its error change |
| ProfilePage.Page.PasswordChange | frontend/src/pages/profile/ProfilePage.tsx:114-122 | only the named password field and its error change |
| ProfilePage.Page.ToggleVisibility | frontend/src/pages/profile/ProfilePage.tsx:125-127 | only the visibility flags change |
| ProfilePage.Page.SaveProfile | frontend/src/pages/profile/ProfilePage.tsx:196-219 | saves exactly when the profile is valid; the errors become the form's errors; a save leaves edit mode and shows 'Profile updated successfully' |
| ProfilePage.Page.ChangePassword | frontend/src/pages/profile/ProfilePage.tsx:222-251 | the password errors become exactly the per-field messages of the form as it was; a valid form is reset to three empty fields with a success message; an invalid one is kept and the success message stays; the profile, its errors, edit mode and visibility are untouched |
| ProfilePage.Page.CancelEdit | frontend/src/pages/profile/ProfilePage.tsx:338-350 | cancelling leaves edit mode, restores the user's values and clears the profile errors |
| Vehicles.InitialForm | frontend-vite/src/src/pages/Vehicles.tsx:53-67 | the blank form has the current year, status 'active', fuel 'gasoline', mileage 0 and empty text fields |
| Vehicles.Prefill | frontend-vite/src/src/pages/Vehicles.tsx:119-135 | editing copies the vehicle's make, model, year, plate and status, with '' for missing optional text, 'gasoline' for a missing fuel type and 0 for a missing or zero mileage |
| Vehicles.FormErrorsOf | frontend-vite/src/src/pages/Vehicles.tsx:158-171 | no message exactly when the form is valid; an empty make, model or plate, a year outside 1900 to next year and a negative mileage each get their own message, and no other field does |
| Vehicles.ValidateForm | frontend-vite/src/src/pages/Vehicles.tsx:158-171 | valid exactly when the form is valid, and the errors built are exactly the form's messages |
| Vehicles.InitialFormNeedsText | frontend-vite/src/src/pages/Vehicles.tsx:53-67 | the blank form is refused, and filling only make, model and plate makes it valid |
| Vehicles.MatchesSearch | frontend-vite/src/src/pages/Vehicles.tsx:244-249 | an empty query matches; otherwise a vehicle without a plate that the make and model do not match throws, and a match comes from the make, model, plate or year |
| Vehicles.FilteredVehicles | frontend-vite/src/src/pages/Vehicles.tsx:243-254 | a result keeps exactly the vehicles matching the search and the status tab, in order |
| Vehicles.FilterThrowsIff | frontend-vite/src/src/pages/Vehicles.tsx:243-254 | the filter throws exactly when some vehicle's search test throws |
| Vehicles.PlatesNeverThrow | frontend-vite/src/src/pages/Vehicles.tsx:248 | when every vehicle has a plate the filter never throws |
| Vehicles.EmptyQueryKeepsAll | frontend-vite/src/src/pages/Vehicles.tsx:243-254 | an empty query on the 'all' tab keeps every vehicle |
| Vehicles.SetField | frontend-vite/src/src/pages/Vehicles.tsx:173-181 | a change writes exactly the named field and leaves the others: text fields take the typed text, year and mileage keep it as text, the licence plate and status become present with it |
| Vehicles.Screen.constructor | frontend-vite/src/src/pages/Vehicles.tsx:78-95 | the screen starts with an empty search on the 'all' tab, the blank form, no errors, and the add dialog open exactly when the query asks for it |
| Vehicles.Screen.AddClick | frontend-vite/src/src/pages/Vehicles.tsx:113-117 | the add dialog opens on the blank form with no errors |
| Vehicles.Screen.EditClick | frontend-vite/src/src/pages/Vehicles.tsx:119-140 | an unknown id changes nothing; a known one opens the edit dialog on its prefilled form |
| Vehicles.Screen.DeleteClick | frontend-vite/src/src/pages/Vehicles.tsx:142-145 | the vehicle is selected and the delete dialog opens |
| Vehicles.Screen.FormChange | frontend-vite/src/src/pages/Vehicles.tsx:173-181 | a named field is written; an input without a name changes nothing |
| Vehicles.Screen.CloseDialog | frontend-vite/src/src/pages/Vehicles.tsx:151-156 | every dialog closes and the selection is cleared |
| Vehicles.Screen.Submit | frontend-vite/src/src/pages/Vehicles.tsx:193-223 | the errors become exactly the form's messages; an invalid form makes no store call and leaves the dialogs, the selection and the submitting flag alone; a valid one adds with id 'v-' and the clock in the add dialog, or updates the selected vehicle in the edit dialog, makes no call when neither applies, and closes the dialogs |
| Vehicles.Screen.Dispatch | frontend-vite/src/src/pages/Vehicles.tsx:196-222 | with a valid form: the add call with id 'v-' and the clock when the add dialog is open, the update of the selected vehicle when the edit dialog is, no call otherwise, and afterwards every dialog is closed and nothing is submitting |
| Vehicles.Screen.Delete | frontend-vite/src/src/pages/Vehicles.tsx:225-240 | without a selection (or with an empty id) nothing changes and no call is made; otherwise the selected vehicle's delete call is made, all three dialogs close, the selection clears and submitting is off |
| VehiclesPage.EmptyDraft | frontend/src/pages/vehicles/VehiclesPage.tsx:49-55 | the blank draft has the current year and empty text fields |
| VehiclesPage.DraftErrorsOf | frontend/src/pages/vehicles/VehiclesPage.tsx:145-177 | no message exactly when the draft is valid; a blank make, model, registration number or colour and a year that is not a number from 1900 to next year each get their own message, and no other field does |
| VehiclesPage.ValidateDraft | frontend/src/pages/vehicles/VehiclesPage.tsx:145-177 | valid exactly when the draft is valid, and the errors built are exactly the draft's messages |
| VehiclesPage.ClearedYearRefused | frontend/src/pages/vehicles/VehiclesPage.tsx:164-168 | a cleared year field is refused, since it reads as 0 |
| VehiclesPage.LengthId | frontend/src/pages/vehicles/VehiclesPage.tsx:187 | the id as written is the number one past the list's length |
| VehiclesPage.LengthIdRepeatsAfterDelete | frontend/src/pages/vehicles/VehiclesPage.tsx:187-209 | with four vehicles '1' to '4', whose ids are distinct, deleting '1' keeps the other three in order, the next vehicle added gets id '4' again, so the ids are no longer distinct, and a later delete of '4' removes both of them |
| VehiclesPage.MaxOf | frontend/src/pages/vehicles/VehiclesPage.tsx:187 | the maximum bounds every number of the list |
| VehiclesPage.MaxIdNumber | frontend/src/pages/vehicles/VehiclesPage.tsx:187 | the largest numeric id bounds every vehicle's id number |
| VehiclesPage.FreshId | frontend/src/pages/vehicles/VehiclesPage.tsx:187 | the corrected id differs from every id in the list |
| VehiclesPage.FilterKeepsUnique | frontend/src/pages/vehicles/VehiclesPage.tsx:209 | removing vehicles keeps the ids distinct |
| VehiclesPage.Filtered | frontend/src/pages/vehicles/VehiclesPage.tsx:215-222 | the shown vehicles keep their order and are exactly those whose make, model or registration number contains the term, ignoring case |
| VehiclesPage.EmptySearchKeepsAll | frontend/src/pages/vehicles/VehiclesPage.tsx:215-222 | an empty search shows every vehicle |
| VehiclesPage.StatusColor | frontend/src/pages/vehicles/VehiclesPage.tsx:224-232 | each of the four statuses has its own colour |
| VehiclesPage.SetDraftField | frontend/src/pages/vehicles/VehiclesPage.tsx:140-143 | a typed year is kept as text and reads back as its number; other fields leave the year alone |
| VehiclesPage.Added | frontend/src/pages/vehicles/VehiclesPage.tsx:187-192 | a new vehicle takes every field from the form, is 'Not Inspected', has no inspection date, and its id reads as the list's length plus one |
| VehiclesPage.Page.constructor | frontend/src/pages/vehicles/VehiclesPage.tsx:44-121 | once loaded, the page holds the sample vehicles, whose ids are distinct, an empty search, the dialog closed and the blank draft |
| VehiclesPage.Page.OpenDialog | frontend/src/pages/vehicles/VehiclesPage.tsx:124-127 | the dialog opens with no errors |
| VehiclesPage.Page.CloseDialog | frontend/src/pages/vehicles/VehiclesPage.tsx:129-138 | the dialog closes and the draft is blank again |
| VehiclesPage.Page.InputChange | frontend/src/pages/vehicles/VehiclesPage.tsx:140-143 | only the named draft field changes |
| VehiclesPage.Page.AddVehicle | frontend/src/pages/vehicles/VehiclesPage.tsx:179-199 | adds exactly when the draft is valid, appending the draft as one new vehicle whose id is the length plus one, clearing the errors and closing the dialog with a blank draft; otherwise only the errors change; in both cases the errors become exactly the messages of the draft as it was |
| VehiclesPage.Page.DeleteVehicle | frontend/src/pages/vehicles/VehiclesPage.tsx:201-213 | for any list: without confirmation nothing changes; with it every vehicle with that id goes and the others stay in order; ids that were distinct stay distinct |
| VehiclesPage.Page.TypeDraft | frontend/src/pages/vehicles/VehiclesPage.tsx:140-143 | typing the five inputs, one `handleInputChange` each, leaves the draft holding exactly the typed make, model, year text, registration number and colour; this is the typing step of the scenario in DeleteThenAddRepeatsId |
| VehiclesPage.Page.DeleteThenAddRepeatsId | frontend/src/pages/vehicles/VehiclesPage.tsx:179-213 | on a page holding vehicles '1' to '4', as the loaded page does, the page's own handlers (delete '1', type a valid form, add) leave four vehicles, the last two both with id '4', so the ids are no longer distinct |
| VehiclesPage.Page.AddVehicleFresh | frontend/src/pages/vehicles/VehiclesPage.tsx:179-199 | the corrected add: the same outcome as the page's add, the same messages for an invalid draft, except that the new id is above every numeric id in the list, so ids that were distinct stay distinct |
| VehiclesPage.AddedFresh | frontend/src/pages/vehicles/VehiclesPage.tsx:187-192 | the corrected new vehicle: the same record as the page builds except for its id, which no listed vehicle has |
| VehicleDetailPage.DraftOf | frontend/src/pages/vehicles/VehicleDetailPage.tsx:103-109 | the edit draft copies the vehicle's make, model, year, registration number and colour |
| VehicleDetailPage.SetField | frontend/src/pages/vehicles/VehicleDetailPage.tsx:153-156 | a change writes the named field; the year is stored as the typed text's number, which exists for any all-digit text |
| VehicleDetailPage.YearInputRoundTrip | frontend/src/pages/vehicles/VehicleDetailPage.tsx:155 | typing a year's decimal digits stores that year |
| VehicleDetailPage.SameRulesAsList | frontend/src/pages/vehicles/VehicleDetailPage.tsx:158-190 | for a numeric year, the detail page accepts exactly the drafts the list page accepts |
| VehicleDetailPage.ValidateDraft | frontend/src/pages/vehicles/VehicleDetailPage.tsx:158-190 | valid exactly when no error is recorded; make, model, registration number and colour must not be blank, the year must be a number in 1900 to next year |
| VehicleDetailPage.Saved | frontend/src/pages/vehicles/VehicleDetailPage.tsx:201-205 | saving keeps the vehicle's id, status and last inspection date and takes every draft field |
| VehicleDetailPage.SaveUneditedIsIdentity | frontend/src/pages/vehicles/VehicleDetailPage.tsx:201-205 | saving an unedited draft leaves the vehicle as it was |
| VehicleDetailPage.Page.constructor | frontend/src/pages/vehicles/VehicleDetailPage.tsx:102-109 | once loaded, the page shows the vehicle, not editing, with its draft and no errors |
| VehicleDetailPage.Page.InputChange | frontend/src/pages/vehicles/VehicleDetailPage.tsx:153-156 | only the draft changes, as the field change says |
| VehicleDetailPage.Page.SaveChanges | frontend/src/pages/vehicles/VehicleDetailPage.tsx:192-211 | the errors become exactly the per-field messages of the draft; it saves exactly when the draft is valid and a vehicle is loaded, the saved vehicle carrying the draft's fields, and a save leaves edit mode; otherwise the vehicle and edit mode stay |
| VehicleDetailPage.Page.CancelEdit | frontend/src/pages/vehicles/VehicleDetailPage.tsx:367-379 | cancelling leaves edit mode, clears the errors and resets the draft to the loaded vehicle |
| VehicleDetails.FromBooking | frontend/src/pages/VehicleDetails.tsx:102-114 | a booking's row has id 'booking-' and the booking id, the booking's date, status 'scheduled', and is not completed |
| VehicleDetails.HistoryRows | frontend/src/pages/VehicleDetails.tsx:81-115 | without the vehicle the history is empty; with it there is one row per inspection booked for the vehicle and one per open booking of it, and each of them has its row |
| VehicleDetails.InspectionRowsBookedFor | frontend/src/pages/VehicleDetails.tsx:83-87 | every inspection row comes from an inspection whose booking is this vehicle's |
| VehicleDetails.SortedHistoryNewestFirst | frontend/src/pages/VehicleDetails.tsx:118-122 | the sorted history holds the same rows, latest completion or booking date first |
| VehicleDetails.HistoryTabDisabledIff | frontend/src/pages/VehicleDetails.tsx:350 | the history tab is disabled exactly when the vehicle is missing or has neither a booked inspection nor an open booking |
| VehicleDetails.ValidateForm | frontend/src/pages/VehicleDetails.tsx:195-210 | without form data the form is invalid and the errors are untouched; otherwise the errors become exactly the newer vehicles screen's messages for the form (make, model, plate, year and mileage), and it is valid exactly when there is none |
| InspectionsList.VehicleName | frontend-vite/src/src/pages/Inspections.tsx:111 | a known vehicle reads as year, make and model; an unknown one as 'Unknown Vehicle' |
| InspectionsList.AllRowsCover | frontend-vite/src/src/pages/Inspections.tsx:100-138 | one row per inspection, in order, with its id and status, followed by one 'scheduled', uncompleted row per booking no inspection refers to |
| InspectionsList.Filtered | frontend-vite/src/src/pages/Inspections.tsx:141-151 | the shown rows keep their order and are exactly those matching the search and the status tab |
| InspectionsList.NoFilterShowsAll | frontend-vite/src/src/pages/Inspections.tsx:141-151 | an empty search on the 'all' tab shows every row |
| InspectionsList.InspectionCardsNotScheduled | frontend-vite/src/src/pages/Inspections.tsx:102-117 | no inspection's row has status 'scheduled' |
| InspectionsList.ScheduledCardIsBookingCard | frontend-vite/src/src/pages/Inspections.tsx:102-134 | a row with status 'scheduled' lies among the booking rows after the inspection rows |
| InspectionsList.ScheduledTabShowsBookings | frontend-vite/src/src/pages/Inspections.tsx:120-151 | the 'scheduled' tab shows only rows of open bookings |
| InspectionsList.SortedNewestFirst | frontend-vite/src/src/pages/Inspections.tsx:154-158 | the sorted rows are the same rows, latest completion or booking date first |
| InspectionsList.Actions | frontend-vite/src/src/pages/Inspections.tsx:230-231 | a card is passed a cancel callback exactly when its row is uncompleted, carrying the row's booking id, and a print callback exactly when completed, carrying its id |
| InspectionsList.BookingCardsCancellable | frontend-vite/src/src/pages/Inspections.tsx:120-138 | every open booking's card is passed a cancel callback with its booking id, and no print callback |
| InspectionsList.MenuAsWritten | frontend-vite/src/src/components/inspections/InspectionCard.tsx:164-179 | the card's menu, as written, calls the cancel callback only for status 'pending' and never calls the print callback, since it reads the `onPrint` prop while the page passes `onPrintReport` |
| InspectionsList.CardCallbacksUnreachable | frontend-vite/src/src/components/inspections/InspectionCard.tsx:164-179 | as written, a booking card's cancel callback and a completed card's print callback are passed but no menu item calls them |
| InspectionsList.Menu | frontend-vite/src/src/components/inspections/InspectionCard.tsx:164-179 | the corrected menu calls the cancel callback for 'pending' and 'scheduled' cards, and the print callback for 'passed' and 'failed' cards |
| InspectionsList.MenuReachesCallbacks | frontend-vite/src/src/components/inspections/InspectionCard.tsx:164-179 | with the corrected menu every open booking's card cancels with its booking id, and a completed 'passed' or 'failed' inspection's card prints its own report |
| InspectionsList.Page.constructor | frontend-vite/src/src/pages/Inspections.tsx:34-40 | the page starts with an empty search on the 'all' tab and no dialog |
| InspectionsList.Page.CancelInspection | frontend-vite/src/src/pages/Inspections.tsx:67-70 | the booking is selected and the cancel dialog opens |
| InspectionsList.Page.CloseDialog | frontend-vite/src/src/pages/Inspections.tsx:77-80 | the dialog closes and the selection is cleared |
| InspectionsList.Page.ConfirmCancel | frontend-vite/src/src/pages/Inspections.tsx:82-97 | without a selection nothing happens; otherwise the store's bookings and inspections become exactly what cancelling the selected id gives, its error is 'Booking not found' exactly when no booking has that id, loading ends and the current inspection stays; the success message shows even when the booking is missing, and the dialog closes |
| InspectionDetails.BookingTag | frontend-vite/src/src/pages/InspectionDetails.tsx:51 | an inspection's booking route is 'booking-' and its booking id, or 'booking-undefined' without one |
| InspectionDetails.InspectionFor | frontend-vite/src/src/pages/InspectionDetails.tsx:51 | the found inspection is listed and has the route's id or booking route; nothing is found exactly for an empty id or when no inspection matches |
| InspectionDetails.RouteBookingId | frontend-vite/src/src/pages/InspectionDetails.tsx:54-55 | a booking route yields the id after 'booking-'; any other route yields the found inspection's booking id |
| InspectionDetails.BookingRouteRoundTrip | frontend-vite/src/src/pages/InspectionDetails.tsx:54-55 | the route 'booking-' plus an id is a booking route and yields that id back |
| InspectionDetails.BookingFor | frontend-vite/src/src/pages/InspectionDetails.tsx:56 | the found booking is listed and has the booking id; a missing or empty booking id finds nothing |
| InspectionDetails.CardOf | frontend-vite/src/src/pages/InspectionDetails.tsx:186-199 | the vehicle card copies id, make, model and year, shows 'N/A' for missing text fields and 0 for a missing mileage |
| InspectionDetails.SummaryOf | frontend-vite/src/src/pages/InspectionDetails.tsx:178-185 | the summary takes the inspection's id, else the booking route; the inspection's status, else 'scheduled'; the booking's date; the inspection's, then the booking's inspector, else 'Not assigned' |
| InspectionDetails.ViewFor | frontend-vite/src/src/pages/InspectionDetails.tsx:153-175 | the page shows 'not found' exactly when neither the inspection nor the booking is found; a shown page is scheduled exactly for a booking route or an inspection not completed |
| InspectionDetails.ShownWithoutInspectionIsBookingRoute | frontend-vite/src/src/pages/InspectionDetails.tsx:51-56 | a page shown without an inspection is reached by a booking route and is scheduled |
| InspectionDetails.ItemCountsAsWrittenAlwaysZero | frontend-vite/src/src/pages/InspectionDetails.tsx:261-263 | the counts as written, which compare with 'passed', 'failed' and 'pending', are always zero for the item statuses 'pass', 'fail' and 'not_checked' |
| InspectionDetails.SampleReportShowsNoPasses | frontend-vite/src/src/pages/InspectionDetails.tsx:261-263 | a report of five passed items shows zero passed items as written |
| InspectionDetails.ItemCounts | frontend-vite/src/src/pages/InspectionDetails.tsx:261-263 | the corrected counts add up to the number of items |
| InspectionDetails.ItemCountsPartition | frontend-vite/src/src/pages/InspectionDetails.tsx:261-263 | every item is counted exactly once among passed, failed and not checked |
| InspectionDetails.Page.constructor | frontend-vite/src/src/pages/InspectionDetails.tsx:45-80 | the notes start as the inspection's notes, else ''; no dialog is open |
| InspectionDetails.Page.NotesChange | frontend-vite/src/src/pages/InspectionDetails.tsx:101-103 | the notes become the typed value |
| InspectionDetails.Page.CloseDialog | frontend-vite/src/src/pages/InspectionDetails.tsx:96-99 | both dialogs close |
| InspectionDetails.Page.SaveNotes | frontend-vite/src/src/pages/InspectionDetails.tsx:105-120 | without an inspection nothing happens; otherwise the store's first inspection with that id gets the notes and the update time, that record becomes the store's current inspection with no error, or for an unknown id the store keeps its inspections and current inspection and records 'Inspection not found'; loading ends, the success message shows either way and the dialogs close |
| InspectionDetails.Page.ConfirmCancel | frontend-vite/src/src/pages/InspectionDetails.tsx:122-137 | without a booking id nothing happens; otherwise the store's bookings and inspections become exactly what cancelling that id gives, its error is 'Booking not found' exactly when no booking has it, loading ends and the current inspection stays; the success message shows and the page goes back to the list |
| InspectionsPage.StatusColor | frontend/src/pages/inspections/InspectionsPage.tsx:114-121 | each status has its own chip colour |
| InspectionsPage.TabStatus | frontend/src/pages/inspections/InspectionsPage.tsx:125-127 | tabs 1 to 3 keep one status each; every other tab keeps all |
| InspectionsPage.Filtered | frontend/src/pages/inspections/InspectionsPage.tsx:123-136 | the shown rows keep their order, have the tab's status, and are exactly the rows of that status whose vehicle, date label or notes contain the term, ignoring case |
| InspectionsPage.AllTabEmptySearchShowsAll | frontend/src/pages/inspections/InspectionsPage.tsx:123-136 | the 'All' tab with an empty search shows every inspection |
| InspectionsPage.TabsPartitionAll | frontend/src/pages/inspections/InspectionsPage.tsx:123-136 | for any search the pending, passed and failed tabs together hold as many rows as the 'All' tab |
| InspectionsPage.NotesCell | frontend/src/pages/inspections/InspectionsPage.tsx:248-254 | missing or empty notes read 'No notes'; other notes are cut to 50 characters and '...', the same as `truncateString` at its default length |
| Dashboard.StatusCountsPartition | frontend-vite/src/src/pages/Dashboard.tsx:66-69 | the passed, failed and pending counts add up to the number of inspections |
| Dashboard.PassRate | frontend-vite/src/src/pages/Dashboard.tsx:71-73 | the pass rate is 0 with no inspections and otherwise the nearest whole percent of passed inspections; it lies in [0, 100] and is 100 when all passed |
| Dashboard.InspectionStatsOf | frontend-vite/src/src/pages/Dashboard.tsx:66-74 | the counts of each status add up to the inspections; scheduled counts the bookings no inspection refers to; the pass rate is PassRate(passed, number of inspections): passed·100/total rounded halves up, 0 without inspections, in [0, 100] |
| Dashboard.ScheduledAfterInspection | frontend-vite/src/src/pages/Dashboard.tsx:70 | once an inspection refers to every booking, no booking counts as scheduled |
| Dashboard.ScheduledDropsByBooking | frontend-vite/src/src/pages/Dashboard.tsx:70 | appending an inspection that names a booking id lowers the scheduled count by exactly the number of bookings with that id that no inspection named before |
| Dashboard.FirstSeen | frontend-vite/src/src/pages/Dashboard.tsx:82-88 | the index of the first vehicle of a make, and none exactly when no vehicle has it |
| Dashboard.ByMake | frontend-vite/src/src/pages/Dashboard.tsx:82-88 | one entry per distinct make, in first-seen order, each counting the vehicles of that make; every vehicle's make is listed and the counts add up to the number of vehicles |
| Dashboard.VehicleStatsOf | frontend-vite/src/src/pages/Dashboard.tsx:77-89 | the total is the number of vehicles and each status count counts that status; byMake has one entry per make, in the order the makes first appear, each counting the vehicles of that make, and the counts add up to the total |
| Dashboard.VehicleById | frontend-vite/src/src/pages/Dashboard.tsx:37 | the found vehicle is listed with that id; none exactly when no vehicle has it |
| Dashboard.UpcomingRowOf | frontend-vite/src/src/pages/Dashboard.tsx:36-47 | a row carries the booking's id, date and vehicle id and its days until the date; an unknown vehicle reads 'Unknown Vehicle' with plate 'Unknown' |
| Dashboard.UpcomingSoonestFirst | frontend-vite/src/src/pages/Dashboard.tsx:31-49 | upcoming holds one row per booking not in the past and nothing else, soonest first |
| Dashboard.UpcomingRowsNotPast | frontend-vite/src/src/pages/Dashboard.tsx:32-35 | every upcoming row is today or later |
| Dashboard.UpcomingRowsCover | frontend-vite/src/src/pages/Dashboard.tsx:32-48 | every booking today or later has its row |
| Dashboard.RecentVehicles | frontend-vite/src/src/pages/Dashboard.tsx:52-63 | at most the first 8 vehicles, in order, each with its id, make, model, year, status, last inspection date, license plate and image URL |
| Dashboard.Capitalized | frontend-vite/src/src/pages/Dashboard.tsx:120 | the first character is upper-cased and the rest kept |
| Dashboard.KindOf | frontend-vite/src/src/pages/Dashboard.tsx:114-118 | each inspection status has its own activity type |
| Dashboard.TitleOf | frontend-vite/src/src/pages/Dashboard.tsx:120 | the titles read 'Inspection Passed', 'Inspection Failed' and 'Inspection Pending' |
| Dashboard.StampOf | frontend-vite/src/src/pages/Dashboard.tsx:124 | the completion date if present, else the booking's date, else the current time |
| Dashboard.InspectionActivityOf | frontend-vite/src/src/pages/Dashboard.tsx:109-128 | an inspection's entry has id 'inspection-' and its id, entity type 'inspection', its status's type and title, its time stamp, and as description 'year make model' of its booking's vehicle, or 'Unknown Vehicle' when the booking or its vehicle is not found |
| Dashboard.RecentActivityNewestFirst | frontend-vite/src/src/pages/Dashboard.tsx:92-135 | one entry per vehicle, booking and inspection, newest first, with every inspection's entry present |
| Dashboard.InspectionEntriesListed | frontend-vite/src/src/pages/Dashboard.tsx:109-130 | every inspection's entry is among the activity entries |

## Left out

- Network and I/O: every commented-out `axios` call, the `fetchInspections`/`fetchVehicles` mock seed data and the simulated loading delays. A store action is modelled from its first `set` to its last.
- Timers: the auto-clearing of success messages, toast auto-hide, and `debounce` in helpers.ts.
- Persistence: the `persist` middleware and the local-storage helpers.
- Rendering: MUI layout, styling, icons, dialogs and routing. A navigation is modelled only as the path a handler would go to.
- Floating point:
  - numbers are integers;
  - `Math.round` of a ratio is rounding half up on exact rationals;
  - `toFixed` and the locale formatters are left out.
- Date parsing and locale formatting are parameters (`timeOf`, `dateLabel`, `daysUntil`, `now`). An invalid date, which gives `NaN`, is not modelled.
- Case mapping is ASCII only. `toLowerCase`/`toUpperCase` of other letters and Unicode normalisation are left out.
- UserAvatar.AvatarColor: the name is hashed over its characters, not over UTF-16 code units, so names outside the Basic Multilingual Plane hash differently.
- Js.StringLess, Js.LessThan, Helpers.TruncateString, InspectionsPage.NotesCell, ProfilePage.ValidatePassword, Helpers.StrongPasswordIff, Helpers.FirstChars, Helpers.GetInitials, Breadcrumbs.CrumbLabel and Dashboard.Capitalized: a string here is a sequence of Unicode scalar values, while JavaScript's `length`, indexing, `slice`, `charAt` and a regular expression's `.` work on UTF-16 code units. For text outside the Basic Multilingual Plane the lengths and cut points differ: thirty '😀' have length 60 in JavaScript and 30 here, so `truncateString` and the 8-character password minimum treat them differently, and a first character can be half a surrogate pair. Strings are ordered by scalar value, where JavaScript's `<` compares code units; the two orders differ between a character above U+FFFF and one in U+E000–U+FFFF.
- `null` and `undefined` are both `None` wherever the code treats them alike.
- `Number()` of arbitrary text is restricted to optional sign, decimal digits and surrounding whitespace. Exponents, hexadecimal and fractions are not modelled.
- The newer front-end's own vehicle store is not part of this model. Its pages use the records of the older `frontend/src/stores/vehicleStore.ts`.
- VehicleDetails.History, VehicleDetails.HistoryRows, VehicleDetails.FromBooking and VehicleDetails.InspectionRowsBookedFor: frontend/src/pages/VehicleDetails.tsx imports `../stores/inspectionStore`, which is not part of this model. Its `inspections` and `bookings` are modelled with the records of the newer front-end's inspection store (InspectionStore), so their fields follow that store and not the older one.
- Vehicles.Screen.Submit and Vehicles.Screen.Delete return the store call they would make instead of making it, because the newer front-end's vehicle store is not part of this model.
- Promises the pages call without `await` (`cancelBooking`, `updateInspection`, `bookInspection`) cannot reject into the page's `catch`. The pages' success messages are therefore modelled as shown whatever the store reports.
- FileUpload, image upload (`handleImageUpload`, `URL.createObjectURL`) and `window.confirm`. The confirmation is a boolean parameter.
- ProfilePage's `handleDeleteAccount`: after a simulated call it only shows a message and closes a dialog.
- Navigation-only handlers are not modelled: `handleBookInspection`, `handleViewInspection`, `handlePrintReport` and `handleTabChange`.
- InspectionsPage.StatusColor has no default branch, because the modelled status type has only its three values.

## Findings

| source | as written | input that shows it | evidently intended | confidence | as-written member | corrected member |
|---|---|---|---|---|---|---|
| frontend/src/pages/vehicles/VehiclesPage.tsx:187 | a new vehicle's id is the list length plus one | the loaded page, vehicles '1' to '4'; delete '1'; add a vehicle, which gets id '4' while vehicle '4' is still listed | ids stay distinct: a new id is above every numeric id in the list | not executed | VehiclesPage.Page.DeleteThenAddRepeatsId | VehiclesPage.Page.AddVehicleFresh |
| frontend-vite/src/src/pages/InspectionDetails.tsx:261-263 | items are counted by status 'passed', 'failed' and 'pending' | a report whose five items all have status 'pass' shows 0 passed | counts by the item statuses 'pass', 'fail' and 'not_checked' | not executed | InspectionDetails.ItemCountsAsWrittenAlwaysZero | InspectionDetails.ItemCountsPartition |
| frontend-vite/src/src/components/inspections/InspectionCard.tsx:164-179 | the Cancel item is shown only for status 'pending', and Print calls the `onPrint` prop | a booking card, status 'scheduled', is passed a cancel callback but shows no Cancel item; a completed card is passed its print callback as `onPrintReport`, which Print never calls | Cancel is offered for open bookings, and Print calls the page's print callback | not executed | InspectionsList.CardCallbacksUnreachable | InspectionsList.MenuReachesCallbacks |
