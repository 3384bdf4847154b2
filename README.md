# Workspace portal: a verified model of its client-side logic

The portal is a React single-page workspace for a team. After signing in, a
member sees an announcement feed, a task list, expense claims, leave
requests, meetings, an events calendar, poll voting, a team directory, a
floating chat and an invoice/quotation editor. Most of the program is
presentation and calls to a hosted backend. The logic inside the views is
small, deterministic list handling and text processing, and this project
models that logic in Dafny and proves what each view promises:

- The list stores (tasks, claims, leave requests, meetings, posts,
  notifications, chat messages) are classes. Each handler replaces the
  stored list with one built by prepending, appending, mapping by id or
  filtering by id. Each handler is proved to produce the list given by a
  pure function, and lemmas prove the properties of that function:
  - what is kept and in what order;
  - that ids stay distinct;
  - that per-status counts and totals add up;
  - that the task status cycle returns after three toggles;
  - that the Approve and Reject buttons of a claim or leave request are offered only to an admin while it is pending, and that once it is approved or rejected nobody is offered them again.
- Poll voting (`governance.dfy`) keeps the invariant that each poll's total
  is the sum of its option votes. A second vote on the same poll, or a vote
  on a closed poll, changes nothing.
- The invoice editor (`invoice_editor.dfy`) is modelled as it really
  behaves:
  - The document's top level is copied on every edit.
  - The nested objects (`from`, `client`, …) are shared objects that
    `updateField` mutates in place.
  - Document numbers (`invoice_ids.dfy`) keep their serial across changes of
    date and type. The due date reads back as fifteen days after the
    document date.
  - The line items and totals are in `invoice_items.dfy`.
  - The amount in words follows the Indian numbering system
    (`invoice_words.dfy`). The words of every positive amount are proved
    to read back as that amount, so different amounts are never written
    alike.
- The selectors and tables:
  - team search and departments;
  - upcoming/past meetings, kept in date order by a stable sort;
  - status, role and type colours;
  - avatar initials;
  - sign-in form validation and its notices;
  - the calendar's record-to-form mapping and save normalisation.

Supporting modules:

- `dates.dfy`: the proleptic Gregorian calendar with day numbers, and the
  `YYYY-MM-DD` text format with its round trip.
- `text.dfy`: the JavaScript string operations used (`trim`,
  `toLowerCase`, `includes`, `split`/`join`, `slice`, `padStart`,
  `String(n)`, `parseInt`).
- `seqs.dfy`: `filter`, count and sum lemmas.
- `sorting.dfy`: the stable sort.
- `numbers.dfy`: `NaN`-or-value numbers and `Math.round`.
- `data.dfy`: the records and default datasets of `src/lib/data.ts`, with their ids proved distinct.

## Model

| member | source | states |
|---|---|---|
| Auth.KeyCount | src/pages/Auth.tsx:48 | the number of recorded error entries, at most three |
| Auth.FormErrors | src/pages/Auth.tsx:30-46 | an e-mail error exactly when the e-mail check fails, a password error exactly when the password has fewer than 6 characters, a full-name error exactly when signing up with a blank name; each with its message |
| Auth.FormValidIff | src/pages/Auth.tsx:30-48 | the form is valid exactly when the e-mail passes, the password has at least 6 characters and the mode is login or the name is not blank |
| Auth.SubmitAttempt | src/pages/Auth.tsx:51-76 | no attempt exactly when the form is invalid; a sign-in with the form's e-mail and password exactly when in login mode; otherwise a sign-up that also carries the name |
| Auth.SignInNotice | src/pages/Auth.tsx:58-103 | a destructive notice exactly when the service reports an error or the call throws; "Invalid login credentials" becomes the friendly text; any other message is shown as it is; a throw gives the "Error" notice |
| Auth.SignUpNotice | src/pages/Auth.tsx:58-103 | a destructive notice exactly on error or throw; "Account exists" when the message contains "already registered", otherwise "Sign up failed" with the message; a throw gives the "Error" notice |
| Auth.SubmitNotice | src/pages/Auth.tsx:51-103 | no notice exactly when no attempt is made; otherwise the sign-in or sign-up notice of the mode; a throw in either mode gives "An unexpected error occurred. Please try again." |
| Auth.WelcomeOnlyOnSuccess | src/pages/Auth.tsx:58-103 | a non-destructive notice is shown exactly when an attempt is made and the service replies without error |
| Auth.SignInKeepsOtherMessages | src/pages/Auth.tsx:64-66 | every message other than "Invalid login credentials" is shown unchanged |
| Auth.TakenAddressNotice | src/pages/Auth.tsx:78-83 | the message "User already registered" gives the "Account exists" notice |
| Auth.AuthPage.constructor | src/pages/Auth.tsx:12-18 | login mode, empty inputs, no errors |
| Auth.AuthPage.ToggleMode | src/pages/Auth.tsx:270 | the mode flips, the errors are cleared, the inputs are kept |
| Auth.AuthPage.SetEmail | src/pages/Auth.tsx:221 | the e-mail is replaced and only its error is cleared |
| Auth.AuthPage.SetPassword | src/pages/Auth.tsx:236 | the password is replaced and only its error is cleared |
| Auth.AuthPage.SetFullName | src/pages/Auth.tsx:205 | the name is replaced and only its error is cleared |
| Auth.AuthPage.ValidateForm | src/pages/Auth.tsx:30-49 | the recorded errors are those of `FormErrors`; the result is whether there are none |
| Auth.AuthPage.HandleSubmit | src/pages/Auth.tsx:51-60 | an invalid form makes no attempt; a valid one makes the sign-in or sign-up of `SubmitAttempt`; the inputs are kept |
| Avatar.Initials | src/components/portal/UserAvatar.tsx:32-39 | at most two characters |
| Avatar.FirstCharsAreWordStarts | src/components/portal/UserAvatar.tsx:34-36 | the first characters of the space-split parts are the characters that start a word; empty parts give nothing |
| Avatar.InitialsAreWordStarts | src/components/portal/UserAvatar.tsx:32-39 | the initials are the upper-cased word starts of the name, in order, cut to two |
| Avatar.EmptyName | src/components/portal/UserAvatar.tsx:32-39 | an empty name gives "" |
| Avatar.OneWord | src/components/portal/UserAvatar.tsx:32-39 | a single word gives its upper-cased first letter |
| Avatar.TwoWords | src/components/portal/UserAvatar.tsx:32-39 | two words give the upper-cased first letter of each |
| Avatar.ArjunKumar | src/components/portal/UserAvatar.tsx:32-39 | "Arjun Kumar" gives "AK" |
| CalendarView.DaysOr1 | src/components/portal/CalendarView.tsx:174 | a missing or zero day count becomes 1, any other count is kept |
| CalendarView.FormOf | src/components/portal/CalendarView.tsx:168-187 | the college name, date, status and cost are copied; `null` texts become ""; the day count is `DaysOr1` of the row's |
| CalendarView.SavedCost | src/components/portal/CalendarView.tsx:112 | an empty, zero or `NaN` cost is saved as `null`; any other cost as itself |
| CalendarView.SaveRequestFor | src/components/portal/CalendarView.tsx:95-129 | refused exactly when the college name is blank; otherwise an update of the edited row, or an insert stamped with the user, carrying the form with the saved cost |
| CalendarView.EditThenSave | src/components/portal/CalendarView.tsx:107-185 | editing a row and saving it unchanged updates that row, keeps its name, date, status and creator, turns `null` texts into "", a missing day count into 1 and a zero cost into `null` |
| CalendarView.EditRoundTrip | src/components/portal/CalendarView.tsx:107-185 | a row without `null` texts, with a non-zero day count and without a zero cost is written back exactly as it was |
| CalendarView.NewForm | src/components/portal/CalendarView.tsx:189-196 | the initial form with only its date changed; that date reads back as the selected day, or today when none is selected |
| CalendarView.EventsForDateExactly | src/components/portal/CalendarView.tsx:203-205 | an event is shown for a day exactly when it is loaded and its date is that day's; the shown events keep their order |
| CalendarView.StatusColor | src/components/portal/CalendarView.tsx:207-220 | success exactly for accepted or completed, warning exactly for pending or awaiting confirmation, destructive exactly for rejected, ignoring case; default otherwise |
| CalendarView.StatusColorIgnoresCase | src/components/portal/CalendarView.tsx:208 | the colour of a status and of its lower-cased form agree |
| CalendarView.StatusColorOfOptions | src/components/portal/CalendarView.tsx:37 | the five drop-down statuses get warning, success, destructive, warning and success |
| CalendarView.CalendarState.constructor | src/components/portal/CalendarView.tsx:57-63 | no rows, no selected day, no edited row, form closed and set to the initial form |
| CalendarView.CalendarState.Loaded | src/components/portal/CalendarView.tsx:78 | the rows are replaced, nothing else changes |
| CalendarView.CalendarState.SelectDate | src/components/portal/CalendarView.tsx:289 | the selected day is set, nothing else changes |
| CalendarView.CalendarState.SetForm | src/components/portal/CalendarView.tsx:475 | the form is replaced, nothing else changes |
| CalendarView.CalendarState.SetDays | src/components/portal/CalendarView.tsx:508 | only the day count changes, to `DaysOr1` of the parsed text |
| CalendarView.CalendarState.SetCost | src/components/portal/CalendarView.tsx:586 | empty text clears the cost, other text stores its parsed number; only the cost changes |
| CalendarView.CalendarState.HandleEdit | src/components/portal/CalendarView.tsx:168-187 | the row is being edited, the form is `FormOf` the row and open |
| CalendarView.CalendarState.HandleAddNew | src/components/portal/CalendarView.tsx:189-196 | nothing is being edited and the form is open with `NewForm` |
| CalendarView.CalendarState.HandleSave | src/components/portal/CalendarView.tsx:95-145 | the request is `SaveRequestFor`; an accepted request closes and resets the form; a refused or failed one changes nothing |
| Chat.KeysDistinct | src/components/portal/ChatWidget.tsx:55-58 | two different conversations are stored under two different property names |
| Chat.Appended | src/components/portal/ChatWidget.tsx:55-58 | the key gains its history (empty when absent) plus the message at the end; every other history is unchanged and no other key appears |
| Chat.Sent | src/components/portal/ChatWidget.tsx:44-58 | a blank input changes nothing; otherwise a message from "You" with the text is appended to the open conversation |
| Chat.SendTwice | src/components/portal/ChatWidget.tsx:55-58 | two sends in one conversation append both messages, in order |
| Chat.TeamExcludes | src/components/portal/ChatWidget.tsx:36 | a member is on the team exactly when listed and its uid differs from `parseInt` of the user's uid, read in base 16 after `0x` |
| Chat.HexUidExcludes | src/components/portal/ChatWidget.tsx:36 | a user uid written `0x` and hexadecimal digits leaves out exactly the members whose uid is that base-16 value |
| Chat.PageUidNotNumber | src/pages/Index.tsx:22 | the page's uid "test-admin-01" does not parse as a number |
| Chat.NobodyWithoutUser | src/components/portal/ChatWidget.tsx:36 | when the uid is not a number, no member is dropped |
| Chat.PageUserKeepsWholeTeam | src/components/portal/ChatWidget.tsx:36 | with the page's uid, the team is the whole default team |
| Chat.ChatWidget.constructor | src/components/portal/ChatWidget.tsx:23-33 | the saved histories or the default ones, the general channel open, an empty input |
| Chat.ChatWidget.Open | src/components/portal/ChatWidget.tsx:140 | only the open conversation changes |
| Chat.ChatWidget.SetNewMessage | src/components/portal/ChatWidget.tsx:180 | only the input changes |
| Chat.ChatWidget.HandleSend | src/components/portal/ChatWidget.tsx:44-63 | the histories become `Sent` of the old ones; the input is cleared unless it was blank |
| Dashboard.Posted | src/components/portal/DashboardView.tsx:32-45 | a blank text changes nothing; otherwise one more post, in front, of kind UPDATE, dated "Just now", with the user's name and role, and the earlier posts unchanged behind it |
| Dashboard.Deleted | src/components/portal/DashboardView.tsx:52 | no remaining post has the id |
| Dashboard.DeletedKeepsOthers | src/components/portal/DashboardView.tsx:52 | exactly the posts with another id remain, in their order |
| Dashboard.DeleteUndoesPost | src/components/portal/DashboardView.tsx:32-55 | deleting a post just published under an unused id gives back the earlier feed |
| Dashboard.DashboardView.constructor | src/components/portal/DashboardView.tsx:24-30 | the saved posts or the default ones, an empty post box |
| Dashboard.DashboardView.SetNewPost | src/components/portal/DashboardView.tsx:107 | only the post box changes |
| Dashboard.DashboardView.HandlePost | src/components/portal/DashboardView.tsx:32-49 | the feed becomes `Posted` of the old one; the box is cleared unless it was blank |
| Dashboard.DashboardView.DeletePost | src/components/portal/DashboardView.tsx:51-55 | the feed becomes `Deleted` of the old one |
| Data.Ids | src/lib/data.ts:94-191 | the ids of a list, one per entry, in order |
| Data.FilterKeepsUniqueIds | src/lib/data.ts:94-191 | a filtered list of distinct ids keeps them distinct |
| Data.PrependKeepsUniqueIds | src/lib/data.ts:94-191 | putting an entry with an unused id in front keeps the ids distinct |
| Data.NumberedIds | src/lib/data.ts:94-191 | a list numbered 1, 2, 3, ... in order has distinct ids |
| Data.PostIdsUnique | src/lib/data.ts:94-119 | the default posts have distinct ids |
| Data.EventIdsUnique | src/lib/data.ts:121-126 | the default events have distinct ids |
| Data.TaskIdsUnique | src/lib/data.ts:128-133 | the default tasks have distinct ids |
| Data.MeetingIdsUnique | src/lib/data.ts:135-138 | the default meetings have distinct ids |
| Data.ClaimIdsUnique | src/lib/data.ts:140-144 | the default claims have distinct ids |
| Data.PollIdsUnique | src/lib/data.ts:146-170 | the default polls have distinct ids |
| Data.TeamUidsUnique | src/lib/data.ts:172-179 | the default team members have distinct uids |
| Data.LeaveIdsUnique | src/lib/data.ts:181-184 | the default leave requests have distinct ids |
| Data.NotificationIdsUnique | src/lib/data.ts:186-191 | the default notifications have distinct ids |
| Dates.DaysInMonth | src/components/portal/InvoiceView.tsx:78 | from 28 to 31 days; February has 29 exactly in leap years |
| Dates.DaysBeforeYearStep | src/components/portal/InvoiceView.tsx:78 | a year adds its own length to the count of days before the next year |
| Dates.DaysBeforeMonthStep | src/components/portal/InvoiceView.tsx:78 | a month adds its own length to the count of days before the next month |
| Dates.NextDay | src/components/portal/InvoiceView.tsx:78 | the next calendar day is a valid date one day number later |
| Dates.AddDays | src/components/portal/InvoiceView.tsx:78 | `setDate(getDate() + n)` gives a valid date exactly `n` day numbers later |
| Dates.FormatIso | src/components/portal/InvoiceView.tsx:79 | the date part of `toISOString()` of a four-digit year has ten characters |
| Dates.ParseIso | src/components/portal/InvoiceView.tsx:77 | a text that reads as a date has the shape `DDDD-DD-DD` and names a real day |
| Dates.ParseFormatIso | src/components/portal/InvoiceView.tsx:77-79 | the formatted text of a date reads back as that date |
| Dates.FormatParseIso | src/components/portal/InvoiceView.tsx:77-79 | a text that reads as a date is the formatted text of that date |
| Finance.NewClaimIsPending | src/components/portal/FinanceView.tsx:31-40 | a new claim is Pending, names the user as claimant, carries the entered amount and is dated on the day it was filed |
| Finance.Submitted | src/components/portal/FinanceView.tsx:41 | one more claim, the new one in front, the earlier ones unchanged behind it |
| Finance.StatusUpdated | src/components/portal/FinanceView.tsx:49 | the same length; claims with the id get the new status and keep every other field; all other claims are unchanged |
| Finance.Filtered | src/components/portal/FinanceView.tsx:54 | the filter 'all' shows every claim |
| Finance.FilteredByStatus | src/components/portal/FinanceView.tsx:54 | a status filter shows exactly the claims of that status, in their order |
| Finance.ClaimTotals | src/components/portal/FinanceView.tsx:56-60 | the three totals add up to the sum of all amounts |
| Finance.TotalsPartition | src/components/portal/FinanceView.tsx:56-60 | the pending, approved and rejected sums together are the sum of all amounts |
| Finance.TotalOfCons | src/components/portal/FinanceView.tsx:57-59 | a claim in front adds its amount to the total of its own status only |
| Finance.SubmittedTotals | src/components/portal/FinanceView.tsx:29-60 | a submitted claim raises the pending total by its amount and leaves the approved and rejected totals alone |
| Finance.DefaultTotals | src/lib/data.ts:140-144 | the default claims total 15000 pending, 4500 approved and 1200 rejected |
| Finance.OneOfEachTotals | src/components/portal/FinanceView.tsx:56-60 | three claims, one of each status, total their own amounts |
| Finance.ThreeTotals | src/components/portal/FinanceView.tsx:56-60 | the total of a status over three claims is the sum of the amounts of those in that status |
| Finance.FinanceView.constructor | src/components/portal/FinanceView.tsx:20-25 | the saved claims or the default ones, the filter 'all' |
| Finance.FinanceView.HandleSubmit | src/components/portal/FinanceView.tsx:29-46 | the list becomes `Submitted` of the old one with `NewClaim`; the filter is kept |
| Finance.FinanceView.UpdateStatus | src/components/portal/FinanceView.tsx:48-52 | the list becomes `StatusUpdated` of the old one |
| Finance.FinanceView.SetFilter | src/components/portal/FinanceView.tsx:119 | only the filter changes |
| Finance.DecisionIsFinal | src/components/portal/FinanceView.tsx:48-52 | after approving or rejecting, every claim with that id has the new status and shows no role the buttons |
| Finance.FinanceView.Decide | src/components/portal/FinanceView.tsx:164-172 | offered only to STATE_ADMIN on a Pending claim; sets Approved or Rejected on the claims with its id |
| Leave.NewRequestIsPending | src/components/portal/LeaveView.tsx:35-44 | a new request is Pending and records the day it was filed |
| Leave.Submitted | src/components/portal/LeaveView.tsx:45 | one more request, the new one in front, the earlier ones unchanged behind it |
| Leave.StatusUpdated | src/components/portal/LeaveView.tsx:53 | the same length; requests with the id get the new status and keep every other field; all others are unchanged |
| Leave.CeilDaysOfMultiple | src/components/portal/LeaveView.tsx:72 | a whole number of days of milliseconds rounds up to itself |
| Leave.DaysCount | src/components/portal/LeaveView.tsx:68-73 | a number exactly when both dates are readable, otherwise `NaN` |
| Leave.DaysCountInclusive | src/components/portal/LeaveView.tsx:68-73 | the count is the distance of the two day numbers plus one: at least 1 and the same either way round |
| Leave.DaysCountOf | src/components/portal/LeaveView.tsx:68-73 | for two readable dates, the count is the distance of their day numbers plus one |
| Leave.DaysBetween | src/components/portal/LeaveView.tsx:71-72 | the rounded-up days between the time values are the distance of the day numbers |
| Leave.ScaledDistance | src/components/portal/LeaveView.tsx:71 | the distance of two time values is the distance of the day numbers times the day length |
| Leave.StatusVariant | src/components/portal/LeaveView.tsx:250-256 | success exactly for Approved, destructive exactly for Rejected, warning exactly for Pending |
| Leave.PendingSplit | src/components/portal/LeaveView.tsx:75-76 | each request is in exactly one of the pending and the other groups, by its status; each group keeps the list's order; together they are a permutation of the list |
| Leave.LeaveView.constructor | src/components/portal/LeaveView.tsx:20-22 | the saved requests or the default ones |
| Leave.LeaveView.HandleSubmit | src/components/portal/LeaveView.tsx:33-50 | the list becomes `Submitted` of the old one with `NewRequest` |
| Leave.LeaveView.UpdateStatus | src/components/portal/LeaveView.tsx:52-56 | the list becomes `StatusUpdated` of the old one |
| Leave.DecisionIsFinal | src/components/portal/LeaveView.tsx:52-56 | after approving or rejecting, every request with that id has the new status and shows no role the buttons |
| Leave.LeaveView.Decide | src/components/portal/LeaveView.tsx:293-297 | offered only to STATE_ADMIN on a Pending request; sets Approved or Rejected on the requests with its id |
| Governance.Cast | src/components/portal/GovernanceView.tsx:29-31 | the same options, ids and texts; each option with the chosen id gains one vote, every other keeps its count |
| Governance.VoteOn | src/components/portal/GovernanceView.tsx:24-32 | a voted or closed poll is unchanged; otherwise the total rises by one, `userVoted` becomes the chosen id and the options take the cast |
| Governance.Voted | src/components/portal/GovernanceView.tsx:21-35 | the same length and order; the polls with the id take `VoteOn`, all others are unchanged |
| Governance.CastSum | src/components/portal/GovernanceView.tsx:29-31 | a cast raises the sum of the votes by the number of options carrying the chosen id |
| Governance.VoteKeepsTally | src/components/portal/GovernanceView.tsx:24-31 | on a poll whose total is the sum of its votes, an accepted vote keeps that exactly when one option carries the chosen id; a blocked vote keeps it |
| Governance.VoteForListedOption | src/components/portal/GovernanceView.tsx:24-31 | with distinct option ids, a vote for one of the poll's options keeps the total equal to the sum of the votes |
| Governance.OnlyOneMatch | src/components/portal/GovernanceView.tsx:29-31 | with distinct ids, exactly one option carries an id that occurs |
| Governance.NoMatch | src/components/portal/GovernanceView.tsx:29-31 | no option carries an id that does not occur |
| Governance.SecondVoteIsNoOp | src/components/portal/GovernanceView.tsx:24-28 | after a vote, a second vote on the same poll changes nothing |
| Governance.CanVoteIffVoteCounts | src/components/portal/GovernanceView.tsx:116-117 | a poll offers voting exactly when a vote would change it, and exactly when it does not show results |
| Governance.Percentage | src/components/portal/GovernanceView.tsx:139-141 | 0 when there are no votes; between 0 and 100 for an option's share |
| Governance.DefaultPollsConsistent | src/lib/data.ts:146-170 | each default poll's total is the sum of its votes, and its `userVoted` is absent or one of its option ids |
| Governance.GovernanceView.constructor | src/components/portal/GovernanceView.tsx:17-19 | the saved polls or the default ones |
| Governance.GovernanceView.HandleVote | src/components/portal/GovernanceView.tsx:21-38 | the polls become `Voted` of the old ones |
| InvoiceEditor.KeyOf | src/components/portal/InvoiceView.tsx:139-141 | the key a property name denotes names that property; a name outside the twelve of `initData` is a key of its own |
| InvoiceEditor.KeyOfInjective | src/components/portal/InvoiceView.tsx:139-141 | two property names reach the same key exactly when they are equal |
| InvoiceEditor.Walk | src/components/portal/InvoiceView.tsx:137-140 | the walk stays at the top level only for an empty path, and any nested object it reaches belongs to the document |
| InvoiceEditor.DeepPathsFail | src/components/portal/InvoiceView.tsx:137-141 | a path of three or more keys reaches neither the top level nor a nested object, so its assignment throws |
| InvoiceEditor.SingleKey | src/components/portal/InvoiceView.tsx:136-141 | a path that walks no keys assigns the whole path as one property name |
| InvoiceEditor.Redated | src/components/portal/InvoiceView.tsx:141-146 | the date, due date and number take the new values and every other top-level value stays |
| InvoiceEditor.RootUpdate | src/components/portal/InvoiceView.tsx:141-147 | a key other than `date` just takes the value; `date` fails exactly when the text is not a readable date |
| InvoiceEditor.ClearedDateFails | src/components/portal/InvoiceView.tsx:319 | clearing the date input writes `""` at the top-level key `date`, and that update fails (the view crashes) |
| InvoiceEditor.GuardedRootUpdate | src/components/portal/InvoiceView.tsx:141-147 | never fails and always records the value; equals `RootUpdate` whenever that succeeds; otherwise only the written key changes |
| InvoiceEditor.GuardedClearedDate | src/components/portal/InvoiceView.tsx:319 | with the guard, clearing the date empties it and keeps every other field, due date and number included |
| InvoiceEditor.DateUpdate | src/components/portal/InvoiceView.tsx:143-147 | a readable date sets the date, the due date `calcDue` gives and the number regenerated from the old serial, and nothing else |
| InvoiceEditor.DateChangeKeepsSerial | src/components/portal/InvoiceView.tsx:143-147 | a new date keeps a non-empty serial and the type prefix, and the due date reads back fifteen days later |
| InvoiceEditor.Retyped | src/components/portal/InvoiceView.tsx:155-159 | the type and number take the new values and every other top-level value stays |
| InvoiceEditor.TypeUpdate | src/components/portal/InvoiceView.tsx:152-161 | the type is set, the date and all but the number stay, the number carries the new prefix and keeps a non-empty serial |
| InvoiceEditor.TypeRoundTrip | src/components/portal/InvoiceView.tsx:152-161 | switching the type of a fresh document away and back restores its number |
| InvoiceEditor.InitialFields | src/components/portal/InvoiceView.tsx:111-125 | exactly the twelve names of `initData`, type `INVOICE`, the given number and dates, 18% tax, the standard notes and the given nested objects |
| InvoiceEditor.InvoiceEditor.constructor | src/components/portal/InvoiceView.tsx:109-126 | a new document holding the initial top level with a fresh `INVOICE` number and the due date, one empty item, and six new nested objects with their initial contents |
| InvoiceEditor.InvoiceEditor.NewSections | src/components/portal/InvoiceView.tsx:116-124 | six new nested objects with the initial contents of `from`, `client`, `bank`, `design`, `logo` and `sig` |
| InvoiceEditor.InvoiceEditor.Locate | src/components/portal/InvoiceView.tsx:137-140 | the loop ends where `Walk` of every key but the last leads |
| InvoiceEditor.InvoiceEditor.UpdateField | src/components/portal/InvoiceView.tsx:133-150 | a top-level path gives the new document `RootUpdate`; a nested path changes only that shared nested object, under a new document with the same top level; any other path throws, which crashes the view and is modelled as the old document kept; the items and every other nested object stay |
| InvoiceEditor.InvoiceEditor.UpdateRoot | src/components/portal/InvoiceView.tsx:141-148 | succeeds exactly when `RootUpdate` does, and then the new document holds its result; a failure changes nothing |
| InvoiceEditor.InvoiceEditor.SetDocType | src/components/portal/InvoiceView.tsx:152-161 | a new document with `TypeUpdate` of the old top level and the same items |
| InvoiceEditor.InvoiceEditor.AddItem | src/components/portal/InvoiceView.tsx:163-168 | a new document with the same top level and `Added` items |
| InvoiceEditor.InvoiceEditor.DeleteItem | src/components/portal/InvoiceView.tsx:170-175 | a new document with the same top level and `DeletedAt` items |
| InvoiceEditor.InvoiceEditor.UpdateItem | src/components/portal/InvoiceView.tsx:177-184 | a new document with the same top level and `UpdatedAt` items |
| InvoiceIds.Prefix | src/components/portal/InvoiceView.tsx:68 | three letters without `-`: `INV` exactly for `INVOICE`, `QUO` otherwise |
| InvoiceIds.YearMonth | src/components/portal/InvoiceView.tsx:69-71 | no `-` in it; an unreadable date gives `aNNaN` |
| InvoiceIds.ChosenSerial | src/components/portal/InvoiceView.tsx:72 | a non-empty serial is kept; an absent or empty one becomes the decimal digits of the draw plus 1000; never empty |
| InvoiceIds.GenerateId | src/components/portal/InvoiceView.tsx:67-74 | the number starts with the prefix and `-` |
| InvoiceIds.SerialIsLastSegment | src/components/portal/InvoiceView.tsx:67-74 | a non-empty serial without `-` is the last `-` segment of the number |
| InvoiceIds.FreshSerial | src/components/portal/InvoiceView.tsx:72-73 | a number made without a serial ends in four digits worth the draw plus 1000 |
| InvoiceIds.RegenerateKeepsSerial | src/components/portal/InvoiceView.tsx:145-146 | regenerating from the last segment of an earlier number keeps that segment, for any type and date |
| InvoiceIds.LastTwoDigits | src/components/portal/InvoiceView.tsx:70 | `String(year).slice(-2)` is the two digits of the year modulo 100 |
| InvoiceIds.MonthDigits | src/components/portal/InvoiceView.tsx:71 | the padded month is its two digits |
| InvoiceIds.IdOfValidDate | src/components/portal/InvoiceView.tsx:67-74 | for a readable date from year 10 on, the number is prefix, two-digit year, two-digit month and serial |
| InvoiceIds.YearMonthOfValid | src/components/portal/InvoiceView.tsx:69-71 | the year-month part of a readable date from year 10 on is its two-digit year and month |
| InvoiceIds.CalcDue | src/components/portal/InvoiceView.tsx:76-80 | fails exactly when the date is not readable |
| InvoiceIds.DueFifteenDaysLater | src/components/portal/InvoiceView.tsx:76-80 | the due date reads back as the day fifteen days after the date |
| InvoiceIds.DueOfFormatted | src/components/portal/InvoiceView.tsx:110 | the formatted date of today always has a due date |
| InvoiceItems.TaxAmount | src/components/portal/InvoiceView.tsx:238 | a zero rate adds no tax; a non-negative subtotal and rate give a non-negative tax |
| InvoiceItems.Total | src/components/portal/InvoiceView.tsx:237-239 | within half a rupee of subtotal plus tax; with a zero rate the rounded subtotal |
| InvoiceItems.Added | src/components/portal/InvoiceView.tsx:163-168 | the old items followed by one empty item |
| InvoiceItems.AddedSubtotal | src/components/portal/InvoiceView.tsx:166 | adding an item keeps the subtotal |
| InvoiceItems.DeletedAt | src/components/portal/InvoiceView.tsx:173 | the items without position `index`, or all of them when it is outside the list |
| InvoiceItems.DeletedAtRemovesIndex | src/components/portal/InvoiceView.tsx:173 | one fewer item, the ones before in place, the ones after moved up, and the subtotal less the removed amount |
| InvoiceItems.DropOneSubtotal | src/components/portal/InvoiceView.tsx:237 | removing one item lowers the subtotal by its amount |
| InvoiceItems.SumAround | src/components/portal/InvoiceView.tsx:237 | the subtotal splits over concatenation |
| InvoiceItems.Edited | src/components/portal/InvoiceView.tsx:181 | the named field takes the text, or the number, or 0 when the number is falsy |
| InvoiceItems.EditedKeepsOthers | src/components/portal/InvoiceView.tsx:181 | every other field stays, and a non-numeric quantity or rate makes the amount zero |
| InvoiceItems.UpdatedAt | src/components/portal/InvoiceView.tsx:180-182 | same length, every other item unchanged, the item at `index` edited |
| InvoiceItems.UpdatedAtSubtotal | src/components/portal/InvoiceView.tsx:177-184 | the subtotal changes by the change of the edited item's amount; an index outside the list changes nothing |
| InvoiceWords.NumToWords | src/components/portal/InvoiceView.tsx:92-107 | exactly zero gives `Zero Rupees Only`; anything else is `convert` of the rounded amount; every result ends in ` Rupees Only` |
| InvoiceWords.FractionBelowHalf | src/components/portal/InvoiceView.tsx:93-106 | an amount that is not zero but rounds to zero prints no amount words, since the zero test comes before the rounding |
| InvoiceWords.NumToWordsOfTotal | src/components/portal/InvoiceView.tsx:93-106 | a whole total prints `Zero` exactly for zero and otherwise its `convert` text |
| InvoiceWords.Words | src/components/portal/InvoiceView.tsx:98-103 | the word list of an amount is empty exactly for zero |
| InvoiceWords.WordsShape | src/components/portal/InvoiceView.tsx:98-103 | every entry is a word without spaces, and no scale word counts more than the amount |
| InvoiceWords.ConvertIsJoin | src/components/portal/InvoiceView.tsx:97-104 | `convert` of a positive amount is its word list joined by single spaces |
| InvoiceWords.HundredsIsJoin | src/components/portal/InvoiceView.tsx:100 | the hundreds branch joins the hundreds word, `Hundred` and the rest |
| InvoiceWords.ThousandsIsJoin | src/components/portal/InvoiceView.tsx:101 | the thousands branch joins the group, `Thousand` and the rest |
| InvoiceWords.LakhsIsJoin | src/components/portal/InvoiceView.tsx:102 | the lakh branch joins the group, `Lakh` and the rest |
| InvoiceWords.CroresIsJoin | src/components/portal/InvoiceView.tsx:103 | the crore branch joins the group, `Crore` and the rest |
| InvoiceWords.Find | src/components/portal/InvoiceView.tsx:94-95 | -1, or an index from `i` on holding the word |
| InvoiceWords.OnesValue | src/components/portal/InvoiceView.tsx:94 | each word of `ones` reads back as its index |
| InvoiceWords.TensValue | src/components/portal/InvoiceView.tsx:95 | each word of `tens` reads back as ten times its index |
| InvoiceWords.TensEndInY | src/components/portal/InvoiceView.tsx:95 | every tens word ends in `y` |
| InvoiceWords.OnesEndOtherwise | src/components/portal/InvoiceView.tsx:94 | no ones word ends in `y`, so no ones word is a tens word |
| InvoiceWords.LastIndex | src/components/portal/InvoiceView.tsx:101-103 | -1 when the word is absent, otherwise an index holding it with none after it |
| InvoiceWords.UnitsValue | src/components/portal/InvoiceView.tsx:98-99 | the words of an amount below 100 sum to it |
| InvoiceWords.ScaleSplit | src/components/portal/InvoiceView.tsx:101-103 | between one unit of a scale and the next scale, the words are the group, the scale word and the remainder |
| InvoiceWords.BelowScale | src/components/portal/InvoiceView.tsx:98-103 | an amount below a scale has no word of that scale |
| InvoiceWords.WordsValueAt | src/components/portal/InvoiceView.tsx:98-103 | the words of an amount read back as the amount |
| InvoiceWords.ConvertWords | src/components/portal/InvoiceView.tsx:97-104 | splitting the text of a positive amount at spaces gives its word list, each entry a word |
| InvoiceWords.WordsReadBack | src/components/portal/InvoiceView.tsx:97-104 | the text of every positive amount reads back as that amount |
| InvoiceWords.ConvertInjective | src/components/portal/InvoiceView.tsx:97-104 | different positive amounts get different texts |
| InvoiceWords.ZeroIsNoAmount | src/components/portal/InvoiceView.tsx:93-104 | `Zero` is the text of no positive amount |
| InvoiceWords.NumToWordsInjective | src/components/portal/InvoiceView.tsx:92-107 | different whole totals from zero up get different amounts in words |
| InvoiceWords.NegativeTotal | src/components/portal/InvoiceView.tsx:98 | a negative total prints `undefined Rupees Only` |
| InvoiceWords.SmallAmounts | src/components/portal/InvoiceView.tsx:98-99 | amounts below twenty are their `ones` word and the round tens their `tens` word alone |
| InvoiceWords.ScaleAmounts | src/components/portal/InvoiceView.tsx:101-103 | a whole number of thousands, lakhs or crores is the count and the scale word, with no trailing space |
| InvoiceWords.WholeGroups | src/components/portal/InvoiceView.tsx:102-106 | one to nineteen lakhs or crores print the count's word, the scale word and ` Rupees Only` |
| Meetings.SortByDate | src/components/portal/MeetingsView.tsx:32 | the sorted list is a permutation of the input |
| Meetings.Scheduled | src/components/portal/MeetingsView.tsx:32 | one more meeting: the old ones and the new one, reordered |
| Meetings.ScheduledByUser | src/components/portal/MeetingsView.tsx:26-32 | the scheduled list holds the form's meeting, stamped with the clock, created by the user and with no attendees |
| Meetings.ScheduledSorted | src/components/portal/MeetingsView.tsx:32 | with readable dates throughout, the scheduled list is in ascending date order |
| Meetings.Deleted | src/components/portal/MeetingsView.tsx:40 | no meeting with the id is left |
| Meetings.DeletedKeepsOthers | src/components/portal/MeetingsView.tsx:40 | exactly the meetings with another id stay, in their order |
| Meetings.UpcomingPastSplit | src/components/portal/MeetingsView.tsx:45-46 | a meeting is upcoming exactly when its date is readable and not before now, past exactly when readable and before now, never both |
| Meetings.UpcomingPastPartition | src/components/portal/MeetingsView.tsx:45-46 | with readable dates throughout, upcoming and past together are the meetings |
| Meetings.TypeColorIgnoresCase | src/components/portal/MeetingsView.tsx:207-211 | the card colour does not depend on case |
| Meetings.OnlineColor | src/components/portal/MeetingsView.tsx:207-211 | `Online` gets the info colour |
| Meetings.InPersonColor | src/components/portal/MeetingsView.tsx:207-211 | `In-Person` gets the success colour |
| Meetings.HybridColor | src/components/portal/MeetingsView.tsx:207-211 | `Hybrid` gets the warning colour |
| Meetings.MeetingsView.constructor | src/components/portal/MeetingsView.tsx:18-22 | the saved meetings or the default ones, and an empty form of type `Online` |
| Meetings.MeetingsView.SetForm | src/components/portal/MeetingsView.tsx:22 | the form takes the new values and the meetings stay |
| Meetings.MeetingsView.ScheduleMeeting | src/components/portal/MeetingsView.tsx:24-37 | the meetings become `Scheduled` with the form's meeting, and the form is reset |
| Meetings.MeetingsView.DeleteMeeting | src/components/portal/MeetingsView.tsx:39-43 | the meetings become `Deleted`, the form stays |
| Navbar.UnreadCount | src/components/portal/Navbar.tsx:54 | no more than the notifications, and zero exactly when all are read |
| Navbar.AllRead | src/components/portal/Navbar.tsx:70-74 | the same notifications in the same order, each marked read and otherwise unchanged |
| Navbar.AllReadClears | src/components/portal/Navbar.tsx:70-74 | nothing is unread afterwards, and marking again changes nothing |
| Navbar.RoleDisplayName | src/components/portal/Navbar.tsx:112-122 | `Super Admin`, `State Member`, and `Employee` for every other role |
| Navbar.RoleBadgeVariant | src/components/portal/Navbar.tsx:106-110 | success exactly for a super admin, warning exactly for a state member, default otherwise |
| Navbar.BadgeMatchesName | src/components/portal/Navbar.tsx:106-122 | the default badge goes exactly with the name `Employee` |
| Navbar.NavbarState.constructor | src/components/portal/Navbar.tsx:43-45 | the saved notifications or the default ones |
| Navbar.NavbarState.MarkAllRead | src/components/portal/Navbar.tsx:70-74 | the notifications become `AllRead`, and none is unread |
| Numbers.OrZero | src/components/portal/InvoiceView.tsx:181 | a number keeps its value, `NaN` gives zero |
| Numbers.Round | src/components/portal/InvoiceView.tsx:239 | the nearest integer, halves rounded up |
| Sorting.Insert | src/components/portal/MeetingsView.tsx:32 | one more element, a permutation of the list and the new element |
| Sorting.SortBy | src/components/portal/MeetingsView.tsx:32 | a permutation of the input |
| Sorting.InsertBounded | src/components/portal/MeetingsView.tsx:32 | inserting below a common bound keeps every key below it |
| Sorting.InsertSorted | src/components/portal/MeetingsView.tsx:32 | inserting a keyed element into an ordered list keeps it ordered |
| Sorting.SortBySorted | src/components/portal/MeetingsView.tsx:32 | when every element has a key the result is in ascending key order |
| Tasks.CycleIndex | src/components/portal/TasksView.tsx:34-35 | each status has its position in the cycle |
| Tasks.NextStatus | src/components/portal/TasksView.tsx:34-37 | pending to in progress to completed to pending; never the same status |
| Tasks.ThreeTogglesRestore | src/components/portal/TasksView.tsx:34-37 | three toggles restore the status |
| Tasks.Added | src/components/portal/TasksView.tsx:17-29 | a blank title changes nothing; otherwise one pending, medium task with the clock's id and the title is put in front of the old list |
| Tasks.Toggled | src/components/portal/TasksView.tsx:32-38 | same length and order; tasks with the id move one status on, all others stay |
| Tasks.Deleted | src/components/portal/TasksView.tsx:45 | no task with the id is left |
| Tasks.DeletedKeepsOthers | src/components/portal/TasksView.tsx:45 | exactly the tasks with another id stay, in order |
| Tasks.Filtered | src/components/portal/TasksView.tsx:50 | `all` shows every task |
| Tasks.FilteredByStatus | src/components/portal/TasksView.tsx:50 | a status filter shows exactly the tasks of that status, in order |
| Tasks.TaskStats | src/components/portal/TasksView.tsx:52-57 | the total is the number of tasks and the three counts add up to it |
| Tasks.StatusesPartition | src/components/portal/TasksView.tsx:54-56 | every task is counted under exactly one status |
| Tasks.AddedStats | src/components/portal/TasksView.tsx:17-29 | adding a task raises the total and the pending count by one and keeps the others |
| Tasks.HandlersKeepIdsUnique | src/components/portal/TasksView.tsx:17-48 | adding with an unused id, toggling and deleting keep task ids distinct |
| Tasks.TasksView.constructor | src/components/portal/TasksView.tsx:11-15 | the saved tasks or the default ones, an empty input and the `all` filter |
| Tasks.TasksView.SetNewTask | src/components/portal/TasksView.tsx:14 | only the input text changes |
| Tasks.TasksView.SetFilter | src/components/portal/TasksView.tsx:15 | only the filter changes |
| Tasks.TasksView.AddTask | src/components/portal/TasksView.tsx:17-29 | the tasks become `Added`, and the input is cleared unless it was blank |
| Tasks.TasksView.ToggleTask | src/components/portal/TasksView.tsx:31-41 | the tasks become `Toggled`, nothing else changes |
| Tasks.TasksView.DeleteTask | src/components/portal/TasksView.tsx:43-48 | the tasks become `Deleted`, nothing else changes |
| Team.Distinct | src/components/portal/TeamView.tsx:14 | no value twice, and the same values as the input |
| Team.DistinctInFirstAppearanceOrder | src/components/portal/TeamView.tsx:14 | the values come in the order of their first appearance |
| Team.Departments | src/components/portal/TeamView.tsx:14 | `all` first, and every member's department listed |
| Team.Filtered | src/components/portal/TeamView.tsx:16-21 | every listed member matches the search by name or role, ignoring case, and the department |
| Team.FilteredExactly | src/components/portal/TeamView.tsx:16-21 | a member is listed exactly when both match, and the team's order is kept |
| Team.EmptySearchShowsAll | src/components/portal/TeamView.tsx:16-21 | no search text and `all` show the whole team |
| Team.StatusText | src/components/portal/TeamView.tsx:23-26 | `Available` exactly for online, `In a meeting` exactly for busy, `Away` exactly for offline |
| Seqs.Filter | src/components/portal/TasksView.tsx:45 | no longer than the input, every kept element satisfies the test, and each element kept at most as often as it occurs |
| Seqs.FilterMembership | src/components/portal/TasksView.tsx:45 | an element is kept exactly when it occurs and satisfies the test |
| Seqs.Count | src/components/portal/TasksView.tsx:54-56 | no more than the number of elements |
| Seqs.FilterIsSubsequence | src/components/portal/TeamView.tsx:16 | the kept elements keep their order |
| Seqs.FilterKeepsAll | src/components/portal/TeamView.tsx:16-21 | a test every element passes keeps the whole list |
| Seqs.FilterKeepsNone | src/components/portal/Navbar.tsx:54 | a test no element passes keeps nothing |
| Seqs.FilterConcat | src/components/portal/MeetingsView.tsx:45-46 | filtering distributes over concatenation |
| Seqs.ThreeWayCount | src/components/portal/TasksView.tsx:52-57 | three exclusive and exhaustive tests count every element once |
| Seqs.ThreeWaySum | src/components/portal/FinanceView.tsx:56-60 | three exclusive and exhaustive tests split the sum |
| Seqs.TwoWaySplit | src/components/portal/MeetingsView.tsx:45-46 | complementary tests split the list as a multiset |
| Seqs.SumConcat | src/components/portal/InvoiceView.tsx:237 | the sum distributes over concatenation |
| Seqs.WithoutIndex | src/components/portal/InvoiceView.tsx:173 | the list without the position, or the list itself for a position outside it |
| Text.TrimStart | src/components/portal/TasksView.tsx:18 | a suffix of the text, starting at a non-space, with only spaces removed before it |
| Text.TrimEnd | src/components/portal/TasksView.tsx:18 | a prefix of the text, ending at a non-space, with only spaces removed after it |
| Text.BlankIffAllWhitespace | src/components/portal/TasksView.tsx:18 | `!s.trim()` holds exactly when every character is whitespace |
| Text.ToLower | src/components/portal/TeamView.tsx:17-18 | same length, each character lower-cased |
| Text.ToUpper | src/components/portal/UserAvatar.tsx:37 | same length, each character upper-cased |
| Text.ToLowerIdempotent | src/components/portal/MeetingsView.tsx:208-209 | lower-casing twice is lower-casing once |
| Text.ContainsEmpty | src/components/portal/TeamView.tsx:17-18 | every text includes the empty text |
| Text.ContainsParts | src/pages/Auth.tsx:78 | a text includes its prefix and its suffix |
| Text.Split | src/components/portal/InvoiceView.tsx:136 | at least one part, and no part holds the separator |
| Text.JoinSplit | src/components/portal/InvoiceView.tsx:136 | joining the parts gives back the text |
| Text.SplitJoin | src/components/portal/UserAvatar.tsx:34 | parts without the separator are given back by splitting their join |
| Text.LastSegment | src/components/portal/InvoiceView.tsx:145 | `split(sep).pop()` holds no separator |
| Text.LastSegmentOfJoined | src/components/portal/InvoiceView.tsx:145 | the last segment of a text ending in a separator and a tail without one is the tail |
| Text.TakeLast | src/components/portal/InvoiceView.tsx:70 | `slice(-k)` is the last `k` characters, or all of a shorter text |
| Text.PadStart | src/components/portal/InvoiceView.tsx:71 | the text at the end, preceded by enough fill characters to reach the width |
| Text.NatToString | src/components/portal/InvoiceView.tsx:70-72 | non-empty decimal digits without a leading zero |
| Text.IntToString | src/components/portal/InvoiceView.tsx:72 | the digits of the number, after a minus sign when negative |
| Text.ParseInt | src/components/portal/ChatWidget.tsx:36 | `NaN` exactly when no digits follow the leading space and sign (hexadecimal digits after a `0x` or `0X`); otherwise the signed value of those digits in base 16 or 10 |
| Text.LeadingHex | src/components/portal/ChatWidget.tsx:36 | the longest prefix of hexadecimal digits: what follows it, if anything, is no hexadecimal digit |
| Text.ParseHexPrefixed | src/components/portal/ChatWidget.tsx:36 | `0x` followed by hexadecimal digits parses as their base-16 value |
| Text.HexExample | src/components/portal/ChatWidget.tsx:36 | `parseInt("0x1A")` is 26 |
| Text.HexWithoutDigits | src/components/portal/ChatWidget.tsx:36 | `parseInt("0xG")` is `NaN` |
| Text.DigitsValueOfDecimal | src/components/portal/InvoiceView.tsx:72 | the digits of a number read back as the number |
| Text.ParseIntOfDecimal | src/components/portal/ChatWidget.tsx:36 | `parseInt(String(i))` gives back `i` |

## Left out

- The hosted backend: authentication calls, the calendar's event table and the realtime chat of `EnhancedChatWidget.tsx`. These are foreign services. Their answers are parameters, or the request is modelled as a value.
- Browser storage (`loadFromStorage`/`saveToStorage`). Each view's constructor takes the saved list as an optional parameter, and each save is the state replacement itself.
- Clocks and randomness. `Date.now()` ids, `new Date()` readings, today's date and the `Math.random` serial draw are parameters.
- InvoiceEditor.InvoiceEditor.constructor: takes today's date as the `YYYY-MM-DD` text that `toISOString().split('T')[0]` yields, rather than reading the clock.
- Floating point. Amounts, quantities, rates, tax and percentages are exact rationals (`real`). IEEE rounding and overflow are not modelled. `Math.round` is exact rounding, with halves going up.
- `Number(value)` and `parseFloat(value)` of input text are parameters (a `NaN`-or-value number). They are not parsed.
- `handleGoogleSignIn` (src/pages/Auth.tsx:108-119) is left out: it hands the sign-in to the Google redirect of the hosted backend, and its one notice repeats the service's message.
- The busy flag `isLoading` of the sign-in form is left out; it only disables the buttons while a request is on its way.
- The zod e-mail check of the sign-in form is a parameter `emailOk`.
- Dates are read as `new Date` reads `YYYY-MM-DD` text: midnight UTC of that day. Other text an engine might accept is treated as an invalid date. Local time zones are not modelled.
- Locale formatting (`toLocaleDateString`, `formatDate`, `formatMoney`) and the `date-fns` calendar grid and month navigation are left out; they are library behaviour.
- Text is a sequence of characters. Case mapping covers ASCII only. UTF-16 code units and surrogate pairs are not distinguished.
- The invoice editor's logo, signature and design setters are left out. So are file uploads, PDF export, `resetDocument` with its `confirm` prompt, and every toast.
- InvoiceEditor.InvoiceEditor.UpdateField: its requires asks that `type`, `docId` and `date` receive text and `taxRate` a number, as the editor's inputs send them. A value of the other kind is excluded even though the handler's signature admits it.
- InvoiceEditor.InvoiceEditor.UpdateField: a path into `items` and numeric or `length` property names are not modelled. Reading `items` is treated like any other non-object value.
- InvoiceEditor.InvoiceEditor.UpdateField: `ok == false` stands for a `TypeError` or `RangeError` thrown inside the state updater. React throws it again while rendering and, with no error boundary around the editor, unmounts the whole view. The model keeps the old state only so that the method has a defined result; nothing after the crash is modelled.
- Paths with three or more keys are modelled, and proved always to throw (`DeepPathsFail`).
- InvoiceIds.DueFifteenDaysLater: the read-back is stated only while the due date stays within four-digit years, where `toISOString` prints `YYYY-MM-DD`. Later years print the extended six-digit form.
- Finance.FinanceView.HandleSubmit and Leave.LeaveView.HandleSubmit require today's date before year 1000000, the range the model's date format covers.
- CalendarView.CalendarState.HandleAddNew: requires `today` and the selected date to lie in years up to 9999, the range `format(d, 'yyyy-MM-dd')` is modelled for.
- InvoiceWords.WholeGroups: proves the words only for whole numbers of one to nineteen lakhs or crores. Other concrete amounts follow from `ScaleAmounts`, `SmallAmounts` and `WordsReadBack`.
- Chat.ChatWidget: the team list is a parameter (the default team in the view), so the exclusion filter is stated for any member list.
- The unused exact-match `getMeetingTypeColor` inside `MeetingsView` (src/components/portal/MeetingsView.tsx:48-55) is left out. Only the card's colour rule is rendered.
- These tables are written out but carry no contract of their own:
  - Leave.LeaveTypeColor, the leave type colours;
  - Navbar.NotificationColor, the notification icon colours;
  - Governance.GovernanceView.ActivePolls and Governance.GovernanceView.ClosedPolls, the tab lists.
  They are presentation.
- Presentational files (settings, library, sidebar, form controls, cards, badges, modal, and the tab switch of the index page) are not part of this model.

## Findings

| source | as written | input that shows it | evidently intended | confidence | as-written member | corrected member |
|---|---|---|---|---|---|---|
| src/components/portal/InvoiceView.tsx:143-147 | every change of `date` recomputes the due date with `calcDue`, whose `toISOString` throws a `RangeError` on an invalid date | clearing the date input (line 319) calls `updateField('date', '')`; the updater throws and the editor is unmounted | an empty or unreadable date is stored as typed, and the due date and number are left until the date is readable again | not executed | InvoiceEditor.ClearedDateFails | InvoiceEditor.GuardedRootUpdate |

The editor's `UpdateField` keeps the behaviour as written, so that the crash stays visible in the model; `GuardedRootUpdate` is the top-level update with the guard the date field lacks.
