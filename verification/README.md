# Nonprofit dashboard: a verified model of its client-side rules and page figures

This project models the logic of a Next.js dashboard for a nonprofit in Dafny.
The application serves donors, volunteers and administrators. The model covers:

- the notification centre, the advanced search panel and the data export panel;
- the login and sign-up handlers;
- the donor's donation form;
- the figures that five server-rendered dashboard pages compute from the rows they fetch, and the "redirect unless the profile has role X" guard in front of each of them.

The hosted backend is not modelled. Every authentication answer, row set and
insert result is a parameter. Each handler records the remote calls it makes
and the routes it pushes, in order, in fields of its page class.

Module layout (one module per source file, plus two shared modules):

- `Support` (support.dfy): shared vocabulary. It covers `||` defaults on strings, `substring`/`slice` and `limit`, thrown values, date ranges and the role guard `Guard`.
- `Rows` (rows.dfy): the fetched rows and the reductions several pages share. These are amount and funding sums, status counts, status filters and the `...` teaser.
- `Notifications`, `AdvancedSearch`, `DataExport`: the three stateful components. Each is a class holding its state cells; every method assigns the result of a pure function that is specified and reasoned about separately.
- `Login`, `SignUp`: the two submit handlers. Each is an imperative method proved against a function `Outcome` that states the calls, route and error of one submission.
- `Donate`: the donation form's state cells and what the page derives from them.
- `AdminUsers`, `AdminPrograms`, `DonorHistory`, `AdminDashboard`, `DonorDashboard`: the server pages. Each is a pure `View` from the auth state, the profile and the fetched rows to a redirect or the page's figures.

The login model follows the handler as written, which is narrower than a description of it might suggest:

- no retry when the profile insert conflicts;
- the inserted role is always "donor", never a role taken from the user's metadata;
- every insert error falls back to an in-memory donor profile.

## Model

| member | source | states |
|---|---|---|
| Support.Guard | app/dashboard/admin/users/page.tsx:17-28 | A page renders exactly when a user is signed in, the profile exists and its role equals the required one. Otherwise it redirects to /auth/login. The same guard opens the programs, history, admin and donor pages |
| Support.GuardRolesExclusive | app/dashboard/admin/users/page.tsx:17-28 | No profile passes the guard of two different roles, so an admin page and a donor page never both render for one user |
| Support.OrDefault | app/auth/login/page.tsx:86 | `x \|\| d` on a nullable string: the value when non-empty, the default otherwise (the empty string is falsy) |
| Support.Prefix | app/dashboard/admin/programs/page.tsx:186 | `substring(0, n)` on a string, and `limit(n)` on rows, keep a prefix of length min(n, length) |
| Support.SliceLast | app/dashboard/donor/history/page.tsx:196 | `slice(-n)` is a suffix of length min(n, length); `slice(-0)` is the whole string |
| Support.Initial | app/dashboard/admin/page.tsx:66 | `full_name?.charAt(0) \|\| d` is one character: the name's first, or the fallback letter when the name is missing or empty |
| Support.ErrorText | app/auth/login/page.tsx:100 | A caught Error shows its message; any other thrown value shows the fixed fallback |
| Support.PickedRange | components/advanced-search.tsx:188 | `range \|\| {}`: a cleared calendar selection is stored as the empty range |
| Rows.LengthOr0 | app/dashboard/admin/programs/page.tsx:33 | `rows?.length \|\| 0` is the row count, and 0 for missing rows |
| Rows.TotalAmount | app/dashboard/donor/history/page.tsx:41 | `rows?.reduce(sum + amount) \|\| 0` is the amount sum, and 0 for missing rows |
| Rows.AmountSumAppend | app/dashboard/donor/history/page.tsx:41 | The amount sum of a concatenation is the sum of the parts' sums |
| Rows.AmountSumNonNegative | app/dashboard/donor/history/page.tsx:41 | With non-negative amounts the sum is non-negative |
| Rows.CountStatus | app/dashboard/admin/programs/page.tsx:34-35 | The status count is at most the row count; it is 0 exactly when no row has the status and the full count exactly when all do |
| Rows.CountStatusLast | app/dashboard/admin/programs/page.tsx:34-35 | Counting from the front equals counting the rows before the last, plus one when the last row has the status |
| Rows.CountTwoStatuses | app/dashboard/admin/programs/page.tsx:34-35 | Counts of two different statuses add up to at most the row count |
| Rows.FundingSumAppend | app/dashboard/admin/programs/page.tsx:36 | The funding total (missing funding as 0) of a concatenation is the sum of the parts' totals |
| Rows.FundingSumUnfunded | app/dashboard/admin/programs/page.tsx:36 | Programs with no recorded funding total 0 |
| Rows.FundingSumNonNegative | app/dashboard/admin/programs/page.tsx:36 | With non-negative funding figures the total is non-negative |
| Rows.FundingSumCoversEach | app/dashboard/admin/programs/page.tsx:36 | With non-negative funding figures the total is at least each program's funding |
| Rows.FilterStatus | app/dashboard/donor/page.tsx:40 | `eq("status", s)` keeps exactly the rows with that status; their number is the status count |
| Rows.Teaser | app/dashboard/donor/page.tsx:313 | `description?.substring(0, n)...` is the description followed by "..." when it has at most n characters, its first n characters followed by "..." when it is longer, and "..." alone when it is missing |
| Notifications.CountUnread | components/notifications.tsx:50 | The unread count is at most the list length, and is 0 exactly when every entry is read |
| Notifications.NotificationCenter.UnreadCount | components/notifications.tsx:50 | The badge number of the live list is at most its length, and is 0 exactly when every notification is read |
| Notifications.WithRead | components/notifications.tsx:52-54 | Marking an id read keeps the length and order. It sets `read` exactly on the entries with that id and changes no other field |
| Notifications.WithReadAbsent | components/notifications.tsx:52-54 | Marking an id that no entry has leaves the list unchanged |
| Notifications.WithReadIdempotent | components/notifications.tsx:52-54 | Marking the same id read twice equals marking it once |
| Notifications.WithReadUnreadCount | components/notifications.tsx:50-54 | Marking an id read lowers the unread count by exactly the number of unread entries with that id |
| Notifications.AllRead | components/notifications.tsx:56-58 | Marking all read keeps the length and order; every entry is read and no other field changes |
| Notifications.AllReadClearsCount | components/notifications.tsx:56-58 | After marking all read the unread count is 0, and ids, titles and messages are unchanged |
| Notifications.WithoutId | components/notifications.tsx:60-62 | Removal keeps exactly the entries whose id differs. No remaining entry has the id, and the length drops by the number of entries with it |
| Notifications.WithoutIdAppend | components/notifications.tsx:60-62 | Removal distributes over concatenation, so the kept entries stay in their original relative order |
| Notifications.WithoutIdAbsent | components/notifications.tsx:60-62 | Removing an id that no entry has is a no-op |
| Notifications.WithoutIdUnreadCount | components/notifications.tsx:50-62 | Removing an id lowers the unread count by the number of unread entries with that id |
| Notifications.IconFor | components/notifications.tsx:64-75 | The icon dispatch is total: donation, volunteer and event each get their icon, and every other type gets the alert icon |
| Notifications.IconColorFor | components/notifications.tsx:77-88 | Volunteer and event get their colours; donation and every other type get the default colour |
| Notifications.Seed | components/notifications.tsx:21-47 | The initial list has three entries, two of them unread |
| Notifications.RemoveMiddleExample | components/notifications.tsx:60-62 | Removing "2" from the initial list leaves the first and third entries in order |
| Notifications.NotificationCenter.MarkAsRead | components/notifications.tsx:52-54 | The state becomes `WithRead` of the old state, and the unread count drops accordingly |
| Notifications.NotificationCenter.MarkAllAsRead | components/notifications.tsx:56-58 | The state becomes `AllRead` of the old state, and the unread count is 0 |
| Notifications.NotificationCenter.RemoveNotification | components/notifications.tsx:60-62 | The state becomes `WithoutId` of the old state, and the unread count drops accordingly |
| AdvancedSearch.Apply | components/advanced-search.tsx:58-62 | `{ ...filters, [key]: value }` gives the updated key the new value and leaves the other five fields as they were |
| AdvancedSearch.FieldsDetermineRecord | components/advanced-search.tsx:16-29 | Two filter records with the same six field values are equal |
| AdvancedSearch.UpdatesCommute | components/advanced-search.tsx:58-62 | Updates of two different keys give the same record in either order |
| AdvancedSearch.UpdateOverwrites | components/advanced-search.tsx:58-62 | A second update of the same key overwrites the first |
| AdvancedSearch.CountActive | components/advanced-search.tsx:77-83 | The active count of a list of field values is at most its length, and is 0 exactly when none is active |
| AdvancedSearch.Active | components/advanced-search.tsx:78-82 | A field value is inactive exactly when it is the empty string, the date range with neither end, or the amount range with neither bound |
| AdvancedSearch.ActiveCount | components/advanced-search.tsx:49-83 | The active-filter count lies between 0 and 6, and is 0 exactly for the initial record |
| AdvancedSearch.SearchPanel.ActiveFiltersCount | components/advanced-search.tsx:77-83 | The panel's badge count lies between 0 and 6, and is 0 exactly when the filters are the initial record |
| AdvancedSearch.CountSix | components/advanced-search.tsx:77-83 | The count over the six fields is the sum of one indicator per field |
| AdvancedSearch.ActiveCountAfterUpdate | components/advanced-search.tsx:58-83 | An update changes the count only through the updated field's activity |
| AdvancedSearch.SelectingAllCounts | components/advanced-search.tsx:121-146 | Choosing "all" for category or status stores a non-empty string, so at least one filter is active |
| AdvancedSearch.CountExamples | components/advanced-search.tsx:77-83 | A query alone counts 1; a query plus a minimum amount counts 2 |
| AdvancedSearch.AmountInput | components/advanced-search.tsx:205-215 | `Number(text) \|\| undefined`: 0 and NaN are stored as undefined, any other number as itself |
| AdvancedSearch.WithMin | components/advanced-search.tsx:206 | Editing the minimum keeps the maximum |
| AdvancedSearch.WithMax | components/advanced-search.tsx:215 | Editing the maximum keeps the minimum |
| AdvancedSearch.ClearedDatesInactive | components/advanced-search.tsx:188 | A cleared date selection is stored as `{}` and does not count as active |
| AdvancedSearch.SearchPanel.constructor | components/advanced-search.tsx:49-56 | The panel starts with the initial record, nothing emitted, and an active count of 0 |
| AdvancedSearch.SearchPanel.UpdateFilter | components/advanced-search.tsx:58-62 | The stored record becomes `Apply(old, update)` and exactly that record is emitted |
| AdvancedSearch.SearchPanel.ClearFilters | components/advanced-search.tsx:64-75 | The record returns to the initial one, which is emitted; the count is 0 |
| AdvancedSearch.SearchPanel.EditAmountMin | components/advanced-search.tsx:205-206 | Only the amount's minimum changes, and the new record is emitted |
| AdvancedSearch.SearchPanel.EditAmountMax | components/advanced-search.tsx:214-215 | Only the amount's maximum changes, and the new record is emitted |
| AdvancedSearch.SearchPanel.SelectDates | components/advanced-search.tsx:188 | Only the date range changes (`{}` when cleared), and the new record is emitted |
| DataExport.RemoveAll | components/data-export.tsx:51 | Unchecking removes every occurrence of the field and keeps exactly the other fields |
| DataExport.RemoveAllAppend | components/data-export.tsx:51 | Removal distributes over concatenation, so the other fields keep their order |
| DataExport.RemoveAllAbsent | components/data-export.tsx:51 | Removing a field that is not listed leaves the list unchanged |
| DataExport.ToggleField | components/data-export.tsx:48-52 | Checking appends the field at the end, even when present. Unchecking removes it. Nothing else changes |
| DataExport.ToggleOnThenOff | components/data-export.tsx:48-52 | Checking an unlisted field and then unchecking it restores the options |
| DataExport.ChangeDataType | components/data-export.tsx:92 | Choosing a data type sets it and empties the field list; format and dates are kept |
| DataExport.ChangeFormat | components/data-export.tsx:112 | Choosing a format changes only the format |
| DataExport.ChangeDates | components/data-export.tsx:159 | Choosing dates changes only the range (`{}` when cleared) |
| DataExport.Find | components/data-export.tsx:46 | `find` returns a catalogue entry with the value, and returns none exactly when no entry has it |
| DataExport.SelectedDataType | components/data-export.tsx:46 | The selected entry is a catalogue entry with the chosen value, and there is none exactly when no entry has that value |
| DataExport.SelectedDataTypeUnique | components/data-export.tsx:35-46 | The selected data type is the unique catalogue entry with that value; there is none for "" or an unknown value |
| DataExport.ExportEnabled | components/data-export.tsx:191 | The export button is enabled exactly when a data type is chosen and no export is running |
| DataExport.Filename | components/data-export.tsx:63 | The filename reads data type, "_export_", the date and "." followed by the format, each at its position |
| DataExport.FilenameInjective | components/data-export.tsx:63 | On the same day, names for data types of equal length coincide only for the same type and format |
| DataExport.ExportPanel.constructor | components/data-export.tsx:26-33 | The options start as type "", format "csv", no dates and no fields, with no export running |
| DataExport.ExportPanel.HandleFieldToggle | components/data-export.tsx:48-52 | The options become `ToggleField(old, field, checked)` |
| DataExport.ExportPanel.SelectDataType | components/data-export.tsx:92 | The options become `ChangeDataType(old, value)` |
| DataExport.ExportPanel.SelectFormat | components/data-export.tsx:112 | The options become `ChangeFormat(old, value)` |
| DataExport.ExportPanel.SelectDates | components/data-export.tsx:159 | The options become `ChangeDates(old, range)` |
| DataExport.ExportPanel.HandleExport | components/data-export.tsx:55-75 | The file is named by `Filename` and offered while `isExporting` is true. The flag is false afterwards, and the options are unchanged |
| Login.ProfileAfterLookup | app/auth/login/page.tsx:44-61 | A found row becomes the profile. A "not found" error and any other lookup error both leave it null, and neither aborts the login |
| Login.NewProfileFor | app/auth/login/page.tsx:65-75 | The inserted record carries the user's id and email, the metadata full name or "", and always role "donor" |
| Login.ProfileAfterInsert | app/auth/login/page.tsx:76-83 | A failed insert falls back to a profile with role "donor"; a successful one uses the stored row |
| Login.ResolvedRole | app/auth/login/page.tsx:86 | The role is the profile's role, or "donor" when it is missing or empty |
| Login.RouteFor | app/auth/login/page.tsx:89-95 | "admin" routes to /dashboard/admin and "volunteer" to /dashboard/volunteer; every other role routes to /dashboard/donor |
| Login.Outcome | app/auth/login/page.tsx:22-104 | A sign-in failure makes no other call, pushes nothing and shows the error. Otherwise the lookup follows, and an insert is made exactly when the lookup gave no profile (so at most one). Exactly one dashboard route is pushed and no error is shown. After a successful insert the route is the one for the inserted row's role. After a successful sign-in exactly three calls are made when the lookup failed, and exactly two otherwise |
| Login.LoginPage.HandleLogin | app/auth/login/page.tsx:22-104 | The imperative handler makes the calls, pushes the route and shows the error that `Outcome` states, and `isLoading` ends false on every path |
| SignUp.RedirectTarget | app/auth/signup/page.tsx:49 | The confirmation link is the configured URL when set and non-empty, and the origin's /dashboard otherwise |
| SignUp.CallFor | app/auth/signup/page.tsx:45-55 | The sign-up call carries the email, the password, the full name and the role exactly as entered |
| SignUp.Outcome | app/auth/signup/page.tsx:26-63 | A password mismatch is reported first, then a missing role, and neither makes a call. A call is made exactly when both checks pass. It navigates to /auth/check-email exactly on success and shows the error exactly on failure |
| SignUp.OfferedRoleCarried | app/auth/signup/page.tsx:118-126 | A role chosen from the offered ones with matching passwords yields a call whose role is "volunteer" or "donor" |
| SignUp.SignUpPage.HandleSignUp | app/auth/signup/page.tsx:26-63 | The imperative handler makes the call, pushes the route and shows the error that `Outcome` states, and `isLoading` ends false |
| Donate.NatToString | app/dashboard/donor/donate/page.tsx:101-108 | `preset.toString()` is a non-empty string of digits with no leading zero |
| Donate.TrimStart | app/dashboard/donor/donate/page.tsx:305 | What `parseInt` reads is a suffix of the text that does not start with white space |
| Donate.IsStrWhiteSpace | app/dashboard/donor/donate/page.tsx:305 | The white space `parseInt` skips includes the blank, tab, line feed, carriage return, no-break space and byte order mark, and never contains a digit of either radix or a sign |
| Donate.TrimStartDropsWhiteSpace | app/dashboard/donor/donate/page.tsx:305 | Everything skipped before the number is white space |
| Donate.LeadingDigits | app/dashboard/donor/donate/page.tsx:305 | The digits read are a prefix of the text, all digits of the radix, followed by no further digit |
| Donate.ParseUnsigned | app/dashboard/donor/donate/page.tsx:305 | Text that starts with a decimal digit and no `0x` has a value; text that starts with anything else has none |
| Donate.ParseSigned | app/dashboard/donor/donate/page.tsx:305 | After a minus sign the value is negated, after a plus sign it is kept, and empty text is NaN |
| Donate.ParseInt | app/dashboard/donor/donate/page.tsx:305 | `parseInt` has a value only when something follows the white space; a negative value only after a minus sign; a value, never negative, when a decimal digit without `0x` comes first; and NaN when the first character is neither a digit nor a sign |
| Donate.ParseSkipsWhiteSpace | app/dashboard/donor/donate/page.tsx:305 | White space before the number changes nothing |
| Donate.ParseMinus | app/dashboard/donor/donate/page.tsx:305 | A minus sign negates the value and keeps NaN as NaN |
| Donate.ParseMinusExample | app/dashboard/donor/donate/page.tsx:305 | A typed "-50" parses to -50 |
| Donate.ParseTrailingExample | app/dashboard/donor/donate/page.tsx:305 | A typed "12abc" parses to 12 |
| Donate.ParsePlusExample | app/dashboard/donor/donate/page.tsx:305 | A typed "+50" parses to 50 |
| Donate.ParseHexExamples | app/dashboard/donor/donate/page.tsx:305 | A typed "0x20" parses to 32, and a bare "0x" is NaN |
| Donate.ParseLetterExample | app/dashboard/donor/donate/page.tsx:305 | A typed "abc" is NaN |
| Donate.ParseEmptyExample | app/dashboard/donor/donate/page.tsx:305 | Empty text is NaN |
| Donate.ParseNatToString | app/dashboard/donor/donate/page.tsx:305 | Parsing a preset's text gives the preset back |
| Donate.NatToStringInjective | app/dashboard/donor/donate/page.tsx:101-103 | Different presets have different texts, so at most one preset button is highlighted |
| Donate.LeadingDigitsOfDigits | app/dashboard/donor/donate/page.tsx:305 | On a string of digits `parseInt` reads the whole string |
| Donate.ValueOfNatToString | app/dashboard/donor/donate/page.tsx:305 | The digits of a number's text have that number's value |
| Donate.DisplayedAmount | app/dashboard/donor/donate/page.tsx:252-268 | The summary shows `amount` if set, otherwise `customAmount`, otherwise "0" |
| Donate.SubmitEnabled | app/dashboard/donor/donate/page.tsx:280 | Submit is disabled exactly when both amounts are empty |
| Donate.ImpactShown | app/dashboard/donor/donate/page.tsx:280-295 | The impact panel shows exactly when submit is available. It then speaks of a typed or chosen amount, and otherwise the summary shows the placeholder "0" |
| Donate.ImpactOf | app/dashboard/donor/donate/page.tsx:305-318 | The figures are the floors of n/25 people, n/50 meals and n/5 trees, negative amounts included |
| Donate.ImpactMonotone | app/dashboard/donor/donate/page.tsx:305-318 | A larger amount never gives smaller figures |
| Donate.ImpactFor | app/dashboard/donor/donate/page.tsx:305-318 | The figures are those of the parsed displayed amount, and there are none when it parses to NaN |
| Donate.FindProgram | app/dashboard/donor/donate/page.tsx:57 | `find` returns a program with that id, and returns none exactly when no program has it |
| Donate.SelectedProgram | app/dashboard/donor/donate/page.tsx:57 | A program is selected exactly for the four offered ids, and it is the one with that id |
| Donate.DetailsShown | app/dashboard/donor/donate/page.tsx:171 | The details card shows exactly for the three programs other than "general" |
| Donate.ProgramSummary | app/dashboard/donor/donate/page.tsx:261 | The summary shows the selected program's name, or "Not selected" |
| Donate.RecurringNoteShown | app/dashboard/donor/donate/page.tsx:137-143 | For an offered frequency the recurring note shows exactly when the charge word names that frequency. When the note is hidden the summary reads "one time" |
| Donate.ChargeNote | app/dashboard/donor/donate/page.tsx:270-275 | The charge line shows exactly with the recurring note, and for an offered frequency it reads "Charged " and that frequency |
| Donate.ChargeLabel | app/dashboard/donor/donate/page.tsx:273 | The charge word is "monthly" or "quarterly" for those frequencies and "annually" otherwise |
| Donate.FirstDash | app/dashboard/donor/donate/page.tsx:257 | The index found holds a dash, no dash comes before it, and it is the length when there is no dash |
| Donate.FrequencyLabel | app/dashboard/donor/donate/page.tsx:257 | `replace("-", " ")` keeps the length and turns the first dash into a blank. Nothing else changes |
| Donate.OneTimeLabel | app/dashboard/donor/donate/page.tsx:257 | The summary shows "one-time" as "one time" |
| Donate.LabelOfFirstDash | app/dashboard/donor/donate/page.tsx:257 | The text before the first dash and the text after it are kept, with a blank between them |
| Donate.DonationForm.constructor | app/dashboard/donor/donate/page.tsx:16-20 | The form starts with both amounts empty and frequency "one-time" |
| Donate.PresetShown | app/dashboard/donor/donate/page.tsx:101-110 | After a preset is chosen, the impact figures are the preset's and no other preset's text matches |
| Donate.DonationForm.ChoosePreset | app/dashboard/donor/donate/page.tsx:107-110 | A preset sets `amount` to its text and clears `customAmount`. The impact is that of the preset, and only that preset is highlighted |
| Donate.DonationForm.TypeCustomAmount | app/dashboard/donor/donate/page.tsx:120-123 | Typing sets `customAmount` and clears `amount`, so at most one amount is set |
| Donate.DonationForm.SelectFrequency | app/dashboard/donor/donate/page.tsx:132 | Only the frequency changes, and at most one amount stays set |
| Donate.DonationForm.SelectProgram | app/dashboard/donor/donate/page.tsx:153 | Only the program changes, and at most one amount stays set |
| Donate.DonationForm.TypeMessage | app/dashboard/donor/donate/page.tsx:195 | Only the message changes, and at most one amount stays set |
| AdminUsers.CountRole | app/dashboard/admin/users/page.tsx:48-50 | A role count is at most the user count, and is 0 exactly when no user has that role |
| AdminUsers.RoleCountsPartition | app/dashboard/admin/users/page.tsx:47-50 | Volunteers + donors + admins is at most the user count, with equality exactly when every role is one of the three |
| AdminUsers.Stats | app/dashboard/admin/users/page.tsx:47-50 | The total is the row count (0 without rows). The volunteer, donor and admin figures are the counts of rows with that role, and never exceed the total |
| AdminUsers.View | app/dashboard/admin/users/page.tsx:17-28 | Only an admin sees the figures; everyone else is redirected to login |
| AdminUsers.HoursBadge | app/dashboard/admin/users/page.tsx:224-228 | The hours badge shows exactly for a volunteer with a volunteer row, with the hours or 0 |
| AdminUsers.DonatedBadge | app/dashboard/admin/users/page.tsx:229-233 | The donated badge shows exactly for a donor with a donor row, with the amount or 0 |
| AdminUsers.AtMostOneBadge | app/dashboard/admin/users/page.tsx:224-233 | A user row never shows both the hours badge and the donated badge |
| AdminUsers.RoleBadge | app/dashboard/admin/users/page.tsx:212-222 | The role badge is filled for admins and secondary for volunteers, and outlined for every other role |
| AdminPrograms.Stats | app/dashboard/admin/programs/page.tsx:33-36 | The figures are the row count, the active and completed counts (which together never exceed it) and the funding total, all 0 without rows |
| AdminPrograms.StatsAfterNewProgram | app/dashboard/admin/programs/page.tsx:33-36 | One more program adds one to the count and its funding (0 when missing) to the total |
| AdminPrograms.View | app/dashboard/admin/programs/page.tsx:17-28 | Only an admin sees the figures; everyone else is redirected to login |
| AdminPrograms.CardDescription | app/dashboard/admin/programs/page.tsx:186 | The card shows the description's first 100 characters (all of it when shorter), then "...". With no description it shows "..." alone |
| AdminPrograms.CategoryLabel | app/dashboard/admin/programs/page.tsx:209 | A missing or empty category shows as "General" |
| AdminPrograms.StatusBadgeFilled | app/dashboard/admin/programs/page.tsx:175-176 | The badge is filled exactly for status "active" |
| AdminPrograms.FilledBadgesAreActivePrograms | app/dashboard/admin/programs/page.tsx:170-177 | The grid shows as many filled status badges as the header counts active programs |
| AdminPrograms.FundingShown | app/dashboard/admin/programs/page.tsx:191 | The funding block shows exactly when the goal is recorded and non-zero |
| AdminPrograms.ProgressShare | app/dashboard/admin/programs/page.tsx:191-202 | The bar's share exists exactly when the funding block shows. It is the funding (0 when missing) over the goal, which is then never zero |
| AdminPrograms.Percent | app/dashboard/admin/programs/page.tsx:199-202 | The whole percentage p of a share satisfies p <= 100 * share < p + 1 |
| AdminPrograms.PercentOfGoal | app/dashboard/admin/programs/page.tsx:199-202 | With a positive goal, the rounded-down percentage is not negative, is at most 100 up to the goal, and reaches 100 exactly when the funding reaches the goal |
| AdminPrograms.ProgressWithinGoal | app/dashboard/admin/programs/page.tsx:191-202 | A program's bar is full exactly when its funding has reached its positive goal |
| AdminPrograms.ShowsEmptyState | app/dashboard/admin/programs/page.tsx:169 | The "No programs yet" panel shows exactly when there are no rows |
| DonorHistory.CountYear | app/dashboard/donor/history/page.tsx:109 | The number of donations of the year is at most the number of donations |
| DonorHistory.FilterYear | app/dashboard/donor/history/page.tsx:109 | The year filter keeps exactly the donations whose `created_at` starts with the prefix, as many as `CountYear` |
| DonorHistory.FilterOtherYears | app/dashboard/donor/history/page.tsx:109 | The complementary filter keeps exactly the other donations, as many as the year filter drops |
| DonorHistory.YearSplit | app/dashboard/donor/history/page.tsx:109-110 | The year's sum plus the other donations' sum is the total |
| DonorHistory.FilterYearAll | app/dashboard/donor/history/page.tsx:109 | When every donation is of the year the filter returns the list unchanged |
| DonorHistory.CountYearNone | app/dashboard/donor/history/page.tsx:109 | When no donation is of the year the count is 0 |
| DonorHistory.FilterYearExtremes | app/dashboard/donor/history/page.tsx:109 | The filter keeps all rows when every row matches, and none when no row does |
| DonorHistory.TaxDeductible | app/dashboard/donor/history/page.tsx:109-110 | The 2024 figure plus the other years' sum is the total donated, and it is 0 without rows |
| DonorHistory.TaxDeductibleExtremes | app/dashboard/donor/history/page.tsx:109-110 | The 2024 figure equals the total donated when every donation is from 2024, and is 0 when none is |
| DonorHistory.TaxDeductibleAtMostTotal | app/dashboard/donor/history/page.tsx:109-110 | With non-negative amounts the 2024 figure lies between 0 and the total donated |
| DonorHistory.Stats | app/dashboard/donor/history/page.tsx:41-110 | The figures are the total donated, the number of donations and the 2024 figure, all 0 without rows |
| DonorHistory.View | app/dashboard/donor/history/page.tsx:18-27 | Only a donor sees the figures; everyone else is redirected to login |
| DonorHistory.MaskedPayment | app/dashboard/donor/history/page.tsx:196 | The masked method shows only for a non-empty method: the dots and then the last four characters, or all when shorter |
| DonorHistory.MaskedPaymentLastFour | app/dashboard/donor/history/page.tsx:196 | Two payment methods that end in the same four characters are masked identically |
| DonorHistory.ProgramLabel | app/dashboard/donor/history/page.tsx:195 | The program's title, or "General Fund" when the program or its title is missing or empty |
| AdminDashboard.MonthCount | app/dashboard/admin/page.tsx:53-54 | The monthly count is at most the donation count, and is 0 exactly when no donation falls in the month |
| AdminDashboard.MonthCountIgnoresYear | app/dashboard/admin/page.tsx:53-54 | Donation lists that differ only in years give the same monthly count |
| AdminDashboard.LastYearCountsThisMonth | app/dashboard/admin/page.tsx:53-54 | A donation from this month of last year is counted as this month's |
| AdminDashboard.UpcomingCount | app/dashboard/admin/page.tsx:56 | The upcoming count is at most the event count, and is 0 exactly when no event is after now |
| AdminDashboard.UpcomingCountAntitone | app/dashboard/admin/page.tsx:56 | As time passes the upcoming count never grows |
| AdminDashboard.CountPending | app/dashboard/admin/page.tsx:45-48 | The pending count is at most the number of applications, and 0 exactly when none is pending |
| AdminDashboard.PendingOnly | app/dashboard/admin/page.tsx:45-48 | `eq("status", "pending")` keeps exactly the pending applications, as many as `CountPending` |
| AdminDashboard.PendingApplications | app/dashboard/admin/page.tsx:45-49 | `limit(5)` keeps a prefix of the pending applications: all of them when there are at most five, and otherwise five |
| AdminDashboard.PendingApplicationsAllWhenFew | app/dashboard/admin/page.tsx:45-49 | With at most five pending applications every one is fetched, and the figure is their number |
| AdminDashboard.Stats | app/dashboard/admin/page.tsx:52-56 | The figures are the donation total, the monthly count, the active programs and the upcoming events. Total users is the volunteers count plus the donors count. The pending figure ("pending review", line 291) is the number of pending applications, capped at five. Each figure is 0 for missing rows |
| AdminDashboard.View | app/dashboard/admin/page.tsx:28-37 | Only an admin sees the figures; everyone else is redirected to login |
| AdminDashboard.AvatarLetter | app/dashboard/admin/page.tsx:66 | The avatar shows the name's first character, or "A" |
| DonorDashboard.Window | app/dashboard/donor/page.tsx:32-37 | The page sees exactly the first five of the donor's donations, or all of them when there are at most five |
| DonorDashboard.Featured | app/dashboard/donor/page.tsx:40 | The featured programs are the first active programs in query order, at most three; exactly three when at least three are active |
| DonorDashboard.Stats | app/dashboard/donor/page.tsx:43 | The total donated and the tax figure are the same sum over the window. "Donations Made" is the window's size, at most 5. The featured programs are active ones, at most three, and three whenever that many are active |
| DonorDashboard.View | app/dashboard/donor/page.tsx:17-26 | Only a donor sees the figures; everyone else is redirected to login |
| DonorDashboard.WindowSplit | app/dashboard/donor/page.tsx:37-43 | The donor's full total is the window's total plus that of the older donations |
| DonorDashboard.DashboardTotalAgainstHistory | app/dashboard/donor/page.tsx:43 | With at most five donations the dashboard total equals the history page's total. With non-negative amounts it never exceeds it |
| DonorDashboard.Blurb | app/dashboard/donor/page.tsx:313 | A blurb shows the description's first 80 characters (all of it when shorter), then "...". With no description it shows "..." alone |
| DonorDashboard.BlurbPrefixOfCard | app/dashboard/donor/page.tsx:313 | The text of a dashboard blurb is a prefix of the text of the program card's description |
| DonorDashboard.GreetingName | app/dashboard/donor/page.tsx:57 | The welcome line shows the full name, or "Donor" |
| DonorDashboard.AvatarLetter | app/dashboard/donor/page.tsx:53 | The avatar shows the name's first character, or "D" |
| DonorDashboard.DestinationLabel | app/dashboard/donor/page.tsx:205 | A donation line reads "Program Support" exactly when it has a program id, and "General Fund" otherwise |

## Left out

- The hosted backend (`createClient`, `auth.getUser`, `signInWithPassword`, `signUp`, the `from(...)` queries) is not modelled. Its answers are parameters, given as result variants or row sequences. The model does not capture query ordering: rows arrive already in query order. Query filtering is modelled only where a page depends on it: the pending filter, the active filter, and the `limit(3)`/`limit(5)` windows.
- Date parsing and the local time zone are not modelled. A donation's `created_at` is given both as text (for the "2024" prefix test) and as an already-read calendar month and year. The current month and "now" are parameters.
- Floating-point arithmetic is not modelled. The admin programs bar's share is kept as an exact fraction, and its bounds are stated on the rounded-down whole percentage. The donor pages' `Math.round` percentages, `toLocaleString` currency formatting and `toLocaleDateString`/`format` date text are not modelled. Amounts and funding are integers.
- Donate.ParseInt: values are exact integers. Beyond 2^53 `parseInt` loses precision, and the model does not capture that.
- AdvancedSearch.AmountInput: takes the result of `Number(text)` as a parameter (`None` for NaN). Number conversion itself is not modelled.
- Timing, DOM and navigation side effects are recorded, not performed. This covers the `setTimeout` delay of the export, the DOM download anchor, `router.push`/`router.refresh` and `console.log`. `Date.now()` in the notification seed is a parameter.
- React's asynchronous state updates are not modelled. The `updateFilter` closure reads the `filters` of the last render. In the model each handler reads the current state, which is the same whenever renders keep up with events.
- JSX layout, styling, UI toggles (`isOpen`, `isExpanded`) and the purely static parts of the pages are not modelled. This includes the hard-coded "2 programs need updates" line and the impact and achievement panels of the donor dashboard.
- The donate page's submit button has no handler in the source, so no submission is modelled.
- Donate.ChargeLabel: the selector offers "one-time", "monthly", "quarterly" and "annually". The contract covers any frequency text, and every text other than "monthly" and "quarterly" gives "annually".
