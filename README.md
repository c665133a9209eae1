# MedLink hospital dashboard: a Dafny model of its screen logic

MedLink is a React Native dashboard for hospital staff. It has these parts:

- a patient queue with an intake form;
- a bed board with a filter panel and one card per bed;
- an occupancy summary;
- an emergency alert board with an alert form;
- a resource allocation screen with one card per resource;
- the registration and password-reset screens;
- an authentication context and a settings context;
- the route guard of the root layout, and the navigation sidebar.

The logic of these screens is list filters, comparators, counters and small record updates
inside components. This project models that logic and proves what each part promises.

- **Pure parts are functions.** Filters, sorts, counts, colour bands and validation chains
  are functions over datatypes. Each has a contract and lemmas beside it.
- **Stateful parts are classes.** Component state is a class with one field per `useState`.
  The handlers are methods whose `ensures` give the whole new state.
- **Outside inputs are parameters.** `Math.random()` is a real in [0, 1). Clock strings are
  plain strings. The outcome of each remote call (the Supabase backend) is a datatype
  argument.

There is one module per source file. Four helper modules are shared:

- `Wrappers`: `Option`.
- `Text`: `toLowerCase` on ASCII, `includes`, truthiness, decimal rendering.
- `Seqs`: `filter`, subsequences, counts.
- `Numbers`: `Math.round` of a quotient, `Math.floor(Math.random() * n)`.

## Model

| member | source | states |
|---|---|---|
| AddPatientForm.ParsePriority | components/dashboard/AddPatientForm.tsx:31 | a label is read as a priority exactly when it is one of the four capitalised values, and the priority read carries that label |
| AddPatientForm.ParseLabel | components/dashboard/AddPatientForm.tsx:194-207 | reading back the label of any priority's button gives that priority (the inverse of `ParsePriority`) |
| AddPatientForm.NameIsLowerLabel | components/dashboard/PatientQueue.tsx:159-163 | the lower-cased form label of a priority is the lower-case value a queue record holds |
| AddPatientForm.WithField | components/dashboard/AddPatientForm.tsx:72-74 | after `{ ...prev, [field]: value }` the field shows the value and every other field shows what it showed before |
| AddPatientForm.FieldsDetermineRecord | components/dashboard/AddPatientForm.tsx:25-35 | two records showing the same text in all nine fields are equal |
| AddPatientForm.WithOwnValue | components/dashboard/AddPatientForm.tsx:72-74 | writing a field's current value back leaves the record unchanged |
| AddPatientForm.IdNumber | components/dashboard/AddPatientForm.tsx:61 | the number drawn for an id lies in 100000..999999 |
| AddPatientForm.GenerateId | components/dashboard/AddPatientForm.tsx:61 | a generated id is "P" followed by six digits, the first digit not 0 |
| AddPatientForm.GeneratedIdsDiffer | components/dashboard/AddPatientForm.tsx:82 | draws giving different numbers give different ids |
| AddPatientForm.Defaults | components/dashboard/AddPatientForm.tsx:60-70 | the starting record: the given id, empty text fields, priority Medium (one of the four labels) and department "Emergency" (one of the offered departments) |
| AddPatientForm.Form.constructor | components/dashboard/AddPatientForm.tsx:60-70 | the form opens on the defaults under a freshly generated id |
| AddPatientForm.Form.HandleChange | components/dashboard/AddPatientForm.tsx:72-74 | only the named field of `patientData` changes, and it takes the value |
| AddPatientForm.Form.HandleSubmit | components/dashboard/AddPatientForm.tsx:76-92 | the record is handed over unchanged and unchecked, and the form resets to the defaults with a fresh id |
| PatientQueue.FilterPatients | components/dashboard/PatientQueue.tsx:218-251 | the result is a subsequence of the roster; every kept patient meets each active criterion; every matching patient is kept, as often as it occurs; all wildcards keep the roster unchanged |
| PatientQueue.UnknownSelectionMatchesNothing | components/dashboard/PatientQueue.tsx:237-248 | a selected priority or status that no record can hold keeps nobody |
| PatientQueue.KnownNames | components/dashboard/PatientQueue.tsx:32-40 | a record's priority and status are each one of four spellings |
| PatientQueue.Flip | components/dashboard/PatientQueue.tsx:268-270 | the toggled direction differs from the current one |
| PatientQueue.FlipTwice | components/dashboard/PatientQueue.tsx:268-270 | toggling twice gives the original direction |
| PatientQueue.Rank | components/dashboard/PatientQueue.tsx:260 | critical ranks 3, high 2, medium 1 and low 0, and no two priorities share a rank |
| PatientQueue.Insert | components/dashboard/PatientQueue.tsx:252-264 | one insertion step keeps a sorted list sorted and adds exactly the one patient |
| PatientQueue.SortPatients | components/dashboard/PatientQueue.tsx:252-264 | the sorted list is a permutation of its input and is in the order the comparator asks for |
| PatientQueue.SortOrder | components/dashboard/PatientQueue.tsx:252-264 | by wait time, ascending is non-decreasing and descending non-increasing; by priority, the same holds for the rank |
| PatientQueue.SortKeepsSorted | components/dashboard/PatientQueue.tsx:252-264 | a list already in order comes out unchanged, so ties keep their order |
| PatientQueue.AscendingUnique | components/dashboard/PatientQueue.tsx:252-264 | with no two different patients sharing a key, two ascending lists of the same patients are equal |
| PatientQueue.ReverseDirection | components/dashboard/PatientQueue.tsx:252-264 | with no two different patients sharing a key, the ascending sort is the descending sort reversed |
| PatientQueue.SortIdempotent | components/dashboard/PatientQueue.tsx:252-264 | sorting twice is the same as sorting once |
| PatientQueue.Displayed | components/dashboard/PatientQueue.tsx:218-264 | the list shown holds exactly the matching roster patients, is a permutation of the filtered list, and is sorted |
| PatientQueue.StatusCount | components/dashboard/PatientQueue.tsx:309-316 | a status count is at most the total, and is zero exactly when no patient has that status |
| PatientQueue.WaitingAndInProgressBounded | components/dashboard/PatientQueue.tsx:304-317 | the Waiting and In Progress tiles together never exceed the Total tile |
| PatientQueue.AverageWaitTime | components/dashboard/PatientQueue.tsx:322-325 | the average tile is the mean wait time rounded half up |
| PatientQueue.TotalWaitBounds | components/dashboard/PatientQueue.tsx:322-325 | the summed wait lies between n times the lowest and n times the highest wait |
| PatientQueue.AverageWithinBounds | components/dashboard/PatientQueue.tsx:322-325 | the average lies between the shortest and the longest wait |
| PatientQueue.FallbackId | components/dashboard/PatientQueue.tsx:156 | the fallback id is "P-" followed by one or more characters, all of them decimal digits |
| PatientQueue.NewWaitTime | components/dashboard/PatientQueue.tsx:158 | a new wait time lies in 15..74 |
| PatientQueue.NewPatient | components/dashboard/PatientQueue.tsx:155-170 | the new record is waiting, has the lower-cased form priority, the form id when that is non-empty (else the fallback id), a wait in 15..74, the form's name and department, and the given time |
| PatientQueue.DefaultEmergencyFilter | components/dashboard/PatientQueue.tsx:61-112 | on the default roster the Emergency filter keeps John Doe and Robert Johnson, in that order |
| PatientQueue.EmergencyMatches | components/dashboard/PatientQueue.tsx:229-235 | of the default patients, exactly John Doe and Robert Johnson are in Emergency |
| PatientQueue.Queue.constructor | components/dashboard/PatientQueue.tsx:60-119 | the roster is the given one, or the default roster when the given one is empty; no filters; priority order, descending |
| PatientQueue.Queue.Tiles | components/dashboard/PatientQueue.tsx:304-325 | Total is the roster length, and Waiting plus In Progress is at most Total |
| PatientQueue.Queue.HandleAddPatient | components/dashboard/PatientQueue.tsx:153-203 | exactly one new patient is appended at the end, whatever the remote insert reports; the roster stays non-empty; the form data is forwarded |
| PatientQueue.Queue.ToggleSortDirection | components/dashboard/PatientQueue.tsx:268-270 | only the direction changes, to the other one |
| PatientQueue.Queue.ClearFilters | components/dashboard/PatientQueue.tsx:273-278 | all four filters return to their wildcards; the sort and the roster are untouched |
| PatientQueue.Queue.SetSearchQuery | components/dashboard/PatientQueue.tsx:456 | only the search query changes |
| PatientQueue.Queue.SelectDepartment | components/dashboard/PatientQueue.tsx:357 | only the department filter changes |
| PatientQueue.Queue.SelectPriority | components/dashboard/PatientQueue.tsx:395 | only the priority filter changes |
| PatientQueue.Queue.SelectStatus | components/dashboard/PatientQueue.tsx:433 | only the status filter changes |
| PatientQueue.Queue.SetSortBy | components/dashboard/PatientQueue.tsx:472-484 | only the sort key changes; the direction is kept |
| BedManagement.UpdateBed | components/dashboard/BedManagement.tsx:89-108 | only the bed with the id changes; its id and department stay; Available clears both patient fields; Occupied on a bed without a name sets "New Patient" and the time; otherwise the patient fields are kept |
| BedManagement.StatusChanged | components/dashboard/BedManagement.tsx:89-110 | length and every id are kept; only beds with the id change; an unknown id leaves the list unchanged |
| BedManagement.UpdateBedIdempotent | components/dashboard/BedManagement.tsx:89-108 | setting the same status twice, at any two times, is setting it once |
| BedManagement.StatusChangedIdempotent | components/dashboard/BedManagement.tsx:88-111 | the same for the whole list |
| BedManagement.OccupiedHasPatient | components/dashboard/BedManagement.tsx:98-104 | after a change to Occupied the bed always has a non-empty patient name |
| BedManagement.FilteredBeds | components/dashboard/BedManagement.tsx:115-145 | the view is a subsequence of the beds, holding exactly the beds that pass ward, status and search, each as often as in the list; all wildcards keep every bed |
| BedManagement.NarrowBeds | components/dashboard/BedManagement.tsx:115-145 | the three successive narrowings give the single combined filter |
| BedManagement.StatusCounts | components/dashboard/BedManagement.tsx:183-191 | the total is the length, and available + occupied + maintenance = total |
| BedManagement.CountsPartition | components/dashboard/BedManagement.tsx:183-191 | the three status counts cover the list exactly |
| BedManagement.MockIdsDistinct | components/dashboard/BedManagement.tsx:54 | different positions give different ids |
| BedManagement.MockIdShape | components/dashboard/BedManagement.tsx:49-54 | the ids of beds 1 to 24 are "B-" followed by four digits |
| BedManagement.MockBed | components/dashboard/BedManagement.tsx:49-72 | a mock bed has a status and department from the pools, and a patient name and admission time exactly when it is occupied |
| BedManagement.GenerateMockBeds | components/dashboard/BedManagement.tsx:36-75 | 24 beds, bed k built from the k-th draws, with pairwise distinct ids |
| BedManagement.Screen.constructor | components/dashboard/BedManagement.tsx:77-85 | the given list (an empty one too), else the 24 mock beds, bed k being `MockBed(k+1, draws[k])`; the view shows every bed |
| BedManagement.Screen.HandleStatusChange | components/dashboard/BedManagement.tsx:83-112 | the beds are rewritten, the reset effect drops every filter, and `(id, status)` is reported |
| BedManagement.Screen.HandleFilterChange | components/dashboard/BedManagement.tsx:115-145 | only the view changes, to the filtered beds |
| BedManagement.Screen.ClearFilters | components/dashboard/BedManagement.tsx:306-309 | the "Clear Filters" button of the empty view shows every bed again; the beds stay |
| BedManagement.Screen.OnRefresh | components/dashboard/BedManagement.tsx:148-180 | non-empty fetched rows replace the beds; an error, an exception or an empty answer gives 24 fresh mock beds, bed k being `MockBed(k+1, draws[k])`; the view shows every bed |
| BedManagement.Screen.Summary | components/dashboard/BedManagement.tsx:183-193 | the total tile is the number of beds |
| BedFilterPanel.GeneralIsNoMockDepartment | components/dashboard/BedFilterPanel.tsx:26-35 | "General" is offered as a ward but is no mock department |
| BedFilterPanel.GeneralShowsNothing | components/dashboard/BedFilterPanel.tsx:26-35 | selecting "General" shows no bed when every department comes from the mock pool |
| BedFilterPanel.UnknownStatusShowsNothing | components/dashboard/BedFilterPanel.tsx:36-43 | selecting "Reserved" or "Cleaning" shows no bed at all |
| BedFilterPanel.Panel.constructor | components/dashboard/BedFilterPanel.tsx:20-24 | "All Wards", "All Status" and an empty search |
| BedFilterPanel.Panel.HandleWardSelect | components/dashboard/BedFilterPanel.tsx:45-49 | only the ward changes, and the emitted record is the new state |
| BedFilterPanel.Panel.HandleStatusSelect | components/dashboard/BedFilterPanel.tsx:51-55 | only the status changes, and the emitted record is the new state |
| BedFilterPanel.Panel.HandleSearchChange | components/dashboard/BedFilterPanel.tsx:57-64 | only the search changes, and the emitted record is the new state |
| BedFilterPanel.Panel.ClearSearch | components/dashboard/BedFilterPanel.tsx:66-69 | the search is emptied, the selections are kept, and the emitted record is the new state |
| BedStatusCard.UpdatePayload | components/dashboard/BedStatusCard.tsx:45-61 | the payload always carries the new status; Available nulls both patient columns; Occupied on a card without a name sets "New Patient" and the time; otherwise it carries the status only |
| BedStatusCard.PayloadAgreesWithBoard | components/dashboard/BedStatusCard.tsx:45-61 | the row the card writes remotely equals the bed the board computes locally, for every status and every card |
| BedStatusCard.OfferedStatuses | components/dashboard/BedStatusCard.tsx:117-142 | exactly two distinct buttons: every status except the current one |
| BedStatusCard.OnPress | components/dashboard/BedStatusCard.tsx:39-73 | `(id, newStatus)` is reported whatever the remote outcome, and the payload agrees with the board's update |
| StatsSummary.OccupancyRate | components/dashboard/StatsSummary.tsx:27 | the rate is 100·occupied/total rounded half up, and lies in 0..100 when 0 ≤ occupied ≤ total |
| StatsSummary.DefaultOccupancy | components/dashboard/StatsSummary.tsx:17-27 | the default 87 of 120 beds shows 73 |
| StatsSummary.OccupancyBand | components/dashboard/StatsSummary.tsx:30-35 | red from 90, orange from 75, yellow from 50, otherwise green, with inclusive bounds |
| StatsSummary.BandMonotone | components/dashboard/StatsSummary.tsx:30-35 | a higher rate is never shown in a less severe colour |
| StatsSummary.AlertBlockFor | components/dashboard/StatsSummary.tsx:172-198 | the all-clear note exactly when there is no alert; otherwise one card, or two when there is more than one alert |
| StatsSummary.CardsShown | components/dashboard/StatsSummary.tsx:172-198 | no card on the all-clear; the Code Blue card first; the Staff Shortage card second |
| StatsSummary.AlertBlockMonotone | components/dashboard/StatsSummary.tsx:172-198 | more alerts never show fewer cards |
| EmergencyAlerts.FilteredAlerts | components/dashboard/EmergencyAlerts.tsx:108-131 | a subsequence of the alerts, holding exactly those passing both tests, each as often as in the list; "All Alerts" with an empty search keeps every alert |
| EmergencyAlerts.IdAndDepartmentsNotSearched | components/dashboard/EmergencyAlerts.tsx:121-127 | the id and the affected departments play no part in either test |
| EmergencyAlerts.CountsBySeverity | components/dashboard/EmergencyAlerts.tsx:238-256 | the four severity counts over the unfiltered list add up to its length |
| EmergencyAlerts.SeverityPartition | components/dashboard/EmergencyAlerts.tsx:238-256 | each alert has exactly one of the four severities |
| EmergencyAlerts.CriticalHits | components/dashboard/EmergencyAlerts.tsx:110-118 | the filter "Critical" passes both critical default alerts |
| EmergencyAlerts.CriticalMisses | components/dashboard/EmergencyAlerts.tsx:110-118 | the filter "Critical" rejects the fire and the security alert |
| EmergencyAlerts.DefaultCritical | components/dashboard/EmergencyAlerts.tsx:321-383 | "Critical" on the default alerts keeps ALT-2023-0042 and ALT-2023-0039, in that order |
| EmergencyAlerts.FireHits | components/dashboard/EmergencyAlerts.tsx:110-118 | the filter "Fire" passes the fire alert through its type |
| EmergencyAlerts.FireMisses | components/dashboard/EmergencyAlerts.tsx:110-118 | the filter "Fire" rejects the other three default alerts |
| EmergencyAlerts.DefaultFire | components/dashboard/EmergencyAlerts.tsx:321-383 | "Fire" on the default alerts keeps only ALT-2023-0041 |
| AlertForm.Toggle | components/dashboard/AlertForm.tsx:60-74 | membership of the department flips and other memberships are kept; an absent department is appended at the end; a present one is removed everywhere, the rest keep their counts |
| AlertForm.ToggleTwice | components/dashboard/AlertForm.tsx:60-74 | toggling an absent department twice restores the list |
| AlertForm.ToggleNoDuplicates | components/dashboard/AlertForm.tsx:60-74 | a toggle never introduces a duplicate |
| AlertForm.ToggleKeepsOrder | components/dashboard/AlertForm.tsx:60-74 | the other departments keep their relative order |
| AlertForm.SeverityColor | components/dashboard/AlertForm.tsx:233-248 | a button is coloured exactly when its level is the selected one and a known level; selected low is yellow, medium orange, high red, critical purple |
| AlertForm.SelectedColorsDistinct | components/dashboard/AlertForm.tsx:233-248 | the four selected colours are pairwise different |
| AlertForm.OneButtonColored | components/dashboard/AlertForm.tsx:233-248 | of the four buttons, exactly the draft's severity is coloured |
| AlertForm.Form.constructor | components/dashboard/AlertForm.tsx:32-38 | empty type, location and description, severity medium, no departments |
| AlertForm.Form.SelectType | components/dashboard/AlertForm.tsx:110 | only the type changes |
| AlertForm.Form.SetLocation | components/dashboard/AlertForm.tsx:133-134 | only the location changes |
| AlertForm.Form.SelectSeverity | components/dashboard/AlertForm.tsx:150 | only the severity changes |
| AlertForm.Form.SetDescription | components/dashboard/AlertForm.tsx:178-179 | only the description changes |
| AlertForm.Form.ToggleDepartment | components/dashboard/AlertForm.tsx:60-74 | only the department list changes, by the toggle |
| AlertForm.Form.HandleSubmit | components/dashboard/AlertForm.tsx:76-82 | the draft is handed over exactly when a handler is given, unchanged and unchecked |
| ResourceAllocation.SelectedList | components/dashboard/ResourceAllocation.tsx:186-199 | every row shown has the kind of the tab (staff for unknown tabs); 5 staff rows, 4 of the others |
| ResourceAllocation.UnknownTabShowsStaff | components/dashboard/ResourceAllocation.tsx:197-198 | any other tab shows the staff list |
| ResourceAllocation.FilteredResources | components/dashboard/ResourceAllocation.tsx:184-206 | a subsequence of the tab's list; "All Departments" returns it unchanged; otherwise exactly the rows of that department |
| ResourceAllocation.PpeOnlyUnderAllDepartments | components/dashboard/ResourceAllocation.tsx:201-202 | the PPE row, whose department is "All Departments", disappears once any one department is chosen |
| ResourceAllocation.GeneralWardOnlyStaff | components/dashboard/ResourceAllocation.tsx:209-218 | the "General Ward" option shows nothing on the equipment and supplies tabs |
| ResourceAllocation.OtherTabsNeverShown | components/dashboard/ResourceAllocation.tsx:184-206 | a row of another tab's list never appears |
| ResourceAllocation.Forward | components/dashboard/ResourceAllocation.tsx:221-224 | the card's id and the new allocation are forwarded unchanged |
| ResourceAllocation.StaffIdsDistinct | components/dashboard/ResourceAllocation.tsx:31-87 | the staff ids are pairwise distinct |
| ResourceAllocation.EquipmentIdsDistinct | components/dashboard/ResourceAllocation.tsx:89-134 | the equipment ids are pairwise distinct |
| ResourceAllocation.SuppliesIdsDistinct | components/dashboard/ResourceAllocation.tsx:136-181 | the supplies ids are pairwise distinct |
| ResourceAllocation.ForwardIdentifiesCard | components/dashboard/ResourceAllocation.tsx:407-409 | within a tab a forwarded update names exactly one card |
| ResourceCard.Clamp | components/dashboard/ResourceCard.tsx:41-44 | the new allocation is never negative and never above a non-negative capacity; in range it is the sum itself, above it the capacity, below zero 0 |
| ResourceCard.PlusBelowCapacity | components/dashboard/ResourceCard.tsx:40-45 | below capacity plus is enabled and raises the allocation by exactly one |
| ResourceCard.MinusAboveZero | components/dashboard/ResourceCard.tsx:40-45 | above zero minus is enabled and lowers the allocation by exactly one |
| ResourceCard.EndsAreFixed | components/dashboard/ResourceCard.tsx:40-45 | plus at capacity and minus at zero change nothing, and both buttons are disabled there |
| ResourceCard.MinusOverCapacity | components/dashboard/ResourceCard.tsx:38-45 | on a card seeded above its capacity, plus is disabled and the first minus snaps down to the capacity |
| ResourceCard.AvailabilityColor | components/dashboard/ResourceCard.tsx:73-77 | green from 70, yellow from 40, otherwise red, with inclusive bounds |
| ResourceCard.AvailabilityMonotone | components/dashboard/ResourceCard.tsx:73-77 | more availability never gives a worse colour |
| ResourceCard.Card.constructor | components/dashboard/ResourceCard.tsx:27-38 | the counter is seeded from the props |
| ResourceCard.Card.HandleAdjust | components/dashboard/ResourceCard.tsx:40-47 | the clamped value is stored and that same value goes to `onAdjust`; afterwards the allocation lies in 0..capacity |
| AuthErrors.PasswordProblem | app/auth/register.tsx:56-64 | a mismatch is reported first; otherwise a password shorter than 6 is reported; both directions of each case |
| AuthErrors.SixCharactersAccepted | app/auth/register.tsx:61-64 | a confirmed password of exactly six characters passes |
| AuthErrors.CaughtMessage | app/auth/register.tsx:111-112 | the message shown is never empty, and is the thrown message when that is non-empty |
| Register.Validate | app/auth/register.tsx:51-64 | a missing email, password or name is reported first; then the password checks; it passes exactly when all fields are filled, the passwords match and the length is at least 6 |
| Register.EmptyConfirmIsMismatch | app/auth/register.tsx:51-59 | a filled-in form with an empty confirmation is a mismatch, not a missing field |
| Register.MissingFieldFirst | app/auth/register.tsx:51-54 | with an empty name only the missing-field message is given |
| Register.OrNull | app/auth/register.tsx:78 | an empty department becomes null, any other is kept |
| Register.Screen.constructor | app/auth/register.tsx:25-33 | empty fields, role "Medical Staff", not loading, no message |
| Register.Screen.HandleRegister | app/auth/register.tsx:49-115 | a failed check sets its message and sends nothing; otherwise sign-up is sent with a nullable department; the profile row is built exactly when a user id comes back, and a missing id ends quietly with no message and no redirect; the login redirect happens exactly when the insert succeeds; each failure shows its message; loading ends |
| ResetPassword.Validate | app/auth/reset-password.tsx:39-54 | an empty password or confirmation is reported first; then the shared password checks |
| ResetPassword.EmptyConfirmIsMissing | app/auth/reset-password.tsx:41-44 | here an empty confirmation is a missing field |
| ResetPassword.Screen.constructor | app/auth/reset-password.tsx:15-20 | empty fields, not loading, no message, no success |
| ResetPassword.Screen.CheckSession | app/auth/reset-password.tsx:25-37 | without a session the invalid-link message is set |
| ResetPassword.Screen.HandleResetPassword | app/auth/reset-password.tsx:39-74 | the new password is sent only when all checks pass; success is set only when the update reports no error; failures show their message |
| AuthContext.DeriveRole | contexts/AuthContext.tsx:95-102 | "Administrator" exactly when the email includes "admin"; else "Reception" exactly when it includes "reception"; else "Medical Staff" (also for a missing email) |
| AuthContext.OrElse | contexts/AuthContext.tsx:106-108 | `value \|\| fallback` keeps a non-empty value and otherwise gives the fallback |
| AuthContext.OrNull | contexts/AuthContext.tsx:109 | `value \|\| null` keeps a non-empty value and otherwise gives null |
| AuthContext.DefaultProfile | contexts/AuthContext.tsx:104-110 | the default profile's email (or ""), name (or "User"), metadata role (or the derived one) and department (or null) |
| AuthContext.BareUserProfile | contexts/AuthContext.tsx:104-110 | with no metadata the name is "User", the role is the derived one and the department is null |
| AuthContext.MetadataRoleWins | contexts/AuthContext.tsx:108 | a non-empty metadata role overrides the derived role |
| AuthContext.Auth.constructor | contexts/AuthContext.tsx:34-37 | no user, session or profile; loading |
| AuthContext.Auth.IsAuthenticated | contexts/AuthContext.tsx:208 | authenticated exactly when there is a user and a profile |
| AuthContext.Auth.OnAuthStateChange | contexts/AuthContext.tsx:54-63 | session and user follow the event; with a user the profile fetch starts; without one the profile is cleared, loading ends and nobody is authenticated |
| AuthContext.Auth.InitialSession | contexts/AuthContext.tsx:41-49 | as the listener, except that the profile is not cleared |
| AuthContext.Auth.ApplyProfileFetch | contexts/AuthContext.tsx:76-144 | a found row is stored; a missing one yields the default profile with the derived role, stored only if its insert succeeds; other errors change nothing; loading ends |
| AuthContext.Auth.SignOut | contexts/AuthContext.tsx:179-197 | the profile is dropped only on success; loading ends |
| SettingsContext.FromRow | contexts/SettingsContext.tsx:57-60 | the name is the stored one when non-empty, else "City Hospital"; notifications and auto-logout are off only for a stored false; dark mode is on only for a stored true |
| SettingsContext.NullRowIsInitial | contexts/SettingsContext.tsx:29-60 | a row of nulls gives the initial settings |
| SettingsContext.Save | contexts/SettingsContext.tsx:71-78 | the record carries the user id, the time and the four current values |
| SettingsContext.SaveThenLoad | contexts/SettingsContext.tsx:57-78 | loading a saved record gives the saved settings back, except that an empty name comes back as "City Hospital" |
| SettingsContext.Store.constructor | contexts/SettingsContext.tsx:29-32 | "City Hospital", notifications on, auto-logout on, dark mode off |
| SettingsContext.Store.SetHospitalName | contexts/SettingsContext.tsx:29 | only the name changes |
| SettingsContext.Store.SetNotificationsEnabled | contexts/SettingsContext.tsx:30 | only the notifications flag changes |
| SettingsContext.Store.SetAutoLogout | contexts/SettingsContext.tsx:31 | only the auto-logout flag changes |
| SettingsContext.Store.SetDarkMode | contexts/SettingsContext.tsx:32 | only the dark-mode flag changes |
| SettingsContext.Store.LoadSettings | contexts/SettingsContext.tsx:41-65 | only a row returned for a signed-in profile changes the values, to the mapped row; errors and a missing row change nothing |
| SettingsContext.Store.SaveSettings | contexts/SettingsContext.tsx:67-79 | a record is written exactly when there is a profile id, and it holds the current values |
| RootLayout.Redirect | app/layout.tsx:23-49 | nothing while loading; the login screen exactly for a visitor without a profile outside the auth group; home exactly for a signed-in user inside it |
| RootLayout.RedirectTargetsAreFixed | app/layout.tsx:38-48 | arriving at either target causes no further redirect |
| Sidebar.VisibleItems | components/layout/Sidebar.tsx:107-205 | an item is drawn exactly when its role condition holds |
| Sidebar.CommonItems | components/layout/Sidebar.tsx:107-145 | all three roles see the dashboard, the beds and the patient queue |
| Sidebar.ClinicalItems | components/layout/Sidebar.tsx:147-173 | resources and alerts are shown exactly for administrators and medical staff |
| Sidebar.AdminItems | components/layout/Sidebar.tsx:175-205 | reports and settings are shown exactly for administrators |
| Sidebar.VisibilityNests | components/layout/Sidebar.tsx:107-205 | what reception sees, medical staff see; what medical staff see, administrators see |
| Sidebar.AdministratorMenu | components/layout/Sidebar.tsx:107-205 | the administrator's menu holds all seven items in order |
| Sidebar.MedicalStaffMenu | components/layout/Sidebar.tsx:107-173 | the medical staff menu is the first five items |
| Sidebar.ReceptionMenu | components/layout/Sidebar.tsx:107-145 | the reception menu is the first three items |
| Sidebar.AtMostOneActive | components/layout/Sidebar.tsx:115-201 | at most one item is highlighted |
| Sidebar.HandleNavigation | components/layout/Sidebar.tsx:55-63 | the page is reported; "dashboard" pushes "/", any other page "/" followed by the page |
| Sidebar.RoutesIdentifyItems | components/layout/Sidebar.tsx:55-63 | different items push different routes |
| Sidebar.HomeRoutePages | components/layout/Sidebar.tsx:55-63 | "/" is pushed exactly for "dashboard" and for the empty page name |

## Left out

- Remote calls to the Supabase backend are not modelled: table select, insert, update and upsert, sign-up, sign-in, `updateUser` and `getSession`. Their outcomes are inputs, as `Fetch`, `Remote`, `SignUpResult`, `ProfileFetch`, `Load` and the booleans `ok`, `insertOk` and `hasSession`.
- `signIn` of contexts/AuthContext.tsx:148-176 is not modelled. It only wraps the remote sign-in and then calls the profile fetch, which `ApplyProfileFetch` covers.
- Logging, `alert`, and the rethrow in `saveSettings` are not modelled. The rethrow only passes the remote error on.
- The Sidebar logout button (components/layout/Sidebar.tsx:212-215) is not modelled. It calls `signOut`, which is `AuthContext.Auth.SignOut`.
- Async ordering is not modelled: React batching, effect timing, and a late response overwriting newer state.
- `Math.random()` is not modelled. The model takes the value drawn as an input, a real in [0, 1).
- `toLocaleTimeString` and `toISOString` are not modelled. The model uses the clock string as an input.
- Floating point is not modelled: quotients and percentages are exact rationals. `Math.round` is rounding half up of an exact quotient.
- Text.Lower: lower-cases ASCII letters only, whereas `toLowerCase` maps every Unicode upper-case letter.
- String lengths count characters, not UTF-16 code units.
- PatientQueue.AverageWaitTime: requires a non-empty roster. The source divides by the roster length unguarded, and an empty roster would show NaN. The queue never holds an empty roster: the constructor falls back to the default patients, and patients are only added.
- StatsSummary.OccupancyRate: requires a positive bed total. For a zero total the source computes NaN or Infinity, which has no integer value.
- PatientQueue.Displayed: states that the list is sorted and is a permutation of the filtered list. It does not state that ties keep their filtered order, although the insertion sort it uses does; `PatientQueue.SortKeepsSorted` is the nearest statement.
- AddPatientForm.WithField: requires a priority value to be one of the four labels. The record's TypeScript type admits only those, and the priority buttons pass only those.
- `handleUpdatePatient` (components/dashboard/PatientQueue.tsx:205-209) is not modelled; it only logs and calls back. PatientCard's remote status write is not modelled either: neither changes the roster.
- The status filter of the bed board is compared with the record's status name. The cast `bed.status as BedStatus` on refresh is taken on trust: fetched rows are assumed to hold one of the three statuses.
- Colours and layout are not modelled, except `getSeverityColor`, `getOccupancyColor` and `getAvailabilityColor`. This covers className strings, icons, `getStatusColor`, progress-bar widths, dropdown visibility and the grid/list view mode.
- The summary figures of the resource screen and the other dashboard numbers are fixed display values, not derived from data, so they are not modelled.
- Text-field setters are modelled where a handler or filter reads the field. The `onChangeText` setters of the register and reset screens are left out: their only effect is the field itself, which `HandleRegister` and `HandleResetPassword` take from the state.
