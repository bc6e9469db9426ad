# Medical home services app — a Dafny model of its core logic

The app coordinates medical home services: transports and home consultations.
A coordinator creates services, and doctors and nurses assigned to them move
them through their lifecycle (requested, assigned, in progress, completed, or
cancelled), record vital signs and write medical reports. The app is mostly
presentation. Its logic is a few state machines and list operations, and this
project models them:

- **Service store** (`ServiceContext`, service_context.dfy).
  - The reducer over the flat list of services.
  - The provider operations (create, update, assign, change status, add vital
    signs, add a medical report, clear the error). These are a class whose
    methods issue the same dispatches in the same order as the source.
  - The dashboard counts.
- **Session** (`AuthContext`, auth_context.dfy).
  - The authentication reducer and its invariant: authenticated exactly when a
    user is present.
  - The mock credential check.
  - A provider class with login, logout, session restore, password recovery,
    clear-error and role lookup. It carries the stored-user entry of device
    storage as a field.
- **Screens**.
  - The service list's visibility chain (`ServiceListScreen`).
  - The detail screen's permission rule, status buttons and entry forms
    (`ServiceDetailScreen`).
  - The create form (`CreateServiceScreen`).
  - The per-role tab list and the root routing (`AppNavigator`).
- **Constants** (`Constants`). The label tables, the user directory, and the
  e-mail and phone validators. Each validator is written as its regular
  expression's own structure and proved equal to a character-level
  description.
- **Shared modules**. `Types` holds the records of src/types/index.ts. A status,
  a role and a service type are each exactly one constructor of an enumeration,
  and a service holds at most one optional report. `Seqs` holds
  `Array.prototype.filter` and `find`, with their laws.

Conventions:

- Each `new Date()` is a `now: Date` parameter, with `Date` a natural-number
  timestamp. Each generated id is a parameter.
- A `Partial<Service>` is a `ServicePatch`, with one `Keep`/`Set` entry per key.
  Spreading `{doctorId: undefined}` does overwrite the field, so `Set(None)`
  models it.
- JavaScript truthiness of form text is `s != ""`.
- A storage call that throws is a boolean parameter, so every catch path of the
  session provider is modelled.

The store has no transition guard. `updateServiceStatus` applies any status,
and `StoreAcceptsAnyTransition` shows a completed service moved back to
assigned while keeping its completion date. The lifecycle is enforced only by
which buttons the detail screen offers. That table is `UiTransition`;
`StatusActions` is proved to offer exactly its successors.
`ButtonStatusChangeKeepsLifecycle` proves that a change made through a button
computed from the service as it now is keeps "completion date present exactly
when completed". That guarantee holds only on a freshly opened detail screen.
The screen computes its buttons from the copy of the service it found when it
opened and never refreshes that copy (`DetailScreen.shown`).
`StaleButtonsBreakLifecycle` shows the consequence: after "Complete Service",
the stale "Cancel Service" button leaves a cancelled service that keeps its
completion date. `StaleReportButton` shows that the stale "Medical Report"
button lets a second report replace the first.

## Model

| member | source | states |
|---|---|---|
| Types.NonEmpty | src/screens/CreateServiceScreen.tsx:50-51 | an empty form text becomes undefined: absent exactly when the text is empty, otherwise the text itself |
| Seqs.Filter | src/screens/ServiceListScreen.tsx:32-50 | the kept elements are accepted, come from the input, are no more than the input, and nothing is kept when nothing is accepted |
| Seqs.FilterIsSubsequence | src/screens/ServiceListScreen.tsx:28-54 | a filtered list is a subsequence of its input, so the original order is kept |
| Seqs.FilterMembership | src/screens/ServiceListScreen.tsx:28-54 | an element is kept exactly when it occurs in the input and is accepted |
| Seqs.FilterAllAccepted | src/screens/ServiceListScreen.tsx:29-35 | a filter that accepts every element returns its input |
| Seqs.FilterExtensional | src/screens/ServiceListScreen.tsx:28-54 | predicates that agree on every element filter alike |
| Seqs.FilterTwice | src/screens/ServiceListScreen.tsx:28-54 | filtering by p and then by q equals one filter by p-and-q, so the order of the chain's filters does not matter |
| Seqs.FilterAppend | src/screens/ServiceListScreen.tsx:28-54 | filtering distributes over concatenation |
| Seqs.Count | src/contexts/ServiceContext.tsx:225-229 | the length of a filtered list is at most the length of the list |
| Seqs.FirstIndex | src/contexts/ServiceContext.tsx:205 | the index `find` stops at: no earlier element is accepted, and the one there is accepted |
| Seqs.Find | src/screens/ServiceDetailScreen.tsx:48 | `find` gives nothing exactly when no element is accepted, otherwise the first accepted element |
| Constants.LabelTablesInjective | src/utils/constants.ts:3-29 | the four tables are total over their enumerations and no two members share a label or a colour |
| Constants.RoleLabel | src/utils/constants.ts:3-7 | the display name of each role |
| Constants.ServiceTypeLabel | src/utils/constants.ts:9-13 | the display name of each service type |
| Constants.StatusLabel | src/utils/constants.ts:15-21 | the display name of each status |
| Constants.StatusColor | src/utils/constants.ts:23-29 | the badge colour of each status |
| Constants.MockUsersDirectory | src/utils/constants.ts:31-53 | three active users with ids "1", "2" and "3", distinct e-mail addresses, and one user per role |
| Constants.Utf16Length | src/utils/constants.ts:82 | `length` counts UTF-16 code units: never fewer than the characters, and exactly as many inside the Basic Multilingual Plane |
| Constants.ValidateEmail | src/utils/constants.ts:75-78 | the regular expression as the splits of the address it accepts; a valid address has at least five characters, an '@' and a '.' |
| Constants.ValidateEmailCharacterization | src/utils/constants.ts:75-78 | validateEmail holds exactly when there is no whitespace, exactly one '@' after a non-empty local part, and a '.' in the domain with text on both sides |
| Constants.EmailRegexShape | src/utils/constants.ts:76 | every split the regular expression accepts has the character-level shape |
| Constants.EmailShapeRegex | src/utils/constants.ts:76 | every address of that shape has a split the regular expression accepts |
| Constants.ValidateEmailRejects | src/utils/constants.ts:76 | whitespace anywhere or a second '@' makes an address invalid |
| Constants.PhoneBody | src/utils/constants.ts:81 | the text after an optional leading '+' is one character shorter exactly when the '+' is there |
| Constants.PhoneRegex | src/utils/constants.ts:81 | the regular expression holds exactly when the text after an optional leading '+' is one or more digits, whitespace, '-', '(' or ')' |
| Constants.PhoneRegexInBmp | src/utils/constants.ts:81-82 | a string the regular expression accepts has as many UTF-16 code units as characters |
| Constants.ValidatePhone | src/utils/constants.ts:80-83 | validatePhone holds exactly when the regular expression matches and the string has at least 8 characters |
| Constants.ValidatePhoneCharacterization | src/utils/constants.ts:80-83 | validatePhone holds exactly when the string has at least 8 characters and, after an optional '+', one or more digits, whitespace, '-', '(' or ')' |
| Constants.ValidatePhonePlusOnlyFirst | src/utils/constants.ts:81 | a valid phone number has a '+' at most at its first position |
| ServiceContext.Merge | src/contexts/ServiceContext.tsx:47 | the merged service always carries the new update time, and an empty patch changes nothing else |
| ServiceContext.UpdateById | src/contexts/ServiceContext.tsx:42-50 | UPDATE_SERVICE keeps length and order, leaves every service with another id unchanged, and merges every service with the id |
| ServiceContext.UpdateUnknownId | src/contexts/ServiceContext.tsx:45-49 | an id that no service carries changes no service |
| ServiceContext.Reduce | src/contexts/ServiceContext.tsx:32-56 | for each action, what it sets and what it leaves alone; ADD_SERVICE appends as the last element with the earlier ones unchanged; UPDATE_SERVICE keeps length and other ids |
| ServiceContext.NewService | src/contexts/ServiceContext.tsx:139-155 | a new service is requested, with an empty reading list, no report and no completion date; it carries the input's fields and is lifecycle-consistent |
| ServiceContext.PriorReadings | src/contexts/ServiceContext.tsx:205 | the readings of the first service with the id, an absent list counting as empty; empty when no service has the id |
| ServiceContext.NewVitalSigns | src/contexts/ServiceContext.tsx:196-202 | the reading carries its id, service, time and every field of the input |
| ServiceContext.NewReport | src/contexts/ServiceContext.tsx:210-216 | the report carries the input's fields and always the operation's own creation time |
| ServiceContext.AssignEffect | src/contexts/ServiceContext.tsx:179-185 | assigning overwrites both assignees and sets the status to assigned exactly when a non-empty doctor or nurse id is given, whatever it was before |
| ServiceContext.AssignPatch | src/contexts/ServiceContext.tsx:180-184 | the update object of assignService: both assignees always, and the status from them; its effect is AssignEffect |
| ServiceContext.StatusPatch | src/contexts/ServiceContext.tsx:188-191 | the update object of updateServiceStatus: the status, and a completion date only for completed; its effect is StatusEffect |
| ServiceContext.VitalSignsPatch | src/contexts/ServiceContext.tsx:204-206 | the update object of addVitalSigns: the prior readings followed by the new one; its effect is AddVitalSignsEffect |
| ServiceContext.ReportPatch | src/contexts/ServiceContext.tsx:218 | the update object of addMedicalReport: only the report; its effect is ReportEffect |
| ServiceContext.StatusEffect | src/contexts/ServiceContext.tsx:187-193 | any target status is applied; the completion date is set exactly when the target is completed and kept otherwise |
| ServiceContext.ReportEffect | src/contexts/ServiceContext.tsx:209-219 | a new report replaces any earlier one and nothing else changes but the update time |
| ServiceContext.AddVitalSignsEffect | src/contexts/ServiceContext.tsx:195-207 | the first service with the id gets its earlier readings, in order and with an absent list counted as empty, followed by the new reading |
| ServiceContext.CountStatus | src/contexts/ServiceContext.tsx:225-229 | a status count is at most the number of services |
| ServiceContext.StatusCountsSum | src/contexts/ServiceContext.tsx:224-229 | the five status counts add up to the number of services |
| ServiceContext.CountStatusCons | src/contexts/ServiceContext.tsx:225-229 | a status count of a non-empty list is the first service's contribution plus the count of the rest |
| ServiceContext.DashboardStatsOf | src/contexts/ServiceContext.tsx:221-231 | total is the length, each count is at most the total, the counts sum to the total, and the empty list gives all zeros |
| ServiceContext.ServiceProvider.constructor | src/contexts/ServiceContext.tsx:58-62 | the store starts with no services, not loading and no error |
| ServiceContext.ServiceProvider.Dispatch | src/contexts/ServiceContext.tsx:125 | the new state is the reducer applied to the old state |
| ServiceContext.ServiceProvider.LoadServices | src/contexts/ServiceContext.tsx:127-131 | the mount effect replaces the list by the seed and changes nothing else |
| ServiceContext.ServiceProvider.CreateService | src/contexts/ServiceContext.tsx:133-164 | exactly one new service is appended; afterwards the store is not loading and has no error |
| ServiceContext.ServiceProvider.UpdateService | src/contexts/ServiceContext.tsx:166-177 | the list becomes the UPDATE_SERVICE map of the old one; afterwards not loading and no error |
| ServiceContext.ServiceProvider.AssignService | src/contexts/ServiceContext.tsx:179-185 | the list is updated with the assignment patch |
| ServiceContext.ServiceProvider.UpdateServiceStatus | src/contexts/ServiceContext.tsx:187-193 | the list is updated with the status patch built step by step |
| ServiceContext.ServiceProvider.AddVitalSigns | src/contexts/ServiceContext.tsx:195-207 | the list is updated with the old readings of the first matching service plus the new reading |
| ServiceContext.ServiceProvider.AddMedicalReport | src/contexts/ServiceContext.tsx:209-219 | the list is updated with the new report |
| ServiceContext.ServiceProvider.GetDashboardStats | src/contexts/ServiceContext.tsx:221-231 | the counts of the current list: total is its length and the five counts sum to it |
| ServiceContext.ServiceProvider.ClearError | src/contexts/ServiceContext.tsx:233-235 | only the error is cleared |
| AuthContext.Reduce | src/contexts/AuthContext.tsx:30-77 | the effect of each of the six actions; every action keeps a consistent session consistent and every action but LOGIN_START and CLEAR_ERROR makes it consistent |
| AuthContext.RunKeepsConsistent | src/contexts/AuthContext.tsx:30-77 | any sequence of actions from a consistent session leaves it consistent |
| AuthContext.InitialStateConsistent | src/contexts/AuthContext.tsx:79-84 | the initial state is consistent, and so is every state reached from it |
| AuthContext.FindByEmail | src/contexts/AuthContext.tsx:118 | the directory user found has exactly that e-mail address and is the first one with it; none exactly when no user has it |
| AuthContext.Authenticate | src/contexts/AuthContext.tsx:118-120 | credentials pass exactly when a directory user has that e-mail and the password is "password" |
| AuthContext.LoginScenario | src/contexts/AuthContext.tsx:118-127 | the coordinator's address with "password" signs in user "1" as coordinator; a wrong password fails |
| AuthContext.RoleOf | src/contexts/AuthContext.tsx:176-179 | the role is present exactly when a user is, and is that user's role |
| AuthContext.AuthProvider.constructor | src/contexts/AuthContext.tsx:79-89 | the session starts in the initial state over the stored entry |
| AuthContext.AuthProvider.Dispatch | src/contexts/AuthContext.tsx:89 | the new state is the reducer applied to the old state |
| AuthContext.AuthProvider.RestoreStoredUser | src/contexts/AuthContext.tsx:91-108 | the stored user, or nobody when reading fails, becomes the session, which is consistent afterwards |
| AuthContext.AuthProvider.Login | src/contexts/AuthContext.tsx:110-132 | true exactly when the credentials pass and storing succeeds; then the stored user is the session's user; otherwise storage is unchanged, nobody is signed in and the error says why |
| AuthContext.AuthProvider.Logout | src/contexts/AuthContext.tsx:134-141 | on success the entry is removed and the session reset; when removal throws nothing changes |
| AuthContext.AuthProvider.ForgotPassword | src/contexts/AuthContext.tsx:143-151 | true for every address, with no state change |
| AuthContext.AuthProvider.ClearError | src/contexts/AuthContext.tsx:153-155 | only the error is cleared |
| AuthContext.AuthProvider.Role | src/contexts/AuthContext.tsx:176-179 | a role is present exactly when a user is signed in, and it is that user's role |
| ServiceListScreen.Lower | src/screens/ServiceListScreen.tsx:39-41 | lowercasing keeps the length and maps each character on its own |
| ServiceListScreen.IncludesEmpty | src/screens/ServiceListScreen.tsx:37-43 | every text includes the empty term |
| ServiceListScreen.AssignedTo | src/screens/ServiceListScreen.tsx:32-34 | the role filter's predicate: the user is the doctor or the nurse, with no user matching a missing assignee |
| ServiceListScreen.MatchesSearch | src/screens/ServiceListScreen.tsx:38-42 | the search predicate: the lowercased term occurs in the lowercased name, address or notes |
| ServiceListScreen.EmptyTermMatchesAll | src/screens/ServiceListScreen.tsx:37-42 | the empty term matches every service |
| ServiceListScreen.Listed | src/screens/ServiceListScreen.tsx:31-51 | a service passes every predicate the current settings switch on |
| ServiceListScreen.FilterServices | src/screens/ServiceListScreen.tsx:28-54 | the list built filter by filter is exactly the services passing every active predicate, in their original order |
| ServiceListScreen.CoordinatorSeesAll | src/screens/ServiceListScreen.tsx:31-51 | a coordinator with no search and both filters on 'all' sees every service |
| ServiceListScreen.ListedGuarantees | src/screens/ServiceListScreen.tsx:31-51 | every listed service names a non-coordinator as doctor or nurse (with no user, lacks one of them), contains the search term, and has the chosen status and type |
| ServiceListScreen.ListedComplete | src/screens/ServiceListScreen.tsx:28-54 | every service passing the active predicates is listed |
| ServiceListScreen.ToggleStatus | src/screens/ServiceListScreen.tsx:93 | 'all' becomes 'requested' and anything else becomes 'all' |
| ServiceListScreen.ToggleType | src/screens/ServiceListScreen.tsx:102 | 'all' becomes 'basic-transport' and anything else becomes 'all' |
| ServiceListScreen.TogglesAlternate | src/screens/ServiceListScreen.tsx:91-107 | pressing a toggle twice from 'all' returns to 'all' |
| ServiceDetailScreen.CanUpdateStatus | src/screens/ServiceDetailScreen.tsx:126-128 | always for a coordinator, for a doctor exactly when named as the doctor, for a nurse exactly when named as the nurse, never with no user |
| ServiceDetailScreen.UpdaterSeesService | src/screens/ServiceDetailScreen.tsx:126-128 | whoever may change a service's status finds it in their unfiltered service list |
| ServiceDetailScreen.ListedDoesNotGrantUpdate | src/screens/ServiceDetailScreen.tsx:126-128 | a doctor named as a service's nurse sees it listed but may not change it |
| ServiceDetailScreen.StatusActions | src/screens/ServiceDetailScreen.tsx:241-273 | no button without permission or on a final status; otherwise one forward target and then cancel, each a lifecycle step, and every lifecycle successor offered |
| ServiceDetailScreen.UiTransition | src/screens/ServiceDetailScreen.tsx:241-273 | the lifecycle the buttons encode: one forward step per non-final status, and cancellation from any non-final status |
| ServiceDetailScreen.ForwardButton | src/screens/ServiceDetailScreen.tsx:243-266 | the forward button's target for requested, assigned and in progress, and none otherwise |
| ServiceDetailScreen.UiTransitionWalk | src/screens/ServiceDetailScreen.tsx:243-272 | the final statuses have no successor, nothing leads back to requested, and each other status has one forward successor besides cancel |
| ServiceDetailScreen.ButtonStatusChangeKeepsLifecycle | src/screens/ServiceDetailScreen.tsx:241-273 | a status change made through a button computed from the current service keeps its completion date present exactly when it is completed |
| ServiceDetailScreen.StoreAcceptsAnyTransition | src/contexts/ServiceContext.tsx:187-193 | the store moves a completed service back to assigned and keeps its completion date |
| ServiceDetailScreen.StaleButtonsBreakLifecycle | src/screens/ServiceDetailScreen.tsx:47-50 | buttons from the copy taken at open: after "Complete Service", the "Cancel Service" still shown yields a cancelled service with a completion date |
| ServiceDetailScreen.EntryButtons | src/screens/ServiceDetailScreen.tsx:276-292 | the report button is shown only to those who also get the vital-signs button, a coordinator gets neither, and after a report is added its button is gone |
| ServiceDetailScreen.ShowsAddVitalSigns | src/screens/ServiceDetailScreen.tsx:276-283 | "Add Vital Signs" is shown to a doctor or a nurse |
| ServiceDetailScreen.ShowsMedicalReport | src/screens/ServiceDetailScreen.tsx:285-292 | "Medical Report" is shown to a doctor while the service has no report |
| ServiceDetailScreen.StaleReportButton | src/screens/ServiceDetailScreen.tsx:47-50 | on the copy taken at open the report button stays after a report is added, though the current service no longer shows it, and a second report replaces the first |
| ServiceDetailScreen.BuildVitalSigns | src/screens/ServiceDetailScreen.tsx:61-81 | rejected exactly when heart rate and temperature are both empty; blood pressure only when both halves are filled; empty fields absent, others as entered; recorded by the current user |
| ServiceDetailScreen.VitalSignsRoundTrip | src/screens/ServiceDetailScreen.tsx:69-79 | an accepted form is recovered from its payload, except a half-filled blood pressure, which is dropped |
| ServiceDetailScreen.SecondaryReadingsAloneRejected | src/screens/ServiceDetailScreen.tsx:62-65 | blood pressure, oxygen saturation, blood sugar and notes alone are rejected |
| ServiceDetailScreen.BuildMedicalReport | src/screens/ServiceDetailScreen.tsx:100-110 | rejected exactly when the patient condition is empty; otherwise the form is recovered from the payload, the doctor is the current user and no medication list is given |
| ServiceDetailScreen.DetailViewOf | src/screens/ServiceDetailScreen.tsx:47-50 | the first service with the id is shown, and the loading view exactly when there is none |
| ServiceDetailScreen.DetailScreen.constructor | src/screens/ServiceDetailScreen.tsx:28-50 | both modals closed, both forms empty, and the shown service is the one found in the list at open |
| ServiceDetailScreen.DetailScreen.StatusButtons | src/screens/ServiceDetailScreen.tsx:241-273 | the status buttons on screen: none on the loading view, otherwise those of the copy taken at open |
| ServiceDetailScreen.DetailScreen.HandleStatusChange | src/screens/ServiceDetailScreen.tsx:52-59 | the store applies the chosen status, is left not loading and without error, and a success alert is raised |
| ServiceDetailScreen.DetailScreen.HandleAddVitalSigns | src/screens/ServiceDetailScreen.tsx:61-98 | a rejected form changes nothing and raises the rejection; an accepted one is added to the store, which is left not loading and without error, the modal closes and the form is cleared; the shown copy is never refreshed |
| ServiceDetailScreen.DetailScreen.HandleAddMedicalReport | src/screens/ServiceDetailScreen.tsx:100-124 | the same for the report form: a rejected form changes nothing; an accepted report is added, the store is left not loading and without error, the modal closes and the form is cleared; the shown copy is never refreshed |
| CreateServiceScreen.RequiresMedicalStaff | src/screens/CreateServiceScreen.tsx:60 | the staff selectors are shown exactly for the two types other than basic transport |
| CreateServiceScreen.BuildServiceData | src/screens/CreateServiceScreen.tsx:40-51 | nothing is built when name, phone or address is empty; otherwise the fields pass through, the coordinator is the current user, and an empty date, doctor or nurse becomes absent |
| CreateServiceScreen.BuildServiceDataRoundTrip | src/screens/CreateServiceScreen.tsx:46-51 | an accepted form is recovered from its payload |
| CreateServiceScreen.InitialFormRejected | src/screens/CreateServiceScreen.tsx:26-35 | the untouched form is of type basic transport, shows no staff selectors and is not accepted |
| CreateServiceScreen.CreateScreen.constructor | src/screens/CreateServiceScreen.tsx:26-35 | the form starts as basic transport with every text field empty |
| CreateServiceScreen.CreateScreen.SelectType | src/screens/CreateServiceScreen.tsx:81 | picking a type keeps the rest of the form |
| CreateServiceScreen.CreateScreen.HandleCreateService | src/screens/CreateServiceScreen.tsx:40-58 | a form missing a required field raises an alert and changes nothing; otherwise one service is appended, the store is left not loading and without error, and the screen navigates unless the store was loading at the last render |
| AppNavigator.Names | src/navigation/AppNavigator.tsx:107-114 | one route name per tab, in order |
| AppNavigator.GetTabScreens | src/navigation/AppNavigator.tsx:25-97 | Dashboard and Services first and Profile last; exactly five tabs for a coordinator, four for a doctor, three otherwise; no route name repeated |
| AppNavigator.RootView | src/navigation/AppNavigator.tsx:133-146 | nothing while loading, otherwise the signed-in stack exactly when authenticated and the sign-in stack otherwise |
| AppNavigator.AppStackIffSignedIn | src/navigation/AppNavigator.tsx:133-146 | on a consistent session the signed-in stack shows exactly when a user is present and nothing is loading |
| AppNavigator.StartupRouting | src/navigation/AppNavigator.tsx:136-143 | the app starts blank; restoring the session ends that, showing the signed-in stack exactly when a user was stored; signing out shows the sign-in stack |
| AppNavigator.LoginRouting | src/navigation/AppNavigator.tsx:136-143 | the root is blank while a login runs, then shows the signed-in stack on success and the sign-in stack on failure |

## Left out

- Device storage (AsyncStorage) is the `stored` field of `AuthProvider`, and a storage call that throws is a boolean parameter. The JSON encoding of the stored user is not modelled.
- Timers and async/await: every provider operation is one sequential step. Interleavings are not modelled, including the read of a stale service list across the await in addVitalSigns (src/contexts/ServiceContext.tsx:205).
- The catch branches of the service provider ('Failed to create service', 'Failed to update service') and of forgotPassword are not modelled: the only awaited call is a timer, which never rejects. The detail screen's error alerts for failed store calls are left out for the same reason.
- `generateId` (src/utils/constants.ts:85-87) uses randomness: ids are parameters, so their uniqueness is not modelled.
- `new Date()`, formatDate and formatDateShort: time is a natural-number parameter, and each operation reads one `now` for every timestamp it writes. Locale formatting is not modelled. The create form's `new Date(text)` is the parameter `parseDate`.
- parseInt and parseFloat of vital-sign text: a reading is kept as the entered text, and only its presence or absence is modelled (the temperature is a floating-point number).
- ServiceListScreen.Lower: `toLowerCase` is modelled on ASCII letters only.
- The mock services of the store's mount effect (src/contexts/ServiceContext.tsx:64-131) are `LoadServices`'s seed parameter.
- React hook mechanics are not modelled beyond one point. The `useState` initializer at src/screens/ServiceDetailScreen.tsx:47-50 runs once, when the screen opens, so the shown service is that copy (`DetailScreen.shown`) and no handler refreshes it. The button guarantees (`ButtonStatusChangeKeepsLifecycle`, `EntryButtons`) therefore hold only on a freshly opened screen. A screen kept open can cancel a completed service that keeps its completion date (`StaleButtonsBreakLifecycle`), and can replace a medical report (`StaleReportButton`). Re-renders themselves are not modelled.
- `ServicePatch` has no `updatedAt` key, because UPDATE_SERVICE always overwrites it. A required field cannot be patched to undefined.
- The screen handlers take the current user as a present `User`. These screens sit in the signed-in stack, where a user is present; `user?.id` on a missing user is not modelled.
- Presentation-only code is not part of this model: src/screens/DashboardScreen.tsx, src/screens/ReportsScreen.tsx, src/screens/ProfileScreen.tsx, src/screens/LoginScreen.tsx, src/screens/ForgotPasswordScreen.tsx, src/components/StatusBadge.tsx and App.tsx. The same goes for the detail screen's display of readings and reports, the tab icons' rendering and the unused doctor and nurse pickers of the create form.
