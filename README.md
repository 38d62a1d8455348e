# TimeVault in Dafny

A model of TimeVault, a React/TypeScript time-capsule app, together with proofs about it. A user writes a message, attaches photos and picks an unlock instant. The vault stays locked until that instant and can be opened afterwards.

The model covers these parts of the app:

- **Vault repository** (`services/backendService.ts`), module `BackendService`. A class holds the list stored under the vault key. The list is `None` while the key is absent.
  - A read seeds two example vaults when the key is absent.
  - Every read recomputes the lock flags against one clock reading and sorts the list by unlock instant with a stable sort.
  - A create converts each raw photo into a durable URL and then appends one record.
- **Lifecycle controller** (`hooks/useTimeVaults.ts`), module `UseTimeVaults`. A class holds the state `{vaults, isLoading, error}` and the operations `loadVaults` and `addVault`.
  - Each operation is split at its awaited call. The settled value of the call is a parameter.
  - Two composite methods let the controller run against the repository itself.
- **Vault card** (`components/VaultCard.tsx`), module `VaultCard`.
  - The countdown decomposition: days, hours, minutes, seconds.
  - The timer effect, which stops at zero.
  - The choice between a locked card and an open card.
- **Mock user database** (`contexts/AuthContext.tsx`), module `AuthContext`. A class holds the user list, the pending sign-up slot and the session user, with the operations login, sign-up, phone verification, logout and profile-photo update.
- **Form and view rules**:
  - `CreateVaultForm`: the media list, the suggestion guard and the submit guard.
  - `Dashboard`: the locked/unlocked partition, the empty state, card selection and the sequencing after a create.
  - `VerifyPhoneForm`: the phone mask.
  - `AuthPage`: the four-form navigation.

Modelling choices:

- Timestamps are integer milliseconds.
- The clock, generated ids and the file-to-URL conversion are parameters.
  - The conversion is a function `FileRef -> Option<string>`, where `None` means it failed.
- Browser storage becomes fields of the classes.
- Latency timers are dropped, and each operation runs synchronously.
- An operation that completes gives `Some`, `Ok` or `Resolved`. `None`, `Err` or `Rejected` stands for one of three things, and each member's comment says which:
  - In the controller, the dashboard and the auth provider, it is a rejected promise.
  - In `CreateTimeVault` and `AddVaultVia`, it is a create whose promise never settles.
  - In `MaskedPhone`, it is the `RangeError` thrown by `repeat`.

### Behaviour of the code worth knowing

The model follows the code in each case below.

- **Reseeding.** The comment at `services/backendService.ts:11` speaks of creating the example vaults "if none exist". The code reseeds only when the key is *absent*, because it tests the stored string for truthiness. A stored empty list `[]` is kept, and stays empty.
- **Conversion failure.** `createTimeVault` awaits the conversions inside an `async` promise executor (`services/backendService.ts:64-73`). A failed conversion is therefore swallowed, and the returned promise never settles.
  - The store is still never written, so a create is all-or-nothing.
  - The model returns `None` and leaves the store unchanged.
- **Create validation.** `createTimeVault` does not check the title; only the form's `required` attribute does. The model does not check it either.
- **Failed suggestion.** A failed suggestion yields the fixed fallback sentence (`services/geminiService.ts:47`), not an empty text.
- **Stored records.** The whole stored list is parsed at once (`services/backendService.ts:9`). A record that does not parse is not skipped.

## Model

| member | source | states |
|---|---|---|
| BackendService.SeedVaults | services/backendService.ts:12-30 | the seed is two durable vaults whose lock flags agree with the lock rule at `now` |
| BackendService.StoredOrSeed | services/backendService.ts:6-32 | a present key yields the stored list, even an empty one; an absent key yields the two-vault seed; a durable store reads as durable |
| BackendService.VaultRepository.constructor | services/backendService.ts:3 | the repository starts from the given stored list, or from an absent key |
| BackendService.SeedVaultsAreTheTwoExamples | services/backendService.ts:12-30 | the seed is exactly two durable vaults: `vault-1` unlocking 365 days after `now` (locked), `vault-2` 10 days before it (unlocked) |
| BackendService.SeedingHappensOnce | services/backendService.ts:6-10 | once the seed has been written, later reads return the stored list whatever the clock says; a present key is never reseeded |
| BackendService.Relocked | services/backendService.ts:45-48 | the lock flag becomes `unlockDate > now`; every other field is unchanged |
| BackendService.Relock | services/backendService.ts:45-48 | the same length, and each record relocked against the one shared `now` |
| BackendService.InsertByUnlock | services/backendService.ts:49 | inserting adds exactly the new record to the multiset and the membership |
| BackendService.InsertKeepsSorted | services/backendService.ts:49 | inserting into a list sorted by unlock instant keeps it sorted |
| BackendService.SortByUnlock | services/backendService.ts:49 | the result is a permutation (multiset equality) of the input and is sorted non-decreasing by unlock instant |
| BackendService.FetchView | services/backendService.ts:42-49 | a read is a permutation of the relocked records, sorted by unlock instant, and every flag equals `unlockDate > now` (so a vault exactly at `now` is unlocked) |
| BackendService.InsertIsStable | services/backendService.ts:49 | insertion puts the new record before the existing records that have its unlock instant |
| BackendService.SortIsStable | services/backendService.ts:49 | records with equal unlock instants keep their stored order (stable sort) |
| BackendService.InsertCommutesWithRelock | services/backendService.ts:45-49 | inserting, then relocking, equals relocking, then inserting |
| BackendService.SortCommutesWithRelock | services/backendService.ts:45-49 | sorting ignores lock flags: relocking before or after the sort gives the same list |
| BackendService.FetchPositionsIgnoreClock | services/backendService.ts:43-49 | two reads of the same records at different clock readings agree position by position, up to the lock flags |
| BackendService.UnlockIsPermanent | services/backendService.ts:47 | a record reported unlocked at `now` is reported unlocked, at the same position, at every later reading |
| BackendService.FetchIsStable | services/backendService.ts:45-49 | in a read, records with equal unlock instants appear in stored order |
| BackendService.Materialised | services/backendService.ts:66-71 | an item with a file gets the converted URL and loses the file; an item without one is unchanged |
| BackendService.MaterialiseMedia | services/backendService.ts:65-73 | fails exactly when some conversion fails; otherwise same length and order, each item converted, and no raw file left |
| BackendService.NewVault | services/backendService.ts:75-80 | the new record copies title, description and unlock instant, uses the converted media and the given id, and is locked iff `unlockDate > now` |
| BackendService.RelockAppend | services/backendService.ts:45-48 | relocking a list with one record appended relocks that record after the rest |
| BackendService.CreatedVaultIsListed | services/backendService.ts:82-86 | after an append, a read lists exactly one more record, the new one relocked, and everything it listed before |
| BackendService.VaultRepository.SaveMockVaults | services/backendService.ts:35-37 | the key then holds exactly the given list |
| BackendService.VaultRepository.GetMockVaults | services/backendService.ts:5-33 | returns the stored list, or the seed when the key is absent, and leaves exactly that list stored |
| BackendService.VaultRepository.FetchTimeVaults | services/backendService.ts:39-52 | returns the read view of the stored (or seeded) records at `now` and keeps the store durable |
| BackendService.VaultRepository.CreateTimeVault | services/backendService.ts:63-89 | when a conversion fails nothing is written; otherwise exactly one new record is appended after all previous ones, and that record is returned |
| UseTimeVaults.VaultController.Mount | hooks/useTimeVaults.ts:6-26 | the hook as mounted: the initial state, then the load its effect starts; the list is the repository's read at `now`, with no error and not loading |
| UseTimeVaults.VaultController.constructor | hooks/useTimeVaults.ts:6-8 | the initial state is an empty list, loading, and no error |
| UseTimeVaults.VaultController.BeginLoad | hooks/useTimeVaults.ts:12-13 | a load starts by setting loading and clearing the error, keeping the list |
| UseTimeVaults.VaultController.FinishLoad | hooks/useTimeVaults.ts:14-21 | a resolved fetch replaces the list; a rejected one keeps it and sets the load error; loading ends in both cases |
| UseTimeVaults.VaultController.LoadVaults | hooks/useTimeVaults.ts:10-22 | on success, the list is the fetched one and there is no error; on failure, the old list with the load error; never loading afterwards |
| UseTimeVaults.VaultController.AddVault | hooks/useTimeVaults.ts:28-39 | a failed create sets the create error, keeps the list and rethrows; a successful one reloads and returns the created vault |
| UseTimeVaults.VaultController.LoadFrom | hooks/useTimeVaults.ts:10-22 | loading from the repository sets the list to the repository's sorted, relocked read at `now` |
| UseTimeVaults.VaultController.AddVaultVia | hooks/useTimeVaults.ts:28-39 | create then reload against the repository: a failed conversion changes nothing; otherwise the store is the previous list plus exactly the returned vault, and the list is the full sorted read of that store at the reload time, which contains the new vault |
| VaultCard.CalculateTimeLeft | components/VaultCard.tsx:12-30 | all zero when the difference is at most 0; hours below 24, minutes and seconds below 60, days non-negative |
| VaultCard.Reconstruction | components/VaultCard.tsx:22-27 | days·86400 + hours·3600 + minutes·60 + seconds equals the whole seconds left, or 0 once expired |
| VaultCard.OneDayOneHourOneMinuteFiveSeconds | components/VaultCard.tsx:22-27 | 90065000 ms decompose to 1 day, 1 hour, 1 minute and 5 seconds |
| VaultCard.CountdownNeverGrows | components/VaultCard.tsx:12-30 | the seconds left never increase as the clock advances |
| VaultCard.Displayed | components/VaultCard.tsx:61 | a displayed value is never negative and equals the value when that is non-negative |
| VaultCard.DisplayedCells | components/VaultCard.tsx:50-55 | four cells in the order Days, Hours, Mins, Secs |
| VaultCard.CountdownIsShownAsComputed | components/VaultCard.tsx:50-61 | every computed countdown is displayed unchanged: the clamp never alters a value |
| VaultCard.Countdown.constructor | components/VaultCard.tsx:32 | the state starts as the time left at the first render |
| VaultCard.Countdown.RunEffect | components/VaultCard.tsx:34-48 | a timer is scheduled exactly when the difference is positive; otherwise the state is zeroed and nothing is scheduled |
| VaultCard.Countdown.TimerFires | components/VaultCard.tsx:42-44 | a tick sets the state to the time left at the tick |
| VaultCard.ExpiredCountdownStaysStopped | components/VaultCard.tsx:35-40 | once expired, every later effect finds it expired and the state stays zero |
| VaultCard.RenderCard | components/VaultCard.tsx:70-110 | a locked vault renders a non-selectable countdown card; only an unlocked one is selectable, with the first photo as cover |
| AuthContext.ToLower | contexts/AuthContext.tsx:61 | same length, each character lower-cased, no capital left |
| AuthContext.SameEmailIgnoresCase | contexts/AuthContext.tsx:61 | an address and its lower-case form are the same account |
| AuthContext.ClientUser | contexts/AuthContext.tsx:52-55 | the client user keeps every field except the password |
| AuthContext.FindCredentials | contexts/AuthContext.tsx:61 | the index of the first user whose email matches ignoring case and whose password matches exactly, or none if no user matches |
| AuthContext.LoginOutcome | contexts/AuthContext.tsx:61-74 | a login settles as success with a verified user, as 'Invalid email or password.', or as 'Account not verified…' (only when a matching user is unverified) |
| AuthContext.LoginAcceptsOnlyVerifiedCredentials | contexts/AuthContext.tsx:57-77 | a login succeeds only for a matching, verified user, and yields that user without the password |
| AuthContext.LoginRejectsUnknownCredentials | contexts/AuthContext.tsx:61-74 | login rejects with 'Invalid email or password.' exactly when no user matches |
| AuthContext.LoginUsesFirstMatch | contexts/AuthContext.tsx:61-71 | the first matching user decides: succeeds when verified, 'Account not verified…' otherwise |
| AuthContext.EmailTaken | contexts/AuthContext.tsx:83 | the scan finds a taken email exactly when some user's email equals it ignoring case |
| AuthContext.NewUser | contexts/AuthContext.tsx:115-122 | the new user has the pending details, is verified, and has no photo |
| AuthContext.NewAccountCanLogIn | contexts/AuthContext.tsx:79-134 | after a sign-up that passed the duplicate check and a verification, the same email and password log in as the new user |
| AuthContext.FindById | contexts/AuthContext.tsx:151 | the index of the first user with the id, or none if no user has it |
| AuthContext.AuthProvider.constructor | contexts/AuthContext.tsx:35-50 | the provider starts from the stored users, the pending slot and the restored session user |
| AuthContext.AuthProvider.Login | contexts/AuthContext.tsx:57-77 | the session user is set exactly when the login outcome is success; otherwise it rejects with that outcome's message and changes nothing |
| AuthContext.AuthProvider.Signup | contexts/AuthContext.tsx:79-96 | a taken email (ignoring case) is rejected; otherwise the details are parked with code "123456"; the user list never changes |
| AuthContext.AuthProvider.VerifyPhoneAndLogin | contexts/AuthContext.tsx:98-134 | no pending sign-up, or a wrong code, is rejected and changes nothing; otherwise exactly one verified user is appended, logged in, and the pending slot cleared |
| AuthContext.AuthProvider.Logout | contexts/AuthContext.tsx:136-139 | no session user remains, so the provider is not authenticated |
| AuthContext.AuthProvider.UpdateProfilePhoto | contexts/AuthContext.tsx:141-162 | rejected without a session user; otherwise only the photo of the session user and of the first stored user with its id changes |
| CreateVaultForm.NewMediaItems | components/CreateVaultForm.tsx:33-38 | one image item per file, in order, each with its id, preview URL and file |
| CreateVaultForm.AddFiles | components/CreateVaultForm.tsx:31-41 | the new items follow the existing ones, which stay as they were; no file list changes nothing |
| CreateVaultForm.RemoveMedia | components/CreateVaultForm.tsx:43-45 | exactly the items without the id remain |
| CreateVaultForm.RemoveMediaKeepsTheRest | components/CreateVaultForm.tsx:43-45 | the removal drops exactly the items with the id (the multisets of kept and dropped items add up to the list's), keeps the rest in order, and an id that no item has changes nothing |
| CreateVaultForm.RemoveUndoesAdd | components/CreateVaultForm.tsx:31-45 | removing a photo just added under a new id restores the list |
| CreateVaultForm.Suggestion | services/geminiService.ts:44-47 | the description becomes the service's text, or the fixed fallback sentence |
| CreateVaultForm.VaultForm.constructor | components/CreateVaultForm.tsx:12-17 | the form starts empty, neither generating nor submitting |
| CreateVaultForm.VaultForm.HandleFileChange | components/CreateVaultForm.tsx:31-41 | only the media list changes, by appending the selected files |
| CreateVaultForm.VaultForm.RemoveMediaItem | components/CreateVaultForm.tsx:43-45 | only the media list changes, by removing the id |
| CreateVaultForm.VaultForm.HandleGenerateDescription | components/CreateVaultForm.tsx:20-29 | refused without a title and without media, changing nothing; otherwise the description is replaced and generating ends |
| CreateVaultForm.VaultForm.HandleSubmit | components/CreateVaultForm.tsx:66-79 | without an unlock date nothing is submitted and nothing changes; otherwise the title, description and media are submitted unchanged, and the form is submitting |
| CreateVaultForm.VaultForm.FinishSubmit | components/CreateVaultForm.tsx:79-81 | after `onCreate` resolves, submitting ends |
| Dashboard.LockedVaults | components/Dashboard.tsx:22 | exactly the locked vaults of the list |
| Dashboard.UnlockedVaults | components/Dashboard.tsx:23 | exactly the unlocked vaults of the list |
| Dashboard.SectionsPartitionTheList | components/Dashboard.tsx:22-23 | the sizes add up to the list's, the multisets add up to the list's, and each section is an order-preserving subsequence |
| Dashboard.SectionsFollowTheLockRule | components/Dashboard.tsx:22-23 | on a repository read at `now`, the locked section holds exactly the vaults with `unlockDate > now` |
| Dashboard.EmptyStateExcludesSections | components/Dashboard.tsx:44-62 | the empty-state message shows exactly when loading has finished and both sections are empty |
| Dashboard.DashboardState.constructor | components/Dashboard.tsx:11-14 | not creating, nothing selected, no notification |
| Dashboard.DashboardState.ClickCard | components/Dashboard.tsx:55-67 | a click selects the vault only if its card is open; a click on a locked card changes nothing |
| Dashboard.DashboardState.HandleCreateVault | components/Dashboard.tsx:16-20 | the notice is set and the form closed only when `addVault` returns; when it throws, this state is unchanged; the controller ends as `addVault` leaves it (create error on a failed create; the reloaded list, or the load error, on success) |
| VerifyPhoneForm.Repeat | components/VerifyPhoneForm.tsx:30 | `n` copies of the character |
| VerifyPhoneForm.MaskedPhone | components/VerifyPhoneForm.tsx:30 | empty for an empty number; an error for 1 to 3 characters; otherwise '+', then n−4 stars, then the last four characters (length n+1) |
| VerifyPhoneForm.MaskHidesAllButLastFour | components/VerifyPhoneForm.tsx:30 | numbers with the same length and the same last four characters mask alike |
| AuthPage.Step | components/AuthPage.tsx:18-30 | a callback takes effect exactly when the shown form offers it; from login only signup or forgot-password; every switch-to-login goes to login; switch-to-signup goes to signup and switch-to-forgot-password to forgot-password, keeping the pending details; switch-to-verify records the details |
| AuthPage.ReachableStatesAreWellFormed | components/AuthPage.tsx:10-30 | in every reachable state the verification form has pending details, so it gets the recorded phone |
| AuthPage.AuthPageState.constructor | components/AuthPage.tsx:10-11 | the page starts on login with no pending details |
| AuthPage.AuthPageState.Navigate | components/AuthPage.tsx:18-30 | the page moves as `Step` says, and a callback the form does not offer changes nothing |
| AuthPage.AuthPageState.SwitchToVerifyForm | components/AuthPage.tsx:13-16 | records the email and phone, and shows the verification form with that phone |

## Left out

- Browser storage and JSON. `localStorage` and `sessionStorage` become class fields, and the serialisation of records and of dates is not modelled.
- The latency timers of the services and the auth calls are not modelled; the operations are synchronous.
- `fileToDataUrl` and `FileReader` are foreign APIs. They become the `materialise` parameter.
- The suggestion service is a network call. Only its result and its fixed fallback text are modelled, so the request itself is not part of this model.
- Ids from `Date.now()` and `Math.random()` are parameters. Their uniqueness is neither assumed nor proved.
- Emails are not unique in the user list, and the model does not claim they are: verification appends without checking the list again.
- Clock readings are parameters.
  - A read uses one reading for the seed and for the lock flags. The source takes two readings a moment apart.
  - A create uses one reading for the lock flag and for the seed it may write.
- `AuthContext.ToLower` lower-cases ASCII letters only. `toLowerCase` also folds other Unicode letters; no case folding beyond ASCII is modelled.
- The countdown uses integer division. The source divides floats and floors the result, which gives the same values for integer milliseconds.
- The two-digit `padStart` formatting of the countdown cells is presentation and is not modelled.
- `forgotPassword` changes no state and only logs, so it is not modelled.
- The activity tracker, the notification toast and the drag-and-drop handlers are not part of this model; their behaviour is timing and presentation.
- Presentation components are not part of this model: App, Header, VaultDetailModal, NotificationSimulationModal, and the settings, login, sign-up and forgot-password forms.
  - The sign-up form's one rule, that the password equals its confirmation, is enforced before `signup` is called and is not modelled.
- The verification form's own error display is not modelled.
- `AuthPage` has a `default` branch for an unknown form value. `AuthForm` has exactly four values, so that branch cannot arise in the model.
- Overlapping loads and creates are not modelled. The code does not coordinate them.
- Session restore is modelled through the constructor's `session` parameter; parsing the stored text is not modelled.
- UseTimeVaults.VaultController.AddVaultVia: a failed conversion is modelled as "nothing changes and nothing is returned". The source's promise never settles in that case, so there is no rejection to model.
