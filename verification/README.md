# Ledger app core, modelled in Dafny

A verified model of the client-side logic of a small ledger web application.
Users sign up and sign in. They keep named ledgers of credit and debit
transactions. A managed backend supplies persistence, authentication and
live query feeds. The model covers the application's own logic:

- the two live-subscription stores (ledgers; transactions of one ledger) and
  the backend feed they subscribe to (`feed.dfy`, `ledger_store.dfy`,
  `transaction_store.dfy`);
- the auth session store, its listener guard, and the protected-route gate
  (`auth_store.dfy`, `protected_route.dfy`);
- sign-up and sign-in: validation, error messages, the order of backend
  calls and the result shaping (`auth_service.dfy`, with the JavaScript string
  semantics in `text.dfy`);
- the sign-up page's form (`signup_page.dfy`);
- the dashboard's per-ledger totals and the ledger page's running balance,
  with the effects that start and stop the feeds (`dashboard.dfy`,
  `ledger_detail.dfy`).

Every store, page and service step is a pure function from state to state.
The backend is abstract:

- A subscription returns a fresh handle.
- Cancelling a handle unregisters it.
- A snapshot callback fires only while its handle is registered. The stores
  themselves never compare handles, so they rely on this rule.
- Every other backend answer (account creation, sign-in, profile writes,
  sign-out, one-time transaction fetches) is a parameter. The services
  return the list of backend calls they made alongside their result.

Conventions:

- JavaScript's falsy `null`, `undefined` and `''` for ids and emails are all
  the empty string.
- `.length` is counted in UTF-16 code units (`Text.Utf16Length`).
- Amounts are exact `real`s.

Three facts about the stores that the model keeps as the code has them:

- A restart does not empty the held list. Old items stay until the new
  feed's first snapshot (`LedgerStore.StartListening`).
- `stopListening` never resets `loading`.
- Neither store records feed errors. Their `onSnapshot` calls pass no error
  callback, so the ledger store's `error` field stays null.

The page effects always run the cleanup before re-starting a feed. So, seen
through the pages, a change of user or ledger still shows an empty list
(`Dashboard.UserChange`, `LedgerDetail.RouteChange`).

## Model

| member | source | states |
|---|---|---|
| `Feed.Subscribe` | src/libs/ledgerService.js:52-59 | a new feed gets a handle never issued before, registered for its scope |
| `Feed.Cancel` | src/libs/ledgerService.js:54-58 | cancelling unregisters exactly that handle and keeps the other listeners |
| `LedgerStore.StartListening` | src/store/ledgerStore.js:12-24 | an empty uid changes nothing; otherwise loading is set, the old feed is cancelled, and exactly one fresh feed for the uid is live and held; held ledgers are kept |
| `LedgerStore.Deliver` | src/store/ledgerStore.js:19-21 | a snapshot for an unregistered handle changes nothing; one that fires replaces the ledgers wholesale and clears loading, touching nothing else |
| `LedgerStore.StopListening` | src/store/ledgerStore.js:26-32 | with a handle: cancel it, null the handle, empty the list; without one: no change; loading and error are never touched |
| `LedgerStore.SnapshotOnlyFromHeldHandle` | src/store/ledgerStore.js:16-23 | a snapshot that fires comes from the handle the store holds |
| `LedgerStore.StepPreservesInv` | src/store/ledgerStore.js:6-32 | every action keeps "live listeners = held handle, error null, no handle means no ledgers" |
| `LedgerStore.AtMostOneLiveFeed` | src/store/ledgerStore.js:6-32 | after any sequence of starts, stops and snapshots, at most one feed is live, it is the held one, and error is still null |
| `LedgerStore.InitialInv` | src/store/ledgerStore.js:6-10 | the initial store satisfies the invariant, with error null and loading false |
| `LedgerStore.StopIdempotent` | src/store/ledgerStore.js:26-32 | stopping twice equals stopping once |
| `LedgerStore.StaleSnapshotIgnored` | src/store/ledgerStore.js:16-31 | after a stop or a restart, a snapshot from the old handle changes nothing |
| `LedgerStore.RestartKeepsOnlySecondFeed` | src/store/ledgerStore.js:15-23 | two starts leave one live feed, the second, scoped to the second uid |
| `TransactionStore.StartListening` | src/store/transactionStore.js:9-20 | an empty uid or ledger id changes nothing; otherwise loading is set, the old feed is cancelled, and exactly one fresh feed for the pair is live and held |
| `TransactionStore.Deliver` | src/store/transactionStore.js:15-17 | a snapshot fires only for a registered handle, replacing the transactions wholesale and clearing loading |
| `TransactionStore.StopListening` | src/store/transactionStore.js:22-26 | always empties the list and nulls the handle; cancels only an existing handle; loading unchanged |
| `TransactionStore.StepPreservesInv` | src/store/transactionStore.js:4-27 | every action keeps "live listeners = held handle, no handle means no transactions" |
| `TransactionStore.AtMostOneLiveFeed` | src/store/transactionStore.js:4-27 | after any sequence of events at most one feed is live, the held one |
| `TransactionStore.InitialInv` | src/store/transactionStore.js:4-7 | the initial store satisfies the invariant |
| `TransactionStore.StopIdempotent` | src/store/transactionStore.js:22-26 | stopping twice equals stopping once, with or without a feed |
| `TransactionStore.RestartKeepsOnlySecondFeed` | src/store/transactionStore.js:11-19 | two valid starts leave only the second pair's feed live, and a snapshot from the first is ignored |
| `TransactionStore.StaleSnapshotIgnored` | src/store/transactionStore.js:22-25 | after a stop, a snapshot from the cancelled feed changes nothing |
| `AuthStore.Initial` | src/store/authStore.js:6-9 | the session starts with no user, loading, no error, not initialised |
| `AuthStore.SetUser` | src/store/authStore.js:12-17 | records the user, clears loading and error, marks the session initialised |
| `AuthStore.SetLoading` | src/store/authStore.js:19 | changes loading only |
| `AuthStore.SetError` | src/store/authStore.js:21 | changes error only |
| `AuthStore.ClearError` | src/store/authStore.js:23 | nulls error only |
| `AuthStore.LogoutPending` | src/store/authStore.js:27 | while sign-out is awaited: loading, no error, user kept |
| `AuthStore.Logout` | src/store/authStore.js:25-38 | success: no user, no error, returns success; failure: user kept, error is the message, or "Failed to logout" when the message is empty, returns the raw message; loading ends false |
| `AuthStore.IsAuthenticated` | src/store/authStore.js:41-44 | authenticated iff initialised and a user is present |
| `AuthStore.GetUserId` | src/store/authStore.js:46-49 | the uid exactly when there is a user with a non-empty uid, else null |
| `AuthStore.GetUserEmail` | src/store/authStore.js:51-54 | the email exactly when there is a user with a non-empty email, else null |
| `AuthStore.UserQueriesRoundTrip` | src/store/authStore.js:12-54 | after `setUser(u)` the queries return u's uid and email (null when empty) and report authenticated; after a successful logout or at start they report nothing |
| `AuthStore.OnAuthStateChanged` | src/store/authStore.js:65-67 | the reported user (or null) is stored, loading and error cleared, the session initialised; authenticated iff a user was reported |
| `AuthStore.OnAuthError` | src/store/authStore.js:68-72 | the error callback ends with no user, not loading, initialised |
| `AuthStore.AuthErrorMessageIsLost` | src/store/authStore.js:68-72 | the auth-error callback ends with no user, no error, initialised: `setUser(null)` overwrites the message |
| `AuthStore.InitializedIsSticky` | src/store/authStore.js:11-38 | once initialised, no sequence of actions makes the session uninitialised |
| `AuthStore.InitializedOnlyBySetUser` | src/store/authStore.js:12-36 | actions other than `setUser` and the listener callbacks never initialise the session |
| `AuthStore.InitializeAuthListener` | src/store/authStore.js:60-74 | with a stored handle: no change; without: registers one listener and stores its handle |
| `AuthStore.ModuleLoadRegistersOne` | src/store/authStore.js:58-77 | nothing is registered before module load; the load-time `initializeAuthListener()` registers exactly one listener and stores its handle |
| `AuthStore.CleanupAuthListener` | src/store/authStore.js:80-84 | unregisters the stored listener, if any, and nulls the handle |
| `AuthStore.AtMostOneAuthListener` | src/store/authStore.js:58-84 | however often initialisation and cleanup are called, at most one auth listener is registered, the stored one |
| `ProtectedRoute.RedirectTarget` | src/components/ProtectedRoute.jsx:15 | `redirectTo` defaults to `/login` only when not passed |
| `ProtectedRoute.Gate` | src/components/ProtectedRoute.jsx:15-37 | spinner iff uninitialised or loading; redirect (replace, with the origin) iff initialised, idle, no user; children iff authenticated and idle |
| `ProtectedRoute.SpinnerIgnoresUser` | src/components/ProtectedRoute.jsx:20-22 | while uninitialised or loading, the spinner shows whatever the user |
| `ProtectedRoute.GateAlongSession` | src/components/ProtectedRoute.jsx:20-36 | spinner at start and during logout, children once signed in, redirect to `/login` after logout |
| `ProtectedRoute.FailedLogoutKeepsChildren` | src/components/ProtectedRoute.jsx:25-36 | a failed logout leaves an authenticated user on the page |
| `AuthService.GetErrorMessage` | src/libs/authService.js:10-23 | the shown message is never empty |
| `AuthService.ErrorMessagesDistinguishCodes` | src/libs/authService.js:10-23 | the message map is total: never empty, the fallback exactly for unknown codes, distinct texts for distinct known codes |
| `AuthService.ErrorText` | src/libs/authService.js:78-81 | a coded error yields the mapped text, an uncoded one its raw message |
| `AuthService.IndexOf` | src/libs/authService.js:27 | the first position of the character, or the length when absent |
| `AuthService.ValidateEmail` | src/libs/authService.js:26-29 | the email check, as a scan for the one `@` and an inner dot; its meaning is stated by the two rows below |
| `AuthService.ValidateEmailMatchesRegex` | src/libs/authService.js:26-29 | the email check accepts exactly the strings `^[^\s@]+@[^\s@]+\.[^\s@]+$` matches |
| `AuthService.ValidEmailShape` | src/libs/authService.js:26-29 | a valid email has no white space, exactly one `@` after a non-empty prefix, and a dot inside the domain |
| `AuthService.ValidatePassword` | src/libs/authService.js:32-34 | the password check: non-empty and at least six UTF-16 units; its meaning is stated by the row below |
| `AuthService.PasswordRule` | src/libs/authService.js:32-34 | the password rule is a length of at least six UTF-16 units; six characters always pass, fewer than three never |
| `AuthService.NormalizeDisplayName` | src/libs/authService.js:52-62 | the stored name is null exactly for blank input, else the trimmed (and trim-stable) name |
| `AuthService.ProfileSteps` | src/libs/authService.js:51-82 | after creation, the name update is the first call iff a name is given; a failed name update stops there with its shaped error; otherwise the profile is written, and a failed write returns its shaped error; success iff both succeed, with the profile write last |
| `AuthService.Signup` | src/libs/authService.js:37-83 | bad email, then short password, each fail with no backend call; creation is the first call; a failed creation returns its shaped error after that one call; the name update follows iff the normalised name is present; success iff every call succeeds; the user and stored profile carry the normalised name |
| `AuthService.SignupFailureAfterCreation` | src/libs/authService.js:48-82 | a failed profile write returns an error although the account was created |
| `AuthService.Login` | src/libs/authService.js:86-130 | bad email, then empty password, fail with no backend call; success iff sign-in succeeds, returning the backend's user; a sign-in error is shaped by the message map |
| `AuthService.LoginIgnoresLastLogin` | src/libs/authService.js:100-113 | the last-login bookkeeping never changes the login result |
| `AuthService.LoginHasNoLengthRule` | src/libs/authService.js:89-95 | a one-character password reaches sign-in, while sign-up refuses it |
| `Text.TrimStart` | src/libs/authService.js:52 | removes exactly the leading white space |
| `Text.TrimEnd` | src/libs/authService.js:52 | removes exactly the trailing white space |
| `Text.TrimShape` | src/libs/authService.js:52-54 | the trimmed name is an infix with no white space at either end, cut out of white space only |
| `Text.TrimEmptyIffAllSpace` | src/libs/authService.js:52 | trimming leaves nothing iff the input is all white space |
| `Text.TrimIdempotent` | src/libs/authService.js:54 | trimming twice equals trimming once |
| `Text.Utf16Length` | src/libs/authService.js:33 | the reported length lies between the character count and twice it, and is zero only for the empty string |
| `Text.AsciiLower` | src/libs/authService.js:61 | lower-cases exactly the ASCII capitals, position by position |
| `SignupPage.InitialPage` | src/pages/Signup.jsx:10-17 | the page starts with empty fields, no error banner and not busy, so submitting at once reports the missing fields |
| `SignupPage.HandleInputChange` | src/pages/Signup.jsx:26-30 | sets only the named field and hides the error |
| `SignupPage.ValidateForm` | src/pages/Signup.jsx:32-46 | passes iff email and password are non-empty, match the confirmation, and have length at least 6; missing fields reported first, mismatch before length |
| `SignupPage.ValidateFormIgnoresNameAndEmailFormat` | src/pages/Signup.jsx:32-46 | the checks ignore the display name and the email's format |
| `SignupPage.MismatchReportedBeforeLength` | src/pages/Signup.jsx:37-44 | a short mismatched password reports the mismatch |
| `SignupPage.HandleSignup` | src/pages/Signup.jsx:48-73 | a failed check shows its message and calls nothing; otherwise the service runs on the form, success navigates, failure shows its error, loading ends false |
| `SignupPage.SubmittedPasswordPassesServiceRule` | src/pages/Signup.jsx:41-61 | a form that passes the page's checks passes the service's password rule, so the service reaches the backend or refuses the email |
| `Dashboard.Aggregate` | src/pages/Dashboard.jsx:36-46 | the per-ledger totals; the balance is credit minus debit (the rows below state the totals) |
| `Dashboard.FilteredFoldIsKindTotal` | src/pages/Dashboard.jsx:36-41 | filter-then-reduce sums the amounts of exactly the given type |
| `Dashboard.AggregateIsTally` | src/pages/Dashboard.jsx:36-46 | the totals are the sum of per-transaction contributions (credit adds to credit, debit to debit, others to nothing), and balance is credit minus debit |
| `Dashboard.AggregateConcat` | src/pages/Dashboard.jsx:36-46 | the totals of two concatenated lists are the sums of their totals |
| `Dashboard.OtherKindIgnored` | src/pages/Dashboard.jsx:37-40 | a transaction of any other type changes no total |
| `Dashboard.EmptyIsZero` | src/pages/Dashboard.jsx:36-46 | no transactions give zero totals |
| `Dashboard.TotalsNonNegative` | src/pages/Dashboard.jsx:36-41 | with positive amounts, neither credit nor debit is negative |
| `Dashboard.WorkedExample` | src/pages/Dashboard.jsx:36-46 | a credit of 100 and a debit of 40 give 100, 40 and 60 |
| `Dashboard.FetchStats` | src/pages/Dashboard.jsx:32-49 | produces totals iff every ledger's fetch succeeds; then one entry per ledger id, holding the totals of that ledger's fetched transactions |
| `Dashboard.RefreshStats` | src/pages/Dashboard.jsx:29-52 | with no user, no ledgers, or any rejected fetch the previous totals stay; otherwise they are replaced by the fresh totals of every ledger |
| `Dashboard.Displayed` | src/pages/Dashboard.jsx:114 | a ledger without an entry shows the totals of an empty list |
| `Dashboard.ListenerEffect` | src/pages/Dashboard.jsx:22-24 | with a user the ledger feed for that uid is live; without one no feed is live |
| `Dashboard.ListenerCleanup` | src/pages/Dashboard.jsx:25 | the cleanup leaves no live ledger feed |
| `Dashboard.UserChange` | src/pages/Dashboard.jsx:22-26 | after a user change exactly the new user's feed is live and no old ledgers are held |
| `LedgerDetail.RunningBalance` | src/pages/LedgerDetail.jsx:24-26 | the reduce from 0 over the held transactions; its meaning is stated by the rows below |
| `LedgerDetail.RunningBalanceIsSignedSum` | src/pages/LedgerDetail.jsx:24-26 | the running balance adds credits and subtracts every other amount from 0; an empty list gives 0 |
| `LedgerDetail.RunningBalanceOrderIndependent` | src/pages/LedgerDetail.jsx:24-26 | reordering the transactions does not change the running balance |
| `LedgerDetail.RunningBalanceMatchesDashboard` | src/pages/LedgerDetail.jsx:24-26 | with only credit and debit types, the running balance equals the dashboard's credit minus debit |
| `LedgerDetail.OtherKindDisagrees` | src/pages/LedgerDetail.jsx:24-26 | with another type the two pages disagree: it is subtracted here and ignored on the dashboard |
| `LedgerDetail.ListenerEffect` | src/pages/LedgerDetail.jsx:19-20 | starts the feed for (uid, ledger id) only when both a user and a ledger id are present |
| `LedgerDetail.ListenerCleanup` | src/pages/LedgerDetail.jsx:21 | the cleanup always stops: no transactions, no handle, no live feed |
| `LedgerDetail.RouteChange` | src/pages/LedgerDetail.jsx:19-22 | after a change of user or ledger id only the new pair's feed, if any, is live, and no old transactions are held |

## Left out

- Backend calls (`onSnapshot`, `getDocs`, `addDoc`, `updateDoc`, `deleteDoc`, `createUserWithEmailAndPassword`, `signInWithEmailAndPassword`, `updateProfile`, `setDoc`, `getDoc`, `signOut`): abstract feeds or outcome parameters. The CRUD wrappers in src/libs/ledgerService.js and src/libs/transactionService.js add nothing beyond payload shaping. The non-cascading ledger delete is a remote effect.
- Feed ordering (newest first by creation time or date): the items a snapshot delivers are arbitrary.
- Server timestamps in the profile document and the last-login merge.
- `getUserProfile` (src/libs/authService.js:132-144): not part of this model.
- `Text.AsciiLower`: lower-cases only ASCII capitals, where `toLowerCase` uses the full Unicode case mapping. So `AuthService.Signup`'s stored email is weaker than the source for non-ASCII capitals.
- `AuthService.GetErrorMessage`: looks the code up in a finite map. In JavaScript, a code naming an `Object.prototype` member (such as `constructor`) would yield an inherited function. Backend codes never take such values.
- `AuthService.Signup`: the `displayName = ''` default is not modelled, because the page always passes a string.
- `SignupPage.HandleSignup`: the `catch` branch (src/pages/Signup.jsx:68-69) is not modelled, because `signup` catches every error and never throws.
- The redirect-when-signed-in effect of the sign-up page (src/pages/Signup.jsx:20-24), navigation itself, and all rendering.
- Auth store `error` values other than strings, and `error.message` being undefined: messages are strings, and the empty string stands for a missing one.
- yup form schemas: only the type enum and positive amount appear, as `Records.WellFormedTransaction`.
- `Number` coercion, floating-point rounding and `toFixed(2)`: amounts are exact reals.
- Date and timestamp conversions for display and forms.
- Async interleaving: the sequential awaits in `fetchStats`, and races between React effects. `Dashboard.FetchStats` sees one fixed fetch outcome per ledger.
- The unhandled rejection that a failed fetch leaves behind in `fetchStats` (no `catch`): only its effect, that the totals are not replaced, is modelled.
- Pure UI: the home page, the app shell and routes, the ledger page, the transaction list component (which duplicates an inline listener), and the `useAutoLedgerListener` hook (it only returns store functions).
- Browser side effects: `alert`, `confirm`, `console`.
