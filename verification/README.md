# Helios session and cycle-state core, modelled in Dafny

This project models the decision logic inside the client of the Helios employee-scheduling
application. That logic sits in the auth provider, the new-cycle form and the panel router.
All Firebase calls are replaced by their results, passed in as inputs or events. What is left
is written as pure functions and small state machines over immutable datatypes:

- `CycleState` (cycle_state.dfy): the shared `statesApp/cycleState` record `{state, date1, date2}`
  and its initial value. It also holds the three switchers of `handleSetAppState`
  (`newCycle`, `blockCycle`, `endCycle`), which build a full replacement record from the week
  argument and the cached copy, and the snapshot listener that replaces the cache.
- `Session` (session.dfy): role classification of the `users/<uid>` role field, and the flags
  `(currentUser, authAdmin, authUser)`. The flags change on four events: an identity is seen,
  a role is resolved, the identity goes away, or a log-out succeeds.
- `Provider` (provider.dfy): one client together with the shared document. It covers the gating
  effect that opens the snapshot listener while `authAdmin || authUser` holds, the cache kept by
  pushes, and switcher calls and writes from other clients.
- `Registration` (registration.dfy): `createUser`. This is the alias check over the query result
  (including its last-document-wins loop), the identity created for the lower-cased e-mail,
  and the lower-cased `users` and `employees` documents.
- `NewCycleWindow` (new_cycle_window.dfy): the `is-bigger` and `is-7days` tests, with dates as
  integer day numbers, and the submit/confirm popup that hands the captured week to `newCycle`.
- `PanelsWrapper` (panels_wrapper.dfy): the routes pushed by the route effect, the location that
  results, and which role panel is rendered.
- `Text` (text.dfy) holds lower-casing; `Wrappers` (wrappers.dfy) holds `Option` and `Result`.

The model follows the code, including these behaviours a reader might not expect:

- A failed role lookup does not return the session to "unauthenticated" at once. It calls
  `logOut`. The flags are cleared only when that sign-out succeeds, and `currentUser` only when
  the identity watcher then reports no identity.
- The identity watcher reporting no identity clears `currentUser` but leaves both role flags as
  they were.
- A resolved role raises its own flag and never lowers the other one, so both can be raised.
  In that case the route effect pushes the admin route and then the user route, and the user
  route wins.
- No generation counter ties a role lookup to the identity that started it. `RoleResolved`
  therefore carries no identity, and a late answer applies to whatever session is current.
- A new cycle is accepted when the end date is six days after the start (seven days counting
  both ends). The record invariant `WellFormed` states that difference.
- Alias matching is "case-insensitive" only because both the stored alias and the queried alias
  are lower-cased. The loop itself compares exactly.
- An identity-provider refusal (`auth/email-already-in-use`, `auth/invalid-email`, anything else)
  is shown as an alert, and `createUser` still resolves. Only an alias conflict or a failed alias
  query makes it reject.

## Model

| member | source | states |
|---|---|---|
| Text.Lower | src/providers/AuthProvider/AuthProvider.js:48-50 | lower-casing keeps the length and maps every character independently, A-Z to a-z and everything else to itself |
| Text.LowerIsLowerAndIdempotent | src/providers/AuthProvider/AuthProvider.js:48-50 | lower-cased text has no upper-case letter left and is a fixed point of lower-casing |
| CycleState.Transition | src/providers/AuthProvider/AuthProvider.js:160-186 | `newCycle` writes an active record with exactly the week's dates; `blockCycle`/`endCycle` write the cache with only the state changed (blocked / nonActive); any other switcher writes nothing; `newCycle` without a week fails before writing |
| CycleState.SetAppState | src/providers/AuthProvider/AuthProvider.js:156-186 | the shared document changes only by a full overwrite with the switcher's record and only when the store accepts it; unknown switchers neither write nor reject; a refused write rejects |
| CycleState.OnPush | src/providers/AuthProvider/AuthProvider.js:201-203 | the cache becomes a field-for-field copy of the pushed record, whatever it held before |
| CycleState.InitialWellFormed | src/providers/AuthProvider/AuthProvider.js:34 | the initial record `{nonActive, '', ''}` satisfies the active-week invariant |
| CycleState.NewCycleIgnoresCache | src/providers/AuthProvider/AuthProvider.js:161-168 | the record `newCycle` writes does not depend on the cached record |
| CycleState.BlockAndEndIgnoreWeek | src/providers/AuthProvider/AuthProvider.js:170-184 | `blockCycle` and `endCycle` do not depend on the week argument |
| CycleState.TransitionKeepsWellFormed | src/providers/AuthProvider/AuthProvider.js:160-186 | from a well-formed cache, and with a seven-day week for `newCycle`, every written record keeps the invariant "active implies a seven-day span" |
| CycleState.BlockAndEndIdempotent | src/providers/AuthProvider/AuthProvider.js:170-184 | blocking (or ending) again after the first result was pushed back writes the same record |
| CycleState.BlockThenEndKeepsDates | src/providers/AuthProvider/AuthProvider.js:161-184 | starting a cycle, blocking it and ending it leaves a nonActive record with the dates it was started with |
| Session.ClassifyRole | src/providers/AuthProvider/AuthProvider.js:218-224 | 'admin' classifies as admin, 'user' as user, and every other value (including a missing field) is a failure; no role is defaulted |
| Session.Step | src/providers/AuthProvider/AuthProvider.js:212-234 | identity events change only `currentUser`; a resolved 'admin' raises only `authAdmin`, 'user' only `authUser`, and anything else raises neither and calls `logOut`; a successful log-out clears both flags |
| Session.FlagTracksLookups | src/providers/AuthProvider/AuthProvider.js:212-230 | for either role, from a signed-out start, after any event sequence the role's flag holds iff some lookup answered that role's string and no log-out succeeded after it |
| Session.AdminFlagTracksLookups | src/providers/AuthProvider/AuthProvider.js:212-230 | from a signed-out start, after any event sequence `authAdmin` holds iff some lookup answered 'admin' and no log-out succeeded after it |
| Session.UserFlagTracksLookups | src/providers/AuthProvider/AuthProvider.js:212-230 | from a signed-out start, after any event sequence `authUser` holds iff some lookup answered 'user' and no log-out succeeded after it |
| Session.LogOutThenNoneSignsOut | src/providers/AuthProvider/AuthProvider.js:92-97 | from any flags, a successful log-out followed by the identity going away leaves no user and no role flag |
| Provider.Regate | src/providers/AuthProvider/AuthProvider.js:198-209 | the effect does nothing while both flags are unchanged; otherwise it closes the previous listener and opens one iff `authAdmin or authUser`, adjusting the open-listener count accordingly |
| Provider.Step | src/providers/AuthProvider/AuthProvider.js:160-209 | auth events change the flags and the listener but not the cache or the document; a snapshot reaches the cache only through an open listener and copies the document; a switcher call builds on the cached record and changes only the document; a remote write replaces the document |
| Provider.StepKeepsGated | src/providers/AuthProvider/AuthProvider.js:198-209 | every event keeps "open listeners = the one the effect holds, held iff a flag is raised"; switcher calls and remote writes leave the client unchanged |
| Provider.RunKeepsGated | src/providers/AuthProvider/AuthProvider.js:198-209 | after any event sequence at most one listener is open, and one is open iff `authAdmin or authUser` |
| Provider.MountedIsGated | src/providers/AuthProvider/AuthProvider.js:30-34 | the freshly mounted provider (no user, no flags, no listener, initial record) satisfies the listener invariant |
| Provider.CacheIsLastDelivered | src/providers/AuthProvider/AuthProvider.js:201-203 | after any event sequence the cache is the last document delivered to an open listener, or is unchanged if none was delivered |
| Provider.SetAppStateLeavesClient | src/providers/AuthProvider/AuthProvider.js:160-186 | a switcher call never changes the client's flags, listener or cache; an accepted call leaves the switcher's record in the shared document |
| Provider.BlockRoundTrip | src/providers/AuthProvider/AuthProvider.js:170-176 | an authorized client that blocks and receives the push ends with its previous cache marked blocked, equal to the shared document |
| Provider.LogOutClosesListener | src/providers/AuthProvider/AuthProvider.js:92-97 | after a successful log-out and the identity going away, no listener is open and the session is fully signed out |
| Registration.NoticeFor | src/providers/AuthProvider/AuthProvider.js:136-143 | the alert chosen for a provider error: e-mail taken, e-mail invalid, or a generic one carrying the code |
| Registration.ScanAliases | src/providers/AuthProvider/AuthProvider.js:126-129 | the flag ends as the comparison for the last document, or its start value on an empty result |
| Registration.AliasExists | src/providers/AuthProvider/AuthProvider.js:126-130 | the alias check is true iff the result is non-empty and its last alias equals the lower-cased request |
| Registration.CheckAlias | src/providers/AuthProvider/AuthProvider.js:126-129 | the source's loop computes the same verdict as the alias check |
| Registration.AliasExistsIffTaken | src/providers/AuthProvider/AuthProvider.js:120-129 | for any answer of the `alias ==` query, the check is true iff some stored employee has the lower-cased alias |
| Registration.OnlyLastDecides | src/providers/AuthProvider/AuthProvider.js:126-129 | for every query result, filtered or not, the check is decided by the last document alone |
| Registration.LastItemWins | src/providers/AuthProvider/AuthProvider.js:127-129 | illustrations: on `[anna, bob]` the request 'Anna' finds no conflict, on `[bob, anna]` it does |
| Registration.NewUser | src/providers/AuthProvider/AuthProvider.js:46-51 | the `users` document holds the names and e-mail lower-cased, equal to the input up to case, with role 'user' |
| Registration.NewEmployee | src/providers/AuthProvider/AuthProvider.js:57-64 | the `employees` document holds the alias lower-cased and the role assignments unchanged |
| Registration.Rejection | src/providers/AuthProvider/AuthProvider.js:145-151 | `createUser` rejects with 'internalError/alias-already-in-use' on a conflict and with the query's error when the query fails; it resolves otherwise |
| Registration.Register | src/providers/AuthProvider/AuthProvider.js:119-154 | a failed query or an alias conflict writes nothing and creates no identity; otherwise an identity is requested for the lower-cased e-mail; if the provider returns an id, both documents are written under it, and if it refuses, the matching alert is chosen and nothing is written |
| Registration.RegisteredAliasBlocksLaterRequests | src/providers/AuthProvider/AuthProvider.js:119-147 | after a registration, a later request for the same alias in any letter case gets the alias conflict and writes nothing |
| Registration.FreeAliasIsNotRefused | src/providers/AuthProvider/AuthProvider.js:130-135 | an alias no stored employee carries is never refused as a conflict |
| NewCycleWindow.IsBigger | src/components/organisms/NewCycleWindow/NewCycleWindow.js:26-36 | `is-bigger` answers only when both dates are present, and then accepts iff the end date is strictly later |
| NewCycleWindow.IsSevenDays | src/components/organisms/NewCycleWindow/NewCycleWindow.js:38-47 | `is-7days` answers only when both dates are present |
| NewCycleWindow.SevenDaysIsSixDaysApart | src/components/organisms/NewCycleWindow/NewCycleWindow.js:40-44 | the day count computed by dividing milliseconds is 7 iff the two day numbers are exactly 6 apart |
| NewCycleWindow.SevenDaysImpliesBigger | src/components/organisms/NewCycleWindow/NewCycleWindow.js:31-44 | every pair `is-7days` accepts is also accepted by `is-bigger` |
| NewCycleWindow.Errors | src/components/organisms/NewCycleWindow/NewCycleWindow.js:22-48 | each date is required on its own; `is-bigger` fails unless both are present and the end is later; `is-7days` fails unless both are present and six days apart |
| NewCycleWindow.AcceptsIffWeekSpan | src/components/organisms/NewCycleWindow/NewCycleWindow.js:22-48 | the schema raises nothing iff both dates are present and six days apart |
| NewCycleWindow.Step | src/components/organisms/NewCycleWindow/NewCycleWindow.js:107-120 | an accepted submit toggles the popup and captures the values, a rejected one changes nothing; confirm closes the popup and calls `newCycle` with exactly the captured values; cancel closes it; while the popup is hidden confirm and cancel do nothing; only confirm makes a call |
| NewCycleWindow.StepKeepsConsistent | src/components/organisms/NewCycleWindow/NewCycleWindow.js:111-120 | an open popup always holds accepted values, and every call starts a new cycle with a seven-day week |
| NewCycleWindow.SubmitThenConfirm | src/components/organisms/NewCycleWindow/NewCycleWindow.js:111-120 | submitting accepted values and confirming calls `newCycle` with exactly those values |
| NewCycleWindow.ConfirmedCallWritesWellFormed | src/components/organisms/NewCycleWindow/NewCycleWindow.js:117-120 | a confirmed call writes an active record with the captured dates, which is well formed whatever the cache held |
| NewCycleWindow.AllCallsAreWeekSpans | src/components/organisms/NewCycleWindow/NewCycleWindow.js:111-120 | along any interaction sequence every call the window makes is `newCycle` with a seven-day week |
| PanelsWrapper.Pushes | src/components/views/PanelsWrapper/PanelsWrapper.js:20-30 | the admin route is pushed iff admin and user present, the user route iff user flag and user present, log-in iff no flag and no user; at most two pushes |
| PanelsWrapper.Navigate | src/components/views/PanelsWrapper/PanelsWrapper.js:16-18 | the location is the last route pushed, or unchanged when nothing is pushed |
| PanelsWrapper.NavigateMatchesTarget | src/components/views/PanelsWrapper/PanelsWrapper.js:20-30 | for every flag combination the resulting location is the one a decision table names, and unchanged where it names none |
| PanelsWrapper.UnresolvedKeepsRoute | src/components/views/PanelsWrapper/PanelsWrapper.js:20-30 | a user present with no role resolved keeps the current route |
| PanelsWrapper.StaleFlagsKeepRoute | src/components/views/PanelsWrapper/PanelsWrapper.js:27-29 | role flags still raised after the identity went away keep the current route |
| PanelsWrapper.BothRolesEndAtUserRoute | src/components/views/PanelsWrapper/PanelsWrapper.js:21-26 | with both flags and a user, the admin route is pushed first and the user route wins |
| PanelsWrapper.RouteAgreesWithPanels | src/components/views/PanelsWrapper/PanelsWrapper.js:44-45 | moving to a panel's route happens only when that panel is rendered, and a rendered panel determines the route |
| PanelsWrapper.LogOutEndsAtLogin | src/components/views/PanelsWrapper/PanelsWrapper.js:27-29 | from any session, a successful log-out followed by the identity going away lands on `/login` |

## Left out

- Firebase calls (`getDoc`, `setDoc`, `getDocs`, `onSnapshot`, `onAuthStateChanged`,
  `createUserWithEmailAndPassword`, `signOut`, `sendPasswordResetEmail`). Their results are inputs
  (query answers, the provider's uid or error code, whether a write is stored) or events.
- `logIn`, `resetPassword`, the `inProgress` flag and the sign-out on `beforeunload`. These are
  thin wrappers over provider calls.
- Asynchronous ordering. Every callback is one atomic event, and the interleaving of identity
  changes, role lookups and writes from other clients is whatever order the events arrive in.
  React may batch the two setters of a successful log-out or run them one at a time; the model
  applies them together. The listener invariant holds for either order.
- The identity creation, the sign-out of the throwaway session and the two profile writes are
  one step here. The source does not await the writes, so it can leave an identity without a
  profile; that cross-service failure is not modelled.
- `window.alert`, `window.location.reload` after a failed log-out, React hooks, and router
  mechanics (`history.push`, `Switch`, `Suspense`, lazy imports). A failed log-out changes no
  flag in the model.
- The generated throwaway password (`uniqid`), which comes from a foreign random source.
- `Date` parsing. Dates are integer day numbers, and each day is exactly 86 400 000 ms long. A
  blank field is the empty string that the form library treats as missing. In the source, the
  date schema casts each field before the tests run, and its parser reads a date-only string as
  local midnight. So in a time zone with daylight saving, a week that crosses a clock change is
  one hour short or long. Line 43 then yields a non-integer day count, and the source rejects
  that week.
- NewCycleWindow.IsSevenDays: accepts every pair six days apart, including weeks that cross a
  daylight-saving change, which the source rejects in such time zones.
- Formik/Yup mechanics beyond the two tests and the two `required` rules. Which single message
  is displayed per field, and the form reset after submit, are not modelled.
- NewCycleWindow.Step: confirm and cancel are buttons inside the popup, so they are modelled as
  doing nothing while the popup is hidden.
- CycleState.OnPush: a snapshot always carries a full record. In the source, a snapshot of a
  missing `statesApp/cycleState` document (a fresh database) spreads `undefined` and leaves the
  cache `{}`. A later `blockCycle` then writes a record with a state and no dates.
- Provider.Step: a push delivers the stored document. The store's listener also reports this
  client's own pending write before the store accepts it, so a write that is later refused can
  briefly reach the cache. That local echo is not modelled.
- Text.Lower: only ASCII letters are lower-cased. JavaScript's `toLowerCase` also maps non-ASCII
  letters.
- Registration.Register: the role assignments are a sequence of names. The source stores them
  verbatim whatever their shape.
