# Timer app state providers in Dafny

A model of the three state providers behind the focus-timer app's screens,
with each provider's promises proved:

- **The session list** (`SessionContext`, after `project/hooks/useSessionContext.tsx`).
  This is the in-memory list of `TimerSession` records. `addSession` appends
  to it, and `updateSession` merges a partial update into every session with
  a given id. `getSessionsByDate` filters the list by calendar day, and
  `getDailyStats` counts a day's sessions and its completed sessions, sums
  the completed sessions' durations and rounds their mean focus score.
- **The mock authentication** (`AuthContext`, after `hooks/useAuth.tsx`).
  Its state is the signed-in user, the `isLoading` flag and key-value storage
  with the keys "user" and "sessions". It provides `checkAuthState`, `login`,
  `register`, `logout`, `updateUser` and `isAuthenticated`.
- **The theme** (`ThemeContext`, after `project/hooks/useTheme.tsx`). This is
  a light/dark theme. It starts from the system colour scheme, flips with
  `toggleTheme`, and follows the appearance-change listener.

The providers whose state the source replaces through `setState` are
classes:

- `SessionStore` has a `seq` of sessions.
- `AuthProvider` has the user, the flag and a `map` for storage.
- `ThemeProvider` has the theme.

Their methods state the whole new state. The session queries are functions
over the list, because the source computes them as `filter` and `reduce`
expressions. The lemmas beside these functions prove the queries'
properties.

Modelling choices:

- A `Date` is an `Instant`. Its `day` field is the calendar-day key that
  `toDateString()` renders. Two dates fall on the same day exactly when their
  keys are equal.
- Durations and focus scores are integers.
- `Math.round(sum / n)` is `(2 * sum + n) / (2 * n)`, which Dafny's division
  computes exactly for a positive `n`. `RoundedMean` proves that this is the
  nearest integer, with halves rounded up, which is what `Math.round` does.
- `s.focusScore || 0` reads a missing score as 0.
- A `Partial<T>` update has an `Option` per field. A missing key is `None`.
  For an optional field, the key present with the value `undefined` is
  `Some(None)`, and the spread then clears the field.
- A user's `preferences` is the object as it is at run time, with each field
  possibly missing. `updateUser` merges only the top level, so an update
  carrying some preference fields drops the others. Updating one preference
  therefore does not leave its siblings untouched unless the caller copies
  them into the update.
- `Date.now().toString()` ids are the parameter `id`.
- Stored strings are `Entry` values. `UserJson(u)` stands for
  `JSON.stringify(u)`. `Other(text)` is text that does not parse back into a
  user.
- A storage call that throws is described by the parameter
  `io: StorageBehaviour`. Either every call succeeds, or the k-th storage
  call of the operation throws. The rest of the operation's `try` block then
  does not run, and its `catch` logs the error. A `finally` block, which
  clears `isLoading` in `checkAuthState`, `login` and `register`, still runs.

## Model

| member | source | states |
|---|---|---|
| `SessionContext.MergeSetsPresentFields` | project/hooks/useSessionContext.tsx:38 | the spread `{ ...s, ...updates }` sets exactly the fields present in the update and keeps every other field |
| `SessionContext.MergeIdentityAndIdempotence` | project/hooks/useSessionContext.tsx:38 | an empty update changes nothing; applying the same update twice is the same as applying it once |
| `SessionContext.Merge` | project/hooks/useSessionContext.tsx:38 | no contract; the spread `{ ...s, ...updates }`, whose fields are stated by MergeSetsPresentFields |
| `SessionContext.UpdateIfMatches` | project/hooks/useSessionContext.tsx:38 | no contract; the `map` callback, described position by position by UpdateAllAt |
| `SessionContext.MergeComposes` | project/hooks/useSessionContext.tsx:37-39 | two successive updates of a session equal one update with the combined keys, the later update's keys winning |
| `SessionContext.UpdateAll` | project/hooks/useSessionContext.tsx:38 | the mapped list has the same length as the old list |
| `SessionContext.UpdateAllAt` | project/hooks/useSessionContext.tsx:38 | at each position, a session with the given id is replaced by its merge with the update, and every other session is kept; every match is updated, not only the first |
| `SessionContext.UpdateAllNoMatch` | project/hooks/useSessionContext.tsx:38 | an id that no session has leaves the list equal to the old list |
| `SessionContext.SessionStore.constructor` | project/hooks/useSessionContext.tsx:31 | the provider starts with an empty list |
| `SessionContext.SessionStore.AddSession` | project/hooks/useSessionContext.tsx:33-35 | the list grows by one; the old list is an unchanged prefix and the new session is the last element |
| `SessionContext.SessionStore.UpdateSession` | project/hooks/useSessionContext.tsx:37-39 | the list keeps its length and order; matching sessions are merged with the update and the others are unchanged; with no match the list is unchanged |
| `SessionContext.SessionsByDate` | project/hooks/useSessionContext.tsx:41-44 | the result is no longer than the list, and every session in it comes from the list and starts on the given day |
| `SessionContext.SessionsByDateIsSubsequence` | project/hooks/useSessionContext.tsx:43 | the day's sessions keep their relative order from the list |
| `SessionContext.SessionsByDateCounts` | project/hooks/useSessionContext.tsx:43 | each session of the day appears as often as in the list, and no session of another day appears |
| `SessionContext.SessionsByDateAppend` | project/hooks/useSessionContext.tsx:33-44 | filtering a list with one session appended gives the old day's sessions, plus the new session if it starts that day |
| `SessionContext.Completed` | project/hooks/useSessionContext.tsx:48 | every session kept is completed and comes from the day's sessions |
| `SessionContext.CompletedAppend` | project/hooks/useSessionContext.tsx:48 | filtering for completed sessions distributes over an append |
| `SessionContext.TotalsAppend` | project/hooks/useSessionContext.tsx:49-51 | the summed duration and the summed focus score each grow by the appended session's value, with a missing score counted as 0 |
| `SessionContext.TotalDuration` | project/hooks/useSessionContext.tsx:49 | no contract; the duration `reduce`, described by TotalsAppend and AddSessionSameDay |
| `SessionContext.ScoreOrZero` | project/hooks/useSessionContext.tsx:51 | no contract; `s.focusScore \|\| 0`, used by TotalsAppend and AverageIsRoundedMean |
| `SessionContext.TotalFocus` | project/hooks/useSessionContext.tsx:51 | no contract; the score `reduce`, described by TotalsAppend and TotalFocusBounds |
| `SessionContext.TotalFocusBounds` | project/hooks/useSessionContext.tsx:51 | if every score lies in [lo, hi], the summed score of n sessions lies in [n*lo, n*hi] |
| `SessionContext.RoundedMean` | project/hooks/useSessionContext.tsx:50-58 | the result r is the nearest integer to sum/n with halves rounded up: n*(2r-1) <= 2*sum < n*(2r+1) |
| `SessionContext.GetDailyStats` | project/hooks/useSessionContext.tsx:46-60 | `completedSessions` never exceeds `totalSessions` |
| `SessionContext.DailyCountsAreDayCounts` | project/hooks/useSessionContext.tsx:46-56 | `totalSessions` is the number of list positions holding a session of that day; `completedSessions` is the number of those positions holding a completed session |
| `SessionContext.NoCompletedMeansZeroAverage` | project/hooks/useSessionContext.tsx:50-52 | with no completed session that day, the completed count, the total time and the average are all 0 |
| `SessionContext.AverageIsRoundedMean` | project/hooks/useSessionContext.tsx:50-58 | with completed sessions, the average is the rounded mean of their focus scores, a missing score counting as 0, and it lies between the smallest and largest score |
| `SessionContext.AddSessionOtherDay` | project/hooks/useSessionContext.tsx:33-59 | adding a session of another day leaves the day's figures unchanged |
| `SessionContext.AddSessionSameDay` | project/hooks/useSessionContext.tsx:33-59 | adding a session of the day raises `totalSessions` by one; an incomplete session changes nothing else, and a completed one raises `completedSessions` by one and `totalTime` by its duration |
| `AuthContext.LocalPart` | hooks/useAuth.tsx:62 | the name is the prefix of the email before its first '@', and it contains no '@'; it is the whole email exactly when the email has no '@' |
| `AuthContext.LocalPartOfAddress` | hooks/useAuth.tsx:62 | for a local part without '@', the name derived from local + "@" + domain is that local part |
| `AuthContext.LoginAccepts` | hooks/useAuth.tsx:58 | no contract; the mock login check, tied to the result by Login's ensures |
| `AuthContext.RegisterAccepts` | hooks/useAuth.tsx:93 | no contract; the mock register check, tied to the result by Register's ensures |
| `AuthContext.NewUser` | hooks/useAuth.tsx:59-69 | no contract; the record login and register create, stated by their ensures |
| `AuthContext.MergeUser` | hooks/useAuth.tsx:133 | no contract; the spread `{ ...user, ...updates }`, whose fields are stated by MergeUserIsShallow |
| `AuthContext.MergeUserIsShallow` | hooks/useAuth.tsx:133 | top-level fields absent from the update are kept and present ones are replaced wholesale, so a `preferences` in the update becomes the whole new preferences object |
| `AuthContext.PartialPreferencesDropSiblings` | hooks/useAuth.tsx:130-136 | an update carrying a preferences object makes exactly that object the new preferences and keeps every other field, so preference fields the object lacks are dropped |
| `AuthContext.MergeUserComposes` | hooks/useAuth.tsx:130-136 | two successive merges equal one merge with the combined keys, the later update's keys winning |
| `AuthContext.AuthProvider.IsAuthenticated` | hooks/useAuth.tsx:146 | no contract; `!!user`, stated true after a successful Login or Register and false after a successful Logout |
| `AuthContext.AuthProvider.constructor` | hooks/useAuth.tsx:30-31 | the provider starts with no user and `isLoading` true, so nobody is authenticated |
| `AuthContext.AuthProvider.CheckAuthState` | hooks/useAuth.tsx:37-48 | a user record stored under "user" becomes the user; a missing or unreadable record, or a failing read, leaves the user unchanged; `isLoading` ends false |
| `AuthContext.AuthProvider.Login` | hooks/useAuth.tsx:50-83 | returns true iff the email is non-empty, the password has at least 6 characters and the write succeeds; on success the user is stored and signed in, with the email's local part as name and preferences 25/5/"mishary"/light; on failure user and storage are unchanged; `isLoading` ends false |
| `AuthContext.AuthProvider.Register` | hooks/useAuth.tsx:85-118 | as Login, also requiring a non-empty name, which is stored verbatim |
| `AuthContext.AuthProvider.Logout` | hooks/useAuth.tsx:120-128 | with both removals succeeding, "user" and "sessions" are gone and nobody is authenticated; a throwing removal stops the steps after it |
| `AuthContext.ReloadAfterLogout` | hooks/useAuth.tsx:120-124 | after a successful logout and a restart, storage holds neither "user" nor "sessions" and the reloaded provider has nobody signed in |
| `AuthContext.AuthProvider.UpdateUser` | hooks/useAuth.tsx:130-140 | with nobody signed in nothing changes; otherwise the shallow merge is stored and becomes the user, so storage and memory agree; a failed write changes nothing |
| `ThemeContext.ThemeFor` | project/hooks/useTheme.tsx:13-17 | the theme is dark exactly when the scheme is dark, and light for any other scheme, including no preference |
| `ThemeContext.Toggled` | project/hooks/useTheme.tsx:22-24 | toggling always changes the theme |
| `ThemeContext.ToggleIsInvolution` | project/hooks/useTheme.tsx:22-24 | light maps to dark and dark to light, and toggling twice restores the theme |
| `ThemeContext.Step` | project/hooks/useTheme.tsx:16-24 | no contract; the two `setTheme` updates, described by ToggleIsInvolution and ThemeFor |
| `ThemeContext.Replay` | project/hooks/useTheme.tsx:16-24 | no contract; a run of those updates, described by ReplayToggles and AppearanceChangeForgetsHistory |
| `ThemeContext.FlipTimes` | project/hooks/useTheme.tsx:22-24 | n toggles change the theme exactly when n is odd |
| `ThemeContext.ReplayToggles` | project/hooks/useTheme.tsx:22-24 | a run of toggles flips the theme once per toggle |
| `ThemeContext.AppearanceChangeForgetsHistory` | project/hooks/useTheme.tsx:16-18 | after an appearance change the theme no longer depends on the earlier theme or on earlier events |
| `ThemeContext.ThemeProvider.constructor` | project/hooks/useTheme.tsx:12-13 | the initial theme is the one mapped from the system colour scheme |
| `ThemeContext.ThemeProvider.ToggleTheme` | project/hooks/useTheme.tsx:22-24 | the new theme is the toggle of the old one |
| `ThemeContext.ThemeProvider.OnAppearanceChange` | project/hooks/useTheme.tsx:16-18 | the new theme is mapped from the new scheme, whatever the old theme was |

The theme is always one of exactly two values because `Theme` is a datatype
with two constructors.

## Left out

- The asynchronous steps are one atomic method each. This drops the
  artificial delays (`setTimeout` of 1.5 s and 2 s) and the window during
  which `isLoading` is true. It also drops React's batching of state updates
  and the stale `user` that `updateUser` reads from its render closure.
- The ids from `Date.now()` are parameters. Console logging of caught errors
  is left out.
- `JSON.stringify` and `JSON.parse` are opaque. Stored text that parses into
  something other than a user record is treated as a parse failure. The
  source would instead set the user to whatever value it parsed.
- A password's length counts characters, not the UTF-16 code units of
  JavaScript's `length`. The `email` truthiness test is modelled as
  non-emptiness.
- The model cannot set a required field to `undefined`; JavaScript would
  copy it. This holds for `SessionPatch` (every field but `endTime` and
  `focusScore`) and for `UserPatch` (`id`, `email`, `name` and
  `preferences`). `Partial<T>` accepts `undefined` for every field, so
  `updateSession(id, { name: undefined })` and
  `updateUser({ preferences: undefined })` store a record missing that field.
- `Math.round` is applied to an exact rational mean. The source divides in
  floating point first, which can differ for very large sums. A score of
  `NaN` (which `|| 0` also maps to 0) is not modelled.
- `toDateString()` depends on the locale and time zone. It is abstracted to
  the `day` key of an `Instant`.
- The storage load and save of the session list (`hooks/useSessionContext.tsx`)
  are storage I/O. They are not part of this model, beyond `logout` removing
  the "sessions" key.
- The "must be used within a provider" errors are React context plumbing.
  The registration and removal of the appearance listener is too.
- The loading/authenticated/welcome redirect in `app/index.tsx` is navigation
  and is not part of this model.
- Animation, styling, colour tables, asset stubs and the immersive-mode flag
  are presentation code and are not part of this model.
