# DreamPsyche core, modelled in Dafny

DreamPsyche is a Thai-language dream-journal web application. A signed-in user submits a dream
in Thai. The server endpoint `POST /api/interpret` validates it and applies a five-per-day quota.
It retrieves similar earlier dreams and answers from a semantic cache when one is an almost
exact match; otherwise it asks a language model. A clean answer is stored in the database, with
the usage counter, an audit row and the dream's symbols. Around that endpoint sit the client
pages:

- the login page (password strength, the sign-up guard chain, the error-message mapping and the
  post-sign-up and post-login writes);
- the identity provider's callback route;
- the password-update page;
- the dashboard (moon-phase widget and submit handler);
- the history page (listing, search, mood icon, soft delete);
- the administrator page (role gate, search, CSV report, audit helper, moderation actions).

The project models all of these. External services are replaced by input values: the
embedding, the similar-dream list, the parsed completion, the outcome of the store calls whose
failure the model follows (the dream insert, the history and role queries, the history delete and
the administrator's edit; the other calls are assumed to succeed, see "## Left out"), the identity provider's answers, `confirm()` dialogs, clocks and
dates. What remains is proved:

- the decision logic;
- the order and content of every write;
- what those writes do to the tables.

Modules:

- `Common` (common.dfy): JavaScript string semantics used throughout:
  - `includes` as a substring test;
  - ASCII `toLowerCase`;
  - `trim` over JavaScript's whitespace set;
  - `filter` as an order-preserving subsequence;
  - `split`/`join` with their round trip;
  - decimal rendering;
  - an insertion sort proved sorted and a permutation.
- `Store` (store.dfy): the Supabase tables as a value `Tables`, the journal of `Write`s the
  application issues, and their effect (`Apply`, `ApplyAll`). Class `Database` keeps the tables as
  fields and the log of writes performed. Its invariant is that the tables are always the opening
  tables with the log applied, and that row ids are serial.
- `Interpret` (interpret.dfy): `app/api/interpret/route.ts`.
  - The pure classifiers: Thai gate, mode, threshold, cache hit and context text.
  - `Run`, the whole handler as a function of request, environment and tables; it returns the
    response, the calls made in order, and the writes in order.
  - Method `Handle` on a `Database`, proved to do exactly what `Run` says.
- `Login` (login.dfy): `app/login/page.tsx`, as class `LoginPage`.
- `AuthCallback` (auth_callback.dfy): `app/auth/callback/route.ts`.
- `UpdatePassword` (update_password.dfy): `app/update-password/page.tsx`, as class `UpdatePasswordPage`.
- `Dashboard` (dashboard.dfy): `app/dashboard/page.tsx`, as class `DashboardPage`.
- `History` (history.dfy): `app/history/page.tsx`, as class `HistoryPage`.
- `Admin` (admin.dfy): `app/admin/page.tsx`, as class `AdminPage`.

The history page's mood icon frowns on a NULL happiness score, because JavaScript compares
`null <= 3` as `0 <= 3` while a missing interpretation (`undefined`) compares false both ways
and shows the neutral face. See `History.MoodOf`.

Lengths are JavaScript's `length`, which counts UTF-16 code units: a character beyond the Basic
Multilingual Plane (an emoji, say) counts twice (`Common.JsLength`).

## Model

| member | source | states |
|---|---|---|
| Common.Includes | app/api/interpret/route.ts:108 | `s.includes(needle)` holds exactly when some suffix of `s` starts with `needle` |
| Common.Filter | app/admin/page.tsx:202-210 | the kept elements all come from the input and pass the test, and every element that passes is kept |
| Common.FilterCounts | app/admin/page.tsx:202-210 | every passing element is kept as many times as it occurs in the input, and no failing one is kept |
| Common.JsLength | app/api/interpret/route.ts:20 | `length` counts one code unit per character and two for a character beyond U+FFFF; it equals the character count exactly when every character lies in the Basic Multilingual Plane |
| Common.FilterIsSubsequence | app/history/page.tsx:64 | `filter` keeps the input's order: its result is a subsequence of the input |
| Common.SortByCorrect | app/login/page.tsx:16-18 | sorting with a total order yields a sorted permutation of the input |
| Common.SplitJoin | app/admin/page.tsx:140 | joining fields that hold no separator and splitting again gives the same fields back |
| Common.TrimEmptyIffBlank | app/dashboard/page.tsx:148 | `s.trim()` is empty exactly when every character of `s` is JavaScript whitespace |
| Common.LowerIdempotent | app/admin/page.tsx:203-204 | lowercasing twice is lowercasing once |
| Store.ApplyAllConcat | app/api/interpret/route.ts:109-145 | applying two batches of writes in turn equals applying their concatenation |
| Store.SoftDeleteTouchesOneRow | app/history/page.tsx:51-54 | setting `deleted_at` changes only that one row's `deletedAt`; the row stays and the table keeps its length |
| Store.Database.LogDeterminesState | app/api/interpret/route.ts:109-145 | the current tables are the opening tables with the earlier writes, then the latest batch, applied |
| Store.Database.Perform | app/api/interpret/route.ts:109-145 | one write is appended to the log and the tables become that write applied to the old tables; the invariant is kept |
| Interpret.ContainsThai | app/api/interpret/route.ts:7 | true exactly when some character lies in the Thai block U+0E00–U+0E7F |
| Interpret.SingleSymbolIff | app/api/interpret/route.ts:20-22 | single-symbol mode exactly when shorter than 20 UTF-16 code units with no space character; threshold 0.85 then, else 0.75 |
| Interpret.SpaceIncludedIff | app/api/interpret/route.ts:20 | `includes(' ')` holds exactly when some character is a space |
| Interpret.ExactMatch | app/api/interpret/route.ts:52 | none exactly when no candidate exceeds 0.96; otherwise the first candidate whose similarity exceeds 0.96 |
| Interpret.StoredInterpretation | app/api/interpret/route.ts:53-55 | `.single()`: a row is found exactly when exactly one interpretation refers to the dream, and the found row is that stored row |
| Interpret.ContextTextShape | app/api/interpret/route.ts:67 | the context is empty exactly without similar dreams, and otherwise starts with the header |
| Interpret.ContextTextLines | app/api/interpret/route.ts:67 | after the header, one `- text` line per candidate in RPC order, when no candidate text holds a line break |
| Interpret.EmptyTextRejected | app/api/interpret/route.ts:12 | a missing or empty text is a 400, with no call and no write |
| Interpret.NonThaiRejected | app/api/interpret/route.ts:15-17 | a non-empty text with no Thai character is a 400, with no call and no write |
| Interpret.QuotaCheck | app/api/interpret/route.ts:29-35 | 429 exactly for an accepted text from a signed-in user whose count is at least 5; then only the user lookup and usage read, and no write; a guest's usage is never read |
| Interpret.RetrievalUsesMode | app/api/interpret/route.ts:40-48 | the similarity RPC is called with the mode's threshold and the completion, if any, in the same mode |
| Interpret.CacheHit | app/api/interpret/route.ts:51-63 | a hit answers the stored analysis and lucky numbers or "-", makes no completion call, and writes only the usage count + 1 for a signed-in user |
| Interpret.CacheMissFallsThrough | app/api/interpret/route.ts:51-63 | a match whose interpretation is missing is not a cached answer; the completion is requested |
| Interpret.FreshAnswerUnchanged | app/api/interpret/route.ts:108 | a fresh answer is the parsed completion unchanged; it is written exactly when the caller is signed in, the analysis lacks the refusal marker and the dream insert succeeded |
| Interpret.PersistOrder | app/api/interpret/route.ts:109-145 | the writes are the dream; its interpretation with the analysis, the lucky numbers and each score as given, or 0 when absent or falsy; usage := count + 1; the INTERPRET_DREAM audit row with the mode; then one symbol upsert per tag |
| Interpret.SymbolWritesEffect | app/api/interpret/route.ts:142-145 | the upserts add exactly the tags, each as an AI-sourced entry; all other symbols and tables are kept |
| Interpret.HeadEffect | app/api/interpret/route.ts:109-140 | the first four writes append the dream and the interpretation, set the usage to count + 1 and append the audit row |
| Interpret.PersistEffect | app/api/interpret/route.ts:109-145 | after persisting, the dream and interpretation tables grow by exactly the new rows and the usage holds count + 1 |
| Interpret.QuotaNeverExceeded | app/api/interpret/route.ts:29-35 | a request never raises a day's count above 5, and counts of other users or days are unchanged |
| Interpret.Handle | app/api/interpret/route.ts:9-153 | the handler's response, calls and writes are those of `Run`, and the store holds the writes applied |
| Interpret.Respond | app/api/interpret/route.ts:51-149 | after the quota gate, the response, calls and writes are those of the specification `Answer` |
| Interpret.Persist | app/api/interpret/route.ts:109-145 | the log grows by the four head writes and then the symbol upserts, and the tables are those writes applied |
| Interpret.WriteHead | app/api/interpret/route.ts:109-140 | the dream, interpretation, usage and audit writes, in that order |
| Interpret.UpsertTags | app/api/interpret/route.ts:142-145 | one symbol upsert per tag, in order, with their effect on the tables |
| Login.CheckPasswordStrength | app/login/page.tsx:20-28 | the running score is the number of criteria met (length counted in UTF-16 code units), 0 for the empty password, at most 4 |
| Login.StrengthIsSum | app/login/page.tsx:22-27 | the score is the sum of four independent 0/1 indicators |
| Login.FullScore | app/login/page.tsx:22-27 | every password of length 8 or more with a capital, a digit and a symbol scores 4 |
| Login.AstralPasswordScoresTwo | app/login/page.tsx:22-27 | four emoji are 8 code units long and score 2: length and symbol |
| Login.LexTotal | app/login/page.tsx:18 | `.sort()`'s code-unit order relates any two strings one way or the other |
| Login.SortNames | app/login/page.tsx:16-18 | the province list is sorted and a permutation of the raw names |
| Login.SignupCheck | app/login/page.tsx:62-67 | each guard fails exactly when the earlier ones pass and its test fails; no failure means every test passed |
| Login.AcceptedSignup | app/login/page.tsx:62-70 | an accepted sign-up has a location from the province list and a confirmed password of strength 2 or more |
| Login.MapErrorMessage | app/login/page.tsx:128-132 | "Invalid login" gives the invalid-credentials text, else "already registered" the duplicate-email text, else the message unchanged |
| Login.WriteRegistration | app/login/page.tsx:77-98 | profile update, privacy consent accepted, REGISTER audit row, in that order |
| Login.OpenLoginPage | app/login/page.tsx:16-18 | the page opens over a sorted permutation of the 77 province names, so by `AcceptedSignup` an accepted location is one of them |
| Login.LoginPage.constructor | app/login/page.tsx:16-18 | an empty form in the login view over the sorted provinces |
| Login.LoginPage.SetPassword | app/login/page.tsx:53-55 | the strength shown stays that of the current password |
| Login.LoginPage.SwitchView | app/login/page.tsx:139-142 | switching to login clears the confirmation and the agreement; switching to sign-up keeps them |
| Login.LoginPage.HandleAuth | app/login/page.tsx:57-136 | per view, the guard toast with no call, or the one identity call and its writes, toast and route; loading false on every exit |
| Login.LoginPage.SubmitSignup | app/login/page.tsx:62-101 | the first failing guard's toast and nothing else, or the account creation |
| Login.LoginPage.CreateAccount | app/login/page.tsx:70-101 | the sign-up call; an error shows the mapped message; otherwise the registration writes when a user returns, the welcome toast and the dashboard |
| Login.LoginPage.SubmitLogin | app/login/page.tsx:103-117 | the password sign-in; an error shows the mapped message; otherwise a LOGIN row when a user returns and the dashboard |
| Login.LoginPage.SubmitReset | app/login/page.tsx:119-125 | the reset mail with the callback link to the update page; no write; success returns to the login view |
| AuthCallback.FirstNamed | app/auth/callback/route.ts:7 | the index of the first field with that name, or the field count when none has it |
| AuthCallback.Param | app/auth/callback/route.ts:7-9 | `searchParams.get`: the first field with that name gives the value; absent exactly when no field has it |
| AuthCallback.NextPath | app/auth/callback/route.ts:9 | `/dashboard` only when `next` is absent; a present value, even empty, is kept |
| AuthCallback.Callback | app/auth/callback/route.ts:5-45 | exchange attempted exactly with a non-empty code; success goes to origin + next, everything else to the failure URL; every target is the string origin followed by something (not a same-origin guarantee: `next` is not checked, so `next = "@evil.example"` names another host) |
| AuthCallback.NamedField | app/auth/callback/route.ts:7 | a `name=value` field reads back as that name and value |
| AuthCallback.TwoFields | app/auth/callback/route.ts:7 | two fields joined by `&` split back into those two |
| AuthCallback.QueryAfterPath | app/auth/callback/route.ts:6 | the query of `path?query` is `query` |
| AuthCallback.TwoParams | app/auth/callback/route.ts:7-9 | in a two-field query each value is found by its name |
| AuthCallback.CallbackLandsOnNext | app/auth/callback/route.ts:34-37 | a callback link `path?next=target` with the code appended lands on origin + target |
| AuthCallback.ResetLinkLandsOnUpdatePassword | app/login/page.tsx:119-125 | the login page's reset link, once exchanged, lands on the password-update page |
| UpdatePassword.PasswordGuard | app/update-password/page.tsx:24-32 | mismatch rejected first; then fewer than 6 UTF-16 code units; otherwise accepted, so length 6 passes |
| UpdatePassword.UpdateErrorText | app/update-password/page.tsx:52 | the error message, or the fallback text when it is empty, after the error prefix |
| UpdatePassword.UpdatePasswordPage.HandleUpdatePassword | app/update-password/page.tsx:21-56 | a failed guard shows its toast and calls nothing; otherwise one update call; success adds the sign-out and the redirect to /login; loading false at the end |
| Dashboard.PhaseOf | app/dashboard/page.tsx:20 | for days 1 to 31 waxing exactly on days 1–14, 30 and 31 |
| Dashboard.MoonAge | app/dashboard/page.tsx:21 | the age is in 1..15, agrees with day mod 15, and is 15 exactly on multiples of 15 |
| Dashboard.SubmitDisabled | app/dashboard/page.tsx:291 | disabled exactly while loading or when the dream is all whitespace |
| Dashboard.DashboardPage.HandleSubmit | app/dashboard/page.tsx:147-173 | a blank dream changes nothing; otherwise one request; 429 shows the quota text; an error field or a rejection shows the error; only a clean body becomes the result; loading false at the end |
| History.ListedRowsSpec | app/history/page.tsx:33-35 | the listed rows are a newest-first permutation of the user's dreams that are not deleted |
| History.ListingOnlyListed | app/history/page.tsx:33-34 | every listed dream is the user's and has no `deleted_at` |
| History.ListingComplete | app/history/page.tsx:33-34 | every such dream is listed |
| History.ListingNewestFirst | app/history/page.tsx:35 | the listing is ordered by creation time, newest first |
| History.EntryInterpretations | app/history/page.tsx:31 | a listed dream carries exactly the interpretations that refer to it |
| History.SoftDeleteLeavesListing | app/history/page.tsx:51-54 | a deleted dream's row stays with `deleted_at` set and then leaves the listing |
| History.FilterEntriesSpec | app/history/page.tsx:64 | the search keeps order and keeps an entry exactly when its text contains the search, case-sensitively; empty keeps everything |
| History.MoodOf | app/history/page.tsx:125-127 | smile exactly for a score of 7 or more, frown for 3 or less or NULL, neutral otherwise, including a missing interpretation |
| History.HistoryPage.FetchHistory | app/history/page.tsx:21-40 | without a user it stops with loading still set; a failed query keeps the list; otherwise the list is the store's listing |
| History.HistoryPage.HandleDelete | app/history/page.tsx:47-62 | unconfirmed: nothing changes, toast included; rejected: no store change and the failure toast with the message; success: that one soft delete and the success toast, then the refetch with each of its three outcomes (listing, kept list with the load-failure toast, or loading left set without a user) |
| History.ScoreOf | app/history/page.tsx:125-127 | `interpretations?.[0]?.happiness_score`: absent exactly without an interpretation, otherwise the first one's score; never NULL in the modelled store |
| Admin.AdminAccess | app/admin/page.tsx:47-63 | sign-in redirect exactly without a user; granted exactly when the lookup succeeds with role `admin`; denied otherwise |
| Admin.FilterUsersSpec | app/admin/page.tsx:202-205 | the user search keeps order and keeps a user exactly when its email or role contains the term, ignoring case |
| Admin.EmptyTermKeepsUsersWithFields | app/admin/page.tsx:202-205 | the empty term keeps exactly the users with an email or a role |
| Admin.UserSearchIgnoresCase | app/admin/page.tsx:203-204 | a lowercased term lists the same users |
| Admin.FilterDreamsSpec | app/admin/page.tsx:207-210 | the dream search keeps order and keeps a dream exactly when its text or owner email contains the term, ignoring case |
| Admin.EmptyTermKeepsDreamsWithFields | app/admin/page.tsx:207-210 | the empty term keeps exactly the dreams with a text or an owner email |
| Admin.CsvLines | app/admin/page.tsx:138-140 | one header line plus one line per entry |
| Admin.CsvHeaderLine | app/admin/page.tsx:138 | the header line is `Date,Dreams Count,Active Users` |
| Admin.CsvLinesHaveNoBreak | app/admin/page.tsx:139 | no report line holds a line break when no date name does |
| Admin.CsvShape | app/admin/page.tsx:137-140 | no content exactly without data; otherwise n + 1 lines, header first, line i + 1 being entry i's `name,dreams,users` |
| Admin.CsvRowFields | app/admin/page.tsx:139 | a report line splits back into its three fields |
| Admin.AdminLogWrites | app/admin/page.tsx:123-131 | one `ADMIN_`-prefixed audit row for the signed-in administrator, none without a session |
| Admin.LogAdminAction | app/admin/page.tsx:123-131 | the log grows by exactly those writes |
| Admin.ToggleEffect | app/admin/page.tsx:183-185 | the setting becomes the negated value, every other setting is kept, and the log entry records the new value |
| Admin.SaveEditTouchesOneRow | app/admin/page.tsx:167-172 | the edit rewrites only that interpretation's text and note |
| Admin.AdminPage.constructor | app/admin/page.tsx:23-39 | not authorised, no data, no dialog |
| Admin.AdminPage.CheckAdmin | app/admin/page.tsx:45-67 | sign-in redirect, access-denied toast and dashboard, or authorisation and one reload, as `AdminAccess` decides |
| Admin.AdminPage.ExportCsv | app/admin/page.tsx:136-150 | without data a warning and no log; otherwise the dated report file and one EXPORT_REPORT entry |
| Admin.AdminPage.DeleteDream | app/admin/page.tsx:152-158 | after confirmation the soft delete, its DELETE_DREAM entry, the toast and a reload; nothing otherwise |
| Admin.AdminPage.SaveEdit | app/admin/page.tsx:165-181 | nothing without a dream and its first interpretation; a failed update only its toast; a successful one the update of that interpretation, the EDIT_INTERPRETATION entry, the closed dialog and a reload |
| Admin.AdminPage.ToggleSetting | app/admin/page.tsx:183-187 | the negated value is stored and logged, then a reload |
| Admin.AdminPage.BanUser | app/admin/page.tsx:189-195 | after confirmation the user's soft delete, the BAN_USER entry naming the email, the toast and a reload |

## Left out

- External services are inputs: the OpenAI embedding and chat completion (prompt wording, `JSON.parse`), the `match_dreams` similarity RPC and its cosine arithmetic. Similarities are `real` values compared against the constants 0.85, 0.75 and 0.96.
- Supabase authentication, sessions and cookies (middleware.ts, the cookie callbacks of the callback route, `getUser`) are outside the model: the user id and each call's outcome are inputs.
- Dates and clocks are opaque values (`Day`, `Timestamp`, the Thai-locale date text of an edit note).
- `Promise.all` over the symbol upserts is modelled as a sequential loop. The cross-request quota race is not modelled: each request is handled alone.
- Toast rendering, JSX, charts, `confirm()` (a boolean input) and the browser download mechanics are not modelled. The export is the file name and content; the PWA install prompt and speech recognition on the dashboard are not modelled either.
- The dashboard's initial data load and the login page's existing-session check are not modelled: they are page-load effects without decision logic.
- The administrator page's `fetchAllData` is counted (`reloads`), not modelled; its views are database-side.
- `Interpret.Run` reads the usage count and the cached interpretation straight from the tables, so both reads are assumed to succeed. In the application a failed usage read (route.ts:32-33) leaves the count at 0: the 429 gate is skipped and the later upsert writes `request_count: 1`, resetting that day's counter. A failed cached-interpretation read (route.ts:55-56) falls through to the completion.
- A request body that is not valid JSON makes `req.json()` throw, giving a 500 with the exception's message (route.ts:11, 150-152); the model takes the body as an optional string, so this path and a `dreamText` that is not a string are not modelled.
- History.ScoreOf: the happiness column is an integer, because the handler stores `happiness_score || 0`; a NULL written by other means is covered only by `History.MoodOf` on `NullScore`.
- Store writes whose result the code does not inspect are assumed to succeed: the interpretation insert, usage upsert, audit insert and symbol upserts of the request handler; the login page's profile, consent and audit writes; the administrator page's delete, toggle, ban and audit writes. In the application any of them can fail silently and leave its row missing.
- Login.SortNames: orders by code points, which agrees with `.sort()`'s UTF-16 code-unit order whenever no string holds a character beyond U+FFFF, as with the province names.
- Common.Lower: lowercases ASCII letters only; JavaScript's full Unicode case mapping is not modelled.
- AuthCallback.Param: percent-decoding and `+` as space are not modelled, so a value is compared as written.
- AuthCallback.CallbackLandsOnNext: the identity provider is assumed to append the code as one more query field.
- History.HistoryPage.HandleDelete: like the code, the update filters on the dream id only; row-level security on the owner is database configuration and not modelled.
- History.FilterEntries: a NULL `dream_text`, which would make the page throw, is not modelled; texts are strings.
- Login.LoginPage.constructor: takes the raw province names as a parameter; `Login.OpenLoginPage` passes the 77 names of `RawProvinces`.
- Login.LoginPage.HandleAuth: its own contract states the three branch outcomes through `SignupDone`, `LoginDone` and `ResetDone`; a thrown non-provider error is not modelled.
- Dashboard.DashboardPage.HandleSubmit: a reply body that `response.json()` cannot parse is modelled as a rejection with its message.
- The profile page, privacy page, landing page, layout, error pages and manifest are not part of this model; they contain no logic.
