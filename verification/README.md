# VisionSafe 360 session, access and localisation core in Dafny

VisionSafe 360 is an industrial safety dashboard. Apart from its screens of
mock data, it has a small core of real logic, and this project models that core:

- **Credential check** of the login screen. Three fixed username/password
  pairs each resolve to a display name and a role. Anything else gets a
  fixed error message. The username is compared after lowercasing; the
  password is compared exactly.
- **Session of the application shell.** It is signed out or signed in, with
  a current user and a current page. Three role flags decide which of the
  nine pages the sidebar offers. The page dispatch mounts one screen per
  page. A header button toggles the language between English and Arabic.
- **Localisation resolver.** There are two static translation tables.
  `t(key)` returns the table's text or falls back to the key itself. The
  text direction is derived from the language, which starts as Arabic.
- **Enumerations** `UserRole`, `Page`, `Severity` and `Status`. The
  screens lowercase these values to build translation keys. Roles and
  pages also have their spaces removed.

Modules, in dependency order:

| module | file | contents |
|---|---|---|
| `Wrappers` | wrappers.dfy | `Option` (with `OrElse`) and `Result` |
| `Text` | text.dfy | ASCII `ToLower`, `RemoveSpaces`, `NormalizeKey` and their laws |
| `Types` | types.dfy | `Role`, `Page`, `Severity`, `Status`, their string values and keys |
| `Localization` | localization.dfy | `Language`, `Dir`, the two tables, `T` |
| `Labels` | labels.dfy | page titles, role captions, severity and status badges |
| `Login` | login.dfy | `Authenticate` and the login form's error/loading state |
| `App` | app.dfy | `AppState`, `HandleLogin`/`HandleLogout`, sidebar, `RenderPage`, `Toggle`, `Step`/`Run` |

Two behaviours of the code that a reader might not expect are modelled as
written:

- Status keys are only lowercased at their call sites
  (components/Alerts.tsx:40, components/Dashboard.tsx:225). So
  "In Investigation" looks up "in investigation" and falls back; it does
  not reach the table's "investigation" entry.
- `handleLogin` (App.tsx:63-67) keeps the current page for every role
  except Data Analyst. Logging out does not reset the page either, so a
  new user can land on a page outside their sidebar.

Each translation table is written as one function per commented block of
the source's object literal (`NavTexts`, `HeaderTexts`, …). Each function
is a `match` on the key string. `Entry` chains the blocks so that a
later block wins, as a duplicated property would in an object literal.
Keeping the table as string patterns leaves any `string` a valid key, so
the fall-back of `t` can be stated for every input.

## Model

| member | source | states |
|---|---|---|
| Login.Authenticate | components/Login.tsx:25-35 | a pair succeeds exactly when some row accepts it (lowercased username equals the row's login, password equal exactly), it then yields that row's user, and otherwise fails with the invalid-credentials error |
| Login.KnownAccounts | components/Login.tsx:26-31 | admin/admin, safety/safety and analyst/analyst yield System Admin/Admin, Alex Morgan/Safety Engineer and Sarah Chen/Data Analyst |
| Login.UsernameCaseInsensitive | components/Login.tsx:25 | replacing the username by its lowercase form never changes the outcome |
| Login.PasswordMatchedExactly | components/Login.tsx:26-31 | a successful password is one of the three lowercase passwords and equals the lowercased username |
| Login.CaseExamples | components/Login.tsx:25-26 | Admin/admin and ADMIN/admin sign in as the administrator; admin/Admin fails |
| Login.MixedPairsFail | components/Login.tsx:26-31 | the login of one row with the password of another row always fails |
| Login.SpacesNeverMatch | components/Login.tsx:25 | nothing is trimmed: any space in either field makes the pair fail |
| Login.PaddedUsernameFails | components/Login.tsx:25 | " admin"/admin fails |
| Login.AccountsTable | components/Login.tsx:26-31 | three rows; each login equals its password, is lowercase and has no space; logins and roles are pairwise distinct |
| Login.BeginSubmit | components/Login.tsx:21-22 | whatever the previous form, a submission starts with no error and loading set |
| Login.ResolveSubmit | components/Login.tsx:26-35 | onLogin receives exactly the authenticated user; on failure the form shows the fixed message and stops loading |
| Login.Submit | components/Login.tsx:19-94 | an empty `required` field (lines 68, 83) or a form whose button is `disabled={loading}` (line 94) submits nothing; otherwise the outcome is the authentication outcome, with a cleared error on success and the fixed message on failure |
| Login.SubmitHasOneOutcome | components/Login.tsx:21-35 | a submission ends with exactly one of: a signed-in user and no error, or the error and no user |
| Text.LowerChar | components/Login.tsx:25 | the result is never upper-case ASCII, non-upper characters are kept, upper ones shift to lower case |
| Text.ToLower | components/Login.tsx:25 | same length, no upper-case ASCII left, every other character kept in place |
| Text.ToLowerIdempotent | components/Login.tsx:25 | lowercasing twice equals lowercasing once |
| Text.ToLowerKeepsSpaces | components/Login.tsx:25 | the lowercase form has a space exactly when the input has one |
| Text.RemoveSpaces | App.tsx:142 | the result has no space, is no longer than the input, and has exactly the input's non-space characters |
| Text.RemoveSpacesAppend | App.tsx:142 | removing spaces distributes over concatenation, so order is kept |
| Text.RemoveSpacesNoSpace | App.tsx:142 | a string without spaces is unchanged |
| Text.NormalizeKey | App.tsx:142 | a normalised key has no spaces and no upper-case ASCII and is no longer than its input |
| Text.NormalizeKeyIdempotent | App.tsx:158 | normalising a key again changes nothing |
| Text.NormalizeOneWord | App.tsx:158 | a value whose lowercase form has no space normalises to that lowercase form |
| Text.NormalizeTwoWords | App.tsx:158 | a two-word value normalises to its lowercase words joined without the space |
| Types.RoleValueInjective | types.ts:5 | the three roles carry three distinct strings |
| Types.RoleKey | App.tsx:142 | a role's key has no space and no upper-case ASCII and is no longer than the role's string |
| Types.RoleKeyOf | types.ts:5 | the roles normalise to "admin", "safetyengineer" and "dataanalyst" |
| Types.RoleKeyInjective | types.ts:5 | normalisation keeps the three roles apart |
| Types.AllPagesEnumerates | types.ts:50-60 | Page has exactly nine members, each listed once |
| Types.PageValueInjective | types.ts:50-60 | the nine page strings are pairwise distinct |
| Types.PageKey | App.tsx:158 | a page's header key has no space and no upper-case ASCII and is no longer than the page's string |
| Types.PageKeyOf | types.ts:50-60 | the header key of every page, including "analytics" for Reports and "systemhealth" for Health |
| Types.ReportsPageKey | types.ts:56 | the Reports page's header key is "analytics", not "reports" |
| Types.PageKeyInjective | types.ts:50-60 | normalisation stays injective on pages |
| Types.SeverityKey | components/Dashboard.tsx:107 | a severity's key is its string lowercased: same length, no upper-case ASCII, a space exactly where the string has one |
| Types.SeverityKeys | types.ts:2 | the severity keys are "high", "medium" and "low" |
| Types.SeverityKeyInjective | types.ts:2 | the three severities lowercase to distinct keys |
| Types.StatusKey | components/Alerts.tsx:40 | a status's key is its string lowercased: same length, no upper-case ASCII, and it has a space exactly when the string has one |
| Types.StatusKeys | types.ts:3 | the lowercased key of every status, with "in investigation" keeping its space |
| Types.InInvestigationKeyHasSpace | types.ts:3 | the In Investigation key contains a space and differs from "investigation" |
| Localization.Dir | contexts/LanguageContext.tsx:182 | the direction is right-to-left exactly for Arabic |
| Localization.DirCodes | contexts/LanguageContext.tsx:182 | the direction is "rtl" exactly for "ar" and "ltr" otherwise |
| Localization.DefaultIsArabicRtl | contexts/LanguageContext.tsx:181 | the language starts as "ar", laid out right to left |
| Localization.NavTexts | contexts/LanguageContext.tsx:10-21 | the navigation labels block (Arabic at lines 94-105): every text it holds for a key is non-empty and differs from the key |
| Localization.NavTextsAgree | contexts/LanguageContext.tsx:94-105 | the Arabic navigation labels block defines exactly the keys of the English one |
| Localization.HeaderTexts | contexts/LanguageContext.tsx:24-28 | the header labels block (Arabic at lines 108-112): every text it holds for a key is non-empty and differs from the key |
| Localization.HeaderTextsAgree | contexts/LanguageContext.tsx:108-112 | the Arabic header labels block defines exactly the keys of the English one |
| Localization.KpiTexts | contexts/LanguageContext.tsx:31-35 | the KPI labels block (Arabic at lines 115-119): every text it holds for a key is non-empty and differs from the key |
| Localization.KpiTextsAgree | contexts/LanguageContext.tsx:115-119 | the Arabic KPI labels block defines exactly the keys of the English one |
| Localization.ErgonomicsTexts | contexts/LanguageContext.tsx:38-43 | the ergonomics labels block (Arabic at lines 122-127): every text it holds for a key is non-empty and differs from the key |
| Localization.ErgonomicsTextsAgree | contexts/LanguageContext.tsx:122-127 | the Arabic ergonomics labels block defines exactly the keys of the English one |
| Localization.HealthTexts | contexts/LanguageContext.tsx:46-51 | the system health labels block (Arabic at lines 130-135): every text it holds for a key is non-empty and differs from the key |
| Localization.HealthTextsAgree | contexts/LanguageContext.tsx:130-135 | the Arabic system health labels block defines exactly the keys of the English one |
| Localization.DashboardTexts | contexts/LanguageContext.tsx:54-64 | the dashboard and shared labels block (Arabic at lines 138-148): every text it holds for a key is non-empty and differs from the key |
| Localization.DashboardTextsAgree | contexts/LanguageContext.tsx:138-148 | the Arabic dashboard and shared labels block defines exactly the keys of the English one |
| Localization.StatusTexts | contexts/LanguageContext.tsx:67-73 | the status labels block (Arabic at lines 151-157): every text it holds for a key is non-empty and differs from the key |
| Localization.StatusTextsAgree | contexts/LanguageContext.tsx:151-157 | the Arabic status labels block defines exactly the keys of the English one |
| Localization.GeneralTexts | contexts/LanguageContext.tsx:76-90 | the general labels block (Arabic at lines 160-174): every text it holds for a key is non-empty and differs from the key |
| Localization.GeneralTextsAgree | contexts/LanguageContext.tsx:160-174 | the Arabic general labels block defines exactly the keys of the English one |
| Localization.SameKeySet | contexts/LanguageContext.tsx:8-175 | the English and Arabic tables define the same keys |
| Localization.Entry | contexts/LanguageContext.tsx:8-175 | every text either table holds for a key is non-empty and differs from the key |
| Localization.T | contexts/LanguageContext.tsx:184-187 | a key with an entry yields that entry, which is not the key; a key without one yields the key |
| Localization.FallbackExactlyOnAbsentKeys | contexts/LanguageContext.tsx:184-187 | the lookup returns the key itself exactly when the key has no entry |
| Localization.FallbackAgreesAcrossLanguages | contexts/LanguageContext.tsx:184-187 | a key falls back in English exactly when it falls back in Arabic |
| Localization.AlertsLabel | contexts/LanguageContext.tsx:12 | "alerts" reads "Alerts" in English and "التنبيهات" in Arabic |
| Localization.Lookup | contexts/LanguageContext.tsx:184-187 | in either language, `t` returns the key exactly when the English table lacks it, and otherwise that language's entry |
| Localization.FallbackWithoutEnglishEntry | contexts/LanguageContext.tsx:184-187 | a key missing from the English table resolves to itself in both languages |
| Localization.AbsentKeysFallBack | contexts/LanguageContext.tsx:186 | "dashboard", "dismissed" and "high" resolve to themselves in both languages |
| Localization.RoleLabelKeysPresent | contexts/LanguageContext.tsx:80-82 | "admin", "safetyengineer" and "dataanalyst" have entries in both tables |
| Labels.EntryInBothLanguages | contexts/LanguageContext.tsx:8-175 | whether a key is found does not depend on the language |
| Labels.PageTitle | App.tsx:158 | a header title shows its raw key exactly for Dashboard, Live Monitoring and System Health |
| Labels.ReportsTitleIsAnalyticsHeading | App.tsx:158 | the Reports header is the "analytics" text ("Data & Reports"), not the "reports" text |
| Labels.RoleCaption | App.tsx:142 | a role caption is always a translation, never the raw key |
| Labels.EnglishRoleCaptions | App.tsx:142 | the English captions are "System Admin", "Safety Engineer" and "Data Analyst" |
| Labels.SeverityLabel | components/Dashboard.tsx:107 | no severity key is in the tables, so every severity badge shows its raw key |
| Labels.StatusLabel | components/Alerts.tsx:40 | a status badge shows its raw key exactly for Notified, In Investigation and Dismissed |
| App.InitialIsSignedOut | App.tsx:57-59 | the session starts signed out, with no user, on the Dashboard, in right-to-left Arabic |
| App.HandleLogin | App.tsx:63-67 | login stores the user and sets the flag; it moves to Reports for a Data Analyst and otherwise keeps the page and the language |
| App.HandleLogout | App.tsx:69-72 | logout clears the flag and the user and keeps the page and the language |
| App.LogoutIdempotent | App.tsx:69-72 | logging out twice equals logging out once |
| App.TransitionsKeepConsistent | App.tsx:57-72 | both transitions keep "signed in exactly when a user is stored" |
| App.IsAdmin | App.tsx:91 | the flag holds exactly for the Admin role |
| App.IsSafetyEngineer | App.tsx:92 | the flag holds exactly for a Safety Engineer or an administrator |
| App.IsAnalyst | App.tsx:93 | the flag holds exactly for a Data Analyst or an administrator |
| App.Sidebar | App.tsx:91-132 | the sidebar never lists a page twice and always lists Incidents and Ergonomics |
| App.VisiblePages | App.tsx:109-132 | every role sees Incidents and Ergonomics; only Admin sees Users; everyone but a Safety Engineer sees Reports; everyone but a Data Analyst sees the Dashboard |
| App.VisiblePagesByRole | App.tsx:91-132 | Admin sees all nine pages, a Safety Engineer sees Dashboard, Live Monitoring, Alerts, Incidents and Ergonomics, a Data Analyst sees Incidents, Ergonomics and Reports |
| App.AdminSidebarIsAllPages | App.tsx:91-132 | the administrator's sidebar is every page in declaration order |
| App.AdminSeesMost | App.tsx:92-93 | Incidents and Ergonomics are visible to every role, and Admin's set strictly contains each other role's |
| App.RenderPage | App.tsx:74-86 | the Dashboard screen (the one with "view alerts") is mounted exactly for the Dashboard page, and User Management exactly for Users |
| App.RenderPageInjective | App.tsx:74-86 | the page dispatch mounts a different screen for each page |
| App.Render | App.tsx:89-180 | the login screen shows exactly while signed out; otherwise the shell mounts the current page's screen |
| App.ContentIgnoresRole | App.tsx:74-86 | two signed-in states on the same page and language show the same screen and title whoever is signed in |
| App.Toggle | App.tsx:169 | the toggle always changes the language |
| App.ToggleInvolutive | App.tsx:169 | toggling twice is the identity, and each toggle flips the text direction |
| App.Step | App.tsx:89-180 | the login form is offered exactly while signed out and signs in the user the credentials resolve to (or changes nothing); signed in, log-out gives `HandleLogout`, the language button changes only the language, a page can be selected exactly when the sidebar lists it and then only the page changes, and "view alerts" is offered exactly on the Dashboard and moves to Alerts |
| App.Run | App.tsx:63-72 | no actions leave the state unchanged, and a signed-in user stays signed in as the same user through any actions that do not include a log-out |
| App.StepKeepsConsistent | App.tsx:57-72 | every offered action keeps the flag and the user in step |
| App.RunKeepsConsistent | App.tsx:57-72 | every state reached from a consistent one is consistent |
| App.FirstLoginLandsOnVisiblePage | App.tsx:59-67 | the first sign-in lands on Reports for a Data Analyst and on the Dashboard otherwise, both visible to the role |
| App.NavigationKeepsPageVisible | App.tsx:76-132 | within a session, selecting a page, "view alerts", toggling the language and logging out keep the page visible to the role |
| App.DashboardRolesSeeAlerts | App.tsx:109-113 | every role offered the Dashboard is also offered Alerts |
| App.LoginKeepsStalePage | App.tsx:63-72 | a non-analyst signing in after a logout lands on the page last shown, even one outside their role's sidebar |
| App.StalePageAfterRelogin | App.tsx:63-86 | admin signs in, selects Users, logs out, and then safety signs in: the session ends as Alex Morgan on Users |
| App.StaleStateShowsHiddenPage | App.tsx:74-132 | that final state shows a page the Safety Engineer's sidebar does not offer |
| App.RunFour | App.tsx:89-180 | four offered actions in a row run to the state the last one reaches |

## Left out

- Presentation. This covers JSX, Tailwind classes, icons, charts and the
  sidebar's open/closed flag. The shell's view keeps only the sidebar
  entries, the active page, the header title, the role caption, the
  direction and the mounted screen.
- The one-second `setTimeout` before the credential check. `BeginSubmit`
  and `ResolveSubmit` are the two halves around it. `Submit` runs them
  back to back, because nothing else can change the form in between: the
  button is disabled while loading.
- The login form's error text after a failed attempt. The error stays
  visible on the login screen, but `App.Step` does not carry it: each
  submission starts from `Login.FreshForm`. That loses nothing, because
  `BeginSubmit` discards the old error, and a failed attempt leaves
  `loading` false, as in the fresh form.
- `Text.ToLower`: lowercases ASCII only, not the full Unicode
  `toLowerCase`. Every username the table can accept, and every
  enumeration value, is ASCII.
- `Localization.T`: looks keys up only among the tables' own entries.
  Keys naming inherited JavaScript properties (such as "constructor") are
  not modelled; no call site passes one.
- `window.alert` calls (notifications, configuration buttons), the modal
  flags of the screens, and their mock data arrays.
- `components/Configuration.tsx`. The shell never routes to it.
- The React context plumbing of `useLanguage`. The language is a field of
  `AppState` and is passed to `T` explicitly.
