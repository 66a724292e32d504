# in-plus client logic, modelled in Dafny

in-plus is a job-matching and e-learning site for people with disabilities (PcD,
*pessoa com deficiência*) and partner companies. It is a React front end over a hosted
database and auth service. This project models the small state updates and decisions the
front end makes on top of that service. Each backend call is a parameter: the `{ data, error }`
pair it resolves to (`Common.Response`), an insert's optional error, or an exception flag.
Error codes are kept as strings: `23505` is a unique-constraint violation and `PGRST116` is a
`.single()` lookup that found no row. The pieces are:

- `AccessibilityToolbar`: the floating toolbar. Each mounted toolbar is an object holding
  its own font size and four switches. The font size stays in [80, 200] on a multiple of 20.
  The document's root element is a separate object that every toolbar on the page shares.
  The header mounts one toolbar and several pages mount a second. A mounting toolbar starts
  from its defaults and leaves the root element as it finds it. Because of this, a toolbar's
  state can disagree with the page (see Findings).
- `Cadastro`: the registration form. The accessibility-resource checklist toggle, the
  guard-ordered submit, and the choice of payload by user type.
- `Auth`: the authentication context. The in-place purge of auth keys from `localStorage`
  and `sessionStorage`, the user-type decision, the auth-change listener, and sign-in,
  sign-up and sign-out. All three end with `loading` false.
- `Membership`: the `Record<string, boolean>` dictionaries of applied jobs and enrolled
  courses. They are built by a loop, merged on success, and read by the card buttons.
- `Vagas`, `Cursos`, `Curso`: the job list, the course catalogue and the single-course page.
- `DashboardEmpresa`, `DashboardPcd`, `Empresas`, `DashboardIndex`: the two dashboards,
  the partner-company list and the role-based dashboard route.

Pages whose handlers update component state are classes. Their methods state the new state in
terms of the old one. The pure parts are functions, and lemmas state their properties.

## Model

| member | source | states |
|---|---|---|
| `Common.FirstCount` | src/pages/Dashboard/DashboardEmpresa.tsx:93 | `agg[0]?.count \|\| 0` is 0 for an empty aggregate and the first count otherwise (a 0 count stays 0) |
| `Common.StatusCount` | src/pages/Dashboard/DashboardEmpresa.tsx:194 | the number of statuses equal to the given one: at most the number of rows, all of them exactly when every row has it, 0 exactly when none does |
| `AccessibilityToolbar.IncreasedSize` | src/components/AccessibilityToolbar.tsx:26-30 | "+" never goes past 200; below 200 it grows by at most 20; at or above 200 it gives 200 |
| `AccessibilityToolbar.DecreasedSize` | src/components/AccessibilityToolbar.tsx:31-35 | "-" never goes below 80; above 80 it shrinks by at most 20; at or below 80 it gives 80 |
| `AccessibilityToolbar.StepKeepsReachable` | src/components/AccessibilityToolbar.tsx:26-39 | increase, decrease and reset each keep the size in [80, 200] and a multiple of 20 |
| `AccessibilityToolbar.RunKeepsReachable` | src/components/AccessibilityToolbar.tsx:19-39 | from the initial 100, any sequence of increase/decrease/reset stays in [80, 200] on a multiple of 20 |
| `AccessibilityToolbar.DisabledIffNoOp` | src/components/AccessibilityToolbar.tsx:146-162 | each font button is disabled exactly at the size where pressing it would change nothing |
| `AccessibilityToolbar.IncreaseDecreaseInverse` | src/components/AccessibilityToolbar.tsx:26-35 | increase then decrease restores a size below 200; decrease then increase restores a size above 80 |
| `AccessibilityToolbar.ContrastButtonText` | src/components/AccessibilityToolbar.tsx:135 | "Desativar Alto Contraste" exactly when the toolbar's flag is on, "Ativar Alto Contraste" exactly when it is off |
| `AccessibilityToolbar.Toolbar.constructor` | src/components/AccessibilityToolbar.tsx:17-21 | panel closed; contrast, reader and Libras off; size 100; the shared root element's class and font size are left as they were |
| `AccessibilityToolbar.Toolbar.IncreaseFontSize` | src/components/AccessibilityToolbar.tsx:26-30 | the toolbar's size becomes the increased size of its own old size, and the root's font size is written with that value; the root's class and the switches are unchanged; the size stays reachable |
| `AccessibilityToolbar.Toolbar.DecreaseFontSize` | src/components/AccessibilityToolbar.tsx:31-35 | the same as increase, with the decreased size |
| `AccessibilityToolbar.Toolbar.ResetFontSize` | src/components/AccessibilityToolbar.tsx:36-39 | the size and the root's font size become 100 whatever they were; the root's class and the switches are unchanged |
| `AccessibilityToolbar.Toolbar.ToggleContrast` | src/components/AccessibilityToolbar.tsx:22-25 | flips the toolbar's flag, and separately flips the root's class from its own old value; font sizes and the other switches are unchanged |
| `AccessibilityToolbar.Toolbar.ToggleTextReader` | src/components/AccessibilityToolbar.tsx:40-48 | flips only the reader flag; the alert announces activation if it was off and deactivation if it was on |
| `AccessibilityToolbar.Toolbar.ToggleLibras` | src/components/AccessibilityToolbar.tsx:68-77 | flips only the Libras flag; the alert says which way it went |
| `AccessibilityToolbar.Toolbar.TogglePanel` | src/components/AccessibilityToolbar.tsx:83 | flips only the panel flag |
| `AccessibilityToolbar.SiblingContrastDesync` | src/components/AccessibilityToolbar.tsx:17-25 | the header's and the page's toolbars over one root, with contrast pressed on the page's and then on the header's: the header's button reads "Desativar Alto Contraste" while the page has no high-contrast class |
| `AccessibilityToolbar.RemountFontDesync` | src/components/AccessibilityToolbar.tsx:19-35 | "+" pressed twice, then a new toolbar mounts over the same root: its "-" takes the page from 140% to 80% |
| `AccessibilityToolbar.SharedToolbar.ContrastText` | src/components/AccessibilityToolbar.tsx:135 | in the corrected toolbar the label reads "Desativar Alto Contraste" exactly when the page has the class |
| `AccessibilityToolbar.SharedToolbar.IncreaseFontSize` | src/components/AccessibilityToolbar.tsx:26-30 | corrected: the root's size becomes the increased size of the size actually applied (100 if none was written); the class is unchanged |
| `AccessibilityToolbar.SharedToolbar.DecreaseFontSize` | src/components/AccessibilityToolbar.tsx:31-35 | corrected: the root's size becomes the decreased size of the size actually applied; the class is unchanged |
| `AccessibilityToolbar.SharedToolbar.ToggleContrast` | src/components/AccessibilityToolbar.tsx:22-25 | corrected: flips the root's class, which is the only contrast state; the font size is unchanged |
| `AccessibilityToolbar.SiblingContrastAgrees` | src/components/AccessibilityToolbar.tsx:17-25 | the same two presses on corrected toolbars leave the header's button reading "Ativar Alto Contraste" with the class off |
| `AccessibilityToolbar.RemountFontAgrees` | src/components/AccessibilityToolbar.tsx:19-35 | the same presses and remount on corrected toolbars: "-" steps from 140% to 120% |
| `Cadastro.RemoveAll` | src/pages/Cadastro.tsx:47-49 | the filtered list lacks the value, keeps every other value that was present, and is no longer |
| `Cadastro.RemoveAllAppend` | src/pages/Cadastro.tsx:47-49 | filtering distributes over concatenation, so the survivors keep their order |
| `Cadastro.RemoveAllAbsent` | src/pages/Cadastro.tsx:47-49 | filtering out an absent value returns the list unchanged |
| `Cadastro.RemoveAllCounts` | src/pages/Cadastro.tsx:46-49 | every occurrence of the value is removed and every other value keeps its count |
| `Cadastro.RemoveAllDistinct` | src/pages/Cadastro.tsx:47-49 | filtering a list without duplicates gives a list without duplicates |
| `Cadastro.ToggleResource` | src/pages/Cadastro.tsx:45-53 | a present resource is removed everywhere and the others stay; an absent one is appended at the end |
| `Cadastro.ToggleTwiceRestores` | src/pages/Cadastro.tsx:45-53 | toggling an absent resource twice gives back exactly the original list |
| `Cadastro.ToggleRemovesOnlyIt` | src/pages/Cadastro.tsx:46-49 | unchecking a resource leaves it with zero occurrences and every other resource with its count |
| `Cadastro.ToggleKeepsDistinct` | src/pages/Cadastro.tsx:45-53 | a checklist without duplicates stays without duplicates after any toggle |
| `Cadastro.RegistrationForm.constructor` | src/pages/Cadastro.tsx:24-43 | every field starts empty, terms unaccepted, no resources |
| `Cadastro.RegistrationForm.HandleRecursoChange` | src/pages/Cadastro.tsx:45-53 | the checklist field becomes the toggled list |
| `Cadastro.RegistrationForm.Payload` | src/pages/Cadastro.tsx:70-88 | PcD fields only when the user type is `pcd`; any other value, null included, gives the company fields; both carry the user type |
| `Cadastro.RegistrationForm.HandleSubmit` | src/pages/Cadastro.tsx:55-92 | an empty email or password stops first; then unaccepted terms stop; only a form passing both calls `signUp` once, with the entered email and password and the payload |
| `Auth.Purged` | src/context/AuthContext.tsx:36-47 | after the purge no key starts with `supabase.auth.` or contains `sb-`; every other key keeps its value; no key is added |
| `Auth.PurgedIdempotent` | src/context/AuthContext.tsx:31-48 | purging twice leaves the same storage as purging once |
| `Auth.WebStorage.RemoveItem` | src/context/AuthContext.tsx:38 | `removeItem` drops exactly that key |
| `Auth.PurgeAuthKeys` | src/context/AuthContext.tsx:36-40 | the `forEach` over the storage's keys leaves it equal to the purged storage |
| `Auth.UserTypeFor` | src/context/AuthContext.tsx:86-106 | `empresa` exactly when the company lookup returned a row; `pcd` when it returned none, an error, or threw |
| `Auth.DisplayName` | src/context/AuthContext.tsx:158 | `nome_completo` if present and non-empty, else `razao_social` if so, else the email |
| `Auth.SignUpWrite` | src/context/AuthContext.tsx:167-196 | a company insert exactly when the user type is `empresa`, with the company fields; every other value updates the profile row with the PcD fields |
| `Auth.ErrorToast` | src/context/AuthContext.tsx:133 | the error's message when non-empty, else the fixed fallback text |
| `Auth.RegistrationDisplayName` | src/context/AuthContext.tsx:158 | for registration payloads the name is the person's (PcD) or the company's name when filled in, else the email |
| `Auth.NullTypeRegistrationUpdatesEmptyProfile` | src/context/AuthContext.tsx:168-196 | a registration with null user type carries company fields but takes the profile branch, with no PcD field present |
| `Auth.AuthProvider.constructor` | src/context/AuthContext.tsx:24-27 | no session, user or user type; loading true |
| `Auth.AuthProvider.CleanupAuthState` | src/context/AuthContext.tsx:31-48 | after removing the token key and both loops, each storage equals its purged form |
| `Auth.AuthProvider.OnAuthStateChange` | src/context/AuthContext.tsx:54-68 | records the session; with no session user both user and user type become null; otherwise the user is set and a type check is deferred for its id |
| `Auth.AuthProvider.OnInitialSession` | src/context/AuthContext.tsx:71-79 | records the existing session and its user, starts a type check when there is one, and ends loading |
| `Auth.AuthProvider.CheckUserType` | src/context/AuthContext.tsx:86-106 | the user type becomes `UserTypeFor` of the lookup; nothing else changes |
| `Auth.AuthProvider.SetUserType` | src/context/AuthContext.tsx:26 | the exposed setter changes only the user type |
| `Auth.AuthProvider.SignIn` | src/context/AuthContext.tsx:108-138 | purges both storages; a returned error gives the error toast, success navigates to `/` when a user came back; loading ends false |
| `Auth.AuthProvider.SignUp` | src/context/AuthContext.tsx:140-207 | purges both storages; sends the fallback display name and the user type; writes the type's row only after an error-free sign-up that returned a user; a write error is reported; success goes to `/dashboard`; loading ends false |
| `Auth.AuthProvider.SignOut` | src/context/AuthContext.tsx:209-226 | purges both storages; a thrown sign-out gives "Erro ao fazer logout", otherwise navigation to `/login`; loading ends false |
| `Membership.MarkAll` | src/pages/Vagas.tsx:71-74 | the loop marks exactly the ids of the rows, each with `true` |
| `Membership.WithMark` | src/pages/Vagas.tsx:110 | the merge marks the id and keeps every other entry as it was |
| `Membership.WithMarkIdempotent` | src/pages/Vagas.tsx:110 | merging the same id twice equals merging it once |
| `Membership.MarkButton` | src/pages/Vagas.tsx:232-241 | a card's button is disabled exactly when its id is marked; a marked card shows the done text and an unmarked one the action text. Jobs use "Candidatura Enviada" and "Candidatar-se"; courses (src/pages/Cursos.tsx:174-181) use "Inscrito" and "Inscrever-se" |
| `Membership.InsertOutcomeOf` | src/pages/Vagas.tsx:102-112 | no error is success; code `23505` is a duplicate; any other code is a failure |
| `Membership.AfterInsert` | src/pages/Vagas.tsx:102-112 | success marks the id and keeps every other mark; a duplicate or any other error leaves the dictionary unchanged |
| `Membership.ApplyTwiceSameAsOnce` | src/pages/Vagas.tsx:96-112 | a second application to the same job, accepted or rejected, leaves the dictionary as the first one did |
| `Vagas.VagaIds` | src/pages/Vagas.tsx:72-74 | the job id of each application row, in order |
| `Vagas.JobBadgeColor` | src/pages/Vagas.tsx:119-132 | the four named resources get blue, green, purple and yellow; everything else, and only that, is gray |
| `Vagas.JobsPage.constructor` | src/pages/Vagas.tsx:36-38 | no jobs, loading, an empty dictionary |
| `Vagas.JobsPage.FetchVagas` | src/pages/Vagas.tsx:42-87 | jobs become `data \|\| []`; for a logged-in user the dictionary marks exactly the applied job ids; a failed query keeps the old values; loading ends false |
| `Vagas.JobsPage.HandleCandidatura` | src/pages/Vagas.tsx:89-117 | no user means no insert and a login redirect; otherwise the dictionary becomes `AfterInsert` of the insert's error |
| `Vagas.LoadWithoutUser` | src/pages/Vagas.tsx:36-87 | with no logged-in user the dictionary stays at its initial empty value after loading |
| `Cursos.CursoIds` | src/pages/Cursos.tsx:52-54 | the course id of each enrolment row, in order |
| `Cursos.CourseBadgeColor` | src/pages/Cursos.tsx:104-119 | the five named resources get blue, green, purple, yellow and orange; everything else, and only that, is gray. src/pages/Curso.tsx:121-136 has the same switch |
| `Cursos.CoursesPage.constructor` | src/pages/Cursos.tsx:25-27 | no courses, loading, an empty dictionary |
| `Cursos.CoursesPage.FetchCursos` | src/pages/Cursos.tsx:31-67 | courses become `data \|\| []`; for a logged-in user the dictionary marks exactly the enrolled course ids; a failed query keeps the old values; loading ends false |
| `Cursos.CoursesPage.HandleInscricao` | src/pages/Cursos.tsx:69-98 | no user means no insert and a login redirect; otherwise the dictionary becomes `AfterInsert` of the insert's error |
| `Curso.PanelFor` | src/pages/Curso.tsx:234-290 | the enrol prompt exactly when there is no enrolment; a concluded enrolment gives a disabled "Concluído"; otherwise an enabled "Continuar Curso" when progress > 0 and "Iniciar Curso" when not |
| `Curso.CoursePage.constructor` | src/pages/Curso.tsx:35-37 | no course, no enrolment, loading |
| `Curso.CoursePage.FetchCurso` | src/pages/Curso.tsx:41-80 | no id changes nothing; a course error redirects to `/cursos`; a `PGRST116` lookup is not an error and stores the (null) data; any other lookup error redirects; loading otherwise ends false |
| `Curso.CoursePage.HandleInscricao` | src/pages/Curso.tsx:82-115 | no user means a login redirect; no course means nothing; success stores the returned enrolment; `23505` or any other error leaves it unchanged |
| `DashboardEmpresa.ProcessJob` | src/pages/Dashboard/DashboardEmpresa.tsx:91-94 | keeps the job's fields and sets its count to the first aggregate's count, or 0 |
| `DashboardEmpresa.ProcessJobs` | src/pages/Dashboard/DashboardEmpresa.tsx:91-94 | one processed job per row, same number and order |
| `DashboardEmpresa.TotalApplications` | src/pages/Dashboard/DashboardEmpresa.tsx:99 | 0 for no jobs, and never below any single job's count |
| `DashboardEmpresa.TotalApplicationsAppend` | src/pages/Dashboard/DashboardEmpresa.tsx:99 | the total of a concatenation is the sum of the totals |
| `DashboardEmpresa.ActiveCount` | src/pages/Dashboard/DashboardEmpresa.tsx:194 | at most the number of jobs; equal to it exactly when every job is `ativa`; 0 exactly when none is |
| `DashboardEmpresa.StatusBadge` | src/pages/Dashboard/DashboardEmpresa.tsx:263-267 | "Ativa" in green exactly for status `ativa`, else "Inativa" in gray |
| `DashboardEmpresa.NewJobRequest` | src/pages/Dashboard/DashboardEmpresa.tsx:112-135 | no company stops first; then an empty title or description stops; only then an insert carrying the company id and every dialog field |
| `DashboardEmpresa.DefaultResourcesReachInsert` | src/pages/Dashboard/DashboardEmpresa.tsx:42-50 | a job created from a fresh dialog is inserted with the resources `['Ambiente Acessível']` |
| `DashboardEmpresa.ScreenFor` | src/pages/Dashboard/DashboardEmpresa.tsx:150-174 | the loading text while loading, the complete-registration prompt without a company, the dashboard otherwise |
| `DashboardEmpresa.CompanyDashboard.constructor` | src/pages/Dashboard/DashboardEmpresa.tsx:37-50 | no jobs, no company, total 0, loading, dialog closed, the fresh dialog |
| `DashboardEmpresa.CompanyDashboard.FetchDados` | src/pages/Dashboard/DashboardEmpresa.tsx:53-110 | no user changes nothing; a company error leaves the company unset; success sets the company, then the processed jobs and their total; loading otherwise ends false; the total always matches the jobs |
| `DashboardEmpresa.CompanyDashboard.HandleNovaVaga` | src/pages/Dashboard/DashboardEmpresa.tsx:112-148 | decides with `NewJobRequest`; closes the dialog and reloads only after a successful insert |
| `DashboardEmpresa.MissingCompanyPrompt` | src/pages/Dashboard/DashboardEmpresa.tsx:59-73 | a `PGRST116` company lookup ends on the complete-registration prompt, not on an error |
| `DashboardPcd.CompletedCount` | src/pages/Dashboard/DashboardPCD.tsx:170 | at most the number of enrolments; 0 exactly when none is `concluido`; all exactly when all are |
| `DashboardPcd.ApplicationBadge` | src/pages/Dashboard/DashboardPCD.tsx:250-257 | `aceita` gives green "Aceita"; `rejeitada` gives red "Rejeitada"; every other status, and only those, gives blue "Em análise" |
| `DashboardPcd.EnrolmentBadge` | src/pages/Dashboard/DashboardPCD.tsx:207-211 | "Concluído" in green exactly for `concluido`, else "Em andamento" in blue |
| `DashboardPcd.Load` | src/pages/Dashboard/DashboardPCD.tsx:46-113 | no user changes nothing; a `PGRST116` profile is not an error; any other error keeps the empty lists; otherwise a missing profile becomes `{}` and null lists become empty |
| `DashboardPcd.Greeting` | src/pages/Dashboard/DashboardPCD.tsx:133 | the profile's name when present and non-empty, else the user's email |
| `DashboardPcd.MissingProfileGreetsByEmail` | src/pages/Dashboard/DashboardPCD.tsx:52-101 | a user without a profile row is greeted by email |
| `Empresas.ProcessCompany` | src/pages/Empresas.tsx:36-39 | keeps the company's fields and sets `vagas_count` to the first aggregate's count, or 0 |
| `Empresas.ProcessRows` | src/pages/Empresas.tsx:36-38 | one processed company per row, same number and order |
| `Empresas.ProcessCompanies` | src/pages/Empresas.tsx:36-39 | null data gives the empty list; otherwise the processed rows |
| `Empresas.Load` | src/pages/Empresas.tsx:22-46 | a failed query leaves the initial empty list |
| `Empresas.OpeningsPhrase` | src/pages/Empresas.tsx:97 | "vaga disponível" exactly for a count of 1; "vagas disponíveis" for 0 and for 2 or more |
| `Empresas.PorteLabel` | src/pages/Empresas.tsx:86 | the size when present and non-empty, else "Não informado" |
| `Empresas.EmptyStateIffNoRows` | src/pages/Empresas.tsx:106-112 | the empty-state block shows exactly when the query failed or returned no rows |
| `DashboardIndex.DashboardFor` | src/pages/Dashboard/Index.tsx:8-20 | the placeholder while loading whatever the user; a login redirect without a user; the company dashboard exactly for `empresa`; the PcD dashboard for `pcd` or null |

## Left out

- Backend calls are not modelled. Each call is replaced by the answer it gives, passed as a parameter. Row ordering, `limit(5)` and the `status = 'ativa'` filter are done by the backend.
- Toasts, `console` output, `navigate` and `window.location.reload` are left out. They appear only as returned values where a property needs them: login redirects, the `/cursos` redirect, the auth outcomes, the reload flag and the toolbar's alert texts.
- The text reader's click listener and `speechSynthesis` are left out (src/components/AccessibilityToolbar.tsx:49-66). They are browser APIs.
- Button variants (`outline` or `default`) and layout are left out. Only a button's text and its disabled state are modelled.
- The race between the auth listener, the deferred `setTimeout` type check and `getSession` is left out. Each is a separate method and the model does not interleave them.
- The global sign-out inside `signIn` and `signUp` is left out. Its failure is swallowed, so it cannot change the outcome.
- The loading screens shared with the auth context (`loading || authLoading`) are left out. So are the "course not found" screen and the locale date formatting.
- `Common.FirstCount`: the aggregate is a sequence of natural-number counts, so a missing `count` field or a null aggregate array is not represented.
- `Auth.AuthProvider.SignOut`: a returned (not thrown) sign-out error is ignored, as in the code. The user is reset only when the listener later receives a null session.
- `DashboardEmpresa.TotalApplications`: the sum is taken from the front rather than with a left `reduce`. Addition is associative with 0 as its identity, so the value is the same.
- `Curso.Enrolment`: `progresso` is an integer, but the column may be null or fractional. A null progress behaves like 0 for the button (`null > 0` is false). A fractional one is not represented.
- src/integrations/supabase/types.ts is not part of this model. The row shapes are written directly as datatypes.

## Findings

| source | as written | input that shows it | evidently intended | confidence | as-written member | corrected member |
|---|---|---|---|---|---|---|
| src/components/AccessibilityToolbar.tsx:18-25 | each mounted toolbar keeps its own contrast flag and toggles the shared root's class without looking at it | on a page with the header's toolbar and its own, press contrast on the page's toolbar and then on the header's | the button's label agrees with whether the page is in high contrast | high, not executed | `AccessibilityToolbar.SiblingContrastDesync` | `AccessibilityToolbar.SiblingContrastAgrees` |
| src/components/AccessibilityToolbar.tsx:19-35 | each mounted toolbar starts at 100% and steps from its own size, not from the size the page has | press "+" twice (140%), then change route so that a new toolbar mounts, then press "-" | "-" steps down one notch from the size the page shows | high, not executed | `AccessibilityToolbar.RemountFontDesync` | `AccessibilityToolbar.RemountFontAgrees` |
