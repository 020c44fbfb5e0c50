# Task manager client: session, guard and task-list logic in Dafny

This project models the logic of a small Next.js client for a task-management
API. The client registers and logs in users and keeps a bearer token in
browser storage. It protects its pages behind a route guard and shows a list
of tasks that can be toggled and deleted. The parts modelled are:

- **Session store** (`AuthContext`). A class holding the published
  `AuthState` record, the storage map (`localStorage`) and a ghost log of the
  arguments handed to `setAuthHeader`. Its methods are the transitions
  `resolveAuthState`, `handleAuth`, `login`, `register`, `logout`, the
  mount-time `checkAuthStatus` and the `auth:unauthorized` listener. Its
  invariant `Valid` says three things:
  - a loading state is the initial state;
  - every later state is `Settled`: the flag mirrors a valid token, and the
    placeholder user is present exactly when authenticated;
  - `setAuthHeader` only ever receives validated tokens, the last of them
    being the published one.
- **Route guard** (`AuthGuard`). A function choosing spinner, children or
  nothing, and whether `/login` is pushed.
- **HTTP client** (`Axios`). The base-URL fallback and the request
  interceptor. The interceptor is a method that sets the `Authorization`
  header on the configuration object it is given and returns that same
  object.
- **Task list view** (`TaskListPage`). The comparator and the display order,
  the toggle `map`, the delete `filter` and the render priority. A class holds
  `tasks`, `loadingTasks` and `error`, with the fetch, toggle and delete
  handlers.
- **Form views** (`LoginPage`, `RegisterPage`, `NewTaskPage`, with
  `FormViews` and `Messages`). The error line each form builds from a rejected
  request. Each form is a class with `formData`, `error` and `loading`, and
  methods for `handleChange` and the two halves of `handleSubmit`.

Network results, `window.confirm` and the environment value of the API URL are
parameters. `router.push` is a returned redirect target. `Seqs` holds the
order-preserving `Filter` that `Array.prototype.filter` and the display
partition use.

The browser's stable `Array.prototype.sort`, called with a comparator that
returns 0 on ties, is modelled by its result:
- the incomplete tasks, then the completed ones, each group in input order
  (`SortForDisplay`);
- `StableSortIsUnique` proves that any sorted, stable rearrangement is exactly
  this list.

Handlers that set `loading` (or `loadingTasks`) and then await a request are
split at the await. The first half (`Submit`, `StartFetch`) is what the user
sees while the request is in flight. The second half (`Settle`, `FinishFetch`)
takes the settled outcome.

Two behaviours of the code are worth knowing:
- The request interceptor tests truthiness only (lib/axios.ts:20). A stored
  `"undefined"` is therefore sent as `Bearer undefined`, although the session
  store (context/AuthContext.tsx:36) treats it as no token
  (`Axios.StoredUndefinedIsStillSent`).
- Toggling is not optimistic. The list changes only after `updateTask`
  resolves (app/tasks/page.tsx:48-59), and a failed toggle leaves it untouched.

## Model

| member | source | states |
|---|---|---|
| `AuthContext.ValidToken` | context/AuthContext.tsx:36 | the validated token is present exactly for a non-empty string other than "undefined", and is then the input token |
| `AuthContext.ResolvedState` | context/AuthContext.tsx:35-43 | the published record satisfies the settled-state invariant and carries the validated token |
| `AuthContext.SettledDeterminedByToken` | context/AuthContext.tsx:38-43 | two settled states with the same token are equal: flag, user and loading all follow from the token |
| `AuthContext.ResolvedStateAuthenticates` | context/AuthContext.tsx:36-43 | resolution authenticates exactly the valid tokens, sets the placeholder user exactly then, and null, "" and "undefined" all resolve like null |
| `AuthContext.PersistToken` | context/AuthContext.tsx:49-58 | the token key holds a value exactly for a valid token, then exactly that token; every other storage key is untouched |
| `AuthContext.PersistedTokenIsValid` | context/AuthContext.tsx:48-56 | handleAuth never leaves "" or "undefined" under the token key |
| `AuthContext.SessionStore.constructor` | context/AuthContext.tsx:16-32 | the provider starts loading, signed out, with null user and token, over the persisted storage, before any setAuthHeader call |
| `AuthContext.SessionStore.ResolveAuthState` | context/AuthContext.tsx:35-46 | publishes the resolved state, leaves storage alone, and passes the validated (never the raw) token to setAuthHeader; keeps the store invariant |
| `AuthContext.SessionStore.HandleAuth` | context/AuthContext.tsx:49-58 | a valid token is stored and published as authenticated; anything else clears the key and publishes signed-out |
| `AuthContext.SessionStore.Login` | context/AuthContext.tsx:62 | login is handleAuth on the token; the user argument has no effect |
| `AuthContext.SessionStore.Register` | context/AuthContext.tsx:64 | register is handleAuth on the token; the user argument has no effect |
| `AuthContext.SessionStore.Logout` | context/AuthContext.tsx:66-73 | removes the token key only and publishes the signed-out, non-loading state |
| `AuthContext.SessionStore.CheckAuthStatus` | context/AuthContext.tsx:78-87 | the mount check resolves the persisted value through the same validity check, leaving storage as it is |
| `AuthContext.SessionStore.OnUnauthorized` | context/AuthContext.tsx:91-93 | an unauthorized event has exactly the effect of logout |
| `AuthContext.LogoutTwiceIsLogoutOnce` | context/AuthContext.tsx:66-73 | logging out twice gives the same state and storage as logging out once |
| `AuthContext.LoginMatchesRegister` | context/AuthContext.tsx:62-64 | login and register from equal stores reach equal stores, whatever users they get |
| `AuthContext.MountWithStoredUndefined` | context/AuthContext.tsx:78-86 | a stored "undefined" restores to signed-out, not loading, with no token |
| `AuthGuard.Guard` | components/AuthGuard.tsx:18-48 | spinner exactly while loading; children exactly when loaded and authenticated; redirect to /login exactly when loaded, signed out and no truthy stored token, and then nothing is rendered |
| `AuthGuard.LoadingNeverRedirects` | components/AuthGuard.tsx:24-38 | before the session check ends the guard shows the spinner and never redirects, whatever storage holds |
| `AuthGuard.RestoredSessionShowsContent` | components/AuthGuard.tsx:42-44 | a valid persisted token restores a session whose content renders with no redirect |
| `AuthGuard.LogoutRedirectsToLogin` | components/AuthGuard.tsx:24-26 | after a logout the protected page renders nothing and redirects to /login |
| `AuthGuard.StoredUndefinedBlanksPage` | components/AuthGuard.tsx:18-48 | with "undefined" stored, the restored page renders nothing and never redirects |
| `AuthGuard.GuardFor` | components/AuthGuard.tsx:13-24 | the guard over a session and the storage read: it redirects exactly when loaded, signed out and the token key is absent or empty |
| `AuthGuard.IntendedGuard` | components/AuthGuard.tsx:46-48 | spinner exactly while loading, children exactly when authenticated, a redirect to /login exactly when loaded and signed out |
| `AuthGuard.IntendedGuardNeverStrands` | components/AuthGuard.tsx:21-48 | the intended guard never renders nothing without redirecting, and agrees with the written guard when storage holds no truthy token |
| `Axios.ApiUrl` | lib/axios.ts:3 | the base URL is the environment value when non-empty, otherwise the local default; never empty |
| `Axios.AuthorizationFor` | lib/axios.ts:17-22 | a header is attached exactly for a truthy stored token, and reads "Bearer " followed by that token |
| `Axios.BearerTokenRecoverable` | lib/axios.ts:21 | the attached header is the bearer prefix followed by exactly the stored token |
| `Axios.RequestConfig.constructor` | lib/axios.ts:14-15 | a request configuration holds the given URL, headers and body |
| `Axios.InterceptRequest` | lib/axios.ts:14-25 | the interceptor returns the same object, changes only its headers, sets Authorization for a truthy token and otherwise leaves the headers as they were |
| `Axios.StoredUndefinedIsStillSent` | lib/axios.ts:20 | a stored "undefined" is sent as "Bearer undefined" although the session store treats it as no token |
| `Axios.HeaderFollowsSessionStorage` | lib/axios.ts:17-22 | after login/register the header carries exactly a valid token and is absent otherwise; after logout no header is attached |
| `Axios.LoginThenRequest` | lib/axios.ts:17-24 | after a login with a valid token the next request carries "Bearer " and that token |
| `Browser.GetItem` | context/AuthContext.tsx:79 | `localStorage.getItem`: a value exactly when the key is stored, and then the stored string |
| `Seqs.Filter` | app/tasks/page.tsx:70 | the filtered list is no longer than the input and every element it keeps satisfies the predicate |
| `TaskListPage.CompareCompletion` | app/tasks/page.tsx:25 | the comparator is 0 for equal completion, -1 for incomplete before completed, 1 for the reverse |
| `TaskListPage.ComparatorIsConsistent` | app/tasks/page.tsx:25 | the comparator is reflexive, sign-antisymmetric and transitive, as the library sort requires |
| `TaskListPage.SortForDisplay` | app/tasks/page.tsx:25 | the display order is a permutation of the list, with every incomplete task before every completed one; SortForDisplayIsStableSort and StableSortIsUnique show it is the stable sort's result |
| `TaskListPage.SortForDisplayIsStableSort` | app/tasks/page.tsx:25 | the display order is sorted by the comparator, keeps each completion group in input order, and is a permutation of the fetched list |
| `TaskListPage.SortedIsPartitioned` | app/tasks/page.tsx:25 | a list sorted by the comparator is all its incomplete tasks followed by all its completed ones |
| `TaskListPage.StableSortIsUnique` | app/tasks/page.tsx:25 | any sorted and stable rearrangement of a list equals the display order |
| `TaskListPage.Toggled` | app/tasks/page.tsx:56 | the callback changes no field but completada, and flips that exactly when the id matches |
| `TaskListPage.ToggleById` | app/tasks/page.tsx:55-57 | the toggled list has the same length, and each task is flipped exactly when its id matches |
| `TaskListPage.ToggleByIdInvolution` | app/tasks/page.tsx:55-57 | toggling the same id twice restores the list; an id no task has changes nothing |
| `TaskListPage.ToggleKeepsOtherFields` | app/tasks/page.tsx:54-57 | toggling changes no field but completada, and changes that only for matching tasks |
| `TaskListPage.WithoutId` | app/tasks/page.tsx:70 | the filtered list is no longer than the input and holds no task with the id; WithoutIdCounts and WithoutIdKeepsOrder give the exact survivors and their order |
| `TaskListPage.WithoutIdCounts` | app/tasks/page.tsx:70 | deleting removes every occurrence of a task with the id and keeps every other task as often as before |
| `TaskListPage.WithoutIdKeepsOrder` | app/tasks/page.tsx:70 | deleting distributes over concatenation, so the survivors keep their order |
| `TaskListPage.ShouldFetch` | app/tasks/page.tsx:38-41 | the list is fetched exactly when the guard as written (and the corrected one) shows the page content: check over and signed in, whatever storage holds |
| `TaskListPage.RenderTaskPage` | app/tasks/page.tsx:76-98 | the session spinner wins, then the list spinner, and the content shows exactly when neither is loading |
| `TaskListPage.TaskList.constructor` | app/tasks/page.tsx:14-16 | the view starts with no tasks, not loading and no error |
| `TaskListPage.TaskList.StartFetch` | app/tasks/page.tsx:19-21 | while the fetch is in flight the list spinner shows, the error is cleared and the tasks are kept |
| `TaskListPage.TaskList.FinishFetch` | app/tasks/page.tsx:22-32 | a fetched list replaces the tasks in display order; a failure keeps them and sets the load error; loading ends on both paths |
| `TaskListPage.TaskList.HandleToggleCompleted` | app/tasks/page.tsx:47-63 | requests the flipped flag with the current title and description; success flips the matching tasks and re-sorts; failure changes no task and sets the update error |
| `TaskListPage.TaskList.HandleDelete` | app/tasks/page.tsx:66-74 | unconfirmed: no request, no change; success removes the id's tasks in order; failure keeps the list and sets the delete error |
| `TaskListPage.FetchScenario` | app/tasks/page.tsx:19-32 | fetching [completed task 1, incomplete task 2] displays task 2 first |
| `Messages.Flatten` | app/register/page.tsx:59 | `Object.values(errors).flat()`: every message of every field is in the result, and nothing else is; FlattenAppend gives the order |
| `Messages.Join` | app/register/page.tsx:59 | joining no messages gives "", one message gives itself |
| `Messages.FlattenAppend` | app/register/page.tsx:59 | flattening the fields distributes over concatenation: field order, then list order |
| `Messages.FlattenEmptyLists` | app/register/page.tsx:57-59 | fields with empty message lists flatten to nothing |
| `Messages.JoinAppend` | app/register/page.tsx:59 | joining two non-empty lists puts exactly one space between their joins |
| `Messages.SplitJoin` | app/register/page.tsx:59 | splitting a joined line of space-free messages gives back the messages |
| `Messages.ValidationMessage` | app/register/page.tsx:48-63 | no response or no body gives the default; with errors the line starts with the prefix; without errors it is the body's non-empty message or the default |
| `Messages.ValidationMessageCases` | app/register/page.tsx:50-62 | errors win over message; a truthy message is used verbatim otherwise; the default covers no response, no body, and no truthy message |
| `Messages.ValidationMessageConcatenates` | app/register/page.tsx:57-59 | the line for fields a then b is the line for a, a space, then b's messages |
| `Messages.EmptyErrorsYieldPrefix` | app/tasks/new/page.tsx:42-44 | an errors object holding no messages yields only the prefix |
| `FormViews.FormHidden` | app/login/page.tsx:54 | on a settled session the form is hidden exactly when a token is held |
| `FormViews.FormVisibility` | app/register/page.tsx:72 | the form is hidden during the session check and for a valid session, and shown after logout |
| `LoginPage.LoginErrorMessage` | app/login/page.tsx:44-45 | "Credenciales incorrectas." exactly for a 401 response; otherwise, or without a response, the connection message |
| `LoginPage.LoginForm.constructor` | app/login/page.tsx:16-21 | the form starts with empty email and password, no error, not loading |
| `LoginPage.LoginForm.HandleChange` | app/login/page.tsx:23-25 | only the named field changes |
| `LoginPage.LoginForm.Submit` | app/login/page.tsx:27-33 | while the request is in flight loading is on, the error is cleared, and the form data is posted unchanged |
| `LoginPage.LoginForm.Settle` | app/login/page.tsx:32-49 | success calls login with the access token and user {0, "Usuario", typed email}, updates the session and redirects to /tasks; failure sets the status message and leaves the session alone; loading ends on both paths |
| `RegisterPage.RegisterErrorMessage` | app/register/page.tsx:48-65 | the registration line is the validation line with no prefix and "Error al registrar. Inténtalo de nuevo." as default; without a response it is that default |
| `RegisterPage.RegisterMessageRoundTrip` | app/register/page.tsx:57-59 | the error line splits back into every field message, in order, when none holds a space |
| `RegisterPage.EmptyErrorsShowNothing` | app/register/page.tsx:57-59 | an errors object holding no messages yields "", so no error line is shown |
| `RegisterPage.RegisterForm.constructor` | app/register/page.tsx:21-28 | the form starts with four empty fields, no error, not loading |
| `RegisterPage.RegisterForm.HandleChange` | app/register/page.tsx:30-32 | only the named field changes |
| `RegisterPage.RegisterForm.Submit` | app/register/page.tsx:34-40 | while the request is in flight loading is on, the error is cleared, and the form data is posted unchanged |
| `RegisterPage.RegisterForm.Settle` | app/register/page.tsx:39-68 | success calls register with the access token and user {0, typed name, typed email}, updates the session and redirects to /tasks; failure sets the validation line and leaves the session alone; loading ends on both paths |
| `NewTaskPage.NewTaskErrorMessage` | app/tasks/new/page.tsx:33-49 | without a response the line is "Error al crear la tarea. Inténtalo de nuevo."; with validation errors it starts with "Error de validación: " |
| `NewTaskPage.NewTaskMessageExtendsRegister` | app/tasks/new/page.tsx:36-47 | with validation errors the line is "Error de validación: " followed by the registration form's line; a truthy message is shown verbatim by both |
| `NewTaskPage.NewTaskForm.constructor` | app/tasks/new/page.tsx:14-19 | the form starts with empty title and description, no error, not loading |
| `NewTaskPage.NewTaskForm.HandleChange` | app/tasks/new/page.tsx:21-23 | only the named field changes |
| `NewTaskPage.NewTaskForm.Submit` | app/tasks/new/page.tsx:25-31 | while the request is in flight loading is on, the error is cleared, and createTask receives the form data unchanged |
| `NewTaskPage.NewTaskForm.Settle` | app/tasks/new/page.tsx:30-52 | success redirects to /tasks; failure sets the validation line; loading ends on both paths |

## Findings

| source | as written | input that shows it | evidently intended | confidence | as-written member | corrected member |
|---|---|---|---|---|---|---|
| components/AuthGuard.tsx:24 | no redirect while storage holds any truthy token, even one the session store rejected | storage `{jwt_token: "undefined"}` at mount: the session is signed out and not loading, but the guard renders nothing and never redirects | the comment at lines 46-47: a loaded, signed-out session has already been sent to /login | medium, not executed | `AuthGuard.StoredUndefinedBlanksPage` | `AuthGuard.IntendedGuardNeverStrands` |

## Left out

- Network I/O: `services/taskService.ts` and the axios calls are not modelled. Each request's settled outcome (the unwrapped value, or a rejection with an optional response) is a parameter of the handler that awaits it.
- `AuthContext.SessionStore.ResolveAuthState`: lib/axios.ts as modelled exports only `api` and defines no `setAuthHeader`, so the import at context/AuthContext.tsx:5 has no definition here. The model assumes a `setAuthHeader` that exists and returns normally, and records only its arguments in the ghost log `authHeaderLog`. If that call threw, `login` would throw inside the login form's `try`, which would then show the connection message and skip the push to /tasks; the model does not capture that path.
- lib/axios.ts as modelled installs only a request interceptor. Nothing in it clears the token or dispatches `auth:unauthorized` on a 401, although the comment at app/tasks/page.tsx:27 says it does. Only the session store's listener (`OnUnauthorized`) is modelled.
- React hook mechanics are left out: state batching, effect dependencies, listener registration and removal. The `isMounted` flag of the mount check is taken as true. Each handler half runs as one atomic step, and interleavings of concurrent handlers are not modelled.
- `TaskListPage.TaskList.HandleDelete`: the source filters the `tasks` captured by the render, not the latest state. In the atomic model these are the same list, so a stale capture is not represented.
- `TaskListPage.TaskList.HandleToggleCompleted`: the request's id is the task's integer id, not the `String(task.id)` the source sends.
- `null` and `undefined` tokens are one value (`None`). The `typeof token === 'string'` test is implied by the type.
- Validation bodies: `errors` values are taken to be string arrays. A body that is not an object reads as having neither `errors` nor `message`.
- `formData` is a string map. A `handleChange` with an unknown field name adds that key, as the object spread in the source does.
- JSX markup, CSS, icons and `app/layout.tsx` are presentation. The task edit page `app/tasks/[id]/page.tsx` is not part of this model.
- Task timestamps are opaque strings carried unchanged.
