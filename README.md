# Contacts client: a verified model of its client-side logic

This project models the client-side logic of an Android contacts app that
lists, shows, creates, edits and deletes `User` records through a REST API.
The app's own logic is small and sequential:

- `UserRepository` turns each HTTP outcome into a `Result`, with fixed failure messages.
- `UserViewModel` holds five observable fields (`users`, `selectedUser`,
  `isLoading`, `error`, `successMessage`). Each operation updates them in sequence.
- The form screen validates and filters its fields, then builds the `User` it submits.
- The list screen filters contacts by a search query, groups them under their
  upper-cased initial letter in ascending order, and chooses what to show.
- The detail screen chooses its body and opens and closes the delete dialog.
- The navigation table builds routes from templates.

Modules, one per source file plus two helpers:

| file | module | models |
|---|---|---|
| Wrappers.dfy | `Wrappers` | Kotlin's nullable types and `Result` |
| Text.dfy | `Text` | `isWhitespace`, `isBlank`, `trim`, `isDigit`, `uppercaseChar`, `contains(ignoreCase = true)`, `startsWith`, `Int.toString` and its inverse |
| Models.dfy | `Models` | `User`, `UserResponse`, `SingleUserResponse` |
| Repository.dfy | `Repository` | `UserRepository` |
| ViewModel.dfy | `ViewModel` | `UserViewModel`: a state datatype, the step functions, and the class |
| UserForm.dfy | `UserForm` | `UserFormScreen`: validators, input filters, submission, avatar |
| UserList.dfy | `UserList` | `UserListScreen`: search, grouping, view choice, row photo |
| UserDetail.dfy | `UserDetail` | `UserDetailScreen`: body choice, delete dialog |
| Navigation.dfy | `Navigation` | route templates, `createRoute`, destination arguments |

Inputs the app gets from outside become parameters:

- Each view-model operation records the repository request it issues, with its arguments, in a `calls` log.
- The HTTP call's outcome is a `Transport` value: either a thrown exception with an
  optional message, or a response with `isSuccessful`, a status code and an optional body.
- Each view-model operation receives the repository's `Result`.
- The reloads an operation launches and the `onSuccess` callback it fires are
  appended, in order, to the view model's `effects` log.
- The platform's e-mail address pattern is a predicate passed to the form.

## Model

| member | source | states |
|---|---|---|
| `Text.UpperChar` | app/src/main/java/com/example/examenrecu/screens/UserListScreen.kt:53 | lower-case ASCII letters map to their upper-case letter; every other character is unchanged |
| `Text.Utf16Length` | app/src/main/java/com/example/examenrecu/screens/UserFormScreen.kt:121 | a string's Kotlin length counts each character beyond the Basic Multilingual Plane twice, so it lies between the number of characters and twice that |
| `Text.BmpUtf16Length` | app/src/main/java/com/example/examenrecu/screens/UserFormScreen.kt:314 | within the Basic Multilingual Plane, the Kotlin length equals the number of characters |
| `Text.ContainsIgnoreCaseIffOccurs` | app/src/main/java/com/example/examenrecu/screens/UserListScreen.kt:46-48 | the case-insensitive scan succeeds iff the query matches, ignoring case, at some position of the text |
| `Text.EmptyOccursEverywhere` | app/src/main/java/com/example/examenrecu/screens/UserListScreen.kt:46-48 | the empty query is contained in every string |
| `Text.Trim` | app/src/main/java/com/example/examenrecu/screens/UserFormScreen.kt:134-137 | the result is the slice of the input between two all-whitespace margins, and neither end of it is whitespace |
| `Text.BlankIffTrimEmpty` | app/src/main/java/com/example/examenrecu/screens/UserFormScreen.kt:137 | a string is blank iff trimming it leaves the empty string |
| `Text.TrimIdempotent` | app/src/main/java/com/example/examenrecu/screens/UserFormScreen.kt:134-137 | trimming twice is the same as trimming once, and a trimmed string is blank only when it is empty |
| `Text.NatToString` | app/src/main/java/com/example/examenrecu/navigation/Navigation.kt:19 | a natural number prints as a non-empty run of digits that starts with 0 only for zero |
| `Text.IntToString` | app/src/main/java/com/example/examenrecu/navigation/Navigation.kt:19 | a decimal rendering is non-empty, starts with '-' iff the number is negative, and is all digits otherwise |
| `Text.ParseIntToString` | app/src/main/java/com/example/examenrecu/navigation/Navigation.kt:19 | parsing the decimal rendering gives back the number |
| `Text.IntToStringInjective` | app/src/main/java/com/example/examenrecu/navigation/Navigation.kt:23 | distinct numbers print differently |
| `Repository.BodyResult` | app/src/main/java/com/example/examenrecu/repository/UserRepository.kt:10-20 | success with the body iff the response is successful and has a body; otherwise the operation's status message; an exception becomes a connection message |
| `Repository.StatusMessage` | app/src/main/java/com/example/examenrecu/repository/UserRepository.kt:16 | a status message is the operation's prefix, then ": ", then the code in decimal |
| `Repository.ConnectionMessage` | app/src/main/java/com/example/examenrecu/repository/UserRepository.kt:19 | a connection message is "Error de conexión: " followed by the exception's message, or by "null" when it has none |
| `Repository.GetUsers` | app/src/main/java/com/example/examenrecu/repository/UserRepository.kt:10-20 | success with `body.data` iff the response is successful and has a body; an exception fails with the connection message; any other response fails with "Error al obtener usuarios: <code>" |
| `Repository.GetUser` | app/src/main/java/com/example/examenrecu/repository/UserRepository.kt:24-34 | success with `body.data` iff the response is successful and has a body; an exception fails with the connection message; any other response fails with "Error al obtener usuario: <code>" |
| `Repository.CreateUser` | app/src/main/java/com/example/examenrecu/repository/UserRepository.kt:38-48 | success with `body.data` iff the response is successful and has a body; an exception fails with the connection message; any other response fails with "Error al crear usuario: <code>" |
| `Repository.UpdateUser` | app/src/main/java/com/example/examenrecu/repository/UserRepository.kt:52-62 | success with `body.data` iff the response is successful and has a body; an exception fails with the connection message; any other response fails with "Error al actualizar usuario: <code>" |
| `Repository.DeleteUser` | app/src/main/java/com/example/examenrecu/repository/UserRepository.kt:66-76 | ignores the body: success (always `true`) iff the response is successful; otherwise the delete status message or the connection message |
| `Repository.StatusMessagesDistinct` | app/src/main/java/com/example/examenrecu/repository/UserRepository.kt:16-19 | a status message determines its operation and its code, and no status message equals a connection message |
| `Repository.DistinctPrefixes` | app/src/main/java/com/example/examenrecu/repository/UserRepository.kt:16 | two different operations never produce the same status message |
| `ViewModel.Started` | app/src/main/java/com/example/examenrecu/viewmodel/UserViewModel.kt:41-42 | while a call is in flight, `isLoading` is true and `error` is cleared; nothing else changes |
| `ViewModel.LoadUsersStep` | app/src/main/java/com/example/examenrecu/viewmodel/UserViewModel.kt:39-54 | ends not loading; success replaces `users` and clears `error`; failure keeps `users` and shows the message or "Error desconocido"; the selected user and the success message are untouched |
| `ViewModel.LoadUserStep` | app/src/main/java/com/example/examenrecu/viewmodel/UserViewModel.kt:57-72 | ends not loading; success sets `selectedUser`; failure keeps it and shows the message or "Error al cargar usuario"; `users` is untouched |
| `ViewModel.MutationStep` | app/src/main/java/com/example/examenrecu/viewmodel/UserViewModel.kt:75-130 | ends not loading; success sets the operation's message with no error; failure keeps the success message and shows the error or the operation's default; never touches `users` or `selectedUser` |
| `ViewModel.ClearStep` | app/src/main/java/com/example/examenrecu/viewmodel/UserViewModel.kt:133-136 | both messages become null; `users`, `selectedUser` and `isLoading` are unchanged |
| `ViewModel.EffectsOf` | app/src/main/java/com/example/examenrecu/viewmodel/UserViewModel.kt:79-126 | `onSuccess` is recorded iff a create, update or delete succeeded; a non-empty record starts with the `loadUsers()` request and ends with the callback; a successful update also requests `loadUser` for its own id, and no other call requests a single-user reload |
| `ViewModel.UsersOnlyFromLoadUsers` | app/src/main/java/com/example/examenrecu/viewmodel/UserViewModel.kt:39-130 | after any sequence of calls, `users` is the list from the last successful `loadUsers()`, or the initial one |
| `ViewModel.SelectedOnlyFromLoadUser` | app/src/main/java/com/example/examenrecu/viewmodel/UserViewModel.kt:57-130 | after any sequence of calls, `selectedUser` is the user from the last successful `loadUser(id)`, or the initial one |
| `ViewModel.OnSuccessOncePerCall` | app/src/main/java/com/example/examenrecu/viewmodel/UserViewModel.kt:98-104 | one call fires `onSuccess` once if it is a successful mutation, and never otherwise |
| `ViewModel.OnSuccessOncePerSuccess` | app/src/main/java/com/example/examenrecu/viewmodel/UserViewModel.kt:79-126 | over any sequence of calls, `onSuccess` fires exactly as often as there were successful creates, updates and deletes |
| `ViewModel.CountAppend` | app/src/main/java/com/example/examenrecu/viewmodel/UserViewModel.kt:81-83 | occurrences in a concatenated effect log add up |
| `ViewModel.SuccessMessageIsFixed` | app/src/main/java/com/example/examenrecu/viewmodel/UserViewModel.kt:81 | starting from the initial state, the success message is always null or one of the three fixed confirmations |
| `ViewModel.RepositoryErrorsShownVerbatim` | app/src/main/java/com/example/examenrecu/viewmodel/UserViewModel.kt:49 | with the repository's results, the error shown is the repository's own message and never a view-model fallback |
| `ViewModel.NotAFallback` | app/src/main/java/com/example/examenrecu/repository/UserRepository.kt:16-19 | no connection message and no status message of any operation equals any of the five fallback texts: "Error desconocido", "Error al cargar usuario", or the create, update or delete fallback |
| `ViewModel.UserViewModel.constructor` | app/src/main/java/com/example/examenrecu/viewmodel/UserViewModel.kt:15-36 | fields start empty, null and not loading; `init` requests one `loadUsers()`; no repository call has been made yet |
| `ViewModel.UserViewModel.Start` | app/src/main/java/com/example/examenrecu/viewmodel/UserViewModel.kt:41-42 | the state becomes `Started` of the old state; effects and repository calls are unchanged |
| `ViewModel.UserViewModel.LoadUsers` | app/src/main/java/com/example/examenrecu/viewmodel/UserViewModel.kt:39-54 | issues one `getUsers()`; the new state is `LoadUsersStep` of the old one; no effect is recorded |
| `ViewModel.UserViewModel.LoadUser` | app/src/main/java/com/example/examenrecu/viewmodel/UserViewModel.kt:57-72 | issues one `getUser(id)` for the given id; the new state is `LoadUserStep` of the old one; no effect is recorded |
| `ViewModel.UserViewModel.CreateUser` | app/src/main/java/com/example/examenrecu/viewmodel/UserViewModel.kt:75-91 | issues one `createUser(user)` with the given user; the new state and effects follow the create step; reports whether `onSuccess` ran, which happens iff the call succeeded |
| `ViewModel.UserViewModel.UpdateUser` | app/src/main/java/com/example/examenrecu/viewmodel/UserViewModel.kt:94-111 | issues one `updateUser(id, user)` with the given id and user; the same as create otherwise, and on success the reloads of the list and of that user are recorded |
| `ViewModel.UserViewModel.DeleteUser` | app/src/main/java/com/example/examenrecu/viewmodel/UserViewModel.kt:114-130 | issues one `deleteUser(id)` for the given id; state, effects and the callback follow the delete step |
| `ViewModel.UserViewModel.ClearMessages` | app/src/main/java/com/example/examenrecu/viewmodel/UserViewModel.kt:133-136 | the new state is `ClearStep` of the old one; no repository call is made |
| `UserForm.NameError` | app/src/main/java/com/example/examenrecu/screens/UserFormScreen.kt:101-106 | fails iff the name is blank, with "El nombre es obligatorio" |
| `UserForm.EmailError` | app/src/main/java/com/example/examenrecu/screens/UserFormScreen.kt:108-116 | passes iff not blank and matching the pattern; a blank e-mail is reported before the pattern |
| `UserForm.PhoneError` | app/src/main/java/com/example/examenrecu/screens/UserFormScreen.kt:118-126 | passes iff not blank and at least ten UTF-16 units long, as Kotlin counts `length`; blank is reported first, then too short |
| `UserForm.PhoneAccepted` | app/src/main/java/com/example/examenrecu/screens/UserFormScreen.kt:314 | the filter accepts only ASCII digits, at most ten of them; an accepted value passes the phone check iff it has exactly ten |
| `UserForm.TypedPhoneAccepted` | app/src/main/java/com/example/examenrecu/screens/UserFormScreen.kt:313-318 | starting from an accepted value, whatever is typed through the filter stays all digits and at most ten long |
| `UserForm.TypedPhoneValidIffTenDigits` | app/src/main/java/com/example/examenrecu/screens/UserFormScreen.kt:118-126 | a phone typed through the filter from an empty field passes validation iff it has exactly ten digits |
| `UserForm.LoadedPhoneBypassesFilter` | app/src/main/java/com/example/examenrecu/screens/UserFormScreen.kt:92 | a phone loaded from a stored user can pass validation with fewer than ten digits, because the check counts characters |
| `UserForm.WidePhonePassesCheck` | app/src/main/java/com/example/examenrecu/screens/UserFormScreen.kt:121 | a loaded phone of five characters from beyond the Basic Multilingual Plane passes the length check, because each counts as two UTF-16 units |
| `UserForm.UserToSave` | app/src/main/java/com/example/examenrecu/screens/UserFormScreen.kt:133-138 | no id, no timestamps, trimmed fields; the image URL is null iff the field is blank, and otherwise trimmed and not blank |
| `UserForm.DigitsTrimToThemselves` | app/src/main/java/com/example/examenrecu/screens/UserFormScreen.kt:136 | a digits-only phone is saved unchanged by the trim |
| `UserForm.SavedFieldsNotBlank` | app/src/main/java/com/example/examenrecu/screens/UserFormScreen.kt:132-138 | a validated form saves a name and an e-mail that are still not blank after trimming |
| `UserForm.SavedPhotoIffUrlEntered` | app/src/main/java/com/example/examenrecu/screens/UserFormScreen.kt:137 | a saved contact shows a photo in the list iff its URL field was not blank |
| `UserForm.SubmissionFor` | app/src/main/java/com/example/examenrecu/screens/UserFormScreen.kt:140-144 | update with the form's id in edit mode, create otherwise, always with the built user |
| `UserForm.AvatarFor` | app/src/main/java/com/example/examenrecu/screens/UserFormScreen.kt:200-221 | a picked image wins; otherwise a URL starting with "http" is shown; otherwise the placeholder |
| `UserForm.FormState.constructor` | app/src/main/java/com/example/examenrecu/screens/UserFormScreen.kt:37-45 | all fields empty, no picked image, no errors |
| `UserForm.FormState.ValidateForm` | app/src/main/java/com/example/examenrecu/screens/UserFormScreen.kt:98-129 | all three checks run and each sets its own error; the result is true iff none failed |
| `UserForm.FormState.HandleSubmit` | app/src/main/java/com/example/examenrecu/screens/UserFormScreen.kt:131-146 | nothing is sent iff validation fails; otherwise the built user goes to update in edit mode and to create otherwise |
| `UserForm.FormState.OnNameChange` | app/src/main/java/com/example/examenrecu/screens/UserFormScreen.kt:270-273 | the name is replaced and only its error is cleared |
| `UserForm.FormState.OnEmailChange` | app/src/main/java/com/example/examenrecu/screens/UserFormScreen.kt:365-368 | the e-mail is replaced and only its error is cleared |
| `UserForm.FormState.OnPhoneChange` | app/src/main/java/com/example/examenrecu/screens/UserFormScreen.kt:313-318 | an accepted candidate replaces the phone and clears its error; a rejected one changes nothing |
| `UserForm.FormState.OnImageUrlChange` | app/src/main/java/com/example/examenrecu/screens/UserFormScreen.kt:404-407 | the URL is replaced and the picked image is discarded, so the avatar becomes the typed URL when it starts with "http" and the placeholder otherwise |
| `UserForm.FormState.OnImagePicked` | app/src/main/java/com/example/examenrecu/screens/UserFormScreen.kt:58-61 | the picked URI is kept and its text fills the URL field, or empty when nothing was picked; a picked image becomes the avatar |
| `UserForm.FormState.OnEnter` | app/src/main/java/com/example/examenrecu/screens/UserFormScreen.kt:71-83 | edit mode requests `loadUser(userId)` and changes nothing; create mode empties the fields and keeps the errors |
| `UserForm.FormState.OnSelectedUser` | app/src/main/java/com/example/examenrecu/screens/UserFormScreen.kt:86-96 | in edit mode a loaded user fills the four fields, with a null URL becoming empty; otherwise nothing changes |
| `UserList.Matches` | app/src/main/java/com/example/examenrecu/screens/UserListScreen.kt:45-47 | a user matches iff the query occurs, ignoring case, at some position of its name, its e-mail or its phone |
| `UserList.FilterUsers` | app/src/main/java/com/example/examenrecu/screens/UserListScreen.kt:44-50 | a user is kept iff it is in the list and `Matches` the query; the result is no longer than the input |
| `UserList.FilterKeepsMatchesInOrder` | app/src/main/java/com/example/examenrecu/screens/UserListScreen.kt:45 | the filtered list is the input read at increasing positions, which are exactly the positions of the matches |
| `UserList.PicksOneMore` | app/src/main/java/com/example/examenrecu/screens/UserListScreen.kt:45 | the order property extends from a list to the list with one more user |
| `UserList.EmptyQueryKeepsAll` | app/src/main/java/com/example/examenrecu/screens/UserListScreen.kt:44-50 | an empty query keeps the whole list |
| `UserList.GroupKey` | app/src/main/java/com/example/examenrecu/screens/UserListScreen.kt:53 | a contact's key is its name's first character upper-cased: never a lower-case letter, equal to that character ignoring case, and that character itself when it is not a lower-case letter |
| `UserList.InsertKeySet` | app/src/main/java/com/example/examenrecu/screens/UserListScreen.kt:53 | adding a user adds its letter to the set of letters and nothing else |
| `UserList.InsertAscending` | app/src/main/java/com/example/examenrecu/screens/UserListScreen.kt:54 | adding a user keeps the letters strictly ascending |
| `UserList.InsertLookup` | app/src/main/java/com/example/examenrecu/screens/UserListScreen.kt:53 | adding a user appends it to its own letter's contacts and to no other |
| `UserList.GroupUsers` | app/src/main/java/com/example/examenrecu/screens/UserListScreen.kt:52-55 | letters strictly ascending, no empty group, one group per initial letter present, each listing exactly the users under that letter in list order |
| `UserList.EachUserInOneGroup` | app/src/main/java/com/example/examenrecu/screens/UserListScreen.kt:53-54 | every listed user appears in the group of its own letter and in no other |
| `UserList.ListViewFor` | app/src/main/java/com/example/examenrecu/screens/UserListScreen.kt:141-218 | spinner iff loading with no users; then the error with retry; then the empty text, whose wording depends on whether there is a query; otherwise the non-empty grouped list |
| `UserList.NonEmptyListAlwaysShown` | app/src/main/java/com/example/examenrecu/screens/UserListScreen.kt:141-186 | with no query, a non-empty list is always shown grouped, whatever the loading or error state |
| `UserList.HasPhoto` | app/src/main/java/com/example/examenrecu/screens/UserListScreen.kt:260 | a photo is shown iff the URL is non-null and trimming does not empty it |
| `UserDetail.DetailViewFor` | app/src/main/java/com/example/examenrecu/screens/UserDetailScreen.kt:74-216 | spinner iff loading; then error with retry; then the user's details, with the photo iff its URL is non-null and not blank; otherwise nothing |
| `UserDetail.DetailState.constructor` | app/src/main/java/com/example/examenrecu/screens/UserDetailScreen.kt:34 | the dialog starts closed |
| `UserDetail.DetailState.LoadOwnUser` | app/src/main/java/com/example/examenrecu/screens/UserDetailScreen.kt:36-38 | issues exactly one `getUser` for this screen's own id; success shows that user's details and failure shows the error with retry |
| `UserDetail.DetailState.EditTarget` | app/src/main/java/com/example/examenrecu/screens/UserDetailScreen.kt:55 | the edit action passes this screen's id |
| `UserDetail.DetailState.OnDeleteClick` | app/src/main/java/com/example/examenrecu/screens/UserDetailScreen.kt:204 | the dialog opens |
| `UserDetail.DetailState.OnDismiss` | app/src/main/java/com/example/examenrecu/screens/UserDetailScreen.kt:223 | the dialog closes |
| `UserDetail.DetailState.OnConfirm` | app/src/main/java/com/example/examenrecu/screens/UserDetailScreen.kt:228-233 | issues exactly one `deleteUser` for this screen's own id; the dialog stays open iff the deletion failed, and the screen navigates back iff it succeeded |
| `Navigation.Route` | app/src/main/java/com/example/examenrecu/navigation/Navigation.kt:17-23 | every route template starts with "user_", and exactly the detail and edit templates end in the "{userId}" placeholder |
| `Navigation.DetailRoute` | app/src/main/java/com/example/examenrecu/navigation/Navigation.kt:19 | `createRoute` for the detail screen is "user_detail/" followed by text that reads back as the id |
| `Navigation.EditRoute` | app/src/main/java/com/example/examenrecu/navigation/Navigation.kt:23 | `createRoute` for the edit screen is "user_edit/" followed by text that reads back as the id |
| `Navigation.ReplaceAllAfterPrefix` | app/src/main/java/com/example/examenrecu/navigation/Navigation.kt:18 | replacing in a text whose prefix holds no placeholder start leaves that prefix alone |
| `Navigation.CreateRouteFillsTemplate` | app/src/main/java/com/example/examenrecu/navigation/Navigation.kt:18-23 | each `createRoute` is its template with "{userId}" replaced by the decimal id |
| `Navigation.ParseRouteOf` | app/src/main/java/com/example/examenrecu/navigation/Navigation.kt:16-24 | every built route reads back as the destination and id it was built for |
| `Navigation.RoutesDistinct` | app/src/main/java/com/example/examenrecu/navigation/Navigation.kt:17-23 | no two destinations share a route, so detail and edit routes never collide with each other, "user_list" or "user_create" |
| `Navigation.UserIdArgument` | app/src/main/java/com/example/examenrecu/navigation/Navigation.kt:58 | a missing `userId` argument defaults to 0 |
| `Navigation.Compose` | app/src/main/java/com/example/examenrecu/navigation/Navigation.kt:37-100 | the detail destination receives the argument, or 0 when it is missing; the form is in edit mode iff it was reached by the edit destination |
| `Navigation.NavigationDeliversId` | app/src/main/java/com/example/examenrecu/navigation/Navigation.kt:41 | following a built route opens the intended screen with the intended id: detail, the form in edit mode, or the form in create mode |

## Left out

- Compose rendering is not modelled: layouts, styling, icons, the snackbars and the theme.
- The Retrofit client, its interface and its configuration are not modelled.
  Each call's outcome is an input.
- `isSuccessful` is a field of that input. OkHttp's definition of it is not modelled.
- JSON (de)serialisation is not modelled.
- Coroutines are not modelled. Each view-model operation runs to completion,
  so other calls cannot interleave with it.
  - The in-flight state is given by `Started`.
  - Reloads an operation launches are recorded as effects, not executed.
  - The list screen's 3-second automatic `clearMessages()` is modelled only as `ClearMessages`.
- The e-mail address pattern is a platform regular expression. It is a predicate
  passed to the form, and no e-mail grammar is claimed.
- The image picker, the permission request and the SDK-version check are
  platform calls. Only the picker's result is modelled, as `OnImagePicked`.
- `Text.IsDigit` accepts only ASCII digits. Kotlin's `isDigit` also accepts
  other Unicode decimal digits, which the phone filter would then let through.
- `Text.UpperChar` upper-cases only ASCII letters. Kotlin's `uppercaseChar` follows Unicode.
- `Text.CharEqualsIgnoreCase` relies on that ASCII upper-casing.
- `UserList.GroupKey`, and with it `UserList.GroupUsers`, keys a contact by its name's first code point.
  Kotlin's `first()` takes the first UTF-16 unit. For a name that starts beyond the Basic Multilingual Plane,
  Kotlin keys by the high surrogate, so such names share groups and sort differently there.
  The model's characters cannot hold a lone surrogate.
- `UserForm.PhoneError` counts UTF-16 units, as Kotlin's `length` does. The other string operations
  work on characters. For the ASCII digits the filter admits, the two agree.
- `UserList.GroupKey` requires a non-empty name, and so do `UserList.GroupUsers` and `UserList.ListViewFor`.
  The source's `first()` throws on an empty name, and the model does not represent that crash.
- `user.id!!`, used when a list row is clicked, throws on a user without an id.
  That crash and the click handler are not modelled.
- Navigation Compose's matching of a route against the registered templates is library code.
  `Navigation.ParseRoute` stands in for it. It reads a route against the four templates and parses the
  argument as a decimal integer. Its agreement with the library is assumed.
- Kotlin's `Int` is 32-bit. Ids and status codes are unbounded integers here,
  which does not change the decimal renderings of values within range.
- Server-side guarantees are not modelled, because they depend on the remote API:
  a created user appears in the next list, an update is visible on the next get.
