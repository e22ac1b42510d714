# Account and authentication core of devclub-group-2, in Dafny

This project models the account machinery of a small React and Express application.

On the client:

- **Store and reducer.** An auth store holds a reducer state (token, `isAuthenticated`, user, errors, routes, loading) and a `localStorage` token slot. Its action creators send requests through axios, whose shared headers carry `x-auth-token`. They dispatch what each answer settles into.
- **Views.** Three views (register, login, edit profile) validate their forms in a fixed order, call the store, redirect on `isAuthenticated`, and alert and clear the store's errors.
- **Helpers.** `utils.js` supplies the header setter, the field updater, the blank test, the e-mail recogniser and the two route tables.

On the server:

- **Token gate.** A middleware function verifies `x-auth-token`.
- **`/api/auth`.** Two handlers: the profile of the signed-in user, and sign-in.
- **`/api/users`.** Four handlers: get-user, register, edit and delete. They work over a user collection.

How the model is built:

- **JavaScript values.** Values are the datatype `JsValues.Value`. Objects are maps from key to value. `Member` models a property read, which throws on null or undefined. `Lookup` reads a computed key of an object literal, inherited `Object.prototype` members included. `Spread` models object spread, which gives an array or a string its decimal index keys.
- **Services.** Library calls the code makes without this model seeing inside are function-valued fields of `ServerCommon.Services`: bcrypt hash and compare, JWT sign and verify, the e-mail validator and `ObjectId.isValid`.
- **Asynchronous answers.** The answer to each client request is an input (`AuthStore.Outcome`).
- **Failing store calls.** A handler's failing store call is the flag `fault`.

Module layout:

- `js_values.dfy` and `wrappers.dfy` hold the shared value model.
- Each core source file has its own module:
  - `utils.dfy`, `auth_reducer.dfy`, `auth_store.dfy`, `user_register.dfy`, `user_login.dfy` and `user_edit.dfy` on the client, with `forms.dfy` holding what the three views share;
  - `auth_middleware.dfy`, `auth_routes.dfy` and `users_routes.dfy` on the server, with `server_common.dfy` holding what the handlers share.
- `session.dfy` runs register, login, the token gate and `/logged-in` in sequence over one store.

Quirks of the code that the model keeps as written:

- CLEAR_ERRORS writes the key `error`, so `errors` survives it.
- AUTH_ERROR spreads the bare error array, which adds keys "0", "1", … and leaves `errors` alone.
- The register handler's last-name message repeats "Please add a first name.".
- get-user answers the stored password hash; so does edit's reply.
- The edit handler's guard at `backend/routes/users.js:139` indexes `userFields` by field values. When every value is itself a filled field's name, or the name of a member every object inherits (such as `toString`), the handler returns without answering.
- The edit handler's duplicate checks look users up by the submitted address and username. When either is left out, the lookup has no filter, finds any user, and the edit is refused as a duplicate.

## Model

| member | source | states |
|---|---|---|
| JsValues.Member | frontend/src/context/auth/AuthReducer.js:29 | reading a property throws exactly on null or undefined; otherwise it is the spread object's entry (undefined when missing) |
| JsValues.SpreadNamedKeyOnlyFromObject | frontend/src/context/auth/AuthReducer.js:53-55 | spreading an array or a string never brings in a named key such as `token` or `user`; only an object's own fields do |
| JsValues.Lookup | backend/routes/users.js:139 | an own key reads its value; any other key reads a truthy value exactly when it names an `Object.prototype` member |
| Utils.SetAuthToken | frontend/src/utils.js:9-15 | a truthy token is installed under `x-auth-token`, a falsy one removes that header; every other header is unchanged |
| Utils.OnChange | frontend/src/utils.js:17-19 | the new field object has the old keys plus `name`; `name` holds the new value and every other key keeps its value |
| Utils.TrimStartIsSuffix | frontend/src/utils.js:21 | trimming the front leaves the suffix after the longest all-white-space prefix, and it starts with a non-space |
| Utils.TrimEndIsPrefix | frontend/src/utils.js:21 | trimming the back leaves the prefix before the longest all-white-space suffix, and it ends with a non-space |
| Utils.BlankIffAllWhitespace | frontend/src/utils.js:21 | `isBlank` holds exactly when every character is white space |
| Utils.TrimIsInfix | frontend/src/utils.js:21 | `trim` keeps a contiguous infix, with white space on both sides of it |
| Utils.Lower | frontend/src/utils.js:25 | lower-casing keeps the length |
| Utils.JsLength | frontend/src/views/UserRegister/UserRegister.js:77 | `.length` counts UTF-16 code units: between one and two per character |
| Utils.BmpLengthIsCharCount | frontend/src/views/UserRegister/UserRegister.js:77 | text within the Basic Multilingual Plane has one code unit per character |
| Utils.JsLengthAppend | frontend/src/views/UserRegister/UserRegister.js:77 | the code-unit length of a concatenation is the sum of the lengths |
| Utils.RouteTablesAreDisjoint | frontend/src/utils.js:28-56 | the public table offers exactly /login and /register and the private one exactly /edit; no path is in both |
| EmailFacts.DotAtomsIffShape | frontend/src/utils.js:24 | the dot-atom alternative holds exactly for non-empty text without white space or specials, with no leading, trailing or doubled dot |
| EmailFacts.DotAtomsHaveShape | frontend/src/utils.js:24 | every dot-atom match has that character-level shape |
| EmailFacts.ShapeIsDotAtoms | frontend/src/utils.js:24 | every text of that shape matches the dot-atom alternative |
| EmailFacts.DomainHasNoAt | frontend/src/utils.js:24 | neither domain alternative (bracketed dotted quad, host name) contains `@` |
| EmailFacts.EmailPatternSplitsAtLastAt | frontend/src/utils.js:24 | the anchored pattern matches exactly when splitting at the last `@` gives a local part and a domain |
| EmailFacts.PatternSplitsAtLastAt | frontend/src/utils.js:24 | a match can only split at the last `@` |
| EmailFacts.LastAtSplitIsPattern | frontend/src/utils.js:24 | a valid split at the last `@` is a match |
| EmailFacts.LastIndexOfIsUnique | frontend/src/utils.js:24 | an `@` followed by no other `@` is the last one |
| EmailFacts.AcceptedAddressParts | frontend/src/utils.js:23-26 | an accepted address has an `@`; after the last one, a domain of one of the two forms; before it, a dot-atom local part or a quoted string |
| EmailFacts.ValidateEmailIgnoresCase | frontend/src/utils.js:25 | addresses equal up to ASCII case are accepted or rejected alike |
| EmailFacts.ValidateEmailOfLowered | frontend/src/utils.js:25 | an address and its lower-cased form are judged alike |
| EmailFacts.AcceptsSimpleAddress | frontend/src/utils.js:23-26 | `a@b.com` is accepted |
| EmailFacts.RejectsDoubledDot | frontend/src/utils.js:23-26 | `a..b@c.com` is rejected |
| AuthReducer.LoadedState | frontend/src/context/auth/AuthReducer.js:19-26 | USER_LOADED signs in with the payload as user; every other key is kept |
| AuthReducer.TokenIssuedState | frontend/src/context/auth/AuthReducer.js:27-36 | a token issue signs in; every other key holds the payload's value if the payload has it, else the old one |
| AuthReducer.SignedOutState | frontend/src/context/auth/AuthReducer.js:47-61 | a session end signs out (token, user null, public routes, not loading) whatever the payload; other keys follow the spread |
| AuthReducer.SignedOutStateSettles | frontend/src/context/auth/AuthReducer.js:47-61 | the signed-out fields applied again with no payload change nothing |
| AuthReducer.Reduce | frontend/src/context/auth/AuthReducer.js:17-75 | throws exactly on an unknown type (with its message) or a token issue with a null or undefined payload. Otherwise: the USER_LOADED, token-issue and session-end outcomes as above, with storage set to `payload.token` or cleared; EDIT_SUCCESS changes only `user`; EDIT_FAIL and DELETE_FAIL change only `errors`; CLEAR_ERRORS sets only `error` to null |
| AuthReducer.LogoutIdempotent | frontend/src/context/auth/AuthReducer.js:50-61 | a second LOGOUT ends where the first did, state and storage alike |
| AuthReducer.LoginThenLogout | frontend/src/context/auth/AuthReducer.js:28-61 | after a login and a logout, neither the storage nor the state holds a token, and the public routes are on offer |
| AuthReducer.TokenIssueWithStringToken | frontend/src/context/auth/AuthReducer.js:27-36 | `{token: t}` stores `t` in storage and state and signs in; user and errors are untouched |
| AuthReducer.FailCopiesErrors | frontend/src/context/auth/AuthReducer.js:47-61 | REGISTER_FAIL and LOGIN_FAIL with `{errors: e}` sign out and set `errors` to `e` |
| AuthReducer.AuthErrorKeepsErrors | frontend/src/context/auth/AuthReducer.js:49-61 | AUTH_ERROR with the bare array signs out but leaves `errors` as it was |
| AuthReducer.ClearErrorsKeepsErrors | frontend/src/context/auth/AuthReducer.js:67-71 | CLEAR_ERRORS leaves `errors` unchanged and sets `error` to null |
| AuthReducer.ReducePreservesRoutesFollowAuth | frontend/src/context/auth/AuthReducer.js:17-75 | each reduction keeps the invariant that the routes table follows `isAuthenticated` |
| AuthReducer.ReduceAllPreservesRoutesFollowAuth | frontend/src/context/auth/AuthReducer.js:17-75 | so does every run of reductions that does not throw |
| AuthReducer.ReducePreservesTokenMirror | frontend/src/context/auth/AuthReducer.js:27-61 | `state.token` keeps mirroring storage under actions whose token is a string |
| AuthReducer.ReduceAllPreservesTokenMirror | frontend/src/context/auth/AuthReducer.js:27-61 | so does every such run |
| AuthReducer.LoadingClearedOnlyBySessionChange | frontend/src/context/auth/AuthReducer.js:19-61 | only USER_LOADED, token issues and session ends change `loading`, and they set it false |
| AuthStore.InitialState | frontend/src/context/auth/AuthState.js:24-31 | the six keys; null auth and user; `errors` false; `loading` true; public routes; the token mirrors storage |
| AuthStore.ErrorList | frontend/src/context/auth/AuthState.js:45 | `err.response.data.errors` throws exactly when the response or its data is null or undefined |
| AuthStore.Caught | frontend/src/context/auth/AuthState.js:67-74 | a `catch` dispatches at most one action, of the given type with the error list (wrapped as `{errors}` when asked), and none when reading the list throws |
| AuthStore.LoadUserActions | frontend/src/context/auth/AuthState.js:40-46 | at most one dispatchable action: USER_LOADED with `data.user`, or AUTH_ERROR with the bare list; none exactly when data or the list cannot be read |
| AuthStore.CredentialActions | frontend/src/context/auth/AuthState.js:56-74 | the success type with `{token: data.token}`, or the failure type with `{errors}`; none exactly when the read throws |
| AuthStore.EditActions | frontend/src/context/auth/AuthState.js:113-125 | EDIT_SUCCESS with `data.user`, or EDIT_FAIL with the bare list |
| AuthStore.DeleteActions | frontend/src/context/auth/AuthState.js:137-148 | DELETE_SUCCESS without payload after any success, or DELETE_FAIL with the bare list |
| AuthStore.DispatchableRunsReduce | frontend/src/context/auth/AuthState.js:33 | the reducer never throws on a run of the actions the store dispatches |
| AuthStore.Store.constructor | frontend/src/context/auth/AuthState.js:24-33 | the store starts in the initial state with the stored token, and no request or action yet |
| AuthStore.Store.Dispatch | frontend/src/context/auth/AuthState.js:33 | the new state and storage are the reducer's; the action is appended; the routes invariant is kept |
| AuthStore.Store.DispatchSettled | frontend/src/context/auth/AuthState.js:42-46 | a settled request dispatches nothing or its one action; the state ends in that reduction and the action is appended |
| AuthStore.Store.LoadUser | frontend/src/context/auth/AuthState.js:35-41 | a truthy stored token becomes the header; one logged-in GET is sent with the header now set |
| AuthStore.Store.LoadUserAnswered | frontend/src/context/auth/AuthState.js:41-46 | the answer's actions are reduced and appended; one pending load is settled |
| AuthStore.Store.Credentials | frontend/src/context/auth/AuthState.js:49-102 | one POST with the form and the current header, then the answer's actions. On success a follow-up load: the new stored token, when truthy, becomes the header, and a logged-in GET carries it. Otherwise the headers are unchanged |
| AuthStore.Store.Register | frontend/src/context/auth/AuthState.js:49-75 | the same, posting to `/api/users/register` with REGISTER_SUCCESS or REGISTER_FAIL |
| AuthStore.Store.Login | frontend/src/context/auth/AuthState.js:77-102 | the same, posting to `/api/auth/login` with LOGIN_SUCCESS or LOGIN_FAIL |
| AuthStore.Store.Edit | frontend/src/context/auth/AuthState.js:104-126 | sends exactly when there is a user: one PUT with the form and `user._id`, then the answer's actions; without a user nothing changes |
| AuthStore.Store.DeleteUser | frontend/src/context/auth/AuthState.js:128-149 | the same with one DELETE carrying `user._id` |
| AuthStore.Store.Logout | frontend/src/context/auth/AuthState.js:152 | one LOGOUT: signed out, storage empty, no request |
| AuthStore.Store.ClearErrors | frontend/src/context/auth/AuthState.js:154-156 | one CLEAR_ERRORS, with `errors` and storage unchanged |
| AuthStore.Store.Render | frontend/src/context/auth/AuthState.js:158-160 | a render while loading sends one more logged-in request, installing a truthy stored token as the header first; otherwise nothing is sent and the headers are unchanged |
| AuthStore.RendersBeforeAnswer | frontend/src/context/auth/AuthState.js:158-160 | two renders before the first answer send two logged-in requests, and the state is still loading |
| AuthStore.AnswerStopsLoads | frontend/src/context/auth/AuthState.js:35-47 | once USER_LOADED is reduced, a further render sends nothing: two requests in all, one still unanswered |
| Forms.FirstUnfilled | frontend/src/views/UserRegister/UserRegister.js:74 | where `every` stops: every field before it is filled, and it is unfilled or the end |
| Forms.EveryFilled | frontend/src/views/UserRegister/UserRegister.js:74 | the fill test passes exactly when every field is a non-blank string; a failure throws only a TypeError |
| Forms.EveryFilledThrowsAtFirstNonString | frontend/src/views/UserEdit/UserEdit.js:75 | the test throws exactly when a non-string field precedes every blank one |
| Forms.StringFieldsNeverThrow | frontend/src/views/UserLogin/UserLogin.js:75 | string fields never throw; they fail exactly when one is blank |
| Forms.FormOf | frontend/src/views/UserRegister/UserRegister.js:78-84 | the form sent has exactly the chosen keys, each with its field's text |
| Forms.FirstUnreadable | frontend/src/views/UserRegister/UserRegister.js:54 | the first error element that has no properties, or the end |
| Forms.AlertEach | frontend/src/views/UserRegister/UserRegister.js:54 | one alert per element, in order, each that element's `msg`, up to the first null or undefined element, which throws |
| Forms.AlertErrors | frontend/src/views/UserLogin/UserLogin.js:56-59 | non-array errors alert nothing; for an array, the alert loop's result, and clearing exactly when the loop finished |
| Forms.ShowErrors | frontend/src/views/UserEdit/UserEdit.js:54-57 | the alerts as above; when the loop finished, CLEAR_ERRORS is dispatched and the new state is its reduction (so `error` is null); otherwise the state is as it was; `errors`, storage, requests, pending loads and the default headers unchanged |
| RegisterView.EveryFilledIsAllFilled | frontend/src/views/UserRegister/UserRegister.js:59-74 | the fill test over the six fields passes exactly when all six are filled |
| RegisterView.OnSubmit | frontend/src/views/UserRegister/UserRegister.js:72-86 | in order, the first check to fail alerts: blank, then passwords that differ, then the e-mail, then a trimmed password under 6 UTF-16 code units. Reaching `register` needs all four, and it gets exactly the five fields, without the confirmation |
| RegisterView.FilledChecks | frontend/src/views/UserRegister/UserRegister.js:75-84 | once every field is filled: the password alert exactly when the two passwords differ, then the e-mail alert, then the length alert; the call exactly when all three pass, with the five sent fields |
| RegisterView.PaddedPasswordIsShort | frontend/src/views/UserRegister/UserRegister.js:77 | a password of 6 raw characters but 4 after trimming fails the length rule |
| RegisterView.EmojiPasswordIsLongEnough | frontend/src/views/UserRegister/UserRegister.js:77 | three emoji, three characters, are six code units and meet the length rule |
| RegisterView.RegisterPage.constructor | frontend/src/views/UserRegister/UserRegister.js:59-66 | the six fields start empty |
| RegisterView.RegisterPage.FieldChange | frontend/src/views/UserRegister/UserRegister.js:70 | one of the page's inputs takes its text; the page keeps exactly its input fields |
| RegisterView.RegisterPage.Submit | frontend/src/views/UserRegister/UserRegister.js:72-86 | an alert, or a throw from the fill test, changes nothing in the store, its headers included. Otherwise `register` is called once: one POST to `/api/users/register` with the form, the answer's actions reduced into the state and storage, and on success a logged-in GET with the header taken from the new storage, one more load pending |
| RegisterView.RegisterPage.Effect | frontend/src/views/UserRegister/UserRegister.js:49-57 | truthy `isAuthenticated` navigates to `/edit`; the alerts, the CLEAR_ERRORS reduction and the unchanged rest of the store as in Forms.ShowErrors |
| LoginView.EveryFilledIsAllFilled | frontend/src/views/UserLogin/UserLogin.js:62-75 | the fill test over both fields passes exactly when both are filled |
| LoginView.OnSubmit | frontend/src/views/UserLogin/UserLogin.js:73-82 | blank fields alert first, then the e-mail; reaching `login` needs both checks, and it gets exactly `{email, password}` |
| LoginView.NoPasswordLengthRule | frontend/src/views/UserLogin/UserLogin.js:75-81 | filled fields with a valid address are sent whatever the password length |
| LoginView.LoginPage.constructor | frontend/src/views/UserLogin/UserLogin.js:62-65 | both fields start empty |
| LoginView.LoginPage.FieldChange | frontend/src/views/UserLogin/UserLogin.js:69 | one of the page's inputs takes its text; the page keeps exactly its input fields |
| LoginView.LoginPage.Submit | frontend/src/views/UserLogin/UserLogin.js:73-82 | an alert, or a throw from the fill test, changes nothing in the store, its headers included. Otherwise `login` is called once: one POST to `/api/auth/login` with the form, the answer's actions reduced into the state and storage, and on success a logged-in GET with the header taken from the new storage, one more load pending |
| LoginView.LoginPage.Effect | frontend/src/views/UserLogin/UserLogin.js:51-60 | truthy `isAuthenticated` navigates to `/edit`; the alerts, the CLEAR_ERRORS reduction and the unchanged rest of the store as in Forms.ShowErrors |
| EditView.InitialFields | frontend/src/views/UserEdit/UserEdit.js:60-65 | the four fields are read from `user`; the read throws exactly when there is no user |
| EditView.EveryFilledIsAllFilled | frontend/src/views/UserEdit/UserEdit.js:75 | the fill test over the four fields passes exactly when all four are filled |
| EditView.OnSubmit | frontend/src/views/UserEdit/UserEdit.js:73-84 | blank fields alert, then the e-mail; reaching `edit` needs both checks, and it gets exactly the four fields |
| EditView.UnchangedProfileIsSent | frontend/src/views/UserEdit/UserEdit.js:60-83 | a user with four filled fields and a valid address is sent back unchanged |
| EditView.EditPage.constructor | frontend/src/views/UserEdit/UserEdit.js:46-67 | needs a non-null `user` in the store; the fields start as the four read from it |
| EditView.EditPage.FieldChange | frontend/src/views/UserEdit/UserEdit.js:71 | one of the page's inputs takes its text; the page keeps exactly its input fields |
| EditView.EditPage.Discard | frontend/src/views/UserEdit/UserEdit.js:91-94 | the fields go back to the four read from the store's current `user` |
| EditView.EditPage.Submit | frontend/src/views/UserEdit/UserEdit.js:73-84 | an alert, a throw, or a missing user changes nothing in the store. Otherwise `edit` is called once: one PUT to `/api/users/edit` with the four fields, `user._id` and the current header, and the answer's actions reduced into the state. The headers and the pending loads never change |
| EditView.EditPage.Delete | frontend/src/views/UserEdit/UserEdit.js:86-89 | `deleteUser`, unvalidated: with a user, one DELETE carrying `user._id` and the header, and the answer's actions reduced into the state; without one, nothing changes. The headers and the pending loads never change |
| EditView.EditPage.Logout | frontend/src/views/UserEdit/UserEdit.js:96-99 | `logout`, unvalidated: the LOGOUT reduction, signed out and storage empty; no request, and the headers and the pending loads unchanged |
| EditView.EditPage.Effect | frontend/src/views/UserEdit/UserEdit.js:49-58 | a falsy `isAuthenticated` navigates to `/login`; the alerts, the CLEAR_ERRORS reduction and the unchanged rest of the store as in Forms.ShowErrors |
| EditView.SignedInEffectStaysOnProfile | frontend/src/views/UserEdit/UserEdit.js:46-67 | after the logged-in answer carries a non-null user, the view's fields are read from that user and its effect does not navigate |
| ServerCommon.UserJson | backend/routes/auth.js:18 | a user's JSON carries its `_id`, and the password hash exactly when it is not deselected |
| ServerCommon.ErrorsJson | backend/routes/auth.js:38 | `{errors: [...]}` with one entry per validation error |
| ServerCommon.NotEmpty | backend/routes/users.js:70-72 | no error exactly when the field is present and non-empty |
| ServerCommon.IsEmail | backend/routes/users.js:73 | no error exactly when the field is present and passes the e-mail test |
| ServerCommon.QueryExists | backend/routes/users.js:41 | no error exactly when the query value is present |
| ServerCommon.Exists | backend/routes/auth.js:34 | no error exactly when the field is present |
| ServerCommon.MinLength | backend/routes/users.js:74 | no error exactly when the field has at least the minimum length |
| ServerCommon.FindById | backend/routes/users.js:54 | a user is found exactly when the id is a string naming a stored user |
| AuthGate.Gate | backend/middleware/auth.js:5-22 | every refusal is 401. The no-token answer comes exactly when the header is missing or empty. Passing needs a token, a verified payload and a readable `user`, and then `req.user = decoded.user` and `req.token = token`. Any other refusal with a token is `Token is not valid.` |
| AuthGate.NoTokenIgnoresVerify | backend/middleware/auth.js:7-11 | without a token the answer does not depend on the verifier: it is not consulted |
| AuthGate.SignedTokenPasses | backend/middleware/auth.js:13-18 | a token the server signed over `{user: {id}}` passes with that user |
| AuthGate.Exchange.constructor | backend/middleware/auth.js:5 | no user, token or response yet, and `next` not called |
| AuthGate.Authenticate | backend/middleware/auth.js:5-22 | a refusal writes its response and leaves `next` uncalled; a pass sets user and token, calls `next` once and writes nothing; exactly one of the two happens |
| AuthRoutes.ProfileBody | backend/routes/auth.js:18-22 | `{user}` without the password hash |
| AuthRoutes.LoggedIn | backend/routes/auth.js:16-27 | an unreadable `req.user.id` or a failing store answers 500; an unknown id 404; else 200 with the profile; 200 exactly in the last case |
| AuthRoutes.LoginErrors | backend/routes/auth.js:32-35 | no validation error exactly when the address passes the check and a password is present |
| AuthRoutes.Login | backend/routes/auth.js:32-78 | validation errors give 400 before any lookup; a failing store gives 500. An unknown address and a wrong password give the same 400 `Invalid credentials`. Success returns a token over `{user: {id}}`, signed at the request time and valid for an hour, for a user whose address and password match. With unique addresses, `Invalid credentials` comes exactly when no user matches |
| UserRoutes.CheckIdValid | backend/routes/users.js:13-23 | the input list is kept as a prefix; exactly one invalid-id error is added for an invalid id and none otherwise |
| UserRoutes.IdErrors | backend/routes/users.js:41-47 | no error exactly when an id is present and valid; a missing id gives both errors |
| UserRoutes.GetUser | backend/routes/users.js:40-64 | 400 with the combined list, then 500 on a failing store, then 404, then 200 with `{successes: [{data: user}]}`; 200 exactly when the id names a user |
| UserRoutes.RegisterErrors | backend/routes/users.js:69-80 | no validation error exactly when the three names are non-empty, the address passes and the password has 6 or more characters |
| UserRoutes.NewUser | backend/routes/users.js:90-100 | the saved record holds the hash of the password, never the password itself |
| UserRoutes.AddKeepsUnique | backend/routes/users.js:85-88 | adding a user with an unused address and username keeps both unique |
| UserRoutes.Register | backend/routes/users.js:69-125 | in order: 400 on validation, 500 on a failing store, a used address, then a used username. None of these writes anything. Otherwise the hashed record is saved under a fresh id and a token over `{user: {id}}`, signed at the request time, is returned. The store changes exactly on 200, and uniqueness of addresses and usernames is kept |
| UserRoutes.Destructured | backend/routes/users.js:131 | a destructured field is truthy exactly when it is present and non-empty |
| UserRoutes.UserFields | backend/routes/users.js:133-137 | `userFields` holds exactly the four profile fields the body supplies non-empty, with their values |
| UserRoutes.GuardFiresIff | backend/routes/users.js:139 | the guard returns without an answer exactly when each of the four values is present and names a supplied field or an inherited `Object.prototype` member |
| UserRoutes.OrdinaryEditPassesGuard | backend/routes/users.js:139 | an ordinary full edit passes the guard |
| UserRoutes.FieldNameValuesHang | backend/routes/users.js:139 | a body whose four values are all "email" gets no answer |
| UserRoutes.PrototypeNameValuesHang | backend/routes/users.js:139 | a body whose four values are all "toString" gets no answer: `userFields.toString` is the inherited method |
| UserRoutes.Patched | backend/routes/users.js:153-157 | `$set` replaces each of the four profile fields that is supplied and keeps the others and the password hash; an empty `$set` changes nothing |
| UserRoutes.EditChecksRejectOnlyMissing | backend/routes/users.js:148-151 | each "already exists" check rejects exactly when its field is left out of the body and some user is stored: the lookup then has no filter. With the field supplied it never rejects |
| UserRoutes.Edit | backend/routes/users.js:130-165 | no answer when the guard fires; then 500 `Server error.` on a failing store; 404 on an unknown id; 500 on an unreadable `req.user.id`; 401 for another user. Then an edit without an address is refused as a used address, and one without a username as a used username. Otherwise the record takes `$set: userFields`, and the answer is 200 with the updated document. The store changes only on 200 |
| UserRoutes.PatchKeepsUnique | backend/routes/users.js:148-157 | a patch whose address and username no other user has keeps both unique |
| UserRoutes.TakeBobsEmailPassesGuard | backend/routes/users.js:133-139 | an edit of all four fields, the address another user's, passes the guard and supplies all four fields |
| UserRoutes.EditChecked | backend/routes/users.js:130-165 | the edit handler with the intended checks: a supplied address or username another user has is refused with no write, and uniqueness is kept |
| UserRoutes.EditCheckedSavesPartialEdit | backend/routes/users.js:130-165 | with the intended checks, an edit of the first name alone is saved and answered 200 |
| UserRoutes.EditDuplicatesEmail | backend/routes/users.js:148-159 | as written, an edit can give two users one address |
| UserRoutes.EditWithoutEmailRefused | backend/routes/users.js:148-149 | as written, an edit of the first name alone is refused with "A user with this email address already exists" |
| UserRoutes.Delete | backend/routes/users.js:171-202 | in order: 400 on the id, 500 on a failing store, 404, 500 on an unreadable `req.user.id`, 401 for another user. Only past all of these is the record removed; the store changes exactly then, to the old one without that id |
| Session.SignUpThenSignIn | backend/routes/users.js:69-125 | registering and then signing in with the same credentials give tokens over the same claims `{user: {id}}`, each signed at its own request time; the same token when both fall in the same second. The sign-in token passes the gate and opens the new user's profile, without its hash |
| Session.SignInThenLoggedIn | backend/routes/auth.js:16-78 | a stored user whose password matches signs in with a token over `{user: {id}}`, and presenting it through the gate opens that user's profile |

## Left out

- I/O:
  - `localStorage` is the store's `storage` slot;
  - the network is the `Outcome` input of each request;
  - `console.error` logging is not modelled.
- React:
  - `useReducer`'s deferred reduction is not modelled: `AuthStore.Store.Dispatch` reduces at once;
  - the render and hook cycle is the explicit `Render` step and each view's `Effect`;
  - JSX, styles, `e.target.disabled` and `props.history.push` are not modelled, except that the navigation target is returned.
- Asynchrony:
  - `loadUser` is split at its `await` into `LoadUser` and `LoadUserAnswered`;
  - `register` and `login` call the follow-up `loadUser` without awaiting it, so only its first half runs inside them.
- bcrypt and JSON Web Tokens are the uninterpreted functions of `ServerCommon.Services`:
  - the token's issue time is the input `now` of each handler, passed to `sign`;
  - expiry is only the constant 3600; `verify` does not see the clock, so an expired token is not modelled as refused;
  - the `if (err) throw err` inside the sign callbacks is not modelled, because signing always succeeds here.
- A failing store call:
  - it is the single flag `fault`, taken as the first store call throwing;
  - a failure after a write (register's save, then signing) is not modelled;
  - a cast error for a malformed id is folded into `fault`.
- Mongoose query semantics:
  - `findOne({email})` with `email` undefined drops the undefined filter value and matches some user whenever one is stored; the model takes that user as one that differs from the missing value;
  - which user such a lookup returns is not modelled; the checks only compare it with the missing value;
  - the user schema is not part of this model, so unique indexes and `findById`'s id casting are not modelled.
- `express-validator` internals: the e-mail test is the `isEmail` service, and the `value` of a validation error is the submitted string when there is one.
- ServerCommon.MinLength: counts characters (code points), as `isLength` does, but does not model the discount some versions give to combining variation selectors.
- Property reads of fixed keys (`JsValues.Get`, `JsValues.Member`) do not see inherited members: the keys the code reads (`data`, `user`, `token`, `msg`, `id`, `_id`, `errors`) name none. Only the guard's computed read uses `JsValues.Lookup`.
- Request data:
  - request bodies are maps from key to string, and JSON numbers are integers;
  - object key order is not kept by maps, so where it matters (`Object.values`) the literal's order is given explicitly.
- Case and white space:
  - `toLowerCase` is ASCII only;
  - `trim` removes the white space and line terminators listed in `Utils.IsWhitespace`.
- Other files: the `/all` handler, `backend/server.js` (only its mount prefixes `/api/users` and `/api/auth` appear, in the request paths), `frontend/src/App.js` and `frontend/src/layouts/Alerts.js` are not part of this model.
- AuthGate.Authenticate: requires that no response has been written yet, as for a middleware that runs first.
- UserRoutes.Register: requires the new record's id to be unused, standing for a freshly generated object id.
- EditView.EditPage.constructor, EditView.EditPage.Discard: require a non-null `user` in the store. Without one the render throws reading `user.firstName`, and the signed-in route table is the only one that shows this view.
- AuthStore.Store.LoadUserAnswered: requires a pending request, because only a sent request can be answered.
- Session.SignUpThenSignIn: requires that signing and verification round-trip and that a password matches its own hash, and that stored addresses are unique beforehand.

## Findings

| source | as written | input that shows it | evidently intended | confidence | as-written member | corrected member |
|---|---|---|---|---|---|---|
| backend/routes/users.js:148-151 | Each duplicate check looks a user up by the edited address (or username), then rejects only when that user's address differs from it. With both fields supplied the lookup finds that very value, so the checks never reject | users `a` (ada@example.com) and `b` (bob@example.com); `a`, with its own token, edits `?id=a` with body `{firstName: "Ada", lastName: "L", username: "ada", email: "bob@example.com"}`: the answer is 200 and both users have bob@example.com | refuse an address or username that another user already has | medium: the user schema is not part of this model, and a unique index on `email` would turn the 200 into a 500; not executed | UserRoutes.Edit, UserRoutes.EditDuplicatesEmail | UserRoutes.EditChecked |
| backend/routes/users.js:148-149 | An edit that leaves out the address looks a user up with `{email: undefined}`. Mongoose drops the undefined value, so any stored user matches, and its address differs from undefined, so the edit is refused | user `a` alone; `a` edits `?id=a` with body `{firstName: "Ann"}`: the answer is 400 "A user with this email address already exists" | check only the fields the body supplies, so that a partial edit is saved | medium: rests on Mongoose dropping undefined filter values; not executed | UserRoutes.Edit, UserRoutes.EditWithoutEmailRefused | UserRoutes.EditChecked, UserRoutes.EditCheckedSavesPartialEdit |
