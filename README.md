# A verified model of the accessibility-guide front end

The front end is a Vue application for a guide to web accessibility. Administrators, designers, developers and testers sign in to it, read role-specific posts, and tick off per-project checklists. This project models in Dafny the logic that sits between its views and the backend:

- **Domain services.** These are `projectService`, `userService`, `postService`, `checklistService` and `progressService`. They validate form data and stop invalid data before any request is sent. They turn a failed request into a uniform `{success, message, errors, status}` envelope, reshape backend responses, and compute progress percentages and statistics.
- **Entity stores.** The posts, users and projects stores are mutable list caches with `loading`/`error` flags, getters and actions.
- **Session store.** It keeps the user, token and `isAuthenticated` in memory and mirrors them in `localStorage` under `auth_token` and `auth_user`.
- **Router.** It holds the route table and the `beforeEach` guard, which sets the page title and lets a navigation through, redirects it, or logs the user out.
- **HTTP client's interceptors.** The request interceptor adds the bearer token. The response interceptor classifies every failure as an API, network or unknown error, and logs out on 401.

Pure code is modelled as datatypes, functions and lemmas:

- **Validators.** Each one returns a `Validation` whose `isValid` holds exactly when its error map is empty. Its contract states, field by field, when each error is recorded and which message it carries.
- **Service calls.** A call is a function of the form data and of the call's outcome (`ApiResult`: the response data or the rejected error). It returns a `Call`: the request it sent, if any, and the envelope it returned. "Invalid data never reaches the network" is then the statement that the request is `None` and the envelope does not depend on the outcome.

Code that updates state is modelled with classes:

- **Stores.** They are classes with `seq` fields. Their actions are methods that take what the awaited service call gave them: the returned envelope, or `Threw`. Each method states the whole new state.
- **Session store.** `localStorage`, `window.location.href` and `document.title` are fields of a `Browser.Window` object that it and the router write to.

JavaScript semantics the code relies on are written out in module `Js`:

- truthiness of optional strings, and `||` defaults;
- `trim` with the ECMAScript white-space set;
- `.length` in UTF-16 code units;
- `toLowerCase` for Latin-1;
- `includes`;
- number-to-text conversion.

Module `ListOps` holds the array operations: `find`, `findIndex`, `filter`, a stable descending sort followed by `slice(0, 10)`, and replacement at the first matching index. Module `UserJson` holds `JSON.stringify`/`JSON.parse` of the session user, with the round trip `Parse(Serialize(u)) == Some(u)` proved.

Some behaviour of the code is easy to misread:

- **Deletes.** `deletePost`, `deleteUser` and `deleteProject` remove every list entry whose `id` or `_id` matches, which may be more than one entry.
- **`initializeAuth` when the stored user cannot be parsed.** Both storage keys are removed, but the token already copied into memory stays. An already-authenticated store stays authenticated; it does not fall back to a signed-out state.
- **Error text in the user and post services.** These services read the server's message from `error.response`, which the interceptor never sets. The operations are modelled as written. A corrected shaping that reads `error.data` is modelled beside them; see "## Findings".
- **Per-role percentages.** Both progress formatters divide the raw `completed` count. For an undefined count this gives NaN, and the model carries that NaN; see "## Findings".

## Model

| member | source | states |
|---|---|---|
| ProjectService.ValidateProjectData | src/services/projectService.js:240-254 | A missing name, or one whose trimmed length is under 3, gives exactly the "minst 3 tecken" error. A trimmed length over 100 gives exactly the "max 100" error. Only `name` can be in the map, and `isValid` holds iff the map is empty, iff the name is accepted. |
| ProjectService.GetErrorMessageByStatus | src/services/projectService.js:225-237 | Fixed text for 400, 401, 403, 404, 409, 422 and 500. Any other status gives `HTTP-fel: <status>`. The text is never empty. |
| ProjectService.CreateFailure | src/services/projectService.js:70-105 | The checks run in order: `isApiError` first (data message or status text, data errors, status), then `isNetworkError`, then `error.response`, then the fallback. Each branch's envelope is given. |
| ProjectService.CreateProject | src/services/projectService.js:48-107 | Invalid data is rejected with the validation envelope and sends nothing. Valid data sends `POST /projects` with the name. It returns the project on success and `CreateFailure` of the error otherwise. |
| ProjectService.UpdateFailure | src/services/projectService.js:132-186 | A message containing `E11000 duplicate key error` wins over every flag and gives the duplicate-name message with status 409 and no `errors`. After that the order is `isApiError` (message or fallback, data errors, status), then `isNetworkError` (message or the connection text, no `errors`, no status), then `error.response`, then the fallback (message or the unexpected-error text, no `errors`, no status). On the `error.response` branch a duplicate-key data message also gives 409; otherwise the result is the data message or the status text, the response's errors, and its status. |
| ProjectService.UpdateProject | src/services/projectService.js:110-187 | Invalid data sends nothing and returns the validation envelope. Valid data sends `PUT /projects/<id>`, and a failure is shaped by `UpdateFailure`. |
| ProjectService.DeleteFailure | src/services/projectService.js:200-214 | `error.response` is checked before `isApiError`. The fallbacks are "Kunde inte ta bort projekt" and then the error's own message or the unexpected-error text. |
| ProjectService.DeleteProject | src/services/projectService.js:190-222 | Sends `DELETE /projects/<id>`. It succeeds iff the call succeeded, with the fixed success message, and otherwise returns `DeleteFailure`. |
| ProjectService.InvalidProjectNeverReachesNetwork | src/services/projectService.js:51-58 | For a rejected name, create and update send no request, and their result is the same whatever the network would have answered. |
| ProjectService.TwoLetterNameRejected | src/services/projectService.js:244-245 | `createProject({name: "ab"})` sends nothing and reports the "minst 3 tecken" error. |
| ProjectService.DuplicateKeyWins | src/services/projectService.js:132-138 | Any error whose message contains the duplicate-key marker becomes the duplicate-name failure with status 409, whatever its flags. |
| UserService.Login | src/services/userService.js:10-30 | Sends `POST /users/login` with the credentials. Success gives the token and user. A failure gives the error's message or "Inloggning misslyckades". |
| UserService.UsernameError | src/services/userService.js:184-190 | The first failing check wins and at most one username error is recorded: absent or trimmed length under 3, then over 50, then a character outside letters, digits, `.`, `_` and `-`. The error is present iff the username is not accepted. |
| UserService.RoleError | src/services/userService.js:193-195 | A role error is present iff the role is not one of admin, designer, developer, tester. |
| UserService.PasswordError | src/services/userService.js:198-204 | Untrimmed length is measured. On create a password of length at least 6 is required. On edit an absent or empty password is accepted, but a present shorter one is not. |
| UserService.ValidateUserData | src/services/userService.js:180-210 | Each of the three fields is in the map iff its rule fails, with that rule's message. No other key appears. `isValid` holds iff the map is empty, iff all three rules pass. |
| UserService.EditModeIsLaxer | src/services/userService.js:198-204 | Data valid for creation is valid for editing. An edit without a password is valid iff the username and role rules record no error, while creation refuses that same data. |
| UserService.CreateStatusMessage | src/services/userService.js:92-104 | 400 and 409 have their own messages; every other status gets the generic create failure. |
| UserService.CreateFailureAsWritten | src/services/userService.js:92-104 | As written, the message and field errors come from `error.response.data`. A missing message falls back to the status message. The envelope carries no item and no status. |
| UserService.CreateFailure | src/services/userService.js:92-104 | The corrected shaping: the server's message (falling back to the status message) and its field errors are read from `error.data`, where the interceptor puts them. The envelope carries no item and no status. |
| UserService.CreateUser | src/services/userService.js:71-108 | Validates in create mode. Invalid data sends nothing. Valid data sends `POST /users`. A failure is shaped as written, by `CreateFailureAsWritten`. |
| UserService.UpdateStatusMessage | src/services/userService.js:132-146 | 400, 404 and 409 have their own messages; every other status gets the generic update failure. |
| UserService.UpdateFailureAsWritten | src/services/userService.js:132-146 | As written: message and errors read from `error.response.data`. The envelope carries no item and no status. |
| UserService.UpdateFailure | src/services/userService.js:132-146 | The corrected shaping: message and errors are read from `error.data`, falling back to the status message. The envelope carries no item and no status. |
| UserService.UpdateUser | src/services/userService.js:111-150 | Validates in edit mode. Invalid data sends nothing. Valid data sends `PUT /users/<id>`. A failure is shaped as written, by `UpdateFailureAsWritten`. |
| UserService.DeleteStatusMessage | src/services/userService.js:162-174 | 404 and 409 have their own messages; every other status gets the generic delete failure. |
| UserService.DeleteFailureAsWritten | src/services/userService.js:162-174 | As written: message read from `error.response.data`, no `errors` property. The envelope carries no item and no status. |
| UserService.DeleteFailure | src/services/userService.js:162-174 | The corrected shaping: the message is read from `error.data`, and there is no `errors` property. The envelope carries no item and no status. |
| UserService.DeleteUser | src/services/userService.js:153-177 | Sends `DELETE /users/<id>`. It succeeds iff the call succeeded. Otherwise it returns `DeleteFailureAsWritten`, the shaping as written. |
| UserService.InvalidUserNeverReachesNetwork | src/services/userService.js:74-81 | Data rejected in create (or edit) mode makes create (or update) send nothing, with the same result for every network outcome. |
| UserService.RoleDisplayName | src/services/userService.js:239-247 | The four roles map to their Swedish labels, and any other value is returned unchanged. |
| PostService.NormalizePosts | src/services/postService.js:15-23 | The order of precedence is a bare array, then an array under `posts`, then an array under `data`, then `[]`. |
| PostService.NormalizedPostsComeFromResponse | src/services/postService.js:15-23 | Every post of the normalised list occurs in the response body. |
| PostService.GetAllPosts | src/services/postService.js:10-42 | Always sends `GET /posts` and always carries a list. Success reports "Hämtade N inlägg" for the N posts returned. Failure carries `[]` and the error's message or the fixed one. |
| PostService.TitleError | src/services/postService.js:183-189 | Missing or blank gives "obligatorisk", a trimmed length under 3 gives "minst 3", and over 100 gives "max 100". The error is present iff the title is rejected. |
| PostService.PostRoleError | src/services/postService.js:192-197 | Missing gives "obligatorisk". A value outside designer, developer, tester (so also admin) gives the invalid-role message. |
| PostService.ContentError | src/services/postService.js:200-204 | Missing or blank gives "obligatoriskt" and a trimmed length under 10 gives "minst 10". There is no upper bound. |
| PostService.ValidatePostData | src/services/postService.js:179-210 | Each field is in the map iff its rule fails, with that rule's message. `isValid` holds iff the map is empty. |
| PostService.AdminPostRejected | src/services/postService.js:192-197 | A post for the admin role is never valid. |
| PostService.CreateStatusMessage | src/services/postService.js:92-101 | 400 and 403 have their own messages; every other status gets the generic create failure. |
| PostService.CreateFailureAsWritten | src/services/postService.js:92-101 | As written: message and errors read from `error.response.data`. The envelope carries no item and no status. |
| PostService.CreateFailure | src/services/postService.js:92-101 | The corrected shaping: message and errors are read from `error.data`, falling back to the status message. The envelope carries no item and no status. |
| PostService.CreatePost | src/services/postService.js:67-105 | Invalid data sends nothing. Valid data sends `POST /posts`. A failure is shaped as written, by `CreateFailureAsWritten`. |
| PostService.UpdateStatusMessage | src/services/postService.js:133-144 | 400, 404 and 403 have their own messages; every other status gets the generic update failure. |
| PostService.UpdateFailureAsWritten | src/services/postService.js:133-144 | As written: message and errors read from `error.response.data`. The envelope carries no item and no status. |
| PostService.UpdateFailure | src/services/postService.js:133-144 | The corrected shaping: message and errors are read from `error.data`, falling back to the status message. The envelope carries no item and no status. |
| PostService.UpdatePost | src/services/postService.js:108-148 | Invalid data sends nothing. Valid data sends `PUT /posts/<id>`. A failure is shaped as written, by `UpdateFailureAsWritten`. |
| PostService.DeleteStatusMessage | src/services/postService.js:164-173 | 404 and 403 have their own messages; every other status gets the generic delete failure. |
| PostService.DeleteFailureAsWritten | src/services/postService.js:164-173 | As written: message read from `error.response.data`. The envelope carries no item and no status. |
| PostService.DeleteFailure | src/services/postService.js:164-173 | The corrected shaping: the message is read from `error.data`, falling back to the status message. The envelope carries no item and no status. |
| PostService.DeletePost | src/services/postService.js:151-176 | Sends `DELETE /posts/<id>`. It succeeds iff the call succeeded. Otherwise it returns `DeleteFailureAsWritten`, the shaping as written. |
| PostService.InvalidPostNeverReachesNetwork | src/services/postService.js:70-77 | Rejected data makes create and update send nothing, with the same result for every network outcome. |
| PostService.RoleDisplayName | src/services/postService.js:239-246 | designer gives "Designers", developer gives "Utvecklare" and tester gives "Testare". There is no admin entry: any other value is returned unchanged. |
| ChecklistService.BoundedError | src/services/checklistService.js:184-195 | A bounded field has an error iff its trimmed length is outside the bounds. Too short (or missing) and too long have their own messages. |
| ChecklistService.ValidateItemData | src/services/checklistService.js:180-201 | The title is valid iff its trimmed length is in [3, 100] and the content iff it is in [10, 1000]. `isValid` holds iff the map is empty, iff both hold. |
| ChecklistService.Failure | src/services/checklistService.js:69-81 | An `isApiError` gives the data message or the operation's fallback, plus the data errors where the operation reports them. Every other error gives "Ett oväntat fel uppstod". The envelope carries no item and no status. |
| ChecklistService.AddChecklistItem | src/services/checklistService.js:48-83 | Invalid data returns the validation envelope and sends nothing. Valid data sends `POST …/items` with the item. |
| ChecklistService.UpdateChecklistItem | src/services/checklistService.js:86-121 | Invalid data returns the validation envelope and sends nothing. Valid data sends `PUT …/items/<itemId>`. |
| ChecklistService.RemoveChecklistItem | src/services/checklistService.js:124-148 | Sends `DELETE …/items/<itemId>`. It carries the checklist on success and the shaped failure otherwise. |
| ChecklistService.ToggleChecklistItem | src/services/checklistService.js:151-177 | Sends `PATCH …/toggle` with exactly `{itemId, completed}`. The success message is chosen by `completed`. |
| ChecklistService.ToggleMessageDecidedByState | src/services/checklistService.js:161 | The success message depends on nothing but `completed`, and the two messages differ. |
| ChecklistService.InvalidItemNeverReachesNetwork | src/services/checklistService.js:51-58 | Rejected data makes add and update send nothing, whatever the network would have answered. |
| ChecklistService.RoleDisplayName | src/services/checklistService.js:204-211 | The three roles get their labels, and any other value is returned unchanged. |
| ChecklistService.NormalizeItem | src/services/checklistService.js:217-227 | `id` becomes `_id` when that is truthy and keeps its value otherwise. No other property changes. |
| ChecklistService.FormatChecklistForDisplay | src/services/checklistService.js:214-229 | Missing items become `[]`. Otherwise the result has one normalised item per item, in order. |
| ChecklistService.FormatIdempotent | src/services/checklistService.js:214-229 | Formatting a formatted checklist changes nothing. |
| ChecklistService.FormattedItemsIdentifiedByDbId | src/services/checklistService.js:217-227 | An item with a truthy `_id` is identified by it after formatting. |
| ProgressService.RoundPercent | src/services/progressService.js:87-89 | `Math.round(c / t * 100)` as the exact rational rounding: the result `r` satisfies `r - 1/2 <= 100c/t < r + 1/2`. |
| ProgressService.RoundPercentRange | src/services/progressService.js:87-89 | For `0 <= c <= t`, the rounded percentage is within [0, 100]. |
| ProgressService.FullIffAllDone | src/services/progressService.js:87-89 | With fewer than 200 items, 100 % is shown iff every item is done. |
| ProgressService.NearlyDoneRoundsToFull | src/services/progressService.js:87-89 | 199 of 200 items done already shows 100 %. |
| ProgressService.SumsConsistent | src/services/progressService.js:138-139 | When each role has `0 <= completed <= total`, the sums keep that relation. Missing counts count as 0. |
| ProgressService.CalculateTotalProgress | src/services/progressService.js:134-142 | It is 0 without roles and 0 when the summed total is 0. Otherwise it is the rounded percentage of the summed counts, with missing counts as 0. |
| ProgressService.TotalProgressRange | src/services/progressService.js:134-142 | For consistent counts, the total progress is within [0, 100]. |
| ProgressService.AsWrittenPercentage | src/services/progressService.js:87-89 | As written, `total > 0 ? Math.round(completed / total * 100) : 0`. The result is 0 when the total is not a positive number. It is NaN when the total is positive and `completed` is undefined, and 0 when `completed` is `null`. Otherwise it is the rounded percentage. |
| ProgressService.Percentage | src/services/progressService.js:83-89 | The corrected per-role percentage, computed from the counts the line displays (`|| 0`). It is 0 when the total is not positive. |
| ProgressService.MissingCompletedGivesNaN | src/services/progressService.js:85-89 | A role with total 4 and no `completed` is shown by formatProgressForDisplay as 0 of 4 with percentage NaN. formatRoleProgressForDisplay's percentage for it is NaN too. |
| ProgressService.PercentageMatchesShownCounts | src/services/progressService.js:85-89 | The corrected percentage is the rounded percentage of the displayed counts. It agrees with the as-written one wherever that is a number. The as-written one is NaN exactly when the total is positive and `completed` is undefined; a `null` count gives a number. |
| ProgressService.RoleDisplayName | src/services/progressService.js:145-152 | The three roles get their labels, and any other value is returned unchanged. |
| ProgressService.FormatProgressForDisplay | src/services/progressService.js:73-103 | A falsy input gives null. Otherwise the input is kept with its total percentage added. There is one line per role key, in order, with its label, its counts with `|| 0`, and the as-written percentage, which may be NaN. Missing roles give `[]`. |
| ProgressService.FormatRoleProgressForDisplay | src/services/progressService.js:106-131 | A falsy input gives null. Otherwise it adds the role, its label, the as-written percentage of its counts (NaN for an undefined `completed` with a positive total), and one entry per item, or none when items are missing. |
| ProgressService.SumProgressRange | src/services/progressService.js:164-177 | For consistent projects, the sum of total progress is within [0, 100·n]. |
| ProgressService.GetProgressStatistics | src/services/progressService.js:155-179 | A non-array gives null. The counts are total projects, completed (total progress 100) and in progress (the difference, never negative). Average and completion rate are 0 for an empty list and rounded ratios otherwise. |
| ProgressService.StatisticsRange | src/services/progressService.js:164-177 | For consistent projects, the average progress and the completion rate are within [0, 100]. |
| UserJson.ParseSerialize | src/stores/auth.js:39 | The user written to `auth_user` by `JSON.stringify` is read back unchanged by the parse of `initializeAuth`. |
| UserJson.CorruptTextIsRejected | src/stores/auth.js:59-65 | Empty, `null` and truncated texts are not read as a stored user. |
| Auth.RoleDisplayName | src/stores/auth.js:75-83 | An undefined role gives undefined. The four roles get their labels, and every other value is returned unchanged. |
| Auth.AuthStore.constructor | src/stores/auth.js:9-11 | There is no user. The token is the stored `auth_token`, and the store is authenticated iff that token is truthy. |
| Auth.AuthStore.UserRole | src/stores/auth.js:14 | `user?.role`. |
| Auth.AuthStore.Logout | src/stores/auth.js:17-26 | Clears user, token and the flag. Removes both storage keys, keeps every other key, and goes to `/login`. |
| Auth.AuthStore.Login | src/stores/auth.js:29-48 | Success sets the user, token and flag, writes both keys, and replies `{success: true}`. A refusal passes the service's message and a throw gives the fixed message; in both cases nothing changes. |
| Auth.AuthStore.InitializeAuth | src/stores/auth.js:51-67 | Acts only when both keys are truthy. Takes over the token, then either restores the user and the flag, or removes both keys while the token stays in memory. |
| Auth.AuthStore.RedirectToDashboard | src/stores/auth.js:70-72 | Navigates to `/dashboard/<role>` and changes nothing else. |
| Auth.LogoutIsIdempotent | src/stores/auth.js:17-26 | Logging out twice ends in the same state and storage as logging out once. |
| Auth.LoginThenReload | src/stores/auth.js:35-39 | After a successful login with a non-empty token, a store created on the next page load and initialised from storage holds the same user and token and is authenticated. |
| Router.Resolve | src/router/index.js:17-108 | `/` is redirected to `/login`. A path of the table resolves to that route and any other path to the catch-all NotFound route. |
| Router.ResolveDashboard | src/router/index.js:58-97 | `/dashboard/<role>` is the dashboard of each of the four roles. Any other role's dashboard path is not found. |
| Router.PageTitle | src/router/index.js:129-143 | A route title plus the site name. An authenticated user on a path containing `dashboard` sees their own role's label plus " Dashboard" when the label is truthy. Without a route title, the title is the site name. |
| Router.NotFoundDashboardTitle | src/router/index.js:129-143 | An authenticated tester at `/dashboard/nope` gets the not-found page titled "Testare Dashboard". |
| Router.Guard | src/router/index.js:145-176 | No redirect iff the session meets the route's rules. The checks run in order: requiresAuth without a session goes to `/login`; requiresGuest with a session goes to the user's dashboard, or logs out and goes to `/login` without a role; a loaded user outside `allowedRoles` goes to `/unauthorized`. |
| Router.DashboardAccess | src/router/index.js:68-97 | A designer, developer or tester dashboard lets a user through iff the user holds that role or is admin. |
| Router.AdminDashboardAccess | src/router/index.js:58-67 | The admin dashboard lets a user through iff the user is admin. |
| Router.AnonymousVisitor | src/router/index.js:146-149 | Without a session, every route that requires auth redirects to `/login` and every other route lets the visitor through. |
| Router.UserlessSessionSkipsRoleCheck | src/router/index.js:165 | A session with a token but no loaded user gets through to every dashboard. |
| Router.RedirectsSettle | src/router/index.js:145-176 | The page a redirect names lets the session through (after the logout, where there is one), so no redirect leads to another. |
| Router.BeforeEach | src/router/index.js:125-177 | Sets the title from the resolved route, logs out exactly when the guard says so, and returns the guard's redirect. |
| Api.Classify | src/config/api.js:56-103 | A response gives status, data, and the data message or `HTTP-fel <status>`, with `isApiError`. No response gives status 0, the connection message and `isNetworkError`. Otherwise the error's message or the fallback, with `isUnknownError`. `response` is never set. |
| Api.ClassifiedErrorsAreUniform | src/config/api.js:84-103 | Every rejection has a non-empty message and exactly one of the three flags. |
| Api.BearerToken | src/config/api.js:33 | The store's token when it is truthy, otherwise the stored `auth_token`. |
| Api.InterceptRequest | src/config/api.js:31-41 | `Authorization: Bearer <token>` is set iff that token is truthy, and the headers are otherwise unchanged. |
| Api.ReloadedStoreSendsStoredToken | src/config/api.js:33-38 | A store created with a token in storage sends that token. |
| Api.LoggedOutStoreSendsNoToken | src/config/api.js:33-38 | After logout no Authorization header is added. |
| Api.InterceptResponseError | src/config/api.js:52-104 | Rejects with the classified error. A 401 logs out and goes to `/login`, and every other failure leaves session, storage and location alone. |
| Api.InterceptResponse | src/config/api.js:48-105 | A successful response passes through unchanged with no side effect. A failure is rejected with its classified error. On a 401 the session is logged out, both storage keys are removed and the page goes to /login. Any other failure leaves the session, the storage and the location as they were. |
| Api.ServerReplyLostAsWritten | src/services/userService.js:92-104 | For every HTTP failure, the user and post services as written report only the status's fixed message and no field errors. |
| Api.DuplicateUsernameDetailLost | src/services/userService.js:92-104 | A 409 whose body names the clashing field reaches the form as the generic message with an empty error map. `createUser` with any valid data returns exactly that envelope. |
| Api.ServerReplyKept | src/services/userService.js:92-104 | Read from `error.data`, the server's message (when present) and its field errors reach the envelope for every operation of both services. |
| Posts.PostsStore.constructor | src/stores/posts.js:7-11 | No posts, not loading, no error. |
| Posts.PostsStore.RolePosts | src/stores/posts.js:18-20 | Exactly the posts of that role, each with every copy it has in the list, numbered by the role count (designerPosts, developerPosts, testerPosts, getPostsForRole). |
| Posts.PostsStore.PostsByRole | src/stores/posts.js:42-45 | The admin role gives every post; any other role gives exactly the posts with that role. |
| Posts.PostsStore.GetPostById | src/stores/posts.js:23 | None iff no post has that `id` or `_id`. Otherwise the first post of the list that has it. |
| Posts.PostsStore.GetPostByTitle | src/stores/posts.js:26-27 | None iff no post has that title. Otherwise the first post of the list that has it. |
| Posts.PostsStore.RecentlyCreated | src/stores/posts.js:30-33 | At most 10 posts (all when fewer), newest first, taken from the list. No post left out is newer than one listed. |
| Posts.PostsStore.RecentlyUpdated | src/stores/posts.js:36-39 | The same for `updatedAt`. |
| Posts.PostsStore.SearchPosts | src/stores/posts.js:174-183 | An empty term gives every post. Otherwise, exactly the posts whose lower-cased title, content or role contains the lower-cased term, each with every copy it has in the list. |
| Posts.PostsStore.GetStatistics | src/stores/posts.js:157-166 | Total, per-role counts, and the sizes of both recent lists. |
| Posts.PostsStore.FetchPosts | src/stores/posts.js:50-67 | Success replaces the list. A refusal sets the error to its message and keeps the list. A throw sets the fixed message. Loading ends false. |
| Posts.PostsStore.CreatePost | src/stores/posts.js:70-91 | Success puts the post at index 0. A refusal sets the error. A throw sets the fixed message and returns `{success:false, message}`. |
| Posts.PostsStore.UpdatePost | src/stores/posts.js:94-118 | Success replaces the first post matching `id`/`_id`, or nothing. A refusal sets the error. |
| Posts.PostsStore.DeletePost | src/stores/posts.js:121-142 | Success removes every matching post and keeps the rest in order. A refusal sets the error. |
| Posts.PostsStore.ClearError | src/stores/posts.js:145-147 | The error is null and nothing else changes. |
| Posts.PostsStore.ResetState | src/stores/posts.js:150-154 | No posts, not loading, no error. |
| Posts.RoleCountsAddUp | src/stores/posts.js:157-166 | The three role counts add up to the total when every post belongs to one of the three roles. |
| Posts.DeletedPostIsGone | src/stores/posts.js:130 | After the delete filter no post has that id. Every copy of every other post is kept, and a delete of an id no post has changes nothing. |
| Posts.CreatedPostIsFound | src/stores/posts.js:79 | The prepended post is the one getPostById finds by its id. |
| Posts.UpdatedPostIsFound | src/stores/posts.js:103-106 | An update keeps the count, and getPostById then finds the new version. |
| Users.UsersStore.constructor | src/stores/users.js:7-11 | No users, not loading, no error. |
| Users.UsersStore.RoleUsers | src/stores/users.js:18-21 | Exactly the users of that role, each with every copy it has in the list (adminUsers, designerUsers, developerUsers, testerUsers, getUsersByRole). |
| Users.UsersStore.GetUserById | src/stores/users.js:24 | None iff no user has that `id` or `_id`. Otherwise the first user of the list that has it. |
| Users.UsersStore.GetUserByUsername | src/stores/users.js:27-28 | None iff no user has that username. Otherwise the first user of the list that has it. |
| Users.UsersStore.RecentlyCreated | src/stores/users.js:31-34 | The 10 newest users from the list, newest first. No user left out is newer than one listed. |
| Users.UsersStore.RecentlyUpdated | src/stores/users.js:37-40 | The same for `updatedAt`. |
| Users.UsersStore.SearchUsers | src/stores/users.js:168-176 | An empty term gives every user. Otherwise, exactly those whose username or role contains the term, ignoring case, each with every copy it has in the list. |
| Users.UsersStore.GetStatistics | src/stores/users.js:150-160 | Total, the four role counts, and the sizes of both recent lists. |
| Users.UsersStore.FetchUsers | src/stores/users.js:45-62 | Success replaces the list. A refusal sets the error. A throw sets the fixed message. Loading ends false. |
| Users.UsersStore.CreateUser | src/stores/users.js:65-85 | Success appends the user. A refused creation leaves the list and the cleared error alone. A throw sets the fixed message. |
| Users.UsersStore.UpdateUser | src/stores/users.js:88-111 | Success replaces the first matching user. A refusal leaves the list and the cleared error alone. |
| Users.UsersStore.DeleteUser | src/stores/users.js:114-135 | Success removes every matching user. A refusal sets the error to its message. |
| Users.UsersStore.ClearError | src/stores/users.js:138-140 | The error is null and nothing else changes. |
| Users.UsersStore.ResetState | src/stores/users.js:143-147 | No users, not loading, no error. |
| Users.RoleCountsAddUp | src/stores/users.js:150-160 | The four role counts add up to the total when every user holds one of the four roles. |
| Users.DeletedUserIsGone | src/stores/users.js:123 | After the delete filter no user has that id. Every copy of every other user is kept, and a delete of an id no user has changes nothing. |
| Users.CreatedUserIsFound | src/stores/users.js:74 | An appended user with a fresh id is the one getUserById finds. |
| Projects.ProjectsStore.constructor | src/stores/projects.js:9-11 | No projects, not loading, error `''`. |
| Projects.ProjectsStore.ProjectCount | src/stores/projects.js:14 | The length of the list. |
| Projects.ProjectsStore.HasProjects | src/stores/projects.js:15 | Holds iff the count is positive, iff the list is not empty. |
| Projects.ProjectsStore.ClearError | src/stores/projects.js:18-20 | The error is `''`, not null, and nothing else changes. |
| Projects.ProjectsStore.SetLoading | src/stores/projects.js:22-24 | Sets the flag only. |
| Projects.ProjectsStore.SetError | src/stores/projects.js:26-28 | Sets the message only. |
| Projects.ProjectsStore.FetchProjects | src/stores/projects.js:31-48 | Success sets the list to the projects or `[]`. A refusal sets the (never empty) message or "Kunde inte hämta projekt". A throw sets the fixed message. Loading ends false. |
| Projects.ProjectsStore.CreateProject | src/stores/projects.js:51-74 | Success prepends the project. A refusal leaves the error `''`. A throw sets the fixed message and returns `{success:false, message}`. |
| Projects.ProjectsStore.UpdateProject | src/stores/projects.js:77-103 | Success replaces the first project matching `_id`/`id`, or nothing. A refusal leaves the error `''`. |
| Projects.ProjectsStore.DeleteProject | src/stores/projects.js:106-129 | Success removes every matching project. A refusal leaves the error `''`. |
| Projects.ProjectsStore.GetProjectById | src/stores/projects.js:132-142 | The service's answer, or `{success:false, message:'Kunde inte hämta projekt'}` when it throws. |
| Projects.DeletedProjectIsGone | src/stores/projects.js:115 | After the delete filter no project has that id. Every copy of every other project is kept, the length is the number kept, and a delete of an id no project has changes nothing. |
| Projects.CreateThenHasProjects | src/stores/projects.js:58-61 | After a successful create the store has projects, the new one first, and the count has grown by one. |

## Left out

- The axios transport, base URL, default headers, 10-second timeout and the `api.get/post/put/patch/delete` wrappers are left out. They are foreign library calls. A service call's outcome is a parameter: the response data, or the error it was rejected with.
- `async`/`await` interleavings and Vue/Pinia reactivity are left out. Each store action is atomic, so `loading` is true only while a call is pending and is observable only as `false` afterwards.
- Dates are left out. Timestamps are integers, so invalid dates (NaN in the sort comparator) and the `toLocaleDateString` fields of the `format*ForDisplay` functions are not modelled.
- `getAllProjects`, `getProjectById`, `getAllUsers`, `getUserById`, `getPostById`, `getChecklist…` and the progress fetchers of the services are left out. They are a single request with the same failure shaping as the operations modelled.
- The `formatUserForDisplay` and `formatPostForDisplay` helpers are left out. They add `roleDisplayName`, the role's label from UserService.RoleDisplayName or PostService.RoleDisplayName, and locale-formatted dates. Neither field is modelled on the users and posts that the services return and the stores hold.
- UserService.UsernameError takes membership in Unicode's `\p{L}` as a parameter `isLetter`, because the Unicode tables are not part of this model.
- Js.Lower lowers only the Basic Latin and Latin-1 letters, in place of full Unicode case mapping.
- Js.Trim removes the ECMAScript white-space and line-terminator characters. `Length` counts UTF-16 code units of `char`s.
- ProgressService.RoundPercent is the exact rational rounding of `c / t * 100`. It does not model binary floating point, which can differ from it at .5 boundaries.
- Auth.AuthStore.InitializeAuth reads only the text `JSON.stringify` writes for a session user. Other valid JSON texts (`null`, a number, reordered keys, extra white space) count as a parse failure here, whereas `JSON.parse` would accept them and store a value that is not a user.
- Api.Classify assumes a response always carries a body. A response whose `data` is null makes the interceptor fail with a TypeError whose message is not modelled.
- Posts.PostsStore.RecentlyCreated states the order, the size and which posts are chosen, but not the order among posts with equal timestamps (the same holds for the users store).
- Role display names are lookups in the table's own properties. A role name that is an inherited `Object.prototype` property (`constructor`, `toString`, …) is not modelled.
- The route table's matches are exact. vue-router's case-insensitive matching and its tolerance of a trailing slash are not modelled. The `scrollBehavior` option and the view components are left out.
- `document.title`, `window.location.href` and `localStorage` are fields of one `Browser.Window` object, with no navigation actually taking place.
- `getRoleDisplayName` of the posts store (src/stores/posts.js:186-193) has no member of its own. Its table is the one ChecklistService.RoleDisplayName states.
- Null role entries in the progress data are not modelled: a role is present with its counts, or absent. A count is undefined, `null` or a number.
- Every service envelope's raw `error` (on failure) and `data` (on success) are dropped. Auth.AuthStore.Login passes on only the message of a refused login. No core caller reads them.
- ProgressService.FormatRoleProgressForDisplay represents the progress items by their count: the `...item` copy with its formatted completion date is not modelled.

## Findings

| source | as written | input that shows it | evidently intended | confidence | as-written member | corrected member |
|---|---|---|---|---|---|---|
| src/services/userService.js:92-104 | The catch blocks of createUser, updateUser and deleteUser read `error.response?.data?.message` and `…errors`. The response interceptor (src/config/api.js:84-89) rejects with `{status, message, data, isApiError}`, which has no `response` property. | A 409 answered with body `{message: "Username 'anna' is taken", errors: {username: "taken"}}` | Read `error.data?.message` and `error.data?.errors`. The server's message and per-field errors would then reach the form, as the checklist service already does. | high; not executed | Api.DuplicateUsernameDetailLost | Api.ServerReplyKept |
| src/services/postService.js:92-101 | The catch blocks of createPost, updatePost and deletePost read the server's reply from `error.response`, which the interceptor never sets. | Any HTTP failure with a message in its body, e.g. a 403 with `{message: "Only admins may post"}` | Read the reply from `error.data`. | high; not executed | Api.ServerReplyLostAsWritten | Api.ServerReplyKept |
| src/services/progressService.js:87-89 | The role percentage divides `progress.roles[role].completed` itself, while the displayed `completed` is `… || 0`. | A role with `{total: 4}` and no `completed` shows 0 completed and a NaN percentage. | Compute the percentage from the same defaulted counts it displays, giving 0. | medium; not executed | ProgressService.MissingCompletedGivesNaN | ProgressService.PercentageMatchesShownCounts |
| src/services/progressService.js:113-115 | formatRoleProgressForDisplay computes `progressPercentage` from `progress.completed` without a default. | `{total: 4}` with no `completed` gives a NaN `progressPercentage`. | Read a missing `completed` as 0, giving 0. | medium; not executed | ProgressService.MissingCompletedGivesNaN | ProgressService.PercentageMatchesShownCounts |
