# Task and user API stores, modelled in Dafny

The repository is a small Express server that keeps two process-wide arrays:
`taskList` holds `{id, task, completed}` records and `userList` holds
`{id, name, email, password}` records. Its handlers do the following:

- create a batch of tasks (POST /tasks)
- rename a task (PATCH /tasks/:id)
- delete a task (DELETE /tasks/:id)
- register a user (POST /register)
- log a user in (POST /login)

Create, register, rename and delete change their array in place. Login only reads the user array. Rename does not check `newName` at all. Every handler replies with a status code (200, 201, 400, 403, 404 or 409). On success the reply carries the affected record(s) or, for login, the token.

The model has four modules:

- `Records` (records.dfy): the two record types and the id scheme. A new record's id is the decimal text of the array length plus one. `NatToString` renders it. `ParseDecimal` is its inverse and backs the proof that different counts give different ids.
- `CheckEmailPass` (check_email_pass.dfy): `emailExists` and `checkUserCredentials` as left-to-right scans. Each scan is proved equal to an existential reference predicate (`HasEmail`, `HasAccount`).
- `Api` (api.dfy): each handler as a pure transition from the old array to a reply and a new array (`CreateTasksSpec`, `RenameTaskSpec`, `DeleteTaskSpec`, `RegisterSpec`, `LoginSpec`). It also has the class `Server`. Its two `seq` fields are the two arrays, and it has one method per handler. Each method runs the handler's steps in place and is proved to produce exactly the reply and new array of its transition. The batch insert is a loop that pushes one record at a time. Each id comes from the length the array has reached at that push.
- `ApiProperties` (api_properties.dfy): properties that span several calls. Examples: a second delete of the same id finds nothing, a user can log in right after registering, and renaming is idempotent. It also has a concrete case where a create after a delete reuses a live id.

Ids are not unique in general. They are derived from the current length, so a delete followed by a create can reuse a live id (`IdsCollideAfterDelete`). That is why rename and delete act on the first match. Uniqueness of ids or emails appears only as the hypothesis of the lemmas that need it.

An email already present gives 409 only when the email and the password are both non-empty, because the emptiness check (src/index.js:69) runs first. `RegisterTwiceConflicts` therefore requires a non-empty password.

Delete answers 400 for an empty id, copying the `if (!id)` check (src/index.js:181). The route `/tasks/:id` never binds an empty segment, so no request reaches that case. The 400 case of `DeleteTaskSpec` and `DeleteTwiceNotFound` is kept for fidelity to the code, not as reachable behaviour.

## Model

| member | source | states |
|---|---|---|
| `Records.NatToString` | src/index.js:51 | the id text of a count is a non-empty string of decimal digits with no leading zero for positive counts |
| `Records.ParseNatToString` | src/index.js:51 | reading an id back as a decimal number gives the count it was made from |
| `Records.NatToStringInjective` | src/index.js:96 | two ids are equal exactly when they were made from the same count |
| `CheckEmailPass.EmailExists` | src/checkEmailPass.js:1-3 | true iff some user's email equals the given email exactly; false on an empty list |
| `CheckEmailPass.CheckUserCredentials` | src/checkEmailPass.js:5-7 | true iff one single user has both the given email and the given password; false on an empty list |
| `CheckEmailPass.CredentialsImplyEmailExists` | src/checkEmailPass.js:1-7 | a successful credential check implies the email exists |
| `CheckEmailPass.AppendKeepsMatches` | src/checkEmailPass.js:2-6 | appending a user never turns either predicate from true to false |
| `Api.AppendBatch` | src/index.js:50-55 | pushing names one at a time keeps the old records in front, and the i-th new record has id `oldLength + i + 1`, the i-th name, and `completed = false` |
| `Api.CreateTasksSpec` | src/index.js:31-62 | success iff the batch is present, non-empty and every element has a non-empty name; any refusal is 400 with the store unchanged; success is 201, appends one record per element in input order with sequential ids and `completed = false`, and returns exactly the appended records |
| `Api.FindIndex` | src/index.js:158 | -1 iff no task has the id; otherwise the position of the first task with that id |
| `Api.RenameTaskSpec` | src/index.js:154-174 | 404 with the store unchanged iff no task has the id; otherwise 200, only the `task` name of the first matching record changes (same length, order and other records), and the reply carries the updated record |
| `Api.DeleteTaskSpec` | src/index.js:178-207 | empty id is 400 and absent id is 404, both with the store unchanged; otherwise 200, exactly the first matching record is removed, the rest keep their order, the store is one shorter and the reply carries the removed record |
| `Api.RegisterSpec` | src/index.js:66-108 | checks in order: empty email or password is 400, existing email is 409, mismatched confirmation is 400, each leaving the store unchanged; success is 201, appends one user with id `oldLength + 1` and the given fields, and replies with id, name and email but no password |
| `Api.LoginSpec` | src/index.js:112-150 | empty email or password is 400, unknown email is 404, no user matching both email and password is 403; success iff some user matches both, replying 200 with the token |
| `Api.Server.constructor` | src/index.js:4-5 | both stores start as the given seed lists |
| `Api.Server.CreateTasks` | src/index.js:31-62 | the in-place batch insert yields exactly the reply and new task list of `CreateTasksSpec`, and the user list is not touched |
| `Api.Server.Register` | src/index.js:66-108 | the in-place registration yields exactly the reply and new user list of `RegisterSpec`, and the task list is not touched |
| `Api.Server.Login` | src/index.js:112-150 | changes no state; succeeds iff the email and password are non-empty and match one user, and replies as `LoginSpec` |
| `Api.Server.RenameTask` | src/index.js:154-174 | the in-place rename yields exactly the reply and new task list of `RenameTaskSpec` |
| `Api.Server.DeleteTask` | src/index.js:178-207 | the in-place splice yields exactly the reply and new task list of `DeleteTaskSpec` |
| `ApiProperties.BatchIdsDistinct` | src/index.js:50-55 | the records of one successful batch carry pairwise different ids |
| `ApiProperties.IdsCollideAfterDelete` | src/index.js:51 | deleting id "1" from a store with ids "1" and "2" and then creating one task leaves two records with id "2" |
| `ApiProperties.DeleteKeepsIdsUnique` | src/index.js:199 | if ids were unique before a delete, they stay unique |
| `ApiProperties.DeleteTwiceNotFound` | src/index.js:188-199 | with unique ids, a second delete of the same id is 404 (400 for the empty id) and changes nothing |
| `ApiProperties.RenameKeepsIdsUnique` | src/index.js:167 | renaming changes no id, so unique ids stay unique |
| `ApiProperties.RenameIdempotent` | src/index.js:158-167 | renaming the same id to the same name twice gives the same reply and store as once |
| `ApiProperties.RegisterKeepsEmailsUnique` | src/index.js:78-97 | if emails were unique before a registration, they stay unique |
| `ApiProperties.RegisterTwiceConflicts` | src/index.js:69-85 | after a successful registration, registering the same email with a non-empty password is 409 and changes nothing |
| `ApiProperties.RegisterThenLogin` | src/index.js:96-143 | a user who has just registered logs in with the same email and password and gets 200 |
| `ApiProperties.LoginWrongPasswordForbidden` | src/index.js:124-141 | with unique emails, a registered email with a different non-empty password is 403 |

## Left out

- Express plumbing is not modelled: the listener, the routing, the JSON body parser and the message texts of the envelopes. The replies keep only the status code and the returned records or token.
- GET / and GET /tasks are left out. They only return a fixed text or the whole task list and change nothing.
- The token generator (src/token.js) reads the host's random source. `Login` takes the token as a parameter and returns it unchanged.
- The seed modules `./defaultTasks` and `./defaultUsers` are not part of this model. The `Server` constructor takes arbitrary seed lists.
- JavaScript coercions are not modelled. All register, login and rename fields are present strings. This leaves out loose `==` letting `undefined` through, `${}` rendering `undefined` as text, and an undefined `newName`.
- A batch element's `task` is either missing or a string. Truthy non-string names are not modelled. A `null` element, which would throw before any push, is not modelled either.
- A malformed JSON body and any other framework-level failure are not modelled.
- There is no concurrency in the source. Each handler runs to completion, and each method models one such run.
