# Quality-Coach monitoring-record lifecycle, in Dafny

Quality-Coach tracks call-quality monitoring records. A quality analyst files a
record. A supervisor signs it with feedback, which moves it from
`PENDING_FEEDBACK` to `PENDING_COMMITMENT`. An agent signs it with a commitment,
which moves it to `COMPLETED`. A record can be edited or deleted only while it
is `PENDING_FEEDBACK`. Users register with an e-mail, a password and a role.

The repository has two implementations of this lifecycle, and both are modelled:

- **The server** (`server.ts`): Express handlers over two SQLite tables,
  `users` (keyed by e-mail) and `monitoring_records` (AUTOINCREMENT id, status
  defaulting to `PENDING_FEEDBACK`). Module `Server` holds the rows as
  datatypes and the tables as the fields of class `RecordStore`: a map from id
  to row, the `nextId` counter, a ghost set of every id ever issued, and a map
  from e-mail to user. Each handler is a method of that class. The five
  methods that write `monitoring_records` (create, edit, delete, feedback,
  commitment) are proved against `Server.Step`, a pure transition function
  over a `Table` value. `Register`, `Login` and `List` are specified directly
  on the fields. Module `ServerFacts` proves the lifecycle properties about
  `Step` and about `Run`, which applies a sequence of requests.
  The tables are those of a database freshly created by the schema at
  server.ts:10-41.
- **The browser-only client** (`src/App.tsx`): accounts and records are arrays
  in local storage. Module `App` models registration, login and logout as
  methods of class `LocalApp`. Submitting the record form, the record filter
  and the coordinator/agent option lists are modelled as functions over
  sequences. Module `Ordering` models JavaScript's default string sort, which
  the option lists use.

The model follows the code where the code is looser than the intended design:

- No handler checks a role. The server only checks status before editing and
  deleting.
- The feedback and commitment routes have no status guard and are not
  one-shot. A commitment on a `PENDING_FEEDBACK` record completes it with no
  feedback (`ServerFacts.CommitmentSkipsFeedback`). Feedback on a `COMPLETED`
  record reopens it to `PENDING_COMMITMENT` (`ServerFacts.FeedbackReopensCompleted`).
- A request to one of these routes with an unknown id still answers success.
- So "the status is a function of which sign-offs are present"
  (`ServerFacts.SignOffsDetermineStatus`) does NOT hold for this code.
- What does hold is `ServerFacts.StatusWitnessed`, and every route preserves
  it:
  - a `PENDING_FEEDBACK` row carries no sign-off at all;
  - a `PENDING_COMMITMENT` row carries a feedback date;
  - a `COMPLETED` row carries a commitment date.
- No route ever returns a record to `PENDING_FEEDBACK`, and no route removes a
  record that has left it. So once a record has been signed, every later edit
  or deletion of it is refused.

The edit route writes NULL into a NOT NULL column when `call_details`,
`agent_name` or `call_date` is missing from the body. SQLite then rejects the
UPDATE. The model answers `ConstraintError` there, after the NotFound and
InvalidState guards, and leaves the table unchanged.

Current dates, `Date.now()` and bcrypt are parameters:

- `today` is the server's date (`new Date().toISOString().split('T')[0]`).
- `now` is the client's `Date.now()`, which becomes the new record's id.
- `passwordHash` is the digest `bcrypt.hash` produced.
- `matches` stands for `bcrypt.compare`.

## Model

| member | source | states |
|---|---|---|
| `Server.NewRow` | server.ts:145-153 | The INSERT fails (None) exactly when one of the five NOT NULL columns is missing. Otherwise the row has the given id, status `PENDING_FEEDBACK`, all six sign-off columns NULL, and exactly the submitted body's columns. |
| `Server.Edited` | server.ts:217-246 | After the edit UPDATE, the twelve editable columns equal the body. Id, registration date, creator e-mail, status and the six sign-off columns are unchanged. |
| `Server.WithFeedback` | server.ts:163-164 | Sets feedback text, today's date and signature, and status `PENDING_COMMITMENT`. Id, body columns and commitment columns are unchanged. |
| `Server.WithCommitment` | server.ts:174-175 | Sets commitment text, today's date and signature, and status `COMPLETED`. Id, body columns and feedback columns are unchanged. |
| `Server.RoleOrDefault` | server.ts:94 | `role \|\| 'AGENT'`: a present non-empty role is kept; an absent or empty one becomes `AGENT`. The result is never empty. |
| `Server.Insertable` | server.ts:19-23 | No contract: the definition of the five NOT NULL columns of the INSERT. `Server.NewRow` and `ServerFacts.CreateAddsOneRow` state its effect. |
| `Server.Applicable` | server.ts:217-231 | No contract: the definition of the NOT NULL columns the edit UPDATE writes (`call_details`, `agent_name`, `call_date`). `ServerFacts.UpdateGuarded` states its effect. |
| `Server.Step` | server.ts:127-249 | No contract: the definition of what each write route does to the table and answers. Its properties are the per-route lemmas `CreateAddsOneRow`, `DeleteGuarded`, `UpdateGuarded`, `FeedbackUnguarded` and `CommitmentUnguarded`, and the invariants `StepKeepsWellFormed`, `StatusNeverReturns` and `StepKeepsWitnessed`. |
| `Server.RegisterFailureAsWritten` | server.ts:96-102 | No contract: the definition of the catch block as written, where only the bare `SQLITE_CONSTRAINT` code answers "already exists". `ServerFacts.DuplicateEmailAnswers500` states its effect. |
| `Server.RegisterFailure` | server.ts:96-102 | No contract: the definition of the catch block as corrected, where every constraint code answers "already exists". `ServerFacts.DuplicateEmailAnswersConflict` states its effect. |
| `Server.RecordStore.constructor` | server.ts:10-41 | Both tables start empty, with no id issued yet, and the AUTOINCREMENT counter issues 1 first. The store invariant holds. |
| `Server.RecordStore.Register` | server.ts:90-103 | An e-mail already present leaves users unchanged and is answered with the generic 500 (ServerError) of the catch block as written (see "## Findings"). Otherwise exactly one user is added, under that e-mail, with the digest and `role \|\| 'AGENT'`. Records are untouched. |
| `Server.RecordStore.Login` | server.ts:105-119 | Answers LoggedIn exactly when the e-mail is registered and the password matches its digest. The answer carries the requested e-mail (the user's primary key) and the stored role. Otherwise it answers Unauthorized. |
| `Server.RecordStore.List` | server.ts:122-125 | Returns rows with strictly decreasing ids, so each row appears once. Each returned row is the stored row under its id, and every stored row is returned. The result is a value, so later writes do not alter it. |
| `Server.RecordStore.Create` | server.ts:127-156 | Agrees with `Step`. ConstraintError exactly when a NOT NULL column is missing; then no row is added and no id is used. Otherwise the answered id was never issued before, exceeds every id issued before, and is added to the issued set. Users are untouched. |
| `Server.RecordStore.Update` | server.ts:196-249 | Agrees with `Step`. NotFound exactly for an unknown id; InvalidState exactly when the record has left `PENDING_FEEDBACK`. The table is unchanged unless the answer is Ok. |
| `Server.RecordStore.Delete` | server.ts:180-194 | Agrees with `Step`. NotFound for an unknown id and InvalidState once the record has left `PENDING_FEEDBACK`, both leaving the table unchanged. On Ok exactly that id is removed. |
| `Server.RecordStore.SubmitFeedback` | server.ts:158-167 | Agrees with `Step`. Always answers Ok, for any status and any id. The set of ids is unchanged and every other row is unchanged. |
| `Server.RecordStore.SubmitCommitment` | server.ts:169-178 | Agrees with `Step`. Always answers Ok, for any status and any id. The set of ids is unchanged and every other row is unchanged. |
| `ServerFacts.CreateAddsOneRow` | server.ts:145-155 | With all required columns, creation answers the counter value as id, above every stored id. It adds exactly that row (unsigned, `PENDING_FEEDBACK`, carrying the body) and keeps every other row. Otherwise it answers ConstraintError with the table unchanged. |
| `ServerFacts.DeleteGuarded` | server.ts:180-194 | Unknown id gives NotFound; a record past `PENDING_FEEDBACK` gives InvalidState; both leave the table unchanged. Otherwise Ok: exactly that key is removed and all other rows are unchanged. |
| `ServerFacts.UpdateGuarded` | server.ts:213-246 | The same two guards; every failure leaves the table unchanged. On Ok only that row changes, and in it only the twelve editable columns (they equal the body). Status stays `PENDING_FEEDBACK` and the sign-offs are kept. |
| `ServerFacts.FeedbackUnguarded` | server.ts:158-167 | Always Ok, whatever the status. Only the row with that id changes; it becomes `PENDING_COMMITMENT` with the given feedback, date and signature. An unknown id leaves the table unchanged. |
| `ServerFacts.CommitmentUnguarded` | server.ts:169-178 | Always Ok, whatever the status. Only the row with that id changes; it becomes `COMPLETED` with the given commitment, date and signature. An unknown id leaves the table unchanged. |
| `ServerFacts.StepKeepsWellFormed` | server.ts:18 | Every route keeps each row under its own id, and every id below the AUTOINCREMENT counter. |
| `ServerFacts.RunKeepsWellFormed` | server.ts:18 | The same for any sequence of requests. |
| `ServerFacts.StatusNeverReturns` | server.ts:145-246 | No route takes a record that has left `PENDING_FEEDBACK` back to it, and no route removes such a record. |
| `ServerFacts.SignedOffStaysSignedOff` | server.ts:145-246 | After any sequence of requests, such a record is still present and still not `PENDING_FEEDBACK`. |
| `ServerFacts.LaterEditsAndDeletesFail` | server.ts:180-215 | After any sequence of requests, an edit or a deletion of a record that had left `PENDING_FEEDBACK` answers InvalidState and changes nothing. |
| `ServerFacts.IssuedIdsIncrease` | server.ts:18 | Over any sequence of requests, the counter never decreases. The ids answered by successful creations strictly increase, lie at or above the starting counter, and lie below the final counter. |
| `ServerFacts.StepKeepsWitnessed` | server.ts:145-178 | Every route preserves `StatusWitnessed` (see the list above) for every row. |
| `ServerFacts.RunKeepsWitnessed` | server.ts:145-178 | The same for any sequence of requests. |
| `ServerFacts.CommitmentSkipsFeedback` | server.ts:174-175 | A commitment on a `PENDING_FEEDBACK` record makes it `COMPLETED` with no feedback, breaking `SignOffsDetermineStatus`. |
| `ServerFacts.FeedbackReopensCompleted` | server.ts:163-164 | Feedback on a `COMPLETED` record makes it `PENDING_COMMITMENT` and replaces the feedback, but keeps the commitment, breaking `SignOffsDetermineStatus`. |
| `ServerFacts.SecondFeedbackAccepted` | server.ts:145-178 | The full scenario on an empty table: create (id 1), feedback, commitment, then a second feedback. The second feedback answers Ok, reopens the record and overwrites the signature. |
| `ServerFacts.FirstRecordOfFreshStore` | server.ts:10-41 | On a new store, the first valid creation answers id 1 and leaves the same rows as `Step` from the empty table with counter 1, the start of `SecondFeedbackAccepted`. |
| `ServerFacts.DuplicateEmailAnswers500` | server.ts:96-102 | As written, a repeated e-mail, whose error carries the extended code `SQLITE_CONSTRAINT_PRIMARYKEY`, is answered with the 500 and not with "already exists". |
| `ServerFacts.DuplicateEmailAnswersConflict` | server.ts:96-102 | The corrected catch block answers Conflict for a repeated e-mail, and for every code the written one recognised. |
| `ServerFacts.RegisterThenLogIn` | server.ts:90-119 | Register, then register the same e-mail again, then log in with a matching password. The second registration leaves the first user in place and answers the 500 of the catch block as written (see "## Findings"). The login answers the first registration's e-mail and role. |
| `Ordering.Below` | src/App.tsx:181-182 | No contract: the definition of JavaScript's default string order (the first differing character decides, a proper prefix comes first). `BelowIrreflexive`, `BelowTransitive` and `BelowTotal` state its properties. |
| `Ordering.BelowTotal` | src/App.tsx:181-182 | The default sort order is total on distinct strings. Companion lemmas make it irreflexive (`BelowIrreflexive`) and transitive (`BelowTransitive`). |
| `Ordering.SortedDistinct` | src/App.tsx:181-182 | `Array.from(new Set(values.filter(Boolean))).sort()`: the result is strictly ascending, and holds exactly the non-empty values. |
| `Ordering.SortedIsDistinct` | src/App.tsx:181-182 | A strictly ascending list holds each value exactly once. |
| `Ordering.SortedUnique` | src/App.tsx:181-182 | Two strictly ascending lists with the same values are equal, so the option list is determined by the set of values. |
| `App.First` | src/App.tsx:106 | `find`: the index returned satisfies the test, and no earlier element does. None is returned exactly when no element satisfies it. |
| `App.Filter` | src/App.tsx:183-187 | `filter`: the result is no longer than the input and holds exactly the input's elements that pass. |
| `App.FilterAppend` | src/App.tsx:183-187 | Filtering distributes over concatenation, so the result is an order-preserving subsequence. |
| `App.FilterCounts` | src/App.tsx:183-187 | Every occurrence of an accepted element is kept, and no occurrence of a rejected one. |
| `App.Kept` | src/App.tsx:184-186 | No contract: the definition of the test `filteredRecords` applies to each record. `App.Filtered` and `App.FilteredAllIsIdentity` state its effect. |
| `App.Filtered` | src/App.tsx:183-187 | `filteredRecords` holds a record iff it is in `records`, its coordinator equals the filter (or the filter is `Todos`), and its agent name equals the agent filter (or that is `Todos`). |
| `App.FilteredAllIsIdentity` | src/App.tsx:183-187 | With both filters on `Todos`, `filteredRecords` is `records`, in order. |
| `App.Choices` | src/App.tsx:181-182 | The list starts with `Todos`, then the distinct non-empty values, strictly ascending. |
| `App.CoordinatorColumn` | src/App.tsx:181 | `records.map(r => r.coordinator)`: same length, and entry i is record i's coordinator. |
| `App.AgentColumn` | src/App.tsx:182 | `records.map(r => r.agent_name)`: same length, and entry i is record i's agent name. |
| `App.Coordinators` | src/App.tsx:181 | `coordinators` starts with `Todos`, then strictly ascending, and lists a value iff it is non-empty and some record has it as coordinator. |
| `App.Agents` | src/App.tsx:182 | `agents` starts with `Todos`, then strictly ascending, and lists a value iff it is non-empty and some record has it as agent name. |
| `App.ListedCoordinatorShowsSomething` | src/App.tsx:181-187 | Selecting any listed coordinator, with agent `Todos`, shows at least one record. |
| `App.ListedAgentShowsSomething` | src/App.tsx:181-187 | Selecting any listed agent, with coordinator `Todos`, shows at least one record. |
| `App.SignedIn` | src/App.tsx:133 | No contract: the definition of `userEmail` as a condition (present and non-empty). `App.Submitted` states its effect. |
| `App.Editing` | src/App.tsx:136 | No contract: the definition of `editingId` as a condition (present and non-zero). `App.Submitted` states its effect. |
| `App.OrNull` | src/App.tsx:150-151 | `s \|\| null`: null exactly for the empty string, and reading null back as empty gives `s` again. |
| `App.NewLocalRecord` | src/App.tsx:139-152 | The appended record has id `now`, the given creator, status `PENDING_FEEDBACK` and no sign-off. Read back as a form it gives the submitted form, and each attachment is null exactly when the form's is empty. |
| `App.Overlaid` | src/App.tsx:137 | `{ ...r, ...formData }`: read back as a form it gives the submitted form, and the attachments are the form's strings. Id, creator, status and sign-offs are those of `r`. |
| `App.Submitted` | src/App.tsx:131-154 | See "Submitting the record form" below. |
| `App.OpensWith` | src/App.tsx:106 | No contract: the definition of the `find` test of `handleLogin` (same e-mail and same password). `App.LocalApp.Login` states its effect. |
| `App.EmailTaken` | src/App.tsx:121 | No contract: the definition of the `find` test of `handleRegister` (some account has that e-mail). `App.LocalApp.Register` and `App.RegisterThenLogIn` state its effect. |
| `App.LocalApp.constructor` | src/App.tsx:48-62 | The component starts from the stored accounts, records and session, with no error and the login form shown. |
| `App.LocalApp.Register` | src/App.tsx:118-129 | See "Client registration" below. |
| `App.LocalApp.Login` | src/App.tsx:102-116 | Clears the error and succeeds iff some account matches both e-mail and password. Then the session takes the first such account's e-mail and role. Otherwise the session is unchanged and the error is set. Accounts and records are untouched. |
| `App.LocalApp.Logout` | src/App.tsx:171-176 | The session's e-mail and role become null; nothing else changes. |
| `App.LocalApp.SubmitRecord` | src/App.tsx:131-160 | The saved records are `Submitted` of the old records with the current session. Accounts, session and messages are unchanged. |
| `App.RegisterThenLogIn` | src/App.tsx:102-129 | Registering a fresh e-mail and then logging in with it opens a session with that e-mail and the chosen role. |

### Submitting the record form (`App.Submitted`)

- With no session e-mail (null or empty), the records are unchanged.
- Edit mode is a non-zero `editingId`:
  - length and order are kept;
  - every record whose id equals `editingId` takes the form's fields, and its
    attachments become the form's strings, even empty ones;
  - every other record is unchanged;
  - id, creator e-mail, status and sign-offs are kept in every record;
  - there is no status guard.
- Create mode is a null or zero `editingId`. Exactly one record is appended,
  and the earlier records are unchanged. The new record has:
  - id `now`;
  - the session e-mail as creator;
  - status `PENDING_FEEDBACK`;
  - no sign-off;
  - the form's fields;
  - a null attachment exactly where the form's is empty.

### Client registration (`App.LocalApp.Register`)

- An e-mail already in `accounts` leaves the accounts unchanged and sets the
  "already registered" message.
- Otherwise exactly `{email, password, role}` is appended and the "account
  created" message is set.
- Session and records are untouched.
- Distinct account e-mails stay distinct.

## Left out

- Password hashing: bcrypt's hash and compare are a foreign library. The digest
  is a parameter of `Register` and the comparison a function parameter of
  `Login`. The model does not capture that compare accepts a password iff it
  hashed to the stored digest.
- Express, HTTP status codes and messages, Vite middleware and static serving
  (server.ts:83-88, 251-270). Each answer is a `Response` variant.
- Databases created by an older schema. On those, the migration at
  server.ts:57 adds `creator_email` as a nullable column, so a creation without
  `creator_email` succeeds there, while the model answers ConstraintError.
  The model is of a database created by server.ts:10-41. The other migrations
  (server.ts:43-81) only add columns that this schema already declares.
- Id bounds. SQLite rowids are 64-bit: under AUTOINCREMENT, an INSERT after
  rowid 2^63-1 fails with SQLITE_FULL. `lastInsertRowid` is a JavaScript
  number, exact only up to 2^53. The model's `nextId` is an unbounded integer,
  so it captures neither limit.
- Request values other than text are not modelled: a number or object in a
  JSON body, a NULL e-mail in the `users` key, a missing password, which makes
  bcrypt throw. Route ids are integers; a non-numeric id matches no row, like
  an unknown one.
- The clock: the server's date and the client's `Date.now()` are parameters.
- Local storage, `JSON.parse`/`JSON.stringify` and React's state setters: the
  arrays are fields of `LocalApp`.
- The form's UI state reset after a submission (`setIsFormOpen(false)`,
  `setEditingId(null)`, `resetForm`, src/App.tsx:157-169) and `loading`.
- All rendering, `getStatusBadge`, animations, and the unused spreadsheet and
  PDF imports.
- Role-based authorisation: the server checks no role. The client only hides
  the "new record" button from non-analysts (src/App.tsx:248).
- Concurrency and per-record locking: neither exists in the code. Each handler
  is modelled as one atomic step.
- `Ordering.Below` compares Unicode scalar values. JavaScript's default sort
  compares UTF-16 code units, so the two orders differ only for characters
  outside the Basic Multilingual Plane.
- Array elements read back from local storage are assumed to have the shape of
  `MonitoringRecord` and of an account.

## Findings

| source | as written | input that shows it | evidently intended | confidence | as-written member | corrected member |
|---|---|---|---|---|---|---|
| server.ts:96-102 | `error.code === 'SQLITE_CONSTRAINT'`, but better-sqlite3 reports the extended result code | registering an e-mail that is already in `users`: the code is `SQLITE_CONSTRAINT_PRIMARYKEY`, so the answer is 500 "Error al registrar usuario" | 400 "El usuario ya existe" for any constraint failure | not executed; relies on the driver reporting extended codes | `ServerFacts.DuplicateEmailAnswers500` | `ServerFacts.DuplicateEmailAnswersConflict` |
