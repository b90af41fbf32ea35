# User store and cookie-session authentication — Dafny model

This project models the core of a small Go HTTP backend that registers users and
authenticates them with a cookie session:

- **the user entity** (`model.User`): the validation rule, the password-hashing
  step run before a user is stored, and `Sanitize`;
- **the in-memory user repository** (`teststore.UserRepository`): a map from id
  to the user pointers handed to `Create`, with `Create`, `Find`, `FindByEmail`
  and `GetAll`;
- **the request logic of the API server**: the `authenticateUser` middleware,
  the register (`POST /users`), login (`POST /sessions`) and whoami
  (`GET /private/whoami`) handlers, and the `error`/`respond` helpers.

Modules, one per component:

| file | module | contents |
|---|---|---|
| `wrappers.dfy` | `Wrappers` | `Option`, `Result` |
| `errors.dfy` | `Errors` | the error values, and the server's two fixed errors |
| `model.dfy` | `Model` | `class User`, the validation rule, the user test cases |
| `store.dfy` | `TestStore` | `class UserRepository` and its invariant |
| `server.dfy` | `ApiServer` | the response value, the helpers, the middleware and handlers |
| `scenarios.dfy` | `Scenarios` | whole request sequences, and the finding exhibits |

How the source's state is represented:

- `model.User` is a class. The handlers and the store share one pointer per
  user, and `Create`, `BeforeCreate` and `Sanitize` update it in place. So
  register's `Sanitize` clears the password of the very record the store
  keeps, and whoami later shows that cleared password.
- The repository is a class whose `users: map<int, User>` field `Create`
  reassigns. Its invariant `Valid()` says that the ids in use are exactly
  1..|users| and that each stored record carries the id it is stored under.
  `Create` keeps the invariant whenever the record is not already stored;
  storing the same pointer twice would give it a new id under both keys.
- Go's unordered `range` over the map is a loop that picks any unvisited key
  (`TestStore.NextKey`). `FindByEmail` and `GetAll` are therefore specified for
  every iteration order.
- The response writer is a `Reply` value. Only the first `WriteHeader` sets
  the status; every encoded JSON document is appended to the body; a cookie
  added by the session store is sent only if the headers are not yet written.
- The session store is a pair of parameters. `Fetched` is what `Get` returns:
  a session, together with an error or none. `saveErr` is what `Save` returns.
  A session is a map from names to integers.
- JSON decoding of the request body is a `Result<Credentials, Error>`
  parameter. The bcrypt hash of the password is a `HashOutcome` parameter,
  and bcrypt's `ComparePassword` is a function parameter
  `(hash, candidate) -> bool`.

Where the in-memory store behaves differently from what its callers rely
on, the model follows the code:

- `GetAll` of the in-memory store returns the records in map iteration order.
  The relational backend returns them in ascending id
  (`ORDER BY id ASC`, internal/app/store/sqlstore/userRepository.go:33).
- The in-memory store does not reject a second user with an e-mail already in
  use, although login looks a user up by e-mail alone
  (internal/app/apiservser/server.go:175). `Scenarios.RegisterSameEmailTwice`
  shows the second registration answered with 201 and id 2; login may then
  find either record.
- The middleware does not return after the 401 for a missing `user_id`, unlike
  its other error branches (see Findings).

## Model

| member | source | states |
|---|---|---|
| `Model.User.constructor` | internal/app/apiservser/server.go:144-147 | a user built from a request carries its e-mail and password, with id 0 and no hash |
| `Model.User.TestUser` | internal/app/model/user_test.go:18 | the test fixture: a non-empty e-mail, a password of at least 6 characters, no hash, id 0 |
| `Model.User.Validate` | internal/app/model/user_test.go:9-71 | a record is accepted exactly when its e-mail is non-empty and its password has at least 6 characters or a hash is already set; a rejection names every failing field |
| `Model.ValidateFixture` | internal/app/model/user_test.go:15-21 | the test fixture passes `Validate` |
| `Model.ValidateEmptyEmail` | internal/app/model/user_test.go:23-31 | the fixture with an empty e-mail fails, on the e-mail field alone |
| `Model.ValidateEmptyPassword` | internal/app/model/user_test.go:32-40 | the fixture with an empty password and no hash fails, on the password field alone |
| `Model.ValidateShortPassword` | internal/app/model/user_test.go:41-49 | the fixture with any password shorter than 6 characters, such as "1234", and no hash fails, on the password field alone |
| `Model.ValidateWithEncryptedPassword` | internal/app/model/user_test.go:50-59 | an empty password is accepted once `EncryptedPassword` is set |
| `Model.User.BeforeCreate` | internal/app/model/user_test.go:72-76 | a non-empty password is replaced in `encryptedPassword` by its hash; a hashing fault is returned with the record unchanged; an empty password leaves the record as it is; after success a valid record always has a non-empty hash |
| `Model.BeforeCreateFixture` | internal/app/model/user_test.go:72-76 | on the fixture, a hashing library that succeeds gives no error and a non-empty hash |
| `Model.User.Sanitize` | internal/app/apiservser/server.go:154 | the plaintext password is cleared and nothing else changes |
| `TestStore.UserRepository.constructor` | internal/app/store/teststore/userRepository_test.go:12-14 | a new repository is empty and satisfies the invariant |
| `TestStore.UserRepository.Create` | internal/app/store/teststore/userRepository.go:13-26 | a `Validate` error or a `BeforeCreate` error is returned with the map and the id unchanged; on success the record gets id old size + 1 and is stored under it with no other entry changed; the invariant (keys exactly 1..|users|, each record's id equal to its key) is preserved and the map grows by one, provided the record was not already stored |
| `TestStore.UserRepository.GetAll` | internal/app/store/teststore/userRepository.go:28-36 | never an error; as many records as the map holds, each one a stored record, every stored record present, and under the invariant no record twice; the map is not modified |
| `TestStore.UserRepository.FindByEmail` | internal/app/store/teststore/userRepository.go:38-48 | returns a stored record with that e-mail if any exists, whichever the iteration reaches first; otherwise `ErrorRecordNotFound`, and then no stored record has that e-mail; the map is not modified |
| `TestStore.UserRepository.Find` | internal/app/store/teststore/userRepository.go:50-58 | returns the record stored under the id exactly when the id is a key, otherwise `ErrorRecordNotFound` (so always on an empty store); under the invariant a record is found exactly for ids 1..|users| and carries that id; the map is not modified |
| `TestStore.NextKey` | internal/app/store/teststore/userRepository.go:31 | one step of a `range` over the map yields some key not visited yet |
| `ApiServer.Respond` | internal/app/apiservser/server.go:202-208 | the status is set by the first write only; the data is appended to the body exactly when there is data |
| `ApiServer.Error` | internal/app/apiservser/server.go:198-200 | responds with the given code and the body `{"error": err}`; on a fresh writer this is the whole response |
| `ApiServer.AuthenticateUser` | internal/app/apiservser/server.go:77-101 | a session store fault gives 500 with that error and no `next`; a missing `user_id` writes 401 "not authenticated" and then panics in the type assertion `id.(int)`; an id the store does not know gives 401 "not authenticated" and no `next`; otherwise `next` runs once with the stored user attached, whose id is the session's under the invariant |
| `ApiServer.AuthenticateUserFixed` | internal/app/apiservser/server.go:77-101 | the same middleware returning right after the 401 for a missing `user_id`: it never panics, and `next` runs exactly when the session loads and names a stored user |
| `ApiServer.WhoAmI` | internal/app/apiservser/server.go:123-127 | responds 200 with the attached user's id, e-mail and password field, and no cookie |
| `ApiServer.ServeWhoAmI` | internal/app/apiservser/server.go:63-66 | the protected route as routed, with the middleware as written: 500 on a session store fault; a session without `user_id` gets 401 "not authenticated" and then panics, and only that case panics; an id the store does not know gets 401; otherwise 200 with the stored user |
| `ApiServer.ServeWhoAmIFixed` | internal/app/apiservser/server.go:63-66 | the protected route with the corrected middleware: 500 on a session store fault; 401 "not authenticated" when the session has no `user_id` or names no stored user; otherwise 200 with the stored user |
| `ApiServer.LoggedIn` | internal/app/apiservser/server.go:188 | after a login the session's `user_id` is the user's id, and every other session value is kept |
| `ApiServer.SessionReplyAsWritten` | internal/app/apiservser/server.go:182-194 | the login's end once the credentials match, as written: 200 exactly when the session both loads and saves, then with no body and a cookie holding `user_id`; otherwise 500 with no cookie and one error body per failing step, the load error first |
| `ApiServer.SessionReply` | internal/app/apiservser/server.go:182-194 | the same with a return after each 500: 200 with the `user_id` cookie exactly when the session loads and saves; otherwise 500 with the first error as the only body; a cookie exactly when the status is 200 |
| `ApiServer.HandleUserCreate` | internal/app/apiservser/server.go:129-158 | an undecodable body gives 400; a validation error or a hashing fault gives 422 with that error and stores nothing; otherwise the record is stored under the next id with its hash, its stored password is cleared by `Sanitize`, and the reply is 201 with `{id, email}`; the store invariant is preserved |
| `ApiServer.HandleSessionCreate` | internal/app/apiservser/server.go:160-196 | an undecodable body gives 400; an unknown e-mail and a wrong password give the same 401 "incorrect email or password"; otherwise the reply is the one `SessionReplyAsWritten` gives for the id of a stored user whose e-mail and password match: 200 with no body and a cookie whose `user_id` is that id when the session store works, 500 otherwise |
| `ApiServer.HandleSessionCreateFixed` | internal/app/apiservser/server.go:182-194 | the login handler returning right after each 500: as above with `SessionReply`, and never more than one body |
| `Scenarios.RegisterLoginWhoAmI` | internal/app/apiservser/server.go:56-67 | register, login and whoami (with the corrected middleware and login) on a fresh store give 201 `{1, a@b.com}`, 200 with a cookie holding `user_id` 1, and 200 `{1, a@b.com}`; without a cookie the corrected route answers 401 "not authenticated", and the middleware as written panics after that 401 |
| `Scenarios.RegisterSameEmailTwice` | internal/app/store/teststore/userRepository.go:13-26 | the in-memory store accepts a second user with the same e-mail, under id 2 |
| `Scenarios.LoginGetAndSaveFaultsAsWritten` | internal/app/apiservser/server.go:182-194 | when the credentials match a stored user and the session fails both to load and to save, the login handler as written answers one 500 response carrying both error bodies |

## Findings

| source | as written | input that shows it | evidently intended | confidence | as-written member | corrected member |
|---|---|---|---|---|---|---|
| internal/app/apiservser/server.go:86-92 | after writing 401 for a missing `user_id` the middleware goes on to `Find(id.(int))`; the type assertion on the nil value panics | `GET /private/whoami` with no session cookie: the store gives an empty session and no error | return right after the 401, as the other error branches do | high, not executed | `ApiServer.AuthenticateUser` | `ApiServer.AuthenticateUserFixed` |
| internal/app/apiservser/server.go:182-194 | after writing 500 for a session `Get` or `Save` fault the login handler carries on: it sets `user_id`, saves, and calls `respond` again | a session store whose `Get` fails with e1 and whose `Save` fails with e2: one 500 response with the two bodies `{"error": e1}{"error": e2}` | return right after each 500 | high, not executed | `Scenarios.LoginGetAndSaveFaultsAsWritten` | `ApiServer.HandleSessionCreateFixed` |

## Left out

- `internal/app/model/user.go` and `internal/app/model/testing.go` are not part of this model. The validation rule is the one the table-driven test pins down. The fixture's values (`user@example.org` / `password`) are stand-ins with the shape those tests need.
- Model.User.Validate: does not check that the e-mail is well formed, or any upper bound on the password length. The rule for these lives in `user.go`, which is not part of this model. Password length is counted in characters.
- bcrypt hashing and `ComparePassword`: foreign cryptography. They are parameters. A digest is assumed to be non-empty.
- The JSON field tags of `model.User` are not part of this model. The user's JSON form is taken to carry the id, the e-mail and the password field, and never the hash.
- The relational backend (`internal/app/store/sqlstore`): its `Create` runs `Validate` and `BeforeCreate` like the in-memory store and then issues one SQL insert; its lookups are single SQL queries. Its `GetAll` scans each row into a nil `*model.User` (internal/app/store/sqlstore/userRepository.go:40-42), which would fail at run time. It is left out because its behaviour beyond those shared checks is the database's.
- The earlier draft store (`internal/store`): its `Create` runs neither `Validate` nor `BeforeCreate` and writes the plaintext password into `encrypted_password`. It is an older draft that nothing in the modelled core calls, so it is left out.
- Process start-up, configuration, logging, request ids, CORS and routing: plumbing around the core. `ServeWhoAmI` composes the middleware as written with its handler, as the router does; `ServeWhoAmIFixed` uses the corrected middleware instead.
- The session store (`gorilla/sessions`): `Get` and `Save` outcomes are inputs, and the session is a map from names to integers. A `user_id` of another dynamic type, which would also make `id.(int)` panic, is not modelled. What `net/http` does with a panicking handler is not modelled either.
- `encoding/json`: decoding is an input `Result`, and encoding appends a `Json` value to the body.
- Concurrency: the in-memory store has no mutex. The model is sequential.
- Go's `int` is 64 bits wide; ids are unbounded integers, since a store would need 2^63 users to overflow `len(users) + 1`.
