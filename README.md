# Verified model of the content service's request handlers

The service lets users register and log in, and lets logged-in users create,
list, read, edit and delete text posts. Only a post's owner may edit or
delete it. This project models the route handlers of `server.js` as a state
machine over an in-memory document store. The store has two collections:

- **users**: id → name, email and bcrypt digest of the password.
- **posts**: id → owner, title, body and date.

The project has four modules:

- `Store` (`store.dfy`) holds the documents and the store invariant
  `Consistent`. The invariant says every document sits under its own id, no
  two users share an email, and every post's owner is a stored user. The
  module also holds the two queries the handlers issue beyond key lookup:
  `User.findOne({email})` (`FindUser`) and `Post.find().sort({date: -1})`
  (`PostsNewestFirst`, an enumeration plus an insertion sort).
- `Handlers` (`handlers.dfy`) states each route as a pure function from the
  store to a response and the next store. It also has the validation chains,
  the `returnToken` payload, and a dispatcher `Handle`. `Handle`'s contract
  gives the invariants every request keeps:
  - the store stays consistent;
  - a failed request changes nothing;
  - no user is lost;
  - no post changes owner;
  - nobody's posts change except the caller's.
- `Properties` (`properties.dfy`) relates routes to each other:
  - registering and then logging in returns a token for the same user id;
  - any other password is refused;
  - registering an email twice is a conflict;
  - a created post can be read and is listed;
  - a non-owner gets 401 on a post and cannot change it;
  - an update or delete shows in a later read;
  - an empty update is a no-op, and updates are idempotent.
- `Server` (`server.dfy`) is the running application: class `App` holds the
  two collections as maps, and each route is a method that updates them in
  place. Each method is proved equal to the `Handlers` function of the same
  name on the store snapshot, so everything proved about the functions holds
  of the object. `OwnerOnlyDeleteScenario` is a client session against a
  fresh `App`.

The libraries stay abstract. `Libraries` carries bcrypt's `hash` and
`compare` and the validator's `isEmail` as function values. `BcryptSound` is
what the login lemmas assume of bcrypt: a password matches its own digest and
no other password matches it. A JSON Web Token (RFC 7519) is represented by
its payload `{user: {id}}`. The authentication middleware
(`middleware/auth` is not part of this model) becomes the `uid` parameter of
every protected route. The salt of `bcrypt.genSalt` and the clock value that
dates a post become parameters.

Request body fields are `Option<string>`, where `None` means absent. The
validator reads an absent field as `""`. The JavaScript `title || post.title`
counts a field as truthy only when it is present and non-empty.

Some of the code's behaviour is easy to misread; the model follows the code:

- A failed login answers 400, and the two failure messages differ in
  capitalisation.
- A non-owner edit or delete answers 401, not 403.
- `GET /api/auth` for an id with no stored user answers 200 with `null`, not
  500. It returns the whole stored user document.
- `POST /api/posts` for an authenticated id with no stored user answers 500,
  because `user.id` is read from `null`.
- The 404 body of `PUT /api/posts/:id` uses the key `mesg`.
- The registration conflict message is spelt `User already exixts`.

## Model

| member | source | states |
|---|---|---|
| `Store.FindByEmail` | server.js:53 | the search returns the first id in range whose user has the email, and returns None only when no user in range has it |
| `Store.FindUser` | server.js:114 | `findOne({email})` finds a user with that email exactly when the email is taken |
| `Store.PostsFrom` | server.js:206 | the enumeration lists each stored post in the id range exactly once, in id order, and nothing else |
| `Store.SortNewestFirst` | server.js:206 | the result is ordered by date descending and is a permutation of the input |
| `Store.PostsNewestFirst` | server.js:206 | `find().sort({date:-1})` returns every stored post, once each, only stored posts, newest first (through the insertion sort and the fact that a permutation of a repeat-free list has no repeats) |
| `Handlers.RegisterErrors` | server.js:38-48 | registration validation is empty iff the name is non-empty, the email passes `isEmail` and the password has at least 6 characters; the list holds exactly the failing fields' findings, each once, in the order name, email, password |
| `Handlers.LoginErrors` | server.js:104-110 | login validation passes iff the email passes `isEmail` and a password is present; the list holds exactly the failing fields' findings, each once, email before password |
| `Handlers.PostErrors` | server.js:168-175 | post validation passes iff title and body are both non-empty; the list holds exactly the empty fields' findings, each once, title before body |
| `Handlers.ReturnToken` | server.js:141-157 | `returnToken` answers 200 with a token whose payload `{user: {id}}` names the given user |
| `Handlers.Or` | server.js:278-279 | the JavaScript or of a body field and the stored value is the supplied value when it is truthy and the stored value otherwise; it is empty only when both are |
| `Handlers.Register` | server.js:35-81 | 422 with the validation errors iff validation fails, store unchanged; 400 `User already exixts` iff the email is taken, store unchanged, no token; otherwise exactly one new user with the digest `hash(password, salt)` and a token whose payload names that user |
| `Handlers.AuthUser` | server.js:88-95 | always 200; the body is the stored user of the token's id, or null when there is none |
| `Handlers.Login` | server.js:101-139 | 422 iff validation fails; 200 with a token for the user with that email iff the password matches their digest; otherwise 400 with `invalid email or password` for an unknown email and `Invalid email or password` for a wrong password; the store is not touched |
| `Handlers.CreatePost` | server.js:163-198 | 400 with the field errors iff title or body is empty; 500 iff the authenticated id has no user; otherwise one new post owned by the caller with the given title, body and date; the store is unchanged on failure |
| `Handlers.ListPosts` | server.js:204-214 | 200 with all stored posts, once each, newest first, not filtered by owner |
| `Handlers.GetPost` | server.js:220-234 | 404 iff the id is absent; otherwise 200 with the stored post, whoever asks |
| `Handlers.UpdatePost` | server.js:265-288 | 404 (`mesg`) iff absent, checked first; then 401 iff the caller is not the owner, store unchanged; otherwise title and body are replaced only by truthy values, and the id, owner, date and every other post stay the same |
| `Handlers.DeletePost` | server.js:241-258 | 404 iff absent, checked first; then 401 iff the caller is not the owner, store unchanged; otherwise exactly that post is removed and `{msg: 'Post removed'}` is answered |
| `Handlers.Handle` | server.js:35-288 | for every route, the store stays consistent, a failed request changes nothing, users are never removed or altered, no post changes owner, and posts not owned by the caller stay as they were |
| `Properties.RegisteredUserCanLogIn` | server.js:60-72 | after a successful registration, logging in with the same email and password answers 200 with a token for the newly registered user's id |
| `Properties.OtherPasswordRefused` | server.js:120-126 | after registration, any other password gets 400 `Invalid email or password` |
| `Properties.UnknownEmailRefused` | server.js:114-118 | a valid but unregistered email gets 400 `invalid email or password` |
| `Properties.DuplicateEmailRejected` | server.js:53-57 | registering a registered email again gets 400 `User already exixts` and adds no user |
| `Properties.TokenResolvesToUser` | server.js:88-95 | the id in a registration token resolves through `GET /api/auth` to the user just stored, with the digest and not the password |
| `Properties.CreatedPostIsVisible` | server.js:183-191 | a created post reads back by id and appears in the listing |
| `Properties.OthersCannotTouchPost` | server.js:247-248 | another user's delete or update of a post gets 401 and changes nothing, and the post still reads back |
| `Properties.UpdateThenGet` | server.js:278-283 | what a successful update answers is what a later read returns |
| `Properties.DeleteThenGet` | server.js:251-253 | after a delete, reading or deleting the post again gets 404 |
| `Properties.EmptyUpdateChangesNothing` | server.js:278-279 | an owner's update with no truthy title or body leaves the store unchanged and answers the post as it was |
| `Properties.UpdateIdempotent` | server.js:278-281 | sending the same update twice has the same effect and answer as sending it once |
| `Server.App.constructor` | server.js:13-16 | a new application starts with an empty, consistent store |
| `Server.App.Register` | server.js:45-80 | updates the users map in place exactly as `Handlers.Register` says, and keeps the store consistent |
| `Server.App.AuthUser` | server.js:88-95 | answers exactly as `Handlers.AuthUser` on the current store |
| `Server.App.Login` | server.js:107-138 | answers exactly as `Handlers.Login` on the current store, and changes nothing |
| `Server.App.CreatePost` | server.js:172-197 | adds the post in place exactly as `Handlers.CreatePost` says, and keeps the store consistent |
| `Server.App.ListPosts` | server.js:204-214 | answers exactly as `Handlers.ListPosts` on the current store |
| `Server.App.GetPost` | server.js:220-234 | answers exactly as `Handlers.GetPost` on the current store |
| `Server.App.UpdatePost` | server.js:265-288 | edits the post in place exactly as `Handlers.UpdatePost` says, and keeps the store consistent |
| `Server.App.DeletePost` | server.js:241-258 | removes the post in place exactly as `Handlers.DeletePost` says, and keeps the store consistent |
| `Server.OwnerOnlyDeleteScenario` | server.js:241-249 | A registers and posts, B registers and tries to delete A's post: B gets 401 and A's post still reads back |

## Left out

- Express wiring, CORS, JSON body parsing, the root test route, the dangling `app.get` and `app.listen` (server.js:13-29, 290-294): these are process plumbing.
- The database connection: config/db.js is not part of this model. It is pure I/O.
- The authentication middleware: middleware/auth is not part of this model. Token verification, the signing secret and the 10-hour expiry are not modelled; a protected route takes the authenticated id as a parameter.
- bcrypt's salt generation and cost factor, and the signing of the token: the salt is a parameter, and a token is its payload `{user: {id}}`. The `iat` and `exp` claims that signing adds (issue time, and expiry 10 hours later) are not modelled, so two tokens for the same user id are equal in the model though the real ones differ when signed at different seconds. `BcryptSound` idealises bcrypt: real bcrypt reads only the first 72 bytes of a password.
- The 500 answers caused by store or library exceptions: an id that is not a valid object id, failed saves, a signing error. The model covers only the 500 that the handler logic itself causes, in `CreatePost`.
- The `console.log` of the password (server.js:52) and the other logging: these are side effects.
- Concurrency between requests: each request is handled atomically.
- Object id generation: ids are natural numbers from a per-collection counter.
- The date of a post: it comes from the schema default `Date.now`, and the schema file is not part of this model. It is a parameter.
- Body values that are not strings (numbers, booleans, `null`, objects), and the validator also reading cookies, headers, route parameters and the query string. Fields are absent or strings from the JSON body.
- `isLength` not counting the variation selectors U+FE0E and U+FE0F: the model counts every character of the password.
- The `value` and `location` entries of each `errors.array()` item (server.js:48, 110, 175): a finding is modelled by its field and message only, so the model does not show that a 422 echoes the submitted value, the password included.
- How documents are serialised to JSON (`_id`, `__v`, which user fields are sent): the model schema files are not part of this model, so bodies carry the stored record.
- The order of posts with equal dates: the store does not fix it. The model's sort is one admissible order, and its contracts state only date-descending order and membership.
- The client React code (client/src): its only logic is the password-confirmation check before it sends a registration.
