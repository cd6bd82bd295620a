/**
 The route handlers of the content service as functions from the store to a
 response and the next store. Every protected route takes the user id that
 the authentication middleware resolved from the request's token; that
 middleware itself is not part of this model.

 The libraries the handlers call are kept abstract: bcrypt's `hash` and
 `compare` and the validator's `isEmail` are fields of `Libraries`, and the
 signed JSON Web Token is represented by the payload it carries.
 */
module Handlers {
  import opened Store

  /** The salt `bcrypt.genSalt(10)` draws at random for one registration. */
  type Salt = string

  datatype Libraries = Libraries(
    hash: (string, Salt) -> string,
    compare: (string, string) -> bool,
    isEmail: string -> bool)

  /**
   What the model relies on from bcrypt: a password matches its own digest and
   no other password matches it.
   */
  ghost predicate BcryptSound(lib: Libraries) {
    && (forall pw, salt :: lib.compare(pw, lib.hash(pw, salt)))
    && (forall pw, other, salt :: other != pw ==> !lib.compare(other, lib.hash(pw, salt)))
  }

  /** The token payload `{user: {id}}`. */
  datatype Claim = Claim(id: UserId)
  datatype Payload = Payload(user: Claim)

  /** A signed token; signature, secret, and the `iat` and `exp` claims are not modelled. */
  datatype Token = Jwt(payload: Payload)

  /** One entry of an `errors` array: a validator finding or a bare message. */
  datatype ErrorItem = FieldError(param: string, msg: string) | Reason(msg: string)

  /** The JSON bodies the routes answer with. */
  datatype Body =
    | TokenBody(token: Token)
    | Errors(errors: seq<ErrorItem>)
    | Message(key: string, msg: string)
    | PostBody(post: Post)
    | PostList(posts: seq<Post>)
    | UserBody(user: Option<User>)
    | PlainText(text: string)

  datatype Response = Response(status: int, body: Body)

  /** A handled request: the response and the store afterwards. */
  datatype Outcome = Outcome(response: Response, db: Db)

  const NameRequired := "Please enter your name"
  const EmailInvalid := "Please enter valid email"
  const PasswordTooShort := "Please enter password of at least 6 characters"
  const UserExists := "User already exixts"
  const UnknownEmail := "invalid email or password"
  const WrongPassword := "Invalid email or password"
  const TitleRequired := "Title text is required"
  const BodyRequired := "Body text is required"
  const PostNotFound := "Post not found"
  const NotAuthorized := "User not authorized"
  const PostRemoved := "Post removed"
  const ServerError := "Server error"

  /** The string the validator checks for a body field: an absent field reads as "". */
  function Text(field: Option<string>): string {
    if field.Some? then field.value else ""
  }

  /** JavaScript truthiness of a string body field: absent and "" are falsy. */
  predicate Truthy(field: Option<string>) {
    field.Some? && field.value != ""
  }

  /** The value of `field || fallback`: the supplied value when it is truthy, else the fallback. */
  function Or(field: Option<string>, fallback: string): (r: string)
    ensures Truthy(field) ==> r == field.value
    ensures r == fallback || Some(r) == field
    ensures r != "" <==> Truthy(field) || fallback != ""
  {
    if Truthy(field) then field.value else fallback
  }

  // ---------------------------------------------------------------- validation

  const NameFinding := FieldError("name", NameRequired)
  const EmailFinding := FieldError("email", EmailInvalid)
  const PasswordFinding := FieldError("password", PasswordTooShort)
  const LoginPasswordFinding := FieldError("password", "Please enter password")
  const TitleFinding := FieldError("title", TitleRequired)
  const BodyFinding := FieldError("body", BodyRequired)

  /** Where `e` stands in `chain`, or `|chain|` when it is not there. */
  function Position(chain: seq<ErrorItem>, e: ErrorItem): (k: nat)
    ensures k <= |chain|
    ensures k < |chain| <==> e in chain
    ensures k < |chain| ==> chain[k] == e
  {
    if chain == [] then 0
    else if chain[0] == e then 0
    else 1 + Position(chain[1..], e)
  }

  /**
   `errs` holds findings of the validation chain `chain` only, each at most
   once, in the order the chain declares them.
   */
  ghost predicate InChainOrder(errs: seq<ErrorItem>, chain: seq<ErrorItem>) {
    && (forall e :: e in errs ==> e in chain)
    && (forall i, j :: 0 <= i < j < |errs| ==> Position(chain, errs[i]) < Position(chain, errs[j]))
  }

  /** The validation chain of `POST /api/users`: exactly the failing fields' findings, in field order. */
  function RegisterErrors(lib: Libraries, name: Option<string>, email: Option<string>, password: Option<string>): (errs: seq<ErrorItem>)
    ensures errs == [] <==> Text(name) != "" && lib.isEmail(Text(email)) && |Text(password)| >= 6
    ensures NameFinding in errs <==> Text(name) == ""
    ensures EmailFinding in errs <==> !lib.isEmail(Text(email))
    ensures PasswordFinding in errs <==> |Text(password)| < 6
    ensures InChainOrder(errs, [NameFinding, EmailFinding, PasswordFinding])
  {
    (if Text(name) == "" then [NameFinding] else [])
    + (if !lib.isEmail(Text(email)) then [EmailFinding] else [])
    + (if |Text(password)| < 6 then [PasswordFinding] else [])
  }

  /** The validation chain of `POST /api/login`: a valid email, and a password that is present at all. */
  function LoginErrors(lib: Libraries, email: Option<string>, password: Option<string>): (errs: seq<ErrorItem>)
    ensures errs == [] <==> lib.isEmail(Text(email)) && password.Some?
    ensures EmailFinding in errs <==> !lib.isEmail(Text(email))
    ensures LoginPasswordFinding in errs <==> password.None?
    ensures InChainOrder(errs, [EmailFinding, LoginPasswordFinding])
  {
    (if !lib.isEmail(Text(email)) then [EmailFinding] else [])
    + (if password.None? then [LoginPasswordFinding] else [])
  }

  /** The validation chain of `POST /api/posts`: title and body must be non-empty. */
  function PostErrors(title: Option<string>, body: Option<string>): (errs: seq<ErrorItem>)
    ensures errs == [] <==> Text(title) != "" && Text(body) != ""
    ensures TitleFinding in errs <==> Text(title) == ""
    ensures BodyFinding in errs <==> Text(body) == ""
    ensures InChainOrder(errs, [TitleFinding, BodyFinding])
  {
    (if Text(title) == "" then [TitleFinding] else [])
    + (if Text(body) == "" then [BodyFinding] else [])
  }

  /** `returnToken`: sign the payload `{user: {id}}` for `user` and answer `{token}` with status 200. */
  function ReturnToken(user: User): (r: Response)
    ensures r.status == 200 && r.body.TokenBody? && TokenUserId(r.body.token) == user.id
  {
    Response(200, TokenBody(Jwt(Payload(Claim(user.id)))))
  }

  /** The user id a token carries. */
  function TokenUserId(token: Token): UserId {
    token.payload.user.id
  }

  // ---------------------------------------------------------------- routes

  /** `POST /api/users`: validate, reject a taken email, store the hashed password, answer a token. */
  function Register(db: Db, lib: Libraries, name: Option<string>, email: Option<string>, password: Option<string>, salt: Salt): (out: Outcome)
    requires Consistent(db)
    ensures Consistent(out.db)
    ensures out.response.status in {200, 400, 422}
    ensures out.response.status == 422 <==> RegisterErrors(lib, name, email, password) != []
    ensures out.response.status == 422 ==> out.response.body == Errors(RegisterErrors(lib, name, email, password))
    ensures out.response.status == 400 <==> RegisterErrors(lib, name, email, password) == [] && EmailTaken(db.users, Text(email))
    ensures out.response.status == 400 ==> out.response.body == Errors([Reason(UserExists)])
    ensures out.response.status != 200 ==> out.db == db
    ensures out.response.status == 200 ==>
      && out.response.body.TokenBody?
      && var id := TokenUserId(out.response.body.token);
      && id !in db.users
      && out.db.users == db.users[id := User(id, Text(name), Text(email), lib.hash(Text(password), salt))]
      && out.db.posts == db.posts
  {
    var errors := RegisterErrors(lib, name, email, password);
    if errors != [] then Outcome(Response(422, Errors(errors)), db)
    else if FindUser(db, Text(email)).Some? then Outcome(Response(400, Errors([Reason(UserExists)])), db)
    else
      var user := User(db.nextUserId, Text(name), Text(email), lib.hash(Text(password), salt));
      Outcome(ReturnToken(user), db.(users := db.users[user.id := user], nextUserId := db.nextUserId + 1))
  }

  /** Some stored user has this email and a digest that `password` matches. */
  ghost predicate Authenticates(lib: Libraries, users: map<UserId, User>, email: string, password: string) {
    exists id :: id in users && users[id].email == email && lib.compare(password, users[id].password)
  }

  /** `GET /api/auth`: the stored document of the authenticated user, or `null`. */
  function AuthUser(db: Db, uid: UserId): (r: Response)
    ensures r.status == 200 && r.body.UserBody?
    ensures r.body.user.Some? <==> uid in db.users
    ensures r.body.user.Some? ==> r.body.user.value == db.users[uid]
  {
    Response(200, UserBody(if uid in db.users then Some(db.users[uid]) else None))
  }

  /** `POST /api/login`: look the email up, compare the password, answer a token. Reads only. */
  function Login(db: Db, lib: Libraries, email: Option<string>, password: Option<string>): (r: Response)
    requires Consistent(db)
    ensures r.status in {200, 400, 422}
    ensures r.status == 422 <==> LoginErrors(lib, email, password) != []
    ensures r.status == 422 ==> r.body == Errors(LoginErrors(lib, email, password))
    ensures r.status == 200 <==> password.Some? && lib.isEmail(Text(email)) && Authenticates(lib, db.users, Text(email), password.value)
    ensures r.status == 200 ==>
      && r.body.TokenBody?
      && var id := TokenUserId(r.body.token);
      && id in db.users && db.users[id].email == Text(email)
    ensures r.status == 400 && !EmailTaken(db.users, Text(email)) ==> r.body == Errors([Reason(UnknownEmail)])
    ensures r.status == 400 && EmailTaken(db.users, Text(email)) ==> r.body == Errors([Reason(WrongPassword)])
  {
    var errors := LoginErrors(lib, email, password);
    if errors != [] then Response(422, Errors(errors))
    else
      match FindUser(db, Text(email))
      case None => Response(400, Errors([Reason(UnknownEmail)]))
      case Some(id) =>
        if !lib.compare(password.value, db.users[id].password) then Response(400, Errors([Reason(WrongPassword)]))
        else ReturnToken(db.users[id])
  }

  /** `POST /api/posts`: validate, look the author up, store a post owned by the author. */
  function CreatePost(db: Db, uid: UserId, title: Option<string>, body: Option<string>, now: int): (out: Outcome)
    requires Consistent(db)
    ensures Consistent(out.db)
    ensures out.response.status in {200, 400, 500}
    ensures out.response.status == 400 <==> PostErrors(title, body) != []
    ensures out.response.status == 400 ==> out.response.body == Errors(PostErrors(title, body))
    ensures out.response.status == 500 <==> PostErrors(title, body) == [] && uid !in db.users
    ensures out.response.status != 200 ==> out.db == db
    ensures out.response.status == 200 ==>
      && out.response.body.PostBody?
      && var p := out.response.body.post;
      && p.id !in db.posts
      && p == Post(p.id, uid, Text(title), Text(body), now)
      && out.db.posts == db.posts[p.id := p]
      && out.db.users == db.users
  {
    var errors := PostErrors(title, body);
    if errors != [] then Outcome(Response(400, Errors(errors)), db)
    else if uid !in db.users then
      // `user.id` on the `null` that `User.findById` yields throws; the catch answers 500
      Outcome(Response(500, PlainText(ServerError)), db)
    else
      var post := Post(db.nextPostId, db.users[uid].id, Text(title), Text(body), now);
      Outcome(Response(200, PostBody(post)), db.(posts := db.posts[post.id := post], nextPostId := db.nextPostId + 1))
  }

  /** `GET /api/posts`: every post, newest first, not filtered by owner. */
  function ListPosts(db: Db): (r: Response)
    requires Consistent(db)
    ensures r.status == 200 && r.body.PostList?
    ensures NewestFirst(r.body.posts) && Distinct(r.body.posts)
    ensures forall p :: p in r.body.posts <==> p.id in db.posts && db.posts[p.id] == p
  {
    Response(200, PostList(PostsNewestFirst(db)))
  }

  /** `GET /api/posts/:id`: the post whoever asks, or 404. */
  function GetPost(db: Db, id: PostId): (r: Response)
    ensures r.status in {200, 404}
    ensures r.status == 404 <==> id !in db.posts
    ensures r.status == 404 ==> r.body == Message("msg", PostNotFound)
    ensures r.status == 200 ==> id in db.posts && r.body == PostBody(db.posts[id])
  {
    if id !in db.posts then Response(404, Message("msg", PostNotFound))
    else Response(200, PostBody(db.posts[id]))
  }

  /** `PUT /api/posts/:id`: 404 first, then the owner check, then `title || post.title`, `body || post.body`. */
  function UpdatePost(db: Db, uid: UserId, id: PostId, title: Option<string>, body: Option<string>): (out: Outcome)
    requires Consistent(db)
    ensures Consistent(out.db)
    ensures out.response.status in {200, 401, 404}
    ensures out.response.status == 404 <==> id !in db.posts
    ensures out.response.status == 404 ==> out.response.body == Message("mesg", PostNotFound)
    ensures out.response.status == 401 <==> id in db.posts && db.posts[id].user != uid
    ensures out.response.status == 401 ==> out.response.body == Message("msg", NotAuthorized)
    ensures out.response.status != 200 ==> out.db == db
    ensures out.response.status == 200 ==>
      && id in db.posts && id in out.db.posts
      && var was, now := db.posts[id], out.db.posts[id];
      && out.response.body == PostBody(now)
      && now.id == was.id && now.user == was.user == uid && now.date == was.date
      && (Truthy(title) ==> now.title == title.value)
      && (!Truthy(title) ==> now.title == was.title)
      && (Truthy(body) ==> now.body == body.value)
      && (!Truthy(body) ==> now.body == was.body)
      && out.db.posts.Keys == db.posts.Keys
      && (forall k :: k in db.posts && k != id ==> out.db.posts[k] == db.posts[k])
      && out.db.users == db.users
  {
    if id !in db.posts then Outcome(Response(404, Message("mesg", PostNotFound)), db)
    else if db.posts[id].user != uid then Outcome(Response(401, Message("msg", NotAuthorized)), db)
    else
      var post := db.posts[id];
      var post := post.(title := Or(title, post.title), body := Or(body, post.body));
      Outcome(Response(200, PostBody(post)), db.(posts := db.posts[id := post]))
  }

  /** `DELETE /api/posts/:id`: 404 first, then the owner check, then removal. */
  function DeletePost(db: Db, uid: UserId, id: PostId): (out: Outcome)
    requires Consistent(db)
    ensures Consistent(out.db)
    ensures out.response.status in {200, 401, 404}
    ensures out.response.status == 404 <==> id !in db.posts
    ensures out.response.status == 404 ==> out.response.body == Message("msg", PostNotFound)
    ensures out.response.status == 401 <==> id in db.posts && db.posts[id].user != uid
    ensures out.response.status == 401 ==> out.response.body == Message("msg", NotAuthorized)
    ensures out.response.status != 200 ==> out.db == db
    ensures out.response.status == 200 ==>
      && out.response.body == Message("msg", PostRemoved)
      && id in db.posts && db.posts[id].user == uid
      && out.db.posts == db.posts - {id}
      && out.db.users == db.users
  {
    if id !in db.posts then Outcome(Response(404, Message("msg", PostNotFound)), db)
    else if db.posts[id].user != uid then Outcome(Response(401, Message("msg", NotAuthorized)), db)
    else Outcome(Response(200, Message("msg", PostRemoved)), db.(posts := db.posts - {id}))
  }

  // ---------------------------------------------------------------- routing

  /** One request to the API, with the inputs the handler draws from outside it. */
  datatype Request =
    | PostUsers(name: Option<string>, email: Option<string>, password: Option<string>, salt: Salt)
    | PostLogin(email: Option<string>, password: Option<string>)
    | GetAuth(uid: UserId)
    | PostPosts(uid: UserId, title: Option<string>, body: Option<string>, now: int)
    | GetPosts(uid: UserId)
    | GetPostById(uid: UserId, id: PostId)
    | PutPost(uid: UserId, id: PostId, title: Option<string>, body: Option<string>)
    | DeletePostById(uid: UserId, id: PostId)

  /** The authenticated caller of a protected route; the two public routes have none. */
  function Caller(req: Request): Option<UserId> {
    if req.PostUsers? || req.PostLogin? then None else Some(req.uid)
  }

  /** Post `id` of `db` is still in `db'`, unchanged. */
  ghost predicate PostKept(db: Db, db': Db, id: PostId)
    requires id in db.posts
  {
    id in db'.posts && db'.posts[id] == db.posts[id]
  }

  /**
   Route a request to its handler. Whatever the request, the store invariant
   holds afterwards, a failed request changes nothing, no user is lost or
   altered, no post changes owner, and the posts of anyone but the caller stay
   as they were.
   */
  function Handle(db: Db, lib: Libraries, req: Request): (out: Outcome)
    requires Consistent(db)
    ensures Consistent(out.db)
    ensures out.response.status != 200 ==> out.db == db
    ensures forall id :: id in db.users ==> id in out.db.users && out.db.users[id] == db.users[id]
    ensures forall id :: id in db.posts && id in out.db.posts ==> out.db.posts[id].user == db.posts[id].user
    ensures forall id :: id in db.posts && Caller(req) != Some(db.posts[id].user) ==> PostKept(db, out.db, id)
  {
    match req
    case PostUsers(name, email, password, salt) => Register(db, lib, name, email, password, salt)
    case PostLogin(email, password) => Outcome(Login(db, lib, email, password), db)
    case GetAuth(uid) => Outcome(AuthUser(db, uid), db)
    case PostPosts(uid, title, body, now) => CreatePost(db, uid, title, body, now)
    case GetPosts(_) => Outcome(ListPosts(db), db)
    case GetPostById(_, id) => Outcome(GetPost(db, id), db)
    case PutPost(uid, id, title, body) => UpdatePost(db, uid, id, title, body)
    case DeletePostById(uid, id) => DeletePost(db, uid, id)
  }
}
