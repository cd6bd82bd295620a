/**
 Properties that relate several routes: what a successful registration lets
 the same user do next, and what the post routes guarantee to each other.
 */
module Properties {
  import opened Store
  import opened Handlers

  /** A freshly registered user logs in with the same password and gets a token for the same user id. */
  lemma RegisteredUserCanLogIn(db: Db, lib: Libraries, name: Option<string>, email: Option<string>, password: Option<string>, salt: Salt)
    requires Consistent(db) && BcryptSound(lib)
    requires Register(db, lib, name, email, password, salt).response.status == 200
    ensures var out := Register(db, lib, name, email, password, salt);
            Login(out.db, lib, email, password) == out.response
  {
    var out := Register(db, lib, name, email, password, salt);
    var id := TokenUserId(out.response.body.token);
    var found := FindUser(out.db, Text(email));
    assert found == Some(id) by {
      assert out.db.users[id].email == Text(email);
      assert !FindUser(out.db, Text(email)).None?;
    }
  }

  /** After registration, any other password is refused with the capitalised message. */
  lemma OtherPasswordRefused(db: Db, lib: Libraries, name: Option<string>, email: Option<string>, password: Option<string>, salt: Salt, other: string)
    requires Consistent(db) && BcryptSound(lib)
    requires Register(db, lib, name, email, password, salt).response.status == 200
    requires other != Text(password)
    ensures var out := Register(db, lib, name, email, password, salt);
            Login(out.db, lib, email, Some(other)) == Response(400, Errors([Reason(WrongPassword)]))
  {
    var out := Register(db, lib, name, email, password, salt);
    var id := TokenUserId(out.response.body.token);
    assert out.db.users[id].email == Text(email);
    assert FindUser(out.db, Text(email)) == Some(id);
  }

  /** Logging in with an email nobody registered is refused with the lower-case message. */
  lemma UnknownEmailRefused(db: Db, lib: Libraries, email: string, password: string)
    requires Consistent(db) && lib.isEmail(email)
    requires !EmailTaken(db.users, email)
    ensures Login(db, lib, Some(email), Some(password)) == Response(400, Errors([Reason(UnknownEmail)]))
  {
  }

  /** Registering an email a second time is a conflict and adds nobody. */
  lemma DuplicateEmailRejected(db: Db, lib: Libraries, name: Option<string>, email: Option<string>, password: Option<string>, salt: Salt,
                               name2: Option<string>, password2: Option<string>, salt2: Salt)
    requires Consistent(db)
    requires Register(db, lib, name, email, password, salt).response.status == 200
    requires RegisterErrors(lib, name2, email, password2) == []
    ensures var out := Register(db, lib, name, email, password, salt);
            var again := Register(out.db, lib, name2, email, password2, salt2);
            again.response == Response(400, Errors([Reason(UserExists)])) && again.db == out.db
  {
    var out := Register(db, lib, name, email, password, salt);
    var id := TokenUserId(out.response.body.token);
    assert out.db.users[id].email == Text(email);
  }

  /** The token of a registration resolves, through `GET /api/auth`, to the stored user. */
  lemma TokenResolvesToUser(db: Db, lib: Libraries, name: Option<string>, email: Option<string>, password: Option<string>, salt: Salt)
    requires Consistent(db)
    requires Register(db, lib, name, email, password, salt).response.status == 200
    ensures var out := Register(db, lib, name, email, password, salt);
            var id := TokenUserId(out.response.body.token);
            AuthUser(out.db, id) == Response(200, UserBody(Some(User(id, Text(name), Text(email), lib.hash(Text(password), salt)))))
  {
  }

  /** A created post can be read back by id and appears in the listing. */
  lemma CreatedPostIsVisible(db: Db, uid: UserId, title: Option<string>, body: Option<string>, now: int)
    requires Consistent(db)
    requires CreatePost(db, uid, title, body, now).response.status == 200
    ensures var out := CreatePost(db, uid, title, body, now);
            var p := out.response.body.post;
            && GetPost(out.db, p.id) == Response(200, PostBody(p))
            && p in ListPosts(out.db).body.posts
  {
  }

  /** Another user can neither delete nor edit a post: 401, and the post reads back unchanged. */
  lemma OthersCannotTouchPost(db: Db, uid: UserId, title: Option<string>, body: Option<string>, now: int,
                              other: UserId, title2: Option<string>, body2: Option<string>)
    requires Consistent(db)
    requires CreatePost(db, uid, title, body, now).response.status == 200
    requires other != uid
    ensures var out := CreatePost(db, uid, title, body, now);
            var p := out.response.body.post;
            && DeletePost(out.db, other, p.id) == Outcome(Response(401, Message("msg", NotAuthorized)), out.db)
            && UpdatePost(out.db, other, p.id, title2, body2) == Outcome(Response(401, Message("msg", NotAuthorized)), out.db)
            && GetPost(out.db, p.id) == Response(200, PostBody(p))
  {
  }

  /** What an update answers is what a later read returns. */
  lemma UpdateThenGet(db: Db, uid: UserId, id: PostId, title: Option<string>, body: Option<string>)
    requires Consistent(db)
    requires UpdatePost(db, uid, id, title, body).response.status == 200
    ensures var out := UpdatePost(db, uid, id, title, body);
            GetPost(out.db, id) == out.response
  {
  }

  /** A deleted post is gone: reading it answers 404, and deleting it again too. */
  lemma DeleteThenGet(db: Db, uid: UserId, id: PostId)
    requires Consistent(db)
    requires DeletePost(db, uid, id).response.status == 200
    ensures var out := DeletePost(db, uid, id);
            && GetPost(out.db, id).status == 404
            && DeletePost(out.db, uid, id).response.status == 404
  {
  }

  /** An update by the owner with no truthy field leaves the store as it was. */
  lemma EmptyUpdateChangesNothing(db: Db, uid: UserId, id: PostId, title: Option<string>, body: Option<string>)
    requires Consistent(db)
    requires id in db.posts && db.posts[id].user == uid
    requires !Truthy(title) && !Truthy(body)
    ensures UpdatePost(db, uid, id, title, body) == Outcome(Response(200, PostBody(db.posts[id])), db)
  {
  }

  /** Sending the same update twice leaves the store as sending it once. */
  lemma UpdateIdempotent(db: Db, uid: UserId, id: PostId, title: Option<string>, body: Option<string>)
    requires Consistent(db)
    ensures var once := UpdatePost(db, uid, id, title, body);
            var twice := UpdatePost(once.db, uid, id, title, body);
            twice.db == once.db && twice.response == once.response
  {
  }
}
