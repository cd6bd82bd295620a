/**
 The running application: one object that holds both collections and answers
 each route by reading and updating them in place. Each method is proved to
 do exactly what the route function of the same name in `Handlers` says, so
 every property proved about those functions holds of the object too.
 */
module Server {
  import opened Store
  import opened Handlers

  class App {
    const lib: Libraries
    var users: map<UserId, User>
    var posts: map<PostId, Post>
    var nextUserId: nat
    var nextPostId: nat

    /** The store as a value. */
    function Snapshot(): Db
      reads this
    {
      Db(users, posts, nextUserId, nextPostId)
    }

    ghost predicate Valid()
      reads this
    {
      Consistent(Snapshot())
    }

    constructor (lib: Libraries)
      ensures Valid() && this.lib == lib && Snapshot() == Empty
    {
      this.lib := lib;
      users, posts := map[], map[];
      nextUserId, nextPostId := 0, 0;
    }

    method Register(name: Option<string>, email: Option<string>, password: Option<string>, salt: Salt) returns (res: Response)
      requires Valid()
      modifies this
      ensures Valid()
      ensures Outcome(res, Snapshot()) == Handlers.Register(old(Snapshot()), lib, name, email, password, salt)
    {
      var errors := RegisterErrors(lib, name, email, password);
      if errors != [] {
        return Response(422, Errors(errors));
      }
      var existing := FindUser(Snapshot(), Text(email));
      if existing.Some? {
        return Response(400, Errors([Reason(UserExists)]));
      }
      var user := User(nextUserId, Text(name), Text(email), lib.hash(Text(password), salt));
      users := users[user.id := user];
      nextUserId := nextUserId + 1;
      res := ReturnToken(user);
    }

    method AuthUser(uid: UserId) returns (res: Response)
      ensures res == Handlers.AuthUser(Snapshot(), uid)
    {
      var user := if uid in users then Some(users[uid]) else None;
      res := Response(200, UserBody(user));
    }

    method Login(email: Option<string>, password: Option<string>) returns (res: Response)
      requires Valid()
      ensures res == Handlers.Login(Snapshot(), lib, email, password)
    {
      var errors := LoginErrors(lib, email, password);
      if errors != [] {
        return Response(422, Errors(errors));
      }
      var found := FindUser(Snapshot(), Text(email));
      if found.None? {
        return Response(400, Errors([Reason(UnknownEmail)]));
      }
      var user := users[found.value];
      var matches := lib.compare(password.value, user.password);
      if !matches {
        return Response(400, Errors([Reason(WrongPassword)]));
      }
      res := ReturnToken(user);
    }

    method CreatePost(uid: UserId, title: Option<string>, body: Option<string>, now: int) returns (res: Response)
      requires Valid()
      modifies this
      ensures Valid()
      ensures Outcome(res, Snapshot()) == Handlers.CreatePost(old(Snapshot()), uid, title, body, now)
    {
      var errors := PostErrors(title, body);
      if errors != [] {
        return Response(400, Errors(errors));
      }
      if uid !in users {
        return Response(500, PlainText(ServerError));
      }
      var user := users[uid];
      var post := Post(nextPostId, user.id, Text(title), Text(body), now);
      posts := posts[post.id := post];
      nextPostId := nextPostId + 1;
      res := Response(200, PostBody(post));
    }

    method ListPosts() returns (res: Response)
      requires Valid()
      ensures res == Handlers.ListPosts(Snapshot())
    {
      res := Response(200, PostList(PostsNewestFirst(Snapshot())));
    }

    method GetPost(id: PostId) returns (res: Response)
      ensures res == Handlers.GetPost(Snapshot(), id)
    {
      if id !in posts {
        return Response(404, Message("msg", PostNotFound));
      }
      res := Response(200, PostBody(posts[id]));
    }

    method UpdatePost(uid: UserId, id: PostId, title: Option<string>, body: Option<string>) returns (res: Response)
      requires Valid()
      modifies this
      ensures Valid()
      ensures Outcome(res, Snapshot()) == Handlers.UpdatePost(old(Snapshot()), uid, id, title, body)
    {
      if id !in posts {
        return Response(404, Message("mesg", PostNotFound));
      }
      var post := posts[id];
      if post.user != uid {
        return Response(401, Message("msg", NotAuthorized));
      }
      post := post.(title := Or(title, post.title));
      post := post.(body := Or(body, post.body));
      posts := posts[id := post];
      res := Response(200, PostBody(post));
    }

    method DeletePost(uid: UserId, id: PostId) returns (res: Response)
      requires Valid()
      modifies this
      ensures Valid()
      ensures Outcome(res, Snapshot()) == Handlers.DeletePost(old(Snapshot()), uid, id)
    {
      if id !in posts {
        return Response(404, Message("msg", PostNotFound));
      }
      var post := posts[id];
      if post.user != uid {
        return Response(401, Message("msg", NotAuthorized));
      }
      posts := posts - {id};
      res := Response(200, Message("msg", PostRemoved));
    }
  }

  /**
   A client session against a fresh application: A registers and posts, B
   registers and tries to delete A's post, and A's post can still be read.
   */
  method OwnerOnlyDeleteScenario(lib: Libraries, now: int) returns (denied: Response, after: Response)
    requires lib.isEmail("a@x.com") && lib.isEmail("b@x.com")
    ensures denied == Response(401, Message("msg", NotAuthorized))
    ensures after.status == 200 && after.body.PostBody?
    ensures after.body.post.title == "t" && after.body.post.body == "b"
  {
    var app := new App(lib);
    var a := app.Register(Some("A"), Some("a@x.com"), Some("secret1"), "salt-a");
    var created := app.CreatePost(TokenUserId(a.body.token), Some("t"), Some("b"), now);
    var b := app.Register(Some("B"), Some("b@x.com"), Some("secret2"), "salt-b");
    assert TokenUserId(b.body.token) != TokenUserId(a.body.token);
    denied := app.DeletePost(TokenUserId(b.body.token), created.body.post.id);
    after := app.GetPost(created.body.post.id);
  }
}
