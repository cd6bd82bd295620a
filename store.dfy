/**
 The document store behind the route handlers: the `users` and `posts`
 collections, the invariant they keep, and the two queries the handlers issue
 that are more than a key lookup (`User.findOne({email})` and
 `Post.find().sort({date: -1})`).

 Document ids are natural numbers handed out by a per-collection counter; this
 stands in for the store's generation of fresh object ids.
 */
module Store {

  datatype Option<+T> = None | Some(value: T)

  type UserId = nat
  type PostId = nat

  /** A document of the users collection; `password` holds the bcrypt digest. */
  datatype User = User(id: UserId, name: string, email: string, password: string)

  /** A document of the posts collection; `user` is the id of the owner. */
  datatype Post = Post(id: PostId, user: UserId, title: string, body: string, date: int)

  /** The whole store: both collections and the next fresh id of each. */
  datatype Db = Db(
    users: map<UserId, User>,
    posts: map<PostId, Post>,
    nextUserId: nat,
    nextPostId: nat)

  const Empty: Db := Db(map[], map[], 0, 0)

  ghost predicate KeyedById(posts: map<PostId, Post>) {
    forall id :: id in posts ==> posts[id].id == id
  }

  /** There is at most one user per email address. */
  ghost predicate UniqueEmails(users: map<UserId, User>) {
    forall a, b :: a in users && b in users && users[a].email == users[b].email ==> a == b
  }

  /**
   The store invariant: every document sits under its own id, below the next
   fresh id; emails are unique; every post is owned by a stored user.
   */
  ghost predicate Consistent(db: Db) {
    && (forall id :: id in db.users ==> id < db.nextUserId && db.users[id].id == id)
    && (forall id :: id in db.posts ==> id < db.nextPostId && db.posts[id].user in db.users)
    && KeyedById(db.posts)
    && UniqueEmails(db.users)
  }

  ghost predicate EmailTaken(users: map<UserId, User>, email: string) {
    exists id :: id in users && users[id].email == email
  }

  /** Scan the ids `from .. bound-1` in order for the first user with this email. */
  function FindByEmail(users: map<UserId, User>, email: string, from: nat, bound: nat): (r: Option<UserId>)
    decreases bound - from
    ensures r.Some? ==> from <= r.value < bound && r.value in users && users[r.value].email == email
    ensures r.Some? ==> forall id :: from <= id < r.value && id in users ==> users[id].email != email
    ensures r.None? ==> forall id :: from <= id < bound && id in users ==> users[id].email != email
  {
    if from >= bound then None
    else if from in users && users[from].email == email then Some(from)
    else FindByEmail(users, email, from + 1, bound)
  }

  /** `User.findOne({email})`: the user registered under `email`, if any. */
  function FindUser(db: Db, email: string): (r: Option<UserId>)
    requires Consistent(db)
    ensures r.Some? ==> r.value in db.users && db.users[r.value].email == email
    ensures r.None? <==> !EmailTaken(db.users, email)
  {
    FindByEmail(db.users, email, 0, db.nextUserId)
  }

  /** The posts under the ids `from .. bound-1`, in id order. */
  function PostsFrom(posts: map<PostId, Post>, from: nat, bound: nat): (r: seq<Post>)
    requires KeyedById(posts)
    decreases bound - from
    ensures forall p :: p in r ==> from <= p.id < bound && p.id in posts && posts[p.id] == p
    ensures forall id :: from <= id < bound && id in posts ==> posts[id] in r
    ensures forall i, j :: 0 <= i < j < |r| ==> r[i].id < r[j].id
    ensures Distinct(r)
  {
    if from >= bound then []
    else if from in posts then [posts[from]] + PostsFrom(posts, from + 1, bound)
    else PostsFrom(posts, from + 1, bound)
  }

  /** Ordered by `date` descending: the newest post comes first. */
  ghost predicate NewestFirst(s: seq<Post>) {
    forall i, j :: 0 <= i < j < |s| ==> s[i].date >= s[j].date
  }

  ghost predicate Distinct(s: seq<Post>) {
    forall i, j :: 0 <= i < j < |s| ==> s[i] != s[j]
  }

  /** Every post in `s` is dated `d` or earlier. */
  ghost predicate DatedAtMost(s: seq<Post>, d: int) {
    forall k :: 0 <= k < |s| ==> s[k].date <= d
  }

  lemma NewestFirstCons(x: Post, s: seq<Post>)
    requires NewestFirst(s) && DatedAtMost(s, x.date)
    ensures NewestFirst([x] + s)
  {
  }

  /** Put `p` into a newest-first sequence, ahead of every post not newer than it. */
  function Insert(p: Post, s: seq<Post>): (r: seq<Post>)
    requires NewestFirst(s)
    ensures NewestFirst(r)
    ensures multiset(r) == multiset(s) + multiset{p}
    ensures forall d :: DatedAtMost(s, d) && p.date <= d ==> DatedAtMost(r, d)
  {
    if s == [] || p.date >= s[0].date then
      NewestFirstCons(p, s);
      [p] + s
    else
      var rest := Insert(p, s[1..]);
      assert DatedAtMost(s[1..], s[0].date);
      NewestFirstCons(s[0], rest);
      assert s == [s[0]] + s[1..];
      [s[0]] + rest
  }

  /** The sort the store applies for `sort({date: -1})`. */
  function SortNewestFirst(s: seq<Post>): (r: seq<Post>)
    ensures NewestFirst(r)
    ensures multiset(r) == multiset(s)
  {
    if s == [] then []
    else
      assert s == [s[0]] + s[1..];
      Insert(s[0], SortNewestFirst(s[1..]))
  }

  lemma {:induction false} DistinctCountsOnce(s: seq<Post>, x: Post)
    requires Distinct(s)
    ensures multiset(s)[x] <= 1
  {
    if s != [] {
      assert s == [s[0]] + s[1..];
      assert Distinct(s[1..]) by {
        forall i, j | 0 <= i < j < |s[1..]| ensures s[1..][i] != s[1..][j] {
          assert s[1..][i] == s[i + 1] && s[1..][j] == s[j + 1];
        }
      }
      DistinctCountsOnce(s[1..], x);
      if x == s[0] {
        forall k | 0 <= k < |s[1..]| ensures s[1..][k] != x {
          assert s[1..][k] == s[k + 1];
        }
        assert x !in s[1..];
      }
    }
  }

  lemma RepeatCountsTwice(t: seq<Post>, i: nat, j: nat)
    requires i < j < |t|
    ensures t[i] == t[j] ==> multiset(t)[t[i]] >= 2
  {
    if t[i] == t[j] {
      assert t == t[..j] + t[j..];
      assert t[i] in t[..j];
      assert t[j] in t[j..];
    }
  }

  /** A permutation of a sequence without repeats has no repeats either. */
  lemma {:induction false} DistinctPermutation(s: seq<Post>, t: seq<Post>)
    requires Distinct(s) && multiset(s) == multiset(t)
    ensures Distinct(t)
  {
    forall i, j | 0 <= i < j < |t| ensures t[i] != t[j] {
      RepeatCountsTwice(t, i, j);
      DistinctCountsOnce(s, t[i]);
    }
  }

  lemma PermutationSameMembers(s: seq<Post>, t: seq<Post>)
    requires multiset(s) == multiset(t)
    ensures forall x :: x in s <==> x in t
  {
    forall x ensures x in s <==> x in t {
      assert x in s <==> x in multiset(s);
      assert x in t <==> x in multiset(t);
    }
  }

  /**
   `Post.find().sort({date: -1})`: every stored post exactly once, newest
   first, whoever asks.
   */
  function PostsNewestFirst(db: Db): (r: seq<Post>)
    requires Consistent(db)
    ensures NewestFirst(r)
    ensures forall p :: p in r ==> p.id in db.posts && db.posts[p.id] == p
    ensures forall id :: id in db.posts ==> db.posts[id] in r
    ensures Distinct(r)
  {
    var all := PostsFrom(db.posts, 0, db.nextPostId);
    var r := SortNewestFirst(all);
    PermutationSameMembers(all, r);
    DistinctPermutation(all, r);
    r
  }
}
