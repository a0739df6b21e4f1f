/**
 The relational state of the social service: the tables `users`, `friends` and `posts`,
 the writes the services make to them, and the queries the two caches are filled from.
 */
module SocialDb {
  import opened Wrappers
  import opened Users
  import opened Ordering

  type PostId = string

  datatype Post = Post(id: PostId, text: string, author: UserId, createTime: int, updateTime: int)

  /** Row of `friends`: `user` follows `friend`. */
  datatype FriendRow = FriendRow(user: UserId, friend: UserId)

  datatype Db = Db(users: set<UserId>, friends: seq<FriendRow>, posts: seq<Post>)

  /** The primary keys: (user_id, friend_id) in `friends` and id in `posts`. */
  ghost predicate Valid(db: Db) {
    && (forall i, j :: 0 <= i < j < |db.friends| ==> db.friends[i] != db.friends[j])
    && (forall i, j :: 0 <= i < j < |db.posts| ==> db.posts[i].id != db.posts[j].id)
  }

  predicate Follows(db: Db, user: UserId, author: UserId) {
    FriendRow(user, author) in db.friends
  }

  // ---------------------------------------------------------------- queries

  function PostsBy(posts: seq<Post>, author: UserId): seq<Post> {
    if posts == [] then []
    else (if posts[0].author == author then [posts[0]] else []) + PostsBy(posts[1..], author)
  }

  /** FROM friends f JOIN posts p ON f.friend_id = p.user_id WHERE f.user_id = user */
  function Join(friends: seq<FriendRow>, posts: seq<Post>, user: UserId): seq<Post> {
    if friends == [] then []
    else
      (if friends[0].user == user then PostsBy(posts, friends[0].friend) else [])
      + Join(friends[1..], posts, user)
  }

  function PostStamp(p: Post): Stamp {
    Stamp(p.createTime, p.id)
  }

  /** Every post of the users that `user` follows, newest first. */
  function Timeline(db: Db, user: UserId): seq<Post> {
    Sort(Join(db.friends, db.posts, user), PostStamp)
  }

  /** The rows of the feed query with its LIMIT and OFFSET. */
  function SelectFeed(db: Db, user: UserId, limit: nat, offset: nat): seq<Post> {
    Window(Timeline(db, user), limit, offset)
  }

  /** The rows of SELECT user_id FROM friends WHERE friend_id = author. */
  function Subscribers(friends: seq<FriendRow>, author: UserId): seq<UserId> {
    if friends == [] then []
    else
      (if friends[0].friend == author then [friends[0].user] else [])
      + Subscribers(friends[1..], author)
  }

  // ---------------------------------------------------------------- writes

  datatype DbError = UserNotFound | UserAlreadyExists | PostNotFound | DuplicatePost | NotExecuted

  datatype Write =
    | AddFriend(user: UserId, friend: UserId)
    | DeleteFriend(user: UserId, friend: UserId)
    | CreatePost(post: Post)
    | UpdatePost(id: PostId, author: UserId, text: string)
    | DeletePost(id: PostId, author: UserId)

  predicate OwnsPost(posts: seq<Post>, id: PostId, author: UserId) {
    exists p | p in posts :: p.id == id && p.author == author
  }

  function EditPost(posts: seq<Post>, id: PostId, author: UserId, text: string): seq<Post> {
    if posts == [] then []
    else
      [if posts[0].id == id && posts[0].author == author then posts[0].(text := text) else posts[0]]
      + EditPost(posts[1..], id, author, text)
  }

  function RemovePost(posts: seq<Post>, id: PostId, author: UserId): seq<Post> {
    if posts == [] then []
    else
      (if posts[0].id == id && posts[0].author == author then [] else [posts[0]])
      + RemovePost(posts[1..], id, author)
  }

  function RemoveFriend(friends: seq<FriendRow>, row: FriendRow): seq<FriendRow> {
    if friends == [] then []
    else (if friends[0] == row then [] else [friends[0]]) + RemoveFriend(friends[1..], row)
  }

  /** The effect of one write statement, or the error its caller sees. */
  function Execute(db: Db, w: Write): Result<Db, DbError> {
    match w
    case AddFriend(user, friend) =>
      if user !in db.users || friend !in db.users then Failure(UserNotFound)
      else if Follows(db, user, friend) then Failure(UserAlreadyExists)
      else Success(db.(friends := db.friends + [FriendRow(user, friend)]))
    case DeleteFriend(user, friend) =>
      if !Follows(db, user, friend) then Failure(UserNotFound)
      else Success(db.(friends := RemoveFriend(db.friends, FriendRow(user, friend))))
    case CreatePost(post) =>
      if post.author !in db.users then Failure(UserNotFound)
      else if exists p | p in db.posts :: p.id == post.id then Failure(DuplicatePost)
      else Success(db.(posts := db.posts + [post]))
    case UpdatePost(id, author, text) =>
      if !OwnsPost(db.posts, id, author) then Failure(PostNotFound)
      else Success(db.(posts := EditPost(db.posts, id, author, text)))
    case DeletePost(id, author) =>
      if !OwnsPost(db.posts, id, author) then Failure(PostNotFound)
      else Success(db.(posts := RemovePost(db.posts, id, author)))
  }

  // ---------------------------------------------------------------- what the queries mean

  ghost predicate FriendPost(db: Db, user: UserId, p: Post) {
    p in db.posts && Follows(db, user, p.author)
  }

  lemma {:induction false} PostsByMeaning(posts: seq<Post>, author: UserId)
    requires forall i, j :: 0 <= i < j < |posts| ==> posts[i].id != posts[j].id
    ensures forall p :: p in PostsBy(posts, author) <==> p in posts && p.author == author
    ensures DistinctStamps(PostsBy(posts, author), PostStamp)
  {
    if posts != [] {
      PostsByMeaning(posts[1..], author);
      assert posts == [posts[0]] + posts[1..];
      var rest := PostsBy(posts[1..], author);
      forall j | 0 <= j < |rest| ensures PostStamp(rest[j]) != PostStamp(posts[0]) {
        assert rest[j] in posts[1..];
        var k :| 0 <= k < |posts[1..]| && posts[1..][k] == rest[j];
        assert posts[k + 1].id != posts[0].id;
      }
    }
  }

  lemma {:induction false} JoinMeaning(friends: seq<FriendRow>, posts: seq<Post>, user: UserId)
    requires forall i, j :: 0 <= i < j < |friends| ==> friends[i] != friends[j]
    requires forall i, j :: 0 <= i < j < |posts| ==> posts[i].id != posts[j].id
    ensures forall p :: p in Join(friends, posts, user) <==> p in posts && FriendRow(user, p.author) in friends
    ensures DistinctStamps(Join(friends, posts, user), PostStamp)
  {
    if friends != [] {
      var row, rest := friends[0], Join(friends[1..], posts, user);
      JoinMeaning(friends[1..], posts, user);
      PostsByMeaning(posts, row.friend);
      assert friends == [row] + friends[1..];
      assert row !in friends[1..];
      var first := if row.user == user then PostsBy(posts, row.friend) else [];
      forall p | p in first ensures p.author == row.friend && row == FriendRow(user, p.author) {}
      forall i, j | 0 <= i < |first| && 0 <= j < |rest|
        ensures PostStamp(first[i]) != PostStamp(rest[j])
      {
        assert first[i] in first && rest[j] in rest;
        assert first[i] != rest[j];
        SameIdSamePost(posts, first[i], rest[j]);
      }
    }
  }

  lemma SameIdSamePost(posts: seq<Post>, p: Post, q: Post)
    requires forall i, j :: 0 <= i < j < |posts| ==> posts[i].id != posts[j].id
    requires p in posts && q in posts && p != q
    ensures p.id != q.id
  {
    var i :| 0 <= i < |posts| && posts[i] == p;
    var j :| 0 <= j < |posts| && posts[j] == q;
    assert i < j || j < i;
  }

  /** The timeline lists exactly the followed users' posts, each once, newest first. */
  lemma TimelineMeaning(db: Db, user: UserId)
    requires Valid(db)
    ensures Sorted(Timeline(db, user), PostStamp)
    ensures forall p :: p in Timeline(db, user) <==> FriendPost(db, user, p)
  {
    JoinMeaning(db.friends, db.posts, user);
    SortSorts(Join(db.friends, db.posts, user), PostStamp);
  }

  lemma {:induction false} SubscribersMeaning(friends: seq<FriendRow>, author: UserId)
    requires forall i, j :: 0 <= i < j < |friends| ==> friends[i] != friends[j]
    ensures forall u :: u in Subscribers(friends, author) <==> FriendRow(u, author) in friends
    ensures forall i, j :: 0 <= i < j < |Subscribers(friends, author)| ==>
      Subscribers(friends, author)[i] != Subscribers(friends, author)[j]
  {
    if friends != [] {
      SubscribersMeaning(friends[1..], author);
      assert friends == [friends[0]] + friends[1..];
      assert friends[0] !in friends[1..];
    }
  }

  /** What a reader of the feed may expect of a page of `limit` posts, whatever computed it. */
  ghost predicate TopFeed(r: seq<Post>, db: Db, user: UserId, limit: nat) {
    && |r| <= limit
    && Sorted(r, PostStamp)
    && (forall p :: p in r ==> FriendPost(db, user, p))
    && (forall p :: FriendPost(db, user, p) && p !in r ==>
         |r| == limit && forall q :: q in r ==> Newer(PostStamp(q), PostStamp(p)))
  }

  /** The feed query is the only list of posts that meets `TopFeed`. */
  lemma FeedIsTopFeed(db: Db, user: UserId, limit: nat, r: seq<Post>)
    requires Valid(db)
    ensures r == SelectFeed(db, user, limit, 0) <==> TopFeed(r, db, user, limit)
  {
    FeedMeetsTopFeed(db, user, limit);
    if TopFeed(r, db, user, limit) {
      TopFeedUnique(r, SelectFeed(db, user, limit, 0), db, user, limit);
    }
  }

  lemma FeedMeetsTopFeed(db: Db, user: UserId, limit: nat)
    requires Valid(db)
    ensures TopFeed(SelectFeed(db, user, limit, 0), db, user, limit)
  {
    var t := Timeline(db, user);
    TimelineMeaning(db, user);
    var page := SelectFeed(db, user, limit, 0);
    assert page == t[..Min(limit, |t|)];
    forall p | FriendPost(db, user, p) && p !in page
      ensures |page| == limit && forall q :: q in page ==> Newer(PostStamp(q), PostStamp(p))
    {
      var k :| 0 <= k < |t| && t[k] == p;
      CutOff(t, |page|, k);
    }
  }

  /** What is cut off a sorted list comes after everything that is kept. */
  lemma CutOff(t: seq<Post>, n: nat, k: nat)
    requires Sorted(t, PostStamp) && n <= |t| && k < |t| && t[k] !in t[..n]
    ensures n <= k && forall q :: q in t[..n] ==> Newer(PostStamp(q), PostStamp(t[k]))
  {
    assert forall i :: 0 <= i < n ==> t[..n][i] == t[i] && t[i] in t[..n];
    forall q | q in t[..n] ensures Newer(PostStamp(q), PostStamp(t[k])) {
      var i :| 0 <= i < n && t[..n][i] == q;
      assert t[i] == q;
    }
  }

  lemma TopFeedUnique(a: seq<Post>, b: seq<Post>, db: Db, user: UserId, limit: nat)
    requires TopFeed(a, db, user, limit) && TopFeed(b, db, user, limit)
    ensures a == b
  {
    TopFeedContained(a, b, db, user, limit);
    TopFeedContained(b, a, db, user, limit);
    SortedUnique(a, b, PostStamp);
  }

  /** A post in one such list and not in the other would be newer than itself. */
  lemma TopFeedContained(a: seq<Post>, b: seq<Post>, db: Db, user: UserId, limit: nat)
    requires TopFeed(a, db, user, limit) && TopFeed(b, db, user, limit)
    ensures forall p :: p in a ==> p in b
  {
    forall p | p in a ensures p in b {
      if p !in b {
        assert FriendPost(db, user, p);
        var q := MissingFrom(a, b, p);
        assert FriendPost(db, user, q);
        NewerIsStrictTotalOrder(PostStamp(p), PostStamp(q), PostStamp(p));
        assert false;
      }
    }
  }

  /** If `a` holds something outside `b` and is not longer, `b` holds something outside `a`. */
  lemma MissingFrom(a: seq<Post>, b: seq<Post>, p: Post) returns (q: Post)
    requires p in a && p !in b && |a| <= |b|
    requires Sorted(b, PostStamp)
    ensures q in b && q !in a
  {
    var sa, sb := set x | x in a, set x | x in b;
    DistinctCount(b);
    SetOfSeq(a);
    if sb <= sa {
      assert sb <= sa - {p};
      SubsetCount(sb, sa - {p});
      assert false;
    }
    q :| q in sb && q !in sa;
  }

  lemma {:induction false} SetOfSeq(a: seq<Post>)
    ensures |set x | x in a| <= |a|
  {
    if a != [] {
      SetOfSeq(a[1..]);
      assert (set x | x in a) == {a[0]} + set x | x in a[1..];
    }
  }

  lemma {:induction false} DistinctCount(a: seq<Post>)
    requires Sorted(a, PostStamp)
    ensures |set x | x in a| == |a|
  {
    if a != [] {
      DistinctCount(a[1..]);
      HeadOccursOnce(a, PostStamp);
      assert (set x | x in a) == {a[0]} + set x | x in a[1..];
    }
  }

  lemma {:induction false} SubsetCount(a: set<Post>, b: set<Post>)
    requires a <= b
    ensures |a| <= |b|
  {
    if a != {} {
      var x :| x in a;
      SubsetCount(a - {x}, b - {x});
    }
  }

  /**
   The feed by its times: newest posts first; only posts by users that `user` follows; and, on the
   first page, every other such post is at most as new as every post shown, and is left out
   only because the page is full.
   */
  lemma FeedNewestFirst(db: Db, user: UserId, limit: nat, offset: nat)
    requires Valid(db)
    ensures var page := SelectFeed(db, user, limit, offset);
      && |page| <= limit
      && (forall i, j :: 0 <= i < j < |page| ==> page[i].createTime >= page[j].createTime && page[i] != page[j])
      && (forall p :: p in page ==> p in db.posts && FriendRow(user, p.author) in db.friends)
      && (offset == 0 ==> forall p, q ::
           p in db.posts && FriendRow(user, p.author) in db.friends && p !in page && q in page ==>
           |page| == limit && q.createTime >= p.createTime)
      && (offset == 0 && |page| < limit ==> forall p ::
           p in db.posts && FriendRow(user, p.author) in db.friends ==> p in page)
  {
    var t, page := Timeline(db, user), SelectFeed(db, user, limit, offset);
    TimelineMeaning(db, user);
    WindowRows(t, limit, offset);
    forall i, j | 0 <= i < j < |page| ensures page[i].createTime >= page[j].createTime && page[i] != page[j] {
      assert Newer(PostStamp(t[offset + i]), PostStamp(t[offset + j]));
      NewerIsStrictTotalOrder(PostStamp(page[i]), PostStamp(page[j]), PostStamp(page[i]));
    }
    forall p | p in page ensures FriendPost(db, user, p) {
      assert p in t;
    }
    if offset == 0 { FirstPageIsNewest(db, user, limit); }
  }

  lemma FirstPageIsNewest(db: Db, user: UserId, limit: nat)
    requires Valid(db)
    ensures var page := SelectFeed(db, user, limit, 0);
      forall p :: FriendPost(db, user, p) && p !in page ==>
        |page| == limit && forall q :: q in page ==> q.createTime >= p.createTime
  {
    var page := SelectFeed(db, user, limit, 0);
    FeedMeetsTopFeed(db, user, limit);
    forall p | FriendPost(db, user, p) && p !in page
      ensures |page| == limit && forall q :: q in page ==> q.createTime >= p.createTime
    {
      assert forall q :: q in page ==> Newer(PostStamp(q), PostStamp(p));
    }
  }

  // ---------------------------------------------------------------- pages

  /** A page cut out of the cached feed is the page the query itself would return. */
  lemma CachedPageIsQueryPage(db: Db, user: UserId, maxLength: nat, limit: nat, offset: nat)
    requires offset + limit <= maxLength
    ensures Window(SelectFeed(db, user, maxLength, 0), limit, offset) == SelectFeed(db, user, limit, offset)
  {
  }

  /** Pages of `size` posts, one after another. */
  function Pages(db: Db, user: UserId, size: nat, count: nat): seq<Post> {
    if count == 0 then [] else Pages(db, user, size, count - 1) + SelectFeed(db, user, size, (count - 1) * size)
  }

  /** Consecutive pages put together are a prefix of the feed: nothing repeated, nothing lost. */
  lemma {:induction false} PagesRebuildFeed(db: Db, user: UserId, size: nat, count: nat)
    ensures Pages(db, user, size, count) == SelectFeed(db, user, count * size, 0)
  {
    if count > 0 {
      PagesRebuildFeed(db, user, size, count - 1);
      OneMorePage(db, user, size, (count - 1) * size);
      Distribute(count, size);
    }
  }

  lemma Distribute(count: nat, size: nat)
    requires count > 0
    ensures count * size == (count - 1) * size + size
  {
  }

  lemma OneMorePage(db: Db, user: UserId, size: nat, start: nat)
    ensures SelectFeed(db, user, start, 0) + SelectFeed(db, user, size, start) == SelectFeed(db, user, start + size, 0)
  {
    NextWindow(Timeline(db, user), start, size);
  }

  lemma NextWindow<T>(s: seq<T>, start: nat, size: nat)
    ensures Window(s, start, 0) + Window(s, size, start) == Window(s, start + size, 0)
  {
  }

  // ---------------------------------------------------------------- outcomes of writes

  lemma {:induction false} RemoveFriendRows(friends: seq<FriendRow>, row: FriendRow)
    ensures forall x :: x in RemoveFriend(friends, row) <==> x in friends && x != row
  {
    if friends != [] { RemoveFriendRows(friends[1..], row); }
  }

  lemma {:induction false} EditPostRows(posts: seq<Post>, id: PostId, author: UserId, text: string)
    ensures |EditPost(posts, id, author, text)| == |posts|
    ensures forall i :: 0 <= i < |posts| ==> (
      EditPost(posts, id, author, text)[i] ==
      if posts[i].id == id && posts[i].author == author then posts[i].(text := text) else posts[i])
  {
    if posts != [] { EditPostRows(posts[1..], id, author, text); }
  }

  lemma {:induction false} RemovePostRows(posts: seq<Post>, id: PostId, author: UserId)
    ensures forall p :: p in RemovePost(posts, id, author) <==> p in posts && !(p.id == id && p.author == author)
  {
    if posts != [] { RemovePostRows(posts[1..], id, author); }
  }

  /** When a write succeeds, told from the rows, and what its caller is told otherwise. */
  lemma WriteOutcome(db: Db, w: Write)
    ensures match w
      case AddFriend(user, friend) =>
        && (Execute(db, w).Success? <==>
             user in db.users && friend in db.users && FriendRow(user, friend) !in db.friends)
        && (user !in db.users || friend !in db.users ==> Execute(db, w) == Failure(UserNotFound))
        && (user in db.users && friend in db.users && FriendRow(user, friend) in db.friends ==>
             Execute(db, w) == Failure(UserAlreadyExists))
      case DeleteFriend(user, friend) =>
        && (Execute(db, w).Success? <==> FriendRow(user, friend) in db.friends)
        && (FriendRow(user, friend) !in db.friends ==> Execute(db, w) == Failure(UserNotFound))
      case CreatePost(post) =>
        && (Execute(db, w).Success? <==> post.author in db.users && forall p :: p in db.posts ==> p.id != post.id)
        && (post.author !in db.users ==> Execute(db, w) == Failure(UserNotFound))
        && (post.author in db.users && !Execute(db, w).Success? ==> Execute(db, w) == Failure(DuplicatePost))
      case UpdatePost(id, author, _) =>
        && (Execute(db, w).Success? <==> exists p :: p in db.posts && p.id == id && p.author == author)
        && (!Execute(db, w).Success? ==> Execute(db, w) == Failure(PostNotFound))
      case DeletePost(id, author) =>
        && (Execute(db, w).Success? <==> exists p :: p in db.posts && p.id == id && p.author == author)
        && (!Execute(db, w).Success? ==> Execute(db, w) == Failure(PostNotFound))
  {
  }

  // ---------------------------------------------------------------- frames

  lemma {:induction false} RemoveFriendMeaning(friends: seq<FriendRow>, row: FriendRow)
    requires forall i, j :: 0 <= i < j < |friends| ==> friends[i] != friends[j]
    ensures forall x :: x in RemoveFriend(friends, row) <==> x in friends && x != row
    ensures forall i, j :: 0 <= i < j < |RemoveFriend(friends, row)| ==>
      RemoveFriend(friends, row)[i] != RemoveFriend(friends, row)[j]
  {
    if friends != [] {
      RemoveFriendMeaning(friends[1..], row);
      assert friends == [friends[0]] + friends[1..];
      assert friends[0] !in friends[1..];
    }
  }

  lemma {:induction false} PostTableKeys(posts: seq<Post>, id: PostId, author: UserId, text: string)
    requires forall i, j :: 0 <= i < j < |posts| ==> posts[i].id != posts[j].id
    ensures |EditPost(posts, id, author, text)| == |posts|
    ensures forall i :: 0 <= i < |posts| ==> (
      EditPost(posts, id, author, text)[i] ==
      if posts[i].id == id && posts[i].author == author then posts[i].(text := text) else posts[i])
    ensures forall p :: p in RemovePost(posts, id, author) <==> p in posts && !(p.id == id && p.author == author)
    ensures forall i, j :: 0 <= i < j < |RemovePost(posts, id, author)| ==>
      RemovePost(posts, id, author)[i].id != RemovePost(posts, id, author)[j].id
  {
    if posts != [] {
      PostTableKeys(posts[1..], id, author, text);
      assert posts == [posts[0]] + posts[1..];
      var rest := RemovePost(posts[1..], id, author);
      forall j | 0 <= j < |rest| ensures rest[j].id != posts[0].id {
        assert rest[j] in posts[1..];
        var k :| 0 <= k < |posts[1..]| && posts[1..][k] == rest[j];
        assert posts[k + 1].id != posts[0].id;
      }
    }
  }

  /** Writes keep the primary keys. */
  lemma ExecuteKeepsKeys(db: Db, w: Write)
    requires Valid(db)
    ensures Execute(db, w).Success? ==> Valid(Execute(db, w).value)
  {
    match w
    case AddFriend(_, _) =>
    case DeleteFriend(user, friend) => RemoveFriendMeaning(db.friends, FriendRow(user, friend));
    case CreatePost(_) =>
    case UpdatePost(id, author, text) => PostTableKeys(db.posts, id, author, text);
    case DeletePost(id, author) => PostTableKeys(db.posts, id, author, "");
  }

  /**
   What a successful write leaves in the tables.  A post keeps its author and both its
   times when it is edited; a post of the same id under another author is never touched.
   */
  lemma ExecuteEffect(db: Db, w: Write)
    requires Valid(db) && Execute(db, w).Success?
    ensures var db' := Execute(db, w).value;
      && db'.users == db.users
      && (w.CreatePost? || w.UpdatePost? || w.DeletePost? ==> db'.friends == db.friends)
      && (w.AddFriend? || w.DeleteFriend? ==> db'.posts == db.posts)
      && (w.AddFriend? ==> forall a, b ::
           Follows(db', a, b) <==> Follows(db, a, b) || (a == w.user && b == w.friend))
      && (w.DeleteFriend? ==> forall a, b ::
           Follows(db', a, b) <==> Follows(db, a, b) && !(a == w.user && b == w.friend))
      && (w.CreatePost? ==> forall p :: p in db'.posts <==> p in db.posts || p == w.post)
      && (w.DeletePost? ==> forall p ::
           p in db'.posts <==> p in db.posts && !(p.id == w.id && p.author == w.author))
      && (w.UpdatePost? ==> |db'.posts| == |db.posts| && forall i :: 0 <= i < |db.posts| ==>
           db'.posts[i] == if db.posts[i].id == w.id && db.posts[i].author == w.author
                           then db.posts[i].(text := w.text) else db.posts[i])
  {
    match w
    case AddFriend(_, _) =>
    case DeleteFriend(user, friend) => RemoveFriendMeaning(db.friends, FriendRow(user, friend));
    case CreatePost(_) =>
    case UpdatePost(id, author, text) => PostTableKeys(db.posts, id, author, text);
    case DeletePost(id, author) => PostTableKeys(db.posts, id, author, "");
  }

  /** The user whose posts a write changes. */
  function PostAuthor(w: Write): UserId
    requires !w.AddFriend? && !w.DeleteFriend?
  {
    if w.CreatePost? then w.post.author else w.author
  }

  lemma {:induction false} PostsByAppend(posts: seq<Post>, p: Post, author: UserId)
    ensures PostsBy(posts + [p], author) == PostsBy(posts, author) + if p.author == author then [p] else []
  {
    if posts == [] {
      assert posts + [p] == [p];
    } else {
      PostsByAppend(posts[1..], p, author);
      assert (posts + [p])[1..] == posts[1..] + [p];
    }
  }

  lemma {:induction false} PostsByOthers(posts: seq<Post>, id: PostId, author: UserId, text: string, other: UserId)
    requires other != author
    ensures PostsBy(EditPost(posts, id, author, text), other) == PostsBy(posts, other)
    ensures PostsBy(RemovePost(posts, id, author), other) == PostsBy(posts, other)
  {
    if posts != [] {
      PostsByOthers(posts[1..], id, author, text, other);
      var rest := EditPost(posts[1..], id, author, text);
      assert EditPost(posts, id, author, text)[1..] == rest;
      if posts[0].id == id && posts[0].author == author {
        assert RemovePost(posts, id, author) == RemovePost(posts[1..], id, author);
      } else {
        assert RemovePost(posts, id, author)[1..] == RemovePost(posts[1..], id, author);
      }
    }
  }

  lemma {:induction false} JoinDependsOnFollowed(friends: seq<FriendRow>, before: seq<Post>, after: seq<Post>,
                                                 user: UserId)
    requires forall a :: FriendRow(user, a) in friends ==> PostsBy(before, a) == PostsBy(after, a)
    ensures Join(friends, before, user) == Join(friends, after, user)
  {
    if friends != [] {
      assert friends == [friends[0]] + friends[1..];
      forall a | FriendRow(user, a) in friends[1..] ensures PostsBy(before, a) == PostsBy(after, a) {
        assert FriendRow(user, a) in friends;
      }
      JoinDependsOnFollowed(friends[1..], before, after, user);
      assert friends[0].user == user ==> FriendRow(user, friends[0].friend) in friends;
    }
  }

  lemma {:induction false} JoinAppend(friends: seq<FriendRow>, row: FriendRow, posts: seq<Post>, user: UserId)
    requires row.user != user
    ensures Join(friends + [row], posts, user) == Join(friends, posts, user)
  {
    if friends == [] {
      assert friends + [row] == [row];
    } else {
      JoinAppend(friends[1..], row, posts, user);
      assert (friends + [row])[1..] == friends[1..] + [row];
    }
  }

  lemma {:induction false} JoinRemove(friends: seq<FriendRow>, row: FriendRow, posts: seq<Post>, user: UserId)
    requires row.user != user
    ensures Join(RemoveFriend(friends, row), posts, user) == Join(friends, posts, user)
  {
    if friends != [] {
      JoinRemove(friends[1..], row, posts, user);
      if friends[0] == row {
        assert RemoveFriend(friends, row) == RemoveFriend(friends[1..], row);
      } else {
        assert RemoveFriend(friends, row)[1..] == RemoveFriend(friends[1..], row);
      }
    }
  }

  /**
   A post written by `a` changes the feed of nobody who does not follow `a`, and no
   subscription.  Adding or deleting (u, f) changes nobody's feed but u's, and no
   subscription but that of u to f.
   */
  lemma WriteFrame(db: Db, w: Write, user: UserId)
    requires Valid(db) && Execute(db, w).Success?
    ensures var db' := Execute(db, w).value;
      if w.AddFriend? || w.DeleteFriend? then
        && (user != w.user ==> Timeline(db', user) == Timeline(db, user))
        && (forall a :: Follows(db', user, a) != Follows(db, user, a) <==> user == w.user && a == w.friend)
      else
        && (!Follows(db, user, PostAuthor(w)) ==> Timeline(db', user) == Timeline(db, user))
        && db'.friends == db.friends
  {
    match w
    case AddFriend(u, f) =>
      if user != u { JoinAppend(db.friends, FriendRow(u, f), db.posts, user); }
    case DeleteFriend(u, f) =>
      RemoveFriendMeaning(db.friends, FriendRow(u, f));
      if user != u { JoinRemove(db.friends, FriendRow(u, f), db.posts, user); }
    case CreatePost(p) =>
      if !Follows(db, user, p.author) {
        forall a | FriendRow(user, a) in db.friends ensures PostsBy(db.posts, a) == PostsBy(db.posts + [p], a) {
          PostsByAppend(db.posts, p, a);
        }
        JoinDependsOnFollowed(db.friends, db.posts, db.posts + [p], user);
      }
    case UpdatePost(id, author, text) =>
      if !Follows(db, user, author) {
        var posts := EditPost(db.posts, id, author, text);
        forall a | FriendRow(user, a) in db.friends ensures PostsBy(db.posts, a) == PostsBy(posts, a) {
          PostsByOthers(db.posts, id, author, text, a);
        }
        JoinDependsOnFollowed(db.friends, db.posts, posts, user);
      }
    case DeletePost(id, author) =>
      if !Follows(db, user, author) {
        var posts := RemovePost(db.posts, id, author);
        forall a | FriendRow(user, a) in db.friends ensures PostsBy(db.posts, a) == PostsBy(posts, a) {
          PostsByOthers(db.posts, id, author, "", a);
        }
        JoinDependsOnFollowed(db.friends, db.posts, posts, user);
      }
  }
}
