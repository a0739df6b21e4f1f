/**
 Which writes change which feed, told from the feed before the write: the exact form of what
 `SocialDb.WriteFrame` says of the users a write does not concern.
 */
module FeedChanges {
  import opened Users
  import opened Ordering
  import opened SocialDb

  /** A post that comes to the feed `v` would get a place in it. */
  predicate Fits(v: seq<Post>, limit: nat, p: Post) {
    |v| < limit || (v != [] && Newer(PostStamp(p), PostStamp(v[|v| - 1])))
  }

  /** The write changes the feed `v` of `user`. */
  predicate Touches(db: Db, w: Write, user: UserId, limit: nat, v: seq<Post>) {
    match w
    case AddFriend(u, f) => u == user && exists p | p in db.posts :: p.author == f && Fits(v, limit, p)
    case DeleteFriend(u, f) => u == user && exists p | p in v :: p.author == f
    case CreatePost(p) => Follows(db, user, p.author) && Fits(v, limit, p)
    case UpdatePost(id, author, text) => exists p | p in v :: p.id == id && p.author == author && p.text != text
    case DeletePost(id, author) => exists p | p in v :: p.id == id && p.author == author
  }

  /** A full feed leaves a post out exactly if all its posts are newer. */
  lemma FitsNotIff(v: seq<Post>, limit: nat, p: Post)
    requires Sorted(v, PostStamp) && |v| <= limit && forall q :: q in v ==> PostStamp(q) != PostStamp(p)
    ensures !Fits(v, limit, p) <==> |v| == limit && forall q :: q in v ==> Newer(PostStamp(q), PostStamp(p))
  {
    if v != [] {
      var last := v[|v| - 1];
      NewerIsStrictTotalOrder(PostStamp(last), PostStamp(p), PostStamp(p));
      if Newer(PostStamp(last), PostStamp(p)) {
        forall q | q in v ensures Newer(PostStamp(q), PostStamp(p)) {
          NewerIsStrictTotalOrder(PostStamp(q), PostStamp(last), PostStamp(p));
        }
      }
    }
  }

  lemma DistinctPosts(db: Db, p: Post, q: Post)
    requires Valid(db) && p in db.posts && q in db.posts && p != q
    ensures p.id != q.id
  {
    var i :| 0 <= i < |db.posts| && db.posts[i] == p;
    var j :| 0 <= j < |db.posts| && db.posts[j] == q;
    if i < j { assert db.posts[i].id != db.posts[j].id; } else { assert db.posts[j].id != db.posts[i].id; }
  }

  /** New posts in reach of the user change the feed exactly if one of them fits. */
  lemma MoreFriendPosts(db: Db, after: Db, user: UserId, limit: nat, v: seq<Post>, added: set<Post>)
    requires TopFeed(v, db, user, limit)
    requires forall p :: FriendPost(after, user, p) <==> FriendPost(db, user, p) || p in added
    requires forall p, q :: p in added && q in v ==> PostStamp(q) != PostStamp(p)
    ensures TopFeed(v, after, user, limit) <==> forall p :: p in added ==> !Fits(v, limit, p)
  {
    forall p | p in added
      ensures !Fits(v, limit, p) <==> |v| == limit && forall q :: q in v ==> Newer(PostStamp(q), PostStamp(p))
    {
      FitsNotIff(v, limit, p);
    }
    forall p | p in added ensures p !in v && FriendPost(after, user, p) {
      assert p in v ==> PostStamp(p) != PostStamp(p);
    }
  }

  /** Posts out of reach of the user change the feed exactly if one of them was in it. */
  lemma FewerFriendPosts(db: Db, after: Db, user: UserId, limit: nat, v: seq<Post>)
    requires TopFeed(v, db, user, limit)
    requires forall p :: FriendPost(after, user, p) ==> FriendPost(db, user, p)
    ensures TopFeed(v, after, user, limit) <==> forall p :: p in v ==> FriendPost(after, user, p)
  {
  }

  // ---------------------------------------------------------------- write by write

  lemma AddFriendTouches(db: Db, w: Write, user: UserId, limit: nat, v: seq<Post>)
    requires Valid(db) && w.AddFriend? && Execute(db, w).Success? && TopFeed(v, db, user, limit)
    ensures TopFeed(v, Execute(db, w).value, user, limit) <==> !Touches(db, w, user, limit, v)
  {
    var added := set p | p in db.posts && w.user == user && p.author == w.friend;
    ExecuteEffect(db, w);
    forall p, q | p in added && q in v ensures PostStamp(q) != PostStamp(p) {
      DistinctPosts(db, p, q);
    }
    MoreFriendPosts(db, Execute(db, w).value, user, limit, v, added);
  }

  lemma DeleteFriendTouches(db: Db, w: Write, user: UserId, limit: nat, v: seq<Post>)
    requires Valid(db) && w.DeleteFriend? && Execute(db, w).Success? && TopFeed(v, db, user, limit)
    ensures TopFeed(v, Execute(db, w).value, user, limit) <==> !Touches(db, w, user, limit, v)
  {
    ExecuteEffect(db, w);
    FewerFriendPosts(db, Execute(db, w).value, user, limit, v);
  }

  lemma CreatePostTouches(db: Db, w: Write, user: UserId, limit: nat, v: seq<Post>)
    requires Valid(db) && w.CreatePost? && Execute(db, w).Success? && TopFeed(v, db, user, limit)
    ensures TopFeed(v, Execute(db, w).value, user, limit) <==> !Touches(db, w, user, limit, v)
  {
    ExecuteEffect(db, w);
    var added := if Follows(db, user, w.post.author) then {w.post} else {};
    MoreFriendPosts(db, Execute(db, w).value, user, limit, v, added);
  }

  lemma DeletePostTouches(db: Db, w: Write, user: UserId, limit: nat, v: seq<Post>)
    requires Valid(db) && w.DeletePost? && Execute(db, w).Success? && TopFeed(v, db, user, limit)
    ensures TopFeed(v, Execute(db, w).value, user, limit) <==> !Touches(db, w, user, limit, v)
  {
    ExecuteEffect(db, w);
    FewerFriendPosts(db, Execute(db, w).value, user, limit, v);
  }

  /** An edit replaces one post by another with the same stamp. */
  lemma EditReplaces(db: Db, w: Write) returns (q: Post)
    requires Valid(db) && w.UpdatePost? && Execute(db, w).Success?
    ensures q in db.posts && q.id == w.id && q.author == w.author
    ensures forall p :: p in Execute(db, w).value.posts <==> (p in db.posts && p != q) || p == q.(text := w.text)
    ensures forall p :: p in db.posts && p.id == w.id ==> p == q
  {
    var after := Execute(db, w).value;
    ExecuteEffect(db, w);
    var k :| 0 <= k < |db.posts| && db.posts[k].id == w.id && db.posts[k].author == w.author;
    q := db.posts[k];
    forall i | 0 <= i < |db.posts| && i != k
      ensures db.posts[i].id != w.id && after.posts[i] == db.posts[i] && db.posts[i] != q
    {
      DistinctAt(db, i, k);
    }
    assert after.posts[k] == q.(text := w.text);
    forall p | (p in db.posts && p != q) || p == q.(text := w.text) ensures p in after.posts {
      if p != q.(text := w.text) {
        var i :| 0 <= i < |db.posts| && db.posts[i] == p;
        assert after.posts[i] == p;
      }
    }
  }

  lemma DistinctAt(db: Db, i: nat, k: nat)
    requires Valid(db) && i < |db.posts| && k < |db.posts| && i != k
    ensures db.posts[i].id != db.posts[k].id
  {
    assert if i < k then db.posts[i].id != db.posts[k].id else db.posts[k].id != db.posts[i].id;
  }

  lemma UpdatePostTouches(db: Db, w: Write, user: UserId, limit: nat, v: seq<Post>)
    requires Valid(db) && w.UpdatePost? && Execute(db, w).Success? && TopFeed(v, db, user, limit)
    ensures TopFeed(v, Execute(db, w).value, user, limit) <==> !Touches(db, w, user, limit, v)
  {
    var after := Execute(db, w).value;
    ExecuteEffect(db, w);
    var q := EditReplaces(db, w);
    if q.text == w.text {
      assert q.(text := w.text) == q;
    } else if q !in v && Follows(db, user, q.author) {
      assert FriendPost(db, user, q) && PostStamp(q.(text := w.text)) == PostStamp(q);
    }
  }

  /** A write changes the feed of a user exactly if it touches it. */
  lemma WriteChangesFeedIff(db: Db, w: Write, user: UserId, limit: nat)
    requires Valid(db) && Execute(db, w).Success?
    ensures var v := SelectFeed(db, user, limit, 0);
      SelectFeed(Execute(db, w).value, user, limit, 0) != v <==> Touches(db, w, user, limit, v)
  {
    var v := SelectFeed(db, user, limit, 0);
    FeedMeetsTopFeed(db, user, limit);
    ExecuteKeepsKeys(db, w);
    FeedIsTopFeed(Execute(db, w).value, user, limit, v);
    match w
    case AddFriend(_, _) => AddFriendTouches(db, w, user, limit, v);
    case DeleteFriend(_, _) => DeleteFriendTouches(db, w, user, limit, v);
    case CreatePost(_) => CreatePostTouches(db, w, user, limit, v);
    case UpdatePost(_, _, _) => UpdatePostTouches(db, w, user, limit, v);
    case DeletePost(_, _) => DeletePostTouches(db, w, user, limit, v);
  }
}
