/**
 The storages over the social database, and the services that write to them and then notify
 the feed worker.
 */
module Storage {
  import opened Wrappers
  import opened Users
  import opened Ordering
  import opened Cursors
  import opened SocialDb
  import Protocol

  /**
   A write either commits exactly the effect of its statement or changes nothing.
   `fails`: the database cannot execute it.
   */
  ghost predicate Committed(before: Db, after: Db, w: Write, fails: bool, error: Option<DbError>) {
    if fails then error == Some(NotExecuted) && after == before
    else
      match Execute(before, w)
      case Success(db) => error.None? && after == db
      case Failure(e) => error == Some(e) && after == before
  }

  /** Followers of `friend`, none of them twice. */
  ghost predicate FollowersOnly(r: seq<UserId>, friends: seq<FriendRow>, friend: UserId) {
    && (forall u :: u in r ==> FriendRow(u, friend) in friends)
    && (forall i, j :: 0 <= i < j < |r| ==> r[i] != r[j])
  }

  ghost predicate EveryFollower(r: seq<UserId>, friends: seq<FriendRow>, friend: UserId) {
    forall u :: FriendRow(u, friend) in friends ==> u in r
  }

  class Database {
    var users: set<UserId>
    var friends: seq<FriendRow>
    var posts: seq<Post>

    ghost function Tables(): Db
      reads this
    {
      Db(users, friends, posts)
    }

    constructor (users: set<UserId>)
      ensures Tables() == Db(users, [], []) && Valid(Tables())
    {
      this.users, friends, posts := users, [], [];
    }

    method InsertFriend(user: UserId, friend: UserId, fails: bool) returns (error: Option<DbError>)
      modifies this`friends
      ensures Committed(old(Tables()), Tables(), AddFriend(user, friend), fails, error)
      ensures !fails ==>
        (error.None? <==> user in users && friend in users && FriendRow(user, friend) !in old(friends))
      ensures !fails && error.Some? ==>
        error.value == if user in users && friend in users then UserAlreadyExists else UserNotFound
      ensures friends == if error.None? then old(friends) + [FriendRow(user, friend)] else old(friends)
      ensures old(Valid(Tables())) ==> Valid(Tables())
    {
      ghost var before := Tables();
      if fails { return Some(NotExecuted); }
      if user !in users || friend !in users {
        return Some(UserNotFound);
      }
      if FriendRow(user, friend) in friends {
        return Some(UserAlreadyExists);
      }
      friends := friends + [FriendRow(user, friend)];
      error := None;
      if Valid(before) { ExecuteKeepsKeys(before, AddFriend(user, friend)); }
    }

    method DeleteFriendRow(user: UserId, friend: UserId, fails: bool) returns (error: Option<DbError>)
      modifies this`friends
      ensures Committed(old(Tables()), Tables(), DeleteFriend(user, friend), fails, error)
      ensures !fails ==> (error.None? <==> FriendRow(user, friend) in old(friends))
      ensures !fails && error.Some? ==> error.value == UserNotFound && friends == old(friends)
      ensures error.None? ==> forall x :: x in friends <==> x in old(friends) && x != FriendRow(user, friend)
      ensures old(Valid(Tables())) ==> Valid(Tables())
    {
      ghost var before := Tables();
      if fails { return Some(NotExecuted); }
      if FriendRow(user, friend) !in friends {
        return Some(UserNotFound);
      }
      RemoveFriendRows(friends, FriendRow(user, friend));
      friends := RemoveFriend(friends, FriendRow(user, friend));
      error := None;
      if Valid(before) { ExecuteKeepsKeys(before, DeleteFriend(user, friend)); }
    }

    method InsertPost(id: PostId, text: string, author: UserId, now: int, fails: bool)
      returns (r: Result<Post, DbError>)
      modifies this`posts
      ensures Committed(old(Tables()), Tables(), CreatePost(Post(id, text, author, now, now)), fails,
                        if r.Success? then None else Some(r.error))
      ensures r.Success? ==> r.value == Post(id, text, author, now, now) && r.value in posts
      ensures !fails ==>
        (r.Success? <==> author in users && forall p :: p in old(posts) ==> p.id != id)
      ensures !fails && r.Failure? ==> r.error == if author in users then DuplicatePost else UserNotFound
      ensures r.Success? ==>
        && r.value.id == id && r.value.author == author && r.value.text == text
        && r.value.createTime == now && r.value.updateTime == now
      ensures posts == if r.Success? then old(posts) + [r.value] else old(posts)
      ensures old(Valid(Tables())) ==> Valid(Tables())
    {
      ghost var before := Tables();
      if fails { return Failure(NotExecuted); }
      var post := Post(id, text, author, now, now);
      if author !in users {
        return Failure(UserNotFound);
      }
      if exists p | p in posts :: p.id == id {
        return Failure(DuplicatePost);
      }
      posts := posts + [post];
      r := Success(post);
      if Valid(before) { ExecuteKeepsKeys(before, CreatePost(post)); }
    }

    /** Returns the row as the UPDATE leaves it. */
    method EditPostText(id: PostId, author: UserId, text: string, fails: bool) returns (r: Result<Post, DbError>)
      modifies this`posts
      ensures Committed(old(Tables()), Tables(), UpdatePost(id, author, text), fails,
                        if r.Success? then None else Some(r.error))
      ensures !fails ==>
        (r.Success? <==> exists p :: p in old(posts) && p.id == id && p.author == author)
      ensures !fails && r.Failure? ==> r.error == PostNotFound
      ensures r.Failure? ==> posts == old(posts)
      ensures r.Success? ==> r.value in posts && r.value.id == id && r.value.author == author && r.value.text == text
      ensures r.Success? ==> |posts| == |old(posts)| && forall i :: 0 <= i < |posts| ==>
        var p := old(posts)[i];
        posts[i] == if p.id == id && p.author == author then p.(text := text) else p
      ensures old(Valid(Tables())) ==> Valid(Tables())
    {
      ghost var before := Tables();
      if fails { return Failure(NotExecuted); }
      if !OwnsPost(posts, id, author) {
        return Failure(PostNotFound);
      }
      ghost var i :| 0 <= i < |posts| && posts[i].id == id && posts[i].author == author;
      EditPostRows(posts, id, author, text);
      assert EditPost(posts, id, author, text)[i] in EditPost(posts, id, author, text);
      posts := EditPost(posts, id, author, text);
      var row :| row in posts && row.id == id && row.author == author && row.text == text;
      r := Success(row);
      if Valid(before) { ExecuteKeepsKeys(before, UpdatePost(id, author, text)); }
    }

    method DeletePostRow(id: PostId, author: UserId, fails: bool) returns (error: Option<DbError>)
      modifies this`posts
      ensures Committed(old(Tables()), Tables(), DeletePost(id, author), fails, error)
      ensures !fails ==>
        (error.None? <==> exists p :: p in old(posts) && p.id == id && p.author == author)
      ensures !fails && error.Some? ==> error.value == PostNotFound
      ensures error.Some? ==> posts == old(posts)
      ensures error.None? ==>
        forall p :: p in posts <==> p in old(posts) && !(p.id == id && p.author == author)
      ensures old(Valid(Tables())) ==> Valid(Tables())
    {
      ghost var before := Tables();
      if fails { return Some(NotExecuted); }
      if !OwnsPost(posts, id, author) {
        return Some(PostNotFound);
      }
      RemovePostRows(posts, id, author);
      posts := RemovePost(posts, id, author);
      error := None;
      if Valid(before) { ExecuteKeepsKeys(before, DeletePost(id, author)); }
    }

    /**
     The feed query.  If every row arrives the result is the top of the feed.  A connection
     lost in the middle is not noticed: the caller gets a shorter list and no error, and
     that list is the feed only if nothing was missing.
     */
    method GetPostsFeedByUserId(user: UserId, limit: nat, offset: nat, cursor: Cursor)
      returns (r: Result<seq<Post>, QueryError>)
      requires Valid(Tables())
      ensures var count := |SelectFeed(Tables(), user, limit, offset)|;
        && (r.Failure? <==> CursorError(cursor, count).Some?)
        && (r.Failure? ==> CursorError(cursor, count) == Some(r.error))
        && (r.Success? ==> (r.value == SelectFeed(Tables(), user, limit, offset) <==> !SilentlyCut(cursor, count)))
        && (r.Success? && offset == 0 ==> (TopFeed(r.value, Tables(), user, limit) <==> !SilentlyCut(cursor, count)))
      ensures r.Success? ==> r.value <= SelectFeed(Tables(), user, limit, offset)
      ensures cursor.QueryFails? ==> r == Failure(NotQueried)
      ensures cursor.ScanFails? && cursor.row < |SelectFeed(Tables(), user, limit, offset)| ==> r == Failure(BadRow)
      ensures cursor.AllRows? ==> r.Success?
      ensures cursor.ConnectionLost? ==>
        && r.Success?
        && var count := |SelectFeed(Tables(), user, limit, offset)|;
           |r.value| == if cursor.row < count then cursor.row else count
      ensures r.Success? ==>
        && |r.value| <= limit
        && (forall i, j :: 0 <= i < j < |r.value| ==>
             r.value[i].createTime >= r.value[j].createTime && r.value[i] != r.value[j])
        && (forall p :: p in r.value ==> p in posts && FriendRow(user, p.author) in friends)
      ensures cursor.AllRows? && offset == 0 ==> forall p :: p in posts && FriendRow(user, p.author) in friends ==>
        p in r.value || (|r.value| == limit && forall q :: q in r.value ==> q.createTime >= p.createTime)
    {
      if cursor.QueryFails? {
        return Failure(NotQueried);
      }
      var rows := SelectFeed(Db(users, friends, posts), user, limit, offset);
      FeedNewestFirst(Tables(), user, limit, offset);
      var result: seq<Post> := [];
      var i := 0;
      while i < Delivered(cursor, |rows|)
        invariant 0 <= i <= Delivered(cursor, |rows|)
        invariant result == rows[..i]
      {
        result := result + [rows[i]];
        i := i + 1;
      }
      if cursor.ScanFails? && cursor.row < |rows| {
        return Failure(BadRow);
      }
      FeedIsTopFeed(Tables(), user, limit, result);
      r := Success(result);
    }

    /** The followers of `friend`, each once, if every row arrives; otherwise some of them. */
    method GetUserIdsWithFriend(friend: UserId, cursor: Cursor) returns (r: Result<seq<UserId>, QueryError>)
      requires Valid(Tables())
      ensures var count := |Subscribers(friends, friend)|;
        && (r.Failure? <==> CursorError(cursor, count).Some?)
        && (r.Failure? ==> CursorError(cursor, count) == Some(r.error))
        && (r.Success? ==> (EveryFollower(r.value, friends, friend) <==> !SilentlyCut(cursor, count)))
      ensures r.Success? ==> FollowersOnly(r.value, friends, friend)
      ensures cursor.QueryFails? ==> r == Failure(NotQueried)
      ensures cursor.ScanFails? && cursor.row < |Subscribers(friends, friend)| ==> r == Failure(BadRow)
      ensures cursor.AllRows? ==> r.Success? && forall u :: u in r.value <==> FriendRow(u, friend) in friends
      ensures cursor.ConnectionLost? ==>
        && r.Success?
        && var count := |Subscribers(friends, friend)|;
           |r.value| == if cursor.row < count then cursor.row else count
    {
      if cursor.QueryFails? {
        return Failure(NotQueried);
      }
      var rows := Subscribers(friends, friend);
      var result: seq<UserId> := [];
      var i := 0;
      while i < Delivered(cursor, |rows|)
        invariant 0 <= i <= Delivered(cursor, |rows|)
        invariant result == rows[..i]
      {
        result := result + [rows[i]];
        i := i + 1;
      }
      if cursor.ScanFails? && cursor.row < |rows| {
        return Failure(BadRow);
      }
      PrefixOfFollowers(friends, friend, i);
      r := Success(result);
    }
  }

  /** A proper prefix of the followers misses one of them. */
  lemma PrefixOfFollowers(friends: seq<FriendRow>, friend: UserId, n: nat)
    requires forall i, j :: 0 <= i < j < |friends| ==> friends[i] != friends[j]
    requires n <= |Subscribers(friends, friend)|
    ensures FollowersOnly(Subscribers(friends, friend)[..n], friends, friend)
    ensures EveryFollower(Subscribers(friends, friend)[..n], friends, friend) <==> n == |Subscribers(friends, friend)|
  {
    var rows := Subscribers(friends, friend);
    SubscribersMeaning(friends, friend);
    if n < |rows| {
      assert rows[n] in rows && rows[n] !in rows[..n];
    } else {
      assert rows[..n] == rows;
    }
  }

  // ---------------------------------------------------------------- services

  datatype Notification =
    | AddFriendNote(user: UserId, friend: UserId)
    | DeleteFriendNote(user: UserId, friend: UserId)
    | CreatePostNote(author: UserId, post: Post)
    | UpdatePostNote(author: UserId, post: Post)
    | DeletePostNote(author: UserId, id: PostId)
    | InvalidateAllNote

  /** The handler a notification is dispatched to. */
  function Dispatch(note: Notification): Protocol.Task {
    match note
    case AddFriendNote(user, friend) => Protocol.UpdateFriend(user, friend)
    case DeleteFriendNote(user, friend) => Protocol.UpdateFriend(user, friend)
    case CreatePostNote(author, _) => Protocol.UpdateFeed(author)
    case UpdatePostNote(author, _) => Protocol.UpdateFeed(author)
    case DeletePostNote(author, _) => Protocol.UpdateFeed(author)
    case InvalidateAllNote => Protocol.InvalidateAll
  }

  /** The notification sent about a write, if one is sent, is dispatched as the write demands. */
  ghost predicate Notified(before: seq<Notification>, after: seq<Notification>, w: Write) {
    after != before ==> |after| == |before| + 1 && Dispatch(after[|before|]) == Protocol.TaskOf(w)
  }

  /** The queue of feed notifications; a publisher that fails drops the notification silently. */
  class NotificationQueue {
    var sent: seq<Notification>

    constructor ()
      ensures sent == []
    {
      sent := [];
    }

    method Send(note: Notification, fails: bool)
      modifies this
      ensures sent == old(sent) + if fails then [] else [note]
    {
      if !fails { sent := sent + [note]; }
    }
  }

  class FriendService {
    const database: Database
    const notifier: NotificationQueue

    constructor (database: Database, notifier: NotificationQueue)
      ensures this.database == database && this.notifier == notifier
    {
      this.database, this.notifier := database, notifier;
    }

    /** Writes, then notifies if and only if the write committed; a lost notification is no error. */
    method AddFriend(user: UserId, friend: UserId, fails: bool, sendFails: bool) returns (error: Option<DbError>)
      modifies database`friends, notifier
      ensures Committed(old(database.Tables()), database.Tables(), Write.AddFriend(user, friend), fails, error)
      ensures !fails ==>
        (error.None? <==>
          user in database.users && friend in database.users && FriendRow(user, friend) !in old(database.friends))
      ensures !fails && error.Some? ==>
        error.value == if user in database.users && friend in database.users then UserAlreadyExists else UserNotFound
      ensures database.friends == old(database.friends) + if error.None? then [FriendRow(user, friend)] else []
      ensures notifier.sent == old(notifier.sent) +
        if error.None? && !sendFails then [AddFriendNote(user, friend)] else []
      ensures Notified(old(notifier.sent), notifier.sent, Write.AddFriend(user, friend))
    {
      error := database.InsertFriend(user, friend, fails);
      if error.Some? { return; }
      notifier.Send(AddFriendNote(user, friend), sendFails);
    }

    method DeleteFriend(user: UserId, friend: UserId, fails: bool, sendFails: bool) returns (error: Option<DbError>)
      modifies database`friends, notifier
      ensures Committed(old(database.Tables()), database.Tables(), Write.DeleteFriend(user, friend), fails, error)
      ensures !fails ==> (error.None? <==> FriendRow(user, friend) in old(database.friends))
      ensures !fails && error.Some? ==> error.value == UserNotFound && database.friends == old(database.friends)
      ensures error.None? ==>
        forall x :: x in database.friends <==> x in old(database.friends) && x != FriendRow(user, friend)
      ensures notifier.sent == old(notifier.sent) +
        if error.None? && !sendFails then [DeleteFriendNote(user, friend)] else []
      ensures Notified(old(notifier.sent), notifier.sent, Write.DeleteFriend(user, friend))
    {
      error := database.DeleteFriendRow(user, friend, fails);
      if error.Some? { return; }
      notifier.Send(DeleteFriendNote(user, friend), sendFails);
    }
  }

  class PostService {
    const database: Database
    const notifier: NotificationQueue

    constructor (database: Database, notifier: NotificationQueue)
      ensures this.database == database && this.notifier == notifier
    {
      this.database, this.notifier := database, notifier;
    }

    method CreatePost(id: PostId, author: UserId, text: string, now: int, fails: bool, sendFails: bool)
      returns (r: Result<Post, DbError>)
      modifies database`posts, notifier
      ensures Committed(old(database.Tables()), database.Tables(), Write.CreatePost(Post(id, text, author, now, now)),
                        fails, if r.Success? then None else Some(r.error))
      ensures !fails ==>
        (r.Success? <==> author in database.users && forall p :: p in old(database.posts) ==> p.id != id)
      ensures !fails && r.Failure? ==> r.error == if author in database.users then DuplicatePost else UserNotFound
      ensures r.Success? ==>
        && r.value.id == id && r.value.author == author && r.value.text == text
        && r.value.createTime == now && r.value.updateTime == now
      ensures database.posts == if r.Success? then old(database.posts) + [r.value] else old(database.posts)
      ensures notifier.sent == old(notifier.sent) +
        if r.Success? && !sendFails then [CreatePostNote(author, r.value)] else []
      ensures Notified(old(notifier.sent), notifier.sent, Write.CreatePost(Post(id, text, author, now, now)))
    {
      r := database.InsertPost(id, text, author, now, fails);
      if r.Failure? { return; }
      notifier.Send(CreatePostNote(author, r.value), sendFails);
    }

    method UpdatePost(author: UserId, id: PostId, text: string, fails: bool, sendFails: bool)
      returns (r: Result<Post, DbError>)
      modifies database`posts, notifier
      ensures Committed(old(database.Tables()), database.Tables(), Write.UpdatePost(id, author, text), fails,
                        if r.Success? then None else Some(r.error))
      ensures !fails ==>
        (r.Success? <==> exists p :: p in old(database.posts) && p.id == id && p.author == author)
      ensures !fails && r.Failure? ==> r.error == PostNotFound
      ensures r.Failure? ==> database.posts == old(database.posts)
      ensures r.Success? ==>
        r.value in database.posts && r.value.id == id && r.value.author == author && r.value.text == text
      ensures r.Success? ==> |database.posts| == |old(database.posts)| && forall i :: 0 <= i < |database.posts| ==>
        var p := old(database.posts)[i];
        database.posts[i] == if p.id == id && p.author == author then p.(text := text) else p
      ensures notifier.sent == old(notifier.sent) +
        if r.Success? && !sendFails then [UpdatePostNote(author, r.value)] else []
      ensures Notified(old(notifier.sent), notifier.sent, Write.UpdatePost(id, author, text))
    {
      r := database.EditPostText(id, author, text, fails);
      if r.Failure? { return; }
      notifier.Send(UpdatePostNote(author, r.value), sendFails);
    }

    method DeletePost(author: UserId, id: PostId, fails: bool, sendFails: bool) returns (error: Option<DbError>)
      modifies database`posts, notifier
      ensures Committed(old(database.Tables()), database.Tables(), Write.DeletePost(id, author), fails, error)
      ensures !fails ==>
        (error.None? <==> exists p :: p in old(database.posts) && p.id == id && p.author == author)
      ensures !fails && error.Some? ==> error.value == PostNotFound
      ensures error.Some? ==> database.posts == old(database.posts)
      ensures error.None? ==>
        forall p :: p in database.posts <==> p in old(database.posts) && !(p.id == id && p.author == author)
      ensures notifier.sent == old(notifier.sent) +
        if error.None? && !sendFails then [DeletePostNote(author, id)] else []
      ensures Notified(old(notifier.sent), notifier.sent, Write.DeletePost(id, author))
    {
      error := database.DeletePostRow(id, author, fails);
      if error.Some? { return; }
      notifier.Send(DeletePostNote(author, id), sendFails);
    }
  }

  // ---------------------------------------------------------------- reading a page

  datatype PageError = FeedTooLong | CacheFailed

  /**
   The page of the feed served from the cache: too long a page is refused, a cache failure is
   passed on, and otherwise, if the cached feed is current, the page is the one the query
   itself would return for this limit and offset.
   */
  method GetUserPosts(cached: Result<seq<Post>, QueryError>, maxLength: nat, limit: nat, offset: nat)
    returns (r: Result<seq<Post>, PageError>)
    ensures r == Failure(FeedTooLong) <==> offset + limit > maxLength
    ensures r == Failure(CacheFailed) <==> offset + limit <= maxLength && cached.Failure?
    ensures r.Success? ==> r.value == Window(cached.value, limit, offset)
    ensures r.Success? ==> |r.value| <= limit && forall i :: 0 <= i < limit ==>
      (i < |r.value| <==> offset + i < |cached.value|) && (i < |r.value| ==> r.value[i] == cached.value[offset + i])
    ensures forall db, user :: r.Success? && cached.value == SelectFeed(db, user, maxLength, 0) ==>
      r.value == SelectFeed(db, user, limit, offset)
  {
    if offset + limit > maxLength {
      return Failure(FeedTooLong);
    }
    if cached.Failure? {
      return Failure(CacheFailed);
    }
    var posts := cached.value;
    var result: seq<Post> := [];
    var i := offset;
    while i < offset + limit && i < |posts|
      invariant offset <= i <= offset + limit
      invariant i <= |posts| || i == offset
      invariant result == Window(posts, i - offset, offset)
    {
      result := result + [posts[i]];
      i := i + 1;
    }
    r := Success(result);
    WindowRows(posts, limit, offset);
    forall db, user | posts == SelectFeed(db, user, maxLength, 0)
      ensures result == SelectFeed(db, user, limit, offset)
    {
      CachedPageIsQueryPage(db, user, maxLength, limit, offset);
    }
  }
}
