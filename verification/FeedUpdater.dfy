/**
 The feed worker's message loop, run by one worker without interference from others, but
 with every pattern of failing accesses.

 The i-th cache access made for a message meets its own environment: the database as it is
 at that moment and whatever goes wrong in that access.
 */
module FeedUpdater {
  import opened Wrappers
  import opened Users
  import opened SocialDb
  import opened Storage
  import opened RedisCaching
  import Protocol

  type Feed = seq<Post>

  datatype Env = Env(db: Db, read: ReadFault, fault: LoadFault, sendFails: bool)

  /** A feed sent to the queue of its user. */
  datatype Update = Update(user: UserId, feed: Feed)

  datatype Caches = Caches(subs: map<UserId, seq<UserId>>, feeds: map<UserId, Feed>, published: seq<Update>)

  /** A queue message: a notification, or a body that cannot be read as one. */
  datatype Message = Unreadable | Note(note: Notification)

  // ---------------------------------------------------------------- specification

  /** Load of one feed and, if that succeeds, its publication; a publication that fails is only logged. */
  function Refreshed(c: Caches, user: UserId, env: Env, maxLength: nat): Caches {
    if !env.fault.Fine? then c
    else
      var feed := SelectFeed(env.db, user, maxLength, 0);
      c.(feeds := c.feeds[user := feed],
         published := if env.sendFails then c.published else c.published + [Update(user, feed)])
  }

  /** After the first `n` subscribers of `list`; subscriber k is refreshed in environment k + 1. */
  function FannedOut(c: Caches, list: seq<UserId>, n: nat, envs: nat -> Env, maxLength: nat): Caches
    requires n <= |list|
  {
    if n == 0 then c
    else Refreshed(FannedOut(c, list, n - 1, envs, maxLength), list[n - 1], envs(n), maxLength)
  }

  /** Refreshing feeds leaves the lists of subscribers alone. */
  lemma {:induction false} FannedOutKeepsSubs(c: Caches, list: seq<UserId>, n: nat, envs: nat -> Env, maxLength: nat)
    requires n <= |list|
    ensures FannedOut(c, list, n, envs, maxLength).subs == c.subs
  {
    if n > 0 { FannedOutKeepsSubs(c, list, n - 1, envs, maxLength); }
  }

  /** The error kept after the first `n` subscribers. */
  function FanOutError(n: nat, envs: nat -> Env): Option<CacheError> {
    if n == 0 then None
    else if envs(n).fault.Fine? then FanOutError(n - 1, envs)
    else Some(LoadError(envs(n).fault))
  }

  /** What GetOrLoad of the subscribers of `author` returns. */
  function SubscribersSeen(c: Caches, author: UserId, env: Env): Result<seq<UserId>, CacheError> {
    if env.read.ReadFault? then Failure(NotRead)
    else if author in c.subs then (if env.read.ParseFault? then Failure(NotParsed) else Success(c.subs[author]))
    else if env.fault.Fine? then Success(Subscribers(env.db.friends, author))
    else Failure(LoadError(env.fault))
  }

  function AfterFeedUpdate(c: Caches, author: UserId, envs: nat -> Env, maxLength: nat): Caches {
    match SubscribersSeen(c, author, envs(0))
    case Failure(_) => c
    case Success(list) => FannedOut(c.(subs := c.subs[author := list]), list, |list|, envs, maxLength)
  }

  function AfterFriendUpdate(c: Caches, user: UserId, friend: UserId, envs: nat -> Env, maxLength: nat): Caches {
    if !envs(0).fault.Fine? then c
    else Refreshed(c.(subs := c.subs[friend := Subscribers(envs(0).db.friends, friend)]), user, envs(1), maxLength)
  }

  function AfterFlush(c: Caches, envs: nat -> Env): Caches {
    if !envs(0).fault.Fine? then c
    else if !envs(1).fault.Fine? then c.(subs := map[])
    else c.(subs := map[], feeds := map[])
  }

  function AfterTask(c: Caches, task: Protocol.Task, envs: nat -> Env, maxLength: nat): Caches {
    match task
    case UpdateFriend(user, friend) => AfterFriendUpdate(c, user, friend, envs, maxLength)
    case UpdateFeed(author) => AfterFeedUpdate(c, author, envs, maxLength)
    case InvalidateAll => AfterFlush(c, envs)
  }

  function AfterMessage(c: Caches, m: Message, envs: nat -> Env, maxLength: nat): Caches {
    if m.Unreadable? then c else AfterTask(c, Dispatch(m.note), envs, maxLength)
  }

  /** After the first `n` messages; a message that fails is logged and the next one taken. */
  function AfterMessages(c: Caches, messages: seq<Message>, n: nat, envs: nat -> nat -> Env, maxLength: nat): Caches
    requires n <= |messages|
  {
    if n == 0 then c
    else AfterMessage(AfterMessages(c, messages, n - 1, envs, maxLength), messages[n - 1], envs(n - 1), maxLength)
  }

  // ---------------------------------------------------------------- the worker

  class PostFeedUpdater {
    const subscribersCache: RedisCache<seq<UserId>>
    const postFeedCache: RedisCache<Feed>
    const maxLength: nat
    var published: seq<Update>

    /** The two caches are different databases, and no other client holds a lock in them. */
    ghost predicate Valid()
      reads subscribersCache, postFeedCache
    {
      && subscribersCache as object != postFeedCache as object
      && subscribersCache.locks == {} && postFeedCache.locks == {}
    }

    ghost function State(): Caches
      reads this, subscribersCache, postFeedCache
    {
      Caches(subscribersCache.entries, postFeedCache.entries, published)
    }

    constructor (subscribersCache: RedisCache<seq<UserId>>, postFeedCache: RedisCache<Feed>, maxLength: nat)
      requires subscribersCache as object != postFeedCache as object
      requires subscribersCache.locks == {} && postFeedCache.locks == {}
      ensures Valid() && this.maxLength == maxLength
      ensures State() == Caches(subscribersCache.entries, postFeedCache.entries, [])
    {
      this.subscribersCache, this.postFeedCache, this.maxLength := subscribersCache, postFeedCache, maxLength;
      published := [];
    }

    method RefreshFeed(user: UserId, env: Env) returns (error: Option<CacheError>)
      requires Valid()
      modifies this`published, postFeedCache
      ensures Valid()
      ensures State() == Refreshed(old(State()), user, env, maxLength)
      ensures error == if env.fault.Fine? then None else Some(LoadError(env.fault))
      ensures env.fault.Fine? ==>
        var feed := SelectFeed(env.db, user, maxLength, 0);
        && postFeedCache.entries == old(postFeedCache.entries)[user := feed]
        && published == old(published) + if env.sendFails then [] else [Update(user, feed)]
      ensures !env.fault.Fine? ==> postFeedCache.entries == old(postFeedCache.entries) && published == old(published)
    {
      var limit := maxLength;
      var r := postFeedCache.Load(user, (key: string) => SelectFeed(env.db, key, limit, 0), env.fault, false);
      match r
      case Failure(e) => error := Some(e);
      case Success(feed) =>
        if !env.sendFails { published := published + [Update(user, feed)]; }
        error := None;
    }

    method ProcessUpdateFriend(user: UserId, friend: UserId, envs: nat -> Env) returns (error: Option<CacheError>)
      requires Valid()
      modifies this`published, subscribersCache, postFeedCache
      ensures Valid()
      ensures State() == AfterFriendUpdate(old(State()), user, friend, envs, maxLength)
      ensures error == if !envs(0).fault.Fine? then Some(LoadError(envs(0).fault))
                       else if !envs(1).fault.Fine? then Some(LoadError(envs(1).fault))
                       else None
      ensures envs(0).fault.Fine? ==>
        subscribersCache.entries == old(subscribersCache.entries)[friend := Subscribers(envs(0).db.friends, friend)]
      ensures envs(0).fault.Fine? && envs(1).fault.Fine? ==>
        var feed := SelectFeed(envs(1).db, user, maxLength, 0);
        && postFeedCache.entries == old(postFeedCache.entries)[user := feed]
        && published == old(published) + if envs(1).sendFails then [] else [Update(user, feed)]
      ensures !envs(0).fault.Fine? ==> subscribersCache.entries == old(subscribersCache.entries)
      ensures error.Some? ==> postFeedCache.entries == old(postFeedCache.entries) && published == old(published)
    {
      var r := subscribersCache.Load(
        friend, (key: string) => Subscribers(envs(0).db.friends, key), envs(0).fault, false);
      if r.Failure? {
        return Some(r.error);
      }
      error := RefreshFeed(user, envs(1));
    }

    /** A subscriber whose feed cannot be loaded does not stop the others. */
    method ProcessUpdateFeed(author: UserId, envs: nat -> Env) returns (error: Option<CacheError>)
      requires Valid()
      modifies this`published, subscribersCache, postFeedCache
      ensures Valid()
      ensures State() == AfterFeedUpdate(old(State()), author, envs, maxLength)
      ensures match SubscribersSeen(old(State()), author, envs(0))
              case Failure(e) => error == Some(e)
              case Success(list) => error == FanOutError(|list|, envs)
      ensures author in old(subscribersCache.entries) ==> subscribersCache.entries == old(subscribersCache.entries)
      ensures author !in old(subscribersCache.entries) && !envs(0).read.ReadFault? && envs(0).fault.Fine? ==>
        subscribersCache.entries == old(subscribersCache.entries)[author := Subscribers(envs(0).db.friends, author)]
    {
      ghost var before := State();
      var r := subscribersCache.GetOrLoad(
        author, (key: string) => Subscribers(envs(0).db.friends, key), envs(0).read, envs(0).fault, false);
      if r.Failure? {
        return Some(r.error);
      }
      var list := r.value;
      ghost var c := State();
      assert c == before.(subs := before.subs[author := list]);
      error := None;
      var k := 0;
      while k < |list|
        invariant 0 <= k <= |list|
        invariant Valid()
        invariant State() == FannedOut(c, list, k, envs, maxLength)
        invariant error == FanOutError(k, envs)
      {
        var errSubscriber := RefreshFeed(list[k], envs(k + 1));
        if errSubscriber.Some? {
          error := errSubscriber;
        }
        k := k + 1;
      }
      FannedOutKeepsSubs(c, list, |list|, envs, maxLength);
      assert author in before.subs ==> before.subs[author := list] == before.subs;
    }

    method ProcessInvalidateAll(envs: nat -> Env) returns (error: Option<CacheError>)
      requires Valid()
      modifies subscribersCache, postFeedCache
      ensures Valid()
      ensures State() == AfterFlush(old(State()), envs)
      ensures error.None? <==> envs(0).fault.Fine? && envs(1).fault.Fine?
      ensures envs(0).fault.Fine? ==> subscribersCache.entries == map[]
      ensures envs(0).fault.Fine? && envs(1).fault.Fine? ==> postFeedCache.entries == map[]
      ensures !envs(0).fault.Fine? ==> subscribersCache.entries == old(subscribersCache.entries)
      ensures error.Some? ==> postFeedCache.entries == old(postFeedCache.entries)
    {
      error := subscribersCache.InvalidateAll(!envs(0).fault.Fine?);
      if error.Some? {
        return;
      }
      error := postFeedCache.InvalidateAll(!envs(1).fault.Fine?);
    }

    method ProcessEvents(messages: seq<Message>, envs: nat -> nat -> Env)
      requires Valid()
      modifies this`published, subscribersCache, postFeedCache
      ensures Valid()
      ensures State() == AfterMessages(old(State()), messages, |messages|, envs, maxLength)
      ensures messages != [] && messages[|messages| - 1] == Note(InvalidateAllNote)
              && envs(|messages| - 1)(0).fault.Fine? && envs(|messages| - 1)(1).fault.Fine? ==>
        subscribersCache.entries == map[] && postFeedCache.entries == map[]
    {
      ghost var c := State();
      var k := 0;
      while k < |messages|
        invariant 0 <= k <= |messages|
        invariant Valid()
        invariant State() == AfterMessages(c, messages, k, envs, maxLength)
      {
        var error: Option<CacheError> := None;
        match messages[k] {
          case Unreadable =>
          case Note(note) =>
            match note {
              case InvalidateAllNote => error := ProcessInvalidateAll(envs(k));
              case AddFriendNote(user, friend) => error := ProcessUpdateFriend(user, friend, envs(k));
              case DeleteFriendNote(user, friend) => error := ProcessUpdateFriend(user, friend, envs(k));
              case CreatePostNote(author, _) => error := ProcessUpdateFeed(author, envs(k));
              case UpdatePostNote(author, _) => error := ProcessUpdateFeed(author, envs(k));
              case DeletePostNote(author, _) => error := ProcessUpdateFeed(author, envs(k));
            }
        }
        // an error is only logged
        k := k + 1;
      }
    }
  }
}
