/** What the worker's message loop achieves: under failures, and, without them, for a whole backlog. */
module FanOut {
  import opened Users
  import opened SocialDb
  import opened Storage
  import opened RedisCaching
  import opened FeedUpdater
  import Protocol

  // ---------------------------------------------------------------- partial failure

  /** Subscriber `u` was last refreshed successfully at position `k` (counted from 1) of the first `n`. */
  ghost predicate LastSuccess(list: seq<UserId>, n: nat, envs: nat -> Env, u: UserId, k: nat)
    requires n <= |list|
  {
    && 1 <= k <= n && list[k - 1] == u && envs(k).fault.Fine?
    && forall j :: k < j <= n && list[j - 1] == u ==> !envs(j).fault.Fine?
  }

  ghost predicate NeverRefreshed(list: seq<UserId>, n: nat, envs: nat -> Env, u: UserId)
    requires n <= |list|
  {
    forall k :: 1 <= k <= n && list[k - 1] == u ==> !envs(k).fault.Fine?
  }

  /** The feed of position `k` is loaded and published. */
  predicate Sent(envs: nat -> Env, k: nat) {
    envs(k).fault.Fine? && !envs(k).sendFails
  }

  /** The positions, in order, from which a feed is published. */
  function Successes(n: nat, envs: nat -> Env): seq<nat> {
    if n == 0 then [] else Successes(n - 1, envs) + if Sent(envs, n) then [n] else []
  }

  lemma {:induction false} SuccessesMeaning(n: nat, envs: nat -> Env)
    ensures forall k :: k in Successes(n, envs) <==> 1 <= k <= n && Sent(envs, k)
    ensures forall i, j :: 0 <= i < j < |Successes(n, envs)| ==> Successes(n, envs)[i] < Successes(n, envs)[j]
  {
    if n > 0 {
      SuccessesMeaning(n - 1, envs);
      var earlier := Successes(n - 1, envs);
      forall i | 0 <= i < |earlier| ensures earlier[i] < n {
        assert earlier[i] in earlier;
      }
    }
  }

  /**
   Fan-out under any pattern of failures: every subscriber is tried; exactly those whose
   Load succeeds get a new entry, the query's answer at that moment; everybody else's entry
   is as before.
   */
  lemma {:induction false} FanOutRefreshesSuccesses(c: Caches, list: seq<UserId>, n: nat, envs: nat -> Env,
                                                    maxLength: nat)
    requires n <= |list|
    ensures var r := FannedOut(c, list, n, envs, maxLength);
      && r.subs == c.subs
      && (forall u, k: nat :: LastSuccess(list, n, envs, u, k) ==>
           u in r.feeds && r.feeds[u] == SelectFeed(envs(k).db, u, maxLength, 0))
      && (forall u :: NeverRefreshed(list, n, envs, u) ==>
           (u in r.feeds <==> u in c.feeds) && (u in c.feeds ==> r.feeds[u] == c.feeds[u]))
  {
    if n > 0 {
      FanOutRefreshesSuccesses(c, list, n - 1, envs, maxLength);
      var before, r := FannedOut(c, list, n - 1, envs, maxLength), FannedOut(c, list, n, envs, maxLength);
      forall u, k: nat | LastSuccess(list, n, envs, u, k)
        ensures u in r.feeds && r.feeds[u] == SelectFeed(envs(k).db, u, maxLength, 0)
      {
        if k < n { assert LastSuccess(list, n - 1, envs, u, k); }
      }
      forall u | NeverRefreshed(list, n, envs, u)
        ensures (u in r.feeds <==> u in c.feeds) && (u in c.feeds ==> r.feeds[u] == c.feeds[u])
      {
        assert NeverRefreshed(list, n - 1, envs, u);
      }
    }
  }

  /** Exactly the feeds loaded and sent are published, in list order, each as it was loaded. */
  lemma {:induction false} FanOutPublishesSuccesses(c: Caches, list: seq<UserId>, n: nat, envs: nat -> Env,
                                                    maxLength: nat)
    requires n <= |list|
    ensures var r, at := FannedOut(c, list, n, envs, maxLength), Successes(n, envs);
      && |r.published| == |c.published| + |at|
      && r.published[..|c.published|] == c.published
      && (forall i :: 0 <= i < |at| ==> 1 <= at[i] <= n)
      && (forall i :: 0 <= i < |at| ==>
           var u := list[at[i] - 1];
           r.published[|c.published| + i] == Update(u, SelectFeed(envs(at[i]).db, u, maxLength, 0)))
  {
    if n > 0 {
      FanOutPublishesSuccesses(c, list, n - 1, envs, maxLength);
    }
  }

  /** An error is returned exactly when some attempt failed, and it is that of the last failure. */
  lemma {:induction false} FanOutErrorIsLast(n: nat, envs: nat -> Env)
    ensures FanOutError(n, envs).None? <==> forall k :: 1 <= k <= n ==> envs(k).fault.Fine?
    ensures FanOutError(n, envs).Some? ==> exists k ::
      && 1 <= k <= n && !envs(k).fault.Fine? && FanOutError(n, envs).value == LoadError(envs(k).fault)
      && forall j :: k < j <= n ==> envs(j).fault.Fine?
  {
    if n > 0 {
      FanOutErrorIsLast(n - 1, envs);
      if envs(n).fault.Fine? && FanOutError(n, envs).Some? {
        var k :| 1 <= k <= n - 1 && !envs(k).fault.Fine? && FanOutError(n, envs).value == LoadError(envs(k).fault)
                 && forall j :: k < j <= n - 1 ==> envs(j).fault.Fine?;
        assert forall j :: k < j <= n ==> envs(j).fault.Fine?;
      }
    }
  }

  // ---------------------------------------------------------------- working off a backlog

  /** Nothing fails and the database stays as it is. */
  function Calm(db: Db): nat -> Env {
    k => Env(db, Readable, Fine, false)
  }

  /** The message asks for the feed of `u` to be refreshed, on the database `db`. */
  predicate Refreshes(m: Message, db: Db, u: UserId) {
    m.Note? &&
    match Dispatch(m.note)
    case UpdateFriend(user, _) => user == u
    case UpdateFeed(author) => Follows(db, u, author)
    case InvalidateAll => false
  }

  predicate FriendNote(m: Message, u: UserId, a: UserId) {
    m.Note? && Dispatch(m.note) == Protocol.UpdateFriend(u, a)
  }

  /** Every stale entry has a message from `at` on that is about it. */
  ghost predicate Covered(c: Caches, messages: seq<Message>, at: nat, db: Db, maxLength: nat) {
    && (forall u :: u in c.feeds && c.feeds[u] != SelectFeed(db, u, maxLength, 0) ==>
         exists k :: at <= k < |messages| && Refreshes(messages[k], db, u))
    && (forall a, u :: a in c.subs && (u in c.subs[a]) != Follows(db, u, a) ==>
         exists k :: at <= k < |messages| && FriendNote(messages[k], u, a))
  }

  /** `r` has the current feed of every user in `done`, and is `c` for everybody else. */
  ghost predicate RefreshedFor(r: Caches, c: Caches, done: seq<UserId>, db: Db, maxLength: nat) {
    && r.subs == c.subs
    && (forall u :: u in done ==> u in r.feeds && r.feeds[u] == SelectFeed(db, u, maxLength, 0))
    && (forall u :: u !in done ==> (u in r.feeds <==> u in c.feeds) && (u in c.feeds ==> r.feeds[u] == c.feeds[u]))
  }

  lemma OneMoreRefreshed(r: Caches, c: Caches, done: seq<UserId>, u: UserId, db: Db, maxLength: nat)
    requires RefreshedFor(r, c, done, db, maxLength)
    ensures RefreshedFor(Refreshed(r, u, Calm(db)(0), maxLength), c, done + [u], db, maxLength)
  {
  }

  lemma {:induction false} CalmFanOut(c: Caches, list: seq<UserId>, n: nat, db: Db, maxLength: nat)
    requires n <= |list|
    ensures RefreshedFor(FannedOut(c, list, n, Calm(db), maxLength), c, list[..n], db, maxLength)
  {
    if n > 0 {
      CalmFanOut(c, list, n - 1, db, maxLength);
      OneMoreRefreshed(FannedOut(c, list, n - 1, Calm(db), maxLength), c, list[..n - 1], list[n - 1], db, maxLength);
      assert list[..n] == list[..n - 1] + [list[n - 1]];
    }
  }

  lemma FriendMessageKeepsCovered(c: Caches, messages: seq<Message>, at: nat, db: Db, maxLength: nat, user: UserId,
                                  friend: UserId)
    requires SocialDb.Valid(db) && at < |messages| && messages[at].Note?
    requires Dispatch(messages[at].note) == Protocol.UpdateFriend(user, friend)
    requires Covered(c, messages, at, db, maxLength)
    ensures Covered(AfterFriendUpdate(c, user, friend, Calm(db), maxLength), messages, at + 1, db, maxLength)
  {
    var r := AfterFriendUpdate(c, user, friend, Calm(db), maxLength);
    SubscribersMeaning(db.friends, friend);
    forall u | u in r.feeds && r.feeds[u] != SelectFeed(db, u, maxLength, 0)
      ensures exists k :: at + 1 <= k < |messages| && Refreshes(messages[k], db, u)
    {
      var k :| at <= k < |messages| && Refreshes(messages[k], db, u);
      assert k != at;
    }
    forall a, u | a in r.subs && (u in r.subs[a]) != Follows(db, u, a)
      ensures exists k :: at + 1 <= k < |messages| && FriendNote(messages[k], u, a)
    {
      var k :| at <= k < |messages| && FriendNote(messages[k], u, a);
      assert k != at;
    }
  }

  /** A follower missing from the list the post is fanned out to has its own message still to come. */
  lemma PostMessageKeepsCovered(c: Caches, messages: seq<Message>, at: nat, db: Db, maxLength: nat, author: UserId)
    requires SocialDb.Valid(db) && at < |messages| && messages[at].Note?
    requires Dispatch(messages[at].note) == Protocol.UpdateFeed(author)
    requires Covered(c, messages, at, db, maxLength)
    ensures Covered(AfterFeedUpdate(c, author, Calm(db), maxLength), messages, at + 1, db, maxLength)
  {
    var r := AfterFeedUpdate(c, author, Calm(db), maxLength);
    var list := SubscribersSeen(c, author, Calm(db)(0)).value;
    SubscribersMeaning(db.friends, author);
    CalmFanOut(c.(subs := c.subs[author := list]), list, |list|, db, maxLength);
    assert list[..|list|] == list;
    forall a, u | a in r.subs && (u in r.subs[a]) != Follows(db, u, a)
      ensures exists k :: at + 1 <= k < |messages| && FriendNote(messages[k], u, a)
    {
      assert a in c.subs && r.subs[a] == c.subs[a];
      var k :| at <= k < |messages| && FriendNote(messages[k], u, a);
      assert k != at;
    }
    forall u | u in r.feeds && r.feeds[u] != SelectFeed(db, u, maxLength, 0)
      ensures exists k :: at + 1 <= k < |messages| && Refreshes(messages[k], db, u)
    {
      var k :| at <= k < |messages| && Refreshes(messages[k], db, u);
      if k == at {
        assert author in c.subs && (u in c.subs[author]) != Follows(db, u, author);
        var l :| at <= l < |messages| && FriendNote(messages[l], u, author);
        assert l != at && Refreshes(messages[l], db, u);
      }
    }
  }

  lemma {:induction false} BacklogKeepsCovered(c: Caches, messages: seq<Message>, n: nat, db: Db, maxLength: nat)
    requires SocialDb.Valid(db) && n <= |messages|
    requires Covered(c, messages, 0, db, maxLength)
    ensures Covered(AfterMessages(c, messages, n, _ => Calm(db), maxLength), messages, n, db, maxLength)
  {
    if n > 0 {
      BacklogKeepsCovered(c, messages, n - 1, db, maxLength);
      MessageKeepsCovered(AfterMessages(c, messages, n - 1, _ => Calm(db), maxLength), messages, n - 1, db, maxLength);
    }
  }

  lemma MessageKeepsCovered(c: Caches, messages: seq<Message>, at: nat, db: Db, maxLength: nat)
    requires SocialDb.Valid(db) && at < |messages|
    requires Covered(c, messages, at, db, maxLength)
    ensures Covered(AfterMessage(c, messages[at], Calm(db), maxLength), messages, at + 1, db, maxLength)
  {
    var m := messages[at];
    if m.Note? && Dispatch(m.note).UpdateFriend? {
      FriendMessageKeepsCovered(c, messages, at, db, maxLength, Dispatch(m.note).user, Dispatch(m.note).friend);
    } else if m.Note? && Dispatch(m.note).UpdateFeed? {
      PostMessageKeepsCovered(c, messages, at, db, maxLength, Dispatch(m.note).author);
    } else {
      var r := AfterMessage(c, m, Calm(db), maxLength);
      forall u | u in r.feeds && r.feeds[u] != SelectFeed(db, u, maxLength, 0)
        ensures exists k :: at + 1 <= k < |messages| && Refreshes(messages[k], db, u)
      {
        var k :| at <= k < |messages| && Refreshes(messages[k], db, u);
        assert k != at;
      }
      forall a, u | a in r.subs && (u in r.subs[a]) != Follows(db, u, a)
        ensures exists k :: at + 1 <= k < |messages| && FriendNote(messages[k], u, a)
      {
        var k :| at <= k < |messages| && FriendNote(messages[k], u, a);
        assert k != at;
      }
    }
  }

  /**
   One worker, working through a backlog in whatever order it stands, flushes and unreadable
   messages included: if every stale entry had a message, afterwards no entry is stale.
   */
  lemma BacklogLeavesCachesCurrent(c: Caches, messages: seq<Message>, db: Db, maxLength: nat)
    requires SocialDb.Valid(db) && Covered(c, messages, 0, db, maxLength)
    ensures var r := AfterMessages(c, messages, |messages|, _ => Calm(db), maxLength);
      && (forall u :: u in r.feeds ==> r.feeds[u] == SelectFeed(db, u, maxLength, 0))
      && (forall a, u :: a in r.subs ==> (u in r.subs[a] <==> Follows(db, u, a)))
  {
    BacklogKeepsCovered(c, messages, |messages|, db, maxLength);
  }
}
