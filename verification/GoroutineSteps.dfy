/**
 What any step of one goroutine, and any failure of one, can do to the caches, the locks,
 the publications and the work that is owed.
 */
module GoroutineSteps {
  import opened Wrappers
  import opened Users
  import opened SocialDb
  import opened Protocol
  import opened Obligations

  // ---------------------------------------------------------------- steps of one goroutine

  /** `t` is `s` after goroutine `i` moved to `q`: only caches, locks and its own state changed. */
  ghost predicate Moved(s: State, t: State, i: nat, q: Proc) {
    && i < |s.procs| && t.procs == s.procs[i := q]
    && t.db == s.db && t.maxLength == s.maxLength && t.workers == s.workers
    && t.pending == s.pending
  }

  /** Locks may be dropped; goroutine `i` may take that of its new key, and keeps none it has no use for. */
  ghost predicate LockStep(before: map<UserId, nat>, after: map<UserId, nat>, i: nat,
                           key: Option<UserId>, key': Option<UserId>)
  {
    forall k :: k in after ==>
      if k in before then after[k] == before[k] && (after[k] == i && key == Some(k) ==> key' == Some(k))
      else after[k] == i && key' == Some(k)
  }

  /** What one step of a goroutine can do to the subscribers cache. */
  ghost predicate SubsStep(s: State, t: State, i: nat, p: Proc, q: Proc) {
    && (forall a :: a in t.subs ==>
         || (a in s.subs && t.subs[a] == s.subs[a] && (a in s.damage.lists ==> a in t.damage.lists))
         || SavesSubs(s, t, i, p, a))
    && (forall a :: HoldsSubs(q, a) && OwnsSubLock(t, i, a) ==>
         || (HoldsSubs(p, a) && q.subsPhase.v == p.subsPhase.v && OwnsSubLock(s, i, a))
         || forall u :: (u in q.subsPhase.v <==> u in Subscribers(s.db.friends, a)) || (u, a) in t.damage.pairs)
    && (forall u, a :: AboutToWriteSubs(p, u, a) ==> (u, a) in t.damage.pairs || SavesSubs(s, t, i, p, a))
    && (forall u, a :: SubsOwedBy(s, p, u, a) ==> SubsOwedBy(t, q, u, a) || SubsQueriedFor(s, i, q, u, a))
    && (forall a :: a in t.damage.lists ==> a in s.damage.lists || (HoldsSubs(p, a) && !OwnsSubLock(s, i, a)))
  }

  /** The list `p` holds is what is cached under `a` afterwards, and damage unless `p` owns the lock. */
  ghost predicate SavesSubs(s: State, t: State, i: nat, p: Proc, a: UserId) {
    && HoldsSubs(p, a) && (a in t.subs ==> t.subs[a] == p.subsPhase.v)
    && (OwnsSubLock(s, i, a) || a in t.damage.lists)
  }

  predicate SubsOwedBy(s: State, p: Proc, u: UserId, a: UserId) {
    BeforeSubsQuery(p, u, a) || (u, a) in s.damage.pairs
  }

  /** The owner of the lock has just queried the subscribers of `a` for the notification (u, a). */
  predicate SubsQueriedFor(s: State, i: nat, q: Proc, u: UserId, a: UserId) {
    OwnsSubLock(s, i, a) && AboutToWriteSubs(q, u, a)
  }

  /** What one step of a goroutine can do to the feed cache. */
  ghost predicate FeedStep(s: State, t: State, i: nat, p: Proc, q: Proc) {
    && (forall u :: u in t.feeds ==> (u in s.feeds && t.feeds[u] == s.feeds[u]) || SavesFeed(s, t, i, p, u))
    && (forall u :: HoldsFeed(q, u) && OwnsFeedLock(t, i, u) ==>
         || (HoldsFeed(p, u) && q.feedPhase.v == p.feedPhase.v && OwnsFeedLock(s, i, u))
         || q.feedPhase.v == FeedOf(s, u) || u in t.damage.feeds)
    && (forall u :: AboutToWriteFeed(p, u) ==> u in t.damage.feeds || SavesFeed(s, t, i, p, u))
  }

  ghost predicate SavesFeed(s: State, t: State, i: nat, p: Proc, u: UserId) {
    && HoldsFeed(p, u) && (u in t.feeds ==> t.feeds[u] == p.feedPhase.v)
    && (OwnsFeedLock(s, i, u) || u in t.damage.feeds)
  }

  /** A worker's step from `p` to `q` runs the query for the feed of `u`. */
  predicate RunsFeedQuery(p: Proc, q: Proc, u: UserId) {
    FeedKey(p) == FeedKey(q) == Some(u) && p.feedPhase.Locked? && q.feedPhase.Loaded?
    && p.client.Worker? && q.client.Worker?
  }

  /** It does so under the lock of `u`. */
  predicate Refreshes(s: State, i: nat, p: Proc, q: Proc, u: UserId) {
    RunsFeedQuery(p, q, u) && OwnsFeedLock(s, i, u)
  }

  /** `p` is about to settle on a sound list of subscribers, cached or just loaded, that misses the follower `u`. */
  ghost predicate Misses(s: State, i: nat, p: Proc, u: UserId) {
    || (p.LookupSubs? && p.author in s.subs && p.author !in s.damage.lists
        && Follows(s.db, u, p.author) && u !in s.subs[p.author])
    || (p.LoadSubs? && p.cause.ForPosts? && p.subsPhase.Saved? && OwnsSubLock(s, i, p.author)
        && Follows(s.db, u, p.author) && u !in p.subsPhase.v)
  }

  /** Which feed queries one step can take off the goroutine's own list, and which damage it can repair. */
  ghost predicate QueryStep(s: State, t: State, i: nat, p: Proc, q: Proc) {
    && (forall u :: WillQueryFeed(p, s.db, u) ==>
         WillQueryFeed(q, s.db, u) || FeedSpoilt(t, u) || Refreshes(s, i, p, q, u) || Misses(s, i, p, u))
    && (forall u :: u in s.damage.feeds ==> u in t.damage.feeds || Refreshes(s, i, p, q, u))
  }

  /** The stages a goroutine passes before it knows whose feeds it has to load. */
  function LookupRank(p: Proc): nat {
    match p
    case LookupSubs(_) => 5
    case LoadSubs(_, _, ph) =>
      (match ph case Wait => 4 case Locked => 3 case Loaded(_) => 2 case Saved(_) => 1)
    case FlushSubs => 2
    case FlushFeeds => 1
    case LookupFeed(_) => 1
    case _ => 0
  }

  /** The steps a goroutine still takes to load and publish the feeds on its list. */
  function FeedRank(p: Proc): nat {
    match p
    case LoadFeed(_, client, ph) =>
      (if client.Worker? then 5 * |client.todo| else 0)
      + (match ph case Wait => 5 case Locked => 4 case Loaded(_) => 3 case Saved(_) => 2)
    case Publish(_, _, todo) => 5 * |todo| + 1
    case _ => 0
  }

  /** A step brings the goroutine closer to the end of its task. */
  predicate RankLowered(p: Proc, q: Proc) {
    LookupRank(q) < LookupRank(p) || (LookupRank(q) == LookupRank(p) && FeedRank(q) < FeedRank(p))
  }

  /** A worker has queried the feed of `u`, into `UnpublishedFeed(p)`, and not yet published it. */
  predicate Unpublished(p: Proc, u: UserId) {
    || (HoldsFeed(p, u) && p.client.Worker?)
    || (p.Publish? && p.user == u)
  }

  function UnpublishedFeed(p: Proc): Feed
    requires (p.LoadFeed? && (p.feedPhase.Loaded? || p.feedPhase.Saved?)) || p.Publish?
  {
    if p.Publish? then p.feed else p.feedPhase.v
  }

  /** What one step of a goroutine can do to the feeds published. */
  ghost predicate PublishStepOf(s: State, t: State, p: Proc, q: Proc) {
    && s.published.Keys <= t.published.Keys
    && (p.Publish? ==> Publishes(t, p, p.user) || p.user in t.damage.muted)
    && (forall u :: u in t.published ==> (u in s.published && t.published[u] == s.published[u]) || Publishes(t, p, u))
    && (forall u :: u in s.damage.muted ==> u in t.damage.muted || Publishes(t, p, u))
    && (forall u :: u in t.damage.muted ==> u in s.damage.muted || (p.Publish? && p.user == u))
    && (forall u :: Unpublished(q, u) ==>
         || (Unpublished(p, u) && UnpublishedFeed(q) == UnpublishedFeed(p))
         || UnpublishedFeed(q) == FeedOf(s, u) || u in t.damage.feeds)
    && (forall u :: Unpublished(p, u) ==> Unpublished(q, u) || p.Publish? || u in t.damage.feeds)
  }

  predicate Publishes(t: State, p: Proc, u: UserId) {
    p.Publish? && p.user == u && u in t.published && t.published[u] == p.feed
  }

  ghost predicate SubsSide(s: State, t: State, i: nat, p: Proc, q: Proc) {
    SubsStep(s, t, i, p, q) && LockStep(s.subLocks, t.subLocks, i, SubsKey(p), SubsKey(q))
  }

  ghost predicate FeedSide(s: State, t: State, i: nat, p: Proc, q: Proc) {
    FeedStep(s, t, i, p, q) && LockStep(s.feedLocks, t.feedLocks, i, FeedKey(p), FeedKey(q))
  }

  ghost predicate WorkSide(s: State, t: State, i: nat, p: Proc, q: Proc) {
    QueryStep(s, t, i, p, q) && PublishStepOf(s, t, p, q) && RankLowered(p, q) && (ReaderProc(p) ==> ReaderProc(q))
  }

  /** All that holds of one step of a goroutine, whichever it is, and of its failure. */
  ghost predicate GoroutineStep(s: State, t: State, i: nat, q: Proc) {
    && Moved(s, t, i, q)
    && SubsSide(s, t, i, s.procs[i], q)
    && FeedSide(s, t, i, s.procs[i], q)
    && WorkSide(s, t, i, s.procs[i], q)
  }

  /** Goroutine `i` went from `s` to `t`. */
  ghost predicate IsStep(s: State, t: State, i: nat) {
    |t.procs| == |s.procs| && i < |s.procs| && GoroutineStep(s, t, i, t.procs[i])
  }

  // ---------------------------------------------------------------- what a step leaves alone

  predicate SameSubs(s: State, t: State) {
    t.subs == s.subs && t.subLocks == s.subLocks && SameSubsDamage(s, t)
  }

  predicate SameSubsDamage(s: State, t: State) {
    t.damage.lists == s.damage.lists && t.damage.pairs == s.damage.pairs
  }

  predicate SameFeeds(s: State, t: State) {
    t.feeds == s.feeds && t.feedLocks == s.feedLocks
  }

  predicate SamePublished(s: State, t: State) {
    t.published == s.published && t.damage.muted == s.damage.muted
  }

  lemma AllSides(s: State, t: State, i: nat)
    requires i < |s.procs| && |t.procs| == |s.procs| && Moved(s, t, i, t.procs[i])
    requires SubsSide(s, t, i, s.procs[i], t.procs[i])
    requires FeedSide(s, t, i, s.procs[i], t.procs[i])
    requires WorkSide(s, t, i, s.procs[i], t.procs[i])
    ensures IsStep(s, t, i)
  {
  }

  /** A step outside any Load of subscribers. */
  lemma SubsUntouched(s: State, t: State, i: nat, p: Proc, q: Proc)
    requires SubsKey(p).None? && SubsKey(q).None? && (p.LoadSubs? ==> q == p)
    requires SameSubs(s, t)
    ensures SubsSide(s, t, i, p, q)
  {
  }

  /** A step outside any Load of a feed. */
  lemma FeedsUntouched(s: State, t: State, i: nat, p: Proc, q: Proc)
    requires FeedKey(p).None? && FeedKey(q).None?
    requires SameFeeds(s, t)
    ensures FeedSide(s, t, i, p, q)
  {
  }

  /** A step that publishes nothing. */
  lemma NothingPublished(s: State, t: State, p: Proc, q: Proc)
    requires SamePublished(s, t) && !p.Publish?
    requires forall u :: Unpublished(q, u) ==>
      || (Unpublished(p, u) && UnpublishedFeed(q) == UnpublishedFeed(p))
      || UnpublishedFeed(q) == FeedOf(s, u) || u in t.damage.feeds
    requires forall u :: Unpublished(p, u) ==> Unpublished(q, u) || u in t.damage.feeds
    ensures PublishStepOf(s, t, p, q)
  {
  }

  // ---------------------------------------------------------------- the stages of a Load

  /** The lock is free and taken. */
  ghost predicate TakesSubLock(s: State, t: State, i: nat, a: UserId, cause: Cause) {
    && i < |s.procs| && s.procs[i] == LoadSubs(a, cause, Wait) && a !in s.subLocks
    && Moved(s, t, i, LoadSubs(a, cause, Locked))
    && SameFeeds(s, t) && SamePublished(s, t) && t.damage.feeds == s.damage.feeds
    && t.subs == s.subs && t.subLocks == s.subLocks[a := i] && SameSubsDamage(s, t)
  }

  lemma TakesSubLockIsStep(s: State, t: State, i: nat, a: UserId, cause: Cause)
    requires TakesSubLock(s, t, i, a, cause)
    ensures IsStep(s, t, i)
  {
    FeedsUntouched(s, t, i, s.procs[i], t.procs[i]);
    NothingPublished(s, t, s.procs[i], t.procs[i]);
    AllSides(s, t, i);
  }

  /**
   The database is asked for the subscribers; only a query under the lock makes up for a lost
   notification, and whoever is missing from the answer goes on the account.
   */
  ghost predicate QueriesSubs(s: State, t: State, i: nat, a: UserId, cause: Cause, v: seq<UserId>) {
    && i < |s.procs| && s.procs[i] == LoadSubs(a, cause, Locked)
    && Moved(s, t, i, LoadSubs(a, cause, Loaded(v)))
    && SameFeeds(s, t) && SamePublished(s, t) && t.damage.feeds == s.damage.feeds
    && t.subs == s.subs && t.subLocks == s.subLocks && t.damage.lists == s.damage.lists
    && (forall x :: x in s.damage.pairs ==>
         x in t.damage.pairs || (cause.ForFriend? && x == (cause.user, a) && OwnsSubLock(s, i, a)))
    && (cause.ForFriend? && !OwnsSubLock(s, i, a) ==> (cause.user, a) in t.damage.pairs)
    && (forall u :: (u in v <==> u in Subscribers(s.db.friends, a)) || (u, a) in t.damage.pairs)
  }

  lemma QueriesSubsIsStep(s: State, t: State, i: nat, a: UserId, cause: Cause, v: seq<UserId>)
    requires QueriesSubs(s, t, i, a, cause, v)
    ensures IsStep(s, t, i)
  {
    FeedsUntouched(s, t, i, s.procs[i], t.procs[i]);
    NothingPublished(s, t, s.procs[i], t.procs[i]);
    AllSides(s, t, i);
  }

  /** The list is cached, to be trusted only if the lock is still owned. */
  ghost predicate CachesList(s: State, t: State, i: nat, a: UserId, cause: Cause, v: seq<UserId>) {
    && i < |s.procs| && s.procs[i] == LoadSubs(a, cause, Loaded(v))
    && Moved(s, t, i, LoadSubs(a, cause, Saved(v)))
    && SameFeeds(s, t) && SamePublished(s, t) && t.damage.feeds == s.damage.feeds
    && t.subs == s.subs[a := v] && t.subLocks == s.subLocks && t.damage.pairs == s.damage.pairs
    && t.damage.lists == if OwnsSubLock(s, i, a) then s.damage.lists - {a} else s.damage.lists + {a}
  }

  lemma CachesListIsStep(s: State, t: State, i: nat, a: UserId, cause: Cause, v: seq<UserId>)
    requires CachesList(s, t, i, a, cause, v)
    ensures IsStep(s, t, i)
  {
    FeedsUntouched(s, t, i, s.procs[i], t.procs[i]);
    NothingPublished(s, t, s.procs[i], t.procs[i]);
    AllSides(s, t, i);
  }

  /** The lock is released if it is still owned; a list held without it may miss anybody. */
  ghost predicate LeavesSubs(s: State, t: State, i: nat, a: UserId, cause: Cause, v: seq<UserId>) {
    && i < |s.procs| && s.procs[i] == LoadSubs(a, cause, Saved(v))
    && Moved(s, t, i, AfterSubs(cause, v))
    && SameFeeds(s, t) && SamePublished(s, t) && s.damage.feeds <= t.damage.feeds
    && t.subs == s.subs && SameSubsDamage(s, t)
    && t.subLocks == (if OwnsSubLock(s, i, a) then s.subLocks - {a} else s.subLocks)
    && (cause.ForPosts? && !OwnsSubLock(s, i, a) ==> forall u :: Follows(s.db, u, a) ==> u in t.damage.feeds)
  }

  lemma LeavesSubsIsStep(s: State, t: State, i: nat, a: UserId, cause: Cause, v: seq<UserId>)
    requires LeavesSubs(s, t, i, a, cause, v)
    ensures IsStep(s, t, i)
  {
    FeedsUntouched(s, t, i, s.procs[i], t.procs[i]);
    NothingPublished(s, t, s.procs[i], t.procs[i]);
    AllSides(s, t, i);
  }

  /** The lock is free and taken. */
  ghost predicate TakesFeedLock(s: State, t: State, i: nat, u: UserId, client: Client) {
    && i < |s.procs| && s.procs[i] == LoadFeed(u, client, Wait) && u !in s.feedLocks
    && Moved(s, t, i, LoadFeed(u, client, Locked))
    && SameSubs(s, t) && SamePublished(s, t) && t.damage.feeds == s.damage.feeds
    && t.feeds == s.feeds && t.feedLocks == s.feedLocks[u := i]
  }

  lemma TakesFeedLockIsStep(s: State, t: State, i: nat, u: UserId, client: Client)
    requires TakesFeedLock(s, t, i, u, client)
    ensures IsStep(s, t, i)
  {
    SubsUntouched(s, t, i, s.procs[i], t.procs[i]);
    NothingPublished(s, t, s.procs[i], t.procs[i]);
    AllSides(s, t, i);
  }

  /**
   The database is asked for the feed; only a worker's query under the lock makes up for a lost
   refresh, and an answer that is not whole goes on the account.
   */
  ghost predicate QueriesFeed(s: State, t: State, i: nat, u: UserId, client: Client, v: Feed) {
    && i < |s.procs| && s.procs[i] == LoadFeed(u, client, Locked)
    && Moved(s, t, i, LoadFeed(u, client, Loaded(v)))
    && SameSubs(s, t) && SamePublished(s, t)
    && t.feeds == s.feeds && t.feedLocks == s.feedLocks
    && (forall x :: x in s.damage.feeds ==> x in t.damage.feeds || (client.Worker? && x == u && OwnsFeedLock(s, i, u)))
    && (client.Worker? && !OwnsFeedLock(s, i, u) ==> u in t.damage.feeds)
    && (v == FeedOf(s, u) || u in t.damage.feeds)
  }

  lemma QueriesFeedIsStep(s: State, t: State, i: nat, u: UserId, client: Client, v: Feed)
    requires QueriesFeed(s, t, i, u, client, v)
    ensures IsStep(s, t, i)
  {
    SubsUntouched(s, t, i, s.procs[i], t.procs[i]);
    NothingPublished(s, t, s.procs[i], t.procs[i]);
    AllSides(s, t, i);
  }

  /** The feed is cached, to be trusted only if the lock is still owned. */
  ghost predicate CachesFeed(s: State, t: State, i: nat, u: UserId, client: Client, v: Feed) {
    && i < |s.procs| && s.procs[i] == LoadFeed(u, client, Loaded(v))
    && Moved(s, t, i, LoadFeed(u, client, Saved(v)))
    && SameSubs(s, t) && SamePublished(s, t) && s.damage.feeds <= t.damage.feeds
    && t.feeds == s.feeds[u := v] && t.feedLocks == s.feedLocks
    && (OwnsFeedLock(s, i, u) || u in t.damage.feeds)
  }

  lemma CachesFeedIsStep(s: State, t: State, i: nat, u: UserId, client: Client, v: Feed)
    requires CachesFeed(s, t, i, u, client, v)
    ensures IsStep(s, t, i)
  {
    SubsUntouched(s, t, i, s.procs[i], t.procs[i]);
    NothingPublished(s, t, s.procs[i], t.procs[i]);
    AllSides(s, t, i);
  }

  /** The lock is released if it is still owned. */
  ghost predicate LeavesFeed(s: State, t: State, i: nat, u: UserId, client: Client, v: Feed) {
    && i < |s.procs| && s.procs[i] == LoadFeed(u, client, Saved(v))
    && Moved(s, t, i, if client.Worker? then Publish(u, v, client.todo) else Idle)
    && SameSubs(s, t) && SamePublished(s, t) && t.damage.feeds == s.damage.feeds
    && t.feeds == s.feeds
    && t.feedLocks == (if OwnsFeedLock(s, i, u) then s.feedLocks - {u} else s.feedLocks)
  }

  lemma LeavesFeedIsStep(s: State, t: State, i: nat, u: UserId, client: Client, v: Feed)
    requires LeavesFeed(s, t, i, u, client, v)
    ensures IsStep(s, t, i)
  {
    SubsUntouched(s, t, i, s.procs[i], t.procs[i]);
    NothingPublished(s, t, s.procs[i], t.procs[i]);
    AllSides(s, t, i);
  }

  /** The cached list of subscribers is used; one that is not trusted may miss anybody. */
  ghost predicate UsesList(s: State, t: State, i: nat, a: UserId) {
    && i < |s.procs| && s.procs[i] == LookupSubs(a) && a in s.subs
    && Moved(s, t, i, StartFeeds(s.subs[a]))
    && SameSubs(s, t) && SameFeeds(s, t) && SamePublished(s, t) && s.damage.feeds <= t.damage.feeds
    && (a in s.damage.lists ==> forall u :: Follows(s.db, u, a) ==> u in t.damage.feeds)
  }

  lemma UsesListIsStep(s: State, t: State, i: nat, a: UserId)
    requires UsesList(s, t, i, a)
    ensures IsStep(s, t, i)
  {
    SubsUntouched(s, t, i, s.procs[i], t.procs[i]);
    FeedsUntouched(s, t, i, s.procs[i], t.procs[i]);
    NothingPublished(s, t, s.procs[i], t.procs[i]);
    AllSides(s, t, i);
  }

  // ---------------------------------------------------------------- the other steps, and failures

  lemma LookupSubsMissStep(s: State, i: nat)
    requires i < |s.procs| && s.procs[i].LookupSubs? && s.procs[i].author !in s.subs
    ensures IsStep(s, AdvanceProc(s, i), i)
  {
    var t := AdvanceProc(s, i);
    FeedsUntouched(s, t, i, s.procs[i], t.procs[i]);
    SubsUntouched(s, t, i, s.procs[i], t.procs[i]);
    NothingPublished(s, t, s.procs[i], t.procs[i]);
    AllSides(s, t, i);
  }

  lemma PublishStep(s: State, i: nat)
    requires i < |s.procs| && s.procs[i].Publish?
    ensures IsStep(s, AdvanceProc(s, i), i)
  {
    var t := AdvanceProc(s, i);
    FeedsUntouched(s, t, i, s.procs[i], t.procs[i]);
    SubsUntouched(s, t, i, s.procs[i], t.procs[i]);
    AllSides(s, t, i);
  }

  lemma FlushSubsSubs(s: State, i: nat)
    requires i < |s.procs| && s.procs[i].FlushSubs?
    ensures var t := AdvanceProc(s, i);
      |t.procs| == |s.procs| && SubsSide(s, t, i, s.procs[i], t.procs[i])
  {
  }

  lemma FlushSubsStep(s: State, i: nat)
    requires i < |s.procs| && s.procs[i].FlushSubs?
    ensures IsStep(s, AdvanceProc(s, i), i)
  {
    var t := AdvanceProc(s, i);
    FeedsUntouched(s, t, i, s.procs[i], t.procs[i]);
    FlushSubsSubs(s, i);
    AllSides(s, t, i);
  }

  lemma FlushFeedsStep(s: State, i: nat)
    requires i < |s.procs| && s.procs[i].FlushFeeds?
    ensures IsStep(s, AdvanceProc(s, i), i)
  {
    var t := AdvanceProc(s, i);
    SubsUntouched(s, t, i, s.procs[i], t.procs[i]);
    AllSides(s, t, i);
  }

  lemma LookupFeedStep(s: State, i: nat)
    requires i < |s.procs| && s.procs[i].LookupFeed?
    ensures IsStep(s, AdvanceProc(s, i), i)
  {
    var t := AdvanceProc(s, i);
    SubsUntouched(s, t, i, s.procs[i], t.procs[i]);
    AllSides(s, t, i);
  }

  lemma AdvanceIsGoroutineStep(s: State, i: nat)
    requires i < |s.procs| && CanAdvance(s, s.procs[i])
    ensures IsStep(s, AdvanceProc(s, i), i)
  {
    match s.procs[i]
    case LoadSubs(a, cause, ph) => AdvanceLoadSubsIsStep(s, i, a, cause, ph);
    case LoadFeed(u, client, ph) => AdvanceLoadFeedIsStep(s, i, u, client, ph);
    case LookupSubs(a) =>
      if a in s.subs { UsesListIsStep(s, AdvanceProc(s, i), i, a); } else { LookupSubsMissStep(s, i); }
    case Publish(_, _, _) => PublishStep(s, i);
    case FlushSubs => FlushSubsStep(s, i);
    case FlushFeeds => FlushFeedsStep(s, i);
    case LookupFeed(_) => LookupFeedStep(s, i);
  }

  lemma AdvanceLoadSubsIsStep(s: State, i: nat, a: UserId, cause: Cause, phase: Phase<seq<UserId>>)
    requires i < |s.procs| && s.procs[i] == LoadSubs(a, cause, phase) && CanAdvance(s, s.procs[i])
    ensures IsStep(s, AdvanceLoadSubs(s, i, a, cause, phase), i)
  {
    var t := AdvanceLoadSubs(s, i, a, cause, phase);
    match phase
    case Wait => TakesSubLockIsStep(s, t, i, a, cause);
    case Locked => QueriesSubsIsStep(s, t, i, a, cause, Subscribers(s.db.friends, a));
    case Loaded(v) => CachesListIsStep(s, t, i, a, cause, v);
    case Saved(v) => ReleaseIsStep(s, i, a, cause, v);
  }

  lemma ReleaseIsStep(s: State, i: nat, a: UserId, cause: Cause, v: seq<UserId>)
    requires i < |s.procs| && s.procs[i] == LoadSubs(a, cause, Saved(v))
    ensures IsStep(s, AdvanceLoadSubs(s, i, a, cause, Saved(v)), i)
  {
    LeavesSubsIsStep(s, AdvanceLoadSubs(s, i, a, cause, Saved(v)), i, a, cause, v);
  }

  lemma AdvanceLoadFeedIsStep(s: State, i: nat, u: UserId, client: Client, phase: Phase<Feed>)
    requires i < |s.procs| && s.procs[i] == LoadFeed(u, client, phase) && CanAdvance(s, s.procs[i])
    ensures IsStep(s, AdvanceLoadFeed(s, i, u, client, phase), i)
  {
    var t := AdvanceLoadFeed(s, i, u, client, phase);
    match phase
    case Wait => TakesFeedLockIsStep(s, t, i, u, client);
    case Locked => QueriesFeedIsStep(s, t, i, u, client, FeedOf(s, u));
    case Loaded(v) => CachesFeedIsStep(s, t, i, u, client, v);
    case Saved(v) => LeavesFeedIsStep(s, t, i, u, client, v);
  }

  lemma FailingLookupStep(s: State, i: nat)
    requires i < |s.procs| && s.procs[i].LookupSubs?
    ensures IsStep(s, FailProc(s, i), i)
  {
    var t := FailProc(s, i);
    FeedsUntouched(s, t, i, s.procs[i], t.procs[i]);
    SubsUntouched(s, t, i, s.procs[i], t.procs[i]);
    NothingPublished(s, t, s.procs[i], t.procs[i]);
    AllSides(s, t, i);
  }

  lemma FailingLoadSubsStep(s: State, i: nat)
    requires i < |s.procs| && s.procs[i].LoadSubs? && !s.procs[i].subsPhase.Saved?
    ensures IsStep(s, FailProc(s, i), i)
  {
    var t := FailProc(s, i);
    FeedsUntouched(s, t, i, s.procs[i], t.procs[i]);
    NothingPublished(s, t, s.procs[i], t.procs[i]);
    AllSides(s, t, i);
  }

  /** A Load of a feed fails; a worker goes on with the next one. */
  ghost predicate GivesUpFeed(s: State, t: State, i: nat, u: UserId, client: Client) {
    && i < |s.procs| && s.procs[i].LoadFeed? && !s.procs[i].feedPhase.Saved?
    && s.procs[i].user == u && s.procs[i].client == client
    && Moved(s, t, i, if client.Worker? then StartFeeds(client.todo) else Idle)
    && SameSubs(s, t) && SamePublished(s, t) && s.damage.feeds <= t.damage.feeds
    && t.feeds == s.feeds
    && t.feedLocks == (if OwnsFeedLock(s, i, u) then s.feedLocks - {u} else s.feedLocks)
    && (client.Worker? ==> u in t.damage.feeds)
  }

  lemma GivesUpFeedIsStep(s: State, t: State, i: nat, u: UserId, client: Client)
    requires GivesUpFeed(s, t, i, u, client)
    ensures IsStep(s, t, i)
  {
    SubsUntouched(s, t, i, s.procs[i], t.procs[i]);
    NothingPublished(s, t, s.procs[i], t.procs[i]);
    AllSides(s, t, i);
  }

  lemma FailingPublishStep(s: State, i: nat)
    requires i < |s.procs| && s.procs[i].Publish?
    ensures IsStep(s, FailProc(s, i), i)
  {
    var t := FailProc(s, i);
    FeedsUntouched(s, t, i, s.procs[i], t.procs[i]);
    SubsUntouched(s, t, i, s.procs[i], t.procs[i]);
    AllSides(s, t, i);
  }

  lemma FailingOtherStep(s: State, i: nat)
    requires i < |s.procs| && (s.procs[i].FlushSubs? || s.procs[i].FlushFeeds? || s.procs[i].LookupFeed?)
    ensures IsStep(s, FailProc(s, i), i)
  {
    var t := FailProc(s, i);
    FeedsUntouched(s, t, i, s.procs[i], t.procs[i]);
    SubsUntouched(s, t, i, s.procs[i], t.procs[i]);
    NothingPublished(s, t, s.procs[i], t.procs[i]);
    AllSides(s, t, i);
  }

  ghost predicate SameCaches(s: State, t: State) {
    && t.db == s.db && t.pending == s.pending
    && t.subs == s.subs && t.feeds == s.feeds && t.published == s.published
  }

  /** What a goroutine at `p` goes on with when it fails. */
  ghost predicate GivesUp(p: Proc, q: Proc) {
    if p.Publish? then Continues(q, p.todo)
    else if p.LoadFeed? && p.client.Worker? then Continues(q, p.client.todo)
    else q == Idle
  }

  /**
   A failure changes neither the database nor a cache nor what is published or pending.  Whoever
   is still to be loaded after the feed a worker fails at stays to be loaded; everything else
   is given up.
   */
  lemma FailureKeepsRest(s: State, i: nat)
    requires i < |s.procs| && CanFail(s.procs[i])
    ensures SameCaches(s, FailProc(s, i)) && |FailProc(s, i).procs| == |s.procs|
    ensures GivesUp(s.procs[i], FailProc(s, i).procs[i])
  {
    match s.procs[i]
    case LoadSubs(_, _, _) => FailingLoadSubsGivesUp(s, i);
    case LoadFeed(_, _, _) => FailingLoadFeedGivesUp(s, i);
    case _ => OtherFailureGivesUp(s, i);
  }

  lemma FailingLoadSubsGivesUp(s: State, i: nat)
    requires i < |s.procs| && s.procs[i].LoadSubs? && CanFail(s.procs[i])
    ensures SameCaches(s, FailProc(s, i)) && FailProc(s, i).procs == s.procs[i := Idle]
  {
  }

  lemma FailingLoadFeedGivesUp(s: State, i: nat)
    requires i < |s.procs| && s.procs[i].LoadFeed? && CanFail(s.procs[i])
    ensures SameCaches(s, FailProc(s, i)) && |FailProc(s, i).procs| == |s.procs|
    ensures GivesUp(s.procs[i], FailProc(s, i).procs[i])
  {
  }

  lemma OtherFailureGivesUp(s: State, i: nat)
    requires i < |s.procs| && CanFail(s.procs[i]) && !s.procs[i].LoadSubs? && !s.procs[i].LoadFeed?
    ensures SameCaches(s, FailProc(s, i)) && |FailProc(s, i).procs| == |s.procs|
    ensures GivesUp(s.procs[i], FailProc(s, i).procs[i])
  {
  }

  predicate Continues(q: Proc, todo: seq<UserId>) {
    q == if todo == [] then Idle else LoadFeed(todo[0], Worker(todo[1..]), Wait)
  }

  lemma ContinuingQueriesAll(q: Proc, todo: seq<UserId>, db: Db)
    requires Continues(q, todo)
    ensures forall u :: u in todo ==> WillQueryFeed(q, db, u)
  {
  }

  lemma FailureIsGoroutineStep(s: State, i: nat)
    requires i < |s.procs| && CanFail(s.procs[i])
    ensures IsStep(s, FailProc(s, i), i)
  {
    match s.procs[i]
    case LookupSubs(_) => FailingLookupStep(s, i);
    case LoadSubs(_, _, _) => FailingLoadSubsStep(s, i);
    case LoadFeed(u, client, _) => GivesUpFeedIsStep(s, FailProc(s, i), i, u, client);
    case Publish(_, _, _) => FailingPublishStep(s, i);
    case _ => FailingOtherStep(s, i);
  }

  lemma CutIsGoroutineStep(s: State, i: nat, rows: nat)
    requires i < |s.procs| && CanBeCut(s, s.procs[i], rows)
    ensures IsStep(s, CutProc(s, i, rows), i)
  {
    match s.procs[i]
    case LoadSubs(a, cause, _) => CutSubsIsStep(s, i, a, cause, rows);
    case LoadFeed(u, client, _) => QueriesFeedIsStep(s, CutProc(s, i, rows), i, u, client, FeedOf(s, u)[..rows]);
  }

  /** The goroutine goes on with exactly the rows that arrived. */
  lemma CutKeepsFirstRows(s: State, i: nat, rows: nat)
    requires i < |s.procs| && CanBeCut(s, s.procs[i], rows)
    ensures var p, q := s.procs[i], CutProc(s, i, rows).procs[i];
      && (p.LoadFeed? ==> q == p.(feedPhase := Loaded(FeedOf(s, p.user)[..rows])))
      && (p.LoadSubs? ==> q == p.(subsPhase := Loaded(Subscribers(s.db.friends, p.author)[..rows])))
  {
  }

  lemma CutSubsIsStep(s: State, i: nat, a: UserId, cause: Cause, rows: nat)
    requires i < |s.procs| && s.procs[i] == LoadSubs(a, cause, Locked) && rows < |Subscribers(s.db.friends, a)|
    ensures IsStep(s, CutSubs(s, i, a, cause, rows), i)
  {
    var all, t := Subscribers(s.db.friends, a), CutSubs(s, i, a, cause, rows);
    forall u | u in all && u !in all[..rows] ensures (u, a) in t.damage.pairs {
      assert all == all[..rows] + all[rows..];
    }
    QueriesSubsIsStep(s, t, i, a, cause, all[..rows]);
  }
}
