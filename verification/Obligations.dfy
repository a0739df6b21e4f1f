/**
 What is still owed to a cache entry, and the invariant of the protocol: every entry that
 differs from the database is owed a refresh, or one is being written, or one was lost.
 Each half of the invariant, of subscriber lists and of feeds, needs the other.
 */
module Obligations {
  import opened Wrappers
  import opened Users
  import opened SocialDb
  import opened Protocol

  // ---------------------------------------------------------------- locks

  /** The key whose subscribers `p` has locked. */
  function SubsKey(p: Proc): Option<UserId> {
    if p.LoadSubs? && !p.subsPhase.Wait? then Some(p.author) else None
  }

  /** The key whose feed `p` has locked. */
  function FeedKey(p: Proc): Option<UserId> {
    if p.LoadFeed? && !p.feedPhase.Wait? then Some(p.user) else None
  }

  /** Whoever the lock tables name is inside a Load of that key, so of two goroutines inside one at most one owns it. */
  ghost predicate Locks(s: State) {
    LocksName(s.subLocks, s.procs, SubsKey) && LocksName(s.feedLocks, s.procs, FeedKey)
  }

  ghost predicate LocksName(locks: map<UserId, nat>, procs: seq<Proc>, key: Proc -> Option<UserId>) {
    forall k :: k in locks ==> locks[k] < |procs| && key(procs[locks[k]]) == Some(k)
  }

  predicate ReaderProc(p: Proc) {
    p.Idle? || p.LookupFeed? || (p.LoadFeed? && p.client.Reader?)
  }

  ghost predicate Roles(s: State) {
    forall i :: s.workers <= i < |s.procs| ==> ReaderProc(s.procs[i])
  }

  // ---------------------------------------------------------------- subscribers

  /** A worker on the friend notification (u, a) that has not yet queried a's subscribers. */
  predicate BeforeSubsQuery(p: Proc, u: UserId, a: UserId) {
    p.LoadSubs? && p.author == a && p.cause == ForFriend(u) && (p.subsPhase.Wait? || p.subsPhase.Locked?)
  }

  /** The friend notification (u, a) is outstanding and a's subscribers are still to be queried for it. */
  ghost predicate SubsQueryDue(s: State, u: UserId, a: UserId) {
    || UpdateFriend(u, a) in s.pending
    || exists i :: 0 <= i < |s.procs| && BeforeSubsQuery(s.procs[i], u, a)
  }

  /** That query is still to come, or was lost with nothing to replace it so far. */
  ghost predicate SubsOwed(s: State, u: UserId, a: UserId) {
    SubsQueryDue(s, u, a) || (u, a) in s.damage.pairs
  }

  /** A worker on the friend notification (u, a) is about to overwrite a's cached subscribers. */
  ghost predicate SubsWriteDue(s: State, u: UserId, a: UserId) {
    exists i :: 0 <= i < |s.procs| && AboutToWriteSubs(s.procs[i], u, a)
  }

  predicate AboutToWriteSubs(p: Proc, u: UserId, a: UserId) {
    p.LoadSubs? && p.author == a && p.cause == ForFriend(u) && p.subsPhase.Loaded?
  }

  ghost predicate AgreeOn(s: State, v: seq<UserId>, u: UserId, a: UserId) {
    u in v <==> Follows(s.db, u, a)
  }

  /** `p` has queried the subscribers of `a`, into `p.subsPhase.v`, and still holds their lock. */
  predicate HoldsSubs(p: Proc, a: UserId) {
    SubsKey(p) == Some(a) && (p.subsPhase.Loaded? || p.subsPhase.Saved?)
  }

  /** A cached list is wrong about u only while u's own notification is owed or about to be acted on. */
  ghost predicate CachedSubsCovered(s: State) {
    forall a, u :: a in s.subs && a !in s.damage.lists && !AgreeOn(s, s.subs[a], u, a) ==>
      SubsOwed(s, u, a) || SubsWriteDue(s, u, a)
  }

  /** Nothing is claimed of a list whose holder has lost its lock. */
  ghost predicate HeldSubsCovered(s: State) {
    forall i, a, u :: 0 <= i < |s.procs| && HoldsSubs(s.procs[i], a) && OwnsSubLock(s, i, a) ==>
      AgreeOn(s, s.procs[i].subsPhase.v, u, a) || SubsOwed(s, u, a)
  }

  // ---------------------------------------------------------------- feeds

  /** `p` is a worker that is still going to query the feed of `u`. */
  predicate WillQueryFeed(p: Proc, db: Db, u: UserId) {
    match p
    case LookupSubs(a) => Follows(db, u, a)
    case LoadSubs(a, cause, _) => if cause.ForFriend? then cause.user == u else Follows(db, u, a)
    case LoadFeed(user, client, ph) =>
      client.Worker? && (u in client.todo || (user == u && (ph.Wait? || ph.Locked?)))
    case Publish(_, _, todo) => u in todo
    case _ => false
  }

  predicate TaskRefreshes(task: Task, db: Db, u: UserId) {
    match task
    case UpdateFriend(user, _) => user == u
    case UpdateFeed(a) => Follows(db, u, a)
    case InvalidateAll => false
  }

  /** Something outstanding is still going to query the feed of `u`. */
  ghost predicate FeedQueryDue(s: State, u: UserId) {
    || (exists t :: t in s.pending && TaskRefreshes(t, s.db, u))
    || (exists i :: 0 <= i < |s.procs| && WillQueryFeed(s.procs[i], s.db, u))
  }

  /** A refresh of the feed of `u` was lost with nothing to replace it so far. */
  ghost predicate FeedSpoilt(s: State, u: UserId) {
    u in s.damage.feeds || exists a :: (u, a) in s.damage.pairs
  }

  ghost predicate FeedOwed(s: State, u: UserId) {
    FeedQueryDue(s, u) || FeedSpoilt(s, u)
  }

  /** `p` has queried the feed of `u`, into `p.feedPhase.v`, and still holds its lock. */
  predicate HoldsFeed(p: Proc, u: UserId) {
    FeedKey(p) == Some(u) && (p.feedPhase.Loaded? || p.feedPhase.Saved?)
  }

  /** A worker is about to overwrite the cached feed of `u`. */
  ghost predicate FeedWriteDue(s: State, u: UserId) {
    exists i :: 0 <= i < |s.procs| && AboutToWriteFeed(s.procs[i], u)
  }

  predicate AboutToWriteFeed(p: Proc, u: UserId) {
    p.LoadFeed? && p.user == u && p.client.Worker? && p.feedPhase.Loaded?
  }

  ghost predicate CachedFeedsCovered(s: State) {
    forall u :: u in s.feeds && s.feeds[u] != FeedOf(s, u) ==> FeedOwed(s, u) || FeedWriteDue(s, u)
  }

  ghost predicate HeldFeedsCovered(s: State) {
    forall i, u :: 0 <= i < |s.procs| && HoldsFeed(s.procs[i], u) && OwnsFeedLock(s, i, u) ==>
      s.procs[i].feedPhase.v == FeedOf(s, u) || FeedOwed(s, u)
  }

  ghost predicate Inv(s: State) {
    && Valid(s.db)
    && Locks(s)
    && Roles(s)
    && CachedSubsCovered(s)
    && HeldSubsCovered(s)
    && CachedFeedsCovered(s)
    && HeldFeedsCovered(s)
  }

  lemma InitialInv(s: State)
    requires Initial(s)
    ensures Inv(s)
  {
  }
}
