/**
 Coherence of the feed cache over every interleaving, with lost notifications, failing
 accesses, queries cut short and lost locks: a cached feed may be out of date only while
 something still under way is going to refresh it, or after damage that nothing has repaired
 yet.
 */
module Coherence {
  import opened Users
  import opened SocialDb
  import opened Protocol
  import opened Obligations
  import opened GoroutineSteps

  // ---------------------------------------------------------------- what stays owed

  lemma SubsOwedKept(s: State, t: State, i: nat, q: Proc, u: UserId, a: UserId)
    requires Moved(s, t, i, q)
    requires SubsOwed(s, u, a)
    requires SubsOwedBy(s, s.procs[i], u, a) ==> SubsOwedBy(t, q, u, a)
    ensures SubsOwed(t, u, a)
  {
    assert t.procs[i] == q;
    if (u, a) !in s.damage.pairs && UpdateFriend(u, a) !in s.pending {
      var j :| 0 <= j < |s.procs| && BeforeSubsQuery(s.procs[j], u, a);
      if j != i { assert BeforeSubsQuery(t.procs[j], u, a); }
    }
  }

  /** A lost friend notification stays on the account until a worker on the same pair is about to refresh the feed. */
  lemma SpoiltPairKept(s: State, t: State, i: nat, q: Proc, u: UserId, a: UserId)
    requires Moved(s, t, i, q) && SubsStep(s, t, i, s.procs[i], q)
    requires (u, a) in s.damage.pairs
    ensures FeedOwed(t, u)
  {
    assert SubsOwedBy(s, s.procs[i], u, a);
    if (u, a) in t.damage.pairs {
      assert FeedSpoilt(t, u);
    } else {
      assert WillQueryFeed(t.procs[i], t.db, u);
    }
  }

  /**
   Where the two invariants meet.  When a worker settles on a subscriber list that misses
   a follower of `a`, that follower's own friend notification is still outstanding, or was
   lost.
   */
  lemma MissedFollowerIsOwed(s: State, t: State, i: nat, q: Proc, u: UserId, a: UserId)
    requires Moved(s, t, i, q) && SubsStep(s, t, i, s.procs[i], q)
    requires SubsOwed(s, u, a) || SubsWriteDue(s, u, a)
    requires s.procs[i].LoadSubs? ==> s.procs[i].cause.ForPosts?
    ensures FeedOwed(t, u)
  {
    if (u, a) in s.damage.pairs {
      SpoiltPairKept(s, t, i, q, u, a);
    } else if UpdateFriend(u, a) in s.pending {
      assert TaskRefreshes(UpdateFriend(u, a), t.db, u);
    } else if SubsQueryDue(s, u, a) {
      var j :| 0 <= j < |s.procs| && BeforeSubsQuery(s.procs[j], u, a);
      assert WillQueryFeed(t.procs[j], t.db, u);
    } else {
      var j :| 0 <= j < |s.procs| && AboutToWriteSubs(s.procs[j], u, a);
      assert WillQueryFeed(t.procs[j], t.db, u);
    }
  }

  /** The refresh a goroutine drops from its list without having run it is still owed. */
  lemma OwnQueryKept(s: State, t: State, i: nat, q: Proc, u: UserId)
    requires CachedSubsCovered(s) && HeldSubsCovered(s) && GoroutineStep(s, t, i, q)
    requires WillQueryFeed(s.procs[i], s.db, u)
    ensures FeedOwed(t, u) || Refreshes(s, i, s.procs[i], q, u)
  {
    var p := s.procs[i];
    if WillQueryFeed(q, s.db, u) {
      assert WillQueryFeed(t.procs[i], t.db, u);
    } else if Misses(s, i, p, u) {
      assert p.LookupSubs? ==> !AgreeOn(s, s.subs[p.author], u, p.author);
      assert p.LoadSubs? ==> HoldsSubs(p, p.author) && !AgreeOn(s, p.subsPhase.v, u, p.author);
      MissedFollowerIsOwed(s, t, i, q, u, p.author);
    }
  }

  /** The only refresh that is no longer owed after a step is the one it runs under its lock. */
  lemma FeedOwedKept(s: State, t: State, i: nat, q: Proc, u: UserId)
    requires CachedSubsCovered(s) && HeldSubsCovered(s) && GoroutineStep(s, t, i, q)
    requires FeedOwed(s, u)
    ensures FeedOwed(t, u) || Refreshes(s, i, s.procs[i], q, u)
  {
    var p := s.procs[i];
    if u in s.damage.feeds {
    } else if a :| (u, a) in s.damage.pairs {
      SpoiltPairKept(s, t, i, q, u, a);
    } else if WillQueryFeed(p, s.db, u) {
      OwnQueryKept(s, t, i, q, u);
    } else if j :| 0 <= j < |s.procs| && WillQueryFeed(s.procs[j], s.db, u) {
      assert WillQueryFeed(t.procs[j], t.db, u);
    } else {
      var task :| task in s.pending && TaskRefreshes(task, s.db, u);
      assert task in t.pending;
    }
  }

  // ---------------------------------------------------------------- the invariant over a goroutine's step

  lemma LockStepKeepsLocks(s: State, t: State, i: nat, q: Proc)
    requires Locks(s) && GoroutineStep(s, t, i, q)
    ensures Locks(t)
  {
    assert t.procs[i] == q;
    assert forall j :: 0 <= j < |s.procs| && j != i ==> t.procs[j] == s.procs[j];
  }

  lemma SubsStepKeepsCached(s: State, t: State, i: nat, q: Proc)
    requires CachedSubsCovered(s) && HeldSubsCovered(s) && Moved(s, t, i, q) && SubsStep(s, t, i, s.procs[i], q)
    ensures CachedSubsCovered(t)
  {
    forall a, u | a in t.subs && a !in t.damage.lists && !AgreeOn(t, t.subs[a], u, a)
      ensures SubsOwed(t, u, a) || SubsWriteDue(t, u, a)
    {
      CachedSubsStillCovered(s, t, i, q, u, a);
    }
  }

  lemma CachedSubsStillCovered(s: State, t: State, i: nat, q: Proc, u: UserId, a: UserId)
    requires CachedSubsCovered(s) && HeldSubsCovered(s) && Moved(s, t, i, q) && SubsStep(s, t, i, s.procs[i], q)
    requires a in t.subs && a !in t.damage.lists && !AgreeOn(t, t.subs[a], u, a)
    ensures SubsOwed(t, u, a) || SubsWriteDue(t, u, a)
  {
    var p := s.procs[i];
    assert t.procs[i] == q && !AgreeOn(s, t.subs[a], u, a);
    if SubsQueriedFor(s, i, q, u, a) {
      assert AboutToWriteSubs(t.procs[i], u, a);
    } else if SubsOwed(s, u, a) {
      SubsOwedKept(s, t, i, q, u, a);
    } else {
      var j :| 0 <= j < |s.procs| && AboutToWriteSubs(s.procs[j], u, a);
      if j != i { assert AboutToWriteSubs(t.procs[j], u, a); }
    }
  }

  lemma SubsStepKeepsHeld(s: State, t: State, i: nat, q: Proc)
    requires Valid(s.db) && HeldSubsCovered(s) && GoroutineStep(s, t, i, q)
    ensures HeldSubsCovered(t)
  {
    forall j, a, u | 0 <= j < |t.procs| && HoldsSubs(t.procs[j], a) && OwnsSubLock(t, j, a)
                     && !AgreeOn(t, t.procs[j].subsPhase.v, u, a)
      ensures SubsOwed(t, u, a)
    {
      SubscribersMeaning(s.db.friends, a);
      HeldSubsStillCovered(s, t, i, q, j, a, u);
    }
  }

  /** `j` owns the lock of a's subscribers, so it is not `i` that has just queried them under it. */
  lemma HeldSubsStillCovered(s: State, t: State, i: nat, q: Proc, j: nat, a: UserId, u: UserId)
    requires HeldSubsCovered(s) && GoroutineStep(s, t, i, q)
    requires forall x :: x in Subscribers(s.db.friends, a) <==> Follows(s.db, x, a)
    requires j < |t.procs| && HoldsSubs(t.procs[j], a) && OwnsSubLock(t, j, a)
    requires !AgreeOn(t, t.procs[j].subsPhase.v, u, a)
    ensures SubsOwed(t, u, a)
  {
    assert t.procs[i] == q && !AgreeOn(s, t.procs[j].subsPhase.v, u, a);
    if (u, a) !in t.damage.pairs {
      assert HoldsSubs(s.procs[j], a) && s.procs[j].subsPhase.v == t.procs[j].subsPhase.v && OwnsSubLock(s, j, a);
      assert !SubsQueriedFor(s, i, q, u, a);
      SubsOwedKept(s, t, i, q, u, a);
    }
  }

  lemma FeedStepKeepsCached(s: State, t: State, i: nat, q: Proc)
    requires CachedFeedsCovered(s) && HeldFeedsCovered(s) && Moved(s, t, i, q)
    requires FeedStep(s, t, i, s.procs[i], q)
    requires forall u :: FeedOwed(s, u) ==> FeedOwed(t, u) || Refreshes(s, i, s.procs[i], q, u)
    ensures CachedFeedsCovered(t)
  {
    forall u | u in t.feeds && t.feeds[u] != FeedOf(t, u)
      ensures FeedOwed(t, u) || FeedWriteDue(t, u)
    {
      CachedFeedStillCovered(s, t, i, q, u);
    }
  }

  lemma CachedFeedStillCovered(s: State, t: State, i: nat, q: Proc, u: UserId)
    requires CachedFeedsCovered(s) && HeldFeedsCovered(s) && Moved(s, t, i, q)
    requires FeedStep(s, t, i, s.procs[i], q)
    requires FeedOwed(s, u) ==> FeedOwed(t, u) || Refreshes(s, i, s.procs[i], q, u)
    requires u in t.feeds && t.feeds[u] != FeedOf(t, u)
    ensures FeedOwed(t, u) || FeedWriteDue(t, u)
  {
    assert t.procs[i] == q && FeedOf(t, u) == FeedOf(s, u);
    if Refreshes(s, i, s.procs[i], q, u) {
      assert AboutToWriteFeed(t.procs[i], u);
    } else if !FeedOwed(s, u) && u !in t.damage.feeds && !SavesFeed(s, t, i, s.procs[i], u) {
      var j :| 0 <= j < |s.procs| && AboutToWriteFeed(s.procs[j], u);
      assert AboutToWriteFeed(t.procs[j], u);
    }
  }

  lemma FeedStepKeepsHeld(s: State, t: State, i: nat, q: Proc)
    requires HeldFeedsCovered(s) && GoroutineStep(s, t, i, q)
    requires forall u :: FeedOwed(s, u) ==> FeedOwed(t, u) || Refreshes(s, i, s.procs[i], q, u)
    ensures HeldFeedsCovered(t)
  {
    forall j, u | 0 <= j < |t.procs| && HoldsFeed(t.procs[j], u) && OwnsFeedLock(t, j, u)
                  && t.procs[j].feedPhase.v != FeedOf(t, u)
      ensures FeedOwed(t, u)
    {
      assert t.procs[i] == q && FeedOf(t, u) == FeedOf(s, u);
      if u !in t.damage.feeds {
        assert HoldsFeed(s.procs[j], u) && OwnsFeedLock(s, j, u) && s.procs[j].feedPhase.v == t.procs[j].feedPhase.v;
      }
    }
  }

  lemma GoroutineStepKeepsInv(s: State, t: State, i: nat, q: Proc)
    requires Inv(s) && GoroutineStep(s, t, i, q)
    ensures Inv(t)
  {
    LockStepKeepsLocks(s, t, i, q);
    SubsStepKeepsCached(s, t, i, q);
    SubsStepKeepsHeld(s, t, i, q);
    forall u | FeedOwed(s, u) ensures FeedOwed(t, u) || Refreshes(s, i, s.procs[i], q, u) {
      FeedOwedKept(s, t, i, q, u);
    }
    FeedStepKeepsCached(s, t, i, q);
    FeedStepKeepsHeld(s, t, i, q);
  }

  // ---------------------------------------------------------------- the other steps

  /** Nobody moved: less may be cached or locked, more may be pending or damaged, the database may be another. */
  ghost predicate NobodyMoved(s: State, t: State) {
    && t.procs == s.procs && t.workers == s.workers && t.maxLength == s.maxLength
    && t.damage.lists == s.damage.lists
    && (forall k :: k in t.subs ==> k in s.subs && t.subs[k] == s.subs[k])
    && (forall k :: k in t.feeds ==> k in s.feeds && t.feeds[k] == s.feeds[k])
    && (forall k :: k in t.subLocks ==> k in s.subLocks && t.subLocks[k] == s.subLocks[k])
    && (forall k :: k in t.feedLocks ==> k in s.feedLocks && t.feedLocks[k] == s.feedLocks[k])
  }

  lemma NobodyMovedKeepsInv(s: State, t: State)
    requires Inv(s) && Valid(t.db) && NobodyMoved(s, t)
    requires forall u, a :: SubsOwed(s, u, a) ==> SubsOwed(t, u, a)
    requires forall u, a :: Follows(t.db, u, a) == Follows(s.db, u, a) || SubsOwed(t, u, a)
    requires forall u :: FeedOwed(s, u) ==> FeedOwed(t, u)
    requires forall u :: FeedOf(t, u) == FeedOf(s, u) || FeedOwed(t, u)
    ensures Inv(t)
  {
    NobodyMovedKeepsSubs(s, t);
    NobodyMovedKeepsFeeds(s, t);
  }

  lemma NobodyMovedKeepsSubs(s: State, t: State)
    requires CachedSubsCovered(s) && HeldSubsCovered(s) && NobodyMoved(s, t)
    requires forall u, a :: SubsOwed(s, u, a) ==> SubsOwed(t, u, a)
    requires forall u, a :: Follows(t.db, u, a) == Follows(s.db, u, a) || SubsOwed(t, u, a)
    ensures CachedSubsCovered(t) && HeldSubsCovered(t)
  {
    assert forall u, a :: SubsWriteDue(s, u, a) ==> SubsWriteDue(t, u, a);
  }

  lemma NobodyMovedKeepsFeeds(s: State, t: State)
    requires CachedFeedsCovered(s) && HeldFeedsCovered(s) && NobodyMoved(s, t)
    requires forall u :: FeedOwed(s, u) ==> FeedOwed(t, u)
    requires forall u :: FeedOf(t, u) == FeedOf(s, u) || FeedOwed(t, u)
    ensures CachedFeedsCovered(t) && HeldFeedsCovered(t)
  {
    forall u | u in t.feeds && t.feeds[u] != FeedOf(t, u) ensures FeedOwed(t, u) || FeedWriteDue(t, u) {
      assert FeedWriteDue(s, u) ==> FeedWriteDue(t, u);
    }
    forall i, u | 0 <= i < |t.procs| && HoldsFeed(t.procs[i], u) && OwnsFeedLock(t, i, u)
      ensures t.procs[i].feedPhase.v == FeedOf(t, u) || FeedOwed(t, u)
    {
      assert OwnsFeedLock(s, i, u);
    }
  }

  lemma SubsOwedCarried(s: State, t: State, u: UserId, a: UserId)
    requires s.procs == t.procs && SubsOwed(s, u, a)
    requires UpdateFriend(u, a) in s.pending ==> UpdateFriend(u, a) in t.pending || (u, a) in t.damage.pairs
    requires s.damage.pairs <= t.damage.pairs
    ensures SubsOwed(t, u, a)
  {
  }

  lemma FeedOwedCarried(s: State, t: State, u: UserId)
    requires s.procs == t.procs && FeedOwed(s, u)
    requires forall task :: task in s.pending && TaskRefreshes(task, s.db, u) ==> task in t.pending || FeedSpoilt(t, u)
    requires forall a :: Follows(s.db, u, a) ==> Follows(t.db, u, a)
    requires s.damage.pairs <= t.damage.pairs && s.damage.feeds <= t.damage.feeds
    ensures FeedOwed(t, u)
  {
    if FeedSpoilt(s, u) {
      assert FeedSpoilt(t, u);
    } else if task :| task in s.pending && TaskRefreshes(task, s.db, u) {
      assert TaskRefreshes(task, t.db, u);
    } else {
      var j :| 0 <= j < |s.procs| && WillQueryFeed(s.procs[j], s.db, u);
      assert WillQueryFeed(t.procs[j], t.db, u);
    }
  }

  lemma LossSpoils(s: State, task: Task, u: UserId)
    requires task in s.pending
    ensures FeedSpoilt(Apply(s, Lose(task)), u) <==> FeedSpoilt(s, u) || TaskRefreshes(task, s.db, u)
  {
    var t := Apply(s, Lose(task));
    match task
    case UpdateFriend(user, friend) =>
      assert (user, friend) in t.damage.pairs;
      if a :| (u, a) in s.damage.pairs { assert (u, a) in t.damage.pairs; }
    case UpdateFeed(author) =>
      assert u in Followers(s.db, author) <==> FriendRow(u, author) in s.db.friends by {
        if FriendRow(u, author) in s.db.friends { assert FriendRow(u, author).user == u; }
      }
      if a :| (u, a) in s.damage.pairs { assert (u, a) in t.damage.pairs; }
    case InvalidateAll =>
  }

  /** A lost notification is on the account of exactly those it would have refreshed. */
  lemma LossIsDamage(s: State, task: Task)
    requires task in s.pending
    ensures var t := Apply(s, Lose(task));
      && s.damage.pairs <= t.damage.pairs && s.damage.feeds <= t.damage.feeds
      && (forall u, a :: UpdateFriend(u, a) in s.pending ==>
           UpdateFriend(u, a) in t.pending || (u, a) in t.damage.pairs)
      && (forall u, x :: x in s.pending && TaskRefreshes(x, s.db, u) ==> x in t.pending || FeedSpoilt(t, u))
    ensures forall u :: FeedSpoilt(Apply(s, Lose(task)), u) <==> FeedSpoilt(s, u) || TaskRefreshes(task, s.db, u)
  {
    var t := Apply(s, Lose(task));
    forall u | true ensures FeedSpoilt(t, u) <==> FeedSpoilt(s, u) || TaskRefreshes(task, s.db, u) {
      LossSpoils(s, task, u);
    }
    assert forall x :: x in s.pending && x != task ==> x in t.pending;
  }

  /** Evictions, expiries, losses and new or repeated notifications. */
  lemma SmallStepKeepsInv(s: State, t: State)
    requires Inv(s) && NobodyMoved(s, t) && t.db == s.db
    requires s.damage.pairs <= t.damage.pairs && s.damage.feeds <= t.damage.feeds
    requires forall u, a :: UpdateFriend(u, a) in s.pending ==>
      UpdateFriend(u, a) in t.pending || (u, a) in t.damage.pairs
    requires forall u, x :: x in s.pending && TaskRefreshes(x, s.db, u) ==> x in t.pending || FeedSpoilt(t, u)
    ensures Inv(t)
  {
    forall u, a | SubsOwed(s, u, a) ensures SubsOwed(t, u, a) { SubsOwedCarried(s, t, u, a); }
    forall u | FeedOwed(s, u) ensures FeedOwed(t, u) { FeedOwedCarried(s, t, u); }
    assert forall u :: FeedOf(t, u) == FeedOf(s, u);
    NobodyMovedKeepsInv(s, t);
  }

  /** A write makes a feed stale only together with a pending notification that refreshes it. */
  lemma WriteKeepsFeedsCovered(s: State, w: Write, u: UserId)
    requires Valid(s.db) && Execute(s.db, w).Success?
    ensures var t := Apply(s, DoWrite(w));
      && (FeedOwed(s, u) ==> FeedOwed(t, u))
      && (FeedOf(t, u) == FeedOf(s, u) || FeedQueryDue(t, u))
  {
    var t := Apply(s, DoWrite(w));
    WriteFrame(s.db, w, u);
    assert TaskOf(w) in t.pending;
    if TaskRefreshes(TaskOf(w), t.db, u) {
      assert FeedQueryDue(t, u);
    } else {
      if FeedOwed(s, u) { FeedOwedCarried(s, t, u); }
    }
  }

  /** A friend write leaves a subscriber list wrong only about its own pair. */
  lemma WriteKeepsSubsCovered(s: State, w: Write, u: UserId, a: UserId)
    requires Valid(s.db) && Execute(s.db, w).Success?
    ensures var t := Apply(s, DoWrite(w));
      && (SubsOwed(s, u, a) ==> SubsOwed(t, u, a))
      && (Follows(t.db, u, a) == Follows(s.db, u, a) || SubsQueryDue(t, u, a))
  {
    var t := Apply(s, DoWrite(w));
    WriteFrame(s.db, w, u);
    if SubsOwed(s, u, a) { SubsOwedCarried(s, t, u, a); }
  }

  lemma WriteKeepsInv(s: State, w: Write)
    requires Inv(s)
    ensures Inv(Apply(s, DoWrite(w)))
  {
    if Execute(s.db, w).Success? {
      var t := Apply(s, DoWrite(w));
      ExecuteKeepsKeys(s.db, w);
      forall u | true
        ensures FeedOwed(s, u) ==> FeedOwed(t, u)
        ensures FeedOf(t, u) == FeedOf(s, u) || FeedOwed(t, u)
      {
        WriteKeepsFeedsCovered(s, w, u);
      }
      forall u, a | true
        ensures SubsOwed(s, u, a) ==> SubsOwed(t, u, a)
        ensures Follows(t.db, u, a) == Follows(s.db, u, a) || SubsOwed(t, u, a)
      {
        WriteKeepsSubsCovered(s, w, u, a);
      }
      NobodyMovedKeepsInv(s, t);
    }
  }

  /** An idle goroutine takes up work; what a taken notification covered, its worker covers. */
  ghost predicate Starts(s: State, t: State, i: nat, q: Proc) {
    && i < |s.procs| && s.procs[i].Idle? && SubsKey(q).None? && FeedKey(q).None? && (i >= s.workers ==> ReaderProc(q))
    && t == s.(procs := s.procs[i := q], pending := t.pending)
    && forall task :: task in s.pending ==> task in t.pending || q == StartTask(task)
  }

  lemma StartKeepsInv(s: State, t: State, i: nat, q: Proc)
    requires Inv(s) && Starts(s, t, i, q)
    ensures Inv(t)
  {
    forall u, a | SubsOwed(s, u, a) ensures SubsOwed(t, u, a) {
      StartKeepsSubsOwed(s, t, i, q, u, a);
    }
    forall u | FeedOwed(s, u) ensures FeedOwed(t, u) {
      StartKeepsFeedOwed(s, t, i, q, u);
    }
    StartCarriesInv(s, t, i, q);
  }

  lemma StartKeepsSubsOwed(s: State, t: State, i: nat, q: Proc, u: UserId, a: UserId)
    requires Starts(s, t, i, q) && SubsOwed(s, u, a)
    ensures SubsOwed(t, u, a)
  {
    if (u, a) in s.damage.pairs {
    } else if UpdateFriend(u, a) in s.pending {
      assert UpdateFriend(u, a) in t.pending || BeforeSubsQuery(t.procs[i], u, a);
    } else {
      var j :| 0 <= j < |s.procs| && BeforeSubsQuery(s.procs[j], u, a);
      assert BeforeSubsQuery(t.procs[j], u, a);
    }
  }

  lemma StartKeepsFeedOwed(s: State, t: State, i: nat, q: Proc, u: UserId)
    requires Starts(s, t, i, q) && FeedOwed(s, u)
    ensures FeedOwed(t, u)
  {
    if FeedSpoilt(s, u) {
      assert FeedSpoilt(t, u);
    } else if task :| task in s.pending && TaskRefreshes(task, s.db, u) {
      if task !in t.pending { assert WillQueryFeed(t.procs[i], t.db, u); }
    } else {
      var j :| 0 <= j < |s.procs| && WillQueryFeed(s.procs[j], s.db, u);
      assert WillQueryFeed(t.procs[j], t.db, u);
    }
  }

  lemma StartCarriesInv(s: State, t: State, i: nat, q: Proc)
    requires Inv(s) && Starts(s, t, i, q)
    requires forall u, a :: SubsOwed(s, u, a) ==> SubsOwed(t, u, a)
    requires forall u :: FeedOwed(s, u) ==> FeedOwed(t, u)
    ensures Inv(t)
  {
    StartKeepsWritesDue(s, t, i, q);
    StartKeepsSubsCovered(s, t, i, q);
    StartKeepsFeedsCovered(s, t, i, q);
  }

  lemma StartKeepsSubsCovered(s: State, t: State, i: nat, q: Proc)
    requires CachedSubsCovered(s) && HeldSubsCovered(s) && Starts(s, t, i, q)
    requires forall u, a :: SubsOwed(s, u, a) ==> SubsOwed(t, u, a)
    requires forall u, a :: SubsWriteDue(s, u, a) ==> SubsWriteDue(t, u, a)
    ensures CachedSubsCovered(t) && HeldSubsCovered(t)
  {
    assert forall j :: 0 <= j < |s.procs| && j != i ==> t.procs[j] == s.procs[j];
    assert t.procs[i] == q;
  }

  lemma StartKeepsFeedsCovered(s: State, t: State, i: nat, q: Proc)
    requires CachedFeedsCovered(s) && HeldFeedsCovered(s) && Starts(s, t, i, q)
    requires forall u :: FeedOwed(s, u) ==> FeedOwed(t, u)
    requires forall u :: FeedWriteDue(s, u) ==> FeedWriteDue(t, u)
    ensures CachedFeedsCovered(t) && HeldFeedsCovered(t)
  {
    forall u | u in t.feeds && t.feeds[u] != FeedOf(t, u) ensures FeedOwed(t, u) || FeedWriteDue(t, u) {
      assert FeedOf(t, u) == FeedOf(s, u);
    }
    forall j, u | 0 <= j < |t.procs| && HoldsFeed(t.procs[j], u) && OwnsFeedLock(t, j, u)
      ensures t.procs[j].feedPhase.v == FeedOf(t, u) || FeedOwed(t, u)
    {
      assert j != i && FeedOf(t, u) == FeedOf(s, u);
    }
  }

  lemma StartKeepsWritesDue(s: State, t: State, i: nat, q: Proc)
    requires Starts(s, t, i, q)
    ensures forall u, a :: SubsWriteDue(s, u, a) ==> SubsWriteDue(t, u, a)
    ensures forall u :: FeedWriteDue(s, u) ==> FeedWriteDue(t, u)
  {
    forall u, a | SubsWriteDue(s, u, a) ensures SubsWriteDue(t, u, a) {
      var j :| 0 <= j < |s.procs| && AboutToWriteSubs(s.procs[j], u, a);
      assert AboutToWriteSubs(t.procs[j], u, a);
    }
    forall u | FeedWriteDue(s, u) ensures FeedWriteDue(t, u) {
      var j :| 0 <= j < |s.procs| && AboutToWriteFeed(s.procs[j], u);
      assert AboutToWriteFeed(t.procs[j], u);
    }
  }

  lemma AdvanceKeepsInv(s: State, i: nat)
    requires Inv(s) && i < |s.procs| && CanAdvance(s, s.procs[i])
    ensures Inv(AdvanceProc(s, i))
  {
    AdvanceIsGoroutineStep(s, i);
    GoroutineStepKeepsInv(s, AdvanceProc(s, i), i, AdvanceProc(s, i).procs[i]);
  }

  lemma FailureKeepsInv(s: State, i: nat)
    requires Inv(s) && i < |s.procs| && CanFail(s.procs[i])
    ensures Inv(FailProc(s, i))
  {
    FailureIsGoroutineStep(s, i);
    GoroutineStepKeepsInv(s, FailProc(s, i), i, FailProc(s, i).procs[i]);
  }

  lemma CutKeepsInv(s: State, i: nat, rows: nat)
    requires Inv(s) && i < |s.procs| && CanBeCut(s, s.procs[i], rows)
    ensures Inv(CutProc(s, i, rows))
  {
    CutIsGoroutineStep(s, i, rows);
    GoroutineStepKeepsInv(s, CutProc(s, i, rows), i, CutProc(s, i, rows).procs[i]);
  }

  lemma LossKeepsInv(s: State, task: Task)
    requires Inv(s) && task in s.pending
    ensures Inv(Apply(s, Lose(task)))
  {
    LossIsDamage(s, task);
    SmallStepKeepsInv(s, Apply(s, Lose(task)));
  }

  /** New or repeated notifications, evictions and expired locks. */
  predicate Minor(step: Step) {
    || step.RequestFlush? || step.Redeliver? || step.EvictSubs? || step.EvictFeed?
    || step.ExpireSubLock? || step.ExpireFeedLock?
  }

  lemma MinorStepKeepsInv(s: State, step: Step)
    requires Inv(s) && Enabled(s, step) && Minor(step)
    ensures Inv(Apply(s, step))
  {
    SmallStepKeepsInv(s, Apply(s, step));
  }

  lemma TakeKeepsInv(s: State, i: nat, task: Task)
    requires Inv(s) && Enabled(s, Take(i, task))
    ensures Inv(Apply(s, Take(i, task)))
  {
    StartKeepsInv(s, Apply(s, Take(i, task)), i, StartTask(task));
  }

  lemma ServeKeepsInv(s: State, i: nat, user: UserId)
    requires Inv(s) && Enabled(s, Serve(i, user))
    ensures Inv(Apply(s, Serve(i, user)))
  {
    StartKeepsInv(s, Apply(s, Serve(i, user)), i, LookupFeed(user));
  }

  /** Every step of every goroutine, every write and everything that goes wrong keeps the invariant. */
  lemma StepKeepsInv(s: State, step: Step)
    requires Inv(s) && Enabled(s, step)
    ensures Inv(Apply(s, step))
  {
    match step
    case DoWrite(w) => WriteKeepsInv(s, w);
    case Take(i, task) => TakeKeepsInv(s, i, task);
    case Serve(i, user) => ServeKeepsInv(s, i, user);
    case Advance(i) => AdvanceKeepsInv(s, i);
    case Fail(i) => FailureKeepsInv(s, i);
    case CutShort(i, rows) => CutKeepsInv(s, i, rows);
    case Lose(task) => LossKeepsInv(s, task);
    case _ => MinorStepKeepsInv(s, step);
  }

  lemma {:induction false} RunKeepsInv(s: State, steps: seq<Step>, t: State)
    requires Inv(s) && Leads(s, steps, t)
    ensures Inv(t)
    decreases |steps|
  {
    if steps != [] {
      StepKeepsInv(s, steps[0]);
      RunKeepsInv(Apply(s, steps[0]), steps[1..], t);
    }
  }

  // ---------------------------------------------------------------- runs in which nothing goes wrong

  /** Every goroutine inside a Load still owns the lock it took. */
  ghost predicate LocksHeld(s: State) {
    && (forall i :: 0 <= i < |s.procs| && SubsKey(s.procs[i]).Some? ==> OwnsSubLock(s, i, SubsKey(s.procs[i]).value))
    && (forall i :: 0 <= i < |s.procs| && FeedKey(s.procs[i]).Some? ==> OwnsFeedLock(s, i, FeedKey(s.procs[i]).value))
  }

  ghost predicate Sound(s: State) {
    Locks(s) && LocksHeld(s) && s.damage == NONE
  }

  /**
   What can do damage: a lost notification, a worker that fails on the way to a feed, a query cut
   short, a held lock dropped.
   */
  predicate Fault(s: State, step: Step)
    requires Enabled(s, step)
  {
    match step
    case Lose(task) => task != InvalidateAll
    case Fail(i) => HasRefreshes(s.procs[i])
    case CutShort(_, _) => true
    case ExpireSubLock(key) => key in s.subLocks
    case ExpireFeedLock(key) => key in s.feedLocks
    case Advance(i) => DropsLocks(s, s.procs[i])
    case _ => false
  }

  /** A flush that meets a Load. */
  predicate DropsLocks(s: State, p: Proc) {
    (p.FlushSubs? && s.subLocks != map[]) || (p.FlushFeeds? && s.feedLocks != map[])
  }

  predicate HasRefreshes(p: Proc) {
    p.LookupSubs? || p.LoadSubs? || p.Publish? || (p.LoadFeed? && p.client.Worker?)
  }

  /** Nothing else counts as a fault: no write, eviction or redelivery, no failing reader, no lock that is free. */
  lemma OrdinaryStepsAreNoFaults(s: State, step: Step)
    requires Enabled(s, step)
    ensures step.DoWrite? || step.RequestFlush? || step.Redeliver? ==> !Fault(s, step)
    ensures step.EvictSubs? || step.EvictFeed? || step.Take? || step.Serve? || step == Lose(InvalidateAll) ==>
      !Fault(s, step)
    ensures step.Fail? && ReaderProc(s.procs[step.i]) ==> !Fault(s, step)
    ensures step.Advance? && !s.procs[step.i].FlushSubs? && !s.procs[step.i].FlushFeeds? ==> !Fault(s, step)
    ensures step.Advance? && s.subLocks == map[] && s.feedLocks == map[] ==> !Fault(s, step)
    ensures (step.ExpireSubLock? && step.key !in s.subLocks) || (step.ExpireFeedLock? && step.key !in s.feedLocks) ==>
      !Fault(s, step)
  {
  }

  ghost predicate FaultFree(s: State, steps: seq<Step>)
    decreases |steps|
  {
    steps != [] ==> Enabled(s, steps[0]) && !Fault(s, steps[0]) && FaultFree(Apply(s, steps[0]), steps[1..])
  }

  lemma LoadSubsKeepsSound(s: State, i: nat, a: UserId, cause: Cause, phase: Phase<seq<UserId>>)
    requires Sound(s) && i < |s.procs| && s.procs[i] == LoadSubs(a, cause, phase) && CanAdvance(s, s.procs[i])
    ensures LocksHeld(AdvanceLoadSubs(s, i, a, cause, phase)) && AdvanceLoadSubs(s, i, a, cause, phase).damage == NONE
  {
    assert SubsKey(s.procs[i]).Some? ==> OwnsSubLock(s, i, a);
  }

  lemma LoadFeedKeepsSound(s: State, i: nat, u: UserId, client: Client, phase: Phase<Feed>)
    requires Sound(s) && i < |s.procs| && s.procs[i] == LoadFeed(u, client, phase) && CanAdvance(s, s.procs[i])
    ensures LocksHeld(AdvanceLoadFeed(s, i, u, client, phase)) && AdvanceLoadFeed(s, i, u, client, phase).damage == NONE
  {
    assert FeedKey(s.procs[i]).Some? ==> OwnsFeedLock(s, i, u);
  }

  lemma FlushKeepsSound(s: State, i: nat)
    requires Sound(s) && i < |s.procs| && (s.procs[i].FlushSubs? || s.procs[i].FlushFeeds?)
    requires !DropsLocks(s, s.procs[i])
    ensures LocksHeld(AdvanceProc(s, i)) && AdvanceProc(s, i).damage == NONE
  {
  }

  lemma LookupKeepsSound(s: State, i: nat)
    requires Sound(s) && i < |s.procs| && (s.procs[i].LookupSubs? || s.procs[i].LookupFeed?)
    ensures LocksHeld(AdvanceProc(s, i)) && AdvanceProc(s, i).damage == NONE
  {
  }

  lemma PublishKeepsSound(s: State, i: nat)
    requires Sound(s) && i < |s.procs| && s.procs[i].Publish?
    ensures LocksHeld(AdvanceProc(s, i)) && AdvanceProc(s, i).damage == NONE
  {
  }

  lemma FailureKeepsSound(s: State, i: nat)
    requires Sound(s) && i < |s.procs| && CanFail(s.procs[i]) && !HasRefreshes(s.procs[i])
    ensures LocksHeld(FailProc(s, i)) && FailProc(s, i).damage == NONE
  {
  }

  lemma StepKeepsSound(s: State, step: Step)
    requires Inv(s) && Sound(s) && Enabled(s, step) && !Fault(s, step)
    ensures Sound(Apply(s, step))
  {
    StepKeepsInv(s, step);
    match step
    case Advance(i) => AdvanceKeepsSound(s, i);
    case Fail(i) => FailureKeepsSound(s, i);
    case Take(i, task) => StartKeepsSound(s, Apply(s, step), i, StartTask(task));
    case Serve(i, user) => StartKeepsSound(s, Apply(s, step), i, LookupFeed(user));
    case _ => EnvironmentKeepsSound(s, step);
  }

  lemma EnvironmentKeepsSound(s: State, step: Step)
    requires Sound(s) && Enabled(s, step) && !Fault(s, step)
    requires step.DoWrite? || step.Lose? || Minor(step)
    ensures LocksHeld(Apply(s, step)) && Apply(s, step).damage == NONE
  {
    match step
    case DoWrite(w) => if Execute(s.db, w).Success? { SameLocksHeld(s, Apply(s, step)); }
    case _ => SameLocksHeld(s, Apply(s, step));
  }

  lemma SameLocksHeld(s: State, t: State)
    requires LocksHeld(s) && t.procs == s.procs
    requires forall k :: k in s.subLocks ==> k in t.subLocks && t.subLocks[k] == s.subLocks[k]
    requires forall k :: k in s.feedLocks ==> k in t.feedLocks && t.feedLocks[k] == s.feedLocks[k]
    ensures LocksHeld(t)
  {
  }

  lemma AdvanceKeepsSound(s: State, i: nat)
    requires Sound(s) && i < |s.procs| && CanAdvance(s, s.procs[i]) && !DropsLocks(s, s.procs[i])
    ensures LocksHeld(AdvanceProc(s, i)) && AdvanceProc(s, i).damage == NONE
  {
    match s.procs[i]
    case LoadSubs(a, cause, phase) => LoadSubsKeepsSound(s, i, a, cause, phase);
    case LoadFeed(u, client, phase) => LoadFeedKeepsSound(s, i, u, client, phase);
    case FlushSubs => FlushKeepsSound(s, i);
    case FlushFeeds => FlushKeepsSound(s, i);
    case Publish(_, _, _) => PublishKeepsSound(s, i);
    case _ => LookupKeepsSound(s, i);
  }

  lemma StartKeepsSound(s: State, t: State, i: nat, q: Proc)
    requires Sound(s) && Starts(s, t, i, q)
    ensures LocksHeld(t)
  {
    assert forall j :: 0 <= j < |s.procs| && j != i ==> t.procs[j] == s.procs[j];
    assert t.procs[i] == q;
  }

  lemma {:induction false} FaultFreeRunIsSound(s: State, steps: seq<Step>, t: State)
    requires Inv(s) && Sound(s) && Leads(s, steps, t) && FaultFree(s, steps)
    ensures Inv(t) && Sound(t)
    decreases |steps|
  {
    if steps != [] {
      StepKeepsInv(s, steps[0]);
      StepKeepsSound(s, steps[0]);
      FaultFreeRunIsSound(Apply(s, steps[0]), steps[1..], t);
    }
  }

  // ---------------------------------------------------------------- main results

  /** No notification is outstanding and no worker is at work; readers may be. */
  ghost predicate Drained(s: State) {
    && s.pending == multiset{}
    && forall i :: 0 <= i < s.workers && i < |s.procs| ==> s.procs[i].Idle?
  }

  /** Nothing is under way at all. */
  ghost predicate AtRest(s: State) {
    s.pending == multiset{} && forall i :: 0 <= i < |s.procs| ==> s.procs[i].Idle?
  }

  /** Every cached feed is the query, except where damage has not been repaired. */
  ghost predicate FeedsCurrent(s: State) {
    forall u :: u in s.feeds && !FeedSpoilt(s, u) ==> s.feeds[u] == FeedOf(s, u)
  }

  ghost predicate SubsCurrent(s: State) {
    forall a, u :: a in s.subs && a !in s.damage.lists && (u, a) !in s.damage.pairs ==>
      (u in s.subs[a] <==> Follows(s.db, u, a))
  }

  /**
   Bounded staleness, for any number of workers and readers and every interleaving of their
   steps with writes, evictions, redeliveries and flushes, lost notifications, failing
   accesses, queries cut short and expiring locks: a cached feed differs from the query only
   while a notification or a worker will still query it again, while a worker is about to
   overwrite it, or after damage to it that no worker has repaired.  The same holds of a feed
   that was read under a lock still held.  A cached subscriber list is wrong about u only
   while u's own notification is under way, or after it was lost or u was cut off, or if the
   list was cached without its lock.
   */
  lemma StaleOnlyWhileCovered(start: State, steps: seq<Step>, s: State)
    requires Initial(start) && Leads(start, steps, s)
    ensures forall u :: u in s.feeds && s.feeds[u] != FeedOf(s, u) ==>
      FeedQueryDue(s, u) || FeedWriteDue(s, u) || FeedSpoilt(s, u)
    ensures forall i, u :: 0 <= i < |s.procs| && HoldsFeed(s.procs[i], u) && OwnsFeedLock(s, i, u) ==>
      s.procs[i].feedPhase.v == FeedOf(s, u) || FeedQueryDue(s, u) || FeedSpoilt(s, u)
    ensures forall a, u :: a in s.subs && a !in s.damage.lists && (u in s.subs[a]) != Follows(s.db, u, a) ==>
      SubsQueryDue(s, u, a) || SubsWriteDue(s, u, a) || (u, a) in s.damage.pairs
  {
    InitialInv(start);
    RunKeepsInv(start, steps, s);
  }

  /**
   Eventual coherence: once the notifications have been worked off, everything cached that
   is not damaged is what the database says, even while readers are still at work.
   */
  lemma CoherentWhenDrained(start: State, steps: seq<Step>, s: State)
    requires Initial(start) && Leads(start, steps, s)
    requires Drained(s)
    ensures SubsCurrent(s) && FeedsCurrent(s)
    ensures forall i, u :: 0 <= i < |s.procs| && HoldsFeed(s.procs[i], u) && OwnsFeedLock(s, i, u) ==>
      s.procs[i].feedPhase.v == FeedOf(s, u) || FeedSpoilt(s, u)
  {
    InitialInv(start);
    RunKeepsInv(start, steps, s);
    DrainedIsCoherent(s);
  }

  lemma DrainedIsCoherent(s: State)
    requires Inv(s) && Drained(s)
    ensures SubsCurrent(s) && FeedsCurrent(s)
    ensures forall i, u :: 0 <= i < |s.procs| && HoldsFeed(s.procs[i], u) && OwnsFeedLock(s, i, u) ==>
      s.procs[i].feedPhase.v == FeedOf(s, u) || FeedSpoilt(s, u)
  {
    assert forall u :: !FeedQueryDue(s, u) && !FeedWriteDue(s, u);
    assert forall u, a :: !SubsQueryDue(s, u, a) && !SubsWriteDue(s, u, a);
    forall a, u | a in s.subs && a !in s.damage.lists && (u, a) !in s.damage.pairs
      ensures u in s.subs[a] <==> Follows(s.db, u, a)
    {
      assert AgreeOn(s, s.subs[a], u, a);
    }
  }

  /** Without faults there is no damage, so the two results above hold of every entry. */
  lemma NoDamageWithoutFaults(start: State, steps: seq<Step>, s: State)
    requires Initial(start) && Leads(start, steps, s) && FaultFree(start, steps)
    ensures s.damage == NONE && LocksHeld(s)
    ensures Drained(s) ==>
      && (forall u :: u in s.feeds ==> s.feeds[u] == FeedOf(s, u))
      && (forall a, u :: a in s.subs ==> (u in s.subs[a] <==> Follows(s.db, u, a)))
  {
    InitialInv(start);
    FaultFreeRunIsSound(start, steps, s);
    if Drained(s) { DrainedIsCoherent(s); }
  }

  /** Without faults no two goroutines are inside a Load of one key. */
  lemma LoadsAreExclusive(start: State, steps: seq<Step>, s: State, i: nat, j: nat)
    requires Initial(start) && Leads(start, steps, s) && FaultFree(start, steps)
    requires i < j < |s.procs|
    ensures SubsKey(s.procs[i]).Some? ==> SubsKey(s.procs[i]) != SubsKey(s.procs[j])
    ensures FeedKey(s.procs[i]).Some? ==> FeedKey(s.procs[i]) != FeedKey(s.procs[j])
  {
    NoDamageWithoutFaults(start, steps, s);
  }
}
