/**
 What the WebSocket clients see.  With one worker the feed last published to a user is, once
 the notifications have been worked off, that user's current feed.  With more it
 need not be: a feed is published after its lock is released, so two workers can publish in
 the order opposite to that of their queries.
 */
module Publishing {
  import opened Wrappers
  import opened Users
  import opened Ordering
  import opened SocialDb
  import opened Protocol
  import opened Obligations
  import opened GoroutineSteps
  import opened Coherence
  import opened Schedules

  ghost predicate PublicationDue(s: State, u: UserId) {
    exists i :: 0 <= i < |s.procs| && Unpublished(s.procs[i], u)
  }

  ghost predicate PublishedCovered(s: State) {
    forall u :: u in s.published && s.published[u] != FeedOf(s, u) ==>
      FeedOwed(s, u) || PublicationDue(s, u) || u in s.damage.muted
  }

  ghost predicate UnpublishedCovered(s: State) {
    forall i, u :: 0 <= i < |s.procs| && Unpublished(s.procs[i], u) ==>
      UnpublishedFeed(s.procs[i]) == FeedOf(s, u) || FeedOwed(s, u)
  }

  ghost predicate PushInv(s: State) {
    Inv(s) && s.workers <= 1 && PublishedCovered(s) && UnpublishedCovered(s)
  }

  /** Only the one worker, goroutine 0, ever has a feed to publish or runs a due query. */
  lemma OnlyTheWorkerPublishes(s: State, i: nat, u: UserId)
    requires Roles(s) && s.workers <= 1 && i < |s.procs|
    requires Unpublished(s.procs[i], u) || exists q :: RunsFeedQuery(s.procs[i], q, u)
    ensures i == 0
  {
    assert i >= s.workers ==> ReaderProc(s.procs[i]);
  }

  lemma GoroutineStepKeepsUnpublished(s: State, t: State, i: nat, q: Proc)
    requires PushInv(s) && GoroutineStep(s, t, i, q)
    ensures UnpublishedCovered(t)
  {
    assert t.procs[i] == q;
    forall j, u | 0 <= j < |t.procs| && Unpublished(t.procs[j], u) && UnpublishedFeed(t.procs[j]) != FeedOf(t, u)
      ensures FeedOwed(t, u)
    {
      assert FeedOf(t, u) == FeedOf(s, u);
      if u !in t.damage.feeds {
        assert Unpublished(s.procs[j], u) && UnpublishedFeed(s.procs[j]) == UnpublishedFeed(t.procs[j]);
        OnlyTheWorkerPublishes(s, j, u);
        if RunsFeedQuery(s.procs[i], q, u) { OnlyTheWorkerPublishes(s, i, u); }
        FeedOwedKept(s, t, i, q, u);
      }
    }
  }

  lemma GoroutineStepKeepsPublished(s: State, t: State, i: nat, q: Proc, u: UserId)
    requires CachedSubsCovered(s) && HeldSubsCovered(s) && PublishedCovered(s) && UnpublishedCovered(s)
    requires GoroutineStep(s, t, i, q)
    requires u in t.published && t.published[u] != FeedOf(t, u) && u !in t.damage.muted
    ensures FeedOwed(t, u) || PublicationDue(t, u)
  {
    var p := s.procs[i];
    assert FeedOf(t, u) == FeedOf(s, u);
    if FeedOwed(s, u) { FeedOwedKept(s, t, i, q, u); }
    if Unpublished(q, u) {
      assert Unpublished(t.procs[i], u);
    } else if Publishes(t, p, u) {
      assert Unpublished(p, u);
    } else if !FeedOwed(s, u) && u !in t.damage.feeds {
      var j :| 0 <= j < |s.procs| && Unpublished(s.procs[j], u);
      assert Unpublished(t.procs[j], u);
    }
  }

  lemma GoroutineStepKeepsPush(s: State, t: State, i: nat, q: Proc)
    requires PushInv(s) && GoroutineStep(s, t, i, q)
    ensures PushInv(t) && s.published.Keys <= t.published.Keys
  {
    GoroutineStepKeepsInv(s, t, i, q);
    GoroutineStepKeepsUnpublished(s, t, i, q);
    forall u | u in t.published && t.published[u] != FeedOf(t, u) && u !in t.damage.muted
      ensures FeedOwed(t, u) || PublicationDue(t, u)
    {
      GoroutineStepKeepsPublished(s, t, i, q, u);
    }
  }

  /** A step that moves no goroutine in the middle of a feed and takes no query off the list. */
  lemma OtherStepKeepsPush(s: State, t: State)
    requires PushInv(s) && Inv(t) && t.workers == s.workers && t.published == s.published
    requires t.damage.muted == s.damage.muted
    requires |t.procs| == |s.procs|
    requires forall i :: 0 <= i < |s.procs| && t.procs[i] != s.procs[i] ==>
      s.procs[i].Idle? && forall u :: !Unpublished(t.procs[i], u)
    requires forall u :: FeedOwed(s, u) ==> FeedOwed(t, u)
    requires forall u :: FeedOf(t, u) == FeedOf(s, u) || FeedOwed(t, u)
    ensures PushInv(t)
  {
    forall u | PublicationDue(s, u) ensures PublicationDue(t, u) {
      var j :| 0 <= j < |s.procs| && Unpublished(s.procs[j], u);
      assert Unpublished(t.procs[j], u);
    }
    forall j, u | 0 <= j < |t.procs| && Unpublished(t.procs[j], u)
      ensures UnpublishedFeed(t.procs[j]) == FeedOf(t, u) || FeedOwed(t, u)
    {
      assert Unpublished(s.procs[j], u);
    }
  }

  lemma WriteKeepsPush(s: State, w: Write)
    requires PushInv(s)
    ensures PushInv(Apply(s, DoWrite(w))) && s.published == Apply(s, DoWrite(w)).published
  {
    if Execute(s.db, w).Success? {
      var t := Apply(s, DoWrite(w));
      WriteKeepsInv(s, w);
      forall u | true
        ensures FeedOwed(s, u) ==> FeedOwed(t, u)
        ensures FeedOf(t, u) == FeedOf(s, u) || FeedOwed(t, u)
      {
        WriteKeepsFeedsCovered(s, w, u);
      }
      OtherStepKeepsPush(s, t);
    }
  }

  lemma LossKeepsPush(s: State, task: Task)
    requires PushInv(s) && task in s.pending
    ensures PushInv(Apply(s, Lose(task))) && s.published == Apply(s, Lose(task)).published
  {
    var t := Apply(s, Lose(task));
    LossKeepsInv(s, task);
    LossIsDamage(s, task);
    forall u | FeedOwed(s, u) ensures FeedOwed(t, u) { FeedOwedCarried(s, t, u); }
    assert forall u :: FeedOf(t, u) == FeedOf(s, u);
    OtherStepKeepsPush(s, t);
  }

  lemma MinorStepKeepsPush(s: State, step: Step)
    requires PushInv(s) && Enabled(s, step) && Minor(step)
    ensures PushInv(Apply(s, step)) && s.published == Apply(s, step).published
  {
    MinorStepKeepsInv(s, step);
    CarriedKeepsPush(s, Apply(s, step));
  }

  lemma CarriedKeepsPush(s: State, t: State)
    requires PushInv(s) && Inv(t) && t.db == s.db && t.procs == s.procs && t.maxLength == s.maxLength
    requires t.workers == s.workers && t.published == s.published && t.damage == s.damage && s.pending <= t.pending
    ensures PushInv(t)
  {
    forall u | FeedOwed(s, u) ensures FeedOwed(t, u) { FeedOwedCarried(s, t, u); }
    assert forall u :: FeedOf(t, u) == FeedOf(s, u);
    OtherStepKeepsPush(s, t);
  }

  lemma StartKeepsPush(s: State, t: State, i: nat, q: Proc)
    requires PushInv(s) && Starts(s, t, i, q) && forall u :: !Unpublished(q, u)
    ensures PushInv(t)
  {
    StartKeepsInv(s, t, i, q);
    forall u | true
      ensures FeedOwed(s, u) ==> FeedOwed(t, u)
      ensures FeedOf(t, u) == FeedOf(s, u)
    {
      if FeedOwed(s, u) { StartKeepsFeedOwed(s, t, i, q, u); }
    }
    OtherStepKeepsPush(s, t);
  }

  lemma TakeKeepsPush(s: State, i: nat, task: Task)
    requires PushInv(s) && Enabled(s, Take(i, task))
    ensures PushInv(Apply(s, Take(i, task))) && s.published == Apply(s, Take(i, task)).published
  {
    StartKeepsPush(s, Apply(s, Take(i, task)), i, StartTask(task));
  }

  lemma ServeKeepsPush(s: State, i: nat, user: UserId)
    requires PushInv(s) && Enabled(s, Serve(i, user))
    ensures PushInv(Apply(s, Serve(i, user))) && s.published == Apply(s, Serve(i, user)).published
  {
    StartKeepsPush(s, Apply(s, Serve(i, user)), i, LookupFeed(user));
  }

  lemma StepKeepsPush(s: State, step: Step)
    requires PushInv(s) && Enabled(s, step)
    ensures PushInv(Apply(s, step)) && s.published.Keys <= Apply(s, step).published.Keys
  {
    match step
    case Advance(i) => AdvanceKeepsPush(s, i);
    case Fail(i) => FailureKeepsPush(s, i);
    case CutShort(i, rows) => CutKeepsPush(s, i, rows);
    case Take(i, task) => TakeKeepsPush(s, i, task);
    case Serve(i, user) => ServeKeepsPush(s, i, user);
    case DoWrite(w) => WriteKeepsPush(s, w);
    case Lose(task) => LossKeepsPush(s, task);
    case _ => MinorStepKeepsPush(s, step);
  }

  lemma AdvanceKeepsPush(s: State, i: nat)
    requires PushInv(s) && i < |s.procs| && CanAdvance(s, s.procs[i])
    ensures PushInv(AdvanceProc(s, i)) && s.published.Keys <= AdvanceProc(s, i).published.Keys
  {
    AdvanceIsGoroutineStep(s, i);
    GoroutineStepKeepsPush(s, AdvanceProc(s, i), i, AdvanceProc(s, i).procs[i]);
  }

  lemma FailureKeepsPush(s: State, i: nat)
    requires PushInv(s) && i < |s.procs| && CanFail(s.procs[i])
    ensures PushInv(FailProc(s, i)) && s.published.Keys <= FailProc(s, i).published.Keys
  {
    FailureIsGoroutineStep(s, i);
    GoroutineStepKeepsPush(s, FailProc(s, i), i, FailProc(s, i).procs[i]);
  }

  lemma CutKeepsPush(s: State, i: nat, rows: nat)
    requires PushInv(s) && i < |s.procs| && CanBeCut(s, s.procs[i], rows)
    ensures PushInv(CutProc(s, i, rows)) && s.published.Keys <= CutProc(s, i, rows).published.Keys
  {
    CutIsGoroutineStep(s, i, rows);
    GoroutineStepKeepsPush(s, CutProc(s, i, rows), i, CutProc(s, i, rows).procs[i]);
  }

  lemma {:induction false} RunKeepsPush(s: State, steps: seq<Step>, t: State)
    requires PushInv(s) && Leads(s, steps, t)
    ensures PushInv(t) && s.published.Keys <= t.published.Keys
    decreases |steps|
  {
    if steps != [] {
      StepKeepsPush(s, steps[0]);
      RunKeepsPush(Apply(s, steps[0]), steps[1..], t);
    }
  }

  /**
   Push convergence: with a single worker, once the notifications have been worked off, the
   feed last published to a user is the feed query on the current database, whatever the
   order in which notifications were delivered, entries evicted and readers served, unless
   a refresh of hers was lost or the last publication to her failed.
   */
  lemma PublishedConverges(start: State, steps: seq<Step>, s: State)
    requires Initial(start) && start.workers <= 1 && Leads(start, steps, s)
    requires Drained(s)
    ensures start.published.Keys <= s.published.Keys
    ensures forall u :: u in s.published && !FeedSpoilt(s, u) && u !in s.damage.muted ==> s.published[u] == FeedOf(s, u)
  {
    InitialPush(start);
    RunKeepsPush(start, steps, s);
    DrainedIsPublished(s);
  }

  lemma InitialPush(s: State)
    requires Initial(s) && s.workers <= 1
    ensures PushInv(s)
  {
    InitialInv(s);
  }

  lemma DrainedIsPublished(s: State)
    requires PushInv(s) && Drained(s)
    ensures forall u :: u in s.published && !FeedSpoilt(s, u) && u !in s.damage.muted ==> s.published[u] == FeedOf(s, u)
  {
    forall u | u in s.published && !FeedSpoilt(s, u) && u !in s.damage.muted ensures s.published[u] == FeedOf(s, u) {
      NothingDue(s, u);
    }
  }

  lemma NothingDue(s: State, u: UserId)
    requires Roles(s) && s.workers <= 1 && Drained(s)
    ensures !FeedQueryDue(s, u) && !PublicationDue(s, u)
  {
    if i :| 0 <= i < |s.procs| && Unpublished(s.procs[i], u) {
      OnlyTheWorkerPublishes(s, i, u);
    }
  }

  // ---------------------------------------------------------------- several workers

  /** The author `a` writes, and the idle worker `i` takes the notification. */
  lemma WriteAndTake(s: State, i: nat, w: Write, db: Db, a: UserId) returns (steps: seq<Step>, t: State)
    requires i < s.workers && i < |s.procs| && s.procs[i].Idle? && s.pending == multiset{}
    requires Execute(s.db, w) == Success(db) && TaskOf(w) == UpdateFeed(a)
    ensures Leads(s, steps, t)
    ensures t == s.(db := db, procs := s.procs[i := LookupSubs(a)])
  {
    var s1 := Apply(s, DoWrite(w));
    t := Apply(s1, Take(i, UpdateFeed(a)));
    OneMore(s, [], s, DoWrite(w));
    OneMore(s, [] + [DoWrite(w)], s1, Take(i, UpdateFeed(a)));
    steps := [] + [DoWrite(w)] + [Take(i, UpdateFeed(a))];
  }

  /** The author `a` writes, and the idle worker `i` refreshes the feed of the one subscriber. */
  lemma WriteAndRefresh(s: State, i: nat, w: Write, db: Db, a: UserId, u: UserId) returns (steps: seq<Step>, t: State)
    requires i < s.workers && i < |s.procs| && s.procs[i].Idle? && s.pending == multiset{}
    requires Execute(s.db, w) == Success(db) && TaskOf(w) == UpdateFeed(a)
    requires a in s.subs && s.subs[a] == [u] && s.feedLocks == map[] && s.damage == NONE
    ensures Leads(s, steps, t)
    ensures var v := SelectFeed(db, u, s.maxLength, 0);
      t == s.(db := db, feeds := s.feeds[u := v], procs := s.procs[i := Publish(u, v, [])])
  {
    var take, s1 := WriteAndTake(s, i, w, db, a);
    var s2 := Goto(s1, i, LoadFeed(u, Worker([]), Wait));
    assert [u][1..] == [] && Apply(s1, Advance(i)) == s2;
    OneMore(s, take, s1, Advance(i));
    var load;
    load, t := LoadFeedIsSchedule(s2, i, u, []);
    assert NONE.feeds - {u} == NONE.feeds;
    LeadsOn(s, take + [Advance(i)], s2, load, t);
    steps := take + [Advance(i)] + load;
  }

  /** Workers 0 and 1 have feeds of `u` to publish, nobody else has anything to do. */
  ghost predicate TwoToPublish(s: State, u: UserId, v: Feed, w: Feed) {
    && 2 <= |s.procs| && s.procs[0] == Publish(u, v, []) && s.procs[1] == Publish(u, w, [])
    && s.pending == multiset{} && s.damage == NONE
    && forall i :: 2 <= i < |s.procs| ==> s.procs[i].Idle?
  }

  lemma PublishBoth(s: State, u: UserId, v: Feed, w: Feed) returns (steps: seq<Step>, t: State)
    requires TwoToPublish(s, u, v, w)
    ensures Leads(s, steps, t) && AtRest(t)
    ensures t.db == s.db && t.maxLength == s.maxLength && t.damage == NONE
    ensures u in t.published && t.published[u] == v
  {
    var s1 := Apply(s, Advance(1));
    t := Apply(s1, Advance(0));
    OneMore(s, [], s, Advance(1));
    OneMore(s, [] + [Advance(1)], s1, Advance(0));
    steps := [] + [Advance(1)] + [Advance(0)];
  }

  /** Worker 0 refreshes after the first write, worker 1 after the second; worker 1 publishes first. */
  lemma PublishInverted(start: State, w1: Write, db1: Db, w2: Write, db2: Db, a: UserId, u: UserId)
    returns (steps: seq<Step>, s: State)
    requires 2 <= start.workers && 2 <= |start.procs| && AtRest(start) && start.damage == NONE
    requires a in start.subs && start.subs[a] == [u] && start.feedLocks == map[]
    requires Execute(start.db, w1) == Success(db1) && TaskOf(w1) == UpdateFeed(a)
    requires Execute(db1, w2) == Success(db2) && TaskOf(w2) == UpdateFeed(a)
    ensures Leads(start, steps, s) && AtRest(s)
    ensures s.db == db2 && s.maxLength == start.maxLength && s.damage == NONE
    ensures u in s.published && s.published[u] == SelectFeed(db1, u, start.maxLength, 0)
  {
    var first, s1 := WriteAndRefresh(start, 0, w1, db1, a, u);
    var second, s2 := WriteAndRefresh(s1, 1, w2, db2, a, u);
    LeadsOn(start, first, s1, second, s2);
    var last;
    last, s := PublishBoth(s2, u, SelectFeed(db1, u, start.maxLength, 0), SelectFeed(db2, u, start.maxLength, 0));
    LeadsOn(start, first + second, s2, last, s);
    steps := first + second + last;
  }

  /**
   Any number of workers from two on, one post written and then edited, and no fault: both
   caches end up right, and yet the feed published last is the one from before the edit.
   */
  lemma WorkersPublishOutOfOrder(w: nat) returns (start: State, steps: seq<Step>, s: State)
    requires 2 <= w
    ensures Initial(start) && start.workers == w == |start.procs| && Leads(start, steps, s)
    ensures AtRest(s) && s.damage == NONE && "u" in s.published && s.published["u"] != FeedOf(s, "u")
  {
    var friends, post, edited := [FriendRow("u", "a")], Post("p", "old", "a", 1, 1), Post("p", "new", "a", 1, 1);
    var db0 := Db({"u", "a"}, friends, []);
    var db1, db2 := db0.(posts := [post]), db0.(posts := [edited]);
    ConcreteWrites(db0, db1, db2, post, edited);
    start := IdleWorkers(db0, w);
    SinglePostFeed(db1, post);
    SinglePostFeed(db2, edited);
    steps, s := PublishInverted(start, CreatePost(post), db1, UpdatePost("p", "a", "new"), db2, "a", "u");
  }

  lemma ConcreteWrites(db0: Db, db1: Db, db2: Db, post: Post, edited: Post)
    requires post.id == "p" && post.author == "a" && edited == post.(text := "new") && "a" in db0.users
    requires db0.posts == [] && db1 == db0.(posts := [post]) && db2 == db0.(posts := [edited])
    ensures Execute(db0, CreatePost(post)) == Success(db1)
    ensures Execute(db1, UpdatePost("p", "a", "new")) == Success(db2)
  {
    assert [] + [post] == [post];
    assert post in [post] && OwnsPost([post], "p", "a");
    assert [post][1..] == [] && EditPost([post], "p", "a", "new") == [edited];
  }

  /** Idle workers; the one follower of "a" is cached, her feed is empty. */
  lemma IdleWorkers(db: Db, w: nat) returns (start: State)
    requires db.friends == [FriendRow("u", "a")] && db.posts == []
    ensures Initial(start) && start.db == db && start.maxLength == 10 && start.damage == NONE
    ensures start.workers == w == |start.procs| && AtRest(start)
    ensures "a" in start.subs && start.subs["a"] == ["u"] && start.feedLocks == map[]
  {
    start := State(db, map["a" := ["u"]], map[], map[], map[], multiset{},
                   seq(w, _ => Idle), w, 10, map["u" := []], NONE);
    assert Join(db.friends, [], "u") == [];
    assert FeedOf(start, "u") == [];
  }

  lemma SinglePostFeed(db: Db, post: Post)
    requires db.friends == [FriendRow("u", post.author)] && db.posts == [post]
    ensures SelectFeed(db, "u", 10, 0) == [post]
  {
    assert PostsBy([post], post.author) == [post];
    assert Join([FriendRow("u", post.author)], [post], "u") == [post];
    assert Sort([post], PostStamp) == [post];
  }

  /** With `w` workers every drained run has published to every user what her feed now is. */
  ghost predicate AlwaysConverges(w: nat) {
    forall start, steps, s, u ::
      && Initial(start) && start.workers == w <= |start.procs| && Leads(start, steps, s) && Drained(s)
      && u in s.published && !FeedSpoilt(s, u) && u !in s.damage.muted
      ==> s.published[u] == FeedOf(s, u)
  }

  /** Push convergence holds exactly for a single worker (or none). */
  lemma ConvergesIffOneWorker(w: nat)
    ensures AlwaysConverges(w) <==> w <= 1
  {
    if w <= 1 {
      forall start, steps, s, u |
        && Initial(start) && start.workers == w <= |start.procs| && Leads(start, steps, s) && Drained(s)
        && u in s.published && !FeedSpoilt(s, u) && u !in s.damage.muted
        ensures s.published[u] == FeedOf(s, u)
      {
        PublishedConverges(start, steps, s);
      }
    } else {
      var start, steps, s := WorkersPublishOutOfOrder(w);
      assert !FeedSpoilt(s, "u");
    }
  }
}
