/**
 What a lost notification costs.  The services write first and then notify; a notification
 that cannot be sent is dropped, and nothing else tells the caches.
 */
module Losses {
  import opened Users
  import opened SocialDb
  import opened FeedChanges
  import opened Protocol
  import opened Obligations
  import opened Coherence
  import opened Accounting
  import opened Publishing

  /** A write whose notification is lost. */
  function WrittenAndLost(s: State, w: Write): State
    requires Execute(s.db, w).Success?
  {
    Apply(Apply(s, DoWrite(w)), Lose(TaskOf(w)))
  }

  ghost predicate EveryFeedRight(s: State) {
    forall u :: u in s.feeds ==> s.feeds[u] == FeedOf(s, u)
  }

  ghost predicate EveryListRight(s: State) {
    forall a, u :: a in s.subs ==> (u in s.subs[a] <==> Follows(s.db, u, a))
  }

  /** The write changes a cached feed, or the cached list of the author followed or left. */
  ghost predicate HitsCache(s: State, w: Write) {
    || (exists u :: u in s.feeds && Touches(s.db, w, u, s.maxLength, s.feeds[u]))
    || ((w.AddFriend? || w.DeleteFriend?) && w.friend in s.subs)
  }

  lemma FeedsHitIff(s: State, w: Write)
    requires Valid(s.db) && EveryFeedRight(s) && Execute(s.db, w).Success?
    ensures EveryFeedRight(WrittenAndLost(s, w)) <==>
      !exists u :: u in s.feeds && Touches(s.db, w, u, s.maxLength, s.feeds[u])
  {
    var t := WrittenAndLost(s, w);
    assert t.feeds == s.feeds;
    forall u | u in s.feeds
      ensures FeedOf(t, u) != s.feeds[u] <==> Touches(s.db, w, u, s.maxLength, s.feeds[u])
    {
      FeedHitIff(s, w, u);
    }
  }

  lemma FeedHitIff(s: State, w: Write, u: UserId)
    requires Valid(s.db) && Execute(s.db, w).Success? && u in s.feeds && s.feeds[u] == FeedOf(s, u)
    ensures FeedOf(WrittenAndLost(s, w), u) != s.feeds[u] <==> Touches(s.db, w, u, s.maxLength, s.feeds[u])
  {
    WriteChangesFeedIff(s.db, w, u, s.maxLength);
  }

  lemma ListsHitIff(s: State, w: Write)
    requires Valid(s.db) && EveryListRight(s) && Execute(s.db, w).Success?
    ensures EveryListRight(WrittenAndLost(s, w)) <==> !((w.AddFriend? || w.DeleteFriend?) && w.friend in s.subs)
  {
    var t := WrittenAndLost(s, w);
    ExecuteEffect(s.db, w);
    if (w.AddFriend? || w.DeleteFriend?) && w.friend in s.subs {
      assert (w.user in t.subs[w.friend]) != Follows(t.db, w.user, w.friend);
    }
  }

  /** Whatever happens next without another fault, once it is worked off every cached entry is right. */
  ghost predicate StaysRight(s: State) {
    forall steps, r :: Leads(s, steps, r) && FaultFree(s, steps) && Drained(r) ==>
      EveryFeedRight(r) && EveryListRight(r)
  }

  /** At rest with every entry right, the account says nothing that matters. */
  lemma RightAtRestStaysRight(s: State)
    requires Inv(s) && AtRest(s) && EveryFeedRight(s) && EveryListRight(s)
    ensures StaysRight(s)
  {
    var t := s.(damage := NONE);
    SoundAtRest(s, t);
    forall steps, r | Leads(s, steps, r) && FaultFree(s, steps) && Drained(r)
      ensures EveryFeedRight(r) && EveryListRight(r)
    {
      var q := RunIgnoresDamage(s, t, steps, r);
      FaultFreeRunIsSound(t, steps, q);
      DrainedIsCoherent(q);
    }
  }

  lemma SoundAtRest(s: State, t: State)
    requires Inv(s) && AtRest(s) && EveryFeedRight(s) && EveryListRight(s) && t == s.(damage := NONE)
    ensures Inv(t) && Sound(t)
  {
    assert s.subLocks == map[] && s.feedLocks == map[];
    assert forall u :: FeedOf(t, u) == FeedOf(s, u);
  }

  /**
   With nothing under way and every cached entry right, losing the notification of a write is
   harmless, for the caches and for everything cached later without another fault, exactly if
   the write hits no cache.  If it does, an entry is wrong with nothing under way.
   */
  lemma LossHarmlessIff(start: State, steps: seq<Step>, s: State, w: Write)
    requires Initial(start) && Leads(start, steps, s)
    requires AtRest(s) && EveryFeedRight(s) && EveryListRight(s) && Execute(s.db, w).Success?
    ensures var t := WrittenAndLost(s, w);
      && AtRest(t)
      && (EveryFeedRight(t) && EveryListRight(t) <==> !HitsCache(s, w))
      && (StaysRight(t) <==> !HitsCache(s, w))
  {
    var t := WrittenAndLost(s, w);
    LossReached(start, steps, s, w);
    FeedsHitIff(s, w);
    ListsHitIff(s, w);
    if EveryFeedRight(t) && EveryListRight(t) {
      RightAtRestStaysRight(t);
    } else {
      assert Leads(t, [], t) && FaultFree(t, []);
    }
  }

  lemma LossReached(start: State, steps: seq<Step>, s: State, w: Write)
    requires Initial(start) && Leads(start, steps, s) && AtRest(s) && Execute(s.db, w).Success?
    ensures Valid(s.db) && Inv(WrittenAndLost(s, w)) && AtRest(WrittenAndLost(s, w))
  {
    InitialInv(start);
    RunKeepsInv(start, steps, s);
    LossKeepsAll(s, w);
    LossLeavesRest(s, w);
  }

  lemma LossKeepsAll(s: State, w: Write)
    requires Inv(s) && Execute(s.db, w).Success?
    ensures Inv(WrittenAndLost(s, w))
  {
    WriteKeepsInv(s, w);
    LossKeepsInv(Apply(s, DoWrite(w)), TaskOf(w));
  }

  lemma LossLeavesRest(s: State, w: Write)
    requires AtRest(s) && Execute(s.db, w).Success?
    ensures AtRest(WrittenAndLost(s, w))
  {
    assert Apply(s, DoWrite(w)).pending - multiset{TaskOf(w)} == multiset{};
  }

  /** A post is written, its notification is lost: the follower's cached feed stays empty. */
  lemma LostNotificationLeavesStale() returns (start: State, w: Write)
    ensures Initial(start) && w == CreatePost(Post("p", "old", "a", 1, 1)) && Execute(start.db, w).Success?
    ensures var t := WrittenAndLost(start, w);
      AtRest(t) && "u" in t.feeds && t.feeds["u"] == [] && FeedOf(t, "u") == [w.post]
  {
    var post := Post("p", "old", "a", 1, 1);
    w := CreatePost(post);
    var db := Db({"u", "a"}, [FriendRow("u", "a")], []);
    ConcreteWrites(db, db.(posts := [post]), db.(posts := [post.(text := "new")]), post, post.(text := "new"));
    var idle := IdleWorkers(db, 1);
    start := EmptyFeedCached(idle);
    SinglePostFeed(db.(posts := [post]), post);
    assert WrittenAndLost(start, w).pending == multiset{};
  }

  lemma EmptyFeedCached(s: State) returns (t: State)
    requires Initial(s) && s.db.posts == [] && s.db.friends == [FriendRow("u", "a")]
    ensures t == s.(feeds := map["u" := []]) && Initial(t)
  {
    t := s.(feeds := map["u" := []]);
    assert Join(s.db.friends, [], "u") == [];
    assert FeedOf(t, "u") == [];
  }

  /**
   A new follower's notification is lost.  Every cached feed is still right, but the cached
   list of followers is not, and the next post, handled without a fault, does not reach her.
   */
  lemma LostFollowerLeavesStale() returns (start: State, w: Write, steps: seq<Step>, r: State)
    ensures Initial(start) && w == AddFriend("u", "a") && Execute(start.db, w).Success?
    ensures EveryFeedRight(WrittenAndLost(start, w))
    ensures Leads(WrittenAndLost(start, w), steps, r) && FaultFree(WrittenAndLost(start, w), steps)
    ensures AtRest(r) && "u" in r.feeds && r.feeds["u"] == [] && FeedOf(r, "u") == [Post("p", "old", "a", 1, 1)]
  {
    w := AddFriend("u", "a");
    start := StrangersCached();
    FollowedNow(start, WrittenAndLost(start, w));
    steps, r := NextPostMisses(WrittenAndLost(start, w));
  }

  lemma NextPostMisses(t: State) returns (steps: seq<Step>, r: State)
    requires t.db == Db({"u", "a"}, [FriendRow("u", "a")], []) && t.maxLength == 10
    requires t.subs == map["a" := []] && t.feeds == map["u" := []]
    requires t.workers == 1 && t.procs == [Idle] && t.pending == multiset{}
    ensures Leads(t, steps, r) && FaultFree(t, steps)
    ensures AtRest(r) && "u" in r.feeds && r.feeds["u"] == [] && FeedOf(r, "u") == [Post("p", "old", "a", 1, 1)]
  {
    var post := Post("p", "old", "a", 1, 1);
    var t1 := t.(db := t.db.(posts := [post]), pending := multiset{UpdateFeed("a")});
    PostWritten(t, t1, post);
    var t2 := t1.(pending := multiset{}, procs := [LookupSubs("a")]);
    PostTaken(t1, t2);
    r := t2.(procs := [Idle], damage := Apply(t2, Advance(0)).damage);
    NobodyToRefresh(t2, r);
    steps := [DoWrite(CreatePost(post)), Take(0, UpdateFeed("a")), Advance(0)];
    ThreeSteps(t, t1, t2, r, steps);
    SinglePostFeed(r.db, post);
  }

  lemma PostWritten(t: State, t1: State, post: Post)
    requires t.db.posts == [] && post.author == "a" && "a" in t.db.users && t.pending == multiset{}
    requires t1 == t.(db := t.db.(posts := [post]), pending := multiset{UpdateFeed("a")})
    ensures Apply(t, DoWrite(CreatePost(post))) == t1
  {
    assert [] + [post] == [post];
  }

  lemma PostTaken(t1: State, t2: State)
    requires t1.workers == 1 && t1.procs == [Idle] && t1.pending == multiset{UpdateFeed("a")}
    requires t2 == t1.(pending := multiset{}, procs := [LookupSubs("a")])
    ensures Enabled(t1, Take(0, UpdateFeed("a"))) && Apply(t1, Take(0, UpdateFeed("a"))) == t2
  {
  }

  lemma NobodyToRefresh(t2: State, r: State)
    requires t2.procs == [LookupSubs("a")] && t2.subs == map["a" := []]
    requires r == t2.(procs := [Idle], damage := Apply(t2, Advance(0)).damage)
    ensures Enabled(t2, Advance(0)) && Apply(t2, Advance(0)) == r
  {
  }

  lemma ThreeSteps(t: State, t1: State, t2: State, r: State, steps: seq<Step>)
    requires |steps| == 3
    requires Enabled(t, steps[0]) && !Fault(t, steps[0]) && t1 == Apply(t, steps[0])
    requires Enabled(t1, steps[1]) && !Fault(t1, steps[1]) && t2 == Apply(t1, steps[1])
    requires Enabled(t2, steps[2]) && !Fault(t2, steps[2]) && r == Apply(t2, steps[2])
    ensures Leads(t, steps, r) && FaultFree(t, steps)
  {
    var rest, last := steps[1..], steps[2..];
    assert rest[0] == steps[1] && rest[1..] == last && last[0] == steps[2] && last[1..] == [];
    assert Leads(r, last[1..], r) && FaultFree(r, last[1..]);
    assert Leads(t2, last, r) && FaultFree(t2, last);
    assert Leads(t1, rest, r) && FaultFree(t1, rest);
  }

  /** One idle worker; nobody follows "a", whose list is cached, and the feed of "u" is cached. */
  lemma StrangersCached() returns (start: State)
    ensures Initial(start) && start.db == Db({"u", "a"}, [], []) && start.maxLength == 10
    ensures start.subs == map["a" := []] && start.feeds == map["u" := []]
    ensures start.workers == 1 && start.procs == [Idle] && start.pending == multiset{}
  {
    start := State(Db({"u", "a"}, [], []), map["a" := []], map["u" := []], map[], map[], multiset{}, [Idle], 1, 10,
                   map[], NONE);
    assert FeedOf(start, "u") == [];
  }

  lemma FollowedNow(s: State, t: State)
    requires s.db == Db({"u", "a"}, [], []) && s.pending == multiset{} && s.feeds == map["u" := []]
    requires Execute(s.db, AddFriend("u", "a")).Success? && t == WrittenAndLost(s, AddFriend("u", "a"))
    ensures t.db == Db({"u", "a"}, [FriendRow("u", "a")], []) && EveryFeedRight(t) && t.pending == multiset{}
  {
    assert [] + [FriendRow("u", "a")] == [FriendRow("u", "a")];
    assert Join(t.db.friends, [], "u") == [];
    assert FeedOf(t, "u") == [];
  }
}
