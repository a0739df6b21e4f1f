/**
 The message loop and the step model describe the same worker: what the loop does to the
 caches with one notification, when nothing fails and nobody interferes, is what one
 schedule of the worker's small steps does.
 */
module Schedules {
  import opened Wrappers
  import opened Users
  import opened SocialDb
  import opened Storage
  import opened FeedUpdater
  import opened FanOut
  import opened Protocol

  /** The feed published last to each user. */
  function LastPublished(log: seq<Update>): map<UserId, Feed> {
    if log == [] then map[]
    else
      var last := log[|log| - 1];
      LastPublished(log[..|log| - 1])[last.user := last.feed]
  }

  /** The caches and publications of the loop, as the step model sees them when nothing has gone wrong. */
  ghost predicate Shows(s: State, c: Caches) {
    s.subs == c.subs && s.feeds == c.feeds && s.published == LastPublished(c.published) && s.damage == NONE
  }

  /** The state with the caches and publications of the loop and with goroutine `i` at `p`. */
  function Showing(s: State, c: Caches, i: nat, p: Proc): State
    requires i < |s.procs|
  {
    s.(subs := c.subs, feeds := c.feeds, published := LastPublished(c.published), procs := s.procs[i := p])
  }

  lemma ShowingTwice(s: State, c: Caches, i: nat, p: Proc, c': Caches, p': Proc)
    requires i < |s.procs|
    ensures s.damage == NONE ==> Shows(Showing(s, c, i, p), c)
    ensures Showing(Showing(s, c, i, p), c', i, p') == Showing(s, c', i, p')
  {
  }

  // ---------------------------------------------------------------- one feed

  /** The worker takes the lock and queries the feed. */
  lemma QueryFeed(s: State, i: nat, u: UserId, todo: seq<UserId>) returns (steps: seq<Step>, t: State)
    requires i < |s.procs| && s.procs[i] == LoadFeed(u, Worker(todo), Wait) && u !in s.feedLocks
    ensures Leads(s, steps, t)
    ensures t == s.(feedLocks := s.feedLocks[u := i], damage := s.damage.(feeds := s.damage.feeds - {u}),
                    procs := s.procs[i := LoadFeed(u, Worker(todo), Loaded(FeedOf(s, u)))])
  {
    var s1 := Apply(s, Advance(i));
    assert s1 == s.(feedLocks := s.feedLocks[u := i], procs := s.procs[i := LoadFeed(u, Worker(todo), Locked)]);
    t := Apply(s1, Advance(i));
    OneMore(s, [], s, Advance(i));
    OneMore(s, [] + [Advance(i)], s1, Advance(i));
    steps := [] + [Advance(i)] + [Advance(i)];
  }

  /** It writes the feed to the cache and releases the lock; publishing comes next. */
  lemma SaveFeed(s: State, i: nat, u: UserId, todo: seq<UserId>, v: Feed) returns (steps: seq<Step>, t: State)
    requires i < |s.procs| && s.procs[i] == LoadFeed(u, Worker(todo), Loaded(v)) && OwnsFeedLock(s, i, u)
    ensures Leads(s, steps, t)
    ensures t == s.(feeds := s.feeds[u := v], feedLocks := s.feedLocks - {u},
                    procs := s.procs[i := Publish(u, v, todo)])
  {
    var s1 := Apply(s, Advance(i));
    assert s1 == s.(feeds := s.feeds[u := v], procs := s.procs[i := LoadFeed(u, Worker(todo), Saved(v))]);
    t := Apply(s1, Advance(i));
    OneMore(s, [], s, Advance(i));
    OneMore(s, [] + [Advance(i)], s1, Advance(i));
    steps := [] + [Advance(i)] + [Advance(i)];
  }

  lemma LastPublishedNext(log: seq<Update>, next: Update)
    ensures LastPublished(log + [next]) == LastPublished(log)[next.user := next.feed]
  {
    assert (log + [next])[..|log|] == log;
  }

  lemma PublishFeed(s: State, i: nat, u: UserId, todo: seq<UserId>, v: Feed) returns (steps: seq<Step>, t: State)
    requires i < |s.procs| && s.procs[i] == Publish(u, v, todo)
    ensures Leads(s, steps, t)
    ensures t == s.(published := s.published[u := v], damage := s.damage.(muted := s.damage.muted - {u}),
                    procs := s.procs[i := StartFeeds(todo)])
  {
    t := Apply(s, Advance(i));
    OneMore(s, [], s, Advance(i));
    steps := [] + [Advance(i)];
  }

  lemma LoadFeedIsSchedule(s: State, i: nat, u: UserId, todo: seq<UserId>) returns (steps: seq<Step>, t: State)
    requires i < |s.procs| && s.procs[i] == LoadFeed(u, Worker(todo), Wait) && s.feedLocks == map[]
    ensures Leads(s, steps, t)
    ensures t == s.(feeds := s.feeds[u := FeedOf(s, u)], damage := s.damage.(feeds := s.damage.feeds - {u}),
                    procs := s.procs[i := Publish(u, FeedOf(s, u), todo)])
  {
    var query, s1 := QueryFeed(s, i, u, todo);
    var save;
    save, t := SaveFeed(s1, i, u, todo, FeedOf(s, u));
    LeadsOn(s, query, s1, save, t);
    steps := query + save;
  }

  /** The worker refreshes one feed and publishes it, which makes up for whatever was lost of it. */
  lemma FeedIsRefreshed(s: State, i: nat, u: UserId, todo: seq<UserId>) returns (steps: seq<Step>, t: State)
    requires i < |s.procs| && s.procs[i] == LoadFeed(u, Worker(todo), Wait) && s.feedLocks == map[]
    ensures Leads(s, steps, t)
    ensures t == s.(feeds := s.feeds[u := FeedOf(s, u)], published := s.published[u := FeedOf(s, u)],
                    damage := s.damage.(feeds := s.damage.feeds - {u}, muted := s.damage.muted - {u}),
                    procs := s.procs[i := StartFeeds(todo)])
  {
    var load, s1 := LoadFeedIsSchedule(s, i, u, todo);
    var publish;
    publish, t := PublishFeed(s1, i, u, todo, FeedOf(s, u));
    LeadsOn(s, load, s1, publish, t);
    steps := load + publish;
  }

  lemma RefreshIsSchedule(s: State, i: nat, u: UserId, todo: seq<UserId>, c: Caches)
    returns (steps: seq<Step>, t: State)
    requires i < |s.procs| && s.procs[i] == LoadFeed(u, Worker(todo), Wait) && s.feedLocks == map[]
    requires Shows(s, c)
    ensures Leads(s, steps, t)
    ensures t == Showing(s, Refreshed(c, u, Calm(s.db)(0), s.maxLength), i, StartFeeds(todo))
  {
    steps, t := FeedIsRefreshed(s, i, u, todo);
    RefreshedShows(s, i, u, todo, c);
  }

  lemma RefreshedShows(s: State, i: nat, u: UserId, todo: seq<UserId>, c: Caches)
    requires i < |s.procs| && Shows(s, c)
    ensures var v := FeedOf(s, u);
      s.(feeds := s.feeds[u := v], published := s.published[u := v],
         damage := s.damage.(feeds := s.damage.feeds - {u}, muted := s.damage.muted - {u}),
         procs := s.procs[i := StartFeeds(todo)])
      == Showing(s, Refreshed(c, u, Calm(s.db)(0), s.maxLength), i, StartFeeds(todo))
  {
    LastPublishedNext(c.published, Update(u, FeedOf(s, u)));
    assert NONE.feeds - {u} == NONE.feeds && NONE.muted - {u} == NONE.muted;
  }

  // ---------------------------------------------------------------- all subscribers

  /** The loop over the first `n` of the users in `list`. */
  lemma {:induction false} FanOutIsSchedule(s: State, i: nat, list: seq<UserId>, n: nat, c: Caches)
    returns (steps: seq<Step>, t: State)
    requires i < |s.procs| && s.procs[i] == StartFeeds(list) && s.feedLocks == map[] && n <= |list|
    requires Shows(s, c)
    ensures Leads(s, steps, t)
    ensures t == Showing(s, FannedOut(c, list, n, Calm(s.db), s.maxLength), i, StartFeeds(list[n..]))
    decreases n
  {
    if n == 0 {
      assert list[0..] == list && s.procs[i := s.procs[i]] == s.procs;
      return [], s;
    }
    var first, s1 := FanOutIsSchedule(s, i, list, n - 1, c);
    var next;
    next, t := NextFeedIsSchedule(s, i, list, n, c, s1);
    LeadsOn(s, first, s1, next, t);
    steps := first + next;
  }

  lemma NextFeedIsSchedule(s: State, i: nat, list: seq<UserId>, n: nat, c: Caches, s1: State)
    returns (steps: seq<Step>, t: State)
    requires i < |s.procs| && s.feedLocks == map[] && 0 < n <= |list| && s.damage == NONE
    requires s1 == Showing(s, FannedOut(c, list, n - 1, Calm(s.db), s.maxLength), i, StartFeeds(list[n - 1..]))
    ensures Leads(s1, steps, t)
    ensures t == Showing(s, FannedOut(c, list, n, Calm(s.db), s.maxLength), i, StartFeeds(list[n..]))
  {
    var c1, c2 := FannedOut(c, list, n - 1, Calm(s.db), s.maxLength), FannedOut(c, list, n, Calm(s.db), s.maxLength);
    assert list[n - 1..][1..] == list[n..];
    ShowingTwice(s, c1, i, StartFeeds(list[n - 1..]), c2, StartFeeds(list[n..]));
    steps, t := RefreshIsSchedule(s1, i, list[n - 1], list[n..], c1);
  }

  // ---------------------------------------------------------------- subscribers

  /** What a query of a's subscribers under the lock makes up for, and caching them, if nothing else happens. */
  function Requeried(d: Damage, cause: Cause, a: UserId): Damage {
    d.(pairs := if cause.ForFriend? then d.pairs - {(cause.user, a)} else d.pairs)
  }

  lemma QuerySubs(s: State, i: nat, a: UserId, cause: Cause) returns (steps: seq<Step>, t: State)
    requires i < |s.procs| && s.procs[i] == LoadSubs(a, cause, Wait) && a !in s.subLocks
    ensures Leads(s, steps, t)
    ensures t == s.(subLocks := s.subLocks[a := i], damage := Requeried(s.damage, cause, a),
                    procs := s.procs[i := LoadSubs(a, cause, Loaded(Subscribers(s.db.friends, a)))])
  {
    var s1 := Apply(s, Advance(i));
    assert s1 == s.(subLocks := s.subLocks[a := i], procs := s.procs[i := LoadSubs(a, cause, Locked)]);
    t := Apply(s1, Advance(i));
    OneMore(s, [], s, Advance(i));
    OneMore(s, [] + [Advance(i)], s1, Advance(i));
    steps := [] + [Advance(i)] + [Advance(i)];
  }

  lemma SaveSubs(s: State, i: nat, a: UserId, cause: Cause, v: seq<UserId>) returns (steps: seq<Step>, t: State)
    requires i < |s.procs| && s.procs[i] == LoadSubs(a, cause, Loaded(v)) && OwnsSubLock(s, i, a)
    ensures Leads(s, steps, t)
    ensures t == s.(subs := s.subs[a := v], subLocks := s.subLocks - {a},
                    damage := s.damage.(lists := s.damage.lists - {a}), procs := s.procs[i := AfterSubs(cause, v)])
  {
    var s1 := Apply(s, Advance(i));
    assert s1 == s.(subs := s.subs[a := v], damage := s.damage.(lists := s.damage.lists - {a}),
                    procs := s.procs[i := LoadSubs(a, cause, Saved(v))]);
    t := Apply(s1, Advance(i));
    OneMore(s, [], s, Advance(i));
    OneMore(s, [] + [Advance(i)], s1, Advance(i));
    steps := [] + [Advance(i)] + [Advance(i)];
  }

  lemma SubsAreReloaded(s: State, i: nat, a: UserId, cause: Cause) returns (steps: seq<Step>, t: State)
    requires i < |s.procs| && s.procs[i] == LoadSubs(a, cause, Wait) && s.subLocks == map[]
    ensures Leads(s, steps, t)
    ensures var v := Subscribers(s.db.friends, a);
      t == s.(subs := s.subs[a := v], damage := Requeried(s.damage, cause, a).(lists := s.damage.lists - {a}),
              procs := s.procs[i := AfterSubs(cause, v)])
  {
    var query, s1 := QuerySubs(s, i, a, cause);
    var save;
    save, t := SaveSubs(s1, i, a, cause, Subscribers(s.db.friends, a));
    LeadsOn(s, query, s1, save, t);
    steps := query + save;
  }

  lemma LoadSubsIsSchedule(s: State, i: nat, a: UserId, cause: Cause) returns (steps: seq<Step>, t: State)
    requires i < |s.procs| && s.procs[i] == LoadSubs(a, cause, Wait) && s.subLocks == map[] && s.damage == NONE
    ensures Leads(s, steps, t)
    ensures var v := Subscribers(s.db.friends, a);
      t == s.(subs := s.subs[a := v], procs := s.procs[i := AfterSubs(cause, v)])
  {
    steps, t := SubsAreReloaded(s, i, a, cause);
    NothingToRepair(cause, a);
  }

  lemma NothingToRepair(cause: Cause, a: UserId)
    ensures Requeried(NONE, cause, a).(lists := NONE.lists - {a}) == NONE
  {
    assert NONE.lists - {a} == NONE.lists;
    assert cause.ForFriend? ==> NONE.pairs - {(cause.user, a)} == NONE.pairs;
  }

  // ---------------------------------------------------------------- one notification

  /** The worker has the list of the author's subscribers, from the cache or from the database. */
  lemma LookupIsSchedule(s: State, i: nat, a: UserId, c: Caches) returns (steps: seq<Step>, t: State, list: seq<UserId>)
    requires i < |s.procs| && s.procs[i] == LookupSubs(a) && s.subLocks == map[] && Shows(s, c)
    ensures SubscribersSeen(c, a, Calm(s.db)(0)) == Success(list)
    ensures Leads(s, steps, t)
    ensures t == Showing(s, c.(subs := c.subs[a := list]), i, StartFeeds(list))
  {
    OneMore(s, [], s, Advance(i));
    steps := [] + [Advance(i)];
    if a in s.subs {
      list, t := s.subs[a], Apply(s, Advance(i));
      assert c.subs[a := list] == c.subs;
    } else {
      list := Subscribers(s.db.friends, a);
      var s1 := Goto(s, i, LoadSubs(a, ForPosts, Wait));
      var rest;
      rest, t := LoadSubsIsSchedule(s1, i, a, ForPosts);
      LeadsOn(s, steps, s1, rest, t);
      steps := steps + rest;
    }
  }

  lemma FeedUpdateIsSchedule(s: State, i: nat, a: UserId, c: Caches) returns (steps: seq<Step>, t: State)
    requires i < |s.procs| && s.procs[i] == LookupSubs(a) && s.subLocks == map[] && s.feedLocks == map[] && Shows(s, c)
    ensures Leads(s, steps, t)
    ensures t == Showing(s, AfterFeedUpdate(c, a, Calm(s.db), s.maxLength), i, Idle)
  {
    var lookup, s1, list := LookupIsSchedule(s, i, a, c);
    var rest;
    rest, t := FanOutIsSchedule(s1, i, list, |list|, c.(subs := c.subs[a := list]));
    LeadsOn(s, lookup, s1, rest, t);
    steps := lookup + rest;
  }

  lemma FriendUpdateIsSchedule(s: State, i: nat, u: UserId, a: UserId, c: Caches) returns (steps: seq<Step>, t: State)
    requires i < |s.procs| && s.procs[i] == LoadSubs(a, ForFriend(u), Wait)
    requires s.subLocks == map[] && s.feedLocks == map[] && Shows(s, c)
    ensures Leads(s, steps, t)
    ensures t == Showing(s, AfterFriendUpdate(c, u, a, Calm(s.db), s.maxLength), i, Idle)
  {
    var load, s1 := LoadSubsIsSchedule(s, i, a, ForFriend(u));
    var c1 := c.(subs := c.subs[a := Subscribers(s.db.friends, a)]);
    assert [u][0] == u && [u][1..] == [];
    assert s1 == Showing(s, c1, i, LoadFeed(u, Worker([]), Wait));
    ShowingTwice(s, c1, i, LoadFeed(u, Worker([]), Wait), AfterFriendUpdate(c, u, a, Calm(s.db), s.maxLength), Idle);
    var rest;
    rest, t := RefreshIsSchedule(s1, i, u, [], c1);
    LeadsOn(s, load, s1, rest, t);
    steps := load + rest;
  }

  lemma FlushIsSchedule(s: State, i: nat, c: Caches) returns (steps: seq<Step>, t: State)
    requires i < |s.procs| && s.procs[i] == FlushSubs && s.subLocks == map[] && s.feedLocks == map[] && Shows(s, c)
    ensures Leads(s, steps, t)
    ensures t == Showing(s, AfterFlush(c, Calm(s.db)), i, Idle)
  {
    var s1 := Apply(s, Advance(i));
    t := Apply(s1, Advance(i));
    OneMore(s, [], s, Advance(i));
    OneMore(s, [] + [Advance(i)], s1, Advance(i));
    steps := [] + [Advance(i)] + [Advance(i)];
  }

  lemma TaskIsSchedule(s: State, i: nat, task: Task, c: Caches) returns (steps: seq<Step>, t: State)
    requires i < |s.procs| && s.procs[i] == StartTask(task) && s.subLocks == map[] && s.feedLocks == map[]
    requires Shows(s, c)
    ensures Leads(s, steps, t)
    ensures t == Showing(s, AfterTask(c, task, Calm(s.db), s.maxLength), i, Idle)
  {
    match task
    case UpdateFriend(u, a) => steps, t := FriendUpdateIsSchedule(s, i, u, a, c);
    case UpdateFeed(a) => steps, t := FeedUpdateIsSchedule(s, i, a, c);
    case InvalidateAll => steps, t := FlushIsSchedule(s, i, c);
  }

  /**
   An idle worker that takes a notification can, alone, bring the shared state where the
   message loop brings its caches.
   */
  lemma NotificationIsSchedule(s: State, i: nat, task: Task, c: Caches) returns (steps: seq<Step>, t: State)
    requires i < s.workers && i < |s.procs| && s.procs[i].Idle? && s.subLocks == map[] && s.feedLocks == map[]
    requires task in s.pending && Shows(s, c)
    ensures Leads(s, steps, t)
    ensures t == Showing(s.(pending := s.pending - multiset{task}),
                         AfterTask(c, task, Calm(s.db), s.maxLength), i, Idle)
  {
    var s1 := Apply(s, Take(i, task));
    assert s1 == s.(pending := s.pending - multiset{task}, procs := s.procs[i := StartTask(task)]);
    OneMore(s, [], s, Take(i, task));
    var rest;
    rest, t := TaskIsSchedule(s1, i, task, c);
    LeadsOn(s, [] + [Take(i, task)], s1, rest, t);
    steps := [] + [Take(i, task)] + rest;
  }

  // ---------------------------------------------------------------- a backlog

  /** What a message asks for; one that cannot be read asks for nothing. */
  function TasksOf(m: Message): multiset<Task> {
    if m.Note? then multiset{Dispatch(m.note)} else multiset{}
  }

  function Tasks(messages: seq<Message>, n: nat): multiset<Task>
    requires n <= |messages|
  {
    if n == 0 then multiset{} else Tasks(messages, n - 1) + TasksOf(messages[n - 1])
  }

  /** The state with the caches of the loop and without the notifications in `done`. */
  function Behind(s: State, done: multiset<Task>, c: Caches, i: nat): State
    requires i < |s.procs|
  {
    Showing(s.(pending := s.pending - done), c, i, Idle)
  }

  lemma MessageIsSchedule(s: State, i: nat, m: Message, c: Caches) returns (steps: seq<Step>, t: State)
    requires i < s.workers && i < |s.procs| && s.procs[i].Idle? && s.subLocks == map[] && s.feedLocks == map[]
    requires TasksOf(m) <= s.pending && Shows(s, c)
    ensures Leads(s, steps, t)
    ensures t == Behind(s, TasksOf(m), AfterMessage(c, m, Calm(s.db), s.maxLength), i)
  {
    if m.Unreadable? {
      BehindNothing(s, c, i);
      return [], s;
    }
    assert Dispatch(m.note) in TasksOf(m);
    steps, t := NotificationIsSchedule(s, i, Dispatch(m.note), c);
  }

  lemma BehindTwice(s: State, done: multiset<Task>, c: Caches, i: nat, more: multiset<Task>, c': Caches)
    requires i < |s.procs|
    ensures Behind(Behind(s, done, c, i), more, c', i) == Behind(s, done + more, c', i)
  {
    MinusTwice(s.pending, done, more);
  }

  lemma MinusTwice(pending: multiset<Task>, done: multiset<Task>, more: multiset<Task>)
    ensures pending - done - more == pending - (done + more)
  {
  }

  lemma BehindNothing(s: State, c: Caches, i: nat)
    requires i < |s.procs| && s.procs[i].Idle? && Shows(s, c)
    ensures Behind(s, multiset{}, c, i) == s
  {
    assert s.procs[i := s.procs[i]] == s.procs && s.pending - multiset{} == s.pending;
  }

  function AfterBacklog(s: State, messages: seq<Message>, n: nat, c: Caches): Caches
    requires n <= |messages|
  {
    AfterMessages(c, messages, n, _ => Calm(s.db), s.maxLength)
  }

  /** The whole message loop, over any backlog in any order, is one schedule of the worker. */
  lemma {:induction false} BacklogIsSchedule(s: State, i: nat, messages: seq<Message>, n: nat, c: Caches)
    returns (steps: seq<Step>, t: State)
    requires i < s.workers && i < |s.procs| && s.procs[i].Idle? && s.subLocks == map[] && s.feedLocks == map[]
    requires n <= |messages| && Tasks(messages, n) <= s.pending && Shows(s, c)
    ensures Leads(s, steps, t)
    ensures t == Behind(s, Tasks(messages, n), AfterBacklog(s, messages, n, c), i)
    decreases n
  {
    if n == 0 {
      BehindNothing(s, c, i);
      return [], s;
    }
    var first, s1 := BacklogIsSchedule(s, i, messages, n - 1, c);
    var next;
    next, t := NextMessageIsSchedule(s, i, messages, n, c, s1);
    LeadsOn(s, first, s1, next, t);
    steps := first + next;
  }

  lemma NextMessageIsSchedule(s: State, i: nat, messages: seq<Message>, n: nat, c: Caches, s1: State)
    returns (steps: seq<Step>, t: State)
    requires i < s.workers && i < |s.procs| && s.subLocks == map[] && s.feedLocks == map[]
    requires 0 < n <= |messages| && Tasks(messages, n) <= s.pending && s.damage == NONE
    requires s1 == Behind(s, Tasks(messages, n - 1), AfterBacklog(s, messages, n - 1, c), i)
    ensures Leads(s1, steps, t)
    ensures t == Behind(s, Tasks(messages, n), AfterBacklog(s, messages, n, c), i)
  {
    var c1, m := AfterBacklog(s, messages, n - 1, c), messages[n - 1];
    BehindTwice(s, Tasks(messages, n - 1), c1, i, TasksOf(m), AfterBacklog(s, messages, n, c));
    steps, t := MessageIsSchedule(s1, i, m, c1);
  }

  // ---------------------------------------------------------------- a reader

  /**
   A reader finds a cached feed and changes nothing, or, if the lock is free, fills the missing
   entry with the current feed; either way it publishes nothing and is then idle again.
   */
  lemma ReaderIsSchedule(s: State, i: nat, u: UserId) returns (steps: seq<Step>, t: State)
    requires s.workers <= i < |s.procs| && s.procs[i].Idle? && u !in s.feedLocks
    ensures Leads(s, steps, t)
    ensures u in s.feeds ==> t == s
    ensures u !in s.feeds ==> t == s.(feeds := s.feeds[u := FeedOf(s, u)])
  {
    var s1 := Apply(s, Serve(i, u));
    OneMore(s, [], s, Serve(i, u));
    var s2 := Apply(s1, Advance(i));
    OneMore(s, [] + [Serve(i, u)], s1, Advance(i));
    steps := [] + [Serve(i, u)] + [Advance(i)];
    assert s.procs[i := s.procs[i]] == s.procs;
    if u in s.feeds {
      t := s2;
    } else {
      var rest;
      rest, t := ReaderLoads(s2, i, u);
      LeadsOn(s, steps, s2, rest, t);
      steps := steps + rest;
    }
  }

  lemma ReaderLoads(s: State, i: nat, u: UserId) returns (steps: seq<Step>, t: State)
    requires i < |s.procs| && s.procs[i] == LoadFeed(u, Reader, Wait) && u !in s.feedLocks
    ensures Leads(s, steps, t)
    ensures t == s.(feeds := s.feeds[u := FeedOf(s, u)], procs := s.procs[i := Idle])
  {
    var query, s1 := ReaderQueries(s, i, u);
    var save;
    save, t := ReaderSaves(s1, i, u, FeedOf(s, u));
    assert s.feedLocks[u := i] - {u} == s.feedLocks;
    LeadsOn(s, query, s1, save, t);
    steps := query + save;
  }

  lemma ReaderQueries(s: State, i: nat, u: UserId) returns (steps: seq<Step>, t: State)
    requires i < |s.procs| && s.procs[i] == LoadFeed(u, Reader, Wait) && u !in s.feedLocks
    ensures Leads(s, steps, t)
    ensures t == s.(feedLocks := s.feedLocks[u := i], procs := s.procs[i := LoadFeed(u, Reader, Loaded(FeedOf(s, u)))])
  {
    var s1 := Apply(s, Advance(i));
    assert s1 == s.(feedLocks := s.feedLocks[u := i], procs := s.procs[i := LoadFeed(u, Reader, Locked)]);
    t := Apply(s1, Advance(i));
    OneMore(s, [], s, Advance(i));
    OneMore(s, [] + [Advance(i)], s1, Advance(i));
    steps := [] + [Advance(i)] + [Advance(i)];
  }

  lemma ReaderSaves(s: State, i: nat, u: UserId, v: Feed) returns (steps: seq<Step>, t: State)
    requires i < |s.procs| && s.procs[i] == LoadFeed(u, Reader, Loaded(v)) && OwnsFeedLock(s, i, u)
    ensures Leads(s, steps, t)
    ensures t == s.(feeds := s.feeds[u := v], feedLocks := s.feedLocks - {u}, procs := s.procs[i := Idle])
  {
    var s1 := Apply(s, Advance(i));
    assert s1 == s.(feeds := s.feeds[u := v], procs := s.procs[i := LoadFeed(u, Reader, Saved(v))]);
    t := Apply(s1, Advance(i));
    OneMore(s, [], s, Advance(i));
    OneMore(s, [] + [Advance(i)], s1, Advance(i));
    steps := [] + [Advance(i)] + [Advance(i)];
  }

  // ---------------------------------------------------------------- repair

  /**
   Whatever went wrong with u's feed, with u as a subscriber of `a` and with a's cached list
   is made good by one friend notification (u, a) that a worker handles without a fault, and
   no other damage comes of it.
   */
  lemma RedeliveryRepairs(s: State, i: nat, u: UserId, a: UserId) returns (steps: seq<Step>, t: State)
    requires i < s.workers && i < |s.procs| && s.procs[i].Idle? && s.subLocks == map[] && s.feedLocks == map[]
    requires UpdateFriend(u, a) in s.pending
    ensures Leads(s, steps, t) && t.db == s.db && t.maxLength == s.maxLength && t.procs == s.procs
    ensures t.pending == s.pending - multiset{UpdateFriend(u, a)}
    ensures t.damage == Damage(s.damage.feeds - {u}, s.damage.pairs - {(u, a)},
                               s.damage.lists - {a}, s.damage.muted - {u})
    ensures t.subs == s.subs[a := Subscribers(s.db.friends, a)]
    ensures t.feeds == s.feeds[u := FeedOf(t, u)] && t.published == s.published[u := FeedOf(t, u)]
  {
    var s1 := Apply(s, Take(i, UpdateFriend(u, a)));
    OneMore(s, [], s, Take(i, UpdateFriend(u, a)));
    var reload, s2 := SubsAreReloaded(s1, i, a, ForFriend(u));
    assert [u][0] == u && [u][1..] == [];
    var refresh;
    refresh, t := FeedIsRefreshed(s2, i, u, []);
    LeadsOn(s, [] + [Take(i, UpdateFriend(u, a))], s1, reload, s2);
    LeadsOn(s, [] + [Take(i, UpdateFriend(u, a))] + reload, s2, refresh, t);
    steps := [] + [Take(i, UpdateFriend(u, a))] + reload + refresh;
  }
}
