/**
 The feed-cache protocol as a step model.

 Any number of goroutines share the database, the two Redis caches and the notification
 queue.  The first `workers` of them run PostFeedUpdater.processEvents, the others serve
 GET /post/feed.  A Redis Load is four steps (take the key's lock, run the query, write
 the entry, release the lock); every other step is one queue, cache or database access.

 A notification is in `pending` from the commit of the write that caused it until a worker
 takes it; nothing is assumed about the order in which notifications are taken.

 Things go wrong at any moment: a notification is lost, an access fails, a query is cut short
 without an error, a lock expires or is flushed while its holder goes on.  `Damage` keeps
 account of what that may have spoilt and nothing has repaired since; no step depends on it.
 */
module Protocol {
  import opened Users
  import opened SocialDb

  type Feed = seq<Post>

  /** A notification, by the handler the worker dispatches it to. */
  datatype Task =
    | UpdateFriend(user: UserId, friend: UserId)
    | UpdateFeed(author: UserId)
    | InvalidateAll

  /** How far a Load of one key has got; `Loaded` and `Saved` carry the query's result. */
  datatype Phase<V> = Wait | Locked | Loaded(v: V) | Saved(v: V)

  /** What the subscribers of an author are loaded for. */
  datatype Cause =
    | ForFriend(user: UserId)  // processUpdateFriend: the friend notification of `user`
    | ForPosts                 // processUpdateFeed: GetOrLoad found no entry

  /** Who loads a feed. */
  datatype Client =
    | Worker(todo: seq<UserId>)  // with the users whose feeds are still to be loaded after this one
    | Reader                     // GET /post/feed: GetOrLoad found no entry

  datatype Proc =
    | Idle
    | LookupSubs(author: UserId)
    | LoadSubs(author: UserId, cause: Cause, subsPhase: Phase<seq<UserId>>)
    | LoadFeed(user: UserId, client: Client, feedPhase: Phase<Feed>)
    | Publish(user: UserId, feed: Feed, todo: seq<UserId>)
    | FlushSubs
    | FlushFeeds
    | LookupFeed(user: UserId)

  datatype Damage = Damage(
    // u: a refresh of u's feed was lost or cut short, and no worker has queried it under its lock since
    feeds: set<UserId>,
    // (u, a): a friend notification was lost, or u was cut off a's subscribers, and these not queried for u since
    pairs: set<(UserId, UserId)>,
    // a: the subscribers of a were cached by a goroutine that had lost its lock
    lists: set<UserId>,
    // u: the last attempt to publish to u failed
    muted: set<UserId>)

  const NONE := Damage({}, {}, {}, {})

  datatype State = State(
    db: Db,
    subs: map<UserId, seq<UserId>>,
    feeds: map<UserId, Feed>,
    subLocks: map<UserId, nat>,
    feedLocks: map<UserId, nat>,
    pending: multiset<Task>,
    procs: seq<Proc>,
    workers: nat,
    maxLength: nat,
    published: map<UserId, Feed>,
    damage: Damage)

  function FeedOf(s: State, user: UserId): Feed {
    SelectFeed(s.db, user, s.maxLength, 0)
  }

  function TaskOf(w: Write): Task {
    if w.AddFriend? || w.DeleteFriend? then UpdateFriend(w.user, w.friend) else UpdateFeed(PostAuthor(w))
  }

  function Followers(db: Db, author: UserId): set<UserId> {
    set row | row in db.friends && row.friend == author :: row.user
  }

  datatype Step =
    | DoWrite(w: Write)
    | RequestFlush
    | Redeliver(task: Task)
    | EvictSubs(key: UserId)
    | EvictFeed(key: UserId)
    | Take(i: nat, task: Task)
    | Serve(i: nat, user: UserId)
    | Advance(i: nat)
    | Lose(task: Task)
    | Fail(i: nat)
    | CutShort(i: nat, rows: nat)
    | ExpireSubLock(key: UserId)
    | ExpireFeedLock(key: UserId)

  predicate Enabled(s: State, step: Step) {
    match step
    case Redeliver(task) => task in s.pending
    case Take(i, task) => i < s.workers && i < |s.procs| && s.procs[i].Idle? && task in s.pending
    case Serve(i, _) => s.workers <= i < |s.procs| && s.procs[i].Idle?
    case Advance(i) => i < |s.procs| && CanAdvance(s, s.procs[i])
    case Lose(task) => task in s.pending
    case Fail(i) => i < |s.procs| && CanFail(s.procs[i])
    case CutShort(i, rows) => i < |s.procs| && CanBeCut(s, s.procs[i], rows)
    case _ => true
  }

  /** A goroutine waits only for a lock. */
  predicate CanAdvance(s: State, p: Proc) {
    match p
    case Idle => false
    case LoadSubs(a, _, Wait) => a !in s.subLocks
    case LoadFeed(u, _, Wait) => u !in s.feedLocks
    case _ => true
  }

  /** Every access may fail but the release of a lock. */
  predicate CanFail(p: Proc) {
    match p
    case Idle => false
    case LoadSubs(_, _, Saved(_)) => false
    case LoadFeed(_, _, Saved(_)) => false
    case _ => true
  }

  /** A connection lost in the middle of a query: the first `rows` rows arrive, and no error. */
  predicate CanBeCut(s: State, p: Proc, rows: nat) {
    match p
    case LoadSubs(a, _, Locked) => rows < |Subscribers(s.db.friends, a)|
    case LoadFeed(u, _, Locked) => rows < |FeedOf(s, u)|
    case _ => false
  }

  function Apply(s: State, step: Step): State
    requires Enabled(s, step)
  {
    match step
    case DoWrite(w) =>
      // a failed write sends no notification
      (match Execute(s.db, w)
       case Failure(_) => s
       case Success(db) => s.(db := db, pending := s.pending + multiset{TaskOf(w)}))
    case RequestFlush => s.(pending := s.pending + multiset{InvalidateAll})
    case Redeliver(task) => s.(pending := s.pending + multiset{task})
    case EvictSubs(key) => s.(subs := s.subs - {key})
    case EvictFeed(key) => s.(feeds := s.feeds - {key})
    case Take(i, task) => Goto(s.(pending := s.pending - multiset{task}), i, StartTask(task))
    case Serve(i, user) => Goto(s, i, LookupFeed(user))
    case Advance(i) => AdvanceProc(s, i)
    case Lose(task) => s.(pending := s.pending - multiset{task}, damage := AfterLoss(s.damage, s.db, task))
    case Fail(i) => FailProc(s, i)
    case CutShort(i, rows) => CutProc(s, i, rows)
    case ExpireSubLock(key) => s.(subLocks := s.subLocks - {key})
    case ExpireFeedLock(key) => s.(feedLocks := s.feedLocks - {key})
  }

  function Goto(s: State, i: nat, p: Proc): State
    requires i < |s.procs|
  {
    s.(procs := s.procs[i := p])
  }

  function StartTask(task: Task): Proc {
    match task
    case UpdateFriend(user, friend) => LoadSubs(friend, ForFriend(user), Wait)
    case UpdateFeed(author) => LookupSubs(author)
    case InvalidateAll => FlushSubs
  }

  function StartFeeds(todo: seq<UserId>): Proc {
    if todo == [] then Idle else LoadFeed(todo[0], Worker(todo[1..]), Wait)
  }

  predicate OwnsSubLock(s: State, i: nat, a: UserId) {
    a in s.subLocks && s.subLocks[a] == i
  }

  predicate OwnsFeedLock(s: State, i: nat, u: UserId) {
    u in s.feedLocks && s.feedLocks[u] == i
  }

  // ---------------------------------------------------------------- a goroutine goes on

  /** The next step of goroutine `i`. */
  function AdvanceProc(s: State, i: nat): State
    requires i < |s.procs| && CanAdvance(s, s.procs[i])
  {
    match s.procs[i]
    case LookupSubs(a) =>
      if a !in s.subs then Goto(s, i, LoadSubs(a, ForPosts, Wait))
      else Goto(if a in s.damage.lists then Missing(s, a) else s, i, StartFeeds(s.subs[a]))
    case LoadSubs(a, cause, ph) => AdvanceLoadSubs(s, i, a, cause, ph)
    case LoadFeed(u, client, ph) => AdvanceLoadFeed(s, i, u, client, ph)
    case Publish(u, v, todo) =>
      Goto(s.(published := s.published[u := v], damage := s.damage.(muted := s.damage.muted - {u})),
           i, StartFeeds(todo))
    case FlushSubs => Goto(s.(subs := map[], subLocks := map[]), i, FlushFeeds)
    case FlushFeeds => Goto(s.(feeds := map[], feedLocks := map[]), i, Idle)
    case LookupFeed(u) => Goto(s, i, if u in s.feeds then Idle else LoadFeed(u, Reader, Wait))
  }

  /** A list nobody vouches for is used for the posts of `a`: any follower may be missing from it. */
  function Missing(s: State, a: UserId): State {
    s.(damage := s.damage.(feeds := s.damage.feeds + Followers(s.db, a)))
  }

  function AdvanceLoadSubs(s: State, i: nat, a: UserId, cause: Cause, phase: Phase<seq<UserId>>): State
    requires i < |s.procs|
  {
    match phase
    case Wait => Goto(s.(subLocks := s.subLocks[a := i]), i, LoadSubs(a, cause, Locked))
    case Locked => Goto(SubsQueried(s, i, a, cause), i, LoadSubs(a, cause, Loaded(Subscribers(s.db.friends, a))))
    case Loaded(v) => Goto(SubsSaved(s, i, a, v), i, LoadSubs(a, cause, Saved(v)))
    case Saved(v) =>
      if !OwnsSubLock(s, i, a) then Goto(if cause.ForPosts? then Missing(s, a) else s, i, AfterSubs(cause, v))
      else Goto(s.(subLocks := s.subLocks - {a}), i, AfterSubs(cause, v))
  }

  function AfterSubs(cause: Cause, v: seq<UserId>): Proc {
    StartFeeds(if cause.ForFriend? then [cause.user] else v)
  }

  function SubsQueried(s: State, i: nat, a: UserId, cause: Cause): State {
    if cause.ForPosts? then s
    else if OwnsSubLock(s, i, a) then s.(damage := s.damage.(pairs := s.damage.pairs - {(cause.user, a)}))
    else s.(damage := s.damage.(pairs := s.damage.pairs + {(cause.user, a)}))
  }

  function SubsSaved(s: State, i: nat, a: UserId, v: seq<UserId>): State {
    s.(subs := s.subs[a := v],
       damage := s.damage.(lists := if OwnsSubLock(s, i, a) then s.damage.lists - {a} else s.damage.lists + {a}))
  }

  function AdvanceLoadFeed(s: State, i: nat, u: UserId, client: Client, phase: Phase<Feed>): State
    requires i < |s.procs|
  {
    match phase
    case Wait => Goto(s.(feedLocks := s.feedLocks[u := i]), i, LoadFeed(u, client, Locked))
    case Locked => Goto(FeedQueried(s, i, u, client), i, LoadFeed(u, client, Loaded(FeedOf(s, u))))
    case Loaded(v) => Goto(FeedSaved(s, i, u, v), i, LoadFeed(u, client, Saved(v)))
    case Saved(v) =>
      Goto(if OwnsFeedLock(s, i, u) then s.(feedLocks := s.feedLocks - {u}) else s, i,
           if client.Worker? then Publish(u, v, client.todo) else Idle)
  }

  function FeedQueried(s: State, i: nat, u: UserId, client: Client): State {
    if client.Reader? then s
    else if OwnsFeedLock(s, i, u) then s.(damage := s.damage.(feeds := s.damage.feeds - {u}))
    else Unrefreshed(s, u)
  }

  function FeedSaved(s: State, i: nat, u: UserId, v: Feed): State {
    (if OwnsFeedLock(s, i, u) then s else Unrefreshed(s, u)).(feeds := s.feeds[u := v])
  }

  function Unrefreshed(s: State, u: UserId): State {
    s.(damage := s.damage.(feeds := s.damage.feeds + {u}))
  }

  // ---------------------------------------------------------------- a goroutine fails

  /** The goroutine takes the rows that arrived for the whole answer. */
  function CutProc(s: State, i: nat, rows: nat): State
    requires i < |s.procs| && CanBeCut(s, s.procs[i], rows)
  {
    match s.procs[i]
    case LoadSubs(a, cause, _) => CutSubs(s, i, a, cause, rows)
    case LoadFeed(u, client, _) => Goto(Unrefreshed(s, u), i, LoadFeed(u, client, Loaded(FeedOf(s, u)[..rows])))
  }

  function CutSubs(s: State, i: nat, a: UserId, cause: Cause, rows: nat): State
    requires i < |s.procs| && rows < |Subscribers(s.db.friends, a)|
  {
    var all, t := Subscribers(s.db.friends, a), SubsQueried(s, i, a, cause);
    var missing := set u | u in all[rows..] :: (u, a);
    Goto(t.(damage := t.damage.(pairs := t.damage.pairs + missing)), i, LoadSubs(a, cause, Loaded(all[..rows])))
  }

  function AfterLoss(d: Damage, db: Db, task: Task): Damage {
    match task
    case UpdateFriend(user, friend) => d.(pairs := d.pairs + {(user, friend)})
    case UpdateFeed(author) => d.(feeds := d.feeds + Followers(db, author))
    case InvalidateAll => d
  }

  /** An access fails: its task is given up, except that a failing feed does not stop the others. */
  function FailProc(s: State, i: nat): State
    requires i < |s.procs| && CanFail(s.procs[i])
  {
    match s.procs[i]
    case LookupSubs(a) => Goto(Missing(s, a), i, Idle)
    case LoadSubs(a, cause, _) =>
      var task := if cause.ForFriend? then UpdateFriend(cause.user, a) else UpdateFeed(a);
      Goto(s.(subLocks := if OwnsSubLock(s, i, a) then s.subLocks - {a} else s.subLocks,
              damage := AfterLoss(s.damage, s.db, task)),
           i, Idle)
    case LoadFeed(u, client, _) =>
      Goto((if client.Worker? then Unrefreshed(s, u) else s).(
             feedLocks := if OwnsFeedLock(s, i, u) then s.feedLocks - {u} else s.feedLocks),
           i, if client.Worker? then StartFeeds(client.todo) else Idle)
    case Publish(u, _, todo) =>
      Goto(s.(damage := s.damage.(muted := s.damage.muted + {u})), i, StartFeeds(todo))
    case _ => Goto(s, i, Idle)
  }

  /** What happens around the goroutines: no other part of the state changes. */
  lemma EnvironmentEffects(s: State, task: Task, key: UserId)
    ensures Apply(s, RequestFlush) == s.(pending := s.pending + multiset{InvalidateAll})
    ensures task in s.pending ==> Apply(s, Redeliver(task)).pending[task] == s.pending[task] + 1
    ensures var t := Apply(s, EvictSubs(key));
      key !in t.subs && forall k :: k != key ==>
        (k in t.subs <==> k in s.subs) && (k in t.subs ==> t.subs[k] == s.subs[k])
    ensures var t := Apply(s, EvictFeed(key));
      key !in t.feeds && forall k :: k != key ==>
        (k in t.feeds <==> k in s.feeds) && (k in t.feeds ==> t.feeds[k] == s.feeds[k])
    ensures key !in Apply(s, ExpireSubLock(key)).subLocks && key !in Apply(s, ExpireFeedLock(key)).feedLocks
  {
  }

  /** Writes, flushes, evictions and expiries come at any time; what is pending may be repeated, lost or taken. */
  lemma AnythingMayHappen(s: State, w: Write, task: Task, key: UserId, i: nat)
    requires i < |s.procs|
    ensures Enabled(s, DoWrite(w)) && Enabled(s, RequestFlush)
    ensures Enabled(s, EvictSubs(key)) && Enabled(s, EvictFeed(key))
    ensures Enabled(s, ExpireSubLock(key)) && Enabled(s, ExpireFeedLock(key))
    ensures Enabled(s, Redeliver(task)) <==> task in s.pending
    ensures Enabled(s, Lose(task)) <==> task in s.pending
    ensures s.procs[i] == Idle && i < s.workers && task in s.pending ==> Enabled(s, Take(i, task))
    ensures s.procs[i] == Idle && i >= s.workers ==> Enabled(s, Serve(i, key))
  {
  }

  /**
   A goroutine at work can always go on, unless somebody else has the lock it waits for; it
   can fail at every access until its entry is saved, and every answer of the database can be
   cut short.
   */
  lemma AnyAccessMayFail(s: State, i: nat, rows: nat)
    requires i < |s.procs|
    ensures var p := s.procs[i];
      var saved := (p.LoadSubs? && p.subsPhase.Saved?) || (p.LoadFeed? && p.feedPhase.Saved?);
      var waits := (p.LoadSubs? && p.subsPhase.Wait? && p.author in s.subLocks)
                   || (p.LoadFeed? && p.feedPhase.Wait? && p.user in s.feedLocks);
      && (Enabled(s, Fail(i)) <==> p != Idle && !saved)
      && (Enabled(s, Advance(i)) <==> p != Idle && !waits)
      && (p.LoadFeed? && p.feedPhase.Locked? && rows < |FeedOf(s, p.user)| ==> Enabled(s, CutShort(i, rows)))
      && (p.LoadSubs? && p.subsPhase.Locked? && rows < |Subscribers(s.db.friends, p.author)| ==>
           Enabled(s, CutShort(i, rows)))
  {
  }

  /** `steps`, one after the other, lead from `s` to `t`. */
  ghost predicate Leads(s: State, steps: seq<Step>, t: State)
    decreases |steps|
  {
    if steps == [] then s == t
    else Enabled(s, steps[0]) && Leads(Apply(s, steps[0]), steps[1..], t)
  }

  lemma {:induction false} LeadsOn(s: State, xs: seq<Step>, t: State, ys: seq<Step>, r: State)
    requires Leads(s, xs, t) && Leads(t, ys, r)
    ensures Leads(s, xs + ys, r)
    decreases |xs|
  {
    if xs == [] {
      assert xs + ys == ys;
    } else {
      LeadsOn(Apply(s, xs[0]), xs[1..], t, ys, r);
      assert (xs + ys)[1..] == xs[1..] + ys;
    }
  }

  lemma OneMore(s: State, steps: seq<Step>, t: State, step: Step)
    requires Leads(s, steps, t) && Enabled(t, step)
    ensures Leads(s, steps + [step], Apply(t, step))
  {
    assert Leads(Apply(t, step), [step][1..], Apply(t, step));
    LeadsOn(s, steps, t, [step], Apply(t, step));
  }

  /** The service has just started: nobody is at work, and whatever is cached is up to date. */
  ghost predicate Initial(s: State) {
    && Valid(s.db)
    && (forall i :: 0 <= i < |s.procs| ==> s.procs[i].Idle?)
    && s.subLocks == map[] && s.feedLocks == map[] && s.damage == NONE
    && (forall a, u :: a in s.subs ==> (u in s.subs[a] <==> Follows(s.db, u, a)))
    && (forall u :: u in s.feeds ==> s.feeds[u] == FeedOf(s, u))
    && (forall u :: u in s.published ==> s.published[u] == FeedOf(s, u))
  }
}
