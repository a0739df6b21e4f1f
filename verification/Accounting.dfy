/**
 The account of damage is only an account: what it says makes no difference to what the
 goroutines, the caches and the queue do.
 */
module Accounting {
  import opened Users
  import opened SocialDb
  import opened Protocol
  import opened Obligations
  import opened Coherence

  ghost predicate SameButDamage(s: State, t: State) {
    && t.db == s.db && t.maxLength == s.maxLength && t.workers == s.workers && t.pending == s.pending
    && t.procs == s.procs && t.subs == s.subs && t.feeds == s.feeds && t.published == s.published
    && t.subLocks == s.subLocks && t.feedLocks == s.feedLocks
  }

  // ---------------------------------------------------------------- bookkeeping

  lemma QueryIsBookkeeping(s: State, i: nat, a: UserId, cause: Cause)
    ensures SameButDamage(s, SubsQueried(s, i, a, cause)) && SameButDamage(s, Missing(s, a))
  {
  }

  lemma FeedQueryIsBookkeeping(s: State, i: nat, u: UserId, client: Client)
    ensures SameButDamage(s, FeedQueried(s, i, u, client)) && SameButDamage(s, Unrefreshed(s, u))
  {
  }

  /** Two states that differ from `s` and `t` in the account only. */
  lemma BothBooked(s: State, t: State, x: State, y: State)
    requires SameButDamage(s, t) && SameButDamage(s, x) && SameButDamage(t, y)
    ensures SameButDamage(x, y)
  {
  }

  lemma GotoAlike(s: State, t: State, i: nat, p: Proc, q: Proc)
    requires SameButDamage(s, t) && i < |s.procs| && p == q
    ensures SameButDamage(Goto(s, i, p), Goto(t, i, q))
  {
  }

  // ---------------------------------------------------------------- goroutines

  lemma LoadSubsIgnoresDamage(s: State, t: State, i: nat, a: UserId, cause: Cause, phase: Phase<seq<UserId>>)
    requires SameButDamage(s, t) && i < |s.procs|
    ensures SameButDamage(AdvanceLoadSubs(s, i, a, cause, phase), AdvanceLoadSubs(t, i, a, cause, phase))
  {
    match phase
    case Wait =>
    case Locked => SubsQueryIgnoresDamage(s, t, i, a, cause);
    case Loaded(v) =>
      var p := LoadSubs(a, cause, Saved(v));
      GotoAlike(SubsSaved(s, i, a, v), SubsSaved(t, i, a, v), i, p, p);
    case Saved(v) => ReleaseIgnoresDamage(s, t, i, a, cause, v);
  }

  lemma SubsQueryIgnoresDamage(s: State, t: State, i: nat, a: UserId, cause: Cause)
    requires SameButDamage(s, t) && i < |s.procs|
    ensures SameButDamage(AdvanceLoadSubs(s, i, a, cause, Locked), AdvanceLoadSubs(t, i, a, cause, Locked))
  {
    var p := LoadSubs(a, cause, Loaded(Subscribers(s.db.friends, a)));
    QueryIsBookkeeping(s, i, a, cause);
    QueryIsBookkeeping(t, i, a, cause);
    BothBooked(s, t, SubsQueried(s, i, a, cause), SubsQueried(t, i, a, cause));
    GotoAlike(SubsQueried(s, i, a, cause), SubsQueried(t, i, a, cause), i, p, p);
  }

  lemma ReleaseIgnoresDamage(s: State, t: State, i: nat, a: UserId, cause: Cause, v: seq<UserId>)
    requires SameButDamage(s, t) && i < |s.procs|
    ensures SameButDamage(AdvanceLoadSubs(s, i, a, cause, Saved(v)), AdvanceLoadSubs(t, i, a, cause, Saved(v)))
  {
    var p := AfterSubs(cause, v);
    if OwnsSubLock(s, i, a) {
      GotoAlike(s.(subLocks := s.subLocks - {a}), t.(subLocks := t.subLocks - {a}), i, p, p);
    } else if cause.ForFriend? {
      GotoAlike(s, t, i, p, p);
    } else {
      BothBooked(s, t, Missing(s, a), Missing(t, a));
      GotoAlike(Missing(s, a), Missing(t, a), i, p, p);
    }
  }

  lemma LoadFeedIgnoresDamage(s: State, t: State, i: nat, u: UserId, client: Client, phase: Phase<Feed>)
    requires SameButDamage(s, t) && i < |s.procs|
    ensures SameButDamage(AdvanceLoadFeed(s, i, u, client, phase), AdvanceLoadFeed(t, i, u, client, phase))
  {
    match phase
    case Wait =>
    case Locked => FeedQueryIgnoresDamage(s, t, i, u, client);
    case Loaded(v) => FeedSaveIgnoresDamage(s, t, i, u, client, v);
    case Saved(v) =>
      var p := if client.Worker? then Publish(u, v, client.todo) else Idle;
      if OwnsFeedLock(s, i, u) {
        GotoAlike(s.(feedLocks := s.feedLocks - {u}), t.(feedLocks := t.feedLocks - {u}), i, p, p);
      } else {
        GotoAlike(s, t, i, p, p);
      }
  }

  lemma FeedQueryIgnoresDamage(s: State, t: State, i: nat, u: UserId, client: Client)
    requires SameButDamage(s, t) && i < |s.procs|
    ensures SameButDamage(AdvanceLoadFeed(s, i, u, client, Locked), AdvanceLoadFeed(t, i, u, client, Locked))
  {
    FeedQueryIsBookkeeping(s, i, u, client);
    FeedQueryIsBookkeeping(t, i, u, client);
    BothBooked(s, t, FeedQueried(s, i, u, client), FeedQueried(t, i, u, client));
    GotoAlike(FeedQueried(s, i, u, client), FeedQueried(t, i, u, client), i,
              LoadFeed(u, client, Loaded(FeedOf(s, u))), LoadFeed(u, client, Loaded(FeedOf(t, u))));
  }

  lemma FeedSaveIgnoresDamage(s: State, t: State, i: nat, u: UserId, client: Client, v: Feed)
    requires SameButDamage(s, t) && i < |s.procs|
    ensures SameButDamage(AdvanceLoadFeed(s, i, u, client, Loaded(v)), AdvanceLoadFeed(t, i, u, client, Loaded(v)))
  {
    var p := LoadFeed(u, client, Saved(v));
    GotoAlike(FeedSaved(s, i, u, v), FeedSaved(t, i, u, v), i, p, p);
  }

  lemma AdvanceIgnoresDamage(s: State, t: State, i: nat)
    requires SameButDamage(s, t) && i < |s.procs| && CanAdvance(s, s.procs[i])
    ensures SameButDamage(AdvanceProc(s, i), AdvanceProc(t, i))
  {
    match s.procs[i]
    case LoadSubs(a, cause, phase) => LoadSubsIgnoresDamage(s, t, i, a, cause, phase);
    case LoadFeed(u, client, phase) => LoadFeedIgnoresDamage(s, t, i, u, client, phase);
    case LookupSubs(a) => LookupIgnoresDamage(s, t, i, a);
    case _ => OtherAdvanceIgnoresDamage(s, t, i);
  }

  lemma LookupIgnoresDamage(s: State, t: State, i: nat, a: UserId)
    requires SameButDamage(s, t) && i < |s.procs| && s.procs[i] == LookupSubs(a)
    ensures SameButDamage(AdvanceProc(s, i), AdvanceProc(t, i))
  {
    if a !in s.subs {
      GotoAlike(s, t, i, LoadSubs(a, ForPosts, Wait), LoadSubs(a, ForPosts, Wait));
    } else {
      var x := if a in s.damage.lists then Missing(s, a) else s;
      var y := if a in t.damage.lists then Missing(t, a) else t;
      BothBooked(s, t, x, y);
      GotoAlike(x, y, i, StartFeeds(s.subs[a]), StartFeeds(s.subs[a]));
    }
  }

  lemma OtherAdvanceIgnoresDamage(s: State, t: State, i: nat)
    requires SameButDamage(s, t) && i < |s.procs| && CanAdvance(s, s.procs[i])
    requires !s.procs[i].LoadSubs? && !s.procs[i].LoadFeed? && !s.procs[i].LookupSubs?
    ensures SameButDamage(AdvanceProc(s, i), AdvanceProc(t, i))
  {
    match s.procs[i]
    case Publish(u, v, todo) =>
    case FlushSubs =>
    case FlushFeeds =>
    case LookupFeed(u) =>
  }

  lemma FailureIgnoresDamage(s: State, t: State, i: nat)
    requires SameButDamage(s, t) && i < |s.procs| && CanFail(s.procs[i])
    ensures SameButDamage(FailProc(s, i), FailProc(t, i))
  {
    match s.procs[i]
    case LookupSubs(a) =>
      BothBooked(s, t, Missing(s, a), Missing(t, a));
      GotoAlike(Missing(s, a), Missing(t, a), i, Idle, Idle);
    case LoadSubs(_, _, _) =>
    case LoadFeed(u, client, _) => LoadFeedFailureIgnoresDamage(s, t, i, u, client);
    case Publish(_, _, _) =>
    case _ => GotoAlike(s, t, i, Idle, Idle);
  }

  lemma LoadFeedFailureIgnoresDamage(s: State, t: State, i: nat, u: UserId, client: Client)
    requires SameButDamage(s, t) && i < |s.procs| && CanFail(s.procs[i])
    requires s.procs[i].LoadFeed? && s.procs[i].user == u && s.procs[i].client == client
    ensures SameButDamage(FailProc(s, i), FailProc(t, i))
  {
    var x := if client.Worker? then Unrefreshed(s, u) else s;
    var y := if client.Worker? then Unrefreshed(t, u) else t;
    BothBooked(s, t, x, y);
    var locks := if OwnsFeedLock(s, i, u) then s.feedLocks - {u} else s.feedLocks;
    var p := if client.Worker? then StartFeeds(client.todo) else Idle;
    GotoAlike(x.(feedLocks := locks), y.(feedLocks := locks), i, p, p);
  }

  lemma CutIgnoresDamage(s: State, t: State, i: nat, rows: nat)
    requires SameButDamage(s, t) && i < |s.procs| && CanBeCut(s, s.procs[i], rows)
    ensures SameButDamage(CutProc(s, i, rows), CutProc(t, i, rows))
  {
    match s.procs[i]
    case LoadSubs(a, cause, _) => CutSubsIgnoresDamage(s, t, i, a, cause, rows);
    case LoadFeed(u, client, _) =>
      BothBooked(s, t, Unrefreshed(s, u), Unrefreshed(t, u));
      GotoAlike(Unrefreshed(s, u), Unrefreshed(t, u), i, LoadFeed(u, client, Loaded(FeedOf(s, u)[..rows])),
                LoadFeed(u, client, Loaded(FeedOf(t, u)[..rows])));
  }

  lemma CutSubsIgnoresDamage(s: State, t: State, i: nat, a: UserId, cause: Cause, rows: nat)
    requires SameButDamage(s, t) && i < |s.procs| && rows < |Subscribers(s.db.friends, a)|
    ensures SameButDamage(CutSubs(s, i, a, cause, rows), CutSubs(t, i, a, cause, rows))
  {
    var all := Subscribers(s.db.friends, a);
    var missing, p := set u | u in all[rows..] :: (u, a), LoadSubs(a, cause, Loaded(all[..rows]));
    QueryIsBookkeeping(s, i, a, cause);
    QueryIsBookkeeping(t, i, a, cause);
    var x, y := SubsQueried(s, i, a, cause), SubsQueried(t, i, a, cause);
    BothBooked(s, t, x, y);
    GotoAlike(x.(damage := x.damage.(pairs := x.damage.pairs + missing)),
              y.(damage := y.damage.(pairs := y.damage.pairs + missing)), i, p, p);
  }

  // ---------------------------------------------------------------- what goes on the account

  /** The goroutine has something to do with the feed of `u`. */
  predicate Concerned(p: Proc, db: Db, u: UserId) {
    match p
    case LookupSubs(a) => Follows(db, u, a)
    case LoadSubs(a, cause, _) => Follows(db, u, a) || (cause.ForFriend? && cause.user == u)
    case LoadFeed(v, _, _) => v == u
    case _ => false
  }

  /** A step puts nobody's feed on the account but those its goroutine, or the lost notification, has to do with. */
  lemma DamageIsLocal(s: State, step: Step, u: UserId)
    requires Valid(s.db) && Enabled(s, step) && !FeedSpoilt(s, u) && FeedSpoilt(Apply(s, step), u)
    ensures match step
      case Lose(task) => TaskRefreshes(task, s.db, u)
      case Advance(i) => Concerned(s.procs[i], s.db, u)
      case Fail(i) => Concerned(s.procs[i], s.db, u)
      case CutShort(i, _) => Concerned(s.procs[i], s.db, u)
      case _ => false
  {
    match step
    case Lose(task) => LossSpoils(s, task, u);
    case Advance(i) => AdvanceDamageIsLocal(s, i, u);
    case Fail(i) => FailureDamageIsLocal(s, i, u);
    case CutShort(i, rows) => CutDamageIsLocal(s, i, rows, u);
    case _ =>
  }

  lemma MissingIsFollower(s: State, a: UserId, u: UserId)
    ensures u in Missing(s, a).damage.feeds <==> u in s.damage.feeds || Follows(s.db, u, a)
  {
    if Follows(s.db, u, a) { assert FriendRow(u, a).user == u; }
  }

  lemma AdvanceDamageIsLocal(s: State, i: nat, u: UserId)
    requires i < |s.procs| && CanAdvance(s, s.procs[i]) && !FeedSpoilt(s, u) && FeedSpoilt(AdvanceProc(s, i), u)
    ensures Concerned(s.procs[i], s.db, u)
  {
    match s.procs[i]
    case LookupSubs(a) =>
      MissingIsFollower(s, a, u);
      assert AdvanceProc(s, i).damage.pairs == s.damage.pairs;
    case LoadSubs(a, cause, phase) => LoadSubsDamage(s, i, a, cause, phase, u);
    case LoadFeed(v, client, phase) => LoadFeedDamage(s, i, v, client, phase, u);
    case _ => OtherAdvanceDamage(s, i);
  }

  lemma OtherAdvanceDamage(s: State, i: nat)
    requires i < |s.procs| && CanAdvance(s, s.procs[i])
    requires !s.procs[i].LoadSubs? && !s.procs[i].LoadFeed? && !s.procs[i].LookupSubs?
    ensures AdvanceProc(s, i).damage.feeds == s.damage.feeds && AdvanceProc(s, i).damage.pairs == s.damage.pairs
  {
  }

  lemma LoadSubsDamage(s: State, i: nat, a: UserId, cause: Cause, phase: Phase<seq<UserId>>, u: UserId)
    requires i < |s.procs| && !FeedSpoilt(s, u) && FeedSpoilt(AdvanceLoadSubs(s, i, a, cause, phase), u)
    ensures Follows(s.db, u, a) || (cause.ForFriend? && cause.user == u)
  {
    var t := AdvanceLoadSubs(s, i, a, cause, phase);
    LoadSubsFeedDamage(s, i, a, cause, phase, u);
    if b :| (u, b) in t.damage.pairs {
      LoadSubsPairDamage(s, i, a, cause, phase, u, b);
    }
  }

  lemma LoadSubsFeedDamage(s: State, i: nat, a: UserId, cause: Cause, phase: Phase<seq<UserId>>, u: UserId)
    requires i < |s.procs|
    ensures u in AdvanceLoadSubs(s, i, a, cause, phase).damage.feeds ==> u in s.damage.feeds || Follows(s.db, u, a)
  {
    MissingIsFollower(s, a, u);
  }

  lemma LoadSubsPairDamage(s: State, i: nat, a: UserId, cause: Cause, phase: Phase<seq<UserId>>, u: UserId, b: UserId)
    requires i < |s.procs|
    ensures (u, b) in AdvanceLoadSubs(s, i, a, cause, phase).damage.pairs ==>
      (u, b) in s.damage.pairs || (cause.ForFriend? && cause.user == u)
  {
  }

  lemma LoadFeedDamage(s: State, i: nat, v: UserId, client: Client, phase: Phase<Feed>, u: UserId)
    requires i < |s.procs| && !FeedSpoilt(s, u) && FeedSpoilt(AdvanceLoadFeed(s, i, v, client, phase), u)
    ensures u == v
  {
    var t := AdvanceLoadFeed(s, i, v, client, phase);
    assert t.damage.pairs == s.damage.pairs;
    assert u in t.damage.feeds && u !in s.damage.feeds;
  }

  lemma FailureDamageIsLocal(s: State, i: nat, u: UserId)
    requires i < |s.procs| && CanFail(s.procs[i]) && !FeedSpoilt(s, u) && FeedSpoilt(FailProc(s, i), u)
    ensures Concerned(s.procs[i], s.db, u)
  {
    match s.procs[i]
    case LookupSubs(a) => MissingIsFollower(s, a, u);
    case LoadSubs(a, _, _) => MissingIsFollower(s, a, u);
    case _ =>
  }

  lemma CutDamageIsLocal(s: State, i: nat, rows: nat, u: UserId)
    requires Valid(s.db)
    requires i < |s.procs| && CanBeCut(s, s.procs[i], rows) && !FeedSpoilt(s, u) && FeedSpoilt(CutProc(s, i, rows), u)
    ensures Concerned(s.procs[i], s.db, u)
  {
    match s.procs[i]
    case LoadSubs(a, cause, _) => CutSubsDamage(s, i, a, cause, rows, u);
    case LoadFeed(v, _, _) =>
      var t := CutProc(s, i, rows);
      assert t.damage.pairs == s.damage.pairs && t.damage.feeds == s.damage.feeds + {v};
  }

  lemma CutSubsDamage(s: State, i: nat, a: UserId, cause: Cause, rows: nat, u: UserId)
    requires Valid(s.db) && i < |s.procs| && rows < |Subscribers(s.db.friends, a)|
    requires !FeedSpoilt(s, u) && FeedSpoilt(CutSubs(s, i, a, cause, rows), u)
    ensures Follows(s.db, u, a) || (cause.ForFriend? && cause.user == u)
  {
    var t := CutSubs(s, i, a, cause, rows);
    assert t.damage.feeds == s.damage.feeds;
    var b :| (u, b) in t.damage.pairs;
    CutSubsPairDamage(s, i, a, cause, rows, u, b);
  }

  lemma CutSubsPairDamage(s: State, i: nat, a: UserId, cause: Cause, rows: nat, u: UserId, b: UserId)
    requires Valid(s.db) && i < |s.procs| && rows < |Subscribers(s.db.friends, a)|
    ensures (u, b) in CutSubs(s, i, a, cause, rows).damage.pairs ==>
      (u, b) in s.damage.pairs || Follows(s.db, u, a) || (cause.ForFriend? && cause.user == u)
  {
    SubscribersMeaning(s.db.friends, a);
  }

  // ---------------------------------------------------------------- runs

  lemma StepIgnoresDamage(s: State, t: State, step: Step)
    requires SameButDamage(s, t) && Enabled(s, step)
    ensures Enabled(t, step) && Fault(t, step) == Fault(s, step)
    ensures SameButDamage(Apply(s, step), Apply(t, step))
  {
    match step
    case Advance(i) => AdvanceIgnoresDamage(s, t, i);
    case Fail(i) => FailureIgnoresDamage(s, t, i);
    case CutShort(i, rows) => CutIgnoresDamage(s, t, i, rows);
    case _ =>
  }

  /** Every run has its counterpart from the state with another account. */
  lemma {:induction false} RunIgnoresDamage(s: State, t: State, steps: seq<Step>, r: State) returns (q: State)
    requires SameButDamage(s, t) && Leads(s, steps, r)
    ensures Leads(t, steps, q) && SameButDamage(r, q)
    ensures FaultFree(s, steps) ==> FaultFree(t, steps)
    decreases |steps|
  {
    if steps == [] {
      return t;
    }
    StepIgnoresDamage(s, t, steps[0]);
    q := RunIgnoresDamage(Apply(s, steps[0]), Apply(t, steps[0]), steps[1..], r);
  }
}
