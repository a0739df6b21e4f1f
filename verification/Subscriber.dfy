/**
 The subscription service itself, its maps changed in place under the mutex, and the
 WebSocket handlers that use it.
 */
module Subscriber {
  import opened Wrappers
  import opened Users
  import opened Subscriptions

  datatype SubscribeError = ConsumerNotStarted | NothingReceived
  datatype StopError = ConsumerNotStopped

  class PostFeedUserSubscriber<Feed> {
    var consumers: map<UserId, ConsumerId>
    var activeSubscribers: map<UserId, map<SubId, Chan>>
    var nextSub: nat
    var nextConsumer: nat
    // what the rest of the program can observe
    ghost var closed: multiset<Chan>
    ghost var goroutines: map<ConsumerId, UserId>
    ghost var running: set<ConsumerId>
    ghost var delivered: map<Chan, seq<Feed>>

    ghost function State(): Registry
      reads this
    {
      Registry(consumers, activeSubscribers, closed, goroutines, running, nextSub, nextConsumer)
    }

    constructor ()
      ensures State() == EMPTY && Inv(State())
      ensures delivered == map[]
    {
      consumers, activeSubscribers, nextSub, nextConsumer := map[], map[], 0, 0;
      closed, goroutines, running, delivered := multiset{}, map[], {}, map[];
    }

    /** close(channel): closing a closed channel would panic. */
    method Close(c: Chan)
      requires c !in closed
      modifies this`closed
      ensures closed == old(closed) + multiset{c}
    {
      closed := closed + multiset{c};
    }

    /** Starts a consumer of the user's queue and the goroutine that reads it. */
    method PrepareConsumer(u: UserId, start: Start) returns (r: Result<ConsumerId, SubscribeError>)
      modifies this`nextConsumer, this`goroutines, this`running
      ensures !start.Starts? ==> r.Failure? && State() == Abandoned(old(State()), start)
      ensures start.Starts? ==>
        && r == Success(old(nextConsumer)) && nextConsumer == old(nextConsumer) + 1
        && goroutines == old(goroutines)[old(nextConsumer) := u] && running == old(running) + {old(nextConsumer)}
      ensures start.NotStarted? ==> r == Failure(ConsumerNotStarted)
      ensures start.NoData? ==> r == Failure(NothingReceived)
      ensures !start.Starts? ==>
        && goroutines == old(goroutines)
        && running == old(running) + if start == NoData(true) then {old(nextConsumer)} else {}
    {
      if start.NotStarted? {
        return Failure(ConsumerNotStarted);
      }
      var consumer := nextConsumer;
      nextConsumer := nextConsumer + 1;
      if start.NoData? {
        // the consumer is stopped again
        if start.stopFails { running := running + {consumer}; }
        return Failure(NothingReceived);
      }
      running := running + {consumer};
      goroutines := goroutines[consumer := u];
      r := Success(consumer);
    }

    method SubscribePostFeed(u: UserId, start: Start) returns (r: Result<(SubId, Chan), SubscribeError>)
      requires Inv(State())
      modifies this`consumers, this`activeSubscribers, this`nextSub, this`nextConsumer, this`goroutines, this`running
      ensures Inv(State())
      ensures State() == Subscribed(old(State()), u, start)
      ensures r.Failure? <==> Refused(old(State()), u, start)
      ensures r.Success? ==> r.value.1 !in closed && r.value.0 == old(nextSub)
      ensures r.Success? ==> Registered(State(), u, r.value.0) && activeSubscribers[u][r.value.0] == r.value.1
      ensures r.Failure? <==> u !in old(consumers) && !start.Starts?
      ensures r.Failure? ==> activeSubscribers == old(activeSubscribers) && consumers == old(consumers)
      ensures r.Success? ==> forall v, id: SubId ::
        Registered(State(), v, id) <==> old(Registered(State(), v, id)) || (v == u && id == r.value.0)
      ensures r.Success? ==>
        consumers == if u in old(consumers) then old(consumers) else old(consumers)[u := old(nextConsumer)]
    {
      SubscribedKeepsInv(State(), u, start);
      r := AddSubscription(u, start);
      if r.Success? {
        SubscribedRegisters(old(State()), u, start);
        RegisteredIsOpen(State(), u, r.value.0);
      }
    }

    method AddSubscription(u: UserId, start: Start) returns (r: Result<(SubId, Chan), SubscribeError>)
      modifies this`consumers, this`activeSubscribers, this`nextSub, this`nextConsumer, this`goroutines, this`running
      ensures State() == Subscribed(old(State()), u, start)
      ensures r.Failure? <==> Refused(old(State()), u, start)
      ensures r.Success? ==> r.value.0 == old(nextSub)
      ensures r.Success? ==> Registered(State(), u, r.value.0) && activeSubscribers[u][r.value.0] == r.value.1
    {
      if u !in consumers {
        var consumer := PrepareConsumer(u, start);
        if consumer.Failure? {
          return Failure(consumer.error);
        }
        consumers := consumers[u := consumer.value];
      }
      var id, c := nextSub, nextSub;
      var mine := if u in activeSubscribers then activeSubscribers[u] else map[];
      activeSubscribers := activeSubscribers[u := mine[id := c]];
      nextSub := nextSub + 1;
      r := Success((id, c));
    }

    lemma RegisteredIsOpen(r: Registry, u: UserId, id: SubId)
      requires Inv(r) && Registered(r, u, id)
      ensures r.active[u][id] !in r.closed && u in r.consumers
    {
      assert Live(r, id);
    }

    /** Unknown subscriptions are ignored; the last one of a user stops the consumer. */
    method UnsubscribePostFeed(u: UserId, id: SubId, stopFails: bool) returns (error: Option<StopError>)
      requires Inv(State())
      modifies this`consumers, this`activeSubscribers, this`closed, this`running
      ensures Inv(State())
      ensures State() == Unsubscribed(old(State()), u, id, stopFails)
      ensures error.Some? <==> stopFails && u in old(activeSubscribers) && old(activeSubscribers)[u].Keys == {id}
      ensures forall v, i: SubId ::
        Registered(State(), v, i) <==> old(Registered(State(), v, i)) && !(v == u && i == id)
      ensures old(Registered(State(), u, id)) ==> closed == old(closed) + multiset{old(activeSubscribers)[u][id]}
      ensures !old(Registered(State(), u, id)) ==> State() == old(State())
      ensures u !in activeSubscribers && u in old(activeSubscribers) ==>
        && consumers == old(consumers) - {u}
        && (!stopFails && u in old(consumers) ==> running == old(running) - {old(consumers)[u]})
      ensures u in activeSubscribers ==> consumers == old(consumers) && running == old(running)
    {
      ghost var before := State();
      assert Registered(before, u, id) ==> before.active[u][id] !in before.closed && u in before.consumers by {
        if Registered(before, u, id) { RegisteredIsOpen(before, u, id); }
      }
      error := RemoveSubscription(u, id, stopFails);
      assert State() == Unsubscribed(before, u, id, stopFails);
      assert Inv(State()) by { UnsubscribedKeepsInv(before, u, id, stopFails); }
      if Registered(before, u, id) { UnsubscribedRegisters(before, u, id, stopFails); }
    }

    /** Without the registered consumer the last removal would be a nil dereference. */
    method RemoveSubscription(u: UserId, id: SubId, stopFails: bool) returns (error: Option<StopError>)
      requires Registered(State(), u, id) ==> activeSubscribers[u][id] !in closed && u in consumers
      modifies this`consumers, this`activeSubscribers, this`closed, this`running
      ensures State() == Unsubscribed(old(State()), u, id, stopFails)
      ensures error.Some? <==> stopFails && u in old(activeSubscribers) && old(activeSubscribers)[u].Keys == {id}
    {
      if u !in activeSubscribers || id !in activeSubscribers[u] {
        return None;
      }
      var mine := activeSubscribers[u];
      Close(mine[id]);
      var rest: map<SubId, Chan> := mine - {id};
      if rest != map[] {
        OtherKey(mine, id);
        activeSubscribers := activeSubscribers[u := rest];
        return None;
      }
      OnlyKey(mine, id);
      activeSubscribers := activeSubscribers - {u};
      var consumer := consumers[u];
      consumers := consumers - {u};
      if stopFails {
        return Some(ConsumerNotStopped);
      }
      running := running - {consumer};
      error := None;
    }

    lemma OnlyKey(m: map<SubId, Chan>, id: SubId)
      requires id in m && m - {id} == map[]
      ensures m.Keys == {id}
    {
      forall k | k in m ensures k == id {
        assert k != id ==> k in m - {id};
      }
    }

    lemma OtherKey(m: map<SubId, Chan>, id: SubId)
      requires id in m && m - {id} != map[]
      ensures m.Keys != {id}
    {
      var k :| k in m - {id};
    }

    /** The deferred cleanup of the goroutine of consumer `g`, which reads the queue of `u`. */
    method Cleanup(g: ConsumerId, u: UserId, stopFails: bool)
      requires Inv(State()) && g in goroutines && goroutines[g] == u
      modifies this`consumers, this`activeSubscribers, this`closed, this`goroutines, this`running
      ensures Inv(State())
      ensures State() == CleanedUp(old(State()), g, stopFails)
      ensures forall v, i: SubId :: Registered(State(), v, i) <==> old(Registered(State(), v, i)) && v != u
      ensures forall i: SubId :: old(Registered(State(), u, i)) ==> i !in old(closed) && closed[i] == 1
      ensures consumers == old(consumers) - {u} && goroutines == old(goroutines) - {g}
      ensures u in old(consumers) && !stopFails ==> running == old(running) - {g}
    {
      ghost var before := State();
      if u in activeSubscribers { CloseAll(u, before); }
      Forget(g, u, stopFails);
      assert State() == CleanedUp(before, g, stopFails);
      assert Inv(State()) by { CleanedUpKeepsInv(before, g, stopFails); }
      CleanedUpCloses(before, g, stopFails);
      ClosedByCleanup(before, State(), u);
    }

    lemma ClosedByCleanup(r: Registry, t: Registry, u: UserId)
      requires Inv(r) && Inv(t) && t.nextSub == r.nextSub
      requires forall v, i: SubId :: Registered(t, v, i) <==> Registered(r, v, i) && v != u
      ensures forall i: SubId :: Registered(r, u, i) ==> i !in r.closed && t.closed[i] == 1
    {
      forall i: SubId | Registered(r, u, i) ensures i !in r.closed && t.closed[i] == 1 {
        assert Live(r, i);
        forall v | true ensures !Registered(t, v, i) {
        }
        assert !Live(t, i);
      }
    }

    method Forget(g: ConsumerId, u: UserId, stopFails: bool)
      modifies this`consumers, this`activeSubscribers, this`goroutines, this`running
      ensures goroutines == old(goroutines) - {g}
      ensures activeSubscribers == old(activeSubscribers) - {u} && consumers == old(consumers) - {u}
      ensures running == if u !in old(consumers) || stopFails then old(running) else old(running) - {g}
    {
      goroutines := goroutines - {g};
      activeSubscribers := activeSubscribers - {u};
      // an unsubscription may have removed the consumer already
      if u !in consumers {
        assert consumers == consumers - {u};
        return;
      }
      if !stopFails {
        running := running - {g};
      }
      consumers := consumers - {u};
    }

    /** Closes the channels of all subscriptions of `u`. */
    method CloseAll(u: UserId, ghost before: Registry)
      requires Inv(before) && u in activeSubscribers
      requires activeSubscribers == before.active && closed == before.closed
      modifies this`closed
      ensures closed == old(closed) + multiset(activeSubscribers[u].Values)
    {
      ChannelsAreIds(before, u);
      AllOpen(before, u);
      CloseEach(activeSubscribers[u]);
    }

    /** Closes channels one after the other. */
    method CloseEach(mine: map<SubId, Chan>)
      requires forall id: SubId :: id in mine ==> mine[id] == id && id !in closed
      modifies this`closed
      ensures closed == old(closed) + multiset(mine.Keys)
    {
      var ids := mine.Keys;
      ghost var before := closed;
      while ids != {}
        invariant ids <= mine.Keys
        invariant closed == before + multiset(mine.Keys - ids)
        decreases ids
      {
        var id :| id in ids;
        OneMoreClosed(before, mine.Keys, ids, id);
        Close(mine[id]);
        ids := ids - {id};
      }
      assert mine.Keys - {} == mine.Keys;
    }

    lemma AllOpen(r: Registry, u: UserId)
      requires Inv(r) && u in r.active
      ensures forall id: SubId :: id in r.active[u] ==> r.active[u][id] == id && id !in r.closed
    {
      forall id: SubId | id in r.active[u] ensures r.active[u][id] == id && id !in r.closed {
        assert Registered(r, u, id);
        assert Live(r, id);
      }
    }

    lemma OneMoreClosed(closed: multiset<Chan>, all: set<Chan>, left: set<Chan>, id: Chan)
      requires left <= all && id in left
      ensures closed + multiset(all - (left - {id})) == closed + multiset(all - left) + multiset{id}
      ensures id !in all - left
    {
      assert all - (left - {id}) == all - left + {id};
    }

    lemma ChannelsAreIds(r: Registry, u: UserId)
      requires OwnChannels(r) && u in r.active
      ensures r.active[u].Values == r.active[u].Keys
    {
      forall id: SubId | id in r.active[u] ensures r.active[u][id] == id {
        assert Registered(r, u, id);
      }
    }

    /**
     A message of the queue of `u` goes to every channel of `u` once, to no other channel,
     and to no closed one; a message that cannot be read goes nowhere.
     */
    method Deliver(u: UserId, message: Option<Feed>)
      requires Inv(State())
      modifies this`delivered
      ensures Inv(State())
      ensures forall c: Chan :: message.Some? && Registered(State(), u, c) ==>
        Received(c) == old(Received(c)) + [message.value]
      ensures forall c: Chan :: message.None? || !Registered(State(), u, c) ==> Received(c) == old(Received(c))
      ensures forall c: Chan :: Received(c) != old(Received(c)) ==> c !in closed
    {
      if message.Some? && u in activeSubscribers {
        forall id: SubId | id in activeSubscribers[u] ensures activeSubscribers[u][id] == id {
          assert Registered(State(), u, id);
        }
        DeliverEach(activeSubscribers[u], message.value);
      }
      forall c: Chan | Registered(State(), u, c) ensures c !in closed {
        assert Live(State(), c);
      }
    }

    /** Sends the feed to the channels one after the other. */
    method DeliverEach(mine: map<SubId, Chan>, feed: Feed)
      requires forall id: SubId :: id in mine ==> mine[id] == id
      modifies this`delivered
      ensures forall c: Chan :: Received(c) == old(Received(c)) + if c in mine then [feed] else []
    {
      var ids := mine.Keys;
      while ids != {}
        invariant ids <= mine.Keys
        invariant forall c: Chan :: Received(c) == old(Received(c)) + if c in mine.Keys - ids then [feed] else []
        decreases ids
      {
        var id :| id in ids;
        var c := mine[id];
        delivered := delivered[c := Received(c) + [feed]];
        ids := ids - {id};
      }
    }

    ghost function Received(c: Chan): seq<Feed>
      reads this`delivered
    {
      if c in delivered then delivered[c] else []
    }
  }

  // ---------------------------------------------------------------- handlers

  /** The done channel of a handler, closed through a sync.Once. */
  class DoneSignal {
    var fired: bool
    ghost var closes: nat

    ghost predicate Valid()
      reads this
    {
      closes == if fired then 1 else 0
    }

    constructor ()
      ensures Valid() && !fired
    {
      fired, closes := false, 0;
    }

    /** Called by the close handler and by the reading goroutine; only the first call closes. */
    method Fire()
      requires Valid()
      modifies this
      ensures Valid() && fired && closes == 1
    {
      if !fired {
        fired, closes := true, closes + 1;
      }
    }
  }

  /** What the select of a listening handler meets next. */
  datatype SelectEvent<Feed> = Done | PostsClosed | FeedArrived(feed: Feed)

  /** What a handler writes to its connection. */
  datatype Frame<Feed> = AbnormalClosure | ConnectionClosed | FeedFrame(feed: Feed)

  /** The select loop: it writes every feed before the first other event, and then a closing frame. */
  method Listen<Feed>(events: nat -> SelectEvent<Feed>, ghost end: nat) returns (frames: seq<Frame<Feed>>)
    requires !events(end).FeedArrived? && forall i: nat :: i < end ==> events(i).FeedArrived?
    ensures |frames| == end + 1 && frames[end] == ConnectionClosed
    ensures forall i :: 0 <= i < end ==> frames[i] == FeedFrame(events(i).feed)
  {
    frames := [];
    var k := 0;
    while events(k).FeedArrived?
      invariant k <= end
      invariant |frames| == k && forall i :: 0 <= i < k ==> frames[i] == FeedFrame(events(i).feed)
      decreases end - k
    {
      frames := frames + [FeedFrame(events(k).feed)];
      k := k + 1;
    }
    frames := frames + [ConnectionClosed];
  }

  /**
   A handler on its own, from its subscription to its return: event `end` is the first that is
   no feed.  Its connection gets every feed before that, in order, and one closing frame, and
   it leaves nobody registered who was not registered before.
   */
  method Serve<Feed>(subscriber: PostFeedUserSubscriber<Feed>, user: UserId, start: Start, stopFails: bool,
                     events: nat -> SelectEvent<Feed>, ghost end: nat)
    returns (frames: seq<Frame<Feed>>)
    requires Inv(subscriber.State())
    requires !events(end).FeedArrived? && forall i: nat :: i < end ==> events(i).FeedArrived?
    modifies subscriber
    ensures Inv(subscriber.State())
    ensures subscriber.activeSubscribers == old(subscriber.activeSubscribers)
    ensures subscriber.consumers == old(subscriber.consumers)
    ensures !stopFails && start != NoData(true) ==> subscriber.running == old(subscriber.running)
    ensures user !in old(subscriber.consumers) && !start.Starts? ==> frames == [AbnormalClosure]
    ensures user in old(subscriber.consumers) || start.Starts? ==>
      && |frames| == end + 1 && frames[end] == ConnectionClosed
      && forall i :: 0 <= i < end ==> frames[i] == FeedFrame(events(i).feed)
  {
    ghost var before := subscriber.State();
    var r := subscriber.SubscribePostFeed(user, start);
    if r.Failure? {
      return [AbnormalClosure];
    }
    frames := Listen(events, end);
    // deferred
    var _ := subscriber.UnsubscribePostFeed(user, r.value.0, stopFails);
    UnsubscribedUndoesSubscribed(before, user, stopFails);
  }
}
