/**
 The registry of WebSocket subscriptions: for every user with subscriptions one registered
 queue consumer, and one channel per subscription.  The goroutine that reads a consumer runs
 its cleanup whenever its queue ends, however long after the consumer was replaced.
 */
module Subscriptions {
  import opened Users

  /** Subscriptions with their channels, and consumers, are numbered as created, never reused. */
  type SubId = nat
  type Chan = nat
  type ConsumerId = nat

  datatype Registry = Registry(
    consumers: map<UserId, ConsumerId>,
    active: map<UserId, map<SubId, Chan>>,
    closed: multiset<Chan>,               // every close() of a channel
    goroutines: map<ConsumerId, UserId>,  // delivery goroutines whose cleanup has not run
    running: set<ConsumerId>,             // consumers started and not stopped
    nextSub: nat,
    nextConsumer: nat)

  const EMPTY := Registry(map[], map[], multiset{}, map[], {}, 0, 0)

  predicate Registered(r: Registry, u: UserId, id: SubId) {
    u in r.active && id in r.active[u]
  }

  // ---------------------------------------------------------------- operations

  /** How starting a consumer ends; one that delivers no data is stopped again, if that succeeds. */
  datatype Start = Starts | NotStarted | NoData(stopFails: bool)

  /** A consumer is needed and cannot be had. */
  predicate Refused(r: Registry, u: UserId, start: Start) {
    u !in r.consumers && !start.Starts?
  }

  /** Makes sure a consumer of `u` is registered. */
  function WithConsumer(r: Registry, u: UserId): Registry {
    if u in r.consumers then r
    else
      var g := r.nextConsumer;
      r.(consumers := r.consumers[u := g], goroutines := r.goroutines[g := u], running := r.running + {g},
         nextConsumer := g + 1)
  }

  /** What is left of a consumer that could not be used. */
  function Abandoned(r: Registry, start: Start): Registry {
    if !start.NoData? then r
    else
      r.(running := if start.stopFails then r.running + {r.nextConsumer} else r.running,
         nextConsumer := r.nextConsumer + 1)
  }

  function Subscribed(r: Registry, u: UserId, start: Start): Registry {
    if Refused(r, u, start) then Abandoned(r, start)
    else
      var mine := if u in r.active then r.active[u] else map[];
      WithConsumer(r, u).(active := r.active[u := mine[r.nextSub := r.nextSub]], nextSub := r.nextSub + 1)
  }

  function Unsubscribed(r: Registry, u: UserId, id: SubId, stopFails: bool): Registry {
    if !Registered(r, u, id) then r
    else
      var r1 := r.(closed := r.closed + multiset{r.active[u][id]});
      if r.active[u].Keys != {id} then r1.(active := r.active[u := r.active[u] - {id}])
      else
        r1.(active := r.active - {u}, consumers := r.consumers - {u},
            running := if stopFails || u !in r.consumers then r.running else r.running - {r.consumers[u]})
  }

  /** The cleanup of the goroutine that reads consumer `g`. */
  function CleanedUp(r: Registry, g: ConsumerId, stopFails: bool): Registry
    requires g in r.goroutines
  {
    var u := r.goroutines[g];
    r.(goroutines := r.goroutines - {g},
       active := r.active - {u},
       closed := if u in r.active then r.closed + multiset(r.active[u].Values) else r.closed,
       consumers := r.consumers - {u},
       running := if u !in r.consumers || stopFails then r.running else r.running - {g})
  }

  // ---------------------------------------------------------------- invariant

  /** Both maps know the same users, and none of them without subscriptions. */
  ghost predicate MapsAgree(r: Registry) {
    && r.consumers.Keys == r.active.Keys
    && forall u :: u in r.active ==> exists id: SubId :: id in r.active[u]
  }

  /** No two subscriptions, of the same user or not, share an id or a channel. */
  ghost predicate OwnChannels(r: Registry) {
    && (forall u, id: SubId :: Registered(r, u, id) ==> r.active[u][id] == id && id < r.nextSub)
    && (forall u, v, id: SubId :: Registered(r, u, id) && Registered(r, v, id) ==> u == v)
  }

  /** The channel belongs to a registered subscription. */
  ghost predicate Live(r: Registry, c: Chan) {
    exists u :: Registered(r, u, c)
  }

  /** Registered channels are open, every other channel handed out has been closed exactly once. */
  ghost predicate ClosedOnce(r: Registry) {
    forall c: Chan :: r.closed[c] == if c < r.nextSub && !Live(r, c) then 1 else 0
  }

  /** The goroutine of a registered consumer is still there to clean up, and the consumer runs. */
  ghost predicate ConsumersRun(r: Registry) {
    && (forall u :: u in r.consumers ==>
         && r.consumers[u] in r.goroutines && r.goroutines[r.consumers[u]] == u
         && r.consumers[u] in r.running)
    && (forall g :: g in r.goroutines ==> g < r.nextConsumer)
    && (forall g :: g in r.running ==> g < r.nextConsumer)
  }

  ghost predicate Inv(r: Registry) {
    MapsAgree(r) && OwnChannels(r) && ClosedOnce(r) && ConsumersRun(r)
  }

  lemma EmptyInv()
    ensures Inv(EMPTY)
  {
  }

  lemma SubscribedRegisters(r: Registry, u: UserId, start: Start)
    requires !Refused(r, u, start)
    ensures var t := Subscribed(r, u, start);
      forall v, id: SubId :: Registered(t, v, id) <==> Registered(r, v, id) || (v == u && id == r.nextSub)
  {
  }

  /** The invariant of channels is about registrations and closed channels only. */
  lemma SameRegistrations(r: Registry, t: Registry)
    requires OwnChannels(r) && ClosedOnce(r)
    requires t.active == r.active && t.closed == r.closed && t.nextSub == r.nextSub
    ensures OwnChannels(t) && ClosedOnce(t)
  {
    assert forall v, id: SubId :: Registered(t, v, id) <==> Registered(r, v, id);
    assert forall c: Chan :: Live(t, c) <==> Live(r, c);
  }

  /** A consumer that could not be used concerns nobody's subscriptions. */
  lemma AbandonedKeepsInv(r: Registry, start: Start)
    requires Inv(r)
    ensures Inv(Abandoned(r, start))
  {
    SameRegistrations(r, Abandoned(r, start));
  }

  lemma SubscribedKeepsInv(r: Registry, u: UserId, start: Start)
    requires Inv(r)
    ensures Inv(Subscribed(r, u, start))
  {
    if Refused(r, u, start) {
      AbandonedKeepsInv(r, start);
    } else {
      SubscribedKeepsChannels(r, u, start);
      SubscribedKeepsClosed(r, u, start);
      SubscribedKeepsMaps(r, u, start);
    }
  }

  lemma SubscribedKeepsClosed(r: Registry, u: UserId, start: Start)
    requires OwnChannels(r) && ClosedOnce(r) && !Refused(r, u, start)
    ensures ClosedOnce(Subscribed(r, u, start))
  {
    var t := Subscribed(r, u, start);
    SubscribedRegisters(r, u, start);
    assert Registered(t, u, r.nextSub);
    assert Live(t, r.nextSub);
    forall c: Chan | c != r.nextSub ensures Live(t, c) <==> Live(r, c) {
      if v :| Registered(r, v, c) { assert Registered(t, v, c); }
    }
  }

  lemma SubscribedKeepsChannels(r: Registry, u: UserId, start: Start)
    requires Inv(r) && !Refused(r, u, start)
    ensures OwnChannels(Subscribed(r, u, start))
  {
    var t := Subscribed(r, u, start);
    SubscribedRegisters(r, u, start);
    forall v, id: SubId | Registered(t, v, id) ensures t.active[v][id] == id && id < t.nextSub {
      assert Registered(r, v, id) ==> t.active[v][id] == r.active[v][id];
    }
  }

  lemma SubscribedKeepsMaps(r: Registry, u: UserId, start: Start)
    requires Inv(r) && !Refused(r, u, start)
    ensures MapsAgree(Subscribed(r, u, start)) && ConsumersRun(Subscribed(r, u, start))
  {
    var t := Subscribed(r, u, start);
    forall v | v in t.active ensures exists id: SubId :: id in t.active[v] {
      if v == u { assert r.nextSub in t.active[v]; } else { assert t.active[v] == r.active[v]; }
    }
  }

  /** Subscriptions may go, provided exactly their channels are closed. */
  lemma RemovalKeepsChannels(r: Registry, t: Registry)
    requires OwnChannels(r) && ClosedOnce(r) && t.nextSub == r.nextSub
    requires forall v, i: SubId :: Registered(t, v, i) ==> Registered(r, v, i) && t.active[v][i] == r.active[v][i]
    requires forall c: Chan :: t.closed[c] == r.closed[c] + if Live(r, c) && !Live(t, c) then 1 else 0
    ensures OwnChannels(t) && ClosedOnce(t)
  {
    forall c: Chan | Live(t, c) ensures Live(r, c) && c < r.nextSub {
      var v :| Registered(t, v, c);
      assert Registered(r, v, c);
    }
  }

  lemma UnsubscribedRegisters(r: Registry, u: UserId, id: SubId, stopFails: bool)
    requires Registered(r, u, id)
    ensures var t := Unsubscribed(r, u, id, stopFails);
      forall v, i: SubId :: Registered(t, v, i) <==> Registered(r, v, i) && !(v == u && i == id)
  {
  }

  lemma UnsubscribedKeepsInv(r: Registry, u: UserId, id: SubId, stopFails: bool)
    requires Inv(r)
    ensures Inv(Unsubscribed(r, u, id, stopFails))
  {
    if Registered(r, u, id) {
      UnsubscribedKeepsChannels(r, u, id, stopFails);
      UnsubscribedKeepsMaps(r, u, id, stopFails);
    }
  }

  lemma UnsubscribedKeepsChannels(r: Registry, u: UserId, id: SubId, stopFails: bool)
    requires OwnChannels(r) && ClosedOnce(r) && Registered(r, u, id)
    ensures OwnChannels(Unsubscribed(r, u, id, stopFails)) && ClosedOnce(Unsubscribed(r, u, id, stopFails))
  {
    var t := Unsubscribed(r, u, id, stopFails);
    UnsubscribedRegisters(r, u, id, stopFails);
    forall c: Chan | true ensures Live(t, c) <==> Live(r, c) && c != id {
      if v :| Registered(r, v, c) && c != id { assert Registered(t, v, c); }
    }
    RemovalKeepsChannels(r, t);
  }

  lemma UnsubscribedKeepsMaps(r: Registry, u: UserId, id: SubId, stopFails: bool)
    requires Inv(r) && Registered(r, u, id)
    ensures MapsAgree(Unsubscribed(r, u, id, stopFails)) && ConsumersRun(Unsubscribed(r, u, id, stopFails))
  {
    if r.active[u].Keys == {id} {
      LastUnsubscribedKeepsMaps(r, u, id, stopFails);
    } else {
      var t := Unsubscribed(r, u, id, stopFails);
      var i :| i in r.active[u].Keys && i != id;
      assert i in t.active[u];
      assert forall v :: v in t.active && v != u ==> t.active[v] == r.active[v];
    }
  }

  lemma LastUnsubscribedKeepsMaps(r: Registry, u: UserId, id: SubId, stopFails: bool)
    requires Inv(r) && Registered(r, u, id) && r.active[u].Keys == {id}
    ensures MapsAgree(Unsubscribed(r, u, id, stopFails)) && ConsumersRun(Unsubscribed(r, u, id, stopFails))
  {
    UserGone(r, Unsubscribed(r, u, id, stopFails), u);
    LastUnsubscribedKeepsConsumers(r, u, id, stopFails);
  }

  lemma LastUnsubscribedKeepsConsumers(r: Registry, u: UserId, id: SubId, stopFails: bool)
    requires ConsumersRun(r) && Registered(r, u, id) && r.active[u].Keys == {id}
    ensures ConsumersRun(Unsubscribed(r, u, id, stopFails))
  {
    var t := Unsubscribed(r, u, id, stopFails);
    forall v | v in t.consumers ensures t.consumers[v] in t.running {
      assert r.goroutines[r.consumers[v]] == v;
    }
  }

  /** Forgetting a user in both maps leaves them in agreement. */
  lemma UserGone(r: Registry, t: Registry, u: UserId)
    requires MapsAgree(r) && t.active == r.active - {u} && t.consumers == r.consumers - {u}
    ensures MapsAgree(t)
  {
    assert forall v :: v in t.active ==> t.active[v] == r.active[v];
  }

  lemma CleanedUpKeepsInv(r: Registry, g: ConsumerId, stopFails: bool)
    requires Inv(r) && g in r.goroutines
    ensures Inv(CleanedUp(r, g, stopFails))
  {
    var t := CleanedUp(r, g, stopFails);
    CleanedUpCloses(r, g, stopFails);
    RemovalKeepsChannels(r, t);
    UserGone(r, t, r.goroutines[g]);
    CleanedUpKeepsConsumers(r, g, stopFails);
  }

  lemma CleanedUpKeepsConsumers(r: Registry, g: ConsumerId, stopFails: bool)
    requires ConsumersRun(r) && g in r.goroutines
    ensures ConsumersRun(CleanedUp(r, g, stopFails))
  {
    var t := CleanedUp(r, g, stopFails);
    forall v | v in t.consumers ensures t.consumers[v] != g && t.consumers[v] in t.running {
      assert r.goroutines[r.consumers[v]] == v;
    }
  }

  /** The cleanup closes exactly the channels of its user. */
  lemma CleanedUpCloses(r: Registry, g: ConsumerId, stopFails: bool)
    requires OwnChannels(r) && g in r.goroutines
    ensures var t := CleanedUp(r, g, stopFails); var u := r.goroutines[g];
      && (forall v, i: SubId :: Registered(t, v, i) <==> Registered(r, v, i) && v != u)
      && (forall v, i: SubId :: Registered(t, v, i) ==> t.active[v][i] == r.active[v][i])
      && (forall c: Chan :: t.closed[c] == r.closed[c] + if Live(r, c) && !Live(t, c) then 1 else 0)
  {
    var t := CleanedUp(r, g, stopFails);
    var u := r.goroutines[g];
    forall c: Chan | true ensures Live(r, c) && !Live(t, c) <==> Registered(r, u, c) {
      if v :| Registered(r, v, c) && v != u { assert Registered(t, v, c); }
      if v :| Registered(t, v, c) { assert Registered(r, v, c) && v != u; }
    }
    if u in r.active {
      forall c: Chan | true ensures c in r.active[u].Values <==> Registered(r, u, c) {
        if c in r.active[u] { assert Registered(r, u, c) && r.active[u][c] == c; }
        if c in r.active[u].Values {
          var i :| i in r.active[u] && r.active[u][i] == c;
          assert Registered(r, u, i);
        }
      }
    }
  }

  /**
   Unsubscribing undoes subscribing: both maps and the running consumers are as before.  What
   stays is the closed channel and, if a consumer was started, its goroutine, and the consumer
   itself if it cannot be stopped.
   */
  lemma UnsubscribedUndoesSubscribed(r: Registry, u: UserId, stopFails: bool)
    requires Inv(r)
    ensures var t := Unsubscribed(Subscribed(r, u, Starts), u, r.nextSub, stopFails);
      && t.active == r.active && t.consumers == r.consumers
      && t.running == r.running + (if u !in r.consumers && stopFails then {r.nextConsumer} else {})
      && t.closed == r.closed + multiset{r.nextSub}
      && t.goroutines == if u in r.consumers then r.goroutines else r.goroutines[r.nextConsumer := u]
  {
    if u in r.active {
      var id: SubId :| id in r.active[u];
      assert Registered(r, u, id) && !Registered(r, u, r.nextSub);
      SecondSubscriptionUndone(r, u, id, stopFails);
    } else {
      assert r.nextConsumer !in r.running;
      FirstSubscriptionUndone(r, u, stopFails);
    }
  }

  lemma SecondSubscriptionUndone(r: Registry, u: UserId, id: SubId, stopFails: bool)
    requires u in r.active && u in r.consumers && id in r.active[u] && r.nextSub !in r.active[u]
    ensures var t := Unsubscribed(Subscribed(r, u, Starts), u, r.nextSub, stopFails);
      t == r.(closed := r.closed + multiset{r.nextSub}, nextSub := r.nextSub + 1)
  {
    var s := Subscribed(r, u, Starts);
    assert id in s.active[u].Keys && s.active[u][r.nextSub] == r.nextSub;
    RemoveAdded(r.active[u], r.nextSub, r.nextSub);
  }

  lemma FirstSubscriptionUndone(r: Registry, u: UserId, stopFails: bool)
    requires u !in r.active && u !in r.consumers && r.nextConsumer !in r.running
    ensures var t := Unsubscribed(Subscribed(r, u, Starts), u, r.nextSub, stopFails);
      && t.active == r.active && t.consumers == r.consumers
      && t.running == r.running + (if stopFails then {r.nextConsumer} else {})
      && t.closed == r.closed + multiset{r.nextSub} && t.goroutines == r.goroutines[r.nextConsumer := u]
  {
    assert Subscribed(r, u, Starts).active[u].Keys == {r.nextSub};
  }

  lemma RemoveAdded(m: map<SubId, Chan>, id: SubId, c: Chan)
    requires id !in m
    ensures m[id := c] - {id} == m
  {
  }
}
