/**
 The WebSocket handlers over the registry.  A handler subscribes once, listens until its
 connection ends or its channel is closed, and then runs its deferred unsubscription.  The
 end of a connection may be seen twice, by the close handler and by the reading goroutine.
 */
module Handlers {
  import opened Users
  import opened Subscriptions

  datatype Phase =
    | Connecting
    | Listening(id: SubId, channel: Chan)
    | Returned

  /** `fired`: the sync.Once has run; `closes`: how often the done channel has been closed. */
  datatype Handler = Handler(user: UserId, phase: Phase, fired: bool, closes: nat)

  datatype System = System(registry: Registry, handlers: seq<Handler>)

  datatype Step =
    | Connect(user: UserId)
    | ConnectionEnds(h: nat)
    | Subscribe(h: nat, start: Start)
    | Return(h: nat, stopFails: bool)
    | CleanUp(g: ConsumerId, stopFails: bool)

  const START := System(EMPTY, [])

  /** The select of a listening handler sees the end of the connection, or its channel closed. */
  predicate CanReturn(s: System, h: nat)
    requires h < |s.handlers|
  {
    var x := s.handlers[h];
    x.phase.Listening? && (x.closes > 0 || x.phase.channel in s.registry.closed)
  }

  predicate Enabled(s: System, step: Step) {
    match step
    case Connect(_) => true
    case ConnectionEnds(h) => h < |s.handlers|
    case Subscribe(h, _) => h < |s.handlers| && s.handlers[h].phase.Connecting?
    case Return(h, _) => h < |s.handlers| && CanReturn(s, h)
    case CleanUp(g, _) => g in s.registry.goroutines
  }

  function Ended(x: Handler): Handler {
    if x.fired then x else x.(fired := true, closes := x.closes + 1)
  }

  function Apply(s: System, step: Step): System
    requires Enabled(s, step)
  {
    match step
    case Connect(user) => s.(handlers := s.handlers + [Handler(user, Connecting, false, 0)])
    case ConnectionEnds(h) => s.(handlers := s.handlers[h := Ended(s.handlers[h])])
    case Subscribe(h, start) => AfterSubscribe(s, h, start)
    case Return(h, stopFails) =>
      var x := s.handlers[h];
      System(Unsubscribed(s.registry, x.user, x.phase.id, stopFails), s.handlers[h := x.(phase := Returned)])
    case CleanUp(g, stopFails) => s.(registry := CleanedUp(s.registry, g, stopFails))
  }

  /** A handler that cannot subscribe returns before it has anything to unsubscribe. */
  function AfterSubscribe(s: System, h: nat, start: Start): System
    requires h < |s.handlers|
  {
    var x, r := s.handlers[h], Subscribed(s.registry, s.handlers[h].user, start);
    if Refused(s.registry, x.user, start) then System(r, s.handlers[h := x.(phase := Returned)])
    else System(r, s.handlers[h := x.(phase := Listening(s.registry.nextSub, s.registry.nextSub))])
  }

  ghost predicate Leads(s: System, steps: seq<Step>, t: System)
    decreases |steps|
  {
    if steps == [] then t == s
    else Enabled(s, steps[0]) && Leads(Apply(s, steps[0]), steps[1..], t)
  }

  // ---------------------------------------------------------------- invariant

  predicate Listens(x: Handler, id: SubId) {
    x.phase.Listening? && x.phase.id == id
  }

  /** The handler owns a subscription of its own user. */
  ghost predicate Owner(s: System, h: nat, u: UserId, id: SubId) {
    h < |s.handlers| && Listens(s.handlers[h], id) && s.handlers[h].user == u
  }

  ghost predicate OnlyOwner(s: System, h: nat, u: UserId, id: SubId) {
    Owner(s, h, u, id) && forall k :: 0 <= k < |s.handlers| && Listens(s.handlers[k], id) ==> k == h
  }

  /** Every registered subscription has a live handler of its user. */
  ghost predicate Owned(s: System) {
    forall u, id: SubId :: Registered(s.registry, u, id) ==> exists h :: Owner(s, h, u, id)
  }

  /** Live handlers listen to channels handed out, and no two of them to the same. */
  ghost predicate Exclusive(s: System) {
    && (forall h :: 0 <= h < |s.handlers| && s.handlers[h].phase.Listening? ==>
         s.handlers[h].phase.id == s.handlers[h].phase.channel < s.registry.nextSub)
    && (forall h, k :: 0 <= h < |s.handlers| && 0 <= k < |s.handlers| && h != k && s.handlers[h].phase.Listening? ==>
         !Listens(s.handlers[k], s.handlers[h].phase.id))
  }

  /** The done channel has been closed once if the once has fired, and otherwise never. */
  ghost predicate DoneClosedOnce(s: System) {
    forall h :: 0 <= h < |s.handlers| ==> s.handlers[h].closes == if s.handlers[h].fired then 1 else 0
  }

  ghost predicate SystemInv(s: System) {
    Inv(s.registry) && Owned(s) && Exclusive(s) && DoneClosedOnce(s)
  }

  /** The steps that leave the registry and every handler's phase alone. */
  lemma PhasesUnchanged(s: System, t: System)
    requires Owned(s) && Exclusive(s)
    requires t.registry == s.registry && |s.handlers| <= |t.handlers|
    requires forall h :: 0 <= h < |s.handlers| ==>
      t.handlers[h].phase == s.handlers[h].phase && t.handlers[h].user == s.handlers[h].user
    requires forall h :: |s.handlers| <= h < |t.handlers| ==> !t.handlers[h].phase.Listening?
    ensures Owned(t) && Exclusive(t)
  {
    forall u, id: SubId | Registered(t.registry, u, id) ensures exists h :: Owner(t, h, u, id) {
      var h :| Owner(s, h, u, id);
      assert Owner(t, h, u, id);
    }
  }

  lemma SubscribeKeepsInv(s: System, h: nat, start: Start)
    requires SystemInv(s) && Enabled(s, Subscribe(h, start))
    requires !Refused(s.registry, s.handlers[h].user, start)
    ensures SystemInv(AfterSubscribe(s, h, start))
  {
    SubscribedKeepsInv(s.registry, s.handlers[h].user, start);
    SubscribeKeepsOwned(s, h, start);
    SubscribeKeepsExclusive(s, h, start);
  }

  lemma SubscribeKeepsExclusive(s: System, h: nat, start: Start)
    requires Exclusive(s) && DoneClosedOnce(s) && h < |s.handlers| && s.handlers[h].phase.Connecting?
    requires !Refused(s.registry, s.handlers[h].user, start)
    ensures Exclusive(AfterSubscribe(s, h, start)) && DoneClosedOnce(AfterSubscribe(s, h, start))
  {
    var t := AfterSubscribe(s, h, start);
    assert t.registry.nextSub == s.registry.nextSub + 1;
    assert forall k :: 0 <= k < |s.handlers| && k != h ==> t.handlers[k] == s.handlers[k];
  }

  lemma SubscribeKeepsOwned(s: System, h: nat, start: Start)
    requires Owned(s) && h < |s.handlers| && s.handlers[h].phase.Connecting?
    requires !Refused(s.registry, s.handlers[h].user, start)
    ensures Owned(AfterSubscribe(s, h, start))
  {
    var t := AfterSubscribe(s, h, start);
    SubscribedRegisters(s.registry, s.handlers[h].user, start);
    forall u, id: SubId | Registered(t.registry, u, id) ensures exists k :: Owner(t, k, u, id) {
      if Registered(s.registry, u, id) {
        var k :| Owner(s, k, u, id);
        assert Owner(t, k, u, id);
      } else {
        assert Owner(t, h, u, id);
      }
    }
  }

  lemma ReturnKeepsInv(s: System, h: nat, stopFails: bool)
    requires SystemInv(s) && Enabled(s, Return(h, stopFails))
    ensures SystemInv(Apply(s, Return(h, stopFails)))
  {
    var x := s.handlers[h];
    UnsubscribedKeepsInv(s.registry, x.user, x.phase.id, stopFails);
    ReturnKeepsOwned(s, h, stopFails);
    ReturnKeepsExclusive(s, h, stopFails);
  }

  lemma ReturnKeepsOwned(s: System, h: nat, stopFails: bool)
    requires Owned(s) && Enabled(s, Return(h, stopFails))
    ensures Owned(Apply(s, Return(h, stopFails)))
  {
    var t := Apply(s, Return(h, stopFails));
    var x := s.handlers[h];
    if Registered(s.registry, x.user, x.phase.id) {
      UnsubscribedRegisters(s.registry, x.user, x.phase.id, stopFails);
    }
    forall u, id: SubId | Registered(t.registry, u, id) ensures exists k :: Owner(t, k, u, id) {
      var k :| Owner(s, k, u, id);
      assert Owner(t, k, u, id);
    }
  }

  lemma ReturnKeepsExclusive(s: System, h: nat, stopFails: bool)
    requires Exclusive(s) && DoneClosedOnce(s) && Enabled(s, Return(h, stopFails))
    ensures Exclusive(Apply(s, Return(h, stopFails))) && DoneClosedOnce(Apply(s, Return(h, stopFails)))
  {
    var x := s.handlers[h];
    assert Unsubscribed(s.registry, x.user, x.phase.id, stopFails).nextSub == s.registry.nextSub;
  }

  lemma CleanUpKeepsInv(s: System, g: ConsumerId, stopFails: bool)
    requires SystemInv(s) && Enabled(s, CleanUp(g, stopFails))
    ensures SystemInv(Apply(s, CleanUp(g, stopFails)))
  {
    var t := Apply(s, CleanUp(g, stopFails));
    CleanedUpKeepsInv(s.registry, g, stopFails);
    CleanedUpCloses(s.registry, g, stopFails);
    forall u, id: SubId | Registered(t.registry, u, id) ensures exists k :: Owner(t, k, u, id) {
      var k :| Owner(s, k, u, id);
      assert Owner(t, k, u, id);
    }
  }

  lemma StepKeepsInv(s: System, step: Step)
    requires SystemInv(s) && Enabled(s, step)
    ensures SystemInv(Apply(s, step))
  {
    match step
    case Connect(_) => PhasesUnchanged(s, Apply(s, step));
    case ConnectionEnds(_) => PhasesUnchanged(s, Apply(s, step));
    case Subscribe(h, start) =>
      if Refused(s.registry, s.handlers[h].user, start) {
        RefusedKeepsInv(s, h, start);
      } else {
        SubscribeKeepsInv(s, h, start);
      }
    case Return(h, stopFails) => ReturnKeepsInv(s, h, stopFails);
    case CleanUp(g, stopFails) => CleanUpKeepsInv(s, g, stopFails);
  }

  lemma RefusedKeepsInv(s: System, h: nat, start: Start)
    requires SystemInv(s) && Enabled(s, Subscribe(h, start)) && Refused(s.registry, s.handlers[h].user, start)
    ensures SystemInv(AfterSubscribe(s, h, start))
  {
    AbandonedKeepsInv(s.registry, start);
    RefusedKeepsOwned(s, AfterSubscribe(s, h, start), h);
  }

  lemma RefusedKeepsOwned(s: System, t: System, h: nat)
    requires Owned(s) && Exclusive(s) && h < |s.handlers| && s.handlers[h].phase.Connecting?
    requires t.handlers == s.handlers[h := s.handlers[h].(phase := Returned)]
    requires t.registry.nextSub == s.registry.nextSub
    requires forall u, id: SubId :: Registered(t.registry, u, id) <==> Registered(s.registry, u, id)
    ensures Owned(t) && Exclusive(t)
  {
    forall u, id: SubId | Registered(t.registry, u, id) ensures exists k :: Owner(t, k, u, id) {
      var k :| Owner(s, k, u, id);
      assert Owner(t, k, u, id);
    }
  }

  lemma {:induction false} RunKeepsInv(s: System, steps: seq<Step>, t: System)
    requires SystemInv(s) && Leads(s, steps, t)
    ensures SystemInv(t)
    decreases |steps|
  {
    if steps != [] {
      StepKeepsInv(s, steps[0]);
      RunKeepsInv(Apply(s, steps[0]), steps[1..], t);
    }
  }

  // ---------------------------------------------------------------- what holds of every run

  ghost predicate Reachable(s: System, steps: seq<Step>) {
    Leads(START, steps, s)
  }

  lemma ReachableInv(s: System, steps: seq<Step>)
    requires Reachable(s, steps)
    ensures SystemInv(s)
  {
    EmptyInv();
    RunKeepsInv(START, steps, s);
  }

  /**
   In every run: a registered subscription belongs to one live handler of its user and to no
   other, its channel is open, and both maps know the same users.  Channels and done
   channels are never closed twice.
   */
  lemma SubscriptionsHaveOneHandler(steps: seq<Step>, s: System)
    requires Reachable(s, steps)
    ensures s.registry.consumers.Keys == s.registry.active.Keys
    ensures forall u, id: SubId :: Registered(s.registry, u, id) ==>
      && s.registry.active[u][id] !in s.registry.closed
      && exists h :: OnlyOwner(s, h, u, id)
    ensures forall c: Chan :: s.registry.closed[c] <= 1
    ensures forall h :: 0 <= h < |s.handlers| ==> s.handlers[h].closes <= 1
  {
    ReachableInv(s, steps);
    forall u, id: SubId | Registered(s.registry, u, id)
      ensures s.registry.active[u][id] !in s.registry.closed
      ensures exists h :: OnlyOwner(s, h, u, id)
    {
      assert Live(s.registry, id);
      var h :| Owner(s, h, u, id);
      assert OnlyOwner(s, h, u, id);
    }
  }

  /** Once no handler is listening, nothing is registered and no consumer is kept. */
  lemma NoRegistryLeak(steps: seq<Step>, s: System)
    requires Reachable(s, steps)
    requires forall h :: 0 <= h < |s.handlers| ==> !s.handlers[h].phase.Listening?
    ensures s.registry.active == map[] && s.registry.consumers == map[]
  {
    ReachableInv(s, steps);
    forall u | u in s.registry.active ensures false {
      var id: SubId :| id in s.registry.active[u];
      assert Registered(s.registry, u, id);
    }
    assert s.registry.active.Keys == {};
  }

  /** A listening handler is either registered or has had its channel closed, and then it can return. */
  lemma ListeningOrTornDown(steps: seq<Step>, s: System, h: nat)
    requires Reachable(s, steps) && h < |s.handlers| && s.handlers[h].phase.Listening?
    ensures Registered(s.registry, s.handlers[h].user, s.handlers[h].phase.id) <==>
      s.handlers[h].phase.channel !in s.registry.closed
    ensures CanReturn(s, h) <==>
      s.handlers[h].fired || !Registered(s.registry, s.handlers[h].user, s.handlers[h].phase.id)
  {
    ReachableInv(s, steps);
    var c := s.handlers[h].phase.channel;
    if u :| Registered(s.registry, u, c) {
      var k :| Owner(s, k, u, c);
      assert k == h;
      assert Live(s.registry, c);
    }
  }

  lemma {:induction false} LeadsOn(s: System, xs: seq<Step>, t: System, ys: seq<Step>, r: System)
    requires Leads(s, xs, t) && Leads(t, ys, r)
    ensures Leads(s, xs + ys, r)
    decreases |xs|
  {
    if xs == [] {
      assert xs + ys == ys;
    } else {
      LeadsOn(Apply(s, xs[0]), xs[1..], t, ys, r);
      assert (xs + ys)[1..] == xs[1..] + ys;
    }
  }

  lemma OneStep(s: System, step: Step)
    requires Enabled(s, step)
    ensures Leads(s, [step], Apply(s, step))
  {
    assert Leads(Apply(s, step), [step][1..], Apply(s, step));
  }

  /**
   Anybody can connect, a connection can end at any time and be seen to end twice, starting a
   consumer can go any way, and a goroutine can clean up as long as it has not done so.
   */
  lemma AnythingMayHappen(s: System, u: UserId, h: nat, start: Start, g: ConsumerId, stopFails: bool)
    requires h < |s.handlers|
    ensures Enabled(s, Connect(u)) && Enabled(s, ConnectionEnds(h))
    ensures Enabled(s, Subscribe(h, start)) <==> s.handlers[h].phase == Connecting
    ensures Enabled(s, CleanUp(g, stopFails)) <==> g in s.registry.goroutines
    ensures var x := s.handlers[h];
      x.phase.Listening? && (x.closes > 0 || x.phase.channel in s.registry.closed) ==> Enabled(s, Return(h, stopFails))
  {
  }

  /** A handler whose subscription is refused returns without having changed either map. */
  lemma RefusedReturns(s: System, h: nat, start: Start)
    requires Enabled(s, Subscribe(h, start)) && s.handlers[h].user !in s.registry.consumers && !start.Starts?
    ensures var t := Apply(s, Subscribe(h, start));
      && t.registry.active == s.registry.active && t.registry.consumers == s.registry.consumers
      && t.registry.closed == s.registry.closed && t.registry.goroutines == s.registry.goroutines
      && t.handlers == s.handlers[h := s.handlers[h].(phase := Returned)]
  {
  }

  /** Whoever connects can be registered and then listens to a channel of her own. */
  lemma NewcomerCanListen(s: System, u: UserId) returns (steps: seq<Step>, t: System)
    ensures Leads(s, steps, t) && |t.handlers| == |s.handlers| + 1
    ensures t.handlers[..|s.handlers|] == s.handlers
    ensures var x := t.handlers[|s.handlers|];
      && x.user == u && !x.fired && x.closes == 0 && x.phase == Listening(s.registry.nextSub, s.registry.nextSub)
      && Registered(t.registry, u, s.registry.nextSub)
  {
    var h := |s.handlers|;
    var s1 := Apply(s, Connect(u));
    OneStep(s, Connect(u));
    t := Apply(s1, Subscribe(h, Starts));
    OneStep(s1, Subscribe(h, Starts));
    LeadsOn(s, [Connect(u)], s1, [Subscribe(h, Starts)], t);
    steps := [Connect(u)] + [Subscribe(h, Starts)];
    assert t.handlers[..h] == s.handlers;
  }

  // ---------------------------------------------------------------- shutting down

  /** Handler `h` can be brought to its end, and no other handler is disturbed. */
  lemma HandlerCanFinish(s: System, h: nat) returns (steps: seq<Step>, t: System)
    requires h < |s.handlers| && (s.handlers[h].fired ==> s.handlers[h].closes > 0)
    ensures Leads(s, steps, t)
    ensures |t.handlers| == |s.handlers| && t.handlers[h].phase.Returned?
    ensures forall k :: 0 <= k < |s.handlers| && k != h ==> t.handlers[k] == s.handlers[k]
  {
    match s.handlers[h].phase
    case Returned => return [], s;
    case Connecting =>
      var s1 := Apply(s, Subscribe(h, Starts));
      OneStep(s, Subscribe(h, Starts));
      var rest;
      rest, t := ListenerCanFinish(s1, h);
      LeadsOn(s, [Subscribe(h, Starts)], s1, rest, t);
      steps := [Subscribe(h, Starts)] + rest;
    case Listening(_, _) => steps, t := ListenerCanFinish(s, h);
  }

  lemma ListenerCanFinish(s: System, h: nat) returns (steps: seq<Step>, t: System)
    requires h < |s.handlers| && s.handlers[h].phase.Listening?
    requires s.handlers[h].fired ==> s.handlers[h].closes > 0
    ensures Leads(s, steps, t)
    ensures |t.handlers| == |s.handlers| && t.handlers[h].phase.Returned?
    ensures forall k :: 0 <= k < |s.handlers| && k != h ==> t.handlers[k] == s.handlers[k]
  {
    var s1 := Apply(s, ConnectionEnds(h));
    OneStep(s, ConnectionEnds(h));
    t := Apply(s1, Return(h, false));
    OneStep(s1, Return(h, false));
    steps := [ConnectionEnds(h)] + [Return(h, false)];
    LeadsOn(s, [ConnectionEnds(h)], s1, [Return(h, false)], t);
  }

  /** From every reachable state all handlers can end, and then the registry is empty. */
  lemma EveryHandlerCanFinish(before: seq<Step>, s: System) returns (steps: seq<Step>, t: System)
    requires Reachable(s, before)
    ensures Leads(s, steps, t) && |t.handlers| == |s.handlers|
    ensures forall h :: 0 <= h < |t.handlers| ==> t.handlers[h].phase.Returned?
    ensures t.registry.active == map[] && t.registry.consumers == map[]
  {
    steps, t := [], s;
    assert before + [] == before;
    var n := 0;
    while n < |s.handlers|
      invariant 0 <= n <= |s.handlers| == |t.handlers|
      invariant Leads(s, steps, t) && Reachable(t, before + steps)
      invariant forall h :: 0 <= h < n ==> t.handlers[h].phase.Returned?
    {
      ReachableInv(t, before + steps);
      var more, next := HandlerCanFinish(t, n);
      LeadsOn(s, steps, t, more, next);
      steps, t, n := steps + more, next, n + 1;
      LeadsOn(START, before, s, steps, t);
    }
    NoRegistryLeak(before + steps, t);
  }
}
