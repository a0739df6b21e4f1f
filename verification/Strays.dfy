/**
 Consumers that run without being registered.  Nobody stops them, and their user may get
 another consumer beside them.
 */
module Strays {
  import opened Users
  import opened Subscriptions
  import opened Handlers

  /** Every running consumer is the registered one of some user. */
  ghost predicate NoStrays(r: Registry) {
    forall g :: g in r.running ==> g in r.consumers.Values
  }

  /** With no stray, every user has at most one running consumer. */
  lemma NoStraysMeansOneConsumer(r: Registry, g: ConsumerId, h: ConsumerId)
    requires Subscriptions.Inv(r) && NoStrays(r) && g in r.running && h in r.running
    ensures g in r.goroutines && h in r.goroutines
    ensures r.goroutines[g] == r.goroutines[h] ==> g == h
  {
    var u :| u in r.consumers && r.consumers[u] == g;
    var v :| v in r.consumers && r.consumers[v] == h;
  }

  // ---------------------------------------------------------------- which operations leave a stray

  /** Subscribing leaves one exactly if a consumer without data cannot be stopped. */
  lemma SubscribedKeepsNoStraysIff(r: Registry, u: UserId, start: Start)
    requires Subscriptions.Inv(r) && NoStrays(r)
    ensures NoStrays(Subscribed(r, u, start)) <==> !(Refused(r, u, start) && start == NoData(true))
  {
    var t := Subscribed(r, u, start);
    if Refused(r, u, start) {
      assert start == NoData(true) ==> r.nextConsumer in t.running && r.nextConsumer !in r.consumers.Values;
    } else {
      forall g | g in t.running ensures g in t.consumers.Values {
        if g in r.running {
          var v :| v in r.consumers && r.consumers[v] == g;
          assert v in t.consumers && t.consumers[v] == g;
        } else {
          assert t.consumers[u] == g;
        }
      }
    }
  }

  predicate LastOf(r: Registry, u: UserId, id: SubId) {
    Registered(r, u, id) && r.active[u].Keys == {id}
  }

  /** Unsubscribing leaves one exactly if the last subscription goes and the consumer cannot be stopped. */
  lemma UnsubscribedKeepsNoStraysIff(r: Registry, u: UserId, id: SubId, stopFails: bool)
    requires Subscriptions.Inv(r) && NoStrays(r)
    ensures NoStrays(Unsubscribed(r, u, id, stopFails)) <==> !(LastOf(r, u, id) && stopFails)
  {
    if LastOf(r, u, id) {
      var t := Unsubscribed(r, u, id, stopFails);
      ConsumersDiffer(r);
      if stopFails {
        assert r.consumers[u] in t.running && r.consumers[u] !in t.consumers.Values;
      } else {
        RemainingConsumers(r, t, u);
      }
    }
  }

  /** Two users never share a consumer. */
  lemma ConsumersDiffer(r: Registry)
    requires ConsumersRun(r)
    ensures forall v, w :: v in r.consumers && w in r.consumers && r.consumers[v] == r.consumers[w] ==> v == w
  {
    assert forall v :: v in r.consumers ==> r.goroutines[r.consumers[v]] == v;
  }

  lemma RemainingConsumers(r: Registry, t: Registry, u: UserId)
    requires NoStrays(r) && t.consumers == r.consumers - {u}
    requires t.running <= r.running && (u in r.consumers ==> r.consumers[u] !in t.running)
    ensures NoStrays(t)
  {
    forall g | g in t.running ensures g in t.consumers.Values {
      var v :| v in r.consumers && r.consumers[v] == g;
      assert v in t.consumers && t.consumers[v] == g;
    }
  }

  /** The user has a consumer, and this cleanup removes it without stopping it. */
  predicate LeavesStray(r: Registry, g: ConsumerId, stopFails: bool)
    requires g in r.goroutines
  {
    var u := r.goroutines[g];
    u in r.consumers && (r.consumers[u] != g || stopFails)
  }

  /**
   A cleanup keeps running consumers registered exactly if the user has no consumer left, or
   still the one that is cleaned up and it can be stopped.
   */
  lemma CleanupKeepsNoStraysIff(r: Registry, g: ConsumerId, stopFails: bool)
    requires Subscriptions.Inv(r) && NoStrays(r) && g in r.goroutines
    ensures NoStrays(CleanedUp(r, g, stopFails)) <==> !LeavesStray(r, g, stopFails)
  {
    var t := CleanedUp(r, g, stopFails);
    var u := r.goroutines[g];
    ConsumersDiffer(r);
    if LeavesStray(r, g, stopFails) {
      assert r.consumers[u] in t.running && r.consumers[u] !in t.consumers.Values;
    } else {
      RemainingConsumers(r, t, u);
    }
  }

  // ---------------------------------------------------------------- over whole runs

  /** The steps that leave a consumer running and unregistered. */
  predicate MakesStray(s: System, step: Step)
    requires Enabled(s, step)
  {
    match step
    case Subscribe(h, start) => Refused(s.registry, s.handlers[h].user, start) && start == NoData(true)
    case Return(h, stopFails) => LastOf(s.registry, s.handlers[h].user, s.handlers[h].phase.id) && stopFails
    case CleanUp(g, stopFails) => LeavesStray(s.registry, g, stopFails)
    case _ => false
  }

  lemma StepKeepsNoStraysIff(s: System, step: Step)
    requires SystemInv(s) && NoStrays(s.registry) && Enabled(s, step)
    ensures NoStrays(Apply(s, step).registry) <==> !MakesStray(s, step)
  {
    match step
    case Connect(_) =>
    case ConnectionEnds(_) =>
    case Subscribe(h, start) => SubscribedKeepsNoStraysIff(s.registry, s.handlers[h].user, start);
    case Return(h, stopFails) =>
      UnsubscribedKeepsNoStraysIff(s.registry, s.handlers[h].user, s.handlers[h].phase.id, stopFails);
    case CleanUp(g, stopFails) => CleanupKeepsNoStraysIff(s.registry, g, stopFails);
  }

  /** In no state of the run does a stray consumer run. */
  ghost predicate NeverStray(s: System, steps: seq<Step>)
    decreases |steps|
  {
    NoStrays(s.registry) && (steps != [] ==> Enabled(s, steps[0]) && NeverStray(Apply(s, steps[0]), steps[1..]))
  }

  ghost predicate MakesNone(s: System, steps: seq<Step>)
    decreases |steps|
  {
    steps != [] ==> Enabled(s, steps[0]) && !MakesStray(s, steps[0]) && MakesNone(Apply(s, steps[0]), steps[1..])
  }

  lemma {:induction false} NeverStrayIffFrom(s: System, steps: seq<Step>, t: System)
    requires SystemInv(s) && NoStrays(s.registry) && Leads(s, steps, t)
    ensures NeverStray(s, steps) <==> MakesNone(s, steps)
    decreases |steps|
  {
    if steps != [] {
      StepKeepsNoStraysIff(s, steps[0]);
      if !MakesStray(s, steps[0]) {
        StepKeepsInv(s, steps[0]);
        NeverStrayIffFrom(Apply(s, steps[0]), steps[1..], t);
      }
    }
  }

  /**
   All running consumers are registered throughout a run exactly if no step of it leaves a
   stray: no cleanup after a replacement, and no consumer that cannot be stopped.
   */
  lemma NeverStrayIff(steps: seq<Step>, s: System)
    requires Reachable(s, steps)
    ensures NeverStray(START, steps) <==> MakesNone(START, steps)
  {
    EmptyInv();
    NeverStrayIffFrom(START, steps, s);
  }

  // ---------------------------------------------------------------- inputs that leave one

  /** A single subscription whose consumer cannot be stopped when it goes; the next one runs a second. */
  lemma FailedStopLeavesStray(u: UserId) returns (r: Registry, t: Registry)
    ensures r == Unsubscribed(Subscribed(EMPTY, u, Starts), u, 0, true) && !NoStrays(r)
    ensures t == Subscribed(r, u, Starts) && t.running == {0, 1} && t.goroutines == map[0 := u, 1 := u]
  {
    var r1 := Subscribed(EMPTY, u, Starts);
    assert r1.active[u].Keys == {0};
    r := Unsubscribed(r1, u, 0, true);
    t := Subscribed(r, u, Starts);
    assert 0 in r.running && r.consumers.Values == {};
  }

  /**
   Two consumers of one user may run at once: subscribe, unsubscribe, subscribe again, then
   the cleanup of the first consumer, then subscribe once more.  The cleanup also takes the
   second subscription with it, although nobody unsubscribed it.
   */
  lemma LateCleanupLeavesStray(u: UserId) returns (r: Registry, t: Registry)
    ensures r == Subscribed(Unsubscribed(Subscribed(EMPTY, u, Starts), u, 0, false), u, Starts)
    ensures Subscriptions.Inv(r) && NoStrays(r) && 0 in r.goroutines && Registered(r, u, 1)
    ensures t == Subscribed(CleanedUp(r, 0, false), u, Starts)
    ensures Subscriptions.Inv(t) && t.running == {1, 2} && t.goroutines == map[1 := u, 2 := u]
    ensures t.consumers == map[u := 2]
    ensures !Registered(t, u, 1) && t.closed[1] == 1
  {
    r := Resubscribed(u);
    var r3 := CleanedUp(r, 0, false);
    CleanedUpKeepsInv(r, 0, false);
    LateCleanup(r, r3, u);
    t := Subscribed(r3, u, Starts);
    SubscribedKeepsInv(r3, u, Starts);
  }

  lemma Resubscribed(u: UserId) returns (r: Registry)
    ensures r == Subscribed(Unsubscribed(Subscribed(EMPTY, u, Starts), u, 0, false), u, Starts)
    ensures Subscriptions.Inv(r) && NoStrays(r)
    ensures r == Registry(map[u := 1], map[u := map[1 := 1]], multiset{0}, map[0 := u, 1 := u], {1}, 2, 2)
  {
    EmptyInv();
    var r1 := Subscribed(EMPTY, u, Starts);
    SubscribedKeepsInv(EMPTY, u, Starts);
    assert r1 == Registry(map[u := 0], map[u := map[0 := 0]], multiset{}, map[0 := u], {0}, 1, 1);
    var r2 := Unsubscribed(r1, u, 0, false);
    UnsubscribedKeepsInv(r1, u, 0, false);
    assert r1.active[u].Keys == {0};
    assert r2 == Registry(map[], map[], multiset{0}, map[0 := u], {}, 1, 1);
    r := Subscribed(r2, u, Starts);
    SubscribedKeepsInv(r2, u, Starts);
    assert r.consumers[u] == 1;
  }

  lemma LateCleanup(r: Registry, t: Registry, u: UserId)
    requires r == Registry(map[u := 1], map[u := map[1 := 1]], multiset{0}, map[0 := u, 1 := u], {1}, 2, 2)
    requires t == CleanedUp(r, 0, false)
    ensures t.consumers == map[] && t.active == map[] && t.goroutines == map[1 := u]
    ensures t.running == {1} && t.closed[1] == 1 && t.nextSub == 2 && t.nextConsumer == 2
  {
    OneValue(r.active[u], 1, 1);
  }

  lemma OneValue(m: map<SubId, Chan>, id: SubId, c: Chan)
    requires m == map[id := c]
    ensures m.Values == {c}
  {
    assert id in m.Keys && m[id] == c;
    assert m[id] in m.Values;
    forall x | x in m.Values ensures x == c {
      var k :| k in m.Keys && m[k] == x;
    }
  }
}
