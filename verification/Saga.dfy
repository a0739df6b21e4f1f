/**
 Registration as a saga over two queues: the social service stores a pending user and sends
 UserCreated, the verifier answers every UserCreated with a verdict, the social service
 applies verdicts to the stored status.

 Anything may be lost: a message that cannot be sent, a status that cannot be stored.
 */
module Saga {
  import opened Wrappers
  import opened Users

  type Status = int

  const PENDING: Status := 0
  const FAILED: Status := 10
  const SUCCEEDED: Status := 100

  datatype EventType = UserCreated | UserVerified | UserVerificationFailed | OtherType(name: string)

  /** A payload that is no user, or a user whose id may be missing. */
  datatype Payload = NotAUser | User(id: Option<UserId>)

  datatype Message = Unreadable | Event(kind: EventType, payload: Payload)

  type Statuses = map<UserId, Status>

  // ---------------------------------------------------------------- one event

  /** UPDATE users SET user_status = status WHERE id = id AND user_status < status. */
  function StatusUpdated(users: Statuses, id: Option<UserId>, status: Status): Statuses {
    if id.Some? && id.value in users && users[id.value] < status then users[id.value := status] else users
  }

  predicate IsVerdict(kind: EventType) {
    kind.UserVerified? || kind.UserVerificationFailed?
  }

  function VerdictStatus(kind: EventType): Status {
    if kind.UserVerified? then SUCCEEDED else FAILED
  }

  /** The handling of one message by the status service. */
  function Processed(users: Statuses, m: Message): Statuses {
    if m.Event? && IsVerdict(m.kind) && m.payload.User? then StatusUpdated(users, m.payload.id, VerdictStatus(m.kind))
    else users
  }

  /** The answer of the verifier: a message it cannot read fails nobody in particular. */
  function Verdict(m: Message, ok: bool): Message {
    if m.Unreadable? then Event(UserVerificationFailed, User(None))
    else Event(if ok then UserVerified else UserVerificationFailed, m.payload)
  }

  // ---------------------------------------------------------------- order does not matter

  function ProcessedAll(users: Statuses, messages: seq<Message>): Statuses {
    if messages == [] then users
    else Processed(ProcessedAll(users, messages[..|messages| - 1]), messages[|messages| - 1])
  }

  /** The message is a verdict on user `u`. */
  predicate Concerns(m: Message, u: UserId) {
    m.Event? && IsVerdict(m.kind) && m.payload == User(Some(u))
  }

  /** `status` is the greatest of the initial status and the statuses of the verdicts on `u`. */
  ghost predicate GreatestStatus(status: Status, initial: Status, messages: seq<Message>, u: UserId) {
    && initial <= status
    && (forall m :: m in messages && Concerns(m, u) ==> VerdictStatus(m.kind) <= status)
    && (status == initial || exists m :: m in messages && Concerns(m, u) && VerdictStatus(m.kind) == status)
  }

  /** Whatever the messages and their order, a user ends with the greatest status, and nobody comes or goes. */
  lemma {:induction false} FinalStatusIsGreatest(users: Statuses, messages: seq<Message>, u: UserId)
    ensures ProcessedAll(users, messages).Keys == users.Keys
    ensures u in users ==> GreatestStatus(ProcessedAll(users, messages)[u], users[u], messages, u)
  {
    if messages != [] {
      var before, last := messages[..|messages| - 1], messages[|messages| - 1];
      assert messages == before + [last];
      FinalStatusIsGreatest(users, before, u);
      if u in users && Concerns(last, u) { assert last in messages; }
    }
  }

  /** Two sequences with the same messages, in any order and repeated at will, have the same outcome. */
  lemma OrderAndDuplicatesDoNotMatter(users: Statuses, a: seq<Message>, b: seq<Message>)
    requires forall m :: m in a <==> m in b
    ensures ProcessedAll(users, a) == ProcessedAll(users, b)
  {
    forall u | u in users
      ensures u in ProcessedAll(users, a) && u in ProcessedAll(users, b)
      ensures ProcessedAll(users, a)[u] == ProcessedAll(users, b)[u]
    {
      FinalStatusIsGreatest(users, a, u);
      FinalStatusIsGreatest(users, b, u);
    }
    FinalStatusIsGreatest(users, a, "");
    FinalStatusIsGreatest(users, b, "");
  }

  /** Without a verdict on `u` the status of `u` stays: no event without user id changes anyone. */
  lemma OnlyVerdictsCount(users: Statuses, messages: seq<Message>, u: UserId)
    requires u in users && forall m :: m in messages ==> !Concerns(m, u)
    ensures u in ProcessedAll(users, messages) && ProcessedAll(users, messages)[u] == users[u]
  {
    FinalStatusIsGreatest(users, messages, u);
  }

  // ---------------------------------------------------------------- whole runs

  /**
   `lost`: users of whom a message or its effect was dropped; `decided`: what the verifier
   decided about each user.
   */
  datatype System = System(
    users: Statuses,
    created: multiset<Message>,
    verdicts: multiset<Message>,
    lost: set<UserId>,
    decided: map<UserId, bool>)

  const START := System(map[], multiset{}, multiset{}, {}, map[])

  datatype Step =
    | Register(user: UserId, sendFails: bool)
    | Garbage                                          // something unreadable on the first queue
    | Verify(m: Message, ok: bool, sendFails: bool)
    | Conclude(m: Message, writeFails: bool)

  function CreatedMessage(u: UserId): Message {
    Event(UserCreated, User(Some(u)))
  }

  function Subject(m: Message): set<UserId> {
    if m.Event? && m.payload.User? && m.payload.id.Some? then {m.payload.id.value} else {}
  }

  predicate Enabled(s: System, step: Step) {
    match step
    case Register(user, _) => user !in s.users
    case Garbage => true
    case Verify(m, _, _) => m in s.created
    case Conclude(m, _) => m in s.verdicts
  }

  function Apply(s: System, step: Step): System
    requires Enabled(s, step)
  {
    match step
    case Register(user, sendFails) =>
      s.(users := s.users[user := PENDING],
         created := if sendFails then s.created else s.created + multiset{CreatedMessage(user)},
         lost := if sendFails then s.lost + {user} else s.lost)
    case Garbage => s.(created := s.created + multiset{Unreadable})
    case Verify(m, ok, sendFails) =>
      s.(created := s.created - multiset{m},
         verdicts := if sendFails then s.verdicts else s.verdicts + multiset{Verdict(m, ok)},
         lost := if sendFails then s.lost + Subject(m) else s.lost,
         decided := s.decided + map u | u in Subject(m) :: ok)
    case Conclude(m, writeFails) =>
      s.(users := if writeFails then s.users else Processed(s.users, m),
         verdicts := s.verdicts - multiset{m},
         lost := if writeFails then s.lost + Subject(m) else s.lost)
  }

  /** Every send and every write may fail, and whatever is queued may be handled next. */
  lemma AnythingMayHappen(s: System, u: UserId, m: Message, ok: bool, fails: bool)
    ensures Enabled(s, Garbage)
    ensures Enabled(s, Register(u, fails)) <==> u !in s.users
    ensures Enabled(s, Verify(m, ok, fails)) <==> m in s.created
    ensures Enabled(s, Conclude(m, fails)) <==> m in s.verdicts
  {
  }

  /** A step that drops something only drops it: the message is gone and no status changes. */
  lemma DroppingChangesNoStatus(s: System, u: UserId, m: Message, ok: bool)
    ensures u !in s.users ==> var t := Apply(s, Register(u, true));
      t.users == s.users[u := 0] && t.created == s.created && t.verdicts == s.verdicts
    ensures m in s.created ==> var t := Apply(s, Verify(m, ok, true));
      t.users == s.users && t.created == s.created - multiset{m} && t.verdicts == s.verdicts
    ensures m in s.verdicts ==> var t := Apply(s, Conclude(m, true));
      t.users == s.users && t.created == s.created && t.verdicts == s.verdicts - multiset{m}
  {
  }

  /** What nobody can read costs the verifier a failure about nobody, and that one changes no status. */
  lemma UnreadableChangesNobody(s: System, ok: bool)
    ensures Apply(s, Garbage) == s.(created := s.created + multiset{Unreadable})
    ensures Unreadable in s.created ==>
      Apply(s, Verify(Unreadable, ok, false)) ==
      s.(created := s.created - multiset{Unreadable},
         verdicts := s.verdicts + multiset{Event(UserVerificationFailed, User(None))})
    ensures Event(UserVerificationFailed, User(None)) in s.verdicts ==>
      Apply(s, Conclude(Event(UserVerificationFailed, User(None)), false)) ==
      s.(verdicts := s.verdicts - multiset{Event(UserVerificationFailed, User(None))})
  {
    assert s.decided + (map u | u in Subject(Unreadable) :: ok) == s.decided;
  }

  /** A newcomer is stored as pending and announced; her verdict, once applied, is her status. */
  lemma NewcomerIsAnnounced(s: System, u: UserId)
    requires u !in s.users
    ensures Enabled(s, Register(u, false))
    ensures Apply(s, Register(u, false)) ==
      s.(users := s.users[u := 0], created := s.created + multiset{Event(UserCreated, User(Some(u)))})
  {
  }

  lemma VerdictIsApplied(s: System, u: UserId, ok: bool)
    requires Pending(s, u)
    ensures var verdict := Event(if ok then UserVerified else UserVerificationFailed, User(Some(u)));
      verdict in s.verdicts ==>
        Apply(s, Conclude(verdict, false)) ==
        s.(users := s.users[u := if ok then 100 else 10], verdicts := s.verdicts - multiset{verdict})
  {
  }

  ghost predicate Leads(s: System, steps: seq<Step>, t: System)
    decreases |steps|
  {
    if steps == [] then t == s
    else Enabled(s, steps[0]) && Leads(Apply(s, steps[0]), steps[1..], t)
  }

  /** The messages on the way that concern `u`. */
  function InFlight(s: System, u: UserId): nat {
    var m := CreatedMessage(u);
    s.created[m] + s.verdicts[Verdict(m, true)] + s.verdicts[Verdict(m, false)]
  }

  predicate Pending(s: System, u: UserId) {
    u in s.users && s.users[u] == PENDING
  }

  /** Only messages the services send are on the queues. */
  ghost predicate WellFormed(s: System) {
    && (forall m :: m in s.created ==> m == Unreadable || exists u :: m == CreatedMessage(u))
    && (forall m :: m in s.verdicts ==>
         m == Verdict(Unreadable, false) || exists u, ok :: m == Verdict(CreatedMessage(u), ok))
  }

  /** A pending user has one message on the way, unless it was lost; nobody else has any. */
  predicate Conserved(s: System, u: UserId) {
    && InFlight(s, u) == (if Pending(s, u) && u !in s.lost then 1 else 0)
    && (u in s.lost ==> Pending(s, u))
  }

  /** Verdicts on the way and final statuses are what the verifier decided. */
  predicate Faithful(s: System, u: UserId) {
    && (u in s.decided ==> u in s.users && s.created[CreatedMessage(u)] == 0)
    && (forall ok :: Verdict(CreatedMessage(u), ok) in s.verdicts ==> u in s.decided && s.decided[u] == ok)
    && (u in s.users && !Pending(s, u) ==>
         u in s.decided && s.users[u] == if s.decided[u] then SUCCEEDED else FAILED)
  }

  ghost predicate Inv(s: System) {
    WellFormed(s) && forall u :: Conserved(s, u) && Faithful(s, u)
  }

  lemma StepKeepsUser(s: System, step: Step, u: UserId)
    requires WellFormed(s) && Conserved(s, u) && Faithful(s, u) && Enabled(s, step)
    ensures Conserved(Apply(s, step), u) && Faithful(Apply(s, step), u)
  {
    match step
    case Register(_, _) => RegisterKeepsUser(s, step, u);
    case Garbage =>
    case Verify(m, _, _) =>
      if m == CreatedMessage(u) { OwnVerifyKeepsUser(s, step, u); } else { OtherMessageKeepsUser(s, step, u); }
    case Conclude(m, _) =>
      if u in Subject(m) { OwnConcludeKeepsUser(s, step, u); } else { OtherMessageKeepsUser(s, step, u); }
  }

  lemma RegisterKeepsUser(s: System, step: Step, u: UserId)
    requires Conserved(s, u) && Faithful(s, u) && step.Register? && Enabled(s, step)
    ensures Conserved(Apply(s, step), u) && Faithful(Apply(s, step), u)
  {
  }

  lemma OwnVerifyKeepsUser(s: System, step: Step, u: UserId)
    requires Conserved(s, u) && Faithful(s, u) && step.Verify? && Enabled(s, step) && step.m == CreatedMessage(u)
    ensures Conserved(Apply(s, step), u) && Faithful(Apply(s, step), u)
  {
    assert s.created[CreatedMessage(u)] == 1;
  }

  lemma OwnConcludeKeepsUser(s: System, step: Step, u: UserId)
    requires WellFormed(s) && Conserved(s, u) && Faithful(s, u)
    requires step.Conclude? && Enabled(s, step) && u in Subject(step.m)
    ensures Conserved(Apply(s, step), u) && Faithful(Apply(s, step), u)
  {
    var ok := step.m.kind.UserVerified?;
    assert step.m == Verdict(CreatedMessage(u), ok);
    assert s.verdicts[step.m] == 1;
  }

  /** Nothing about `u` differs. */
  predicate SameFor(s: System, t: System, u: UserId) {
    && (u in t.users <==> u in s.users) && (u in s.users ==> t.users[u] == s.users[u])
    && (u in t.lost <==> u in s.lost)
    && (u in t.decided <==> u in s.decided) && (u in s.decided ==> t.decided[u] == s.decided[u])
    && t.created[CreatedMessage(u)] == s.created[CreatedMessage(u)]
    && t.verdicts[Verdict(CreatedMessage(u), true)] == s.verdicts[Verdict(CreatedMessage(u), true)]
    && t.verdicts[Verdict(CreatedMessage(u), false)] == s.verdicts[Verdict(CreatedMessage(u), false)]
  }

  lemma SameKeepsUser(s: System, t: System, u: UserId)
    requires Conserved(s, u) && Faithful(s, u) && SameFor(s, t, u)
    ensures Conserved(t, u) && Faithful(t, u)
  {
  }

  /** A message about nobody or about somebody else. */
  lemma OtherMessageKeepsUser(s: System, step: Step, u: UserId)
    requires Conserved(s, u) && Faithful(s, u) && Enabled(s, step)
    requires step.Verify? || step.Conclude?
    requires u !in Subject(step.m)
    ensures Conserved(Apply(s, step), u) && Faithful(Apply(s, step), u)
  {
    assert SameFor(s, Apply(s, step), u) by {
      if step.Verify? { OtherVerify(s, step, u); } else { OtherConclude(s, step, u); }
    }
    SameKeepsUser(s, Apply(s, step), u);
  }

  lemma OtherVerify(s: System, step: Step, u: UserId)
    requires Enabled(s, step) && step.Verify? && u !in Subject(step.m)
    ensures SameFor(s, Apply(s, step), u)
  {
    assert u !in Subject(Verdict(step.m, step.ok));
  }

  lemma OtherConclude(s: System, step: Step, u: UserId)
    requires Enabled(s, step) && step.Conclude? && u !in Subject(step.m)
    ensures SameFor(s, Apply(s, step), u)
  {
  }

  lemma StepKeepsWellFormed(s: System, step: Step)
    requires WellFormed(s) && Enabled(s, step)
    ensures WellFormed(Apply(s, step))
  {
    match step
    case Register(user, _) => assert CreatedMessage(user) == CreatedMessage(user);
    case Garbage =>
    case Verify(m, ok, _) => assert m == Unreadable ==> Verdict(m, ok) == Verdict(Unreadable, false);
    case Conclude(_, _) =>
  }

  lemma StepKeepsInv(s: System, step: Step)
    requires Inv(s) && Enabled(s, step)
    ensures Inv(Apply(s, step))
  {
    StepKeepsWellFormed(s, step);
    forall u | true ensures Conserved(Apply(s, step), u) && Faithful(Apply(s, step), u) {
      StepKeepsUser(s, step, u);
    }
  }

  lemma {:induction false} RunKeepsInv(s: System, steps: seq<Step>, t: System)
    requires Inv(s) && Leads(s, steps, t)
    ensures Inv(t)
    decreases |steps|
  {
    if steps != [] {
      StepKeepsInv(s, steps[0]);
      RunKeepsInv(Apply(s, steps[0]), steps[1..], t);
    }
  }

  // ---------------------------------------------------------------- main results

  /**
   Conservation.  In every run each user is in exactly one of three situations: one message
   about her is on the way and she is pending; something about her was lost and she stays
   pending; or neither, and her status is what the verifier decided.
   */
  lemma NothingLostOrDuplicated(steps: seq<Step>, s: System, u: UserId)
    requires Leads(START, steps, s)
    ensures InFlight(s, u) <= 1
    ensures Pending(s, u) <==> InFlight(s, u) == 1 || u in s.lost
    ensures !(InFlight(s, u) == 1 && u in s.lost)
    ensures u in s.users && !Pending(s, u) ==>
      u in s.decided && s.users[u] == if s.decided[u] then 100 else 10
    ensures Pending(s, u) ==> s.users[u] == 0
  {
    RunKeepsInv(START, steps, s);
    assert Conserved(s, u) && Faithful(s, u);
  }

  /** The step drops a message about `u`, or its effect. */
  predicate Drops(step: Step, u: UserId) {
    match step
    case Register(user, sendFails) => sendFails && user == u
    case Garbage => false
    case Verify(m, _, sendFails) => sendFails && u in Subject(m)
    case Conclude(m, writeFails) => writeFails && u in Subject(m)
  }

  predicate Dropped(steps: seq<Step>, u: UserId) {
    exists k :: 0 <= k < |steps| && Drops(steps[k], u)
  }

  lemma DroppedFirstOrLater(steps: seq<Step>, u: UserId)
    requires steps != []
    ensures Dropped(steps, u) <==> Drops(steps[0], u) || Dropped(steps[1..], u)
  {
    if k :| 0 <= k < |steps[1..]| && Drops(steps[1..][k], u) {
      assert Drops(steps[k + 1], u);
    }
    if k :| 0 < k < |steps| && Drops(steps[k], u) {
      assert Drops(steps[1..][k - 1], u);
    }
  }

  lemma LostByStep(s: System, step: Step, u: UserId)
    requires Enabled(s, step)
    ensures u in Apply(s, step).lost <==> u in s.lost || Drops(step, u)
  {
  }

  /** Nothing else loses a user, and nothing finds her again. */
  lemma {:induction false} LostIffDropped(s: System, steps: seq<Step>, t: System, u: UserId)
    requires Leads(s, steps, t)
    ensures u in t.lost <==> u in s.lost || Dropped(steps, u)
    decreases |steps|
  {
    if steps != [] {
      LostByStep(s, steps[0], u);
      LostIffDropped(Apply(s, steps[0]), steps[1..], t, u);
      DroppedFirstOrLater(steps, u);
    }
  }

  /**
   With both queues empty exactly those users are pending of whom some step of the run
   dropped a message; all others have their verdict.
   */
  lemma SettledWhenQueuesEmpty(steps: seq<Step>, s: System, u: UserId)
    requires Leads(START, steps, s) && s.created == multiset{} && s.verdicts == multiset{}
    ensures Pending(s, u) <==> Dropped(steps, u)
    ensures u in s.users && !Pending(s, u) ==>
      u in s.decided && s.users[u] == if s.decided[u] then 100 else 10
  {
    NothingLostOrDuplicated(steps, s, u);
    LostIffDropped(START, steps, s, u);
  }

  /** A user of whom something was dropped stays pending for good. */
  lemma DroppedStaysPending(before: seq<Step>, s: System, after: seq<Step>, t: System, u: UserId)
    requires Leads(START, before, s) && Leads(s, after, t)
    requires Dropped(before, u)
    ensures Pending(s, u) && Pending(t, u)
  {
    DroppedIsLost(before, s, u);
    LostIsPending(s, u);
    LostStaysPending(s, after, t, u);
  }

  lemma DroppedIsLost(steps: seq<Step>, s: System, u: UserId)
    requires Leads(START, steps, s) && Dropped(steps, u)
    ensures Inv(s) && u in s.lost
  {
    RunKeepsInv(START, steps, s);
    LostIffDropped(START, steps, s, u);
  }

  lemma LostStaysPending(s: System, steps: seq<Step>, t: System, u: UserId)
    requires Inv(s) && u in s.lost && Leads(s, steps, t)
    ensures Pending(t, u)
  {
    RunKeepsInv(s, steps, t);
    LostIffDropped(s, steps, t, u);
    LostIsPending(t, u);
  }

  lemma LostIsPending(s: System, u: UserId)
    requires Inv(s) && u in s.lost
    ensures Pending(s, u)
  {
    assert Conserved(s, u);
  }

  lemma {:induction false} StatusIsFinal(s: System, steps: seq<Step>, t: System, u: UserId)
    requires Inv(s) && Leads(s, steps, t) && u in s.users
    ensures u in t.users && s.users[u] <= t.users[u]
    ensures !Pending(s, u) ==> t.users[u] == s.users[u]
    decreases |steps|
  {
    if steps != [] {
      var s1 := Apply(s, steps[0]);
      StepKeepsInv(s, steps[0]);
      StepKeepsStatus(s, steps[0], u);
      StatusIsFinal(s1, steps[1..], t, u);
    }
  }

  /** A pending user may get a status; no other status ever changes. */
  lemma StepKeepsStatus(s: System, step: Step, u: UserId)
    requires Inv(s) && Enabled(s, step) && u in s.users
    ensures u in Apply(s, step).users && s.users[u] <= Apply(s, step).users[u]
    ensures !Pending(s, u) ==> Apply(s, step).users[u] == s.users[u]
  {
    assert Conserved(s, u) && Faithful(s, u);
    if step.Conclude? && u in Subject(step.m) {
      assert step.m == Verdict(CreatedMessage(u), step.m.kind.UserVerified?);
    }
  }

  /** Work still to do: an unverified message takes two steps, a verdict one. */
  function Measure(s: System): nat {
    2 * |s.created| + |s.verdicts|
  }

  predicate Arrival(step: Step) {
    step.Register? || step.Garbage?
  }

  function Arrivals(steps: seq<Step>): nat {
    if steps == [] then 0 else (if Arrival(steps[0]) then 1 else 0) + Arrivals(steps[1..])
  }

  lemma StepMeasure(s: System, step: Step)
    requires Enabled(s, step)
    ensures Measure(Apply(s, step)) + 1 <= Measure(s) + if Arrival(step) then 3 else 0
  {
  }

  /** Termination: a run with `n` arrivals has at most 3 * n steps beyond the work there was. */
  lemma {:induction false} RunsAreBounded(s: System, steps: seq<Step>, t: System)
    requires Leads(s, steps, t)
    ensures |steps| + Measure(t) <= Measure(s) + 3 * Arrivals(steps)
    decreases |steps|
  {
    if steps != [] {
      StepMeasure(s, steps[0]);
      RunsAreBounded(Apply(s, steps[0]), steps[1..], t);
    }
  }

  /** As long as a message is queued some service can go on, so a run stops only with empty queues. */
  lemma StopsOnlyWhenEmpty(s: System)
    ensures Measure(s) > 0 <==> exists step :: Enabled(s, step) && !Arrival(step)
  {
    if Measure(s) > 0 {
      if s.created != multiset{} {
        var m :| m in s.created;
        assert Enabled(s, Verify(m, true, false)) && !Arrival(Verify(m, true, false));
      } else {
        var m :| m in s.verdicts;
        assert Enabled(s, Conclude(m, false)) && !Arrival(Conclude(m, false));
      }
    }
  }

  /** From every reachable state the queues can be worked off without another loss. */
  lemma {:induction false} QueuesDrain(s: System) returns (steps: seq<Step>, t: System)
    ensures Leads(s, steps, t) && Arrivals(steps) == 0
    ensures t.created == multiset{} && t.verdicts == multiset{} && t.lost == s.lost && t.users.Keys == s.users.Keys
    decreases Measure(s)
  {
    if Measure(s) == 0 {
      return [], s;
    }
    var step;
    if s.created != multiset{} {
      var m :| m in s.created;
      step := Verify(m, true, false);
    } else {
      var m :| m in s.verdicts;
      step := Conclude(m, false);
    }
    StepMeasure(s, step);
    var rest;
    rest, t := QueuesDrain(Apply(s, step));
    steps := [step] + rest;
    assert steps[1..] == rest;
  }
}
