/**
 The services that take part in the registration saga.  What each of their methods does to
 the storage and the queues is what the corresponding step of the whole system does.
 */
module SagaServices {
  import opened Wrappers
  import opened Users
  import opened Saga

  datatype SagaError =
    | NotValidPassword
    | DuplicateUser
    | WriteFailed
    | UnreadableEvent
    | UnreadablePayload
    | UnknownEventType

  class UserStorage {
    var users: Statuses

    constructor ()
      ensures users == map[]
    {
      users := map[];
    }

    method CreateUser(id: UserId, status: Status, fails: bool) returns (error: Option<SagaError>)
      modifies this
      ensures error == if fails then Some(WriteFailed) else if id in old(users) then Some(DuplicateUser) else None
      ensures users == if error.None? then old(users)[id := status] else old(users)
    {
      if fails { return Some(WriteFailed); }
      if id in users { return Some(DuplicateUser); }
      users := users[id := status];
      error := None;
    }

    /** No user is found under a missing id, and no status is ever lowered; neither is an error. */
    method UpdateUserStatus(id: Option<UserId>, status: Status, fails: bool) returns (error: Option<SagaError>)
      modifies this
      ensures error == if fails then Some(WriteFailed) else None
      ensures users == if fails then old(users) else StatusUpdated(old(users), id, status)
      ensures !fails && id.Some? && id.value in old(users) && old(users)[id.value] < status ==>
        users == old(users)[id.value := status]
      ensures id.None? || id.value !in old(users) || old(users)[id.value] >= status ==> users == old(users)
      ensures forall u :: u in old(users) ==> u in users && old(users)[u] <= users[u]
    {
      if fails { return Some(WriteFailed); }
      if id.Some? && id.value in users && users[id.value] < status {
        users := users[id.value := status];
      }
      error := None;
    }
  }

  /** A publisher; a message it fails to send is dropped with a log line. */
  class Publisher {
    var sent: seq<Message>

    constructor ()
      ensures sent == []
    {
      sent := [];
    }

    method SendData(m: Message, fails: bool)
      modifies this
      ensures sent == old(sent) + if fails then [] else [m]
    {
      if !fails { sent := sent + [m]; }
    }
  }

  class UserService {
    const storage: UserStorage
    const publisher: Publisher

    constructor (storage: UserStorage, publisher: Publisher)
      ensures this.storage == storage && this.publisher == publisher
    {
      this.storage, this.publisher := storage, publisher;
    }

    /**
     Stores the user as pending and announces her; `id` is the identifier just generated.
     Nothing is announced that is not stored, and a failed announcement does not fail the
     registration.
     */
    method RegisterUser(id: UserId, hashFails: bool, writeFails: bool, sendFails: bool)
      returns (r: Result<UserId, SagaError>)
      modifies storage, publisher
      ensures r == if hashFails then Failure(NotValidPassword)
                   else if writeFails then Failure(WriteFailed)
                   else if id in old(storage.users) then Failure(DuplicateUser)
                   else Success(id)
      ensures r.Failure? ==> storage.users == old(storage.users) && publisher.sent == old(publisher.sent)
      ensures r.Success? ==>
        && storage.users == old(storage.users)[id := 0]
        && publisher.sent == old(publisher.sent) + if sendFails then [] else [Event(UserCreated, User(Some(id)))]
    {
      if hashFails {
        return Failure(NotValidPassword);
      }
      var error := storage.CreateUser(id, PENDING, writeFails);
      if error.Some? {
        return Failure(error.value);
      }
      publisher.SendData(Event(UserCreated, User(Some(id))), sendFails);
      r := Success(id);
    }
  }

  class VerifierProcessor {
    const publisher: Publisher

    constructor (publisher: Publisher)
      ensures this.publisher == publisher
    {
      this.publisher := publisher;
    }

    /** Every message is answered with one verdict, also one that cannot be read; even seconds fail. */
    method ProcessEvent(m: Message, now: int, sendFails: bool)
      modifies publisher
      ensures publisher.sent == old(publisher.sent) + if sendFails then [] else [Verdict(m, now % 2 != 0)]
      ensures m.Unreadable? && !sendFails ==>
        publisher.sent == old(publisher.sent) + [Event(UserVerificationFailed, User(None))]
      ensures m.Event? && !sendFails && now % 2 == 0 ==>
        publisher.sent == old(publisher.sent) + [Event(UserVerificationFailed, m.payload)]
      ensures m.Event? && !sendFails && now % 2 == 1 ==>
        publisher.sent == old(publisher.sent) + [Event(UserVerified, m.payload)]
    {
      match m
      case Unreadable =>
        publisher.SendData(Event(UserVerificationFailed, User(None)), sendFails);
      case Event(_, payload) =>
        if now % 2 == 0 {
          publisher.SendData(Event(UserVerificationFailed, payload), sendFails);
        } else {
          publisher.SendData(Event(UserVerified, payload), sendFails);
        }
    }
  }

  /** The messages among the first `n` that were handled without a failing write. */
  function Handled(messages: seq<Message>, writeFails: nat -> bool, n: nat): seq<Message>
    requires n <= |messages|
  {
    if n == 0 then []
    else if writeFails(n - 1) then Handled(messages, writeFails, n - 1)
    else Handled(messages, writeFails, n - 1) + [messages[n - 1]]
  }

  lemma {:induction false} HandledMeaning(messages: seq<Message>, writeFails: nat -> bool, n: nat)
    requires n <= |messages|
    ensures forall m :: m in Handled(messages, writeFails, n) <==>
      exists i: nat :: i < n && messages[i] == m && !writeFails(i)
  {
    if n > 0 {
      HandledMeaning(messages, writeFails, n - 1);
    }
  }

  lemma ProcessedOneMore(users: Statuses, messages: seq<Message>, m: Message)
    ensures ProcessedAll(users, messages + [m]) == Processed(ProcessedAll(users, messages), m)
  {
    assert (messages + [m])[..|messages|] == messages;
  }

  /** `status` is the greatest of the initial status and the verdicts on `u` that could be written. */
  ghost predicate GreatestWritten(status: Status, initial: Status, messages: seq<Message>, writeFails: nat -> bool,
                                  u: UserId)
  {
    && initial <= status
    && (forall i: nat :: i < |messages| && !writeFails(i) && Concerns(messages[i], u) ==>
         VerdictStatus(messages[i].kind) <= status)
    && (status == initial || exists i: nat ::
         i < |messages| && !writeFails(i) && Concerns(messages[i], u) && VerdictStatus(messages[i].kind) == status)
  }

  /** The message is one of these, and its write did not fail. */
  ghost predicate Written(messages: seq<Message>, writeFails: nat -> bool, m: Message) {
    exists i: nat :: i < |messages| && !writeFails(i) && messages[i] == m
  }

  ghost predicate StoredNumber(status: Status, initial: Status, messages: seq<Message>, writeFails: nat -> bool,
                               u: UserId)
  {
    status ==
      if initial < 100 && Written(messages, writeFails, Event(UserVerified, User(Some(u)))) then 100
      else if initial < 10 && Written(messages, writeFails, Event(UserVerificationFailed, User(Some(u)))) then 10
      else initial
  }

  /** A success outranks every failure, before it or after it, and both outrank a pending user. */
  lemma GreatestIsStored(status: Status, initial: Status, messages: seq<Message>, writeFails: nat -> bool, u: UserId)
    requires GreatestWritten(status, initial, messages, writeFails, u)
    ensures StoredNumber(status, initial, messages, writeFails, u)
  {
    var verified, failed := Event(UserVerified, User(Some(u))), Event(UserVerificationFailed, User(Some(u)));
    if i: nat :| i < |messages| && !writeFails(i) && messages[i] == verified {
      assert Concerns(messages[i], u) && VerdictStatus(messages[i].kind) <= status;
    }
    if i: nat :| i < |messages| && !writeFails(i) && messages[i] == failed {
      assert Concerns(messages[i], u) && VerdictStatus(messages[i].kind) <= status;
    }
    if status != initial {
      var i: nat :| i < |messages| && !writeFails(i) && Concerns(messages[i], u)
                    && VerdictStatus(messages[i].kind) == status;
      assert messages[i] == verified || messages[i] == failed;
    }
  }

  lemma GreatestForAll(users: Statuses, messages: seq<Message>, writeFails: nat -> bool)
    ensures var after := ProcessedAll(users, Handled(messages, writeFails, |messages|));
      && after.Keys == users.Keys
      && (forall u :: u in users ==> GreatestWritten(after[u], users[u], messages, writeFails, u))
      && (forall u :: u in users ==> StoredNumber(after[u], users[u], messages, writeFails, u))
  {
    var handled := Handled(messages, writeFails, |messages|);
    HandledMeaning(messages, writeFails, |messages|);
    FinalStatusIsGreatest(users, handled, "");
    forall u | u in users
      ensures u in ProcessedAll(users, handled)
      ensures GreatestWritten(ProcessedAll(users, handled)[u], users[u], messages, writeFails, u)
      ensures StoredNumber(ProcessedAll(users, handled)[u], users[u], messages, writeFails, u)
    {
      FinalStatusIsGreatest(users, handled, u);
      GreatestIsStored(ProcessedAll(users, handled)[u], users[u], messages, writeFails, u);
    }
  }

  class UserStatusService {
    const storage: UserStorage

    constructor (storage: UserStorage)
      ensures this.storage == storage
    {
      this.storage := storage;
    }

    method ProcessEvent(m: Message, writeFails: bool) returns (error: Option<SagaError>)
      modifies storage
      ensures storage.users == if writeFails then old(storage.users) else Processed(old(storage.users), m)
      ensures storage.users.Keys == old(storage.users).Keys
      ensures forall u :: u in old(storage.users) ==>
        storage.users[u] ==
          if m == Event(UserVerified, User(Some(u))) && !writeFails && old(storage.users)[u] < 100 then 100
          else if m == Event(UserVerificationFailed, User(Some(u))) && !writeFails && old(storage.users)[u] < 10 then 10
          else old(storage.users)[u]
      ensures m.Unreadable? ==> error == Some(UnreadableEvent)
      ensures m.Event? && !m.kind.UserVerified? && !m.kind.UserVerificationFailed? ==> error == Some(UnknownEventType)
      ensures m.Event? && (m.kind.UserVerified? || m.kind.UserVerificationFailed?) ==>
        error == if m.payload.NotAUser? then Some(UnreadablePayload)
                 else if writeFails then Some(WriteFailed)
                 else None
    {
      match m
      case Unreadable =>
        error := Some(UnreadableEvent);
      case Event(kind, payload) =>
        if kind.UserVerified? || kind.UserVerificationFailed? {
          match payload
          case NotAUser => error := Some(UnreadablePayload);
          case User(id) =>
            var status := if kind.UserVerified? then SUCCEEDED else FAILED;
            error := storage.UpdateUserStatus(id, status, writeFails);
        } else {
          error := Some(UnknownEventType);
        }
    }

    /** Every user ends with the greatest of her status and the verdicts that could be written. */
    method ProcessEvents(messages: seq<Message>, writeFails: nat -> bool)
      modifies storage
      ensures storage.users == ProcessedAll(old(storage.users), Handled(messages, writeFails, |messages|))
      ensures storage.users.Keys == old(storage.users).Keys
      ensures forall u :: u in old(storage.users) ==>
        GreatestWritten(storage.users[u], old(storage.users)[u], messages, writeFails, u)
      ensures forall u :: u in old(storage.users) ==>
        storage.users[u] ==
          if old(storage.users)[u] < 100 && Written(messages, writeFails, Event(UserVerified, User(Some(u)))) then 100
          else if old(storage.users)[u] < 10
                  && Written(messages, writeFails, Event(UserVerificationFailed, User(Some(u)))) then 10
          else old(storage.users)[u]
    {
      ghost var before := storage.users;
      HandleAll(messages, writeFails);
      GreatestForAll(before, messages, writeFails);
    }

    method HandleAll(messages: seq<Message>, writeFails: nat -> bool)
      modifies storage
      ensures storage.users == ProcessedAll(old(storage.users), Handled(messages, writeFails, |messages|))
    {
      ghost var before := storage.users;
      var k := 0;
      while k < |messages|
        invariant 0 <= k <= |messages|
        invariant storage.users == ProcessedAll(before, Handled(messages, writeFails, k))
      {
        ProcessedOneMore(before, Handled(messages, writeFails, k), messages[k]);
        // an error is only logged
        var _ := ProcessEvent(messages[k], writeFails(k));
        k := k + 1;
      }
    }
  }
}
