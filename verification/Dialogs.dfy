/** Messages of dialogs: stored under the dialog of their two users, listed newest first. */
module Dialogs {
  import opened Wrappers
  import opened Users
  import opened Ordering
  import opened DialogIds
  import opened Cursors

  datatype Message = Message(id: string, dialogId: DialogId, from: UserId, to: UserId, text: string, sendTime: int)

  /** A request to send a message: the id generated for it, and the time when it is stored. */
  datatype Sending = Sending(id: string, from: UserId, to: UserId, text: string, time: int)

  datatype DialogError = DuplicateMessage | NotExecuted

  function Row(hash: Hash, s: Sending): Message {
    Message(s.id, ObtainDialogId(hash, s.from, s.to), s.from, s.to, s.text, s.time)
  }

  function MessageStamp(m: Message): Stamp {
    Stamp(m.sendTime, m.id)
  }

  predicate KeyTaken(table: seq<Message>, dialogId: DialogId, id: string) {
    exists m :: m in table && m.dialogId == dialogId && m.id == id
  }

  function Inserted(table: seq<Message>, m: Message): Result<seq<Message>, DialogError> {
    if KeyTaken(table, m.dialogId, m.id) then Failure(DuplicateMessage) else Success(table + [m])
  }

  function InDialog(table: seq<Message>, dialogId: DialogId): seq<Message> {
    if table == [] then []
    else (if table[0].dialogId == dialogId then [table[0]] else []) + InDialog(table[1..], dialogId)
  }

  /** SELECT ... WHERE dialog_id = dialogId ORDER BY send_time DESC. */
  function SelectDialog(table: seq<Message>, dialogId: DialogId): seq<Message> {
    Sort(InDialog(table, dialogId), MessageStamp)
  }

  ghost predicate KeysDistinct(table: seq<Message>) {
    forall i, j :: 0 <= i < j < |table| ==> table[i].dialogId != table[j].dialogId || table[i].id != table[j].id
  }

  /** The primary key, and every message stored under the dialog of its users. */
  ghost predicate Valid(hash: Hash, table: seq<Message>) {
    && KeysDistinct(table)
    && (forall m :: m in table ==> m.dialogId == ObtainDialogId(hash, m.from, m.to))
  }

  lemma {:induction false} InDialogMeaning(table: seq<Message>, dialogId: DialogId)
    requires KeysDistinct(table)
    ensures forall m :: m in InDialog(table, dialogId) <==> m in table && m.dialogId == dialogId
    ensures DistinctStamps(InDialog(table, dialogId), MessageStamp)
  {
    if table != [] {
      var rest := InDialog(table[1..], dialogId);
      InDialogMeaning(table[1..], dialogId);
      assert table == [table[0]] + table[1..];
      forall j | 0 <= j < |rest| && table[0].dialogId == dialogId ensures rest[j].id != table[0].id {
        assert rest[j] in table[1..];
        var k :| 0 <= k < |table[1..]| && table[1..][k] == rest[j];
        assert table[k + 1] == rest[j];
      }
    }
  }

  lemma {:induction false} InDialogRows(table: seq<Message>, dialogId: DialogId)
    ensures forall m :: m in InDialog(table, dialogId) <==> m in table && m.dialogId == dialogId
  {
    if table != [] { InDialogRows(table[1..], dialogId); }
  }

  /** The rows of one dialog, later messages first. */
  lemma SelectDialogRows(table: seq<Message>, dialogId: DialogId)
    ensures var r := SelectDialog(table, dialogId);
      && (forall m :: m in r <==> m in table && m.dialogId == dialogId)
      && (forall i, j :: 0 <= i < j < |r| ==> r[i].sendTime >= r[j].sendTime)
  {
    var r := SelectDialog(table, dialogId);
    InDialogRows(table, dialogId);
    SortDescends(InDialog(table, dialogId), MessageStamp);
    forall i, j | 0 <= i < j < |r| ensures r[i].sendTime >= r[j].sendTime {
      assert MessageStamp(r[i]).time >= MessageStamp(r[j]).time;
    }
  }

  // ---------------------------------------------------------------- history

  predicate Between(m: Message, a: UserId, b: UserId) {
    SamePair(m.from, m.to, a, b)
  }

  /** The hash tells the pair (a, b) apart from every other pair that has written. */
  ghost predicate CollisionFree(hash: Hash, table: seq<Message>, a: UserId, b: UserId) {
    forall m :: m in table && hash(Combined(m.from, m.to)) == hash(Combined(a, b)) ==>
      Combined(m.from, m.to) == Combined(a, b)
  }

  ghost predicate SameLengthIds(table: seq<Message>, a: UserId, b: UserId) {
    |a| == |b| && forall m :: m in table ==> |m.from| == |m.to| == |a|
  }

  /** The listing that is asked for: exactly the messages between the two, each once, newest first. */
  ghost predicate History(r: seq<Message>, table: seq<Message>, a: UserId, b: UserId) {
    && Sorted(r, MessageStamp)
    && forall m :: m in r <==> m in table && Between(m, a, b)
  }

  /** The query for the dialog of `a` and `b` returns their history, the same for both of them. */
  lemma SelectIsHistory(hash: Hash, table: seq<Message>, a: UserId, b: UserId)
    requires Valid(hash, table) && CollisionFree(hash, table, a, b) && SameLengthIds(table, a, b)
    ensures History(SelectDialog(table, ObtainDialogId(hash, a, b)), table, a, b)
    ensures SelectDialog(table, ObtainDialogId(hash, b, a)) == SelectDialog(table, ObtainDialogId(hash, a, b))
  {
    var dialogId := ObtainDialogId(hash, a, b);
    DialogIdSymmetric(hash, a, b);
    InDialogMeaning(table, dialogId);
    SortSorts(InDialog(table, dialogId), MessageStamp);
    forall m | m in table ensures m.dialogId == dialogId <==> Between(m, a, b) {
      DialogIdDeterminesPair(hash, m.from, m.to, a, b);
    }
  }

  /** There is only one such listing. */
  lemma HistoryUnique(r: seq<Message>, s: seq<Message>, table: seq<Message>, a: UserId, b: UserId)
    requires History(r, table, a, b) && History(s, table, a, b)
    ensures r == s
  {
    SortedUnique(r, s, MessageStamp);
  }

  // ---------------------------------------------------------------- whole runs

  function Rows(hash: Hash, sendings: seq<Sending>): seq<Message> {
    seq(|sendings|, i requires 0 <= i < |sendings| => Row(hash, sendings[i]))
  }

  /** The table after the first `n` rows have been inserted; a row whose key is taken changes nothing. */
  function AfterInserts(rows: seq<Message>, n: nat): seq<Message>
    requires n <= |rows|
  {
    if n == 0 then []
    else
      match Inserted(AfterInserts(rows, n - 1), rows[n - 1])
      case Success(table) => table
      case Failure(_) => AfterInserts(rows, n - 1)
  }

  lemma {:induction false} AfterInsertsMeaning(rows: seq<Message>, n: nat)
    requires n <= |rows|
    ensures KeysDistinct(AfterInserts(rows, n))
    ensures forall m :: m in AfterInserts(rows, n) ==> m in rows
  {
    if n > 0 {
      AfterInsertsMeaning(rows, n - 1);
    }
  }

  ghost predicate FreshIds(rows: seq<Message>) {
    forall i, j :: 0 <= i < j < |rows| ==> rows[i].id != rows[j].id
  }

  /** With fresh ids no row is refused. */
  lemma {:induction false} FreshIdsAllStored(rows: seq<Message>, n: nat)
    requires FreshIds(rows) && n <= |rows|
    ensures AfterInserts(rows, n) == rows[..n]
  {
    if n > 0 {
      FreshIdsAllStored(rows, n - 1);
      assert !KeyTaken(rows[..n - 1], rows[n - 1].dialogId, rows[n - 1].id);
    }
  }

  /** Nobody's messages to be told apart collide. */
  ghost predicate Distinguished(hash: Hash, sendings: seq<Sending>, a: UserId, b: UserId) {
    && |a| == |b|
    && forall i :: 0 <= i < |sendings| ==>
         && |sendings[i].from| == |sendings[i].to| == |a|
         && (hash(Combined(sendings[i].from, sendings[i].to)) == hash(Combined(a, b)) ==>
              Combined(sendings[i].from, sendings[i].to) == Combined(a, b))
  }

  /**
   After any run of requests with fresh ids, the dialog of `a` and `b` shows exactly what was
   sent from one of them to the other, each message once, newest first, to both alike.
   */
  lemma DialogShowsWhatWasSent(hash: Hash, sendings: seq<Sending>, a: UserId, b: UserId)
    requires FreshIds(Rows(hash, sendings)) && Distinguished(hash, sendings, a, b)
    ensures var r := SelectDialog(AfterInserts(Rows(hash, sendings), |sendings|), ObtainDialogId(hash, a, b));
      && r == SelectDialog(AfterInserts(Rows(hash, sendings), |sendings|), ObtainDialogId(hash, b, a))
      && Sorted(r, MessageStamp)
      && (forall i :: 0 <= i < |sendings| ==>
           (Row(hash, sendings[i]) in r <==> SamePair(sendings[i].from, sendings[i].to, a, b)))
      && (forall m :: m in r ==> exists i :: 0 <= i < |sendings| && m == Row(hash, sendings[i]))
    ensures var r := SelectDialog(AfterInserts(Rows(hash, sendings), |sendings|), ObtainDialogId(hash, a, b));
      && (forall i :: 0 <= i < |sendings| ==>
           var x := sendings[i];
           ((x.from == a && x.to == b) || (x.from == b && x.to == a) <==>
             exists m ::
               && m in r && m.id == x.id && m.from == x.from && m.to == x.to
               && m.text == x.text && m.sendTime == x.time))
      && (forall m :: m in r ==> exists i ::
           && 0 <= i < |sendings| && sendings[i].id == m.id && sendings[i].from == m.from
           && sendings[i].to == m.to && sendings[i].text == m.text && sendings[i].time == m.sendTime)
      && (forall k, l :: 0 <= k < l < |r| ==> r[k].sendTime >= r[l].sendTime && r[k] != r[l])
  {
    var rows := Rows(hash, sendings);
    AfterInsertsMeaning(rows, |rows|);
    FreshIdsAllStored(rows, |rows|);
    assert AfterInserts(rows, |rows|) == rows;
    RowsOfSendings(hash, sendings, a, b);
    SelectIsHistory(hash, rows, a, b);
    SelectDialogRows(rows, ObtainDialogId(hash, a, b));
    SortedRowsDiffer(SelectDialog(rows, ObtainDialogId(hash, a, b)));
  }

  lemma SortedRowsDiffer(r: seq<Message>)
    requires Sorted(r, MessageStamp)
    ensures forall k, l :: 0 <= k < l < |r| ==> r[k] != r[l]
  {
    forall k, l | 0 <= k < l < |r| ensures r[k] != r[l] {
      NewerIsStrictTotalOrder(MessageStamp(r[k]), MessageStamp(r[l]), MessageStamp(r[k]));
    }
  }

  lemma RowsOfSendings(hash: Hash, sendings: seq<Sending>, a: UserId, b: UserId)
    requires KeysDistinct(Rows(hash, sendings)) && Distinguished(hash, sendings, a, b)
    ensures var rows := Rows(hash, sendings);
      Valid(hash, rows) && CollisionFree(hash, rows, a, b) && SameLengthIds(rows, a, b)
    ensures forall i :: 0 <= i < |sendings| ==> Row(hash, sendings[i]) in Rows(hash, sendings)
    ensures forall m :: m in Rows(hash, sendings) ==> exists i :: 0 <= i < |sendings| && m == Row(hash, sendings[i])
  {
    forall i | 0 <= i < |sendings| ensures Row(hash, sendings[i]) in Rows(hash, sendings) {
      assert Rows(hash, sendings)[i] == Row(hash, sendings[i]);
    }
  }

  // ---------------------------------------------------------------- storage and service

  class DialogStorage {
    var messages: seq<Message>

    constructor ()
      ensures messages == []
    {
      messages := [];
    }

    /** Stores the message with the time of the database and returns it with that time. */
    method CreateMessage(message: Message, now: int, fails: bool) returns (r: Result<Message, DialogError>)
      modifies this
      ensures r.Failure? <==> fails || KeyTaken(old(messages), message.dialogId, message.id)
      ensures r.Success? ==> r.value == message.(sendTime := now) && messages == old(messages) + [r.value]
      ensures r.Failure? ==> r == Failure(if fails then NotExecuted else DuplicateMessage) && messages == old(messages)
      ensures !fails ==>
        (r.Failure? <==> exists m :: m in old(messages) && m.dialogId == message.dialogId && m.id == message.id)
      ensures r.Success? ==>
        && r.value.id == message.id && r.value.dialogId == message.dialogId && r.value.text == message.text
        && r.value.from == message.from && r.value.to == message.to && r.value.sendTime == now
    {
      if fails { return Failure(NotExecuted); }
      if exists m | m in messages :: m.dialogId == message.dialogId && m.id == message.id {
        return Failure(DuplicateMessage);
      }
      var stored := message.(sendTime := now);
      messages := messages + [stored];
      r := Success(stored);
    }

    /** All rows, if the connection holds; if it is lost, silently only some of the newest. */
    method GetMessagesInDialog(dialogId: DialogId, cursor: Cursor) returns (r: Result<seq<Message>, QueryError>)
      ensures var count := |SelectDialog(messages, dialogId)|;
        && (r.Failure? <==> CursorError(cursor, count).Some?)
        && (r.Failure? ==> CursorError(cursor, count) == Some(r.error))
        && (r.Success? ==> (r.value == SelectDialog(messages, dialogId) <==> !SilentlyCut(cursor, count)))
      ensures r.Success? ==> r.value <= SelectDialog(messages, dialogId)
      ensures cursor.QueryFails? ==> r == Failure(NotQueried)
      ensures cursor.ScanFails? && cursor.row < |SelectDialog(messages, dialogId)| ==> r == Failure(BadRow)
      ensures cursor.ConnectionLost? ==>
        && r.Success?
        && var count := |SelectDialog(messages, dialogId)|;
           |r.value| == if cursor.row < count then cursor.row else count
      ensures cursor.AllRows? ==> r.Success? && forall m :: m in r.value <==> m in messages && m.dialogId == dialogId
      ensures r.Success? ==>
        && (forall m :: m in r.value ==> m in messages && m.dialogId == dialogId)
        && (forall i, j :: 0 <= i < j < |r.value| ==> r.value[i].sendTime >= r.value[j].sendTime)
    {
      if cursor.QueryFails? {
        return Failure(NotQueried);
      }
      var rows := SelectDialog(messages, dialogId);
      SelectDialogRows(messages, dialogId);
      var result: seq<Message> := [];
      var i := 0;
      while i < Delivered(cursor, |rows|)
        invariant 0 <= i <= Delivered(cursor, |rows|)
        invariant result == rows[..i]
      {
        result := result + [rows[i]];
        i := i + 1;
      }
      if cursor.ScanFails? && cursor.row < |rows| {
        return Failure(BadRow);
      }
      r := Success(result);
    }
  }

  class DialogService {
    const storage: DialogStorage
    const hash: Hash

    constructor (storage: DialogStorage, hash: Hash)
      ensures this.storage == storage && this.hash == hash
    {
      this.storage, this.hash := storage, hash;
    }

    /** `id` is the identifier just generated for the message. */
    method CreateMessage(id: string, from: UserId, to: UserId, text: string, now: int, fails: bool)
      returns (r: Result<Message, DialogError>)
      modifies storage
      ensures fails ==> r == Failure(NotExecuted) && storage.messages == old(storage.messages)
      ensures !fails ==>
              match Inserted(old(storage.messages), Row(hash, Sending(id, from, to, text, now)))
              case Success(table) =>
                r == Success(Row(hash, Sending(id, from, to, text, now))) && storage.messages == table
              case Failure(e) => r == Failure(e) && storage.messages == old(storage.messages)
      ensures old(Valid(hash, storage.messages)) ==> Valid(hash, storage.messages)
      ensures r.Success? ==>
        && r.value.id == id && r.value.from == from && r.value.to == to && r.value.text == text
        && r.value.sendTime == now && r.value.dialogId == ObtainDialogId(hash, from, to)
        && storage.messages == old(storage.messages) + [r.value]
      ensures !fails ==> (r.Failure? <==>
        exists m :: m in old(storage.messages) && m.dialogId == ObtainDialogId(hash, from, to) && m.id == id)
      ensures r.Failure? ==> storage.messages == old(storage.messages)
    {
      var dialogId := ObtainDialogId(hash, from, to);
      r := storage.CreateMessage(Message(id, dialogId, from, to, text, 0), now, fails);
    }

    /** If every row arrives, the history of the two users; the newest part of it if rows are lost. */
    method GetMessagesBetween(a: UserId, b: UserId, cursor: Cursor) returns (r: Result<seq<Message>, QueryError>)
      requires Valid(hash, storage.messages)
      ensures cursor.AllRows? ==> r == Success(SelectDialog(storage.messages, ObtainDialogId(hash, a, b)))
      ensures r.Success? ==> r.value <= SelectDialog(storage.messages, ObtainDialogId(hash, a, b))
      ensures CollisionFree(hash, storage.messages, a, b) && SameLengthIds(storage.messages, a, b) && r.Success? ==>
        && Sorted(r.value, MessageStamp)
        && (forall m :: m in r.value ==> m in storage.messages && Between(m, a, b))
        && (cursor.AllRows? ==> History(r.value, storage.messages, a, b))
      ensures r.Success? ==>
        forall i, j :: 0 <= i < j < |r.value| ==> r.value[i].sendTime >= r.value[j].sendTime
      ensures CollisionFree(hash, storage.messages, a, b) && SameLengthIds(storage.messages, a, b) ==>
        cursor.AllRows? ==> forall m :: m in r.value <==>
          m in storage.messages && ((m.from == a && m.to == b) || (m.from == b && m.to == a))
    {
      r := storage.GetMessagesInDialog(ObtainDialogId(hash, a, b), cursor);
      if CollisionFree(hash, storage.messages, a, b) && SameLengthIds(storage.messages, a, b) {
        SelectIsHistory(hash, storage.messages, a, b);
      }
    }
  }
}
