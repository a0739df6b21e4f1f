/**
 The per-key lock of the Redis cache on its own: any loader, any number of clients, each
 free to run GetOrLoad or Load on any key, over a database that may change at any moment.
 Loads may fail at any stage, and so may the release of a lock.

 Because the lock is held from the query to the write, the values written under a key
 come from database states in the order those states had.  A held lock is lost if it expires
 or is flushed with the rest of its database.  That destroys the order exactly if a client is
 then between taking the lock and writing the entry, and there is another client.
 */
module KeyVersions {
  type Key = string

  datatype Client<V> =
    | Idle
    | Lookup(key: Key)
    | Wait(key: Key)
    | Locked(key: Key)
    | Loaded(key: Key, v: V, version: nat)
    | Saved(key: Key)

  /** A write to the cache, with the index of the database state its value was read from. */
  datatype Written<V> = Written(key: Key, v: V, version: nat)

  datatype State<D, V> = State(
    history: seq<D>,
    entries: map<Key, V>,
    locks: map<Key, nat>,
    clients: seq<Client<V>>,
    log: seq<Written<V>>)

  datatype Step<D> =
    | Commit(db: D)
    | StartLoad(i: nat, key: Key)
    | StartGetOrLoad(i: nat, key: Key)
    | Advance(i: nat)
    | Fail(i: nat)
    | ReleaseFails(i: nat)
    | EntryExpires(key: Key)
    | LockExpires(key: Key)
    | FlushDb

  predicate Enabled<D, V>(s: State<D, V>, step: Step<D>) {
    match step
    case StartLoad(i, _) => i < |s.clients| && s.clients[i].Idle?
    case StartGetOrLoad(i, _) => i < |s.clients| && s.clients[i].Idle?
    case Advance(i) =>
      i < |s.clients| && !s.clients[i].Idle? && (s.clients[i].Wait? ==> s.clients[i].key !in s.locks)
    case Fail(i) => i < |s.clients| && !s.clients[i].Idle? && !s.clients[i].Saved?
    case ReleaseFails(i) => i < |s.clients| && s.clients[i].Saved?
    case _ => true
  }

  function Apply<D, V>(s: State<D, V>, step: Step<D>, query: (D, Key) -> V): State<D, V>
    requires s.history != [] && Enabled(s, step)
  {
    match step
    case Commit(db) => s.(history := s.history + [db])
    case StartLoad(i, key) => s.(clients := s.clients[i := Wait(key)])
    case StartGetOrLoad(i, key) => s.(clients := s.clients[i := Lookup(key)])
    case Advance(i) => AdvanceClient(s, i, query)
    case Fail(i) => s.(locks := Released(s, i), clients := s.clients[i := Idle])
    case ReleaseFails(i) => s.(clients := s.clients[i := Idle])
    case EntryExpires(key) => s.(entries := s.entries - {key})
    case LockExpires(key) => s.(locks := s.locks - {key})
    case FlushDb => s.(entries := map[], locks := map[])
  }

  function AdvanceClient<D, V>(s: State<D, V>, i: nat, query: (D, Key) -> V): State<D, V>
    requires s.history != [] && i < |s.clients| && !s.clients[i].Idle?
  {
    match s.clients[i]
    case Lookup(k) => s.(clients := s.clients[i := if k in s.entries then Idle else Wait(k)])
    case Wait(k) => s.(locks := s.locks[k := i], clients := s.clients[i := Locked(k)])
    case Locked(k) =>
      var latest := |s.history| - 1;
      s.(clients := s.clients[i := Loaded(k, query(s.history[latest], k), latest)])
    case Loaded(k, v, version) =>
      s.(entries := s.entries[k := v], log := s.log + [Written(k, v, version)], clients := s.clients[i := Saved(k)])
    case Saved(k) => s.(locks := Released(s, i), clients := s.clients[i := Idle])
  }

  /** A lock is released only if it is still this client's. */
  function Released<D, V>(s: State<D, V>, i: nat): map<Key, nat>
    requires i < |s.clients| && !s.clients[i].Idle?
  {
    var k := s.clients[i].key;
    if k in s.locks && s.locks[k] == i then s.locks - {k} else s.locks
  }

  /** The client has taken the lock of its key and has still to write the entry. */
  predicate Critical<V>(c: Client<V>) {
    c.Locked? || c.Loaded?
  }

  /** The step drops no lock that protects anything. */
  predicate Harmless<D, V>(s: State<D, V>, step: Step<D>) {
    match step
    case FlushDb => |s.clients| <= 1 || forall i :: 0 <= i < |s.clients| ==> !Critical(s.clients[i])
    case LockExpires(key) =>
      |s.clients| <= 1 || forall i :: 0 <= i < |s.clients| && Critical(s.clients[i]) ==> s.clients[i].key != key
    case _ => true
  }

  /** `steps` lead from `s` to `t`, and none of them drops a lock that protects anything. */
  ghost predicate Leads<D, V>(s: State<D, V>, steps: seq<Step<D>>, t: State<D, V>, query: (D, Key) -> V)
    decreases |steps|
  {
    if steps == [] then s == t
    else
      && s.history != [] && Enabled(s, steps[0]) && Harmless(s, steps[0])
      && Leads(Apply(s, steps[0], query), steps[1..], t, query)
  }

  ghost predicate Initial<D, V>(s: State<D, V>) {
    && s.history != [] && s.log == [] && s.entries == map[] && s.locks == map[]
    && forall i :: 0 <= i < |s.clients| ==> s.clients[i].Idle?
  }

  // ---------------------------------------------------------------- the invariant

  /** With several clients, each of them owns the lock of the key it is going to write. */
  ghost predicate Locks<D, V>(s: State<D, V>) {
    |s.clients| > 1 ==> forall i :: 0 <= i < |s.clients| && Critical(s.clients[i]) ==>
      s.clients[i].key in s.locks && s.locks[s.clients[i].key] == i
  }

  /** A value in a client's hands is the loader's answer on a state no older than any written under the key. */
  ghost predicate HeldFresh<D, V>(s: State<D, V>, query: (D, Key) -> V) {
    forall i :: 0 <= i < |s.clients| && s.clients[i].Loaded? ==>
      var c := s.clients[i];
      && c.version < |s.history| && c.v == query(s.history[c.version], c.key)
      && forall x :: 0 <= x < |s.log| && s.log[x].key == c.key ==> s.log[x].version <= c.version
  }

  /** Every written value is the loader's answer on the database state it names. */
  ghost predicate LogSound<D, V>(s: State<D, V>, query: (D, Key) -> V) {
    forall x :: 0 <= x < |s.log| ==>
      s.log[x].version < |s.history| && s.log[x].v == query(s.history[s.log[x].version], s.log[x].key)
  }

  /** Later writes under a key come from later, or the same, database states. */
  ghost predicate LogMonotone<D, V>(s: State<D, V>) {
    forall x, y :: 0 <= x < y < |s.log| && s.log[x].key == s.log[y].key ==> s.log[x].version <= s.log[y].version
  }

  /** What is cached under a key is what was written there last. */
  ghost predicate EntriesLast<D, V>(s: State<D, V>) {
    forall k :: k in s.entries ==> exists x :: LastWrite(s, k, x) && s.log[x].v == s.entries[k]
  }

  ghost predicate LastWrite<D, V>(s: State<D, V>, k: Key, x: int) {
    && 0 <= x < |s.log| && s.log[x].key == k
    && forall y :: x < y < |s.log| ==> s.log[y].key != k
  }

  ghost predicate Inv<D, V>(s: State<D, V>, query: (D, Key) -> V) {
    s.history != [] && Locks(s) && HeldFresh(s, query) && LogSound(s, query) && LogMonotone(s) && EntriesLast(s)
  }

  lemma SaveKeepsInv<D, V>(s: State<D, V>, i: nat, query: (D, Key) -> V)
    requires Inv(s, query) && i < |s.clients| && s.clients[i].Loaded?
    ensures Inv(AdvanceClient(s, i, query), query)
  {
    var t := AdvanceClient(s, i, query);
    var c := s.clients[i];
    MoveKeepsLocks(s, t, i, Saved(c.key));
    assert forall j :: 0 <= j < |s.clients| && j != i && s.clients[j].Loaded? ==> s.clients[j].key != c.key;
    assert forall j :: 0 <= j < |s.clients| && j != i ==> t.clients[j] == s.clients[j];
    forall k | k in t.entries ensures exists x :: LastWrite(t, k, x) && t.log[x].v == t.entries[k] {
      if k == c.key {
        assert LastWrite(t, k, |s.log|);
      } else {
        var x :| LastWrite(s, k, x) && s.log[x].v == s.entries[k];
        assert LastWrite(t, k, x);
      }
    }
  }

  /** A client takes a free lock, gives up its own, or leaves the locks alone. */
  lemma MoveKeepsLocks<D, V>(s: State<D, V>, t: State<D, V>, i: nat, c: Client<V>)
    requires Locks(s) && i < |s.clients| && t.clients == s.clients[i := c]
    requires
      || (t.locks == s.locks && (Critical(c) ==> Critical(s.clients[i]) && s.clients[i].key == c.key))
      || (c.Locked? && c.key !in s.locks && t.locks == s.locks[c.key := i])
      || (c.Idle? && !s.clients[i].Idle? && s.clients[i].key in s.locks
          && s.locks[s.clients[i].key] == i && t.locks == s.locks - {s.clients[i].key})
    ensures Locks(t)
  {
    assert forall j :: 0 <= j < |s.clients| && j != i ==> t.clients[j] == s.clients[j];
    assert t.clients[i] == c;
  }

  /** What a client reads is the answer on the newest state, so no older than anything written. */
  lemma MoveKeepsInv<D, V>(s: State<D, V>, t: State<D, V>, i: nat, c: Client<V>, query: (D, Key) -> V)
    requires Inv(s, query) && Locks(t) && i < |s.clients|
    requires t == s.(clients := s.clients[i := c], locks := t.locks)
    requires c.Loaded? ==> c.version == |s.history| - 1 && c.v == query(s.history[c.version], c.key)
    ensures Inv(t, query)
  {
    assert forall j :: 0 <= j < |s.clients| && j != i ==> t.clients[j] == s.clients[j];
    assert t.clients[i] == c;
    assert forall k, x :: LastWrite(s, k, x) ==> LastWrite(t, k, x);
  }

  lemma AdvanceKeepsInv<D, V>(s: State<D, V>, i: nat, query: (D, Key) -> V)
    requires Inv(s, query) && Enabled(s, Advance(i)) && !s.clients[i].Loaded?
    ensures Inv(AdvanceClient(s, i, query), query)
  {
    var t := AdvanceClient(s, i, query);
    MoveKeepsLocks(s, t, i, t.clients[i]);
    MoveKeepsInv(s, t, i, t.clients[i], query);
  }

  lemma EnvironmentKeepsInv<D, V>(s: State<D, V>, step: Step<D>, query: (D, Key) -> V)
    requires Inv(s, query) && Harmless(s, step)
    requires step.Commit? || step.EntryExpires? || step.LockExpires? || step.FlushDb?
    ensures Inv(Apply(s, step, query), query)
  {
    var t := Apply(s, step, query);
    assert forall k, x :: LastWrite(s, k, x) ==> LastWrite(t, k, x);
  }

  lemma StepKeepsInv<D, V>(s: State<D, V>, step: Step<D>, query: (D, Key) -> V)
    requires Inv(s, query) && Enabled(s, step) && Harmless(s, step)
    ensures Inv(Apply(s, step, query), query)
  {
    match step
    case Advance(i) =>
      if s.clients[i].Loaded? { SaveKeepsInv(s, i, query); } else { AdvanceKeepsInv(s, i, query); }
    case StartLoad(i, key) =>
      MoveKeepsLocks(s, Apply(s, step, query), i, Wait(key));
      MoveKeepsInv(s, Apply(s, step, query), i, Wait(key), query);
    case StartGetOrLoad(i, key) =>
      MoveKeepsLocks(s, Apply(s, step, query), i, Lookup(key));
      MoveKeepsInv(s, Apply(s, step, query), i, Lookup(key), query);
    case Fail(i) =>
      MoveKeepsLocks(s, Apply(s, step, query), i, Idle);
      MoveKeepsInv(s, Apply(s, step, query), i, Idle, query);
    case ReleaseFails(i) =>
      MoveKeepsLocks(s, Apply(s, step, query), i, Idle);
      MoveKeepsInv(s, Apply(s, step, query), i, Idle, query);
    case _ => EnvironmentKeepsInv(s, step, query);
  }

  lemma {:induction false} RunKeepsInv<D, V>(s: State<D, V>, steps: seq<Step<D>>, t: State<D, V>, query: (D, Key) -> V)
    requires Inv(s, query) && Leads(s, steps, t, query)
    ensures Inv(t, query)
    decreases |steps|
  {
    if steps != [] {
      StepKeepsInv(s, steps[0], query);
      RunKeepsInv(Apply(s, steps[0], query), steps[1..], t, query);
    }
  }

  /**
   For every interleaving of Loads, GetOrLoads, commits and failures, in which no lock that
   protects anything is lost: each value written to the cache is the loader's answer on some
   database state, what is cached is what was written last, and successive writes to a key
   never go back to an older state.
   */
  lemma CacheWritesAreMonotone<D, V>(start: State<D, V>, steps: seq<Step<D>>, s: State<D, V>, query: (D, Key) -> V)
    requires Initial(start) && Leads(start, steps, s, query)
    ensures LogSound(s, query) && LogMonotone(s) && EntriesLast(s)
  {
    RunKeepsInv(start, steps, s, query);
  }

  /** A cached entry is not loaded again by GetOrLoad, and an entry that has expired is missing. */
  lemma LookupLoadsMissingOnly<D, V>(s: State<D, V>, i: nat, key: Key, query: (D, Key) -> V)
    requires s.history != [] && i < |s.clients| && s.clients[i] == Lookup(key)
    ensures key in s.entries ==> Apply(s, Advance(i), query) == s.(clients := s.clients[i := Idle])
    ensures key !in s.entries ==> Apply(s, Advance(i), query) == s.(clients := s.clients[i := Wait(key)])
    ensures key !in Apply(s, EntryExpires(key), query).entries
  {
  }

  /** Clients may start, fail, lose entries and locks at any time. */
  lemma AnythingMayHappen<D, V>(s: State<D, V>, i: nat, key: Key, db: D)
    requires i < |s.clients|
    ensures Enabled(s, Step.Commit(db)) && Enabled(s, Step<D>.EntryExpires(key))
    ensures Enabled(s, Step<D>.LockExpires(key)) && Enabled(s, Step<D>.FlushDb)
    ensures s.clients[i] == Idle ==> Enabled(s, Step<D>.StartLoad(i, key)) && Enabled(s, Step<D>.StartGetOrLoad(i, key))
    ensures Enabled(s, Step<D>.Fail(i)) <==> s.clients[i] != Idle && s.clients[i] != Saved(s.clients[i].key)
    ensures Enabled(s, Step<D>.ReleaseFails(i)) <==> s.clients[i] != Idle && s.clients[i] == Saved(s.clients[i].key)
  {
  }

  /** A client that fails gives up its own lock and no other; one whose release fails leaves every lock. */
  lemma FailureReleasesLock<D, V>(s: State<D, V>, i: nat, step: Step<D>, query: (D, Key) -> V)
    requires s.history != [] && Enabled(s, step) && (step == Fail(i) || step == ReleaseFails(i))
    ensures var t := Apply(s, step, query);
      && t.history == s.history && t.entries == s.entries && t.log == s.log && t.clients == s.clients[i := Idle]
      && (forall k :: k in t.locks ==> k in s.locks && t.locks[k] == s.locks[k])
      && (forall k :: k in s.locks ==>
           (k !in t.locks <==> step.Fail? && k == s.clients[i].key && s.locks[k] == i))
  {
  }

  /** Load waits for the lock at once; GetOrLoad looks the entry up first. */
  lemma StartingTouchesNothing<D, V>(s: State<D, V>, i: nat, key: Key, query: (D, Key) -> V)
    requires s.history != [] && i < |s.clients| && s.clients[i] == Idle
    ensures Apply(s, StartLoad(i, key), query) == s.(clients := s.clients[i := Wait(key)])
    ensures Apply(s, StartGetOrLoad(i, key), query) == s.(clients := s.clients[i := Lookup(key)])
  {
  }

  // ---------------------------------------------------------------- a lock lost during a Load

  lemma {:induction false} LeadsOn<D, V>(s: State<D, V>, xs: seq<Step<D>>, t: State<D, V>,
                                         ys: seq<Step<D>>, r: State<D, V>, query: (D, Key) -> V)
    requires Leads(s, xs, t, query) && Leads(t, ys, r, query)
    ensures Leads(s, xs + ys, r, query)
    decreases |xs|
  {
    if xs == [] {
      assert xs + ys == ys;
    } else {
      LeadsOn(Apply(s, xs[0], query), xs[1..], t, ys, r, query);
      assert (xs + ys)[1..] == xs[1..] + ys;
    }
  }

  lemma OneStep<D, V>(s: State<D, V>, step: Step<D>, query: (D, Key) -> V)
    requires s.history != [] && Enabled(s, step) && Harmless(s, step)
    ensures Leads(s, [step], Apply(s, step, query), query)
  {
    assert Leads(Apply(s, step, query), [step][1..], Apply(s, step, query), query);
  }

  /** Everybody but client `i` owns the lock of the key it is going to write. */
  ghost predicate LocksBut<D, V>(s: State<D, V>, i: nat) {
    forall j :: 0 <= j < |s.clients| && j != i && Critical(s.clients[j]) ==>
      s.clients[j].key in s.locks && s.locks[s.clients[j].key] == j
  }

  /**
   Client `i` is about to write under `key`, whose lock is free or client `j`'s.  The others own
   the locks they need, or nobody but `j` owns any.
   */
  ghost predicate Exposed<D, V>(s: State<D, V>, i: nat, key: Key, j: nat) {
    && s.history != [] && i < |s.clients| && j < |s.clients| && i != j
    && (LocksBut(s, i) || forall k :: k in s.locks ==> HasLock(s, j, k))
    && Critical(s.clients[i]) && s.clients[i].key == key && (key in s.locks ==> HasLock(s, j, key))
  }

  predicate HasLock<D, V>(s: State<D, V>, j: nat, k: Key)
    requires j < |s.clients| && k in s.locks
  {
    s.locks[k] == j && (Critical(s.clients[j]) || s.clients[j].Saved?) && s.clients[j].key == k
  }

  function Remaining<V>(c: Client<V>): nat {
    match c
    case Idle => 0
    case Lookup(_) => 5
    case Wait(_) => 4
    case Locked(_) => 3
    case Loaded(_, _, _) => 2
    case Saved(_) => 1
  }

  /** The clients `i` and `j` stay as they are while `s` becomes `t`. */
  ghost predicate Spared<D, V>(s: State<D, V>, t: State<D, V>, i: nat, j: nat)
    requires i < |s.clients| && j < |s.clients|
  {
    && t.history == s.history && |t.clients| == |s.clients|
    && t.clients[i] == s.clients[i] && t.clients[j] == s.clients[j]
  }

  /** A lock that keeps `j` waiting is given up, or expires once its owner has written the entry. */
  lemma {:induction false} KeyFreed<D, V>(s: State<D, V>, i: nat, j: nat, k: Key, query: (D, Key) -> V)
    returns (steps: seq<Step<D>>, t: State<D, V>)
    requires i < |s.clients| && Critical(s.clients[i]) && Exposed(s, i, s.clients[i].key, j)
    requires s.clients[j] == Wait(k) && k in s.locks
    ensures Leads(s, steps, t, query) && Spared(s, t, i, j)
    ensures Exposed(t, i, s.clients[i].key, j) && k !in t.locks
    decreases if s.locks[k] < |s.clients| then Remaining(s.clients[s.locks[k]]) else 0
  {
    var m := s.locks[k];
    if m < |s.clients| && Critical(s.clients[m]) && s.clients[m].key == k {
      var s1 := Apply(s, Advance(m), query);
      OneStep(s, Advance(m), query);
      var rest;
      rest, t := KeyFreed(s1, i, j, k, query);
      LeadsOn(s, [Advance(m)], s1, rest, t, query);
      steps := [Advance(m)] + rest;
    } else {
      OneStep(s, LockExpires(k), query);
      steps, t := [LockExpires(k)], Apply(s, LockExpires(k), query);
    }
  }

  lemma AdvanceKeepsExposed<D, V>(s: State<D, V>, i: nat, key: Key, j: nat, query: (D, Key) -> V)
    requires Exposed(s, i, key, j) && Enabled(s, Advance(j))
    ensures var t := Apply(s, Advance(j), query);
      && Exposed(t, i, key, j) && t.clients[i] == s.clients[i] && t.history == s.history
      && |t.clients| == |s.clients| && Remaining(t.clients[j]) < Remaining(s.clients[j])
  {
    var t := Apply(s, Advance(j), query);
    assert forall m :: 0 <= m < |s.clients| && m != j ==> t.clients[m] == s.clients[m];
  }

  /** Client `j` finishes what it is doing. */
  lemma {:induction false} ClientFinishes<D, V>(s: State<D, V>, i: nat, j: nat, query: (D, Key) -> V)
    returns (steps: seq<Step<D>>, t: State<D, V>)
    requires i < |s.clients| && Critical(s.clients[i]) && Exposed(s, i, s.clients[i].key, j)
    ensures Leads(s, steps, t, query) && Exposed(t, i, s.clients[i].key, j)
    ensures t.history == s.history && |t.clients| == |s.clients|
    ensures t.clients[i] == s.clients[i] && t.clients[j].Idle? && s.clients[i].key !in t.locks
    decreases Remaining(s.clients[j])
  {
    if s.clients[j].Idle? {
      return [], s;
    }
    var free, s1 := [], s;
    if s.clients[j].Wait? && s.clients[j].key in s.locks {
      free, s1 := KeyFreed(s, i, j, s.clients[j].key, query);
    }
    var s2 := Apply(s1, Advance(j), query);
    OneStep(s1, Advance(j), query);
    AdvanceKeepsExposed(s1, i, s.clients[i].key, j, query);
    var rest;
    rest, t := ClientFinishes(s2, i, j, query);
    LeadsOn(s, free, s1, [Advance(j)], s2, query);
    LeadsOn(s, free + [Advance(j)], s2, rest, t, query);
    steps := free + [Advance(j)] + rest;
  }

  /** An idle client locks a free key, and the database answers. */
  lemma ClientQueries<D, V>(s: State<D, V>, j: nat, key: Key, query: (D, Key) -> V)
    returns (steps: seq<Step<D>>, t: State<D, V>)
    requires s.history != [] && j < |s.clients| && s.clients[j].Idle? && key !in s.locks
    ensures Leads(s, steps, t, query)
    ensures var latest := |s.history| - 1;
      t == s.(locks := s.locks[key := j], clients := s.clients[j := Loaded(key, query(s.history[latest], key), latest)])
  {
    var s1 := Apply(s, StartLoad(j, key), query);
    var s2 := Apply(s1, Advance(j), query);
    assert s2 == s.(locks := s.locks[key := j], clients := s.clients[j := Locked(key)]);
    t := Apply(s2, Advance(j), query);
    OneStep(s, StartLoad(j, key), query);
    OneStep(s1, Advance(j), query);
    OneStep(s2, Advance(j), query);
    steps := [StartLoad(j, key)] + ([Advance(j)] + [Advance(j)]);
    LeadsOn(s1, [Advance(j)], s2, [Advance(j)], t, query);
    LeadsOn(s, [StartLoad(j, key)], s1, [Advance(j)] + [Advance(j)], t, query);
  }

  /** The value cached last comes from an older database state than the one written before it. */
  ghost predicate OverwrittenByOlder<D, V>(s: State<D, V>, key: Key) {
    var n := |s.log|;
    && n >= 2 && s.log[n - 1].key == s.log[n - 2].key == key && s.log[n - 1].version < s.log[n - 2].version
    && key in s.entries && s.entries[key] == s.log[n - 1].v
  }

  /** Two clients hold answers for one key; the one with the newer answer writes first. */
  lemma BothSave<D, V>(s: State<D, V>, i: nat, j: nat, query: (D, Key) -> V)
    returns (steps: seq<Step<D>>, t: State<D, V>)
    requires s.history != [] && i < |s.clients| && j < |s.clients| && i != j
    requires s.clients[i].Loaded? && s.clients[j].Loaded? && s.clients[i].key == s.clients[j].key
    requires s.clients[i].version < s.clients[j].version
    ensures Leads(s, steps, t, query)
    ensures OverwrittenByOlder(t, s.clients[i].key) && t.entries[s.clients[i].key] == s.clients[i].v
    ensures t.history == s.history
  {
    var s1 := Apply(s, Advance(j), query);
    t := Apply(s1, Advance(i), query);
    OneStep(s, Advance(j), query);
    OneStep(s1, Advance(i), query);
    LeadsOn(s, [Advance(j)], s1, [Advance(i)], t, query);
    steps := [Advance(j)] + [Advance(i)];
  }

  /** Client `i` holds an answer whose lock is gone; an idle client `j` overtakes it. */
  lemma Overtaken<D, V>(s: State<D, V>, i: nat, j: nat, db: D, query: (D, Key) -> V)
    returns (steps: seq<Step<D>>, t: State<D, V>)
    requires s.history != [] && i < |s.clients| && j < |s.clients| && i != j
    requires s.clients[i].Loaded? && s.clients[i].version < |s.history|
    requires s.clients[j].Idle? && s.clients[i].key !in s.locks
    ensures Leads(s, steps, t, query)
    ensures OverwrittenByOlder(t, s.clients[i].key) && t.entries[s.clients[i].key] == s.clients[i].v
    ensures t.history == s.history + [db]
  {
    var s1 := Apply(s, Commit(db), query);
    OneStep(s, Commit(db), query);
    var read, s2 := ClientQueries(s1, j, s.clients[i].key, query);
    var save;
    save, t := BothSave(s2, i, j, query);
    LeadsOn(s1, read, s2, save, t, query);
    LeadsOn(s, [Commit(db)], s1, read + save, t, query);
    steps := [Commit(db)] + (read + save);
  }

  /** Client `i` has its answer, if it did not have it already. */
  lemma ClientHasAnswer<D, V>(s: State<D, V>, i: nat, query: (D, Key) -> V)
    returns (steps: seq<Step<D>>, t: State<D, V>)
    requires s.history != [] && i < |s.clients| && Critical(s.clients[i])
    requires s.clients[i].Loaded? ==> s.clients[i].version < |s.history|
    ensures Leads(s, steps, t, query)
    ensures t == s.(clients := t.clients) && |t.clients| == |s.clients|
    ensures forall k :: 0 <= k < |s.clients| && k != i ==> t.clients[k] == s.clients[k]
    ensures t.clients[i].Loaded? && t.clients[i].key == s.clients[i].key && t.clients[i].version < |s.history|
  {
    if s.clients[i].Loaded? {
      return [], s;
    }
    OneStep(s, Advance(i), query);
    steps, t := [Advance(i)], Apply(s, Advance(i), query);
  }

  /** Once client `i` has lost its lock in the middle of a Load, an overwrite with an older value may follow. */
  lemma LostLockIsHarmful<D, V>(s: State<D, V>, i: nat, j: nat, query: (D, Key) -> V)
    returns (steps: seq<Step<D>>, t: State<D, V>)
    requires i < |s.clients| && Critical(s.clients[i]) && Exposed(s, i, s.clients[i].key, j)
    requires s.clients[i].Loaded? ==> s.clients[i].version < |s.history|
    ensures Leads(s, steps, t, query)
    ensures OverwrittenByOlder(t, s.clients[i].key)
  {
    var finish, s1 := ClientFinishes(s, i, j, query);
    var read, s2 := ClientHasAnswer(s1, i, query);
    var overtake;
    overtake, t := Overtaken(s2, i, j, s.history[0], query);
    LeadsOn(s, finish, s1, read, s2, query);
    LeadsOn(s, finish + read, s2, overtake, t, query);
    steps := finish + read + overtake;
  }

  /** Whatever happens after this step in `s`, writes to a key never go back to an older state. */
  ghost predicate OrderSurvives<D(!new), V(!new)>(s: State<D, V>, step: Step<D>, query: (D, Key) -> V)
    requires s.history != [] && Enabled(s, step)
  {
    forall steps, t :: Leads(Apply(s, step, query), steps, t, query) ==> LogMonotone(t)
  }

  lemma HarmlessKeepsOrder<D(!new), V(!new)>(s: State<D, V>, step: Step<D>, query: (D, Key) -> V)
    requires Inv(s, query) && Enabled(s, step) && Harmless(s, step)
    ensures OrderSurvives(s, step, query)
  {
    StepKeepsInv(s, step, query);
    forall more, t | Leads(Apply(s, step, query), more, t, query) ensures LogMonotone(t) {
      RunKeepsInv(Apply(s, step, query), more, t, query);
    }
  }

  /** A step that is not harmless is a flush or an expiry, and takes the lock of some client in the middle of a Load. */
  lemma HarmfulBreaksOrder<D(!new), V(!new)>(s: State<D, V>, step: Step<D>, query: (D, Key) -> V)
    requires Inv(s, query) && Enabled(s, step) && !Harmless(s, step)
    ensures !OrderSurvives(s, step, query)
  {
    var i :| 0 <= i < |s.clients| && Critical(s.clients[i]) && (step.FlushDb? || s.clients[i].key == step.key);
    var s1 := Apply(s, step, query);
    var j := if i == 0 then 1 else 0;
    var more, t := LostLockIsHarmful(s1, i, j, query);
    assert !LogMonotone(t);
  }

  /**
   In every reachable state and for every step: writes stay ordered afterwards exactly if the
   step is no flush that meets a client between taking its lock and writing its entry, and no
   expiry of the lock of such a client, or there is no second client.
   */
  lemma OrderSurvivesIff<D(!new), V(!new)>(start: State<D, V>, steps: seq<Step<D>>, s: State<D, V>, step: Step<D>,
                                           query: (D, Key) -> V)
    requires Initial(start) && Leads(start, steps, s, query) && Enabled(s, step)
    ensures s.history != []
    ensures OrderSurvives(s, step, query) <==> Harmless(s, step)
  {
    RunKeepsInv(start, steps, s, query);
    if Harmless(s, step) {
      HarmlessKeepsOrder(s, step, query);
    } else {
      HarmfulBreaksOrder(s, step, query);
    }
  }

  function Identity(db: int, key: Key): int { db }

  /**
   A Load in progress loses its lock, by a flush or because it has expired: a second client
   loads the newer state, and then the first overwrites it with the older one.
   */
  lemma LostLockBreaksOrder(drop: Step<int>)
    returns (start: State<int, int>, before: seq<Step<int>>, s: State<int, int>, after: seq<Step<int>>,
             t: State<int, int>)
    requires drop == FlushDb || drop == LockExpires("k")
    ensures Initial(start) && Leads(start, before, s, Identity) && s.history == [10]
    ensures Leads(Apply(s, drop, Identity), after, t, Identity)
    ensures t.history == [10, 20] && OverwrittenByOlder(t, "k") && t.entries["k"] == 10
  {
    start := State([10], map[], map[], [Idle, Idle], []);
    before, s := ClientQueries(start, 0, "k", Identity);
    after, t := Overtaken(Apply(s, drop, Identity), 0, 1, 20, Identity);
  }
}
