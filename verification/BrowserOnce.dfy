/// Durable at-most-once browser mutations: admission and retry in
/// cmd/agent/browser.go (`call`, `newBrowserManager`), the retry index and its
/// expiry in cmd/agent/browser_operations.go.
///
/// `Store` is the manager's memory plus the operations directory.  Request keys
/// and arguments stand for their hashes; the clock never goes back.  A crash
/// keeps the directory and loses everything else.

module BrowserOnce {
  import opened Wrappers

  type Key = nat
  type Hash = nat
  type Id = nat

  const TTL := 86_400_000_000_000
  const RUNNING_MAX := 128

  /** The context of an operation lasts 30 seconds from its admission. */
  const TIMEOUT := 30_000_000_000

  /** The retry index entry. */
  datatype Entry = Entry(id: Id, at: nat)

  /** What an operation record holds; `running` is its status. */
  datatype Op = Op(key: Key, hash: Hash, at: nat, running: bool)

  datatype Store = Store(healthy: bool, journal: map<Key, Entry>, cache: map<Id, Op>, disk: map<Id, Op>)

  datatype Outcome = Unhealthy | Replay(id: Id, op: Op) | Conflict | IoError | LimitReached | Busy | Admitted

  // ---------- expiry ----------

  predicate Expired(at: nat, now: nat) {
    now - at > TTL
  }

  predicate Running(st: Store, id: Id) {
    id in st.cache && st.cache[id].running
  }

  function RemoveEntry(st: Store, key: Key): Store
    requires key in st.journal
  {
    var id := st.journal[key].id;
    st.(journal := st.journal - {key}, cache := st.cache - {id}, disk := st.disk - {id})
  }

  /** Walks the index in the given order; `stuck` are the files that cannot be removed. */
  function ExpireIndex(st: Store, now: nat, order: seq<Key>, stuck: set<Id>): (Store, bool)
    decreases |order|
  {
    if |order| == 0 then (st, true)
    else if order[0] !in st.journal || !Expired(st.journal[order[0]].at, now) || Running(st, st.journal[order[0]].id) then
      ExpireIndex(st, now, order[1..], stuck)
    else if st.journal[order[0]].id in stuck then (st, false)
    else ExpireIndex(RemoveEntry(st, order[0]), now, order[1..], stuck)
  }

  function ExpireCache(st: Store, now: nat): Store {
    st.(cache := map id | id in st.cache && (st.cache[id].running || !Expired(st.cache[id].at, now)) :: st.cache[id])
  }

  function Expire(st: Store, now: nat, order: seq<Key>, stuck: set<Id>): (Store, bool) {
    var (st1, ok) := ExpireIndex(st, now, order, stuck);
    if ok then (ExpireCache(st1, now), true) else (st1, false)
  }

  // ---------- retry and admission ----------

  /** A cached operation, or its record: one still `running` there was cut off by a crash. */
  function Load(st: Store, now: nat, id: Id, unreadable: bool): Option<Op> {
    if id in st.cache then Some(st.cache[id])
    else if unreadable || id !in st.disk || Expired(st.disk[id].at, now) then None
    else Some(st.disk[id].(running := false))
  }

  /** Everything about one call that the code does not decide itself. */
  datatype Env = Env(order: seq<Key>, stuck: set<Id>, unreadable: bool, slot: bool)

  function Retry(st: Store, now: nat, key: Key, hash: Hash, unreadable: bool): Outcome
    requires key in st.journal
  {
    match Load(st, now, st.journal[key].id, unreadable)
    case None => IoError
    case Some(op) => if op.hash != hash then Conflict else Replay(st.journal[key].id, op)
  }

  function Admit(st: Store, now: nat, id: Id, key: Key, hash: Hash, slot: bool): (Store, Outcome) {
    if |set i | i in st.cache && st.cache[i].running| >= RUNNING_MAX then (st, LimitReached)
    else if !slot then (st, Busy)
    else (st.(journal := st.journal[key := Entry(id, now)], cache := st.cache[id := Op(key, hash, now, true)]), Admitted)
  }

  /** The critical section of `call` for a mutation, with `id` freshly drawn. */
  function Call(st: Store, now: nat, id: Id, key: Key, hash: Hash, env: Env): (Store, Outcome) {
    if !st.healthy then (st, Unhealthy) else
    var (st1, ok) := if key in st.journal && Expired(st.journal[key].at, now)
                     then Expire(st, now, env.order, env.stuck) else (st, true);
    if !ok then (st1, IoError)
    else if key in st1.journal then (st1, Retry(st1, now, key, hash, env.unreadable))
    else Admit(st1, now, id, key, hash, env.slot)
  }

  /** `newBrowserManager`: reads the directory in order, dropping expired records. */
  function Restore(st: Store, now: nat, order: seq<Id>, stuck: set<Id>): (Store, bool)
    decreases |order|
  {
    if |order| == 0 then (st, true)
    else
      var id, rest := order[0], order[1..];
      if id !in st.disk then Restore(st, now, rest, stuck)
      else if Expired(st.disk[id].at, now) then
        if id in stuck then (st, false) else Restore(st.(disk := st.disk - {id}), now, rest, stuck)
      else
        var op := st.disk[id];
        Restore(st.(journal := st.journal[op.key := Entry(id, op.at)], cache := st.cache[id := op.(running := false)]),
                now, rest, stuck)
  }

  // ---------- the manager object ----------

  class BrowserManager {
    var healthy: bool
    var journal: map<Key, Entry>
    var operations: map<Id, Op>
    var disk: map<Id, Op>

    ghost function Model(): Store
      reads this
    {
      Store(healthy, journal, operations, disk)
    }

    /** Opens the directory `files`; `order` is its listing. */
    method Open(files: map<Id, Op>, now: nat, order: seq<Id>, stuck: set<Id>) returns (ok: bool)
      modifies this
      ensures (Model(), ok) == Restore(Store(true, map[], map[], files), now, order, stuck)
    {
      healthy, journal, operations, disk := true, map[], map[], files;
      var i := 0;
      while i < |order|
        invariant 0 <= i <= |order|
        invariant Restore(Model(), now, order[i..], stuck) == Restore(Store(true, map[], map[], files), now, order, stuck)
      {
        var id := order[i];
        assert order[i..][1..] == order[i + 1..];
        if id in disk {
          var op := disk[id];
          if Expired(op.at, now) {
            if id in stuck {
              return false;
            }
            disk := disk - {id};
          } else {
            operations := operations[id := op.(running := false)];
            journal := journal[op.key := Entry(id, op.at)];
          }
        }
        i := i + 1;
      }
      return true;
    }

    method ExpireOperations(now: nat, order: seq<Key>, stuck: set<Id>) returns (ok: bool)
      modifies this
      ensures (Model(), ok) == Expire(old(Model()), now, order, stuck)
    {
      var i := 0;
      while i < |order|
        invariant 0 <= i <= |order|
        invariant ExpireIndex(Model(), now, order[i..], stuck) == ExpireIndex(old(Model()), now, order, stuck)
      {
        var key := order[i];
        assert order[i..][1..] == order[i + 1..];
        i := i + 1;
        if key !in journal || now - journal[key].at <= TTL {
          continue;
        }
        var entry := journal[key];
        if entry.id in operations && operations[entry.id].running {
          continue;
        }
        if entry.id in stuck {
          return false;
        }
        disk := disk - {entry.id};
        journal := journal - {key};
        operations := operations - {entry.id};
      }
      operations := map id | id in operations && (operations[id].running || !Expired(operations[id].at, now)) :: operations[id];
      return true;
    }

    method LoadOperation(now: nat, id: Id, unreadable: bool) returns (op: Option<Op>)
      ensures op == Load(Model(), now, id, unreadable)
    {
      if id in operations {
        return Some(operations[id]);
      }
      if unreadable || id !in disk {
        return None;
      }
      var found := disk[id];
      if now - found.at > TTL {
        return None;
      }
      if found.running {
        found := found.(running := false);
      }
      return Some(found);
    }

    method CallMutation(now: nat, id: Id, key: Key, hash: Hash, env: Env) returns (outcome: Outcome)
      modifies this
      ensures (Model(), outcome) == Call(old(Model()), now, id, key, hash, env)
    {
      if !healthy {
        return Unhealthy;
      }
      if key in journal && now - journal[key].at > TTL {
        var ok := ExpireOperations(now, env.order, env.stuck);
        if !ok {
          return IoError;
        }
      }
      if key in journal {
        var op := LoadOperation(now, journal[key].id, env.unreadable);
        match op
        case None => return IoError;
        case Some(found) =>
          if found.hash != hash {
            return Conflict;
          }
          return Replay(journal[key].id, found);
      }
      var running := set i | i in operations && operations[i].running;
      if |running| >= RUNNING_MAX {
        return LimitReached;
      }
      if !env.slot {
        return Busy;
      }
      journal := journal[key := Entry(id, now)];
      operations := operations[id := Op(key, hash, now, true)];
      return Admitted;
    }
  }

  // ---------- the whole agent ----------

  /** Where the goroutine of an admitted operation stands. */
  datatype Task =
    | Starting              // admitted, its reservation not yet handed to the journal writer
    | Reserving             // reservation queued at the journal writer
    | Reserved              // reservation written
    | Abandoned             // no reservation: never executes
    | Executing
    | Finishing             // final record not known to be written
    | Finished              // final record written

  datatype Execution = Execution(id: Id, op: Op, start: nat)

  /** `queue` is the journal writer's channel; `born` remembers every admission; `ran` every `execute` that found its context alive. */
  datatype World = World(now: nat, up: bool, st: Store, tasks: map<Id, Task>, queue: seq<(Id, Op)>,
                         born: map<Id, Op>, ran: seq<Execution>)

  datatype Event =
    | Tick(ns: nat)
    | CallKey(id: Id, key: Key, hash: Hash, env: Env)
    | Reserve(id: Id)
    | WriteNext(fails: bool, applied: bool)
    | GiveUp(id: Id)
    | Execute(id: Id)
    | Return(id: Id, queued: bool)
    | Settle(id: Id)
    | Evict(id: Id)
    | Clean(order: seq<Key>, stuck: set<Id>)
    | Crash
    | Restart(order: seq<Id>, stuck: set<Id>)

  const EMPTY := Store(false, map[], map[], map[])
  const START := World(0, false, EMPTY, map[], [], map[], [])

  ghost predicate In(w: World, id: Id, t: Task) {
    id in w.tasks && w.tasks[id] == t
  }

  function SetTask(w: World, id: Id, t: Task): World {
    w.(tasks := w.tasks[id := t])
  }

  ghost function DoCall(w: World, id: Id, key: Key, hash: Hash, env: Env): World {
    var (st, outcome) := Call(w.st, w.now, id, key, hash, env);
    if outcome != Admitted then w.(st := st)
    else w.(st := st, tasks := w.tasks[id := Starting], born := w.born[id := Op(key, hash, w.now, true)])
  }

  /** The journal writer handles the job at the head; a failed write may still have reached the disk. */
  ghost function DoWrite(w: World, fails: bool, applied: bool): World
    requires |w.queue| > 0
  {
    var (id, op) := w.queue[0];
    var w1 := w.(queue := w.queue[1..],
                 st := if fails && !applied then w.st else w.st.(disk := w.st.disk[id := op]));
    if op.running && In(w, id, Reserving) then SetTask(w1, id, if fails then Abandoned else Reserved)
    else if !op.running && !fails && In(w, id, Finishing) then SetTask(w1, id, Finished)
    else w1
  }

  ghost function DoReturn(w: World, id: Id, queued: bool): World
    requires id in w.born
  {
    SetTask(w.(queue := if queued then w.queue + [(id, w.born[id].(running := false))] else w.queue), id, Finishing)
  }

  ghost function DoSettle(w: World, id: Id): World
    requires id in w.st.cache
  {
    w.(st := w.st.(cache := w.st.cache[id := w.st.cache[id].(running := false)],
                   healthy := w.st.healthy && In(w, id, Finished)),
       tasks := w.tasks - {id})
  }

  ghost function DoTick(w: World, ns: nat): World {
    w.(now := w.now + ns)
  }

  ghost function DoCrash(w: World): World {
    w.(up := false, st := EMPTY.(disk := w.st.disk), tasks := map[], queue := [])
  }

  ghost function DoRestart(w: World, order: seq<Id>, stuck: set<Id>): World {
    var (st, ok) := Restore(Store(true, map[], map[], w.st.disk), w.now, order, stuck);
    if ok && (forall id | id in w.st.disk :: id in order) then w.(up := true, st := st)
    else w.(st := EMPTY.(disk := st.disk))  // degraded manager: mutations stay blocked
  }

  ghost function Started(w: World, id: Id): World
    requires id in w.born
  {
    SetTask(w.(ran := w.ran + [Execution(id, w.born[id], w.now)]), id, Executing)
  }

  ghost predicate Enabled(w: World, e: Event) {
    match e
    case Tick(_) => true
    case CallKey(id, _, _, _) => w.up && id !in w.born
    case Reserve(id) => In(w, id, Starting)
    case WriteNext(_, _) => |w.queue| > 0
    case GiveUp(id) => In(w, id, Starting) || In(w, id, Reserving) || In(w, id, Reserved)
    // later its context has ended, and only `GiveUp` is left
    case Execute(id) => In(w, id, Reserved) && id in w.born && w.now <= w.born[id].at + TIMEOUT
    case Return(id, _) => In(w, id, Executing) || In(w, id, Abandoned)
    case Settle(id) => (In(w, id, Finishing) || In(w, id, Finished)) && id in w.st.cache
    case Evict(id) => w.up && id in w.st.cache && !w.st.cache[id].running
    case Clean(_, _) => w.up
    case Crash => true
    case Restart(_, _) => !w.up
  }

  ghost function Do(w: World, e: Event): World
    requires Enabled(w, e)
    requires forall id | id in w.tasks :: id in w.born
  {
    match e
    case Tick(ns) => DoTick(w, ns)
    case CallKey(id, key, hash, env) => DoCall(w, id, key, hash, env)
    case Reserve(id) => SetTask(w.(queue := w.queue + [(id, w.born[id])]), id, Reserving)
    case WriteNext(fails, applied) => DoWrite(w, fails, applied)
    case GiveUp(id) => SetTask(w, id, Abandoned)
    case Execute(id) => Started(w, id)
    case Return(id, queued) => DoReturn(w, id, queued)
    case Settle(id) => DoSettle(w, id)
    case Evict(id) => w.(st := w.st.(cache := w.st.cache - {id}))
    case Clean(order, stuck) => w.(st := Expire(w.st, w.now, order, stuck).0)
    case Crash => DoCrash(w)
    case Restart(order, stuck) => DoRestart(w, order, stuck)
  }

  // ---------- the invariant ----------

  ghost predicate Queued(w: World, id: Id) {
    exists i :: 0 <= i < |w.queue| && w.queue[i].0 == id
  }

  /** Operations that may still execute or whose record exists or may yet be written. */
  ghost predicate Live(w: World, id: Id) {
    id in w.st.disk || id in w.tasks || Queued(w, id)
  }

  ghost predicate Ran(w: World, id: Id) {
    exists i :: 0 <= i < |w.ran| && w.ran[i].id == id
  }

  ghost predicate SameIdentity(op: Op, op': Op) {
    op.key == op'.key && op.hash == op'.hash && op.at == op'.at
  }

  ghost predicate Far(at: nat, at': nat) {
    at - at' > TTL || at' - at > TTL
  }

  /** Every copy of an operation agrees with its admission. */
  ghost predicate Faithful(w: World) {
    && (forall id | id in w.tasks :: id in w.born)
    && (forall id | id in w.born :: w.born[id].at <= w.now && w.born[id].running)
    && (forall id | id in w.st.disk :: id in w.born && SameIdentity(w.st.disk[id], w.born[id]))
    && (forall id | id in w.st.cache :: id in w.born && SameIdentity(w.st.cache[id], w.born[id]))
    && (forall i | 0 <= i < |w.queue| :: w.queue[i].0 in w.born && SameIdentity(w.queue[i].1, w.born[w.queue[i].0]))
    && (forall k | k in w.st.journal ::
          var e := w.st.journal[k]; e.id in w.born && w.born[e.id].key == k && w.born[e.id].at == e.at)
    && (forall i | 0 <= i < |w.ran| ::
          w.ran[i].id in w.born && w.ran[i].op == w.born[w.ran[i].id] && w.ran[i].start >= w.ran[i].op.at)
  }

  /** A goroutine implies a running cached operation; past the reservation it implies the record. */
  ghost predicate TasksCovered(w: World) {
    && (!w.up ==> w.tasks == map[] && w.queue == [])
    && (forall id | id in w.tasks :: Running(w.st, id))
    && (forall id | id in w.tasks && w.tasks[id] in {Reserved, Executing} :: id in w.st.disk)
    && (forall id | id in w.tasks && Ran(w, id) :: w.tasks[id] in {Executing, Finishing, Finished})
    && (forall i, j | 0 <= i < j < |w.ran| :: w.ran[i].id != w.ran[j].id)
  }

  /** While the manager is up, every live operation still within its TTL is the one its key leads to. */
  ghost predicate Indexed(w: World) {
    w.up ==> forall id | Live(w, id) && id in w.born && !Expired(w.born[id].at, w.now) ::
               w.born[id].key in w.st.journal && w.st.journal[w.born[id].key].id == id
  }

  /** Within its TTL an executed operation has a record. */
  ghost predicate Recorded(w: World) {
    forall id | Ran(w, id) && id in w.born && !Expired(w.born[id].at, w.now) :: id in w.st.disk
  }

  ghost predicate Matters(w: World, id: Id) {
    id in w.born && (Live(w, id) || Ran(w, id))
  }

  /** Operations of one key that matter were admitted more than the TTL apart. */
  ghost predicate Apart(w: World) {
    forall id, id' | Matters(w, id) && Matters(w, id') && id != id' && w.born[id].key == w.born[id'].key ::
      Far(w.born[id].at, w.born[id'].at)
  }

  ghost predicate Inv(w: World) {
    Faithful(w) && TasksCovered(w) && Indexed(w) && Recorded(w) && Apart(w)
  }

  // ---------- what the store operations may change ----------

  ghost predicate Dropped(st: Store, id: Id, now: nat) {
    !Running(st, id) && exists k :: k in st.journal && st.journal[k].id == id && Expired(st.journal[k].at, now)
  }

  /** Only expired index entries, their records and completed cached operations disappear. */
  ghost predicate Shrinks(st: Store, st': Store, now: nat) {
    && st'.healthy == st.healthy
    && (forall k | k in st'.journal :: k in st.journal && st'.journal[k] == st.journal[k])
    && (forall k | k in st.journal && k !in st'.journal :: Expired(st.journal[k].at, now))
    && (forall id | id in st'.cache :: id in st.cache && st'.cache[id] == st.cache[id])
    && (forall id | id in st.cache && id !in st'.cache :: !st.cache[id].running)
    && (forall id | id in st'.disk :: id in st.disk && st'.disk[id] == st.disk[id])
    && (forall id | id in st.disk && id !in st'.disk :: Dropped(st, id, now))
  }

  lemma ShrinksTransitive(a: Store, b: Store, c: Store, now: nat)
    requires Shrinks(a, b, now) && Shrinks(b, c, now)
    ensures Shrinks(a, c, now)
  {
    forall id | id in b.disk && id !in c.disk ensures Dropped(a, id, now) {
      assert Dropped(b, id, now);
      var k :| k in b.journal && b.journal[k].id == id && Expired(b.journal[k].at, now);
      assert k in a.journal;
    }
  }

  lemma {:induction false} ExpireIndexShrinks(st: Store, now: nat, order: seq<Key>, stuck: set<Id>)
    ensures Shrinks(st, ExpireIndex(st, now, order, stuck).0, now)
    decreases |order|
  {
    if |order| > 0 {
      var k := order[0];
      if k !in st.journal || !Expired(st.journal[k].at, now) || Running(st, st.journal[k].id) {
        ExpireIndexShrinks(st, now, order[1..], stuck);
      } else if st.journal[k].id !in stuck {
        var st1 := RemoveEntry(st, k);
        assert Shrinks(st, st1, now);
        ExpireIndexShrinks(st1, now, order[1..], stuck);
        ShrinksTransitive(st, st1, ExpireIndex(st1, now, order[1..], stuck).0, now);
      }
    }
  }

  lemma ExpireShrinks(st: Store, now: nat, order: seq<Key>, stuck: set<Id>)
    ensures Shrinks(st, Expire(st, now, order, stuck).0, now)
  {
    ExpireIndexShrinks(st, now, order, stuck);
    var st1 := ExpireIndex(st, now, order, stuck).0;
    assert Shrinks(st1, ExpireCache(st1, now), now);
    ShrinksTransitive(st, st1, ExpireCache(st1, now), now);
  }

  lemma ApartKept(w: World, w': World)
    requires Apart(w) && w'.born == w.born && forall id :: Matters(w', id) ==> Matters(w, id)
    ensures Apart(w')
  {
  }

  lemma IndexedKept(w: World, w': World)
    requires Indexed(w) && w'.born == w.born && w.now <= w'.now && (w'.up ==> w.up)
    requires forall id :: Live(w', id) ==> Live(w, id)
    requires forall k | k in w.st.journal && !Expired(w.st.journal[k].at, w'.now) ::
               k in w'.st.journal && w'.st.journal[k] == w.st.journal[k]
    requires Faithful(w)
    ensures Indexed(w')
  {
    if w'.up {
      forall id | Live(w', id) && id in w.born && !Expired(w.born[id].at, w'.now)
        ensures w.born[id].key in w'.st.journal && w'.st.journal[w.born[id].key].id == id
      {
        assert Live(w, id);
      }
    }
  }

  /** Expiry keeps the invariant: it removes nothing that still protects a key. */
  lemma ShrinkKeepsInv(w: World, st: Store)
    requires Inv(w) && Shrinks(w.st, st, w.now)
    ensures Inv(w.(st := st))
  {
    var w' := w.(st := st);
    assert forall id :: Ran(w', id) <==> Ran(w, id);
    assert forall id :: Queued(w', id) <==> Queued(w, id);
    IndexedKept(w, w');
    ApartKept(w, w');
    ShrinkKeepsRecords(w, st);
    assert forall id | id in w.tasks :: Running(st, id);
  }

  lemma ShrinkKeepsRecords(w: World, st: Store)
    requires Inv(w) && Shrinks(w.st, st, w.now)
    ensures forall id | Ran(w, id) && id in w.born && !Expired(w.born[id].at, w.now) :: id in st.disk
    ensures forall id | id in w.tasks && id in w.st.disk :: id in st.disk
  {
    forall id | id in w.st.disk && id in w.born && !Expired(w.born[id].at, w.now) ensures id in st.disk {
      if Dropped(w.st, id, w.now) {
        DroppedIsExpired(w, id);
      }
    }
    forall id | id in w.tasks && id in w.st.disk ensures id in st.disk {
      assert Running(w.st, id);
    }
  }

  lemma DroppedIsExpired(w: World, id: Id)
    requires Faithful(w) && Dropped(w.st, id, w.now)
    ensures id in w.born && Expired(w.born[id].at, w.now)
  {
    var k :| k in w.st.journal && w.st.journal[k].id == id && Expired(w.st.journal[k].at, w.now);
  }

  // ---------- every event keeps the invariant ----------

  lemma TickKeepsInv(w: World, ns: nat)
    requires Inv(w)
    ensures Inv(DoTick(w, ns))
  {
    var w' := DoTick(w, ns);
    assert forall id :: Ran(w', id) <==> Ran(w, id);
    assert forall id :: Queued(w', id) <==> Queued(w, id);
    IndexedKept(w, w');
    ApartKept(w, w');
  }

  ghost function Admitting(w: World, id: Id, op: Op): World {
    w.(st := w.st.(journal := w.st.journal[op.key := Entry(id, op.at)], cache := w.st.cache[id := op]),
       tasks := w.tasks[id := Starting], born := w.born[id := op])
  }

  /** The key was free, so whatever still matters for it is older than the TTL. */
  lemma FreeKeyIsOld(w: World, key: Key, i: Id)
    requires Indexed(w) && Recorded(w) && w.up && key !in w.st.journal
    requires Matters(w, i) && w.born[i].key == key
    ensures Expired(w.born[i].at, w.now)
  {
    if !Expired(w.born[i].at, w.now) {
      if Ran(w, i) {
        assert i in w.st.disk;
      }
      assert Live(w, i);
    }
  }

  lemma AdmittingLeavesOthers(w: World, id: Id, op: Op)
    requires Faithful(w) && id !in w.born
    ensures forall i :: Ran(Admitting(w, id, op), i) <==> Ran(w, i)
    ensures forall i :: Live(Admitting(w, id, op), i) <==> Live(w, i) || i == id
    ensures !Ran(w, id) && !Live(w, id)
  {
    var w' := Admitting(w, id, op);
    assert forall i :: Queued(w', i) <==> Queued(w, i);
  }

  lemma AdmitTasks(w: World, id: Id, op: Op)
    requires TasksCovered(w) && w.up && op.running && id !in w.tasks && !Ran(w, id)
    ensures TasksCovered(Admitting(w, id, op))
  {
    var w' := Admitting(w, id, op);
    assert forall i :: Ran(w', i) <==> Ran(w, i);
    assert forall i | i in w.tasks :: Running(w'.st, i);
  }

  lemma AdmitFaithful(w: World, id: Id, op: Op)
    requires Faithful(w) && id !in w.born && op.running && op.at == w.now
    ensures Faithful(Admitting(w, id, op))
  {
  }

  lemma AdmitIndexed(w: World, id: Id, op: Op)
    requires Faithful(w) && Indexed(w) && w.up && id !in w.born && op.key !in w.st.journal
    ensures Indexed(Admitting(w, id, op))
  {
    AdmittingLeavesOthers(w, id, op);
  }

  lemma AdmitApart(w: World, id: Id, op: Op)
    requires Faithful(w) && Indexed(w) && Recorded(w) && Apart(w)
    requires w.up && id !in w.born && op.key !in w.st.journal && op.at == w.now
    ensures Apart(Admitting(w, id, op)) && Recorded(Admitting(w, id, op))
  {
    var w' := Admitting(w, id, op);
    AdmittingLeavesOthers(w, id, op);
    forall i | Matters(w, i) && w.born[i].key == op.key ensures Expired(w.born[i].at, w.now) {
      FreeKeyIsOld(w, op.key, i);
    }
    assert forall i | i != id :: Matters(w', i) <==> Matters(w, i);
    assert Recorded(w') by {
      hide Apart, Indexed, Faithful, Matters;
    }
    hide Recorded, Indexed, Faithful, Live, Ran;
  }

  lemma AdmitKeepsInv(w: World, id: Id, op: Op)
    requires Inv(w) && w.up && id !in w.born && op.key !in w.st.journal && op.running && op.at == w.now
    ensures Inv(Admitting(w, id, op))
  {
    AdmittingLeavesOthers(w, id, op);
    AdmitFaithful(w, id, op);
    AdmitTasks(w, id, op);
    AdmitIndexed(w, id, op);
    AdmitApart(w, id, op);
  }

  lemma CallKeepsInv(w: World, id: Id, key: Key, hash: Hash, env: Env)
    requires Inv(w) && w.up && id !in w.born
    ensures Inv(DoCall(w, id, key, hash, env))
  {
    var (st, outcome) := Call(w.st, w.now, id, key, hash, env);
    var st1 := CallExpiry(w.st, w.now, id, key, hash, env);
    ShrinkKeepsInv(w, st1);
    if outcome == Admitted {
      AdmitKeepsInv(w.(st := st1), id, Op(key, hash, w.now, true));
      assert DoCall(w, id, key, hash, env) == Admitting(w.(st := st1), id, Op(key, hash, w.now, true));
    }
  }

  /** The store a call leaves behind apart from the admission itself. */
  lemma CallExpiry(st: Store, now: nat, id: Id, key: Key, hash: Hash, env: Env) returns (st1: Store)
    ensures Shrinks(st, st1, now)
    ensures var (st', outcome) := Call(st, now, id, key, hash, env);
            if outcome != Admitted then st' == st1
            else key !in st1.journal && st' == st1.(journal := st1.journal[key := Entry(id, now)],
                                                    cache := st1.cache[id := Op(key, hash, now, true)])
  {
    st1 := st;
    if st.healthy && key in st.journal && Expired(st.journal[key].at, now) {
      ExpireShrinks(st, now, env.order, env.stuck);
      st1 := Expire(st, now, env.order, env.stuck).0;
    }
  }

  lemma QueuedSnoc(w: World, id: Id, op: Op)
    ensures forall i :: Queued(w.(queue := w.queue + [(id, op)]), i) <==> Queued(w, i) || i == id
  {
    var w' := w.(queue := w.queue + [(id, op)]);
    assert w'.queue[|w.queue|] == (id, op);
    forall i | Queued(w, i) ensures Queued(w', i) {
      var n :| 0 <= n < |w.queue| && w.queue[n].0 == i;
      assert w'.queue[n].0 == i;
    }
  }

  lemma TaskMove(w: World, id: Id, t: Task)
    requires TasksCovered(w) && Faithful(w) && id in w.tasks
    requires t in {Reserved, Executing} ==> id in w.st.disk
    requires Ran(w, id) ==> t in {Executing, Finishing, Finished}
    ensures TasksCovered(SetTask(w, id, t)) && Faithful(SetTask(w, id, t))
  {
    var w' := SetTask(w, id, t);
    assert forall i :: Ran(w', i) <==> Ran(w, i);
  }

  /** A goroutine moves on without touching disk, index or history. */
  lemma TaskKeepsInv(w: World, id: Id, t: Task)
    requires Inv(w) && id in w.tasks
    requires t in {Reserved, Executing} ==> id in w.st.disk
    requires Ran(w, id) ==> t in {Executing, Finishing, Finished}
    ensures Inv(SetTask(w, id, t))
  {
    var w' := SetTask(w, id, t);
    TaskMove(w, id, t);
    assert forall i :: Ran(w', i) <==> Ran(w, i);
    assert forall i :: Queued(w', i) <==> Queued(w, i);
    IndexedKept(w, w');
    ApartKept(w, w');
  }

  lemma EnqueueFaithful(w: World, id: Id, op: Op)
    requires Faithful(w) && TasksCovered(w) && w.up && id in w.born && SameIdentity(op, w.born[id])
    ensures var w' := w.(queue := w.queue + [(id, op)]); Faithful(w') && TasksCovered(w')
  {
    var w' := w.(queue := w.queue + [(id, op)]);
    assert forall i :: Ran(w', i) <==> Ran(w, i);
  }

  lemma EnqueueKeepsInv(w: World, id: Id, op: Op)
    requires Inv(w) && w.up && id in w.tasks && SameIdentity(op, w.born[id])
    ensures Inv(w.(queue := w.queue + [(id, op)]))
  {
    var w' := w.(queue := w.queue + [(id, op)]);
    EnqueueFaithful(w, id, op);
    assert forall i :: Ran(w', i) <==> Ran(w, i);
    QueuedSnoc(w, id, op);
    IndexedKept(w, w');
    ApartKept(w, w');
  }

  lemma RanSnoc(w: World, id: Id)
    requires id in w.born
    ensures forall i :: Ran(Started(w, id), i) <==> Ran(w, i) || i == id
  {
    var w' := Started(w, id);
    assert w'.ran[|w.ran|].id == id;
    forall i | Ran(w, i) ensures Ran(w', i) {
      var n :| 0 <= n < |w.ran| && w.ran[n].id == i;
      assert w'.ran[n].id == i;
    }
  }

  lemma ExecuteTasks(w: World, id: Id)
    requires TasksCovered(w) && In(w, id, Reserved) && id in w.born
    ensures TasksCovered(Started(w, id))
  {
    RanSnoc(w, id);
    assert !Ran(w, id);
  }

  lemma ExecuteFaithful(w: World, id: Id)
    requires Faithful(w) && id in w.born && id in w.tasks
    ensures Faithful(Started(w, id))
  {
  }

  lemma ExecuteRecorded(w: World, id: Id)
    requires Recorded(w) && id in w.born && id in w.st.disk
    ensures Recorded(Started(w, id))
  {
    RanSnoc(w, id);
  }

  lemma ExecuteKeepsInv(w: World, id: Id)
    requires Inv(w) && In(w, id, Reserved)
    ensures Inv(Started(w, id))
  {
    var w' := Started(w, id);
    RanSnoc(w, id);
    assert forall i :: Queued(w', i) <==> Queued(w, i);
    ExecuteTasks(w, id);
    ExecuteFaithful(w, id);
    ExecuteRecorded(w, id);
    IndexedKept(w, w');
    ApartKept(w, w');
  }

  lemma DiskWriteKeepsInv(w: World, id: Id, op: Op)
    requires Inv(w) && id in w.born && SameIdentity(op, w.born[id]) && Live(w, id)
    ensures Inv(w.(st := w.st.(disk := w.st.disk[id := op])))
  {
    var w' := w.(st := w.st.(disk := w.st.disk[id := op]));
    assert forall i :: Ran(w', i) <==> Ran(w, i);
    assert forall i :: Queued(w', i) <==> Queued(w, i);
    IndexedKept(w, w');
    ApartKept(w, w');
    DiskWriteFaithful(w, id, op);
  }

  lemma DiskWriteFaithful(w: World, id: Id, op: Op)
    requires Faithful(w) && TasksCovered(w) && id in w.born && SameIdentity(op, w.born[id])
    ensures var w' := w.(st := w.st.(disk := w.st.disk[id := op])); Faithful(w') && TasksCovered(w')
  {
    var w' := w.(st := w.st.(disk := w.st.disk[id := op]));
    assert forall i :: Ran(w', i) <==> Ran(w, i);
  }

  lemma DequeueKeepsInv(w: World)
    requires Inv(w) && |w.queue| > 0
    ensures Inv(w.(queue := w.queue[1..]))
  {
    var w' := w.(queue := w.queue[1..]);
    assert forall i :: Ran(w', i) <==> Ran(w, i);
    FewerQueued(w);
    assert Faithful(w') && TasksCovered(w') && Recorded(w') by {
      hide Indexed, Apart, Queued;
    }
    hide Faithful, TasksCovered, Recorded, Queued, Ran;
    IndexedKept(w, w');
    ApartKept(w, w');
  }

  lemma FewerQueued(w: World)
    requires |w.queue| > 0
    ensures forall i | Queued(w.(queue := w.queue[1..]), i) :: Queued(w, i)
  {
    forall i | Queued(w.(queue := w.queue[1..]), i) ensures Queued(w, i) {
      var n :| 0 <= n < |w.queue[1..]| && w.queue[1..][n].0 == i;
      assert w.queue[n + 1].0 == i;
    }
  }

  lemma WriteKeepsInv(w: World, fails: bool, applied: bool)
    requires Inv(w) && |w.queue| > 0
    ensures Inv(DoWrite(w, fails, applied))
  {
    var (id, op) := w.queue[0];
    assert Queued(w, id);
    var w1 := w;
    if !fails || applied {
      DiskWriteKeepsInv(w, id, op);
      w1 := w.(st := w.st.(disk := w.st.disk[id := op]));
    }
    DequeueKeepsInv(w1);
    var w2 := w1.(queue := w1.queue[1..]);
    if op.running && In(w, id, Reserving) {
      assert Ran(w2, id) <==> Ran(w, id);
      TaskKeepsInv(w2, id, if fails then Abandoned else Reserved);
    } else if !op.running && !fails && In(w, id, Finishing) {
      TaskKeepsInv(w2, id, Finished);
    }
  }

  lemma SettleTasks(w: World, id: Id)
    requires TasksCovered(w) && Faithful(w) && Enabled(w, Settle(id))
    ensures TasksCovered(DoSettle(w, id)) && Faithful(DoSettle(w, id))
  {
    var w' := DoSettle(w, id);
    assert forall i :: Ran(w', i) <==> Ran(w, i);
    assert forall i | i in w'.tasks :: Running(w.st, i);
  }

  lemma SettleKeepsInv(w: World, id: Id)
    requires Inv(w) && Enabled(w, Settle(id))
    ensures Inv(DoSettle(w, id))
  {
    var w' := DoSettle(w, id);
    assert forall i :: Ran(w', i) <==> Ran(w, i);
    assert forall i :: Queued(w', i) <==> Queued(w, i);
    SettleTasks(w, id);
    IndexedKept(w, w');
    ApartKept(w, w');
  }

  lemma ReserveKeepsInv(w: World, id: Id)
    requires Inv(w) && In(w, id, Starting)
    ensures Inv(SetTask(w.(queue := w.queue + [(id, w.born[id])]), id, Reserving))
  {
    EnqueueKeepsInv(w, id, w.born[id]);
    var w1 := w.(queue := w.queue + [(id, w.born[id])]);
    assert Ran(w1, id) <==> Ran(w, id);
    TaskKeepsInv(w1, id, Reserving);
  }

  lemma ReturnKeepsInv(w: World, id: Id, queued: bool)
    requires Inv(w) && Enabled(w, Return(id, queued))
    ensures Inv(DoReturn(w, id, queued))
  {
    if queued {
      EnqueueKeepsInv(w, id, w.born[id].(running := false));
      TaskKeepsInv(w.(queue := w.queue + [(id, w.born[id].(running := false))]), id, Finishing);
    } else {
      TaskKeepsInv(w, id, Finishing);
    }
  }

  lemma EvictKeepsInv(w: World, id: Id)
    requires Inv(w) && Enabled(w, Evict(id))
    ensures Inv(w.(st := w.st.(cache := w.st.cache - {id})))
  {
    ShrinkKeepsInv(w, w.st.(cache := w.st.cache - {id}));
  }

  lemma CrashKeepsInv(w: World)
    requires Inv(w)
    ensures Inv(DoCrash(w))
  {
    var w' := DoCrash(w);
    assert forall i :: Ran(w', i) <==> Ran(w, i);
    assert forall i :: !Queued(w', i);
    ApartKept(w, w');
  }

  // ---------- restart ----------

  ghost predicate Distinct(st: Store, now: nat) {
    forall i, j | i in st.disk && j in st.disk && i != j && !Expired(st.disk[i].at, now) && !Expired(st.disk[j].at, now) ::
      st.disk[i].key != st.disk[j].key
  }

  /** The index leads from the keys of unexpired records to those records. */
  ghost predicate Consistent(st: Store, now: nat) {
    && (forall k | k in st.journal ::
          var e := st.journal[k]; e.id in st.disk && st.disk[e.id].key == k && st.disk[e.id].at == e.at)
    && (forall i | i in st.disk && !Expired(st.disk[i].at, now) && st.disk[i].key in st.journal ::
          st.journal[st.disk[i].key].id == i)
    && (forall i | i in st.cache :: i in st.disk && SameIdentity(st.cache[i], st.disk[i]))
    && (forall k | k in st.journal :: !Expired(st.journal[k].at, now))
    && (forall i | i in st.cache :: !Expired(st.cache[i].at, now))
  }

  lemma {:induction false} RestoreIndexes(st: Store, now: nat, order: seq<Id>, stuck: set<Id>)
    requires Distinct(st, now) && Consistent(st, now)
    ensures var (st', ok) := Restore(st, now, order, stuck);
            && Consistent(st', now)
            && (forall i | i in st'.disk :: i in st.disk && st'.disk[i] == st.disk[i])
            && (forall i | i in st.disk && i !in st'.disk :: Expired(st.disk[i].at, now))
            && (forall k | k in st.journal :: k in st'.journal)
            && (ok ==> forall i | i in order && i in st'.disk :: st'.disk[i].key in st'.journal)
    decreases |order|
  {
    hide Distinct, Consistent;
    if |order| > 0 {
      var id := order[0];
      assert order == [id] + order[1..];
      if id !in st.disk {
        RestoreIndexes(st, now, order[1..], stuck);
      } else if Expired(st.disk[id].at, now) {
        if id !in stuck {
          DropRecord(st, now, id);
          RestoreIndexes(st.(disk := st.disk - {id}), now, order[1..], stuck);
        }
      } else {
        AcceptRecord(st, now, id);
        RestoreIndexes(Accepted(st, id), now, order[1..], stuck);
      }
    }
  }

  ghost function Accepted(st: Store, id: Id): Store
    requires id in st.disk
  {
    var op := st.disk[id];
    st.(journal := st.journal[op.key := Entry(id, op.at)], cache := st.cache[id := op.(running := false)])
  }

  lemma AcceptRecord(st: Store, now: nat, id: Id)
    requires Distinct(st, now) && Consistent(st, now) && id in st.disk && !Expired(st.disk[id].at, now)
    ensures Consistent(Accepted(st, id), now) && Distinct(Accepted(st, id), now)
  {
  }

  lemma DropRecord(st: Store, now: nat, id: Id)
    requires Distinct(st, now) && Consistent(st, now) && id in st.disk && Expired(st.disk[id].at, now)
    ensures Consistent(st.(disk := st.disk - {id}), now) && Distinct(st.(disk := st.disk - {id}), now)
  {
  }

  lemma DiskIsDistinct(w: World)
    requires Inv(w)
    ensures Distinct(w.st, w.now)
  {
    forall i, j | i in w.st.disk && j in w.st.disk && i != j
                  && !Expired(w.st.disk[i].at, w.now) && !Expired(w.st.disk[j].at, w.now)
      ensures w.st.disk[i].key != w.st.disk[j].key
    {
      assert Matters(w, i) && Matters(w, j);
    }
  }

  lemma RestartKeepsInv(w: World, order: seq<Id>, stuck: set<Id>)
    requires Inv(w) && !w.up
    ensures Inv(DoRestart(w, order, stuck))
  {
    var w' := DoRestart(w, order, stuck);
    DiskIsDistinct(w);
    RestoreIndexes(Store(true, map[], map[], w.st.disk), w.now, order, stuck);
    RestartFaithful(w, order, stuck);
    assert forall i :: Ran(w', i) <==> Ran(w, i);
    assert forall i :: !Queued(w', i);
    ApartKept(w, w');
  }

  lemma RestartFaithful(w: World, order: seq<Id>, stuck: set<Id>)
    requires Faithful(w) && TasksCovered(w) && Distinct(w.st, w.now) && !w.up
    ensures Faithful(DoRestart(w, order, stuck)) && TasksCovered(DoRestart(w, order, stuck))
  {
    var w' := DoRestart(w, order, stuck);
    var st := Restore(Store(true, map[], map[], w.st.disk), w.now, order, stuck).0;
    RestoreIndexes(Store(true, map[], map[], w.st.disk), w.now, order, stuck);
    ConsistentIsFaithful(w, st);
    assert forall i :: Ran(w', i) <==> Ran(w, i);
  }

  lemma ConsistentIsFaithful(w: World, st: Store)
    requires Faithful(w) && Consistent(st, w.now)
    requires forall i | i in st.disk :: i in w.st.disk && st.disk[i] == w.st.disk[i]
    ensures Faithful(w.(st := st)) && Faithful(w.(st := EMPTY.(disk := st.disk)))
  {
  }

  // ---------- whole runs ----------

  ghost function Next(w: World, e: Event): World {
    if Enabled(w, e) && (forall id | id in w.tasks :: id in w.born) then Do(w, e) else w
  }

  lemma AdmissionStep(w: World, e: Event)
    requires Inv(w) && Enabled(w, e) && (e.CallKey? || e.Reserve? || e.GiveUp?)
    ensures Inv(Do(w, e))
  {
    match e
    case CallKey(id, key, hash, env) => CallKeepsInv(w, id, key, hash, env);
    case Reserve(id) => ReserveKeepsInv(w, id);
    case GiveUp(id) => TaskKeepsInv(w, id, Abandoned);
  }

  lemma ExecutionStep(w: World, e: Event)
    requires Inv(w) && Enabled(w, e) && (e.Execute? || e.Return? || e.Settle?)
    ensures Inv(Do(w, e))
  {
    match e
    case Execute(id) => ExecuteKeepsInv(w, id);
    case Return(id, queued) => ReturnKeepsInv(w, id, queued);
    case Settle(id) => SettleKeepsInv(w, id);
  }

  lemma StorageStep(w: World, e: Event)
    requires Inv(w) && Enabled(w, e) && (e.WriteNext? || e.Evict? || e.Clean?)
    ensures Inv(Do(w, e))
  {
    match e
    case WriteNext(fails, applied) => WriteKeepsInv(w, fails, applied);
    case Evict(id) => EvictKeepsInv(w, id);
    case Clean(order, stuck) =>
      ExpireShrinks(w.st, w.now, order, stuck);
      ShrinkKeepsInv(w, Expire(w.st, w.now, order, stuck).0);
  }

  lemma RestartStep(w: World, order: seq<Id>, stuck: set<Id>)
    requires Inv(w) && !w.up
    ensures Inv(Do(w, Restart(order, stuck)))
  {
    RestartKeepsInv(w, order, stuck);
    assert Do(w, Restart(order, stuck)) == DoRestart(w, order, stuck);
  }

  lemma CrashStep(w: World)
    requires Inv(w)
    ensures Inv(Do(w, Crash))
  {
    CrashKeepsInv(w);
    assert Do(w, Crash) == DoCrash(w);
  }

  lemma TickStep(w: World, ns: nat)
    requires Inv(w)
    ensures Inv(Do(w, Tick(ns)))
  {
    TickKeepsInv(w, ns);
    assert Do(w, Tick(ns)) == DoTick(w, ns);
  }

  lemma NextKeepsInv(w: World, e: Event)
    requires Inv(w)
    ensures Inv(Next(w, e))
  {
    hide Do, Expire, Restore;
    if Enabled(w, e) {
      if e.CallKey? || e.Reserve? || e.GiveUp? {
        AdmissionStep(w, e);
      } else if e.Execute? || e.Return? || e.Settle? {
        ExecutionStep(w, e);
      } else if e.WriteNext? || e.Evict? || e.Clean? {
        StorageStep(w, e);
      } else {
        match e
        case Tick(ns) => TickStep(w, ns);
        case Crash => CrashStep(w);
        case Restart(order, stuck) => RestartStep(w, order, stuck);
      }
    }
  }

  ghost function Run(events: seq<Event>): World {
    if |events| == 0 then START else Next(Run(events[..|events| - 1]), events[|events| - 1])
  }

  lemma {:induction false} RunKeepsInv(events: seq<Event>)
    ensures Inv(Run(events))
    decreases |events|
  {
    if |events| > 0 {
      RunKeepsInv(events[..|events| - 1]);
      NextKeepsInv(Run(events[..|events| - 1]), events[|events| - 1]);
    }
  }

  /**
   * At most once: two executions under one request key, whatever their arguments, belong to
   * admissions more than the TTL apart; so the later one starts more than the TTL after the
   * admission of the earlier one.
   */
  lemma AtMostOncePerTtl(events: seq<Event>, i: nat, j: nat)
    requires i < |Run(events).ran| && j < |Run(events).ran| && i != j
    requires Run(events).ran[i].op.key == Run(events).ran[j].op.key
    ensures var e, f := Run(events).ran[i], Run(events).ran[j];
            && Far(e.op.at, f.op.at)
            && (e.op.at <= f.op.at ==> f.start - e.op.at > TTL && f.start - e.start > TTL - (e.start - e.op.at))
  {
    RunKeepsInv(events);
    var w := Run(events);
    var e, f := w.ran[i], w.ran[j];
    assert Ran(w, e.id) && Ran(w, f.id);
    assert Matters(w, e.id) && Matters(w, f.id);
    assert e.id != f.id;
  }

  /**
   * Within the TTL of an executed mutation its key is spent: a retry gets that operation,
   * other arguments get a conflict, and storage trouble gets an error, never an admission.
   */
  lemma SpentKeyNeverExecutes(events: seq<Event>, i: nat, id: Id, hash: Hash, env: Env)
    requires var w := Run(events); w.up && i < |w.ran| && !Expired(w.ran[i].op.at, w.now)
    ensures var w := Run(events);
            var e := w.ran[i];
            var outcome := Call(w.st, w.now, id, e.op.key, hash, env).1;
            || outcome.Unhealthy?
            || outcome.IoError?
            || (if hash == e.op.hash then outcome.Replay? && outcome.id == e.id else outcome.Conflict?)
  {
    RunKeepsInv(events);
    var w := Run(events);
    assert Ran(w, w.ran[i].id);
    assert Live(w, w.ran[i].id);
  }

  // ---------- what runs ----------

  /** No operation is left running without its goroutine, nor is one restored as running. */
  ghost predicate NoStray(w: World) {
    forall id | Running(w.st, id) :: id in w.tasks
  }

  lemma {:induction false} RestoreLeavesNoneRunning(st: Store, now: nat, order: seq<Id>, stuck: set<Id>)
    requires forall id :: !Running(st, id)
    ensures forall id :: !Running(Restore(st, now, order, stuck).0, id)
    decreases |order|
  {
    if |order| > 0 {
      var id, rest := order[0], order[1..];
      if id !in st.disk {
        RestoreLeavesNoneRunning(st, now, rest, stuck);
      } else if Expired(st.disk[id].at, now) {
        if id !in stuck {
          var st1 := st.(disk := st.disk - {id});
          assert forall i | Running(st1, i) :: Running(st, i);
          RestoreLeavesNoneRunning(st1, now, rest, stuck);
        }
      } else {
        assert forall i | Running(Accepted(st, id), i) :: Running(st, i);
        RestoreLeavesNoneRunning(Accepted(st, id), now, rest, stuck);
      }
    }
  }

  lemma CallLeavesNoStray(w: World, id: Id, key: Key, hash: Hash, env: Env)
    requires NoStray(w) && id !in w.tasks
    ensures NoStray(DoCall(w, id, key, hash, env))
  {
    ExpireShrinks(w.st, w.now, env.order, env.stuck);
    hide Expire;
    var st1 := if key in w.st.journal && Expired(w.st.journal[key].at, w.now)
               then Expire(w.st, w.now, env.order, env.stuck).0 else w.st;
    CallCases(w, id, key, hash, env, st1);
    assert forall i | Running(st1, i) :: Running(w.st, i);
    hide DoCall;
  }

  lemma StepLeavesNoStray(w: World, e: Event)
    requires Inv(w) && NoStray(w) && Enabled(w, e)
    ensures NoStray(Do(w, e))
  {
    match e
    case CallKey(id, key, hash, env) =>
      assert id !in w.tasks;
      hide DoCall, NoStray;
      CallLeavesNoStray(w, id, key, hash, env);
    case Clean(order, stuck) =>
      ExpiryLeavesNoStray(w, order, stuck);
    case Restart(order, stuck) =>
      hide Restore;
      RestoreLeavesNoneRunning(Store(true, map[], map[], w.st.disk), w.now, order, stuck);
    case Settle(id) =>
      SettleLeavesNoStray(w, id);
    case _ =>
      OthersRunOn(w, e);
  }

  lemma ExpiryLeavesNoStray(w: World, order: seq<Key>, stuck: set<Id>)
    requires NoStray(w)
    ensures NoStray(w.(st := Expire(w.st, w.now, order, stuck).0))
  {
    ExpireShrinks(w.st, w.now, order, stuck);
    hide Expire;
    assert forall i | Running(Expire(w.st, w.now, order, stuck).0, i) :: Running(w.st, i);
  }

  lemma SettleLeavesNoStray(w: World, id: Id)
    requires NoStray(w) && id in w.st.cache
    ensures NoStray(DoSettle(w, id))
  {
    assert forall i | Running(DoSettle(w, id).st, i) :: Running(w.st, i) && i != id;
  }

  lemma OthersRunOn(w: World, e: Event)
    requires NoStray(w) && Enabled(w, e) && !e.CallKey? && !e.Clean? && !e.Restart? && !e.Settle? && forall id | id in w.tasks :: id in w.born
    ensures NoStray(Do(w, e))
  {
    hide DoCall, Expire, Restore, DoRestart;
    var w' := Do(w, e);
    assert e.Crash? || w.tasks.Keys <= w'.tasks.Keys;
    assert forall i | Running(w'.st, i) :: Running(w.st, i);
  }

  /** Over all runs an operation is running in the cache exactly while it has its goroutine. */
  lemma {:induction false} RunningIffTask(events: seq<Event>)
    ensures forall id :: Running(Run(events).st, id) <==> id in Run(events).tasks
    decreases |events|
  {
    RunKeepsInv(events);
    if |events| > 0 {
      var init, e := events[..|events| - 1], events[|events| - 1];
      RunningIffTask(init);
      RunKeepsInv(init);
      if Enabled(Run(init), e) {
        StepLeavesNoStray(Run(init), e);
      }
    }
    hide Next, Enabled;
  }

  lemma RunningAreTasks(w: World, st: Store)
    requires forall i :: Running(st, i) <==> i in w.tasks
    ensures (set i | i in st.cache && st.cache[i].running) == w.tasks.Keys
    ensures |set i | i in st.cache && st.cache[i].running| == |w.tasks|
  {
    var running := set i | i in st.cache && st.cache[i].running;
    forall i ensures i in running <==> i in w.tasks.Keys {
      assert i in running <==> Running(st, i);
    }
    assert running == w.tasks.Keys;
  }

  // ---------- expiry and restart in full ----------

  /** An entry that expiry removes when it can: too old, and its operation not running. */
  predicate Goes(st: Store, k: Key, now: nat) {
    k in st.journal && Expired(st.journal[k].at, now) && !Running(st, st.journal[k].id)
  }

  ghost predicate OwnIds(st: Store) {
    forall k, l | k in st.journal && l in st.journal && k != l :: st.journal[k].id != st.journal[l].id
  }

  /** The operations whose entries expiry removes. */
  ghost predicate Leaves(st: Store, now: nat, order: seq<Key>, i: Id) {
    exists k :: k in order && Goes(st, k, now) && st.journal[k].id == i
  }

  /** Removing one entry leaves the others what they are to expiry. */
  lemma RemovedEntryGoes(st: Store, k: Key, now: nat)
    requires OwnIds(st) && Goes(st, k, now)
    ensures OwnIds(RemoveEntry(st, k))
    ensures forall l :: Goes(RemoveEntry(st, k), l, now) <==> Goes(st, l, now) && l != k
  {
  }

  lemma {:induction false} ExpireIndexExactly(st: Store, now: nat, order: seq<Key>, stuck: set<Id>)
    requires OwnIds(st)
    ensures var (st', ok) := ExpireIndex(st, now, order, stuck);
            && (ok <==> forall k | k in order && Goes(st, k, now) :: st.journal[k].id !in stuck)
            && (ok ==> forall k :: k in st'.journal <==> k in st.journal && !(k in order && Goes(st, k, now)))
            && (ok ==> forall i :: i in st'.cache <==> i in st.cache && !Leaves(st, now, order, i))
            && (ok ==> forall i :: i in st'.disk <==> i in st.disk && !Leaves(st, now, order, i))
    decreases |order|
  {
    if |order| > 0 {
      var k, rest := order[0], order[1..];
      assert forall l :: l in order <==> l == k || l in rest;
      if !Goes(st, k, now) {
        ExpireIndexExactly(st, now, rest, stuck);
        assert forall i :: Leaves(st, now, order, i) <==> Leaves(st, now, rest, i);
      } else if st.journal[k].id !in stuck {
        var st1 := RemoveEntry(st, k);
        RemovedEntryGoes(st, k, now);
        assert forall l | l in st1.journal :: st1.journal[l] == st.journal[l];
        hide Goes, OwnIds;
        ExpireIndexExactly(st1, now, rest, stuck);
        assert forall i :: Leaves(st, now, order, i) <==> i == st.journal[k].id || Leaves(st1, now, rest, i);
      }
    }
  }

  /**
   * Expiry fails exactly on a file it cannot remove.  Otherwise exactly the old entries of operations that do
   * not run go, with the records and cached operations that are theirs, and of the cache the old ended operations.
   */
  lemma ExpireExactly(st: Store, now: nat, order: seq<Key>, stuck: set<Id>)
    requires OwnIds(st)
    ensures var (st', ok) := Expire(st, now, order, stuck);
            && (ok <==> forall k | k in order && Goes(st, k, now) :: st.journal[k].id !in stuck)
            && (ok ==> forall k :: k in st'.journal <==> k in st.journal && !(k in order && Goes(st, k, now)))
            && (ok ==> forall i :: i in st'.disk <==> i in st.disk && !Leaves(st, now, order, i))
            && (ok ==> forall i :: i in st'.cache <==>
                  i in st.cache && !Leaves(st, now, order, i) && (st.cache[i].running || now - st.cache[i].at <= TTL))
  {
    ExpireIndexExactly(st, now, order, stuck);
    ExpireIndexShrinks(st, now, order, stuck);
    hide Leaves, Goes, ExpireIndex;
  }

  /** A restart fails exactly on an old record it cannot remove; else it drops the old records and caches the others as ended. */
  lemma {:induction false} RestoreExactly(st: Store, now: nat, order: seq<Id>, stuck: set<Id>)
    ensures var (st', ok) := Restore(st, now, order, stuck);
            && (ok <==> forall i | i in order && i in st.disk && Expired(st.disk[i].at, now) :: i !in stuck)
            && (ok ==> forall i :: i in st'.disk <==> i in st.disk && !(i in order && Expired(st.disk[i].at, now)))
            && (ok ==> forall i :: i in st'.cache <==> i in st.cache || (i in order && i in st.disk && !Expired(st.disk[i].at, now)))
            && (ok ==> forall i | i in st'.cache ::
                  if i in order && i in st.disk && !Expired(st.disk[i].at, now)
                  then SameIdentity(st'.cache[i], st.disk[i]) && !st'.cache[i].running
                  else st'.cache[i] == st.cache[i])
    decreases |order|
  {
    if |order| > 0 {
      var id, rest := order[0], order[1..];
      assert forall i :: i in order <==> i == id || i in rest;
      if id !in st.disk {
        RestoreExactly(st, now, rest, stuck);
      } else if Expired(st.disk[id].at, now) {
        if id !in stuck {
          RestoreExactly(st.(disk := st.disk - {id}), now, rest, stuck);
        }
      } else {
        RestoreExactly(Accepted(st, id), now, rest, stuck);
      }
    }
  }

  // ---------- every answer to a keyed call ----------

  /** The key still protects an operation: a young one, or one that runs. */
  ghost predicate Held(w: World, key: Key) {
    key in w.st.journal && (!Expired(w.st.journal[key].at, w.now) || w.st.journal[key].id in w.tasks)
  }

  /** An expiry the call has to make meets a file it cannot remove. */
  ghost predicate ExpiryFails(w: World, key: Key, stuck: set<Id>) {
    && key in w.st.journal && Expired(w.st.journal[key].at, w.now)
    && exists k :: k in w.st.journal && Expired(w.st.journal[k].at, w.now) && w.st.journal[k].id !in w.tasks && w.st.journal[k].id in stuck
  }

  /** What the holder of a key answers: its operation as it stands, a conflict, or that it cannot be read. */
  ghost predicate AnswersFor(w: World, key: Key, hash: Hash, unreadable: bool, outcome: Outcome) {
    && Held(w, key) && w.st.journal[key].id in w.born
    && var holder := w.st.journal[key].id;
       && w.born[holder].key == key
       && if holder !in w.st.cache && (unreadable || holder !in w.st.disk) then outcome == IoError
          else if w.born[holder].hash != hash then outcome == Conflict
          else && outcome.Replay? && outcome.id == holder && SameIdentity(outcome.op, w.born[holder])
               && (outcome.op.running <==> holder in w.tasks)
  }

  /**
   * Over all runs, in terms of what was admitted and what runs: a healthy manager answers a keyed call from
   * the operation its key protects, running exactly while it has its goroutine, and otherwise
   * admits it exactly when fewer than 128 operations run and the journal has a slot.
   */
  lemma CallAnswers(events: seq<Event>, id: Id, key: Key, hash: Hash, env: Env)
    requires Run(events).up && forall k | k in Run(events).st.journal :: k in env.order
    ensures var w := Run(events);
            var outcome := Call(w.st, w.now, id, key, hash, env).1;
            if !w.st.healthy then outcome == Unhealthy
            else if ExpiryFails(w, key, env.stuck) then outcome == IoError
            else if Held(w, key) then AnswersFor(w, key, hash, env.unreadable, outcome)
            else if |w.tasks| >= 128 then outcome == LimitReached
            else outcome == if env.slot then Admitted else Busy
  {
    RunKeepsInv(events);
    RunningIffTask(events);
    var w := Run(events);
    hide Run;
    if w.st.healthy {
      if key in w.st.journal && Expired(w.st.journal[key].at, w.now) {
        ExpiredKeyAnswers(w, id, key, hash, env);
      } else {
        YoungKeyAnswers(w, id, key, hash, env);
      }
    }
  }

  lemma YoungKeyAnswers(w: World, id: Id, key: Key, hash: Hash, env: Env)
    requires Inv(w) && w.st.healthy && forall i :: Running(w.st, i) <==> i in w.tasks
    requires key in w.st.journal ==> !Expired(w.st.journal[key].at, w.now)
    ensures var outcome := Call(w.st, w.now, id, key, hash, env).1;
            if key in w.st.journal then AnswersFor(w, key, hash, env.unreadable, outcome)
            else if |w.tasks| >= 128 then outcome == LimitReached
            else outcome == if env.slot then Admitted else Busy
  {
    hide TasksCovered, Indexed, Recorded, Apart;
    RunningAreTasks(w, w.st);
    assert key in w.st.journal && w.st.journal[key].id !in w.st.cache ==> !Running(w.st, w.st.journal[key].id);
  }

  lemma ExpiredKeyAnswers(w: World, id: Id, key: Key, hash: Hash, env: Env)
    requires Inv(w) && w.st.healthy && forall i :: Running(w.st, i) <==> i in w.tasks
    requires key in w.st.journal && Expired(w.st.journal[key].at, w.now) && forall k | k in w.st.journal :: k in env.order
    ensures var outcome := Call(w.st, w.now, id, key, hash, env).1;
            if ExpiryFails(w, key, env.stuck) then outcome == IoError
            else if Held(w, key) then AnswersFor(w, key, hash, env.unreadable, outcome)
            else if |w.tasks| >= 128 then outcome == LimitReached
            else outcome == if env.slot then Admitted else Busy
  {
    hide Expire, Inv;
    var (st1, ok) := Expire(w.st, w.now, env.order, env.stuck);
    KeyAfterExpiry(w, key, env);
    RunningAreTasks(w, st1);
    if ok && Held(w, key) {
      RunningHolderAnswers(w, st1, key, hash, env.unreadable);
    }
  }

  /** What the call's own expiry does to its key. */
  lemma KeyAfterExpiry(w: World, key: Key, env: Env)
    requires Inv(w) && forall i :: Running(w.st, i) <==> i in w.tasks
    requires key in w.st.journal && Expired(w.st.journal[key].at, w.now) && forall k | k in w.st.journal :: k in env.order
    ensures var (st1, ok) := Expire(w.st, w.now, env.order, env.stuck);
            && (ok <==> !ExpiryFails(w, key, env.stuck))
            && (ok ==> (key in st1.journal <==> Held(w, key)))
            && (key in st1.journal ==> st1.journal[key] == w.st.journal[key])
            && (forall i :: Running(st1, i) <==> i in w.tasks)
            && (forall i | i in st1.cache :: i in w.st.cache && st1.cache[i] == w.st.cache[i])
  {
    hide Indexed, Recorded, Apart, TasksCovered;
    assert OwnIds(w.st);
    ExpireExactly(w.st, w.now, env.order, env.stuck);
    ExpireShrinks(w.st, w.now, env.order, env.stuck);
    hide Expire;
    assert forall k | k in w.st.journal :: Goes(w.st, k, w.now) <==> Expired(w.st.journal[k].at, w.now) && w.st.journal[k].id !in w.tasks;
    hide Faithful, Leaves;
  }

  lemma RunningHolderAnswers(w: World, st1: Store, key: Key, hash: Hash, unreadable: bool)
    requires Inv(w) && Held(w, key) && Expired(w.st.journal[key].at, w.now)
    requires forall i :: Running(w.st, i) <==> i in w.tasks
    requires key in st1.journal && st1.journal[key] == w.st.journal[key]
    requires forall i :: Running(st1, i) <==> i in w.tasks
    requires forall i | i in st1.cache :: i in w.st.cache && st1.cache[i] == w.st.cache[i]
    ensures AnswersFor(w, key, hash, unreadable, Retry(st1, w.now, key, hash, unreadable))
  {
    hide Indexed, Recorded, Apart, TasksCovered;
    assert Running(st1, w.st.journal[key].id);
  }

  /** Never more than 128 operations run. */
  lemma {:induction false} AtMost128Run(events: seq<Event>)
    ensures |Run(events).tasks| <= 128
    decreases |events|
  {
    if |events| > 0 {
      var init, e := events[..|events| - 1], events[|events| - 1];
      AtMost128Run(init);
      RunKeepsInv(init);
      RunningIffTask(init);
      if Enabled(Run(init), e) {
        StepRunsAtMost128(Run(init), e);
      }
    }
  }

  lemma StepRunsAtMost128(w: World, e: Event)
    requires Inv(w) && Enabled(w, e) && |w.tasks| <= 128 && forall i :: Running(w.st, i) <==> i in w.tasks
    ensures |Do(w, e).tasks| <= 128
  {
    var w' := Do(w, e);
    assert |w'.tasks| == |w'.tasks.Keys| && |w.tasks| == |w.tasks.Keys|;
    if e.CallKey? {
      CallRunsAtMost128(w, e.id, e.key, e.hash, e.env);
    } else if e.Clean? || e.Crash? || e.Restart? {
      NothingStarts(w, e);
      hide Do;
      Fewer(w'.tasks.Keys, w.tasks.Keys);
    } else {
      NobodyNew(w, e);
      hide Do;
      Fewer(w'.tasks.Keys, w.tasks.Keys);
    }
  }

  lemma NothingStarts(w: World, e: Event)
    requires Enabled(w, e) && (e.Clean? || e.Crash? || e.Restart?) && forall id | id in w.tasks :: id in w.born
    ensures Do(w, e).tasks.Keys <= w.tasks.Keys
  {
    hide DoCall, Expire, Restore;
  }

  lemma CallRunsAtMost128(w: World, id: Id, key: Key, hash: Hash, env: Env)
    requires |w.tasks| <= 128 && id !in w.tasks && forall i :: Running(w.st, i) <==> i in w.tasks
    ensures |DoCall(w, id, key, hash, env).tasks| <= 128
  {
    ExpireShrinks(w.st, w.now, env.order, env.stuck);
    hide Expire, DoCall;
    var st1 := if key in w.st.journal && Expired(w.st.journal[key].at, w.now)
               then Expire(w.st, w.now, env.order, env.stuck).0 else w.st;
    assert forall i :: Running(st1, i) <==> i in w.tasks;
    RunningAreTasks(w, st1);
    StartsIfFewRun(w, id, key, hash, env, st1);
    hide Running, Shrinks;
    OneMoreTask(w.tasks, id);
  }

  lemma OneMoreTask(tasks: map<Id, Task>, id: Id)
    requires id !in tasks
    ensures |tasks[id := Starting]| == |tasks| + 1
  {
    assert tasks[id := Starting].Keys == tasks.Keys + {id};
    assert |tasks| == |tasks.Keys| && |tasks[id := Starting]| == |tasks[id := Starting].Keys|;
  }

  lemma StartsIfFewRun(w: World, id: Id, key: Key, hash: Hash, env: Env, st1: Store)
    requires st1 == if key in w.st.journal && Expired(w.st.journal[key].at, w.now)
                    then Expire(w.st, w.now, env.order, env.stuck).0 else w.st
    ensures var w' := DoCall(w, id, key, hash, env);
            || w'.tasks == w.tasks
            || (w'.tasks == w.tasks[id := Starting] && |set i | i in st1.cache && st1.cache[i].running| < 128)
  {
    hide Expire, Load;
  }

  lemma {:induction false} Fewer(a: set<Id>, b: set<Id>)
    requires a <= b
    ensures |a| <= |b|
    decreases b
  {
    if a != {} {
      var i :| i in a;
      Fewer(a - {i}, b - {i});
    }
  }

  // ---------- executions come in the order of their admissions ----------

  /** A goroutine's operation is the one its key leads to, however old, and the latest admission of it. */
  ghost predicate Latest(w: World) {
    forall id | id in w.tasks ::
      && id in w.born && w.born[id].key in w.st.journal && w.st.journal[w.born[id].key].id == id
      && forall id' | id' in w.born && w.born[id'].key == w.born[id].key :: w.born[id'].at <= w.born[id].at
  }

  ghost predicate InOrder(w: World) {
    && (forall i | 0 <= i < |w.ran| :: w.ran[i].start <= w.now)
    && (forall i, j | 0 <= i < j < |w.ran| && w.ran[i].op.key == w.ran[j].op.key ::
          w.ran[i].op.at <= w.ran[j].op.at && w.ran[i].start <= w.ran[j].start)
  }

  /** Expiry leaves the entry of a running operation where it is. */
  lemma {:induction false} ExpireIndexKeepsRunning(st: Store, now: nat, order: seq<Key>, stuck: set<Id>, key: Key)
    requires key in st.journal && Running(st, st.journal[key].id)
    ensures var st' := ExpireIndex(st, now, order, stuck).0; key in st'.journal && st'.journal[key] == st.journal[key]
    decreases |order|
  {
    if |order| > 0 {
      var k := order[0];
      if k !in st.journal || !Expired(st.journal[k].at, now) || Running(st, st.journal[k].id) {
        ExpireIndexKeepsRunning(st, now, order[1..], stuck, key);
      } else if st.journal[k].id !in stuck {
        ExpireIndexKeepsRunning(RemoveEntry(st, k), now, order[1..], stuck, key);
      }
    }
  }

  lemma ExpireKeepsLatest(w: World, order: seq<Key>, stuck: set<Id>)
    requires Latest(w) && TasksCovered(w)
    ensures Latest(w.(st := Expire(w.st, w.now, order, stuck).0))
  {
    var w' := w.(st := Expire(w.st, w.now, order, stuck).0);
    forall id | id in w'.tasks
      ensures w'.born[id].key in w'.st.journal && w'.st.journal[w'.born[id].key].id == id
    {
      ExpireIndexKeepsRunning(w.st, w.now, order, stuck, w.born[id].key);
    }
  }

  /** A new operation is the latest of its key, which no goroutine holds. */
  lemma AdmittingKeepsLatest(w: World, id: Id, op: Op)
    requires Latest(w) && id !in w.born && op.key !in w.st.journal && op.at == w.now
    requires forall i | i in w.born :: w.born[i].at <= w.now
    ensures Latest(Admitting(w, id, op))
  {
    var w' := Admitting(w, id, op);
    forall i | i in w'.tasks
      ensures && i in w'.born && w'.born[i].key in w'.st.journal && w'.st.journal[w'.born[i].key].id == i
              && forall i' | i' in w'.born && w'.born[i'].key == w'.born[i].key :: w'.born[i'].at <= w'.born[i].at
    {
      if i != id {
        assert w.born[i].key in w.st.journal && w.born[i].key != op.key;
      }
    }
  }

  lemma CallKeepsLatest(w: World, id: Id, key: Key, hash: Hash, env: Env)
    requires Latest(w) && TasksCovered(w) && Faithful(w) && id !in w.born
    ensures Latest(DoCall(w, id, key, hash, env))
  {
    assert forall i | i in w.born :: w.born[i].at <= w.now;
    ExpireKeepsLatest(w, env.order, env.stuck);
    hide Expire, Latest, Faithful, TasksCovered, Retry;
    var st1 := if key in w.st.journal && Expired(w.st.journal[key].at, w.now)
               then Expire(w.st, w.now, env.order, env.stuck).0 else w.st;
    assert w.(st := w.st) == w;
    if DoCall(w, id, key, hash, env).tasks != w.tasks {
      AdmittingKeepsLatest(w.(st := st1), id, Op(key, hash, w.now, true));
    }
    CallCases(w, id, key, hash, env, st1);
  }

  /** A call either only expired, or admitted the new operation after that. */
  lemma CallCases(w: World, id: Id, key: Key, hash: Hash, env: Env, st1: Store)
    requires id !in w.tasks
    requires st1 == if key in w.st.journal && Expired(w.st.journal[key].at, w.now)
                    then Expire(w.st, w.now, env.order, env.stuck).0 else w.st
    ensures var w' := DoCall(w, id, key, hash, env);
            || w' == w || w' == w.(st := st1)
            || (key !in st1.journal && w' == Admitting(w.(st := st1), id, Op(key, hash, w.now, true)))
  {
    hide Expire, Load;
    var (st, outcome) := Call(w.st, w.now, id, key, hash, env);
    if outcome == Admitted {
      var op := Op(key, hash, w.now, true);
      assert st == st1.(journal := st1.journal[key := Entry(id, w.now)], cache := st1.cache[id := op]);
      assert DoCall(w, id, key, hash, env) == w.(st := st, tasks := w.tasks[id := Starting], born := w.born[id := op]);
    } else {
      assert st == st1 || st == w.st;
    }
  }

  /** The same goroutines or fewer, and nothing they rest on changed. */
  lemma LatestKept(w: World, w': World)
    requires Latest(w) && w'.tasks.Keys <= w.tasks.Keys && w'.born == w.born && w'.st.journal == w.st.journal
    ensures Latest(w')
  {
  }

  lemma OthersKeepLatest(w: World, e: Event)
    requires Inv(w) && Latest(w) && Enabled(w, e) && !e.CallKey? && !e.Clean?
    ensures Latest(Do(w, e))
  {
    assert TasksCovered(w) && forall id | id in w.tasks :: id in w.born;
    hide Inv, Latest, Do, Enabled;
    if e.Crash? || e.Restart? {
      NobodyAfter(w, e);
    } else {
      NobodyNew(w, e);
      LatestKept(w, Do(w, e));
    }
  }

  /** Other events neither add a goroutine nor touch the index. */
  lemma NobodyNew(w: World, e: Event)
    requires Enabled(w, e) && !e.CallKey? && !e.Clean? && !e.Crash? && !e.Restart? && forall id | id in w.tasks :: id in w.born
    ensures var w' := Do(w, e); w'.tasks.Keys <= w.tasks.Keys && w'.born == w.born && w'.st.journal == w.st.journal
  {
    hide DoCall, DoCrash, DoRestart, Expire;
    if e.WriteNext? {
      WriterAddsNobody(w, e.fails, e.applied);
    }
    hide DoWrite;
  }

  lemma WriterAddsNobody(w: World, fails: bool, applied: bool)
    requires |w.queue| > 0
    ensures var w' := DoWrite(w, fails, applied);
            w'.tasks.Keys <= w.tasks.Keys && w'.born == w.born && w'.st.journal == w.st.journal
  {
  }

  lemma NobodyAfter(w: World, e: Event)
    requires TasksCovered(w) && Enabled(w, e) && (e.Crash? || e.Restart?) && forall id | id in w.tasks :: id in w.born
    ensures Latest(Do(w, e))
  {
    hide DoCall, Expire, Restore;
    assert Do(w, e).tasks == map[];
  }

  lemma OrderStep(w: World, e: Event)
    requires Inv(w) && Latest(w) && InOrder(w) && Enabled(w, e)
    ensures InOrder(Do(w, e))
  {
    hide Indexed, Recorded, Apart, TasksCovered, Restore, Expire, Call;
  }

  lemma {:induction false} RunIsInOrder(events: seq<Event>)
    ensures Latest(Run(events)) && InOrder(Run(events))
    decreases |events|
  {
    if |events| > 0 {
      var init, e := events[..|events| - 1], events[|events| - 1];
      var w := Run(init);
      RunIsInOrder(init);
      RunKeepsInv(init);
      if Enabled(w, e) {
        OrderStep(w, e);
        match e {
          case CallKey(id, key, hash, env) => CallKeepsLatest(w, id, key, hash, env);
          case Clean(order, stuck) => ExpireKeepsLatest(w, order, stuck);
          case _ => OthersKeepLatest(w, e);
        }
      }
      hide Latest, InOrder, Inv, Enabled;
    }
  }

  /** Executions of one key start in the order of their admissions. */
  lemma StartsFollowAdmissions(events: seq<Event>, i: nat, j: nat)
    requires i < |Run(events).ran| && j < |Run(events).ran| && i != j
    requires Run(events).ran[i].op.key == Run(events).ran[j].op.key
    requires Run(events).ran[i].op.at <= Run(events).ran[j].op.at
    ensures i < j && Run(events).ran[i].start <= Run(events).ran[j].start
  {
    RunIsInOrder(events);
    AtMostOncePerTtl(events, i, j);
  }

  // ---------- start times instead of admission times ----------

  /** An execution starts while the context of its operation lasts. */
  lemma {:induction false} StartsInTime(events: seq<Event>, i: nat)
    requires i < |Run(events).ran|
    ensures var e := Run(events).ran[i]; e.op.at <= e.start <= e.op.at + 30_000_000_000
    decreases |events|
  {
    RunKeepsInv(events);
    var init, last := events[..|events| - 1], events[|events| - 1];
    RunKeepsInv(init);
    RanGrows(Run(init), last);
    if i < |Run(init).ran| {
      StartsInTime(init, i);
    }
  }

  lemma RanGrows(w: World, e: Event)
    requires Inv(w)
    ensures var w' := Next(w, e);
            w'.ran == w.ran || (|w'.ran| == |w.ran| + 1 && w'.ran[..|w.ran|] == w.ran
                                && w'.ran[|w.ran|].start <= w'.ran[|w.ran|].op.at + TIMEOUT)
  {
    hide Call, Restore, Expire, Indexed, Recorded, Apart, TasksCovered, Faithful;
  }

  ghost predicate Pair(events: seq<Event>, i: nat, j: nat) {
    && i < |Run(events).ran| && j < |Run(events).ran| && i != j
    && Run(events).ran[i].op.key == Run(events).ran[j].op.key
    && Run(events).ran[i].op.at <= Run(events).ran[j].op.at
  }

  /** After an execution that started `delay` after its admission, later ones of its key start at least `gap` later. */
  ghost predicate StartsApart(delay: nat, gap: nat) {
    forall events, i: nat, j: nat :: Pair(events, i, j) && Run(events).ran[i].start - Run(events).ran[i].op.at == delay
      ==> Run(events).ran[j].start - Run(events).ran[i].start >= gap
  }

  /** Whatever the delays, executions of one key start at least `gap` after each other. */
  ghost predicate AllStartsApart(gap: nat) {
    forall events, i: nat, j: nat :: Pair(events, i, j) ==> Run(events).ran[j].start - Run(events).ran[i].start >= gap
  }

  lemma PairIsApart(events: seq<Event>, i: nat, j: nat)
    requires Pair(events, i, j)
    ensures var e, f := Run(events).ran[i], Run(events).ran[j];
            f.start - e.start >= TTL + 1 - (e.start - e.op.at) && e.op.at <= e.start <= e.op.at + TIMEOUT
  {
    AtMostOncePerTtl(events, i, j);
    StartsInTime(events, i);
  }

  /**
   * The TTL is counted from admission, not from the start of the execution: measured between starts
   * the distance that is guaranteed is exactly what the delay of the first leaves of the TTL; no
   * execution is delayed longer than its operation's timeout.
   */
  lemma StartsApartIff(delay: nat, gap: nat)
    ensures StartsApart(delay, gap) <==> delay > TIMEOUT || gap + delay <= TTL + 1
  {
    if delay > TIMEOUT || gap + delay <= TTL + 1 {
      forall events, i: nat, j: nat | Pair(events, i, j) && Run(events).ran[i].start - Run(events).ran[i].op.at == delay
        ensures Run(events).ran[j].start - Run(events).ran[i].start >= gap
      {
        PairIsApart(events, i, j);
      }
    } else {
      var events := CloseStarts(delay);
      assert Pair(events, 0, 1);
    }
  }

  /** Executions of one key start more than the TTL less the timeout apart, and no better bound holds. */
  lemma AllStartsApartIff(gap: nat)
    ensures AllStartsApart(gap) <==> gap <= 86_370_000_000_001
  {
    if gap <= TTL + 1 - TIMEOUT {
      forall events, i: nat, j: nat | Pair(events, i, j)
        ensures Run(events).ran[j].start - Run(events).ran[i].start >= gap
      {
        PairIsApart(events, i, j);
      }
    } else {
      var events := CloseStarts(TIMEOUT);
      assert Pair(events, 0, 1);
    }
  }

  lemma RunSnoc(events: seq<Event>, e: Event)
    ensures Run(events + [e]) == Next(Run(events), e)
  {
    assert (events + [e])[..|events|] == events;
  }

  /** The only goroutine gets its reservation written, waits, and executes. */
  lemma ReserveAndExecute(before: seq<Event>, w: World, id: Id, delay: nat) returns (events: seq<Event>)
    requires Run(before) == w && w.tasks == map[id := Starting] && w.queue == []
    requires id in w.born && w.born[id].running && w.now + delay <= w.born[id].at + TIMEOUT
    ensures Run(events) == w.(now := w.now + delay, tasks := map[id := Executing],
                              st := w.st.(disk := w.st.disk[id := w.born[id]]),
                              ran := w.ran + [Execution(id, w.born[id], w.now + delay)])
  {
    var w1 := w.(tasks := map[id := Reserved], st := w.st.(disk := w.st.disk[id := w.born[id]]));
    events := ReserveAndWrite(before, w, id);
    RunSnoc(events, Tick(delay));
    events := events + [Tick(delay)];
    assert Run(events) == w1.(now := w.now + delay);
    RunSnoc(events, Execute(id));
    events := events + [Execute(id)];
  }

  lemma ReserveAndWrite(before: seq<Event>, w: World, id: Id) returns (events: seq<Event>)
    requires Run(before) == w && w.tasks == map[id := Starting] && w.queue == []
    requires id in w.born && w.born[id].running
    ensures Run(events) == w.(tasks := map[id := Reserved], st := w.st.(disk := w.st.disk[id := w.born[id]]))
  {
    RunSnoc(before, Reserve(id));
    events := before + [Reserve(id)];
    assert Run(events) == w.(tasks := map[id := Reserving], queue := [(id, w.born[id])]);
    RunSnoc(events, WriteNext(false, false));
    events := events + [WriteNext(false, false)];
  }

  lemma FirstAdmitted() returns (events: seq<Event>)
    ensures var op := Op(7, 1, 0, true);
            Run(events) == World(0, true, Store(true, map[7 := Entry(0, 0)], map[0 := op], map[]),
                                 map[0 := Starting], [], map[0 := op], [])
  {
    var env := Env([7], {}, false, true);
    var up := Store(true, map[], map[], map[]);
    RunSnoc([], Restart([], {}));
    events := [] + [Restart([], {})];
    assert Run(events) == World(0, true, up, map[], [], map[], []);
    NothingRuns(up);
    RunSnoc(events, CallKey(0, 7, 1, env));
    events := events + [CallKey(0, 7, 1, env)];
  }

  lemma SettleFirst(before: seq<Event>, delay: nat) returns (events: seq<Event>)
    requires var op := Op(7, 1, 0, true);
             Run(before) == World(delay, true, Store(true, map[7 := Entry(0, 0)], map[0 := op], map[0 := op]),
                                  map[0 := Executing], [], map[0 := op], [Execution(0, op, delay)])
    ensures var op := Op(7, 1, 0, true);
            Run(events) == World(delay, true,
              Store(true, map[7 := Entry(0, 0)], map[0 := op.(running := false)], map[0 := op.(running := false)]),
              map[], [], map[0 := op], [Execution(0, op, delay)])
  {
    var op := Op(7, 1, 0, true);
    var done := op.(running := false);
    var ran := [Execution(0, op, delay)];
    var st := Store(true, map[7 := Entry(0, 0)], map[0 := op], map[0 := op]);
    RunSnoc(before, Return(0, true));
    events := before + [Return(0, true)];
    ReturnFirst(Run(before), op);
    hide Run, Next;
    RunSnoc(events, WriteNext(false, false));
    events := events + [WriteNext(false, false)];
    WriteFirst(World(delay, true, st, map[0 := Finishing], [(0, done)], map[0 := op], ran), op);
    RunSnoc(events, Settle(0));
    events := events + [Settle(0)];
    CloseFirst(World(delay, true, st.(disk := map[0 := done]), map[0 := Finished], [], map[0 := op], ran), op);
  }

  lemma ReturnFirst(w: World, op: Op)
    requires w.tasks == map[0 := Executing] && w.queue == [] && w.born == map[0 := op]
    ensures Next(w, Return(0, true)) == w.(tasks := map[0 := Finishing], queue := [(0, op.(running := false))])
  {
  }

  lemma WriteFirst(w: World, op: Op)
    requires w.tasks == map[0 := Finishing] && w.queue == [(0, op.(running := false))] && w.born == map[0 := op] && w.st.disk == map[0 := op]
    ensures Next(w, WriteNext(false, false))
            == w.(tasks := map[0 := Finished], queue := [], st := w.st.(disk := map[0 := op.(running := false)]))
  {
  }

  lemma CloseFirst(w: World, op: Op)
    requires w.tasks == map[0 := Finished] && w.born == map[0 := op] && w.st.cache == map[0 := op] && w.st.healthy
    ensures Next(w, Settle(0)) == w.(tasks := map[], st := w.st.(cache := map[0 := op.(running := false)]))
  {
  }

  lemma NothingRuns(st: Store)
    requires st.cache == map[]
    ensures |set i | i in st.cache && st.cache[i].running| == 0
  {
    assert (set i | i in st.cache && st.cache[i].running) == {};
  }

  /** The bound is attained: a second operation under the same key starts what the delay of the first leaves of the TTL later. */
  lemma CloseStarts(delay: nat) returns (events: seq<Event>)
    requires delay <= TIMEOUT
    ensures var w := Run(events);
            && |w.ran| == 2 && w.ran[0].op.key == w.ran[1].op.key && w.ran[0].op.at <= w.ran[1].op.at
            && w.ran[0].start - w.ran[0].op.at == delay
            && w.ran[1].start - w.ran[0].start == TTL + 1 - delay
  {
    var op := Op(7, 1, 0, true);
    var done := op.(running := false);
    var ran := [Execution(0, op, delay)];
    var gap := TTL + 1 - delay;
    var now := delay + gap;
    var w0 := World(0, true, Store(true, map[7 := Entry(0, 0)], map[0 := op], map[]), map[0 := Starting], [], map[0 := op], []);
    events := FirstAdmitted();
    events := ReserveAndExecute(events, w0, 0, delay);
    events := SettleFirst(events, delay);
    RunSnoc(events, Tick(gap));
    events := events + [Tick(gap)];
    var w := World(now, true, Store(true, map[7 := Entry(0, 0)], map[0 := done], map[0 := done]), map[], [], map[0 := op], ran);
    assert Run(events) == w;
    events := SecondLife(events, w, delay);
  }

  lemma SecondAdmitted(before: seq<Event>, w: World, delay: nat) returns (events: seq<Event>)
    requires w.now > TTL && Run(before) == w
    requires var op := Op(7, 1, 0, true); var done := op.(running := false);
             w == World(w.now, true, Store(true, map[7 := Entry(0, 0)], map[0 := done], map[0 := done]),
                        map[], [], map[0 := op], [Execution(0, op, delay)])
    ensures var op2 := Op(7, 2, w.now, true);
            Run(events) == World(w.now, true, Store(true, map[7 := Entry(1, w.now)], map[1 := op2], map[]),
                                 map[1 := Starting], [], map[0 := w.born[0], 1 := op2], w.ran)
  {
    var env := Env([7], {}, false, true);
    var empty := Store(true, map[], map[], map[]);
    assert RemoveEntry(w.st, 7) == empty;
    assert ExpireIndex(empty, w.now, [7][1..], {}) == (empty, true);
    assert ExpireIndex(w.st, w.now, [7], {}) == (empty, true);
    assert ExpireCache(empty, w.now) == empty;
    NothingRuns(empty);
    RunSnoc(before, CallKey(1, 7, 2, env));
    events := before + [CallKey(1, 7, 2, env)];
  }

  lemma SecondLife(before: seq<Event>, w: World, delay: nat) returns (events: seq<Event>)
    requires w.now > TTL && Run(before) == w
    requires var op := Op(7, 1, 0, true); var done := op.(running := false);
             w == World(w.now, true, Store(true, map[7 := Entry(0, 0)], map[0 := done], map[0 := done]),
                        map[], [], map[0 := op], [Execution(0, op, delay)])
    ensures |Run(events).ran| == 2 && Run(events).ran[0] == w.ran[0]
    ensures Run(events).ran[1] == Execution(1, Op(7, 2, w.now, true), w.now)
  {
    var op2 := Op(7, 2, w.now, true);
    var w1 := World(w.now, true, Store(true, map[7 := Entry(1, w.now)], map[1 := op2], map[]),
                    map[1 := Starting], [], map[0 := w.born[0], 1 := op2], w.ran);
    events := SecondAdmitted(before, w, delay);
    events := ReserveAndExecute(events, w1, 1, 0);
  }
}
