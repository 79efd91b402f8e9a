/// Spawn-at-most-once command sessions: `execCommandOnce` in
/// cmd/agent/command_history.go; reservation, launch, status changes,
/// `persistSession`, `restoreSessions` and `cleanupLoop` in
/// cmd/agent/command_sessions.go.
///
/// A crash keeps the metadata files and loses everything else.  Request keys and
/// arguments stand for their hashes, session IDs never repeat, the clock never goes back.

module CommandOnce {
  import opened Wrappers

  type Key = nat
  type Hash = nat
  type Id = nat

  datatype Status = Starting | Running | Exited | Failed | TimedOut | Cancelled | Orphaned | OutcomeUnknown

  /** A session, and equally its metadata file. */
  datatype Session = Session(key: Key, hash: Hash, startedAt: nat, status: Status, finishedAt: Option<nat>)

  /** The executor: sessions in memory and metadata files. */
  datatype Executor = Executor(sessions: map<Id, Session>, disk: map<Id, Session>)

  predicate Terminal(status: Status) {
    status != Starting && status != Running
  }

  /** A status change the protocol allows, or none. */
  predicate Leads(from: Status, to: Status) {
    from == to || from == Starting || (from == Running && Terminal(to))
  }

  // ---------- one keyed call ----------

  /** The first session, in the order the map is walked, that holds the key. */
  function Find(sessions: map<Id, Session>, key: Key, order: seq<Id>): Option<Id>
    decreases |order|
  {
    if |order| == 0 then None
    else if order[0] in sessions && sessions[order[0]].key == key then Some(order[0])
    else Find(sessions, key, order[1..])
  }

  /** How the reservation write ends: an error may still leave the record behind. */
  datatype Write = Done | Refused | DoneButFailed

  function ReserveSpec(x: Executor, id: Id, s: Session, write: Write): (Executor, bool) {
    var disk := if write == Refused then x.disk else x.disk[id := s];
    if write == Done then (Executor(x.sessions[id := s], disk), true) else (x.(disk := disk), false)
  }

  function LaunchSpec(x: Executor, id: Id, started: bool, now: nat): Executor
    requires id in x.sessions
  {
    var s := x.sessions[id];
    x.(sessions := x.sessions[id := if started then s.(status := Running) else s.(status := Failed, finishedAt := Some(now))])
  }

  datatype Outcome = Replay(id: Id) | Conflict | IoError | Launched(started: bool)

  datatype Env = Env(order: seq<Id>, write: Write, started: bool)

  /** An undisturbed call; `Do` below takes the same steps one by one. */
  function ExecSpec(x: Executor, now: nat, id: Id, key: Key, hash: Hash, env: Env): (Executor, Outcome) {
    match Find(x.sessions, key, env.order)
    case Some(found) =>
      (x, if found in x.sessions && x.sessions[found].hash == hash then Replay(found) else Conflict)
    case None =>
      var (y, ok) := ReserveSpec(x, id, Session(key, hash, now, Starting, None), env.write);
      if ok then (LaunchSpec(y, id, env.started, now), Launched(env.started)) else (y, IoError)
  }

  // ---------- status changes ----------

  /** `stopSession`: with `gone` a restored process whose identity no longer matches. */
  function Stopped(s: Session, status: Status, gone: bool, now: nat): Session {
    if s.status != Running then s
    else if gone then s.(status := Orphaned, finishedAt := Some(now))
    else s.(status := status)
  }

  /** What the waiter, or the monitor of a restored process, records. */
  function Ended(s: Session, waitFailed: bool, now: nat): Session {
    s.(status := if s.status != Running then s.status else if waitFailed then Failed else Exited, finishedAt := Some(now))
  }

  // ---------- cleanup and restart ----------

  /** `cleanupLoop` drops a finished session this long after its end. */
  predicate Outlived(s: Session, now: nat, ttl: nat) {
    s.status != Running && s.finishedAt.Some? && s.finishedAt.value + ttl < now
  }

  /** `restoreSessions` measures a record without an end from its start. */
  predicate Stale(s: Session, now: nat, ttl: nat) {
    s.status != Running && (if s.finishedAt.Some? then s.finishedAt.value else s.startedAt) + ttl < now
  }

  function Restored(s: Session, alive: bool, now: nat): Session {
    if s.status == Running && alive then s
    else if s.status == Starting then s.(status := OutcomeUnknown, finishedAt := Some(now))
    else if s.status == Running then s.(status := Orphaned, finishedAt := Some(now))
    else s
  }

  /** What a restart cannot control: failing reads, removals and writes, and which processes live. */
  datatype Boot = Boot(unreadable: set<Id>, stuck: set<Id>, unwritable: set<Id>, alive: set<Id>)

  function RestoreOne(x: Executor, id: Id, now: nat, ttl: nat, boot: Boot): Executor {
    if id !in x.disk || id in boot.unreadable then x
    else if Stale(x.disk[id], now, ttl) then
      if id in boot.stuck then x else x.(disk := x.disk - {id})
    else
      var s := Restored(x.disk[id], id in boot.alive, now);
      Executor(x.sessions[id := s], if id in boot.unwritable then x.disk else x.disk[id := s])
  }

  function RestoreSpec(x: Executor, order: seq<Id>, now: nat, ttl: nat, boot: Boot): Executor
    decreases |order|
  {
    if |order| == 0 then x else RestoreOne(RestoreSpec(x, order[..|order| - 1], now, ttl, boot), order[|order| - 1], now, ttl, boot)
  }

  function Kept(sessions: map<Id, Session>, now: nat, ttl: nat): map<Id, Session> {
    map id | id in sessions && !Outlived(sessions[id], now, ttl) :: sessions[id]
  }

  // ---------- the executor object ----------

  class NativeExecutor {
    const processTTL: nat
    var sessions: map<Id, Session>
    var disk: map<Id, Session>
    var pending: map<Id, Session>

    ghost function Model(): Executor
      reads this
    {
      Executor(sessions, disk)
    }

    /** `restoreSessions` over the directory listing `order`. */
    constructor (files: map<Id, Session>, order: seq<Id>, now: nat, ttl: nat, boot: Boot)
      ensures Model() == RestoreSpec(Executor(map[], files), order, now, ttl, boot) && processTTL == ttl && pending == map[]
    {
      processTTL := ttl;
      sessions, disk, pending := map[], files, map[];
      new;
      var i := 0;
      while i < |order|
        invariant 0 <= i <= |order| && processTTL == ttl && pending == map[]
        invariant Model() == RestoreSpec(Executor(map[], files), order[..i], now, ttl, boot)
      {
        assert order[..i + 1][..i] == order[..i];
        var id := order[i];
        i := i + 1;
        if id !in disk || id in boot.unreadable {
          continue;
        }
        var s := disk[id];
        var ageTime := s.startedAt;
        if s.finishedAt.Some? {
          ageTime := s.finishedAt.value;
        }
        if s.status != Running && ageTime + ttl < now {
          if id !in boot.stuck {
            disk := disk - {id};
          }
          continue;
        }
        if s.status == Running && id in boot.alive {
          sessions := sessions[id := s];
          assert disk[id := s] == disk;
          continue;
        }
        if s.status == Starting {
          s := s.(status := OutcomeUnknown, finishedAt := Some(now));
        } else if s.status == Running {
          s := s.(status := Orphaned, finishedAt := Some(now));
        }
        sessions := sessions[id := s];
        if id !in boot.unwritable {
          disk := disk[id := s];
        }
      }
      assert order[..i] == order;
    }

    method ExecCommandOnce(now: nat, id: Id, key: Key, hash: Hash, env: Env) returns (outcome: Outcome)
      modifies this`sessions, this`disk
      ensures (Model(), outcome) == ExecSpec(old(Model()), now, id, key, hash, env)
    {
      var i := 0;
      while i < |env.order|
        invariant 0 <= i <= |env.order| && Model() == old(Model())
        invariant Find(sessions, key, env.order[i..]) == Find(sessions, key, env.order)
      {
        var at := env.order[i];
        assert env.order[i..][1..] == env.order[i + 1..];
        i := i + 1;
        if at !in sessions || sessions[at].key != key {
          continue;
        }
        if sessions[at].hash != hash {
          return Conflict;
        }
        return Replay(at);
      }
      var session := Session(key, hash, now, Starting, None);
      if env.write != Refused {
        disk := disk[id := session];
      }
      if env.write != Done {
        return IoError;
      }
      sessions := sessions[id := session];
      if !env.started {
        sessions := sessions[id := session.(status := Failed, finishedAt := Some(now))];
        return Launched(false);
      }
      sessions := sessions[id := session.(status := Running)];
      return Launched(true);
    }

    /** `stopSession`; only a running session changes. */
    method StopSession(id: Id, status: Status, gone: bool, now: nat)
      requires id in sessions
      modifies this`sessions
      ensures sessions == old(sessions)[id := Stopped(old(sessions)[id], status, gone, now)]
    {
      var session := sessions[id];
      if session.status != Running {
        assert sessions[id := session] == sessions;
        return;
      }
      if gone {
        sessions := sessions[id := session.(status := Orphaned, finishedAt := Some(now))];
        return;
      }
      sessions := sessions[id := session.(status := status)];
    }

    /** The critical section of `waitProcess` and of `monitorRestored`. */
    method ProcessEnded(id: Id, waitFailed: bool, now: nat)
      requires id in sessions
      modifies this`sessions
      ensures sessions == old(sessions)[id := Ended(old(sessions)[id], waitFailed, now)]
    {
      var session := sessions[id];
      if session.status == Running {
        session := session.(status := Exited);
        if waitFailed {
          session := session.(status := Failed);
        }
      }
      session := session.(finishedAt := Some(now));
      sessions := sessions[id := session];
    }

    /** `persistSession` up to its write: the snapshot, taken with the session's `metadataMu` held. */
    method TakeSnapshot(id: Id)
      requires id in sessions && id !in pending
      modifies this`pending
      ensures pending == old(pending)[id := sessions[id]]
    {
      pending := pending[id := sessions[id]];
    }

    /** The write of the snapshot, after which `metadataMu` is free again; a removed directory stays removed. */
    method StoreSnapshot(id: Id, ok: bool)
      requires id in pending
      modifies this`pending, this`disk
      ensures pending == old(pending) - {id}
      ensures disk == if ok && id in old(disk) then old(disk)[id := old(pending)[id]] else old(disk)
    {
      if ok && id in disk {
        disk := disk[id := pending[id]];
      }
      pending := pending - {id};
    }

    /** One tick of `cleanupLoop`; the directories to remove follow outside the lock. */
    method Cleanup(now: nat) returns (remove: set<Id>)
      modifies this`sessions
      ensures sessions == Kept(old(sessions), now, processTTL)
      ensures remove == old(sessions).Keys - sessions.Keys
    {
      remove := {};
      var rest := sessions.Keys;
      while rest != {}
        invariant rest <= old(sessions).Keys && remove <= old(sessions).Keys && remove !! rest
        invariant forall id | id in old(sessions) && id !in rest :: id in remove <==> Outlived(old(sessions)[id], now, processTTL)
        invariant sessions == old(sessions) - remove
        decreases |rest|
      {
        var id :| id in rest;
        rest := rest - {id};
        var s := sessions[id];
        if s.status != Running && s.finishedAt.Some? && s.finishedAt.value + processTTL < now {
          sessions := sessions - {id};
          remove := remove + {id};
        }
      }
    }
  }

  // ---------- the run ----------

  /** How far the call holding `execMu` is. */
  datatype Starter = Idle | Preparing(id: Id) | Launching(id: Id) | Waiting

  /**
   * `born` tells every drawn ID's session as it was first made; `reserved` the IDs whose
   * reservation succeeded and `spawned` those whose process started, over all lives.
   * `ends` tells when each session's end was first recorded, in any life.
   * `lost` are the records the last restart could not read, `blind` those of the restart before each draw;
   * `judged` tells when a restart judged a record without an end by its start, and found it too old.
   * `pending` are metadata snapshots being written, each under its session's `metadataMu`;
   * `doomed` the directories the cleanup loop is about to remove.
   */
  datatype World = World(ttl: nat, up: bool, now: nat, x: Executor, pending: map<Id, Session>, doomed: set<Id>,
                         starter: Starter, born: map<Id, Session>,
                         reserved: seq<Id>, spawned: seq<Id>, ends: map<Id, nat>,
                         lost: set<Id>, blind: map<Id, set<Id>>, judged: map<Id, nat>)

  datatype Event =
    | Exec(id: Id, key: Key, hash: Hash)
    | Reserve(write: Write)
    | Launch(started: bool)
    | Return
    | Stop(id: Id, status: Status, gone: bool)
    | End(id: Id, waitFailed: bool)
    | Snapshot(id: Id)
    | Store(id: Id, ok: bool)
    | CleanupTick
    | RemoveDirectory(id: Id, ok: bool)
    | Tick(ns: nat)
    | Crash
    | Restart(order: seq<Id>, boot: Boot)

  ghost predicate Holds(x: Executor, key: Key) {
    exists id :: id in x.sessions && x.sessions[id].key == key
  }

  /** The first recorded end stays the one remembered. */
  function Noted(ends: map<Id, nat>, id: Id, s: Session): map<Id, nat> {
    if s.finishedAt.Some? && id !in ends then ends[id := s.finishedAt.value] else ends
  }

  ghost function DoExec(w: World, id: Id, key: Key, hash: Hash): World {
    if Holds(w.x, key) then w
    else
      w.(starter := Preparing(id), born := w.born[id := Session(key, hash, w.now, Starting, None)],
         blind := w.blind[id := w.lost])
  }

  ghost function DoReserve(w: World, id: Id, write: Write): World
    requires id in w.born
  {
    var (x, ok) := ReserveSpec(w.x, id, w.born[id], write);
    if ok then w.(x := x, starter := Launching(id), reserved := w.reserved + [id]) else w.(x := x, starter := Idle)
  }

  ghost function DoLaunch(w: World, id: Id, started: bool): World
    requires id in w.x.sessions
  {
    var x := LaunchSpec(w.x, id, started, w.now);
    w.(x := x, ends := Noted(w.ends, id, x.sessions[id]), starter := Waiting,
       spawned := if started then w.spawned + [id] else w.spawned)
  }

  ghost function SetSession(w: World, id: Id, s: Session): World {
    w.(x := w.x.(sessions := w.x.sessions[id := s]), ends := Noted(w.ends, id, s))
  }

  ghost function DoStore(w: World, id: Id, ok: bool): World
    requires id in w.pending
  {
    w.(pending := w.pending - {id},
       x := if ok && id in w.x.disk then w.x.(disk := w.x.disk[id := w.pending[id]]) else w.x)
  }

  ghost function DoCleanup(w: World): World {
    var kept := Kept(w.x.sessions, w.now, w.ttl);
    w.(x := w.x.(sessions := kept), doomed := w.doomed + (w.x.sessions.Keys - kept.Keys))
  }

  ghost function DoRemove(w: World, id: Id, ok: bool): World {
    w.(doomed := w.doomed - {id}, x := if ok then w.x.(disk := w.x.disk - {id}) else w.x)
  }

  ghost function DoCrash(w: World): World {
    w.(up := false, x := w.x.(sessions := map[]), pending := map[], doomed := {}, starter := Idle)
  }

  /** A record that has no end although it is not running: cut off before its start, or stopped and not waited for. */
  predicate Endless(s: Session) {
    s.status != Running && s.finishedAt == None
  }

  ghost predicate MeetsEndless(w: World, boot: Boot, id: Id) {
    id in w.x.disk && id !in boot.unreadable && Endless(w.x.disk[id]) && Stale(w.x.disk[id], w.now, w.ttl)
  }

  ghost function RestartEnds(w: World, sessions: map<Id, Session>): map<Id, nat> {
    map id | id in w.ends.Keys + sessions.Keys && (id in w.ends || sessions[id].finishedAt.Some?) ::
      if id in w.ends then w.ends[id] else sessions[id].finishedAt.value
  }

  ghost function RestartJudged(w: World, boot: Boot): map<Id, nat> {
    map id | id in w.judged.Keys + w.x.disk.Keys && (id in w.judged || MeetsEndless(w, boot, id)) ::
      if id in w.judged then w.judged[id] else w.now
  }

  ghost function DoRestart(w: World, order: seq<Id>, boot: Boot): World {
    var x := RestoreSpec(w.x, order, w.now, w.ttl, boot);
    w.(up := true, x := x, ends := RestartEnds(w, x.sessions), lost := boot.unreadable, judged := RestartJudged(w, boot))
  }

  ghost predicate Lists(order: seq<Id>, disk: map<Id, Session>) {
    && (forall id :: id in order <==> id in disk)
    && (forall i, j | 0 <= i < j < |order| :: order[i] != order[j])
  }

  ghost predicate Enabled(w: World, e: Event) {
    match e
    case Exec(id, key, hash) => w.up && w.starter == Idle && id !in w.born
    case Reserve(write) => w.starter.Preparing?
    case Launch(started) => w.starter.Launching? && w.starter.id in w.x.sessions
    case Return => w.starter == Waiting
    case Stop(id, status, gone) => id in w.x.sessions && Terminal(status)
    case End(id, waitFailed) => id in w.x.sessions && w.x.sessions[id].status != Starting
    case Snapshot(id) => id in w.x.sessions && id !in w.pending
    case Store(id, ok) => id in w.pending
    case CleanupTick => w.up
    case RemoveDirectory(id, ok) => id in w.doomed
    case Tick(ns) => true
    case Crash => w.up
    case Restart(order, boot) => !w.up && Lists(order, w.x.disk)
  }

  ghost function Do(w: World, e: Event): (w': World)
    requires Enabled(w, e)
    ensures w'.ttl == w.ttl
  {
    match e
    case Exec(id, key, hash) => DoExec(w, id, key, hash)
    case Reserve(write) => if w.starter.id in w.born then DoReserve(w, w.starter.id, write) else w
    case Launch(started) => DoLaunch(w, w.starter.id, started)
    case Return => w.(starter := Idle)
    case Stop(id, status, gone) => SetSession(w, id, Stopped(w.x.sessions[id], status, gone, w.now))
    case End(id, waitFailed) => SetSession(w, id, Ended(w.x.sessions[id], waitFailed, w.now))
    case Snapshot(id) => w.(pending := w.pending[id := w.x.sessions[id]])
    case Store(id, ok) => DoStore(w, id, ok)
    case CleanupTick => DoCleanup(w)
    case RemoveDirectory(id, ok) => DoRemove(w, id, ok)
    case Tick(ns) => w.(now := w.now + ns)
    case Crash => DoCrash(w)
    case Restart(order, boot) => DoRestart(w, order, boot)
  }

  ghost function Init(ttl: nat): World {
    World(ttl, true, 0, Executor(map[], map[]), map[], {}, Idle, map[], [], [], map[], {}, map[], map[])
  }

  /** An event that cannot happen now leaves everything as it is. */
  ghost function Next(w: World, e: Event): World {
    if Enabled(w, e) then Do(w, e) else w
  }

  ghost function Run(ttl: nat, events: seq<Event>): World
    decreases |events|
  {
    if |events| == 0 then Init(ttl) else Next(Run(ttl, events[..|events| - 1]), events[|events| - 1])
  }

  // ---------- invariant ----------

  /** The same session at a later moment. */
  ghost predicate Grown(born: Session, s: Session, now: nat) {
    && s.key == born.key && s.hash == born.hash && s.startedAt == born.startedAt <= now
    && (s.finishedAt.Some? ==> s.startedAt <= s.finishedAt.value <= now)
    && (s.status == Starting ==> s.finishedAt == None)
  }

  /** What a session, a snapshot or a file may say: it grew from its draw, and its end is noted. */
  ghost predicate Sound(w: World, id: Id, s: Session) {
    && id in w.born && Grown(w.born[id], s, w.now)
    && (s.finishedAt.Some? ==> id in w.ends && w.ends[id] <= s.finishedAt.value)
  }

  ghost predicate AllSound(w: World, m: map<Id, Session>) {
    forall id :: id in m ==> Sound(w, id, m[id])
  }

  ghost predicate Faithful(w: World) {
    AllSound(w, w.x.sessions) && AllSound(w, w.x.disk) && AllSound(w, w.pending)
  }

  /** The session's end was first recorded more than the TTL before this moment. */
  ghost predicate EndedBefore(w: World, id: Id, at: nat) {
    id in w.ends && w.ends[id] + w.ttl < at
  }

  /** By this moment a restart had met the record without an end, more than the TTL after its start. */
  ghost predicate JudgedBy(w: World, id: Id, at: nat)
    requires id in w.born
  {
    id in w.judged && w.judged[id] <= at && w.born[id].startedAt + w.ttl < w.judged[id]
  }

  ghost predicate Spent(w: World, id: Id, at: nat)
    requires id in w.born
  {
    EndedBefore(w, id, at) || JudgedBy(w, id, at)
  }

  /** A reservation is on disk, and in memory if the last restart could read it, until it is spent. */
  ghost predicate Remembered(w: World) {
    forall id :: id in w.reserved ==>
      id in w.born && (Spent(w, id, w.now) || (id in w.x.disk && (w.up ==> id in w.x.sessions || id in w.lost)))
  }

  ghost predicate DoomedOld(w: World) {
    forall id :: id in w.doomed ==> id in w.born && EndedBefore(w, id, w.now)
  }

  /** When a reservation was drawn, every earlier one of its key was spent, or unreadable to that life. */
  ghost predicate Apart(w: World) {
    forall i, j | 0 <= i < j < |w.reserved| :: Follows(w, w.reserved[i], w.reserved[j])
  }

  ghost predicate Follows(w: World, a: Id, b: Id) {
    a in w.born && b in w.born && w.born[a].key == w.born[b].key ==>
      (b in w.blind && a in w.blind[b]) || Spent(w, a, w.born[b].startedAt)
  }

  ghost predicate StarterInv(w: World) {
    && (w.starter != Idle ==> w.up)
    && (w.starter.Preparing? ==>
        && w.starter.id in w.born && w.starter.id !in w.reserved
        && w.starter.id !in w.x.sessions && w.starter.id !in w.x.disk && w.starter.id !in w.pending
        && w.born[w.starter.id].status == Starting && w.born[w.starter.id].startedAt <= w.now
        && w.born[w.starter.id].finishedAt == None)
    && (w.starter.Launching? ==>
        && |w.reserved| > 0 && w.starter.id == w.reserved[|w.reserved| - 1] && w.starter.id !in w.spawned
        && w.starter.id in w.x.sessions && w.x.sessions[w.starter.id].status == Starting)
  }

  ghost predicate SpawnInv(w: World) {
    && (forall i | 0 <= i < |w.spawned| :: w.spawned[i] in w.reserved)
    && (forall i, j | 0 <= i < j < |w.spawned| :: w.spawned[i] != w.spawned[j] && Follows(w, w.spawned[i], w.spawned[j]))
  }

  /** What holds between the session being prepared and every earlier reservation. */
  ghost predicate Prior(w: World) {
    w.starter.Preparing? ==> forall a :: a in w.reserved ==> Follows(w, a, w.starter.id)
  }

  ghost predicate Drawn(w: World) {
    w.blind.Keys == w.born.Keys && forall id :: id in w.reserved ==> id in w.born
  }

  /** Every file is behind its snapshot and every snapshot behind the session. */
  ghost predicate Ordered(w: World) {
    && (forall id :: id in w.x.disk && id in w.x.sessions ==> Leads(w.x.disk[id].status, w.x.sessions[id].status))
    && (forall id :: id in w.x.disk && id in w.pending ==> Leads(w.x.disk[id].status, w.pending[id].status))
    && (forall id :: id in w.pending && id in w.x.sessions ==> Leads(w.pending[id].status, w.x.sessions[id].status))
  }

  ghost predicate DownInv(w: World) {
    !w.up ==> w.x.sessions == map[] && w.pending == map[] && w.doomed == {}
  }

  ghost predicate TimesInv(w: World) {
    && (forall id :: id in w.ends ==> id in w.born && w.born[id].startedAt <= w.ends[id] <= w.now)
    && (forall id :: id in w.judged ==> id in w.born && w.judged[id] <= w.now && w.born[id].startedAt + w.ttl < w.judged[id])
  }

  /** What the sessions, snapshots and files say. */
  ghost predicate Maps(w: World) {
    Faithful(w) && Ordered(w) && TimesInv(w)
  }

  /** What the history says. */
  ghost predicate Past(w: World) {
    Drawn(w) && DoomedOld(w) && Apart(w) && SpawnInv(w) && Prior(w)
  }

  ghost predicate Inv(w: World) {
    Maps(w) && Past(w) && Remembered(w) && StarterInv(w) && DownInv(w)
  }

  // ---------- what events keep ----------

  /** What is past stays as it is: ends, judgements and draws noted once are never noted anew. */
  ghost predicate Later(w: World, w': World) {
    && w'.ttl == w.ttl && w'.now >= w.now
    && (forall id :: id in w.born ==> id in w'.born && w'.born[id] == w.born[id])
    && (forall id :: id in w.blind ==> id in w'.blind && w'.blind[id] == w.blind[id])
    && (forall id :: id in w.ends ==> id in w'.ends && w'.ends[id] == w.ends[id])
    && (forall id :: id in w.judged ==> id in w'.judged && w'.judged[id] == w.judged[id])
  }

  lemma SpentStays(w: World, w': World, id: Id, at: nat, later: nat)
    requires Later(w, w') && id in w.born && Spent(w, id, at) && at <= later
    ensures id in w'.born && Spent(w', id, later)
  {
  }

  lemma EndStays(w: World, w': World, id: Id)
    requires Later(w, w') && EndedBefore(w, id, w.now)
    ensures EndedBefore(w', id, w'.now)
  {
  }

  lemma FollowsStays(w: World, w': World, a: Id, b: Id)
    requires Later(w, w') && a in w.born && b in w.born && Follows(w, a, b)
    ensures Follows(w', a, b)
  {
  }

  lemma ApartStays(w: World, w': World, n: nat)
    requires Apart(w) && Drawn(w) && Later(w, w') && n == |w.reserved| <= |w'.reserved| && w'.reserved[..n] == w.reserved
    ensures forall i, j | 0 <= i < j < n :: Follows(w', w'.reserved[i], w'.reserved[j])
  {
    hide Later, Follows;
    forall i, j | 0 <= i < j < n
      ensures Follows(w', w'.reserved[i], w'.reserved[j])
    {
      assert w'.reserved[i] == w.reserved[i] && w'.reserved[j] == w.reserved[j];
      assert w.reserved[i] in w.reserved && w.reserved[j] in w.reserved;
      FollowsStays(w, w', w.reserved[i], w.reserved[j]);
    }
  }

  lemma SpawnsStay(w: World, w': World)
    requires SpawnInv(w) && Drawn(w) && Later(w, w') && w'.spawned == w.spawned
    requires forall id :: id in w.reserved ==> id in w'.reserved
    ensures SpawnInv(w')
  {
    hide Later, Follows;
    forall i, j | 0 <= i < j < |w'.spawned|
      ensures w'.spawned[i] != w'.spawned[j] && Follows(w', w'.spawned[i], w'.spawned[j])
    {
      assert w.spawned[i] in w.reserved && w.spawned[j] in w.reserved;
      FollowsStays(w, w', w.spawned[i], w.spawned[j]);
    }
  }

  lemma DoomedStays(w: World, w': World)
    requires DoomedOld(w) && Later(w, w')
    requires forall id :: id in w'.doomed && id !in w.doomed ==> id in w'.born && EndedBefore(w', id, w'.now)
    ensures DoomedOld(w')
  {
    hide EndedBefore;
    forall id | id in w'.doomed
      ensures id in w'.born && EndedBefore(w', id, w'.now)
    {
      if id in w.doomed {
        EndStays(w, w', id);
      }
    }
  }

  lemma PriorStays(w: World, w': World)
    requires Prior(w) && Drawn(w) && Later(w, w') && w'.reserved == w.reserved
    requires w'.starter.Preparing? ==> w'.starter == w.starter && w.starter.id in w.born
    ensures Prior(w')
  {
    hide Later, Follows;
    if w'.starter.Preparing? {
      forall a | a in w'.reserved
        ensures Follows(w', a, w'.starter.id)
      {
        FollowsStays(w, w', a, w.starter.id);
      }
    }
  }

  /** No new reservation, start or draw: only what is newly doomed must have ended long ago. */
  lemma PastKept(w: World, w': World)
    requires Past(w) && Later(w, w')
    requires w'.born == w.born && w'.blind == w.blind && w'.reserved == w.reserved && w'.spawned == w.spawned
    requires w'.starter.Preparing? ==> w'.starter == w.starter && w.starter.id in w.born
    requires forall id :: id in w'.doomed && id !in w.doomed ==> id in w.born && EndedBefore(w', id, w'.now)
    ensures Past(w')
  {
    hide Later, EndedBefore, Follows;
    assert w'.reserved[..|w.reserved|] == w.reserved;
    ApartStays(w, w', |w.reserved|);
    SpawnsStay(w, w');
    DoomedStays(w, w');
    PriorStays(w, w');
  }

  /** A reservation that was held is held still, or spent now. */
  lemma RememberedKept(w: World, w': World)
    requires Remembered(w) && Later(w, w') && w'.reserved == w.reserved && Drawn(w)
    requires forall id :: id in w.reserved && id in w.x.disk && (w.up ==> id in w.x.sessions || id in w.lost) ==>
               (id in w'.born && Spent(w', id, w'.now))
               || (id in w'.x.disk && (w'.up ==> id in w'.x.sessions || id in w'.lost))
    ensures Remembered(w')
  {
    hide Spent;
    forall id | id in w'.reserved
      ensures id in w'.born && (Spent(w', id, w'.now) || (id in w'.x.disk && (w'.up ==> id in w'.x.sessions || id in w'.lost)))
    {
      if Spent(w, id, w.now) {
        assert Later(w, w') by { hide Later; }
        SpentStays(w, w', id, w.now, w'.now);
      }
    }
  }

  lemma SoundStays(w: World, w': World, id: Id, s: Session)
    requires Later(w, w') && Sound(w, id, s)
    ensures Sound(w', id, s)
  {
  }

  /** A map none of whose entries is new, or all of whose new entries are sound. */
  lemma AllSoundKept(w: World, w': World, m: map<Id, Session>, m': map<Id, Session>)
    requires Later(w, w') && AllSound(w, m)
    requires forall id :: id in m' ==> (id in m && m'[id] == m[id]) || Sound(w', id, m'[id])
    ensures AllSound(w', m')
  {
    hide Sound, Later;
    forall id | id in m'
      ensures Sound(w', id, m'[id])
    {
      if id in m && m'[id] == m[id] {
        SoundStays(w, w', id, m[id]);
      }
    }
  }

  lemma FaithfulKept(w: World, w': World)
    requires Faithful(w) && Later(w, w')
    requires forall id :: id in w'.x.sessions ==> (id in w.x.sessions && w'.x.sessions[id] == w.x.sessions[id]) || Sound(w', id, w'.x.sessions[id])
    requires forall id :: id in w'.x.disk ==> (id in w.x.disk && w'.x.disk[id] == w.x.disk[id]) || Sound(w', id, w'.x.disk[id])
    requires forall id :: id in w'.pending ==> (id in w.pending && w'.pending[id] == w.pending[id]) || Sound(w', id, w'.pending[id])
    ensures Faithful(w')
  {
    hide Later, Sound, AllSound;
    AllSoundKept(w, w', w.x.sessions, w'.x.sessions);
    AllSoundKept(w, w', w.x.disk, w'.x.disk);
    AllSoundKept(w, w', w.pending, w'.pending);
  }

  /** A state a session in memory may take next. */
  ghost predicate Advance(w: World, id: Id, s: Session) {
    && id in w.x.sessions && id in w.born && Leads(w.x.sessions[id].status, s.status) && Grown(w.born[id], s, w.now)
    && (s.finishedAt.Some? ==> s.finishedAt == Some(w.now) || s.finishedAt == w.x.sessions[id].finishedAt)
  }

  lemma SetSessionSteps(w: World, id: Id, s: Session)
    requires Maps(w) && Advance(w, id, s)
    ensures Later(w, SetSession(w, id, s)) && Sound(SetSession(w, id, s), id, s) && TimesInv(SetSession(w, id, s))
  {
    hide Ordered, Leads;
    assert Sound(w, id, w.x.sessions[id]);
  }

  lemma SetSessionOrdered(w: World, id: Id, s: Session)
    requires Ordered(w) && id in w.x.sessions && Leads(w.x.sessions[id].status, s.status)
    ensures Ordered(SetSession(w, id, s))
  {
  }

  /** One session becomes a later state of itself. */
  lemma SetSessionMaps(w: World, id: Id, s: Session)
    requires Maps(w) && Advance(w, id, s)
    ensures Later(w, SetSession(w, id, s)) && Maps(SetSession(w, id, s))
  {
    SetSessionSteps(w, id, s);
    SetSessionOrdered(w, id, s);
    hide Later, Sound, Ordered, TimesInv, Leads;
    FaithfulKept(w, SetSession(w, id, s));
  }

  // ---------- each event keeps the invariant ----------

  lemma UnheldIsSpent(w: World, key: Key, a: Id)
    requires Faithful(w) && Remembered(w) && w.up && !Holds(w.x, key) && a in w.reserved && a in w.born && w.born[a].key == key
    ensures a in w.lost || Spent(w, a, w.now)
  {
    hide Spent;
  }

  lemma ExecPast(w: World, id: Id, key: Key, hash: Hash)
    requires Maps(w) && Past(w) && Remembered(w) && Enabled(w, Exec(id, key, hash)) && !Holds(w.x, key)
    ensures Past(DoExec(w, id, key, hash))
  {
    var w' := DoExec(w, id, key, hash);
    assert Later(w, w');
    forall a | a in w.reserved
      ensures Follows(w', a, id)
    {
      if w.born[a].key == key {
        UnheldIsSpent(w, key, a);
        if a !in w.lost {
          SpentStays(w, w', a, w.now, w.now);
        }
      }
    }
    hide Later;
    assert w'.reserved[..|w.reserved|] == w.reserved;
    ApartStays(w, w', |w.reserved|);
    SpawnsStay(w, w');
    DoomedStays(w, w');
    hide Follows, Later, Remembered, Maps, Holds;
  }

  lemma ExecKeepsInv(w: World, id: Id, key: Key, hash: Hash)
    requires Inv(w) && Enabled(w, Exec(id, key, hash))
    ensures Inv(DoExec(w, id, key, hash))
  {
    if !Holds(w.x, key) {
      var w' := DoExec(w, id, key, hash);
      ExecPast(w, id, key, hash);
      ExecMaps(w, id, key, hash);
      hide Past, Holds;
      assert StarterInv(w') by { hide Ordered, Leads, Remembered, TimesInv; }
      hide Maps, StarterInv, Spent;
      RememberedKept(w, w');
    }
  }

  lemma ExecMaps(w: World, id: Id, key: Key, hash: Hash)
    requires Maps(w) && Drawn(w) && Enabled(w, Exec(id, key, hash)) && !Holds(w.x, key)
    ensures Later(w, DoExec(w, id, key, hash)) && Drawn(w) && Maps(DoExec(w, id, key, hash))
  {
    var w' := DoExec(w, id, key, hash);
    assert Later(w, w');
    assert TimesInv(w') by { hide Faithful, Ordered, Later; }
    hide Later, Sound, Leads, TimesInv, Holds;
    FaithfulKept(w, w');
  }

  lemma ReserveMaps(w: World, write: Write)
    requires Maps(w) && StarterInv(w) && w.starter.Preparing?
    ensures Maps(DoReserve(w, w.starter.id, write))
  {
    var id, w' := w.starter.id, DoReserve(w, w.starter.id, write);
    assert Later(w, w') && Sound(w', id, w.born[id]) by { hide Ordered, Leads, Faithful; }
    ReserveOrdered(w, write);
    hide Later, Sound, Leads, Ordered;
    FaithfulKept(w, w');
  }

  lemma ReserveOrdered(w: World, write: Write)
    requires Ordered(w) && StarterInv(w) && w.starter.Preparing?
    ensures Ordered(DoReserve(w, w.starter.id, write))
  {
    hide Leads;
    assert forall status: Status :: Leads(status, status) by { LeadsSelf(); }
  }

  lemma LeadsSelf()
    ensures forall status: Status :: Leads(status, status)
  {
  }

  lemma ReservePast(w: World, write: Write)
    requires Past(w) && StarterInv(w) && w.starter.Preparing?
    ensures Past(DoReserve(w, w.starter.id, write))
  {
    hide Leads, EndedBefore, Spent;
    var id, w' := w.starter.id, DoReserve(w, w.starter.id, write);
    assert Later(w, w');
    hide Later, StarterInv;
    assert w'.reserved[..|w.reserved|] == w.reserved;
    ApartStays(w, w', |w.reserved|);
    forall i, j | 0 <= i < j < |w'.reserved|
      ensures Follows(w', w'.reserved[i], w'.reserved[j])
    {
      if j == |w.reserved| {
        assert w'.reserved[i] in w.reserved;
        FollowsStays(w, w', w'.reserved[i], id);
      }
    }
    hide Follows;
    SpawnsStay(w, w');
    DoomedStays(w, w');
  }

  lemma ReserveRemembered(w: World, write: Write)
    requires Remembered(w) && Drawn(w) && StarterInv(w) && w.starter.Preparing?
    ensures Remembered(DoReserve(w, w.starter.id, write))
  {
    hide Leads, Spent;
    var id, w' := w.starter.id, DoReserve(w, w.starter.id, write);
    assert Later(w, w');
    forall a | a in w'.reserved
      ensures a in w'.born && (Spent(w', a, w'.now) || (a in w'.x.disk && (w'.up ==> a in w'.x.sessions || a in w'.lost)))
    {
      assert a == id || a in w.reserved;
      if a in w.reserved && Spent(w, a, w.now) {
        SpentStays(w, w', a, w.now, w.now);
      }
    }
  }

  lemma ReserveKeepsInv(w: World, write: Write)
    requires Inv(w) && w.starter.Preparing?
    ensures w.starter.id in w.born && Inv(DoReserve(w, w.starter.id, write))
  {
    ReserveMaps(w, write);
    ReservePast(w, write);
    assert Drawn(w);
    ReserveRemembered(w, write);
    hide Past, Remembered, Maps;
  }

  /** A session that changes to a later state of itself. */
  lemma SetSessionKeepsInv(w: World, id: Id, s: Session)
    requires Inv(w) && Advance(w, id, s) && w.x.sessions[id].status != Starting
    ensures Inv(SetSession(w, id, s))
  {
    SetSessionMaps(w, id, s);
    hide Maps, Leads, Grown, Later, Spent, DoomedOld, Apart, SpawnInv, Prior;
    SetSessionPast(w, id, s);
    hide Past;
    SetSessionRemembers(w, id, s);
    hide Remembered;
  }

  lemma SetSessionPast(w: World, id: Id, s: Session)
    requires Inv(w) && id in w.x.sessions && Later(w, SetSession(w, id, s))
    ensures Past(SetSession(w, id, s))
  {
    hide Maps, Later, Remembered, DoomedOld, Apart, SpawnInv;
    PastKept(w, SetSession(w, id, s));
  }

  lemma SetSessionRemembers(w: World, id: Id, s: Session)
    requires Inv(w) && id in w.x.sessions && Later(w, SetSession(w, id, s))
    ensures Remembered(SetSession(w, id, s))
  {
    hide Maps, Later;
    assert Drawn(w);
    hide Past, Spent;
    RememberedKept(w, SetSession(w, id, s));
  }

  lemma LaunchPast(w: World, w': World, started: bool)
    requires Past(w) && StarterInv(w) && w.starter.Launching? && Later(w, w')
    requires w'.born == w.born && w'.blind == w.blind && w'.reserved == w.reserved && w'.doomed == w.doomed && w'.starter == Waiting
    requires w'.spawned == if started then w.spawned + [w.starter.id] else w.spawned
    ensures Past(w')
  {
    hide Later, Spent, EndedBefore, Leads, Follows;
    assert w'.reserved[..|w.reserved|] == w.reserved;
    ApartStays(w, w', |w.reserved|);
    DoomedStays(w, w');
    LaunchSpawns(w, w', started);
    hide Apart, DoomedOld;
  }

  lemma LaunchSpawns(w: World, w': World, started: bool)
    requires Past(w) && StarterInv(w) && w.starter.Launching? && Later(w, w')
    requires w'.born == w.born && w'.blind == w.blind && w'.reserved == w.reserved
    requires w'.spawned == if started then w.spawned + [w.starter.id] else w.spawned
    ensures SpawnInv(w')
  {
    hide Later, Follows, DoomedOld, Apart, Prior;
    forall i, j | 0 <= i < j < |w'.spawned|
      ensures w'.spawned[i] != w'.spawned[j] && Follows(w', w'.spawned[i], w'.spawned[j])
    {
      assert w'.spawned[i] == w.spawned[i];
      if j < |w.spawned| {
        assert w'.spawned[j] == w.spawned[j];
      } else {
        StarterFollows(w, i);
      }
      FollowsStays(w, w', w'.spawned[i], w'.spawned[j]);
    }
  }

  lemma StarterFollows(w: World, i: nat)
    requires Past(w) && StarterInv(w) && w.starter.Launching? && i < |w.spawned|
    ensures w.spawned[i] != w.starter.id && Follows(w, w.spawned[i], w.starter.id)
  {
    hide Follows, Prior, DoomedOld;
    var k :| 0 <= k < |w.reserved| && w.reserved[k] == w.spawned[i];
    assert w.spawned[i] in w.spawned;
    assert k < |w.reserved| - 1;
  }

  lemma LaunchMaps(w: World, started: bool)
    requires Maps(w) && Enabled(w, Launch(started)) && StarterInv(w)
    ensures Maps(DoLaunch(w, w.starter.id, started)) && Later(w, DoLaunch(w, w.starter.id, started))
  {
    var id, w' := w.starter.id, DoLaunch(w, w.starter.id, started);
    var s := LaunchSpec(w.x, id, started, w.now).sessions[id];
    LaunchAdvances(w, started);
    hide Maps, Advance, StarterInv;
    SetSessionMaps(w, id, s);
    assert w' == SetSession(w, id, s).(starter := Waiting, spawned := w'.spawned);
    MapsIgnoreStarter(SetSession(w, id, s), w');
  }

  lemma LaunchKeepsInv(w: World, started: bool)
    requires Inv(w) && Enabled(w, Launch(started))
    ensures Inv(DoLaunch(w, w.starter.id, started))
  {
    hide Maps, Noted, Later, Leads, Spent;
    var w' := DoLaunch(w, w.starter.id, started);
    LaunchMaps(w, started);
    assert Drawn(w);
    LaunchPast(w, w', started) by { hide Remembered, Past; }
    hide Past;
    LaunchRemembers(w, started);
    hide Remembered, Drawn, ReserveSpec;
  }

  lemma LaunchRemembers(w: World, started: bool)
    requires Remembered(w) && Drawn(w) && Enabled(w, Launch(started)) && Later(w, DoLaunch(w, w.starter.id, started))
    ensures Remembered(DoLaunch(w, w.starter.id, started))
  {
    hide Spent, Later, Noted;
    RememberedKept(w, DoLaunch(w, w.starter.id, started));
  }

  lemma LaunchAdvances(w: World, started: bool)
    requires Maps(w) && Enabled(w, Launch(started)) && StarterInv(w)
    ensures Advance(w, w.starter.id, LaunchSpec(w.x, w.starter.id, started, w.now).sessions[w.starter.id])
  {
    assert Sound(w, w.starter.id, w.x.sessions[w.starter.id]);
    hide Ordered, TimesInv;
  }

  lemma MapsIgnoreStarter(w: World, w': World)
    requires Maps(w) && w' == w.(starter := w'.starter, spawned := w'.spawned)
    ensures Maps(w')
  {
    assert Later(w, w');
    hide Later, Sound, Leads;
    FaithfulKept(w, w');
  }

  lemma StopKeepsInv(w: World, id: Id, status: Status, gone: bool)
    requires Inv(w) && Enabled(w, Stop(id, status, gone))
    ensures Inv(SetSession(w, id, Stopped(w.x.sessions[id], status, gone, w.now)))
  {
    if w.x.sessions[id].status == Running {
      assert Sound(w, id, w.x.sessions[id]);
      assert Advance(w, id, Stopped(w.x.sessions[id], status, gone, w.now)) by { hide Past, Remembered, Ordered, TimesInv, StarterInv; }
      hide Inv;
      SetSessionKeepsInv(w, id, Stopped(w.x.sessions[id], status, gone, w.now));
    } else {
      assert w.x.sessions[id := w.x.sessions[id]] == w.x.sessions;
      assert Noted(w.ends, id, w.x.sessions[id]) == w.ends;
    }
  }

  lemma EndKeepsInv(w: World, id: Id, waitFailed: bool)
    requires Inv(w) && Enabled(w, End(id, waitFailed))
    ensures Inv(SetSession(w, id, Ended(w.x.sessions[id], waitFailed, w.now)))
  {
    assert Sound(w, id, w.x.sessions[id]);
    assert Advance(w, id, Ended(w.x.sessions[id], waitFailed, w.now)) by { hide Past, Remembered, Ordered, TimesInv, StarterInv; }
    hide Inv;
    SetSessionKeepsInv(w, id, Ended(w.x.sessions[id], waitFailed, w.now));
  }

  /** Events that change neither history nor sessions' ends. */
  lemma QuietKeepsInv(w: World, w': World)
    requires Inv(w) && Maps(w') && StarterInv(w') && DownInv(w') && Later(w, w')
    requires w'.born == w.born && w'.blind == w.blind && w'.reserved == w.reserved && w'.spawned == w.spawned
    requires w'.starter.Preparing? ==> w'.starter == w.starter
    requires w'.doomed <= w.doomed && w'.up == w.up && w'.lost == w.lost
    requires w'.x.disk.Keys == w.x.disk.Keys && w'.x.sessions.Keys == w.x.sessions.Keys
    ensures Inv(w')
  {
    hide Later, Maps, Spent;
    PastKept(w, w');
    assert Drawn(w);
    hide Past;
    RememberedKept(w, w');
  }

  lemma ReturnKeepsInv(w: World)
    requires Inv(w)
    ensures Inv(w.(starter := Idle))
  {
    var w' := w.(starter := Idle);
    MapsIgnoreStarter(w, w');
    hide Maps, Past, Remembered;
    QuietKeepsInv(w, w');
  }

  lemma SnapshotKeepsInv(w: World, id: Id)
    requires Inv(w) && Enabled(w, Snapshot(id))
    ensures Inv(w.(pending := w.pending[id := w.x.sessions[id]]))
  {
    var w' := w.(pending := w.pending[id := w.x.sessions[id]]);
    SnapshotMaps(w, id);
    hide Maps, Past, Remembered;
    QuietKeepsInv(w, w');
  }

  lemma SnapshotMaps(w: World, id: Id)
    requires Maps(w) && Enabled(w, Snapshot(id))
    ensures Maps(w.(pending := w.pending[id := w.x.sessions[id]]))
  {
    var w' := w.(pending := w.pending[id := w.x.sessions[id]]);
    assert Later(w, w');
    assert Ordered(w') by { hide Faithful, TimesInv, Later; }
    assert Sound(w, id, w.x.sessions[id]);
    SoundStays(w, w', id, w.x.sessions[id]);
    hide Later, Sound, Leads, Ordered;
    FaithfulKept(w, w');
  }

  lemma StoreMaps(w: World, id: Id, ok: bool)
    requires Maps(w) && id in w.pending
    ensures Maps(DoStore(w, id, ok))
  {
    var w' := DoStore(w, id, ok);
    assert Later(w, w');
    assert Ordered(w') by { hide Faithful, TimesInv, Later; }
    assert Sound(w, id, w.pending[id]);
    SoundStays(w, w', id, w.pending[id]);
    hide Later, Sound, Leads, Ordered;
    FaithfulKept(w, w');
  }

  lemma StoreKeepsInv(w: World, id: Id, ok: bool)
    requires Inv(w) && id in w.pending
    ensures Inv(DoStore(w, id, ok))
  {
    var w' := DoStore(w, id, ok);
    StoreMaps(w, id, ok);
    hide Maps, Past, Remembered;
    QuietKeepsInv(w, w');
  }

  lemma TickKeepsInv(w: World, ns: nat)
    requires Inv(w)
    ensures Inv(w.(now := w.now + ns))
  {
    var w' := w.(now := w.now + ns);
    assert Later(w, w') && TimesInv(w');
    hide Later, Sound, Leads, Past, Remembered;
    FaithfulKept(w, w');
    assert Ordered(w');
    hide Faithful, Ordered, TimesInv;
    QuietKeepsInv(w, w');
  }

  /** Entries that leave break nothing. */
  lemma FewerMaps(w: World, w': World)
    requires Maps(w) && Later(w, w') && w'.now == w.now && w'.ends == w.ends && w'.judged == w.judged && w'.born == w.born
    requires forall id :: id in w'.x.sessions ==> id in w.x.sessions && w'.x.sessions[id] == w.x.sessions[id]
    requires forall id :: id in w'.x.disk ==> id in w.x.disk && w'.x.disk[id] == w.x.disk[id]
    requires forall id :: id in w'.pending ==> id in w.pending && w'.pending[id] == w.pending[id]
    ensures Maps(w')
  {
    assert TimesInv(w') by { hide Faithful, Ordered; }
    hide Later, Sound, Leads;
    FaithfulKept(w, w');
  }

  lemma CleanupKeepsInv(w: World)
    requires Inv(w) && w.up
    ensures Inv(DoCleanup(w))
  {
    var w' := DoCleanup(w);
    assert Later(w, w') && Drawn(w);
    FewerMaps(w, w');
    forall id | id in w.x.sessions && id !in w'.x.sessions
      ensures id in w.born && EndedBefore(w', id, w'.now) && Spent(w', id, w'.now)
    {
      hide Past, Remembered, Leads, Ordered;
      assert id in w.x.sessions && Outlived(w.x.sessions[id], w.now, w.ttl);
    }
    assert StarterInv(w') by { hide Past, Remembered, Maps; }
    hide Maps, Later, Kept, EndedBefore, Outlived;
    PastKept(w, w');
    hide Past, Spent;
    RememberedKept(w, w');
  }

  lemma RemoveKeepsInv(w: World, id: Id, ok: bool)
    requires Inv(w) && id in w.doomed
    ensures Inv(DoRemove(w, id, ok))
  {
    var w' := DoRemove(w, id, ok);
    assert Later(w, w') && Drawn(w) && id in w.born && EndedBefore(w', id, w'.now);
    FewerMaps(w, w');
    hide Maps, Later, EndedBefore;
    PastKept(w, w');
    hide Past;
    RememberedKept(w, w');
  }

  lemma CrashKeepsInv(w: World)
    requires Inv(w)
    ensures Inv(DoCrash(w))
  {
    var w' := DoCrash(w);
    assert Later(w, w') && Drawn(w);
    FewerMaps(w, w');
    hide Maps, Later, EndedBefore;
    PastKept(w, w');
    hide Past, Spent;
    RememberedKept(w, w');
  }

  // ---------- restart ----------

  /** What a restart makes of one file, and what the session in memory then is. */
  ghost predicate Booted(before: map<Id, Session>, x: Executor, id: Id, now: nat, ttl: nat, boot: Boot)
    requires id in before
  {
    if id in boot.unreadable then id !in x.sessions && id in x.disk && x.disk[id] == before[id]
    else if Stale(before[id], now, ttl) then
      id !in x.sessions && (id in x.disk <==> id in boot.stuck) && (id in x.disk ==> x.disk[id] == before[id])
    else
      var s := Restored(before[id], id in boot.alive, now);
      id in x.sessions && x.sessions[id] == s && id in x.disk && x.disk[id] == if id in boot.unwritable then before[id] else s
  }

  /** One record, met for the first time; the others stay as they are. */
  lemma RestoreOneDecides(before: map<Id, Session>, x: Executor, id: Id, now: nat, ttl: nat, boot: Boot)
    requires id !in x.sessions && (id in x.disk <==> id in before) && (id in before ==> x.disk[id] == before[id])
    ensures var y := RestoreOne(x, id, now, ttl, boot);
            && (id in before ==> Booted(before, y, id, now, ttl, boot))
            && y.disk.Keys <= x.disk.Keys && y.sessions.Keys <= x.sessions.Keys + x.disk.Keys * {id}
            && (forall a :: a != id ==> (a in y.disk <==> a in x.disk) && (a in y.sessions <==> a in x.sessions))
            && (forall a :: a != id && a in x.disk ==> y.disk[a] == x.disk[a])
            && (forall a :: a != id && a in x.sessions ==> y.sessions[a] == x.sessions[a])
  {
    hide Stale, Restored;
  }

  /** Restoring decides each record on its own: kept and loaded, expired and removed, or skipped as unreadable. */
  lemma {:induction false} RestoreDecidesEach(x: Executor, order: seq<Id>, now: nat, ttl: nat, boot: Boot)
    requires x.sessions == map[] && forall i, j | 0 <= i < j < |order| :: order[i] != order[j]
    ensures var y := RestoreSpec(x, order, now, ttl, boot);
            && (forall id :: id in x.disk && id in order ==> Booted(x.disk, y, id, now, ttl, boot))
            && (forall id :: id in x.disk && id !in order ==> id in y.disk && y.disk[id] == x.disk[id])
            && y.disk.Keys <= x.disk.Keys && forall id :: id in y.sessions ==> id in x.disk && id in order
    decreases |order|
  {
    hide RestoreOne, Stale, Restored;
    if |order| > 0 {
      var init, last := order[..|order| - 1], order[|order| - 1];
      RestoreDecidesEach(x, init, now, ttl, boot);
      assert order == init + [last];
      assert last !in init;
      RestoreOneDecides(x.disk, RestoreSpec(x, init, now, ttl, boot), last, now, ttl, boot);
    }
  }

  /** Each record was decided, and nothing else is in memory or on disk. */
  ghost predicate AllBooted(w: World, w': World, boot: Boot) {
    && (forall id :: id in w.x.disk ==> Booted(w.x.disk, w'.x, id, w.now, w.ttl, boot))
    && w'.x.disk.Keys <= w.x.disk.Keys && w'.x.sessions.Keys <= w.x.disk.Keys
  }

  lemma RestartBoots(w: World, order: seq<Id>, boot: Boot)
    requires DownInv(w) && Enabled(w, Restart(order, boot))
    ensures AllBooted(w, DoRestart(w, order, boot), boot)
  {
    RestoreDecidesEach(w.x, order, w.now, w.ttl, boot);
    hide RestoreSpec, Stale, Restored, RestartEnds, RestartJudged, Booted;
  }

  /** What a restart made of one session. */
  lemma BootedOne(w: World, w': World, boot: Boot, id: Id)
    requires AllBooted(w, w', boot)
    ensures id in w.x.disk ==> Booted(w.x.disk, w'.x, id, w.now, w.ttl, boot)
    ensures id in w'.x.disk || id in w'.x.sessions ==> id in w.x.disk
  {
    hide Booted;
  }

  lemma RestartLater(w: World, order: seq<Id>, boot: Boot)
    ensures Later(w, DoRestart(w, order, boot))
  {
    hide RestoreSpec, Stale;
  }

  /** What a record becomes is sound: an end it is given is given now, and noted. */
  lemma RestoredSound(w: World, order: seq<Id>, boot: Boot, id: Id)
    requires Maps(w) && id in w.x.disk && DoRestart(w, order, boot).x.sessions.Keys <= w.x.disk.Keys
    requires var w' := DoRestart(w, order, boot);
             id in w'.x.sessions && w'.x.sessions[id] == Restored(w.x.disk[id], id in boot.alive, w.now)
    ensures var w' := DoRestart(w, order, boot); Sound(w', id, w'.x.sessions[id])
  {
    hide RestoreSpec, Ordered, Leads, Stale, RestartJudged;
    var w' := DoRestart(w, order, boot);
    assert Sound(w, id, w.x.disk[id]);
    assert id in w.ends ==> w.ends[id] <= w.now;
  }

  lemma RestartTimes(w: World, order: seq<Id>, boot: Boot)
    requires Maps(w) && AllBooted(w, DoRestart(w, order, boot), boot)
    requires forall id :: id in DoRestart(w, order, boot).x.sessions ==>
               Sound(DoRestart(w, order, boot), id, DoRestart(w, order, boot).x.sessions[id])
    ensures TimesInv(DoRestart(w, order, boot))
  {
    hide RestoreSpec, Ordered, Leads, Booted;
    var w' := DoRestart(w, order, boot);
    forall id | id in w'.ends
      ensures id in w'.born && w'.born[id].startedAt <= w'.ends[id] <= w'.now
    {
      if id !in w.ends {
        assert Sound(w', id, w'.x.sessions[id]);
      }
    }
    forall id | id in w'.judged
      ensures id in w'.born && w'.judged[id] <= w'.now && w'.born[id].startedAt + w'.ttl < w'.judged[id]
    {
      if id !in w.judged {
        assert Sound(w, id, w.x.disk[id]);
      }
    }
  }

  lemma RestartOrdered(w: World, w': World, boot: Boot)
    requires AllBooted(w, w', boot) && w'.pending == map[]
    ensures Ordered(w')
  {
    hide Stale;
    forall id | id in w'.x.disk && id in w'.x.sessions
      ensures Leads(w'.x.disk[id].status, w'.x.sessions[id].status)
    {
      assert Booted(w.x.disk, w'.x, id, w.now, w.ttl, boot);
    }
  }

  lemma RestartMaps(w: World, order: seq<Id>, boot: Boot)
    requires Maps(w) && DownInv(w) && !w.up && AllBooted(w, DoRestart(w, order, boot), boot)
    ensures Maps(DoRestart(w, order, boot))
  {
    var w' := DoRestart(w, order, boot);
    RestartLater(w, order, boot);
    RestartOrdered(w, w', boot);
    hide RestoreSpec, Restored, Stale, Sound, Later, Ordered, TimesInv, RestartEnds, RestartJudged;
    forall id | id in w'.x.sessions
      ensures Sound(w', id, w'.x.sessions[id])
    {
      assert Booted(w.x.disk, w'.x, id, w.now, w.ttl, boot);
      RestoredSound(w, order, boot, id);
    }
    forall id | id in w'.x.disk
      ensures w'.x.disk[id] == w.x.disk[id] || Sound(w', id, w'.x.disk[id])
    {
      assert Booted(w.x.disk, w'.x, id, w.now, w.ttl, boot);
    }
    RestartTimes(w, order, boot);
    FaithfulKept(w, w');
  }

  /** A record that a restart drops although it can read it is spent. */
  lemma DroppedIsSpent(w: World, order: seq<Id>, boot: Boot, id: Id)
    requires Maps(w) && id in w.x.disk && id !in boot.unreadable && Stale(w.x.disk[id], w.now, w.ttl)
    ensures var w' := DoRestart(w, order, boot); id in w'.born && Spent(w', id, w'.now)
  {
    hide RestoreSpec, Ordered, Leads;
    assert Sound(w, id, w.x.disk[id]);
    RestartLater(w, order, boot);
  }

  lemma RestartPast(w: World, order: seq<Id>, boot: Boot)
    requires Past(w) && StarterInv(w) && !w.up
    ensures Past(DoRestart(w, order, boot)) && Later(w, DoRestart(w, order, boot))
  {
    RestartLater(w, order, boot);
    hide RestoreSpec, RestartEnds, RestartJudged, Past, Later;
    PastKept(w, DoRestart(w, order, boot));
  }

  lemma RestartRemembers(w: World, order: seq<Id>, boot: Boot)
    requires Maps(w) && Remembered(w) && Drawn(w) && !w.up && Later(w, DoRestart(w, order, boot))
    requires AllBooted(w, DoRestart(w, order, boot), boot)
    ensures Remembered(DoRestart(w, order, boot))
  {
    var w' := DoRestart(w, order, boot);
    forall id | id in w.x.disk
      ensures (id in w'.born && Spent(w', id, w'.now)) || (id in w'.x.disk && (id in w'.x.sessions || id in w'.lost))
    {
      BootedOne(w, w', boot, id);
      hide AllBooted, RestoreSpec;
      if id !in boot.unreadable && Stale(w.x.disk[id], w.now, w.ttl) {
        DroppedIsSpent(w, order, boot, id);
      }
    }
    hide RestoreSpec, RestartEnds, RestartJudged, Maps, AllBooted, Spent, Later;
    RememberedKept(w, w');
  }

  lemma RestartKeepsInv(w: World, order: seq<Id>, boot: Boot)
    requires Inv(w) && Enabled(w, Restart(order, boot))
    ensures Inv(DoRestart(w, order, boot))
  {
    RestartBoots(w, order, boot);
    hide RestoreSpec, RestartEnds, RestartJudged, Maps, AllBooted, Remembered, Later;
    RestartMaps(w, order, boot);
    RestartPast(w, order, boot);
    assert Drawn(w);
    hide Past;
    RestartRemembers(w, order, boot);
  }

  lemma NextKeepsInv(w: World, e: Event)
    requires Inv(w)
    ensures Inv(Next(w, e))
  {
    hide Inv, DoExec, DoReserve, DoLaunch, DoStore, DoCleanup, DoRemove, DoRestart;
    if Enabled(w, e) {
      match e
      case Exec(id, key, hash) => ExecKeepsInv(w, id, key, hash);
      case Reserve(write) => ReserveKeepsInv(w, write);
      case Launch(started) => LaunchKeepsInv(w, started);
      case Return => ReturnKeepsInv(w);
      case Stop(id, status, gone) => StopKeepsInv(w, id, status, gone);
      case End(id, waitFailed) => EndKeepsInv(w, id, waitFailed);
      case Snapshot(id) => SnapshotKeepsInv(w, id);
      case Store(id, ok) => StoreKeepsInv(w, id, ok);
      case CleanupTick => CleanupKeepsInv(w);
      case RemoveDirectory(id, ok) => RemoveKeepsInv(w, id, ok);
      case Tick(ns) => TickKeepsInv(w, ns);
      case Crash => CrashKeepsInv(w);
      case Restart(order, boot) => RestartKeepsInv(w, order, boot);
    }
  }

  // ---------- main results ----------

  lemma {:induction false} RunKeepsInv(ttl: nat, events: seq<Event>)
    ensures Inv(Run(ttl, events))
    decreases |events|
  {
    if |events| > 0 {
      RunKeepsInv(ttl, events[..|events| - 1]);
      NextKeepsInv(Run(ttl, events[..|events| - 1]), events[|events| - 1]);
    }
  }

  /**
   * At most once: in any run of calls, failing writes and launches, stops, exits, cleanups, crashes
   * and restarts, two process starts belong to different sessions.  When they have the same key, the end
   * of the first session was recorded more than the TTL before the second began, or a restart had met the
   * first one's record without an end and more than the TTL after its start, or the last restart
   * before the second could not read that record.
   */
  lemma SpawnsApart(ttl: nat, events: seq<Event>, i: nat, j: nat)
    requires i < j < |Run(ttl, events).spawned|
    ensures var w := Run(ttl, events);
            var a, b := w.spawned[i], w.spawned[j];
            && a != b && a in w.born && b in w.born
            && (w.born[a].key == w.born[b].key ==>
                  || EndedBefore(w, a, w.born[b].startedAt) || JudgedBy(w, a, w.born[b].startedAt)
                  || (b in w.blind && a in w.blind[b]))
  {
    RunKeepsInv(ttl, events);
    var w := Run(ttl, events);
    assert w.spawned[i] in w.reserved && w.spawned[j] in w.reserved;
    assert Follows(w, w.spawned[i], w.spawned[j]);
  }

  lemma {:induction false} TtlIsFixed(ttl: nat, events: seq<Event>)
    ensures Run(ttl, events).ttl == ttl
    decreases |events|
  {
    hide Do, Enabled;
    if |events| > 0 {
      TtlIsFixed(ttl, events[..|events| - 1]);
    }
  }

  /**
   * A session is forgotten only more than the TTL after its end was recorded, unless a restart met its
   * record without an end and too old, or the last restart could not read it; a reservation whose
   * session never ended is held at any age.
   */
  lemma ForgottenOnlyAfterEnd(ttl: nat, events: seq<Event>, id: Id)
    requires var w := Run(ttl, events); w.up && id in w.reserved && id !in w.x.sessions
    ensures var w := Run(ttl, events);
            id in w.born && (EndedBefore(w, id, w.now) || JudgedBy(w, id, w.now) || id in w.lost)
  {
    RunKeepsInv(ttl, events);
  }

  /**
   * A running session is never forgotten, however old: in memory it outlasts everything but a crash,
   * and a record that says it runs comes back with every restart that can read it.
   */
  lemma RunningIsKept(ttl: nat, events: seq<Event>, e: Event, id: Id)
    ensures var w, w' := Run(ttl, events), Next(Run(ttl, events), e);
            && (w.up && id in w.x.sessions && w.x.sessions[id].status == Running && !e.Crash? ==> id in w'.x.sessions)
            && (id in w.x.disk && w.x.disk[id].status == Running && e.Restart? && Enabled(w, e) && id !in e.boot.unreadable
                ==> id in w'.x.sessions && w'.x.sessions[id].key == w.x.disk[id].key)
  {
    RunKeepsInv(ttl, events);
    var w := Run(ttl, events);
    hide Run, Next, Inv;
    RunningStays(w, e, id);
    if e.Restart? && Enabled(w, e) && id !in e.boot.unreadable {
      RunningComesBack(w, e.order, e.boot, id);
    }
  }

  lemma RunningStays(w: World, e: Event, id: Id)
    ensures w.up && id in w.x.sessions && w.x.sessions[id].status == Running && !e.Crash? ==> id in Next(w, e).x.sessions
  {
    hide DoRestart, Noted, Lists;
  }

  lemma RunningComesBack(w: World, order: seq<Id>, boot: Boot, id: Id)
    requires Inv(w) && Enabled(w, Restart(order, boot)) && id !in boot.unreadable
    ensures var w' := Next(w, Restart(order, boot));
            id in w.x.disk && w.x.disk[id].status == Running ==> id in w'.x.sessions && w'.x.sessions[id].key == w.x.disk[id].key
  {
    RestartBoots(w, order, boot);
    DoRestarts(w, order, boot);
    BootedOne(w, DoRestart(w, order, boot), boot, id);
    hide Maps, Past, Remembered, StarterInv, AllBooted, DoRestart, Do, Lists;
  }

  /**
   * While a session of the key is held, `execCommandOnce` only answers, and nothing changes: with a held session
   * of these arguments, or with a conflict when some held session has others.  With a single
   * held session it is a replay of that one exactly when the arguments are the same.
   */
  lemma KeyInUse(ttl: nat, events: seq<Event>, used: Id, now: nat, id: Id, hash: Hash, env: Env)
    requires var w := Run(ttl, events);
             && w.up && used in w.reserved
             && (used in w.x.sessions || (used !in w.lost && !EndedBefore(w, used, w.now) && used !in w.judged))
    requires forall i :: i in Run(ttl, events).x.sessions ==> i in env.order
    ensures var w := Run(ttl, events);
            used in w.x.sessions && used in w.born &&
            var (x, outcome) := ExecSpec(w.x, now, id, w.born[used].key, hash, env);
            && x == w.x && Next(w, Exec(id, w.born[used].key, hash)) == w
            && match outcome
               case Replay(found) => HeldWith(w, w.born[used].key, found) && w.born[found].hash == hash
               case Conflict => exists other :: HeldWith(w, w.born[used].key, other) && w.born[other].hash != hash
               case _ => false
    ensures var w := Run(ttl, events);
            (forall other :: HeldWith(w, w.born[used].key, other) ==> other == used) ==>
              ExecSpec(w.x, now, id, w.born[used].key, hash, env).1 == if hash == w.born[used].hash then Replay(used) else Conflict
  {
    RunKeepsInv(ttl, events);
    var w := Run(ttl, events);
    var key := w.born[used].key;
    assert used in w.x.sessions && w.x.sessions[used].key == key;
    FindsHolder(w.x.sessions, key, env.order, used);
    var found := Find(w.x.sessions, key, env.order).value;
    assert Sound(w, found, w.x.sessions[found]);
    assert HeldWith(w, key, found);
    hide Inv, Sound, Run, Next, Find;
  }

  /** A held session of the key. */
  ghost predicate HeldWith(w: World, key: Key, id: Id) {
    id in w.x.sessions && id in w.born && w.x.sessions[id].key == key
  }

  /**
   * A call whose key nobody holds: its record is on disk before its process starts, and it starts exactly when that
   * write succeeded and the launch does.  The undisturbed call is the run of its three steps.
   */
  lemma FreeKeyStarts(ttl: nat, events: seq<Event>, id: Id, key: Key, hash: Hash, env: Env)
    requires var w := Run(ttl, events); w.up && w.starter == Idle && id !in w.born && !Holds(w.x, key)
    ensures var w, w' := Run(ttl, events), Run(ttl, events + [Exec(id, key, hash), Reserve(env.write), Launch(env.started)]);
            var (x, outcome) := ExecSpec(w.x, w.now, id, key, hash, env);
            && w'.x == x && outcome == (if env.write == Done then Launched(env.started) else IoError)
            && w'.spawned == (if env.write == Done && env.started then w.spawned + [id] else w.spawned)
            && Run(ttl, events + [Exec(id, key, hash), Reserve(env.write)]).spawned == w.spawned
            && Run(ttl, events + [Exec(id, key, hash), Reserve(env.write)]).x.disk == x.disk
            && x.disk == (if env.write == Refused then w.x.disk else w.x.disk[id := Session(key, hash, w.now, Starting, None)])
            && x.sessions == (if env.write != Done then w.x.sessions
                              else w.x.sessions[id := if env.started then Session(key, hash, w.now, Running, None)
                                                      else Session(key, hash, w.now, Failed, Some(w.now))])
  {
    var w := Run(ttl, events);
    var tail := [Exec(id, key, hash), Reserve(env.write), Launch(env.started)];
    RunSnoc(ttl, events, tail[0]);
    RunSnoc(ttl, events + [tail[0]], tail[1]);
    RunSnoc(ttl, events + [tail[0], tail[1]], tail[2]);
    assert events + [tail[0]] + [tail[1]] == events + [tail[0], tail[1]];
    assert events + [tail[0], tail[1]] + [tail[2]] == events + tail;
    FindsNobody(w.x.sessions, key, env.order);
    hide Run, Next;
    FreeKeySteps(w, id, key, hash, env.write, env.started);
    hide Find;
  }

  lemma FreeKeySteps(w: World, id: Id, key: Key, hash: Hash, write: Write, started: bool)
    requires w.up && w.starter == Idle && id !in w.born && !Holds(w.x, key)
    ensures var s := Session(key, hash, w.now, Starting, None);
            var w2 := Next(Next(w, Exec(id, key, hash)), Reserve(write));
            var w3 := Next(w2, Launch(started));
            && w2.spawned == w.spawned && w2.x == ReserveSpec(w.x, id, s, write).0
            && (write == Done ==> w3.x == LaunchSpec(w2.x, id, started, w.now)
                                  && w3.spawned == if started then w.spawned + [id] else w.spawned)
            && (write != Done ==> w3 == w2)
  {
    hide DoRestart, DoStore, DoCleanup, DoRemove, DoCrash, SetSession, LaunchSpec, Noted, Holds;
    var w1 := Next(w, Exec(id, key, hash));
    assert w1 == DoExec(w, id, key, hash);
    assert w1.starter == Preparing(id) && w1.x == w.x && w1.born[id] == Session(key, hash, w.now, Starting, None);
  }

  lemma {:induction false} FindsNobody(sessions: map<Id, Session>, key: Key, order: seq<Id>)
    requires forall id :: id in sessions ==> sessions[id].key != key
    ensures Find(sessions, key, order) == None
    decreases |order|
  {
    if |order| > 0 {
      FindsNobody(sessions, key, order[1..]);
    }
  }

  lemma {:induction false} FindsHolder(sessions: map<Id, Session>, key: Key, order: seq<Id>, holder: Id)
    requires holder in sessions && sessions[holder].key == key && holder in order
    ensures Find(sessions, key, order).Some? && Find(sessions, key, order).value in sessions
    ensures sessions[Find(sessions, key, order).value].key == key
    decreases |order|
  {
    if order[0] !in sessions || sessions[order[0]].key != key {
      FindsHolder(sessions, key, order[1..], holder);
    }
  }

  // ---------- a crash between reservation and start ----------

  /** The session was cut off before its start; from now on it can only be `outcome_unknown`. */
  ghost predicate CutOff(w: World, id: Id) {
    && id in w.born && id !in w.spawned
    && (w.starter.Preparing? || w.starter.Launching? ==> w.starter.id != id)
    && (id in w.x.sessions ==> w.x.sessions[id].status == OutcomeUnknown)
    && (id in w.pending ==> w.pending[id].status == OutcomeUnknown)
    && (id in w.x.disk ==> w.x.disk[id].status == Starting || w.x.disk[id].status == OutcomeUnknown)
  }

  lemma CutOffOutlastsRestart(w: World, order: seq<Id>, boot: Boot, id: Id)
    requires Inv(w) && CutOff(w, id) && Enabled(w, Restart(order, boot))
    ensures CutOff(DoRestart(w, order, boot), id)
  {
    RestartBoots(w, order, boot);
    BootedOne(w, DoRestart(w, order, boot), boot, id);
    hide AllBooted, RestoreSpec, RestartEnds, RestartJudged, Maps, Past, Remembered, StarterInv, Stale, Lists;
  }

  /** The events of the call that holds `execMu`. */
  predicate OfCall(e: Event) {
    e.Exec? || e.Reserve? || e.Launch? || e.Return?
  }

  lemma CutOffOutlastsCall(w: World, e: Event, id: Id)
    requires CutOff(w, id) && OfCall(e) && Enabled(w, e)
    ensures CutOff(Do(w, e), id)
  {
    hide DoRestart, DoStore, DoCleanup, DoRemove, DoCrash, SetSession, Noted, Holds, Lists;
    if e.Reserve? {
      CutOffOutlastsReserve(w, e.write, id);
    } else {
      hide DoReserve;
    }
  }

  lemma CutOffOutlastsReserve(w: World, write: Write, id: Id)
    requires CutOff(w, id) && Enabled(w, Reserve(write))
    ensures CutOff(Do(w, Reserve(write)), id)
  {
    hide DoRestart, DoStore, DoCleanup, DoRemove, DoCrash, SetSession, DoExec, DoLaunch, Holds, Lists;
  }

  lemma CutOffOutlastsOthers(w: World, e: Event, id: Id)
    requires CutOff(w, id) && !OfCall(e) && !e.Restart? && Enabled(w, e)
    ensures CutOff(Do(w, e), id)
  {
    hide DoRestart, DoExec, DoReserve, DoLaunch, Noted, Outlived;
  }

  lemma CutOffStays(w: World, e: Event, id: Id)
    requires Inv(w) && CutOff(w, id)
    ensures CutOff(Next(w, e), id)
  {
    hide Inv, Do, CutOff;
    if Enabled(w, e) {
      if e.Restart? {
        CutOffOutlastsRestart(w, e.order, e.boot, id);
        DoRestarts(w, e.order, e.boot);
      } else if OfCall(e) {
        CutOffOutlastsCall(w, e, id);
      } else {
        CutOffOutlastsOthers(w, e, id);
      }
    }
  }

  lemma DoRestarts(w: World, order: seq<Id>, boot: Boot)
    requires Enabled(w, Restart(order, boot))
    ensures Do(w, Restart(order, boot)) == DoRestart(w, order, boot)
  {
  }

  /** A reservation whose agent died before the start is never started, whatever happens later. */
  lemma {:induction false} InterruptedNeverLaunches(ttl: nat, before: seq<Event>, after: seq<Event>, id: Id)
    requires Run(ttl, before).starter == Launching(id)
    ensures CutOff(Run(ttl, before + [Crash] + after), id)
    decreases |after|
  {
    if |after| == 0 {
      assert before + [Crash] + after == before + [Crash];
      RunKeepsInv(ttl, before);
      assert (before + [Crash])[..|before|] == before;
    } else {
      var init, last := after[..|after| - 1], after[|after| - 1];
      InterruptedNeverLaunches(ttl, before, init, id);
      assert before + [Crash] + after == before + [Crash] + init + [last];
      assert (before + [Crash] + after)[..|before| + 1 + |init|] == before + [Crash] + init;
      RunKeepsInv(ttl, before + [Crash] + init);
      CutOffStays(Run(ttl, before + [Crash] + init), last, id);
    }
  }

  // ---------- status order ----------

  /** How one step changes the record of a session and the session itself. */
  ghost predicate StatusMoves(w: World, w': World, id: Id) {
    && id in w'.born
    && (id in w'.x.disk && id !in w.x.disk ==> w.starter == Preparing(id))
    && (id in w.x.disk || w.starter != Preparing(id) ==> w'.starter != Preparing(id))
    && (id in w.x.disk && id in w'.x.disk ==> Leads(w.x.disk[id].status, w'.x.disk[id].status))
    && (w.up && w'.up && id in w.x.sessions && id in w'.x.sessions ==>
          Leads(w.x.sessions[id].status, w'.x.sessions[id].status))
  }

  lemma RestartMoves(w: World, order: seq<Id>, boot: Boot, id: Id)
    requires Inv(w) && id in w.born && Enabled(w, Restart(order, boot))
    ensures StatusMoves(w, DoRestart(w, order, boot), id)
  {
    hide AllBooted, RestoreSpec, RestartEnds, RestartJudged, Past, Remembered, Stale, Lists;
    RestartBoots(w, order, boot);
    BootedOne(w, DoRestart(w, order, boot), boot, id);
    hide Maps;
  }

  lemma StatusStep(w: World, e: Event, id: Id)
    requires Inv(w) && id in w.born
    ensures StatusMoves(w, Next(w, e), id)
  {
    hide Inv, Do, StatusMoves;
    if Enabled(w, e) {
      if e.Restart? {
        RestartMoves(w, e.order, e.boot, id);
        DoRestarts(w, e.order, e.boot);
      } else if OfCall(e) {
        CallMoves(w, e, id);
      } else {
        OtherMoves(w, e, id);
      }
    } else {
      StillMoves(w, id);
    }
  }

  lemma StillMoves(w: World, id: Id)
    requires Inv(w) && id in w.born
    ensures StatusMoves(w, w, id)
  {
    hide Maps, Past, Remembered;
  }

  lemma CallMoves(w: World, e: Event, id: Id)
    requires Inv(w) && id in w.born && OfCall(e) && Enabled(w, e)
    ensures StatusMoves(w, Do(w, e), id)
  {
    hide DoRestart, DoStore, DoCleanup, DoRemove, DoCrash, SetSession, Maps, Past, Remembered, Noted;
  }

  lemma OtherMoves(w: World, e: Event, id: Id)
    requires Inv(w) && id in w.born && !OfCall(e) && !e.Restart? && Enabled(w, e)
    ensures StatusMoves(w, Do(w, e), id)
  {
    assert Ordered(w);
    hide DoRestart, DoExec, DoReserve, DoLaunch, Maps, Past, Remembered, Noted, Outlived;
  }

  /** A file that is gone stays gone: its session is not being reserved. */
  ghost predicate Gone(w: World, id: Id) {
    id in w.born && id !in w.x.disk && w.starter != Preparing(id)
  }

  lemma GoneStays(w: World, e: Event, id: Id)
    requires Inv(w) && Gone(w, id)
    ensures Gone(Next(w, e), id)
  {
    StatusStep(w, e, id);
  }

  /**
   * The status on disk never goes backwards, over whole runs with crashes, restarts and racing
   * writers: starting, then running, then one terminal status that is final.
   */
  lemma {:induction false} DiskNeverGoesBack(ttl: nat, events: seq<Event>, i: nat, id: Id)
    requires i <= |events| && id in Run(ttl, events[..i]).x.disk
    ensures id in Run(ttl, events).x.disk ==>
              Leads(Run(ttl, events[..i]).x.disk[id].status, Run(ttl, events).x.disk[id].status)
    ensures id in Run(ttl, events).x.disk || Gone(Run(ttl, events), id)
    decreases |events|
  {
    hide Next, Remembered, Apart, DoomedOld, StarterInv, SpawnInv, Ordered, DownInv;
    RunKeepsInv(ttl, events[..i]);
    if i == |events| {
      assert events[..i] == events;
    } else {
      var init, last := events[..|events| - 1], events[|events| - 1];
      assert init[..i] == events[..i];
      DiskNeverGoesBack(ttl, init, i, id);
      RunKeepsInv(ttl, init);
      if id in Run(ttl, init).x.disk {
        StatusStep(Run(ttl, init), last, id);
      } else {
        GoneStays(Run(ttl, init), last, id);
      }
    }
  }

  ghost predicate Settled(w: World, id: Id, status: Status) {
    && w.up && id in w.born && w.starter != Preparing(id) && Terminal(status)
    && (id in w.x.sessions ==> w.x.sessions[id].status == status)
  }

  lemma SettledStays(w: World, e: Event, id: Id, status: Status)
    requires Inv(w) && Settled(w, id, status) && !e.Crash?
    ensures Settled(Next(w, e), id, status)
  {
    StatusStep(w, e, id);
    AbsentStays(w, e, id);
    hide Inv, Next;
  }

  /** A session gone from memory does not come back in the same life. */
  lemma AbsentStays(w: World, e: Event, id: Id)
    requires w.up && id in w.born && w.starter != Preparing(id) && !e.Crash?
    ensures Next(w, e).up && (id !in w.x.sessions ==> id !in Next(w, e).x.sessions)
  {
    hide RestoreSpec, Noted, RestartEnds, RestartJudged, Lists;
  }

  /** In one life, whatever happens up to its crash, a terminal status is final: the first of stop, timeout and exit wins. */
  lemma {:induction false} FirstTerminalWins(ttl: nat, before: seq<Event>, after: seq<Event>, id: Id)
    requires var w := Run(ttl, before); w.up && id in w.x.sessions && Terminal(w.x.sessions[id].status)
    requires forall e :: e in after ==> !e.Crash?
    ensures Settled(Run(ttl, before + after), id, Run(ttl, before).x.sessions[id].status)
    decreases |after|
  {
    if |after| == 0 {
      assert before + after == before;
      RunKeepsInv(ttl, before);
    } else {
      var init, last := after[..|after| - 1], after[|after| - 1];
      FirstTerminalWins(ttl, before, init, id);
      assert before + after == (before + init) + [last];
      RunSnoc(ttl, before + init, last);
      RunKeepsInv(ttl, before + init);
      SettledStays(Run(ttl, before + init), last, id, Run(ttl, before).x.sessions[id].status);
    }
  }

  /** What ends a running session: a stop or timeout with its status, a vanished process, or its exit. */
  function CauseOf(e: Event, id: Id): Option<Status> {
    match e
    case Stop(stopped, status, gone) => if stopped != id then None else if gone then Some(Orphaned) else Some(status)
    case End(ended, waitFailed) => if ended != id then None else if waitFailed then Some(Failed) else Some(Exited)
    case _ => None
  }

  /**
   * A running session stays as it is until the first cause to end it, and whatever follows in this life,
   * the status that cause gave it is the one it keeps; a process that is gone or waited for has its end noted then.
   */
  lemma FirstCauseWins(ttl: nat, before: seq<Event>, e: Event, after: seq<Event>, id: Id)
    requires var w := Run(ttl, before); w.up && id in w.x.sessions && w.x.sessions[id].status == Running && Enabled(w, e)
    requires !e.Crash? && forall f :: f in after ==> !f.Crash?
    ensures var w, w' := Run(ttl, before), Run(ttl, before + [e]);
            && id in w'.x.sessions
            && match CauseOf(e, id)
               case None => w'.x.sessions[id] == w.x.sessions[id]
               case Some(status) =>
                 && Settled(Run(ttl, before + [e] + after), id, status)
                 && (e.End? || e.gone ==> w'.x.sessions[id].finishedAt == Some(w.now))
                 && (!e.End? && !e.gone ==> w'.x.sessions[id].finishedAt == w.x.sessions[id].finishedAt)
  {
    RunSnoc(ttl, before, e);
    RunKeepsInv(ttl, before);
    CauseDecides(Run(ttl, before), e, id);
    hide Next, Inv, Run;
    if CauseOf(e, id).Some? {
      FirstTerminalWins(ttl, before + [e], after, id);
    }
  }

  lemma CauseDecides(w: World, e: Event, id: Id)
    requires w.up && id in w.x.sessions && w.x.sessions[id].status == Running && Enabled(w, e) && !e.Crash?
    requires w.starter.Launching? && w.starter.id in w.x.sessions ==> w.x.sessions[w.starter.id].status == Starting
    requires w.starter.Preparing? ==> w.starter.id != id
    ensures var w' := Next(w, e);
            && w'.up && id in w'.x.sessions
            && match CauseOf(e, id)
               case None => w'.x.sessions[id] == w.x.sessions[id]
               case Some(status) =>
                 && Terminal(status) && w'.x.sessions[id].status == status
                 && (e.End? || e.gone ==> w'.x.sessions[id].finishedAt == Some(w.now))
                 && (!e.End? && !e.gone ==> w'.x.sessions[id].finishedAt == w.x.sessions[id].finishedAt)
  {
    hide DoRestart, Noted, Lists;
  }

  // ---------- what restart and cleanup make of each session ----------

  /**
   * What a restart makes of one record it can read: it is dropped exactly when it is not running and its end, or else its
   * start, lies more than the TTL back; a process that lives is running again, one that does not is orphaned, a start
   * cut off is unknown, both ended now; an ended session is as it was.
   */
  lemma RestartTells(ttl: nat, events: seq<Event>, order: seq<Id>, boot: Boot, id: Id)
    requires Enabled(Run(ttl, events), Restart(order, boot)) && id in Run(ttl, events).x.disk
    ensures var w, w' := Run(ttl, events), Next(Run(ttl, events), Restart(order, boot));
            var s := w.x.disk[id];
            var age := match s.finishedAt case Some(end) => end case None => s.startedAt;
            && w'.up
            && (id !in w'.x.sessions <==> id in boot.unreadable || (s.status != Running && w.now > age + ttl))
            && (id in w'.x.sessions ==>
                  w'.x.sessions[id] ==
                    match s.status
                    case Running => if id in boot.alive then s else Session(s.key, s.hash, s.startedAt, Orphaned, Some(w.now))
                    case Starting => Session(s.key, s.hash, s.startedAt, OutcomeUnknown, Some(w.now))
                    case _ => s)
            && (id !in w'.x.disk <==> id !in boot.unreadable && id !in w'.x.sessions && id !in boot.stuck)
            && (id in w'.x.disk ==> w'.x.disk[id] == if id in w'.x.sessions && id !in boot.unwritable then w'.x.sessions[id] else s)
  {
    RunKeepsInv(ttl, events);
    TtlIsFixed(ttl, events);
    var w := Run(ttl, events);
    hide Run, Maps, Past, Remembered, StarterInv, AllBooted, RestoreSpec, RestartEnds, RestartJudged, Lists, Stale, Restored, Booted;
    RestartBoots(w, order, boot);
    DoRestarts(w, order, boot);
    BootedOne(w, DoRestart(w, order, boot), boot, id);
    BootedTells(w.x.disk, DoRestart(w, order, boot).x, id, w.now, ttl, boot);
  }

  lemma BootedTells(before: map<Id, Session>, x: Executor, id: Id, now: nat, ttl: nat, boot: Boot)
    requires id in before && Booted(before, x, id, now, ttl, boot)
    ensures var s := before[id];
            var age := match s.finishedAt case Some(end) => end case None => s.startedAt;
            && (id !in x.sessions <==> id in boot.unreadable || (s.status != Running && now > age + ttl))
            && (id in x.sessions ==>
                  x.sessions[id] ==
                    match s.status
                    case Running => if id in boot.alive then s else Session(s.key, s.hash, s.startedAt, Orphaned, Some(now))
                    case Starting => Session(s.key, s.hash, s.startedAt, OutcomeUnknown, Some(now))
                    case _ => s)
            && (id !in x.disk <==> id !in boot.unreadable && id !in x.sessions && id !in boot.stuck)
            && (id in x.disk ==> x.disk[id] == if id in x.sessions && id !in boot.unwritable then x.sessions[id] else s)
  {
  }

  /** A cleanup drops a session exactly when it is not running and its recorded end lies more than the TTL back, and leaves the others as they are. */
  lemma CleanupDropsIff(ttl: nat, events: seq<Event>, id: Id)
    requires Run(ttl, events).up && id in Run(ttl, events).x.sessions
    ensures var w, w' := Run(ttl, events), Next(Run(ttl, events), CleanupTick);
            var s := w.x.sessions[id];
            && (id !in w'.x.sessions <==> s.status != Running && s.finishedAt.Some? && w.now > s.finishedAt.value + ttl)
            && (id in w'.x.sessions ==> w'.x.sessions[id] == s)
            && (id in w'.doomed <==> id in w.doomed || id !in w'.x.sessions)
  {
    TtlIsFixed(ttl, events);
    hide Run;
  }

  // ---------- what makes a key free again ----------

  /** The record is skipped or dropped by a restart: unreadable, or not running and its end, or else its start, too old. */
  predicate Dropped(s: Session, unreadable: bool, now: nat, ttl: nat) {
    unreadable || Stale(s, now, ttl)
  }

  /** After a restart a key can be started again exactly when every record of it was skipped or dropped. */
  lemma RestartFreesKeyIff(ttl: nat, events: seq<Event>, order: seq<Id>, boot: Boot, key: Key)
    requires Enabled(Run(ttl, events), Restart(order, boot))
    ensures var w := Run(ttl, events);
            !Holds(Next(w, Restart(order, boot)).x, key) <==>
              forall id :: id in w.x.disk && w.x.disk[id].key == key ==> Dropped(w.x.disk[id], id in boot.unreadable, w.now, w.ttl)
  {
    RunKeepsInv(ttl, events);
    var w := Run(ttl, events);
    var w' := DoRestart(w, order, boot);
    RestartBoots(w, order, boot);
    DoRestarts(w, order, boot);
    hide Run, Maps, Past, Remembered, StarterInv, AllBooted, DoRestart, Stale, Restored, Lists;
    forall id
      ensures id in w'.x.sessions ==> id in w.x.disk && w'.x.sessions[id].key == w.x.disk[id].key
      ensures id in w.x.disk ==> (id in w'.x.sessions <==> !Dropped(w.x.disk[id], id in boot.unreadable, w.now, w.ttl))
    {
      BootedOne(w, w', boot, id);
      RestoredKey(w.x.disk, id, w.now, boot);
    }
    hide Booted, Dropped;
  }

  lemma RestoredKey(disk: map<Id, Session>, id: Id, now: nat, boot: Boot)
    ensures id in disk ==> Restored(disk[id], id in boot.alive, now).key == disk[id].key
  {
  }

  /** A cleanup frees a key exactly when each of its sessions is not running and ended more than the TTL ago. */
  lemma CleanupFreesKeyIff(ttl: nat, events: seq<Event>, key: Key)
    requires Run(ttl, events).up
    ensures var w := Run(ttl, events);
            !Holds(Next(w, CleanupTick).x, key) <==>
              forall id :: id in w.x.sessions && w.x.sessions[id].key == key ==> Outlived(w.x.sessions[id], w.now, w.ttl)
  {
    var w := Run(ttl, events);
    var kept := Next(w, CleanupTick).x.sessions;
    assert forall id :: id in kept <==> id in w.x.sessions && !Outlived(w.x.sessions[id], w.now, w.ttl);
    assert forall id :: id in kept ==> kept[id] == w.x.sessions[id];
  }

  /** A stop whose record reaches the disk, then a crash before the end of the process is recorded. */
  function StopCrash(id: Id, status: Status, ns: nat, order: seq<Id>, boot: Boot): seq<Event> {
    [Stop(id, status, false), Snapshot(id), Store(id, true), Crash, Tick(ns), Restart(order, boot)]
  }

  /**
   * A session stopped just before a crash has no recorded end: a restart that reads its record forgets
   * it exactly when its start, and not its end, lies more than the TTL back.
   */
  lemma StoppedWithoutEndIff(ttl: nat, events: seq<Event>, id: Id, status: Status, ns: nat, order: seq<Id>, boot: Boot)
    requires var w := Run(ttl, events);
             && w.up && id in w.x.sessions && id in w.x.disk && id !in w.pending && Terminal(status)
             && w.x.sessions[id].status == Running && w.x.sessions[id].finishedAt == None
             && Lists(order, w.x.disk) && id !in boot.unreadable
    ensures var w, w' := Run(ttl, events), Run(ttl, events + StopCrash(id, status, ns, order, boot));
            && w'.up && w'.now == w.now + ns
            && (id !in w'.x.sessions <==> w.x.sessions[id].startedAt + w.ttl < w'.now)
  {
    var w := Run(ttl, events);
    var stopped := w.x.sessions[id].(status := status);
    var d := Fallen(w, id, stopped, ns);
    StopCrashFalls(ttl, events, id, status, ns, order, boot);
    hide Run, StopCrash;
    assert d.x.disk.Keys == w.x.disk.Keys;
    RestartBoots(d, order, boot);
    DoRestarts(d, order, boot);
    BootedOne(d, DoRestart(d, order, boot), boot, id);
    hide AllBooted, RestoreSpec, RestartEnds, RestartJudged;
  }

  /** The agent down, one record changed, and the clock later. */
  ghost function Fallen(w: World, id: Id, s: Session, ns: nat): World {
    w.(up := false, now := w.now + ns, x := Executor(map[], w.x.disk[id := s]), pending := map[], doomed := {}, starter := Idle)
  }

  /** The stop, its snapshot and its record. */
  lemma StopIsStored(w: World, id: Id, status: Status)
    requires w.up && id in w.x.sessions && id in w.x.disk && id !in w.pending && Terminal(status)
    requires w.x.sessions[id].status == Running && w.x.sessions[id].finishedAt == None
    ensures var s := w.x.sessions[id].(status := status);
            Next(Next(Next(w, Stop(id, status, false)), Snapshot(id)), Store(id, true))
            == w.(x := Executor(w.x.sessions[id := s], w.x.disk[id := s]))
  {
    hide DoExec, DoReserve, DoLaunch, DoCleanup, DoRemove, DoCrash, DoRestart, Lists;
    var s := w.x.sessions[id].(status := status);
    var w1 := w.(x := w.x.(sessions := w.x.sessions[id := s]));
    assert Next(w, Stop(id, status, false)) == w1;
    var w2 := w1.(pending := w.pending[id := s]);
    assert Next(w1, Snapshot(id)) == w2;
    assert w2.pending - {id} == w.pending;
    assert Next(w2, Store(id, true)) == w1.(x := w1.x.(disk := w.x.disk[id := s]));
  }

  lemma CrashAndWait(w: World, ns: nat)
    requires w.up
    ensures Next(Next(w, Crash), Tick(ns))
            == w.(up := false, now := w.now + ns, x := w.x.(sessions := map[]), pending := map[], doomed := {}, starter := Idle)
  {
    hide DoExec, DoReserve, DoLaunch, DoCleanup, DoRemove, DoStore, SetSession, DoRestart, Lists;
  }

  lemma StopCrashFalls(ttl: nat, events: seq<Event>, id: Id, status: Status, ns: nat, order: seq<Id>, boot: Boot)
    requires var w := Run(ttl, events);
             && w.up && id in w.x.sessions && id in w.x.disk && id !in w.pending && Terminal(status)
             && w.x.sessions[id].status == Running && w.x.sessions[id].finishedAt == None
    ensures var w := Run(ttl, events);
            Run(ttl, events + StopCrash(id, status, ns, order, boot))
            == Next(Fallen(w, id, w.x.sessions[id].(status := status), ns), Restart(order, boot))
  {
    hide Run, Next;
    var w := Run(ttl, events);
    var tail := StopCrash(id, status, ns, order, boot);
    StopIsStored(w, id, status);
    CrashAndWait(Next(Next(Next(w, tail[0]), tail[1]), tail[2]), ns);
    RunTo(ttl, events, tail, 1);
    RunTo(ttl, events, tail, 2);
    RunTo(ttl, events, tail, 3);
    RunTo(ttl, events, tail, 4);
    RunTo(ttl, events, tail, 5);
    RunTo(ttl, events, tail, 6);
    assert events + tail[..0] == events && tail[..6] == tail;
  }

  lemma RunTo(ttl: nat, events: seq<Event>, tail: seq<Event>, n: nat)
    requires 0 < n <= |tail|
    ensures Run(ttl, events + tail[..n]) == Next(Run(ttl, events + tail[..n - 1]), tail[n - 1])
  {
    assert events + tail[..n] == (events + tail[..n - 1]) + [tail[n - 1]];
    RunSnoc(ttl, events + tail[..n - 1], tail[n - 1]);
  }

  lemma RunSnoc(ttl: nat, events: seq<Event>, e: Event)
    ensures Run(ttl, events + [e]) == Next(Run(ttl, events), e)
  {
    assert (events + [e])[..|events|] == events;
  }

  /** One call run to its start. */
  lemma StartOne(ttl: nat, before: seq<Event>, id: Id, key: Key) returns (events: seq<Event>)
    requires var w := Run(ttl, before); Enabled(w, Exec(id, key, 0)) && !Holds(w.x, key)
    ensures var w, w' := Run(ttl, before), Run(ttl, events);
            var s := Session(key, 0, w.now, Starting, None);
            && w'.up && w'.now == w.now && w'.starter == Waiting && w'.born == w.born[id := s]
            && w'.spawned == w.spawned + [id] && w'.x.disk == w.x.disk[id := s]
            && w'.x.sessions == w.x.sessions[id := s.(status := Running)] && w'.pending == w.pending
            && w'.ends == w.ends && w'.judged == w.judged && w'.lost == w.lost
  {
    RunSnoc(ttl, before, Exec(id, key, 0));
    RunSnoc(ttl, before + [Exec(id, key, 0)], Reserve(Done));
    RunSnoc(ttl, before + [Exec(id, key, 0)] + [Reserve(Done)], Launch(true));
    events := before + [Exec(id, key, 0)] + [Reserve(Done)] + [Launch(true)];
  }

  /** Start, crash, restart with the record unreadable, start again: same key, same moment. */
  lemma UnreadableRecordRespawns(ttl: nat) returns (events: seq<Event>)
    ensures var w := Run(ttl, events);
            && w.ttl == ttl && w.spawned == [0, 1] && 0 in w.born && 1 in w.born
            && w.born[0].key == w.born[1].key && w.born[0].startedAt == w.born[1].startedAt && w.lost == {0}
  {
    assert Run(ttl, []) == Init(ttl);
    var first := StartOne(ttl, [], 0, 7);
    var boot := Boot({0}, {}, {}, {});
    var down := first + [Crash] + [Tick(0)];
    RunSnoc(ttl, first, Crash);
    RunSnoc(ttl, first + [Crash], Tick(0));
    RunSnoc(ttl, down, Restart([0], boot));
    CrashAndWait(Run(ttl, first), 0);
    hide Run, Next;
    assert Run(ttl, down).x.disk.Keys == {0};
    SkipsAlone(Run(ttl, down), 0, boot);
    events := StartOne(ttl, down + [Restart([0], boot)], 1, 7);
    TtlIsFixed(ttl, events);
  }

  lemma RestoreAlone(x: Executor, id: Id, now: nat, ttl: nat, boot: Boot)
    ensures RestoreSpec(x, [id], now, ttl, boot) == RestoreOne(x, id, now, ttl, boot)
  {
    assert [id][..0] == [];
    assert RestoreSpec(x, [], now, ttl, boot) == x;
  }

  /** A restart that meets one record and cannot read it leaves everything but the note of that. */
  lemma SkipsAlone(d: World, id: Id, boot: Boot)
    requires !d.up && d.x.sessions == map[] && d.x.disk.Keys == {id} && boot == Boot({id}, {}, {}, {})
    ensures Next(d, Restart([id], boot)) == d.(up := true, lost := {id})
  {
    hide DoExec, DoReserve, DoLaunch, DoCleanup, DoRemove, DoStore, SetSession, DoCrash;
    RestoreAlone(d.x, id, d.now, d.ttl, boot);
    var x := RestoreSpec(d.x, [id], d.now, d.ttl, boot);
    assert x == d.x;
    assert RestartEnds(d, x.sessions) == d.ends;
    assert RestartJudged(d, boot) == d.judged;
    DoRestarts(d, [id], boot);
    hide RestoreSpec, RestartEnds, RestartJudged;
  }

  /**
   * A session runs past the TTL, is stopped, and the agent crashes before the end is recorded: with every
   * record readable the restart forgets it, and its key is started again at the moment of the stop.
   */
  lemma StoppedSessionRespawns(ttl: nat) returns (events: seq<Event>)
    ensures var w := Run(ttl, events);
            && w.ttl == ttl && w.spawned == [0, 1] && 0 in w.born && 1 in w.born && w.born[0].key == w.born[1].key
            && w.lost == {} && 0 !in w.ends && w.judged == map[0 := w.now] && w.born[1].startedAt == w.now
  {
    hide RestoreSpec;
    assert Run(ttl, []) == Init(ttl);
    var first := StartOne(ttl, [], 0, 7);
    TtlIsFixed(ttl, first);
    RunSnoc(ttl, first, Tick(ttl + 1));
    var aged := first + [Tick(ttl + 1)];
    var boot := Boot({}, {}, {}, {});
    var dead := aged + StopCrash(0, Cancelled, 0, [0], boot);
    assert Run(ttl, aged).x.disk.Keys == {0};
    StopCrashRun(ttl, aged, 0, boot);
    events := StartOne(ttl, dead, 1, 7);
    TtlIsFixed(ttl, events);
  }

  /** The stop, the crash and the restart, with nothing else on disk. */
  lemma StopCrashRun(ttl: nat, events: seq<Event>, id: Id, boot: Boot)
    requires var w := Run(ttl, events);
             && w.up && w.ttl == ttl && id in w.x.sessions && w.x.disk.Keys == {id} && id !in w.pending && w.judged == map[]
             && w.x.sessions[id].status == Running && w.x.sessions[id].finishedAt == None
             && w.x.sessions[id].startedAt + ttl < w.now && boot == Boot({}, {}, {}, {})
    ensures var w, w' := Run(ttl, events), Run(ttl, events + StopCrash(id, Cancelled, 0, [id], boot));
            && w'.up && w'.now == w.now && w'.starter == Idle && w'.born == w.born && w'.spawned == w.spawned
            && w'.x.sessions == map[] && w'.lost == {} && w'.ends == w.ends && w'.judged == map[id := w.now]
  {
    var w := Run(ttl, events);
    StopCrashFalls(ttl, events, id, Cancelled, 0, [id], boot);
    hide Run, StopCrash;
    var stopped := w.x.sessions[id].(status := Cancelled);
    var d := Fallen(w, id, stopped, 0);
    assert d.x.disk == map[id := stopped];
    DropsAlone(d, id, boot);
  }

  /** A restart that meets one record, without an end and too old, keeps nothing. */
  lemma DropsAlone(d: World, id: Id, boot: Boot)
    requires !d.up && d.x.sessions == map[] && d.x.disk.Keys == {id} && d.judged == map[] && boot == Boot({}, {}, {}, {})
    requires Endless(d.x.disk[id]) && d.x.disk[id].startedAt + d.ttl < d.now
    ensures var w' := Next(d, Restart([id], boot));
            && w'.up && w'.now == d.now && w'.starter == d.starter && w'.born == d.born && w'.spawned == d.spawned
            && w'.x.sessions == map[] && w'.lost == {} && w'.ends == d.ends && w'.judged == map[id := d.now]
            && w'.x.disk == map[] && w'.pending == d.pending && w'.ttl == d.ttl
  {
    hide DoExec, DoReserve, DoLaunch, DoCleanup, DoRemove, DoStore, SetSession, DoCrash;
    RestoreAlone(d.x, id, d.now, d.ttl, boot);
    var x := RestoreSpec(d.x, [id], d.now, d.ttl, boot);
    assert d.x.disk - {id} == map[];
    assert x == Executor(map[], map[]);
    assert RestartEnds(d, x.sessions) == d.ends;
    assert RestartJudged(d, boot) == map[id := d.now];
    DoRestarts(d, [id], boot);
    hide RestoreSpec, RestartEnds, RestartJudged;
  }

  /** A crash between the start and the second persist leaves a record without an end: after the TTL the key is free, whether or not the process still runs. */
  lemma UnrecordedStartRespawns(ttl: nat) returns (events: seq<Event>)
    ensures var w := Run(ttl, events);
            && w.ttl == ttl && w.spawned == [0, 1] && 0 in w.born && 1 in w.born && w.born[0].key == w.born[1].key
            && w.lost == {} && 0 !in w.ends && w.judged == map[0 := w.now]
  {
    assert Run(ttl, []) == Init(ttl);
    var first := StartOne(ttl, [], 0, 7);
    TtlIsFixed(ttl, first);
    var boot := Boot({}, {}, {}, {});
    RunSnoc(ttl, first, Crash);
    RunSnoc(ttl, first + [Crash], Tick(ttl + 1));
    var down := first + [Crash] + [Tick(ttl + 1)];
    RunSnoc(ttl, down, Restart([0], boot));
    CrashAndWait(Run(ttl, first), ttl + 1);
    hide Run, Next;
    assert Run(ttl, down).x.disk.Keys == {0};
    DropsAlone(Run(ttl, down), 0, boot);
    events := StartOne(ttl, down + [Restart([0], boot)], 1, 7);
    TtlIsFixed(ttl, events);
  }
}
