/// The work-epoch fence of cmd/agent/browser.go (`execute`, `control`, `Close`)
/// and cmd/agent/browser_bridge.go (link loss and `scope` messages): work
/// admitted before a pause never runs after it, even if a resume follows.
///
/// One browser session is modelled together with its permit queue.  An
/// operation is one call of `execute`, hence one caller of the queue.  It is
/// reserved in `call`, but admitted to the session only when `execute` reads
/// the epoch: the fence protects from that moment on.

module EpochFence {
  import opened Wrappers
  import Q = WorkQueue

  type Op = Q.Caller

  /** What can happen to a session besides the work itself; closing the manager ends the context of every operation, hence of the active one. */
  datatype Control =
    | Pause
    | WaitingUser
    | Cancel
    | Disconnect
    | LinkLost
    | CloseManager
    | Scope(paused: bool, changed: bool)
    | Resume(localPaused: bool)

  /** The events after which work admitted earlier must not start. */
  predicate Invalidates(k: Control) {
    match k
    case Scope(paused, changed) => paused || changed
    case Resume(_) => false
    case _ => true
  }

  /** The session is lost; nothing connects it again. */
  predicate Disconnects(k: Control) {
    k.Disconnect? || k.LinkLost? || k.CloseManager?
  }

  /** The number of values of the work epoch, an unsigned 64-bit integer. */
  const EPOCHS: nat := 0x1_0000_0000_0000_0000

  /** The fields of `browserSession` guarded by the manager's mutex. */
  datatype Gate = Gate(epoch: nat, paused: bool, disconnected: bool, active: Option<Op>, cancelled: set<Op>)

  function Invalidate(g: Gate): Gate {
    g.(epoch := (g.epoch + 1) % EPOCHS, cancelled := if g.active.Some? then g.cancelled + {g.active.value} else g.cancelled)
  }

  function Apply(g: Gate, k: Control): Gate {
    var g1 := if Invalidates(k) then Invalidate(g) else g;
    match k
    case Pause => g1.(paused := true)
    case WaitingUser => g1.(paused := true)
    case Cancel => g1
    case Disconnect => g1.(disconnected := true)
    case LinkLost => g1.(disconnected := true)
    case CloseManager => g1.(disconnected := true)
    case Scope(paused, _) => g1.(paused := paused)
    case Resume(localPaused) => if localPaused then g1 else g1.(paused := false)
  }

  datatype Verdict = Started | Stale | AccessPaused

  /** The critical section of `execute` after the permit was obtained. */
  function Start(g: Gate, op: Op, admitted: nat): (Gate, Verdict) {
    if admitted != g.epoch then (g, Stale)
    else if g.paused || g.disconnected then (g, AccessPaused)
    else (g.(active := Some(op)), Started)
  }

  /** The session object; `work` is its permit queue. */
  class BrowserSession {
    const work: Q.BrowserWorkQueue
    var workEpoch: nat
    var paused: bool
    var disconnected: bool
    var active: Option<Op>
    var cancelled: set<Op>

    ghost function Model(): Gate
      reads this
    {
      Gate(workEpoch, paused, disconnected, active, cancelled)
    }

    ghost predicate Valid()
      reads this, work
    {
      work.Model().Known() && forall i, j | 0 <= i < j < |work.waiting| :: work.waiting[i] != work.waiting[j]
    }

    constructor ()
      ensures Model() == Gate(0, false, false, None, {}) && Valid() && fresh(work)
    {
      work := new Q.BrowserWorkQueue();
      workEpoch, paused, disconnected, active, cancelled := 0, false, false, None, {};
    }

    method InvalidateWork()
      requires Valid()
      modifies this, work
      ensures Model() == Invalidate(old(Model()))
      ensures work.Model() == Q.CancelPending(old(work.Model())) && Valid()
    {
      workEpoch := (workEpoch + 1) % EPOCHS;
      work.CancelAll();
      if active.Some? {
        cancelled := cancelled + {active.value};
      }
    }

    /** `control`, link loss, `Close` and the bridge's `scope` message. */
    method Control(k: Control)
      requires Valid()
      modifies this, work
      ensures Model() == Apply(old(Model()), k) && Valid()
      ensures work.Model() == if Invalidates(k) then Q.CancelPending(old(work.Model())) else old(work.Model())
    {
      match k
      case Pause =>
        paused := true;
        InvalidateWork();
      case WaitingUser =>
        paused := true;
        InvalidateWork();
      case Cancel =>
        InvalidateWork();
      case Disconnect =>
        disconnected := true;
        InvalidateWork();
      case LinkLost =>
        disconnected := true;
        InvalidateWork();
      case CloseManager =>
        disconnected := true;
        InvalidateWork();
      case Scope(p, changed) =>
        paused := p;
        if p || changed {
          InvalidateWork();
        }
      case Resume(localPaused) =>
        if !localPaused {
          paused := false;
        }
    }

    method StartWork(op: Op, admitted: nat) returns (v: Verdict)
      modifies this`active
      ensures (Model(), v) == Start(old(Model()), op, admitted)
    {
      if admitted != workEpoch {
        return Stale;
      }
      if paused || disconnected {
        return AccessPaused;
      }
      active := Some(op);
      return Started;
    }

    method ClearWork(op: Op)
      modifies this`active, this`cancelled
      ensures Model() == old(Model()).(active := None, cancelled := old(cancelled) + {op})
    {
      cancelled := cancelled + {op};
      active := None;
    }
  }

  // ---------- the session with all its operations ----------

  datatype Stage = Reserved | Admitted | Running | Left

  /** `admitted` is the epoch read at the head of `execute`; it never changes. */
  datatype System = System(gate: Gate, queue: Q.World, admitted: map<Op, nat>, stage: map<Op, Stage>)

  datatype Event =
    | Reserve(op: Op)
    | Admit(op: Op)
    | Queue(e: Q.Event)
    | TryStart(op: Op, sawEnd: bool)
    | Clear(op: Op)
    | Do(k: Control)

  const FRESH := System(Gate(0, false, false, None, {}), Q.START, map[], map[])

  ghost predicate HoldsPermit(s: System, op: Op) {
    op in s.queue.pc && s.queue.pc[op] == Q.Holding
  }

  ghost predicate Enabled(s: System, e: Event) {
    match e
    case Reserve(op) => op !in s.stage
    case Admit(op) => op in s.stage && s.stage[op] == Reserved
    case Queue(e) =>
      (match e
       case Acquire(op) => op in s.stage && s.stage[op] == Admitted
       case FireRelease(op) => op in s.stage && s.stage[op] == Left
       case CancelAll => false
       case _ => true)
    case TryStart(op, _) => op in s.stage && s.stage[op] == Admitted && HoldsPermit(s, op)
    case Clear(op) => op in s.stage && s.stage[op] == Running
    case Do(_) => true
  }

  ghost function Next(s: System, e: Event): System {
    if !Enabled(s, e) then s else
    match e
    case Reserve(op) => s.(stage := s.stage[op := Reserved])
    case Admit(op) => s.(admitted := s.admitted[op := s.gate.epoch], stage := s.stage[op := Admitted])
    case Queue(e) => s.(queue := Q.Next(s.queue, e))
    case TryStart(op, sawEnd) => NextStart(s, op, sawEnd)
    case Clear(op) =>
      s.(gate := s.gate.(active := None, cancelled := s.gate.cancelled + {op}), stage := s.stage[op := Left])
    case Do(k) =>
      s.(gate := Apply(s.gate, k), queue := if Invalidates(k) then Q.Next(s.queue, Q.CancelAll) else s.queue)
  }

  /**
   * Between the permit and the critical section the context is checked once: a context that ended
   * may have been seen there, or may have ended after the check.
   */
  ghost function NextStart(s: System, op: Op, sawEnd: bool): System {
    if (sawEnd && op in s.queue.done) || op !in s.admitted then s.(stage := s.stage[op := Left]) else
    var (gate, v) := Start(s.gate, op, s.admitted[op]);
    s.(gate := gate, stage := s.stage[op := if v == Started then Running else Left])
  }

  ghost predicate Inv(s: System) {
    && Q.Inv(s.queue)
    && (forall op :: op in s.admitted <==> op in s.stage && s.stage[op] != Reserved)
    && s.gate.epoch < EPOCHS
    // the active operation is the one that runs, and it owns the permit
    && (forall op | op in s.stage && s.stage[op] == Running :: HoldsPermit(s, op) && s.gate.active == Some(op))
    && (s.gate.active.Some? ==>
          var op := s.gate.active.value;
          && op in s.stage && s.stage[op] == Running
          // it is either still current, in an open session, or its context is cancelled
          && (op in s.gate.cancelled || (s.admitted[op] == s.gate.epoch && !s.gate.paused && !s.gate.disconnected)))
    // contexts are cancelled only while their work is active
    && (forall op | op in s.gate.cancelled :: op in s.stage && s.stage[op] != Admitted && s.stage[op] != Reserved)
  }

  lemma QueueKeepsHolders(w: Q.World, e: Q.Event, op: Op)
    requires op in w.pc && w.pc[op] == Q.Holding && e != Q.FireRelease(op)
    ensures op in Q.Next(w, e).pc && Q.Next(w, e).pc[op] == Q.Holding
  {
  }

  lemma StartKeepsInv(s: System, op: Op, sawEnd: bool)
    requires Inv(s) && Enabled(s, TryStart(op, sawEnd))
    ensures Inv(NextStart(s, op, sawEnd))
  {
    // a second holder would be a second owner of the permit
    if s.gate.active.Some? {
      var other := s.gate.active.value;
      assert HoldsPermit(s, other) && Q.Owns(s.queue, other) && Q.Owns(s.queue, op);
    }
  }

  lemma QueueStepKeepsInv(s: System, qe: Q.Event)
    requires Inv(s) && Enabled(s, Queue(qe))
    ensures Inv(s.(queue := Q.Next(s.queue, qe)))
  {
    Q.NextKeepsInv(s.queue, qe);
    if s.gate.active.Some? {
      QueueKeepsHolders(s.queue, qe, s.gate.active.value);
    }
  }

  lemma ControlKeepsInv(s: System, k: Control)
    requires Inv(s)
    ensures Inv(Next(s, Do(k)))
  {
    if Invalidates(k) {
      Q.NextKeepsInv(s.queue, Q.CancelAll);
      if s.gate.active.Some? {
        QueueKeepsHolders(s.queue, Q.CancelAll, s.gate.active.value);
      }
    }
  }

  /** Steps of one operation that leave the queue and the epoch alone. */
  lemma OwnStepKeepsInv(s: System, e: Event)
    requires Inv(s) && Enabled(s, e) && (e.Reserve? || e.Admit? || e.Clear?)
    ensures Inv(Next(s, e))
  {
    hide Q.Inv, Apply, NextStart;
  }

  lemma NextKeepsInv(s: System, e: Event)
    requires Inv(s)
    ensures Inv(Next(s, e))
  {
    hide Inv, NextStart, Apply;
    if Enabled(s, e) {
      match e
      case Queue(qe) => QueueStepKeepsInv(s, qe);
      case TryStart(op, sawEnd) => StartKeepsInv(s, op, sawEnd);
      case Do(k) => ControlKeepsInv(s, k);
      case _ => OwnStepKeepsInv(s, e);
    }
  }

  ghost function Run(events: seq<Event>): System {
    if |events| == 0 then FRESH else Next(Run(events[..|events| - 1]), events[|events| - 1])
  }

  lemma {:induction false} RunKeepsInv(events: seq<Event>)
    ensures Inv(Run(events))
    decreases |events|
  {
    if |events| > 0 {
      RunKeepsInv(events[..|events| - 1]);
      NextKeepsInv(Run(events[..|events| - 1]), events[|events| - 1]);
    }
  }

  predicate Invalidating(e: Event) {
    e.Do? && Invalidates(e.k)
  }

  /** How many of the events from `i` up to `j` invalidate. */
  function Invalidations(events: seq<Event>, i: nat, j: nat): nat
    requires i <= j <= |events|
    decreases j
  {
    if i == j then 0 else Invalidations(events, i, j - 1) + if Invalidating(events[j - 1]) then 1 else 0
  }

  lemma {:induction false} NoInvalidationIff(events: seq<Event>, i: nat, j: nat)
    requires i <= j <= |events|
    ensures Invalidations(events, i, j) == 0 <==> forall m | i <= m < j :: !Invalidating(events[m])
    decreases j
  {
    if i < j {
      NoInvalidationIff(events, i, j - 1);
    }
  }

  lemma StepCounts(s: System, e: Event)
    ensures Next(s, e).gate.epoch == if Invalidating(e) then (s.gate.epoch + 1) % EPOCHS else s.gate.epoch
    ensures s.gate.disconnected || (e.Do? && Disconnects(e.k)) ==> Next(s, e).gate.disconnected
    ensures forall op | op in s.stage :: op in Next(s, e).stage
    ensures Inv(s) ==> forall op | op in s.admitted :: op in Next(s, e).admitted && Next(s, e).admitted[op] == s.admitted[op]
  {
  }

  /** One more step of a counter that wraps around. */
  lemma CountOn(start: nat, n: nat)
    ensures ((start + n) % EPOCHS + 1) % EPOCHS == (start + (n + 1)) % EPOCHS
  {
  }

  lemma BackAtStart(start: nat, n: nat)
    requires start < EPOCHS && (start + n) % EPOCHS == start
    ensures n % EPOCHS == 0
  {
  }

  /**
   * The epoch counts invalidating events and nothing else, modulo its width; an admission keeps the
   * epoch it read; a session once disconnected stays so.
   */
  lemma EpochCounts(events: seq<Event>, i: nat, j: nat)
    requires i <= j <= |events|
    ensures Run(events[..j]).gate.epoch == (Run(events[..i]).gate.epoch + Invalidations(events, i, j)) % EPOCHS
    ensures forall op | op in Run(events[..i]).admitted ::
              op in Run(events[..j]).admitted && Run(events[..j]).admitted[op] == Run(events[..i]).admitted[op]
    ensures Run(events[..i]).gate.disconnected || (exists m :: i <= m < j && events[m].Do? && Disconnects(events[m].k)) ==>
              Run(events[..j]).gate.disconnected
  {
    hide Run;
    EpochMoves(events, i, j);
    RestStays(events, i, j);
  }

  lemma {:induction false} EpochMoves(events: seq<Event>, i: nat, j: nat)
    requires i <= j <= |events|
    ensures Run(events[..j]).gate.epoch == (Run(events[..i]).gate.epoch + Invalidations(events, i, j)) % EPOCHS
    decreases j
  {
    hide Inv, Next, Run;
    if i == j {
      RunKeepsInv(events[..i]);
      EpochFits(Run(events[..i]));
    } else {
      EpochMoves(events, i, j - 1);
      CountOn(Run(events[..i]).gate.epoch, Invalidations(events, i, j - 1));
      RunStep(events, j);
      StepCounts(Run(events[..j - 1]), events[j - 1]);
    }
  }

  lemma EpochFits(s: System)
    requires Inv(s)
    ensures s.gate.epoch % EPOCHS == s.gate.epoch
  {
  }

  lemma RunStep(events: seq<Event>, j: nat)
    requires 0 < j <= |events|
    ensures Run(events[..j]) == Next(Run(events[..j - 1]), events[j - 1])
  {
    assert events[..j][..j - 1] == events[..j - 1];
  }

  lemma {:induction false} RestStays(events: seq<Event>, i: nat, j: nat)
    requires i <= j <= |events|
    ensures forall op | op in Run(events[..i]).admitted ::
              op in Run(events[..j]).admitted && Run(events[..j]).admitted[op] == Run(events[..i]).admitted[op]
    ensures Run(events[..i]).gate.disconnected || (exists m :: i <= m < j && events[m].Do? && Disconnects(events[m].k)) ==>
              Run(events[..j]).gate.disconnected
    decreases j
  {
    hide Inv, Next, Run;
    if i < j {
      RunKeepsInv(events[..j - 1]);
      RestStays(events, i, j - 1);
      RunStep(events, j);
      StepCounts(Run(events[..j - 1]), events[j - 1]);
      if m :| i <= m < j && events[m].Do? && Disconnects(events[m].k) {
        assert m == j - 1 || m < j - 1;
      }
    }
  }

  /** The operation reads the epoch by event `i` and becomes active by event `j`. */
  ghost predicate ReadAndStarted(events: seq<Event>, i: nat, j: nat, op: Op) {
    && i < j < |events| && events[i] == Admit(op) && Enabled(Run(events[..i]), events[i])
    && Run(events[..j]).gate.active != Some(op) && Run(events[..j + 1]).gate.active == Some(op)
  }

  /** What becomes active starts with the current epoch, in a connected session. */
  lemma StartsCurrent(events: seq<Event>, j: nat, op: Op)
    requires j < |events| && Run(events[..j]).gate.active != Some(op) && Run(events[..j + 1]).gate.active == Some(op)
    ensures var s := Run(events[..j]);
            && events[j].TryStart? && op in s.admitted && s.admitted[op] == s.gate.epoch && !s.gate.disconnected
  {
    RunStep(events, j + 1);
    hide Q.Next;
  }

  /**
   * The fence: between the read of the epoch and the event by which the operation becomes active the
   * epoch came round to where it was; short of 2^64 such events, then, no pause, cancel, disconnect,
   * close, link loss or scope change happened in between.
   */
  lemma NoStaleStart(events: seq<Event>, i: nat, j: nat, op: Op)
    requires ReadAndStarted(events, i, j, op)
    ensures Invalidations(events, i, j + 1) % EPOCHS == 0
    ensures Invalidations(events, i, j + 1) < EPOCHS ==> forall m | i <= m <= j :: !Invalidating(events[m])
  {
    var before, after := Run(events[..i]), Run(events[..i + 1]);
    assert events[..i + 1][..i] == events[..i];
    assert op in after.admitted && after.admitted[op] == before.gate.epoch;
    assert events[..j + 1][..j] == events[..j];
    StartsCurrent(events, j, op);
    EpochCounts(events, i + 1, j);
    EpochCounts(events, i, j);
    RunKeepsInv(events[..i]);
    hide Run, Next, Enabled;
    BackAtStart(before.gate.epoch, Invalidations(events, i, j));
    NoInvalidationIff(events, i, j + 1);
  }

  // ---------- from the reservation on ----------

  /**
   * An operation that was reserved by event `r` and started saw an invalidating event since then exactly
   * when one fell before its read; and no disconnect, link loss or close ever did.
   */
  lemma SeenIffBeforeRead(events: seq<Event>, r: nat, i: nat, j: nat, op: Op)
    requires r < i && ReadAndStarted(events, i, j, op) && events[r] == Reserve(op) && Enabled(Run(events[..r]), events[r])
    requires Invalidations(events, i, j + 1) < EPOCHS
    ensures (exists m :: r <= m <= j && Invalidating(events[m])) <==> (exists m :: r <= m < i && Invalidating(events[m]))
    ensures forall m | 0 <= m <= j :: !(events[m].Do? && Disconnects(events[m].k))
  {
    NoStaleStart(events, i, j, op);
    StartsCurrent(events, j, op);
    EpochCounts(events, 0, j);
    hide Run, Enabled, Inv, Next;
  }

  /** A control event after the reservation of an operation that is active nevertheless, and not cancelled. */
  ghost predicate Unnoticed(events: seq<Event>, r: nat, m: nat, op: Op, k: Control) {
    && r < m < |events| && events[r] == Reserve(op) && Enabled(Run(events[..r]), events[r]) && events[m] == Do(k)
    && Run(events).gate.active == Some(op) && op !in Run(events).gate.cancelled
  }

  /** Which invalidating events can go unnoticed after the reservation: exactly those that do not disconnect. */
  lemma UnnoticedIff(op: Op, k: Control)
    requires Invalidates(k)
    ensures (exists events, r, m :: Unnoticed(events, r, m, op, k)) <==> !Disconnects(k)
  {
    if !Disconnects(k) {
      var events := UnnoticedBeforeRead(op, k);
      assert events[..0] == [];
      assert Unnoticed(events, 0, 1, op, k);
    }
    forall events, r, m | Unnoticed(events, r, m, op, k)
      ensures !Disconnects(k)
    {
      ActiveIsFenced(events);
      EpochCounts(events, 0, |events|);
      assert events[..|events|] == events;
    }
  }

  /** The window: between the reservation and the read the event happens, and a resume, and the operation starts. */
  lemma UnnoticedBeforeRead(op: Op, k: Control) returns (events: seq<Event>)
    requires Invalidates(k) && !Disconnects(k)
    ensures |events| == 6 && events[0] == Reserve(op) && events[1] == Do(k) && events[3] == Admit(op)
    ensures op in Run(events[..1]).stage && Run(events).gate.active == Some(op) && op !in Run(events).gate.cancelled
  {
    events := [Reserve(op), Do(k), Do(Resume(false)), Admit(op), Queue(Q.Acquire(op)), TryStart(op, false)];
    assert events[..6] == events && events[..0] == [];
    var s1 := Prefix(events, 1);
    var s2 := Prefix(events, 2);
    var s3 := Prefix(events, 3);
    var s4 := Prefix(events, 4);
    var s5 := Prefix(events, 5);
    var s6 := Prefix(events, 6);
    ReservedAndResumed(op, k);
    AdmittedAndStarted(s3, op);
    hide Run, Next;
    assert Run([]) == FRESH by { NothingRun(); }
    StageStays(s1, op);
  }

  lemma NothingRun()
    ensures Run([]) == FRESH
  {
  }

  lemma StageStays(s: System, op: Op)
    requires s == Next(FRESH, Reserve(op))
    ensures op in s.stage
  {
  }

  lemma ReservedAndResumed(op: Op, k: Control)
    requires Invalidates(k) && !Disconnects(k)
    ensures Next(Next(Next(FRESH, Reserve(op)), Do(k)), Do(Resume(false)))
            == System(Gate(1, false, false, None, {}), Q.START, map[], map[op := Reserved])
  {
    FreeQueue(op);
    hide Q.Next, NextStart;
    assert Next(FRESH, Reserve(op)) == FRESH.(stage := map[op := Reserved]);
  }

  lemma AdmittedAndStarted(s: System, op: Op)
    ensures s == System(Gate(1, false, false, None, {}), Q.START, map[], map[op := Reserved]) ==>
              Next(Next(Next(s, Admit(op)), Queue(Q.Acquire(op))), TryStart(op, false)).gate == Gate(1, false, false, Some(op), {})
  {
    FreeQueue(op);
    hide Q.Next, Apply;
    if s == System(Gate(1, false, false, None, {}), Q.START, map[], map[op := Reserved]) {
      var s1 := Next(s, Admit(op));
      assert s1 == System(s.gate, Q.START, map[op := 1], map[op := Admitted]);
      var s2 := Next(s1, Queue(Q.Acquire(op)));
      assert s2 == s1.(queue := Q.Next(Q.START, Q.Acquire(op)));
    }
  }

  /** Cancelling an empty queue changes nothing; the first caller holds the permit at once. */
  lemma FreeQueue(op: Op)
    ensures Q.Next(Q.START, Q.CancelAll) == Q.START
    ensures op in Q.Next(Q.START, Q.Acquire(op)).pc && Q.Next(Q.START, Q.Acquire(op)).pc[op] == Q.Holding
  {
  }

  lemma Prefix(events: seq<Event>, n: nat) returns (s: System)
    requires 0 < n <= |events|
    ensures s == Run(events[..n]) == Next(Run(events[..n - 1]), events[n - 1])
  {
    assert events[..n][..n - 1] == events[..n - 1];
    s := Run(events[..n]);
  }

  /** While an operation is active it owns the permit, and it is current or already cancelled. */
  lemma ActiveIsFenced(events: seq<Event>)
    requires Run(events).gate.active.Some?
    ensures var s, op := Run(events), Run(events).gate.active.value;
            && HoldsPermit(s, op)
            && (forall other | other in s.stage && s.stage[other] == Running :: other == op)
            && op in s.admitted
            && (op in s.gate.cancelled ||
                (s.admitted[op] == s.gate.epoch && !s.gate.paused && !s.gate.disconnected))
  {
    RunKeepsInv(events);
  }

  // ---------- what the controls mean for work ----------

  /** Whether the last word on it was a pause: of the user, of the agent, or of a scope message. */
  function LastSaidPaused(events: seq<Event>): bool
    decreases |events|
  {
    if |events| == 0 then false
    else SaidPaused(events[|events| - 1], LastSaidPaused(events[..|events| - 1]))
  }

  function SaidPaused(e: Event, before: bool): bool {
    match e
    case Do(Pause) => true
    case Do(WaitingUser) => true
    case Do(Scope(paused, _)) => paused
    case Do(Resume(localPaused)) => before && localPaused
    case _ => before
  }

  /** The session is paused exactly when the last word on it was so, and disconnected exactly when it ever was. */
  lemma {:induction false} PausedByLastWord(events: seq<Event>)
    ensures Run(events).gate.paused == LastSaidPaused(events)
    ensures Run(events).gate.disconnected <==> exists m :: 0 <= m < |events| && events[m].Do? && Disconnects(events[m].k)
    decreases |events|
  {
    if |events| > 0 {
      var init, last := events[..|events| - 1], events[|events| - 1];
      PausedByLastWord(init);
      StepSays(Run(init), last);
      assert forall m | 0 <= m < |init| :: init[m] == events[m];
      hide Next, Inv;
    }
  }

  lemma StepSays(s: System, e: Event)
    ensures var s' := Next(s, e);
            && s'.gate.paused == SaidPaused(e, s.gate.paused)
            && (s'.gate.disconnected <==> s.gate.disconnected || (e.Do? && Disconnects(e.k)))
  {
    hide Q.Next;
  }

  /**
   * Work that has its permit and tries to start becomes active exactly when its end was not seen, no event moved the
   * epoch on since it read it, and the session is neither paused nor disconnected; otherwise it leaves, and
   * who was active stays so.
   */
  lemma StartAnswers(events: seq<Event>, op: Op, sawEnd: bool)
    requires Enabled(Run(events), TryStart(op, sawEnd))
    ensures var s, s' := Run(events), Next(Run(events), TryStart(op, sawEnd));
            var starts := !(sawEnd && op in s.queue.done) && op in s.admitted && s.admitted[op] == s.gate.epoch
                          && !LastSaidPaused(events) && !s.gate.disconnected;
            && op in s.admitted
            && s'.gate == (if starts then s.gate.(active := Some(op)) else s.gate)
            && op in s'.stage && s'.stage[op] == (if starts then Running else Left)
            && s'.queue == s.queue
            && (Start(s.gate, op, s.admitted[op]).1 ==
                  if s.admitted[op] != s.gate.epoch then Stale
                  else if LastSaidPaused(events) || s.gate.disconnected then AccessPaused else Started)
  {
    RunKeepsInv(events);
    PausedByLastWord(events);
    hide Run, Q.Inv;
  }

  /** An event that invalidates cancels the active work and all that waits; any other leaves both alone. */
  lemma ControlAnswers(events: seq<Event>, k: Control)
    ensures var s, s' := Run(events), Next(Run(events), Do(k));
            && s'.gate.active == s.gate.active && s'.stage == s.stage && s'.admitted == s.admitted
            && s'.gate.cancelled == (if Invalidating(Do(k)) && s.gate.active.Some? then s.gate.cancelled + {s.gate.active.value}
                                     else s.gate.cancelled)
            && s'.gate.epoch == (if Invalidating(Do(k)) then (s.gate.epoch + 1) % EPOCHS else s.gate.epoch)
            && s'.queue == (if Invalidating(Do(k)) then Q.Next(s.queue, Q.CancelAll) else s.queue)
            && (Invalidating(Do(k)) ==> s'.queue.q.waiting == [] && forall c :: c in s.queue.q.waiting ==> Q.Doomed(s'.queue, c))
            && (Invalidating(Do(k)) <==> k != Scope(false, false) && !k.Resume?)
  {
    hide Run, Q.Next, Q.Inv, Q.Doomed, Q.Owns;
    RunKeepsInv(events);
    Q.CancelDooms(Run(events).queue);
  }
}
