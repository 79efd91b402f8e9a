/// The bounded single-worker writer of cmd/agent/browser_journal_writer.go.
///
/// `Writer` is the state behind the mutex together with the job channel.  A
/// `changed` channel is known by its number: `signals` counts how many of them
/// were closed, so a goroutine that remembers `seen` wakes once `signals > seen`.

module JournalWriter {
  import opened Wrappers

  const SLOTS := 8

  type SlotId = nat

  datatype Job = Job(slot: SlotId, path: string, data: string)

  datatype Writer = Writer(slots: set<SlotId>, submitted: set<SlotId>, released: set<SlotId>,
                           jobs: seq<Job>, closed: bool, signals: nat, next: SlotId)

  datatype WriteResult = Accepted | WriterClosed | SlotReleased | SlotUsed | ContextEnded

  // ---------- critical sections as functions ----------

  function TryReserve(w: Writer): (Writer, Option<SlotId>) {
    if w.closed || |w.slots| >= SLOTS then (w, None)
    else (w.(slots := w.slots + {w.next}, next := w.next + 1), Some(w.next))
  }

  function Drop(w: Writer, slot: SlotId): Writer {
    w.(slots := w.slots - {slot}, released := w.released + {slot}, signals := w.signals + 1)
  }

  function Release(w: Writer, slot: SlotId): Writer {
    if slot in w.submitted || slot in w.released then w else Drop(w, slot)
  }

  function Submit(w: Writer, job: Job, expired: bool): (Writer, WriteResult) {
    if w.closed then (Release(w, job.slot), WriterClosed)
    else if job.slot in w.released then (w, SlotReleased)
    else if job.slot in w.submitted then (w, SlotUsed)
    else if expired then (Drop(w, job.slot), ContextEnded)
    else (w.(submitted := w.submitted + {job.slot}, jobs := w.jobs + [job]), Accepted)
  }

  function CloseWriter(w: Writer): Writer {
    w.(closed := true, slots := w.slots * w.submitted, released := w.released + (w.slots - w.submitted),
       signals := w.signals + 1)
  }

  // ---------- the writer object ----------

  class BrowserJournalWriter {
    var slots: set<SlotId>
    var submitted: set<SlotId>
    var released: set<SlotId>
    var jobs: seq<Job>
    var closed: bool
    var signals: nat
    var next: SlotId

    ghost function Model(): Writer
      reads this
    {
      Writer(slots, submitted, released, jobs, closed, signals, next)
    }

    constructor ()
      ensures Model() == Writer({}, {}, {}, [], false, 0, 0)
    {
      slots, submitted, released, jobs, closed, signals, next := {}, {}, {}, [], false, 0, 0;
    }

    method TryReserveLocked() returns (slot: Option<SlotId>)
      modifies this
      ensures (Model(), slot) == TryReserve(old(Model()))
    {
      if closed || |slots| >= SLOTS {
        return None;
      }
      slot := Some(next);
      slots := slots + {next};
      next := next + 1;
    }

    method ReleaseSlot(slot: SlotId)
      modifies this
      ensures Model() == Release(old(Model()), slot)
    {
      if slot in submitted || slot in released {
        return;
      }
      released := released + {slot};
      slots := slots - {slot};
      signals := signals + 1;
    }

    method WriteSlot(job: Job, expired: bool) returns (result: WriteResult)
      modifies this
      ensures (Model(), result) == Submit(old(Model()), job, expired)
    {
      if closed {
        ReleaseSlot(job.slot);
        return WriterClosed;
      }
      if job.slot in released {
        return SlotReleased;
      }
      if job.slot in submitted {
        return SlotUsed;
      }
      if expired {
        released := released + {job.slot};
        slots := slots - {job.slot};
        signals := signals + 1;
        return ContextEnded;
      }
      submitted := submitted + {job.slot};
      jobs := jobs + [job];
      return Accepted;
    }

    method Close()
      modifies this
      ensures Model() == CloseWriter(old(Model()))
    {
      closed := true;
      var rest := slots;
      while rest != {}
        invariant rest <= old(slots) && submitted == old(submitted) && jobs == old(jobs) && closed
        invariant next == old(next) && signals == old(signals)
        invariant slots == (old(slots) - rest) * submitted + rest
        invariant released == old(released) + (old(slots) - rest - submitted)
        decreases rest
      {
        var slot :| slot in rest;
        if slot !in submitted {
          released := released + {slot};
          slots := slots - {slot};
        }
        rest := rest - {slot};
      }
      signals := signals + 1;
    }

    /** The critical section at the end of `runJob`. */
    method FinishJob(job: Job)
      modifies this
      ensures Model() == Drop(old(Model()), job.slot)
    {
      slots := slots - {job.slot};
      released := released + {job.slot};
      signals := signals + 1;
    }
  }

  // ---------- the worker and its clients ----------

  /** Where `run` stands; `polled` tells which of its two receives took the job. */
  datatype Worker =
    | Poll
    | Check
    | Idle(seen: nat)
    | Writing(job: Job, polled: bool)
    | Written(job: Job, polled: bool)
    | Exited

  /** `blocked` are writers waiting for a slot, with the channel number they remember. */
  datatype World = World(w: Writer, worker: Worker, accepted: seq<Job>, written: seq<Job>, blocked: map<nat, nat>)

  datatype Event =
    | Reserve
    | ReleaseOne(slot: SlotId)
    | SubmitOne(job: Job, expired: bool)
    | CloseAll
    | Block(writer: nat)
    | Unblock(writer: nat)
    | Work(preferWake: bool)

  const START := World(Writer({}, {}, {}, [], false, 0, 0), Poll, [], [], map[])

  function WorkStep(s: World, preferWake: bool): World {
    match s.worker
    case Poll =>
      if |s.w.jobs| > 0 then s.(w := s.w.(jobs := s.w.jobs[1..]), worker := Writing(s.w.jobs[0], true))
      else s.(worker := Check)
    case Check =>
      if s.w.closed && s.w.slots == {} then s.(worker := Exited) else s.(worker := Idle(s.w.signals))
    case Idle(seen) =>
      // a select with two ready cases may take either
      if seen < s.w.signals && (preferWake || |s.w.jobs| == 0) then s.(worker := Poll)
      else if |s.w.jobs| > 0 then s.(w := s.w.(jobs := s.w.jobs[1..]), worker := Writing(s.w.jobs[0], false))
      else s
    case Writing(job, polled) => s.(worker := Written(job, polled), written := s.written + [job])
    case Written(job, polled) => s.(w := Drop(s.w, job.slot), worker := if polled then Check else Poll)
    case Exited => s
  }

  function Next(s: World, e: Event): World {
    match e
    case Reserve => s.(w := TryReserve(s.w).0)
    case ReleaseOne(slot) => if slot < s.w.next then s.(w := Release(s.w, slot)) else s
    case SubmitOne(job, expired) =>
      if job.slot >= s.w.next then s else
      var (w, result) := Submit(s.w, job, expired);
      s.(w := w, accepted := if result == Accepted then s.accepted + [job] else s.accepted)
    case CloseAll => s.(w := CloseWriter(s.w))
    case Block(writer) =>
      if !s.w.closed && |s.w.slots| >= SLOTS then s.(blocked := s.blocked[writer := s.w.signals]) else s
    case Unblock(writer) =>
      if writer in s.blocked && s.blocked[writer] < s.w.signals then s.(blocked := s.blocked - {writer}) else s
    case Work(preferWake) => WorkStep(s, preferWake)
  }

  /** Jobs accepted but not yet finished, in order. */
  function Pending(s: World): seq<Job> {
    if s.worker.Writing? || s.worker.Written? then [s.worker.job] + s.w.jobs else s.w.jobs
  }

  function Unwritten(s: World): seq<Job> {
    if s.worker.Writing? then [s.worker.job] + s.w.jobs else s.w.jobs
  }

  ghost function SlotsOf(pending: seq<Job>): set<SlotId> {
    set i | 0 <= i < |pending| :: pending[i].slot
  }

  /** Every submitted slot still reserved has exactly one pending job. */
  ghost predicate OwnsSlots(w: Writer, pending: seq<Job>) {
    && (forall i, j | 0 <= i < j < |pending| :: pending[i].slot != pending[j].slot)
    && SlotsOf(pending) == w.slots * w.submitted
  }

  ghost predicate Slots(w: Writer) {
    && |w.slots| <= SLOTS
    && (forall slot | slot in w.slots :: slot < w.next && slot !in w.released)
    && (forall slot | slot in w.submitted || slot in w.released :: slot < w.next)
    && (forall slot: SlotId | slot < w.next && slot !in w.submitted && slot !in w.released :: slot in w.slots)
    && (w.closed ==> w.slots <= w.submitted)
  }

  ghost predicate Inv(s: World) {
    && Slots(s.w)
    && OwnsSlots(s.w, Pending(s))
    && s.accepted == s.written + Unwritten(s)
    && (s.worker.Exited? ==> s.w.closed && s.w.slots == {})
    // no wakeup is lost, neither for the worker nor for a writer waiting for a slot
    && (s.worker.Idle? ==> s.worker.seen <= s.w.signals)
    && (s.worker.Idle? && s.worker.seen == s.w.signals ==> !(s.w.closed && s.w.slots == {}))
    && (forall writer | writer in s.blocked :: s.blocked[writer] <= s.w.signals)
    && (forall writer | writer in s.blocked && s.blocked[writer] == s.w.signals :: !s.w.closed && |s.w.slots| >= SLOTS)
  }

  lemma {:induction false} PendingFit(pending: seq<Job>, slots: set<SlotId>)
    requires forall i, j | 0 <= i < j < |pending| :: pending[i].slot != pending[j].slot
    requires SlotsOf(pending) <= slots
    ensures |pending| <= |slots|
    decreases |pending|
  {
    if |pending| > 0 {
      var first, rest := pending[0].slot, pending[1..];
      assert first in SlotsOf(pending);
      forall i | 0 <= i < |rest| ensures rest[i].slot in slots - {first} {
        assert rest[i] == pending[i + 1] && pending[i + 1].slot in SlotsOf(pending);
      }
      PendingFit(rest, slots - {first});
    }
  }

  lemma PendingNeedsSlots(pending: seq<Job>)
    ensures |pending| > 0 ==> SlotsOf(pending) != {}
  {
    if |pending| > 0 {
      assert pending[0].slot in SlotsOf(pending);
    }
  }

  lemma SlotsOfSnoc(pending: seq<Job>, job: Job)
    ensures SlotsOf(pending + [job]) == SlotsOf(pending) + {job.slot}
  {
    var longer := pending + [job];
    assert longer[|pending|] == job;
    forall slot | slot in SlotsOf(pending) ensures slot in SlotsOf(longer) {
      var i :| 0 <= i < |pending| && pending[i].slot == slot;
      assert longer[i] == pending[i];
    }
  }

  lemma SlotsOfCons(job: Job, rest: seq<Job>)
    ensures SlotsOf([job] + rest) == {job.slot} + SlotsOf(rest)
    ensures forall i | 0 <= i < |rest| :: ([job] + rest)[i + 1] == rest[i]
  {
    var longer := [job] + rest;
    assert longer[0] == job;
    forall slot | slot in SlotsOf(rest) ensures slot in SlotsOf(longer) {
      var i :| 0 <= i < |rest| && rest[i].slot == slot;
      assert longer[i + 1] == rest[i];
    }
  }

  lemma ReserveKeeps(w: Writer, pending: seq<Job>)
    requires Slots(w) && OwnsSlots(w, pending)
    ensures Slots(TryReserve(w).0) && OwnsSlots(TryReserve(w).0, pending)
  {
    assert w.next !in w.slots && w.next !in w.submitted;
    assert (w.slots + {w.next}) * w.submitted == w.slots * w.submitted;
  }

  lemma DropKeeps(w: Writer, pending: seq<Job>, slot: SlotId)
    requires Slots(w) && OwnsSlots(w, pending) && slot < w.next && slot !in w.submitted
    ensures Slots(Drop(w, slot)) && OwnsSlots(Drop(w, slot), pending)
  {
    assert (w.slots - {slot}) * w.submitted == w.slots * w.submitted;
    assert |w.slots - {slot}| <= |w.slots|;
  }

  lemma CloseKeeps(w: Writer, pending: seq<Job>)
    requires Slots(w) && OwnsSlots(w, pending)
    ensures Slots(CloseWriter(w)) && OwnsSlots(CloseWriter(w), pending)
  {
    assert (w.slots * w.submitted) * w.submitted == w.slots * w.submitted;
    Fewer(w.slots * w.submitted, w.slots);
  }

  lemma Fewer(a: set<SlotId>, b: set<SlotId>)
    requires a <= b
    ensures |a| <= |b|
  {
    assert b == a + (b - a);
  }

  lemma AcceptKeeps(w: Writer, pending: seq<Job>, job: Job)
    requires Slots(w) && OwnsSlots(w, pending) && Submit(w, job, false).1 == Accepted && job.slot < w.next
    ensures Slots(Submit(w, job, false).0) && OwnsSlots(Submit(w, job, false).0, pending + [job])
  {
    assert job.slot in w.slots;
    SlotsOfSnoc(pending, job);
    assert w.slots * (w.submitted + {job.slot}) == w.slots * w.submitted + {job.slot};
    forall i | 0 <= i < |pending| ensures pending[i].slot != job.slot {
      assert pending[i].slot in SlotsOf(pending);
    }
  }

  lemma FinishKeeps(w: Writer, job: Job, rest: seq<Job>)
    requires Slots(w) && OwnsSlots(w, [job] + rest)
    ensures Slots(Drop(w, job.slot)) && OwnsSlots(Drop(w, job.slot), rest)
    ensures |Drop(w, job.slot).slots| == |w.slots| - 1
  {
    SlotsOfCons(job, rest);
    assert job.slot in w.slots && job.slot in w.submitted;
    forall i | 0 <= i < |rest| ensures rest[i].slot != job.slot {
      assert ([job] + rest)[0].slot != ([job] + rest)[i + 1].slot;
    }
    assert job.slot !in SlotsOf(rest);
    assert (w.slots - {job.slot}) * w.submitted == SlotsOf(rest);
  }

  lemma AcceptedKeepsInv(s: World, job: Job, expired: bool)
    requires Inv(s) && job.slot < s.w.next && Submit(s.w, job, expired).1 == Accepted
    ensures Inv(s.(w := Submit(s.w, job, expired).0, accepted := s.accepted + [job]))
  {
    var s' := s.(w := Submit(s.w, job, expired).0, accepted := s.accepted + [job]);
    AcceptKeeps(s.w, Pending(s), job);
    assert Pending(s') == Pending(s) + [job] && Unwritten(s') == Unwritten(s) + [job];
    assert s.written + Unwritten(s) + [job] == s.written + (Unwritten(s) + [job]);
  }

  lemma SubmitKeepsInv(s: World, job: Job, expired: bool)
    requires Inv(s) && job.slot < s.w.next
    ensures Inv(Next(s, SubmitOne(job, expired)))
  {
    var result := Submit(s.w, job, expired).1;
    if result == Accepted {
      AcceptedKeepsInv(s, job, expired);
    } else if job.slot !in s.w.submitted {
      DropKeeps(s.w, Pending(s), job.slot);
    }
  }

  lemma WorkKeepsInv(s: World, preferWake: bool)
    requires Inv(s)
    ensures Inv(WorkStep(s, preferWake))
  {
    if s.worker.Written? {
      FinishKeepsInv(s, preferWake);
    } else {
      TakeKeepsInv(s, preferWake);
    }
  }

  lemma FinishKeepsInv(s: World, preferWake: bool)
    requires Inv(s) && s.worker.Written?
    ensures Inv(WorkStep(s, preferWake))
  {
    FinishKeeps(s.w, s.worker.job, s.w.jobs);
  }

  /** What the worker takes is still pending, what it writes is no longer unwritten. */
  lemma TakenStaysPending(s: World, preferWake: bool)
    requires !s.worker.Written?
    ensures var s' := WorkStep(s, preferWake);
            && Pending(s') == Pending(s) && s'.w == s.w.(jobs := s'.w.jobs)
            && s'.accepted == s.accepted && s'.written + Unwritten(s') == s.written + Unwritten(s)
  {
    TakenIsUnwritten(s, preferWake);
    hide Unwritten;
    if |s.w.jobs| > 0 {
      assert s.w.jobs == [s.w.jobs[0]] + s.w.jobs[1..];
    }
  }

  lemma TakenIsUnwritten(s: World, preferWake: bool)
    requires !s.worker.Written?
    ensures var s' := WorkStep(s, preferWake); s'.written + Unwritten(s') == s.written + Unwritten(s)
  {
    if |s.w.jobs| > 0 {
      assert s.w.jobs == [s.w.jobs[0]] + s.w.jobs[1..];
    }
    if s.worker.Writing? {
      assert s.written + [s.worker.job] + s.w.jobs == s.written + ([s.worker.job] + s.w.jobs);
    }
  }

  lemma TakeKeepsInv(s: World, preferWake: bool)
    requires Inv(s) && !s.worker.Written?
    ensures Inv(WorkStep(s, preferWake))
  {
    TakenStaysPending(s, preferWake);
    hide Pending, Unwritten, SlotsOf;
  }

  lemma NextKeepsInv(s: World, e: Event)
    requires Inv(s)
    ensures Inv(Next(s, e))
  {
    match e
    case Reserve => ReserveKeeps(s.w, Pending(s));
    case ReleaseOne(slot) =>
      if slot < s.w.next && slot !in s.w.submitted {
        DropKeeps(s.w, Pending(s), slot);
      }
    case SubmitOne(job, expired) =>
      if job.slot < s.w.next {
        SubmitKeepsInv(s, job, expired);
      }
    case CloseAll => CloseKeeps(s.w, Pending(s));
    case Block(_) =>
    case Unblock(_) =>
    case Work(preferWake) => WorkKeepsInv(s, preferWake);
  }

  // ---------- whole runs ----------

  function Run(events: seq<Event>): World {
    if |events| == 0 then START else Next(Run(events[..|events| - 1]), events[|events| - 1])
  }

  lemma {:induction false} RunKeepsInv(events: seq<Event>)
    ensures Inv(Run(events))
    decreases |events|
  {
    if |events| == 0 {
      assert SlotsOf(Pending(START)) == START.w.slots * START.w.submitted;
    } else {
      RunKeepsInv(events[..|events| - 1]);
      NextKeepsInv(Run(events[..|events| - 1]), events[|events| - 1]);
    }
  }

  /** At most eight reservations, and the channel has room whenever a job is sent under the mutex. */
  lemma SendNeverBlocks(events: seq<Event>, job: Job, expired: bool)
    requires job.slot < Run(events).w.next && Submit(Run(events).w, job, expired).1 == Accepted
    ensures |Run(events).w.jobs| < SLOTS
  {
    var s := Run(events);
    RunKeepsInv(events);
    AcceptKeeps(s.w, Pending(s), job);
    SlotsOfSnoc(Pending(s), job);
    PendingFit(Pending(s) + [job], s.w.slots);
  }

  /** Accepted jobs are written once each, in acceptance order; an exited worker has written them all. */
  lemma WrittenInOrder(events: seq<Event>)
    ensures var s := Run(events);
            && s.written <= s.accepted
            && |s.w.slots| <= SLOTS
            && (s.worker.Exited? ==> s.w.closed && s.written == s.accepted && s.w.jobs == [])
  {
    RunKeepsInv(events);
    var s := Run(events);
    PendingNeedsSlots(s.w.jobs);
  }

  lemma ClosedStep(s: World, e: Event)
    requires s.w.closed
    ensures Next(s, e).w.closed && Next(s, e).accepted == s.accepted && Next(s, e).w.next == s.w.next
  {
  }

  /** Nothing is reserved or accepted after the writer was closed. */
  lemma {:induction false} NothingAcceptedAfterClose(events: seq<Event>, more: seq<Event>)
    requires Run(events).w.closed
    ensures var s, s' := Run(events), Run(events + more);
            s'.w.closed && s'.accepted == s.accepted && s'.w.next == s.w.next
    decreases |more|
  {
    hide Next;
    if |more| == 0 {
      assert events + more == events;
    } else {
      var init := more[..|more| - 1];
      NothingAcceptedAfterClose(events, init);
      ClosedStep(Run(events + init), more[|more| - 1]);
      assert (events + more)[..|events + more| - 1] == events + init;
    }
  }

  /** A worker waiting in a closed writer with slots left has a job to take. */
  lemma NoLostWakeup(events: seq<Event>)
    ensures var s := Run(events);
            s.worker.Idle? && s.worker.seen == s.w.signals && s.w.closed ==> s.w.slots != {} && |s.w.jobs| > 0
    ensures var s := Run(events);
            forall writer | writer in s.blocked && (s.w.closed || |s.w.slots| < SLOTS) :: s.blocked[writer] < s.w.signals
  {
    RunKeepsInv(events);
    var s := Run(events);
    if s.worker.Idle? && s.worker.seen == s.w.signals && s.w.closed {
      var slot :| slot in s.w.slots;
      assert slot in s.w.slots * s.w.submitted;
      assert slot in SlotsOf(s.w.jobs);
    }
  }

  // ---------- shutting down ----------

  function Phase(s: World): nat {
    match s.worker
    case Idle(seen) => if seen < s.w.signals then 7 else 4
    case Poll => 6
    case Check => 5
    case Writing(_, _) => 3
    case Written(_, _) => 2
    case Exited => 0
  }

  /** Bounds the steps a closed writer still needs. */
  function Measure(s: World): nat {
    if s.worker.Exited? then 0 else 8 * |s.w.slots| + Phase(s)
  }

  lemma WorkMakesProgress(s: World, preferWake: bool)
    requires Inv(s) && s.w.closed && !s.worker.Exited?
    ensures Measure(WorkStep(s, preferWake)) < Measure(s)
  {
    match s.worker
    case Idle(seen) =>
      if seen == s.w.signals {
        var slot :| slot in s.w.slots;
        assert slot in SlotsOf(s.w.jobs);
      }
    case Written(job, _) =>
      FinishKeeps(s.w, job, s.w.jobs);
    case _ =>
  }

  /** The worker alone, taking either ready case of each select. */
  function WorkAlone(s: World, choices: seq<bool>): World
    decreases |choices|
  {
    if |choices| == 0 then s else WorkAlone(WorkStep(s, choices[0]), choices[1..])
  }

  /** Closing drains: whatever the worker prefers, it writes all accepted jobs and exits. */
  lemma {:induction false} ClosedWriterDrains(s: World, choices: seq<bool>)
    requires Inv(s) && s.w.closed && |choices| >= Measure(s)
    ensures var s' := WorkAlone(s, choices);
            s'.worker.Exited? && s'.written == s.accepted && s'.accepted == s.accepted
    decreases |choices|
  {
    if s.worker.Exited? {
      ExitedStays(s, choices);
    } else {
      WorkMakesProgress(s, choices[0]);
      WorkKeepsInv(s, choices[0]);
      ClosedWriterDrains(WorkStep(s, choices[0]), choices[1..]);
    }
  }

  lemma {:induction false} ExitedStays(s: World, choices: seq<bool>)
    requires Inv(s) && s.worker.Exited?
    ensures WorkAlone(s, choices) == s && s.written == s.accepted
    decreases |choices|
  {
    PendingNeedsSlots(s.w.jobs);
    if |choices| > 0 {
      ExitedStays(s, choices[1..]);
    }
  }

  // ---------- what each caller is told ----------

  /** The slots whose jobs were accepted, over the whole run. */
  ghost function Used(s: World): set<SlotId> {
    SlotsOf(s.accepted)
  }

  /** The submitted slots are those whose jobs were accepted. */
  ghost predicate History(s: World) {
    s.w.submitted == Used(s)
  }

  lemma {:induction false} RunKeepsHistory(events: seq<Event>)
    ensures History(Run(events))
    decreases |events|
  {
    hide Next, History;
    if |events| > 0 {
      var init, last := events[..|events| - 1], events[|events| - 1];
      RunKeepsHistory(init);
      StepKeepsHistory(Run(init), last);
    } else {
      StartHasHistory();
    }
  }

  lemma StartHasHistory()
    ensures History(START)
  {
  }

  lemma StepKeepsHistory(s: World, e: Event)
    requires History(s)
    ensures History(Next(s, e))
  {
    hide SlotsOf;
    if e.SubmitOne? {
      SlotsOfSnoc(s.accepted, e.job);
    }
  }

  /** A slot is given exactly while nobody closed the writer and fewer than eight are held, and then a new one. */
  lemma ReserveAnswers(events: seq<Event>)
    ensures var s := Run(events);
            var (w, slot) := TryReserve(s.w);
            && (s.w.closed <==> CloseAll in events)
            && (slot.Some? <==> CloseAll !in events && |s.w.slots| < 8)
            && (slot.Some? ==> slot.value !in s.w.slots && slot.value !in Used(s) && w.slots == s.w.slots + {slot.value})
            && (slot.None? ==> w == s.w)
            && Next(s, Reserve) == s.(w := w)
  {
    RunKeepsInv(events);
    RunKeepsHistory(events);
    ClosedIff(events);
    hide Run, Pending, Unwritten, SlotsOf;
  }

  lemma {:induction false} ClosedIff(events: seq<Event>)
    ensures Run(events).w.closed <==> CloseAll in events
    decreases |events|
  {
    hide Next;
    if |events| > 0 {
      var init, last := events[..|events| - 1], events[|events| - 1];
      ClosedIff(init);
      assert events == init + [last];
      StepCloses(Run(init), last);
    }
  }

  lemma StepCloses(s: World, e: Event)
    ensures Next(s, e).w.closed <==> s.w.closed || e == CloseAll
  {
  }

  /**
   * What a submission is told: its job is accepted exactly when the writer is open, its slot is held and unused, and its
   * context lasts.  A refusal says which failed, and frees the slot and signals unless it was used or free already.
   */
  lemma SubmitAnswers(events: seq<Event>, job: Job, expired: bool)
    requires job.slot < Run(events).w.next
    ensures var s, s' := Run(events), Next(Run(events), SubmitOne(job, expired));
            var (w, result) := Submit(s.w, job, expired);
            && s'.w == w
            && (result == Accepted <==> CloseAll !in events && job.slot in s.w.slots && job.slot !in Used(s) && !expired)
            && (result == WriterClosed <==> CloseAll in events)
            && (result == SlotReleased <==> CloseAll !in events && job.slot !in s.w.slots)
            && (result == SlotUsed <==> CloseAll !in events && job.slot in s.w.slots && job.slot in Used(s))
            && (if result == Accepted then s'.accepted == s.accepted + [job] && w.jobs == s.w.jobs + [job] && w.slots == s.w.slots
                else s'.accepted == s.accepted && w.jobs == s.w.jobs)
            && (w.slots == if result == Accepted || job.slot in Used(s) then s.w.slots else s.w.slots - {job.slot})
            && (w.slots != s.w.slots ==> w.signals > s.w.signals)
  {
    RunKeepsInv(events);
    RunKeepsHistory(events);
    ClosedIff(events);
    hide Run, Pending, Unwritten;
    SlotsArePaired(events);
  }

  /** Every slot given out is held or free. */
  ghost predicate Parted(w: Writer) {
    forall slot: SlotId :: slot < w.next ==> (slot in w.slots <==> slot !in w.released)
  }

  lemma OperationsPart(w: Writer, slot: SlotId, job: Job, expired: bool)
    requires Parted(w) && (forall free | free in w.released :: free < w.next)
    ensures Parted(TryReserve(w).0) && Parted(CloseWriter(w))
    ensures Parted(Drop(w, slot)) && Parted(Release(w, slot)) && Parted(Submit(w, job, expired).0)
  {
    assert w.next !in w.released;
  }

  /** A used slot is held until its job is finished, and free after that. */
  lemma {:induction false} SlotsArePaired(events: seq<Event>)
    ensures Parted(Run(events).w)
    decreases |events|
  {
    if |events| > 0 {
      var init, last := events[..|events| - 1], events[|events| - 1];
      var s := Run(init);
      SlotsArePaired(init);
      RunKeepsInv(init);
      assert forall free | free in s.w.released :: free < s.w.next;
      hide Inv, Run, Parted;
      OperationsPart(s.w, if last.ReleaseOne? then last.slot else if s.worker.Written? then s.worker.job.slot else 0,
                     if last.SubmitOne? then last.job else Job(0, "", ""), last.SubmitOne? && last.expired);
      hide Drop, Release, Submit, CloseWriter, TryReserve;
      SameSlotsPart(s, last);
    }
  }

  /** Steps of the worker and of waiting writers leave the slots alone, but for a finished job. */
  lemma SameSlotsPart(s: World, e: Event)
    requires Parted(s.w)
    requires Parted(TryReserve(s.w).0) && Parted(CloseWriter(s.w))
    requires e.ReleaseOne? ==> Parted(Release(s.w, e.slot))
    requires e.SubmitOne? ==> Parted(Submit(s.w, e.job, e.expired).0)
    requires e.Work? && s.worker.Written? ==> Parted(Drop(s.w, s.worker.job.slot))
    ensures Parted(Next(s, e).w)
  {
    hide Drop, Release, Submit, CloseWriter, TryReserve;
  }

  /** Giving a slot back frees it and signals unless its job was accepted; closing frees exactly the slots without accepted jobs, and signals. */
  lemma GivingBackAnswers(events: seq<Event>, slot: SlotId)
    requires slot < Run(events).w.next
    ensures var s, s', c := Run(events), Next(Run(events), ReleaseOne(slot)), Next(Run(events), CloseAll);
            && s'.w.slots == (if slot in Used(s) then s.w.slots else s.w.slots - {slot})
            && (s'.w.slots != s.w.slots ==> s'.w.signals > s.w.signals)
            && s'.w.jobs == s.w.jobs && s'.accepted == s.accepted
            && c.w.slots == s.w.slots * Used(s) && c.w.signals > s.w.signals && c.w.closed
            && c.w.jobs == s.w.jobs && c.accepted == s.accepted
  {
    RunKeepsInv(events);
    RunKeepsHistory(events);
    hide Run, Pending, Unwritten, SlotsOf;
  }
}
