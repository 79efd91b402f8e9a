/// The permit queue of cmd/agent/browser_work_queue.go: one permit per session,
/// at most eight callers waiting for it, first come first served.
///
/// `Queue` is the state behind the mutex.  Each critical section is one function
/// on it, implemented by a method of `BrowserWorkQueue`, and one atomic step of
/// `World`, which adds where every caller of `acquire` stands.

module WorkQueue {

  const WAITING_MAX := 8

  /** One call of `acquire`; it owns at most one waiter. */
  type Caller = nat

  datatype WaiterState = Queued | Granted | Cancelled

  /** `closes` counts how often a waiter's `ready` channel was closed; twice would panic. */
  datatype Queue = Queue(active: bool, waiting: seq<Caller>, state: map<Caller, WaiterState>, closes: map<Caller, nat>)
  {
    ghost predicate Known() {
      state.Keys == closes.Keys && forall c | c in waiting :: c in state
    }
  }

  datatype Outcome = Taken | Enqueued | Busy | Expired

  // ---------- critical sections as functions ----------

  function Grant(q: Queue, c: Caller): Queue
    requires c in q.closes
  {
    q.(state := q.state[c := Granted], closes := q.closes[c := q.closes[c] + 1])
  }

  /** How many waiters at the front are no longer queued. */
  function Skipped(waiting: seq<Caller>, state: map<Caller, WaiterState>): (n: nat)
    requires forall c | c in waiting :: c in state
    ensures n <= |waiting|
  {
    if |waiting| > 0 && state[waiting[0]] != Queued then Skipped(waiting[1..], state) + 1 else 0
  }

  /** Passes the permit to the first waiter still queued, or parks it. */
  function ReleasePermit(q: Queue): Queue
    requires q.Known()
  {
    var n := Skipped(q.waiting, q.state);
    if n == |q.waiting| then q.(active := false, waiting := [])
    else Grant(q.(waiting := q.waiting[n + 1..]), q.waiting[n])
  }

  /** The permit passes over a head that is not queued any more. */
  lemma ReleaseAtHead(q: Queue)
    requires q.Known() && |q.waiting| > 0
    ensures var rest := q.(waiting := q.waiting[1..]);
            && rest.Known()
            && ReleasePermit(q) == if q.state[q.waiting[0]] == Queued then Grant(rest, q.waiting[0]) else ReleasePermit(rest)
  {
    assert q.waiting == [q.waiting[0]] + q.waiting[1..];
  }

  function Enter(q: Queue, c: Caller, expired: bool): (Queue, Outcome) {
    if expired then (q, Expired)
    else if !q.active then (q.(active := true), Taken)
    else if |q.waiting| >= WAITING_MAX then (q, Busy)
    else (q.(waiting := q.waiting + [c], state := q.state[c := Queued], closes := q.closes[c := 0]), Enqueued)
  }

  function Remove(waiting: seq<Caller>, c: Caller): seq<Caller> {
    if |waiting| == 0 then []
    else if waiting[0] == c then waiting[1..]
    else [waiting[0]] + Remove(waiting[1..], c)
  }

  lemma {:induction false} RemoveKeepsOthers(waiting: seq<Caller>, c: Caller)
    ensures forall x | x in Remove(waiting, c) :: x in waiting
    ensures forall x | x in waiting && x != c :: x in Remove(waiting, c)
  {
    if |waiting| > 0 {
      RemoveKeepsOthers(waiting[1..], c);
    }
  }

  /** The caller's context ended while it waited. */
  function LeaveOnDone(q: Queue, c: Caller): Queue
    requires q.Known() && c in q.state
  {
    match q.state[c]
    case Queued =>
      q.(waiting := Remove(q.waiting, c), state := q.state[c := Cancelled])
    case Granted =>
      ReleasePermit(q.(state := q.state[c := Cancelled]))
    case Cancelled => q
  }

  /** The caller's `ready` channel was closed; the flag says whether it now owns the permit. */
  function LeaveOnReady(q: Queue, c: Caller, expired: bool): (Queue, bool)
    requires q.Known() && c in q.state
  {
    if q.state[c] == Cancelled then (q, false)
    else if expired then
      (if q.state[c] == Granted then ReleasePermit(q.(state := q.state[c := Cancelled])) else q, false)
    else (q, true)
  }

  function CancelPending(q: Queue): Queue
    requires q.Known()
  {
    q.(waiting := [],
       state := map c | c in q.state :: if c in q.waiting then Cancelled else q.state[c],
       closes := map c | c in q.closes :: if c in q.waiting then q.closes[c] + 1 else q.closes[c])
  }

  // ---------- the queue object ----------

  class BrowserWorkQueue {
    var active: bool
    var waiting: seq<Caller>
    var state: map<Caller, WaiterState>
    var closes: map<Caller, nat>

    ghost function Model(): Queue
      reads this
    {
      Queue(active, waiting, state, closes)
    }

    constructor ()
      ensures Model() == Queue(false, [], map[], map[])
    {
      active, waiting, state, closes := false, [], map[], map[];
    }

    /** First critical section of `acquire`. */
    method Acquire(c: Caller, expired: bool) returns (outcome: Outcome)
      requires Model().Known()
      modifies this
      ensures (Model(), outcome) == Enter(old(Model()), c, expired)
    {
      if expired {
        return Expired;
      }
      if !active {
        active := true;
        return Taken;
      }
      if |waiting| >= WAITING_MAX {
        return Busy;
      }
      state, closes := state[c := Queued], closes[c := 0];
      waiting := waiting + [c];
      return Enqueued;
    }

    method Release()
      requires Model().Known()
      modifies this
      ensures Model() == ReleasePermit(old(Model()))
    {
      hide Skipped;
      while |waiting| > 0
        invariant Model() == old(Model()).(waiting := waiting) && Model().Known()
        invariant ReleasePermit(Model()) == ReleasePermit(old(Model()))
        decreases |waiting|
      {
        var waiter := waiting[0];
        ReleaseAtHead(Model());
        waiting := waiting[1..];
        if state[waiter] != Queued {
          continue;
        }
        state := state[waiter := Granted];
        closes := closes[waiter := closes[waiter] + 1];
        return;
      }
      active := false;
    }

    method RemoveWaiter(c: Caller)
      modifies this`waiting
      ensures waiting == Remove(old(waiting), c)
    {
      var index := 0;
      while index < |waiting|
        invariant 0 <= index <= |waiting| && waiting == old(waiting)
        invariant Remove(waiting, c) == waiting[..index] + Remove(waiting[index..], c)
      {
        if waiting[index] == c {
          waiting := waiting[..index] + waiting[index + 1..];
          return;
        }
        assert waiting[index..] == [waiting[index]] + waiting[index + 1..];
        index := index + 1;
      }
    }

    method OnDone(c: Caller)
      requires Model().Known() && c in state
      modifies this
      ensures Model() == LeaveOnDone(old(Model()), c)
    {
      if state[c] == Queued {
        RemoveWaiter(c);
        state := state[c := Cancelled];
      } else if state[c] == Granted {
        state := state[c := Cancelled];
        Release();
      }
    }

    method OnReady(c: Caller, expired: bool) returns (owns: bool)
      requires Model().Known() && c in state
      modifies this
      ensures (Model(), owns) == LeaveOnReady(old(Model()), c, expired)
    {
      if state[c] == Cancelled {
        return false;
      }
      if expired {
        if state[c] == Granted {
          state := state[c := Cancelled];
          Release();
        }
        return false;
      }
      return true;
    }

    method CancelAll()
      requires Model().Known()
      requires forall i, j | 0 <= i < j < |waiting| :: waiting[i] != waiting[j]
      modifies this
      ensures Model() == CancelPending(old(Model()))
    {
      var i := 0;
      while i < |waiting|
        invariant 0 <= i <= |waiting| && active == old(active) && waiting == old(waiting)
        invariant state.Keys == old(state).Keys && closes.Keys == old(closes).Keys
        invariant forall c | c in state :: state[c] == if c in waiting[..i] then Cancelled else old(state)[c]
        invariant forall c | c in closes :: closes[c] == old(closes)[c] + if c in waiting[..i] then 1 else 0
      {
        var c := waiting[i];
        assert waiting[..i + 1] == waiting[..i] + [c] && c !in waiting[..i];
        assert forall d :: d in waiting[..i + 1] <==> d in waiting[..i] || d == c;
        state := state[c := Cancelled];
        closes := closes[c := closes[c] + 1];
        i := i + 1;
      }
      assert waiting[..i] == waiting;
      assert state == CancelPending(old(Model())).state && closes == CancelPending(old(Model())).closes;
      waiting := [];
    }
  }

  // ---------- all callers at once ----------

  /** Where one call of `acquire` stands; `Holding` owns an unfired release function. */
  datatype Pc = Waiting | Holding | Released | Refused(outcome: Outcome)

  /** `grants` lists permit owners in order; `ticket` numbers arrivals. */
  datatype World = World(q: Queue, pc: map<Caller, Pc>, done: set<Caller>,
                         grants: seq<Caller>, ticket: map<Caller, nat>, next: nat)

  datatype Event =
    | Acquire(c: Caller)
    | ContextEnds(c: Caller)
    | WakeOnDone(c: Caller)
    | WakeOnReady(c: Caller)
    | FireRelease(c: Caller)
    | CancelAll

  const START := World(Queue(false, [], map[], map[]), map[], {}, [], map[], 0)

  /** Records the waiter that a critical section granted, if any. */
  function Handed(w: World): seq<Caller>
    requires w.q.Known()
  {
    var n := Skipped(w.q.waiting, w.q.state);
    if n < |w.q.waiting| then w.grants + [w.q.waiting[n]] else w.grants
  }

  ghost predicate Enabled(w: World, e: Event) {
    match e
    case Acquire(c) => c !in w.pc
    case ContextEnds(c) => true
    case WakeOnDone(c) => c in w.pc && w.pc[c] == Waiting && c in w.done
    case WakeOnReady(c) => c in w.pc && w.pc[c] == Waiting && c in w.q.closes && w.q.closes[c] > 0
    case FireRelease(c) => c in w.pc && w.pc[c] in {Holding, Released}
    case CancelAll => true
  }

  ghost predicate WellFormed(w: World) {
    w.q.Known() && forall c | c in w.pc && w.pc[c] == Waiting :: c in w.q.state
  }

  ghost function DoAcquire(w: World, c: Caller): World {
    var (q, outcome) := Enter(w.q, c, c in w.done);
    w.(q := q, ticket := w.ticket[c := w.next], next := w.next + 1,
       pc := w.pc[c := match outcome case Taken => Holding case Enqueued => Waiting case _ => Refused(outcome)],
       grants := if outcome == Taken then w.grants + [c] else w.grants)
  }

  /** Returns the permit, recording who gets it next. */
  ghost function HandOn(w: World): World
    requires w.q.Known()
  {
    w.(q := ReleasePermit(w.q), grants := Handed(w))
  }

  /** A granted caller backs out before using the permit. */
  ghost function BackOut(w: World, c: Caller): World {
    w.(q := w.q.(state := w.q.state[c := Cancelled]), pc := w.pc[c := Refused(Expired)])
  }

  ghost function DoWakeOnDone(w: World, c: Caller): World
    requires WellFormed(w) && c in w.q.state
  {
    var w1 := w.(q := LeaveOnDone(w.q, c), pc := w.pc[c := Refused(Expired)]);
    if w.q.state[c] == Granted then w1.(grants := Handed(BackOut(w, c))) else w1
  }

  ghost function DoWakeOnReady(w: World, c: Caller): World
    requires WellFormed(w) && c in w.q.state
  {
    var (q, owns) := LeaveOnReady(w.q, c, c in w.done);
    var w1 := w.(q := q, pc := w.pc[c := if owns then Holding else Refused(Expired)]);
    if !owns && w.q.state[c] == Granted then w1.(grants := Handed(BackOut(w, c))) else w1
  }

  /** sync.Once: only the first call of the release function does anything. */
  ghost function DoFireRelease(w: World, c: Caller): World
    requires WellFormed(w) && c in w.pc
  {
    if w.pc[c] == Released then w else HandOn(w.(pc := w.pc[c := Released]))
  }

  ghost function Do(w: World, e: Event): World
    requires WellFormed(w) && Enabled(w, e)
  {
    match e
    case Acquire(c) => DoAcquire(w, c)
    case ContextEnds(c) => w.(done := w.done + {c})
    case WakeOnDone(c) => DoWakeOnDone(w, c)
    case WakeOnReady(c) => DoWakeOnReady(w, c)
    case FireRelease(c) => DoFireRelease(w, c)
    case CancelAll => w.(q := CancelPending(w.q))
  }

  /** The callers the permit currently belongs to. */
  ghost predicate Owns(w: World, c: Caller) {
    c in w.pc && (w.pc[c] == Holding || (w.pc[c] == Waiting && c in w.q.state && w.q.state[c] == Granted))
  }

  /** Tickets rise along `s`. */
  ghost predicate Ascending(ticket: map<Caller, nat>, next: nat, s: seq<Caller>) {
    (forall c | c in s :: c in ticket && ticket[c] < next) &&
    (forall i, j | 0 <= i < j < |s| :: ticket[s[i]] < ticket[s[j]])
  }

  /** Exactly the callers still queued are in the list, and everyone else can wake up. */
  ghost predicate ListsOf(q: Queue, pc: map<Caller, Pc>) {
    && q.Known()
    && q.state.Keys <= pc.Keys
    && |q.waiting| <= WAITING_MAX
    && (forall c | c in pc && pc[c] == Waiting :: c in q.state)
    && (forall c | c in q.waiting :: c in pc && pc[c] == Waiting && q.state[c] == Queued)
    && (forall c | c in q.state && q.state[c] == Queued :: c in q.waiting && q.closes[c] == 0)
    && (forall c | c in q.state :: q.closes[c] <= 1)
    && (forall c | c in pc && pc[c] == Waiting && q.state[c] != Queued :: q.closes[c] == 1)
  }

  ghost predicate Lists(w: World) {
    ListsOf(w.q, w.pc)
  }

  /** Everything but the ownership of the permit. */
  ghost predicate Shape(w: World) {
    && Lists(w)
    && (!w.q.active ==> w.q.waiting == [])
    && w.pc.Keys == w.ticket.Keys
    && Ascending(w.ticket, w.next, w.grants + w.q.waiting)
  }

  ghost predicate OneOwner(w: World) {
    && (w.q.active <==> exists c :: Owns(w, c))
    && (forall c, d :: Owns(w, c) && Owns(w, d) ==> c == d)
  }

  ghost predicate Inv(w: World) {
    Shape(w) && OneOwner(w)
  }

  lemma SameOwners(w: World, w': World)
    requires OneOwner(w) && w'.q.active == w.q.active && forall c :: Owns(w', c) <==> Owns(w, c)
    ensures OneOwner(w')
  {
    if w.q.active {
      var c :| Owns(w, c);
      assert Owns(w', c);
    }
  }

  lemma AscendingSnoc(ticket: map<Caller, nat>, next: nat, s: seq<Caller>, c: Caller)
    requires Ascending(ticket, next, s) && c !in s
    ensures Ascending(ticket[c := next], next + 1, s) && Ascending(ticket[c := next], next + 1, s + [c])
  {
    var t, s' := ticket[c := next], s + [c];
    forall i, j | 0 <= i < j < |s'| ensures t[s'[i]] < t[s'[j]] {
      assert s'[i] in s;
      if j < |s| {
        assert s'[j] in s;
      }
    }
  }

  lemma Distinct(w: World)
    requires Shape(w)
    ensures forall i, j | 0 <= i < j < |w.q.waiting| :: w.q.waiting[i] != w.q.waiting[j]
  {
    var gw := w.grants + w.q.waiting;
    forall i, j | 0 <= i < j < |w.q.waiting| ensures w.q.waiting[i] != w.q.waiting[j] {
      assert gw[|w.grants| + i] == w.q.waiting[i] && gw[|w.grants| + j] == w.q.waiting[j];
    }
  }

  lemma DropOne(ticket: map<Caller, nat>, next: nat, head: seq<Caller>, c: Caller, rest: seq<Caller>)
    requires Ascending(ticket, next, head + [c] + rest)
    ensures Ascending(ticket, next, head + rest) && c !in rest
  {
    var long, short := head + [c] + rest, head + rest;
    assert forall i | 0 <= i < |short| :: short[i] == long[if i < |head| then i else i + 1];
    assert forall i | 0 <= i < |rest| :: rest[i] == long[|head| + 1 + i];
    assert long[|head|] == c;
  }

  lemma {:induction false} RemoveIsOrdered(ticket: map<Caller, nat>, next: nat, head: seq<Caller>, waiting: seq<Caller>, c: Caller)
    requires Ascending(ticket, next, head + waiting)
    ensures Ascending(ticket, next, head + Remove(waiting, c))
    ensures c !in Remove(waiting, c)
    decreases |waiting|
  {
    hide Ascending;
    if |waiting| > 0 {
      var first, rest := waiting[0], waiting[1..];
      assert head + waiting == head + [first] + rest;
      if first == c {
        DropOne(ticket, next, head, c, rest);
      } else {
        RemoveIsOrdered(ticket, next, head + [first], rest, c);
        assert head + Remove(waiting, c) == head + [first] + Remove(rest, c);
      }
    }
  }

  ghost function GiveTo(w: World, head: Caller, tail: seq<Caller>): World
    requires head in w.q.closes
  {
    w.(q := Grant(w.q.(waiting := tail), head), grants := w.grants + [head])
  }

  lemma FrontIsGranted(w: World)
    requires Lists(w)
    ensures |w.q.waiting| == 0 ==> HandOn(w) == w.(q := w.q.(active := false))
    ensures |w.q.waiting| > 0 ==>
              w.q.waiting[0] in w.q.closes && HandOn(w) == GiveTo(w, w.q.waiting[0], w.q.waiting[1..])
  {
    if |w.q.waiting| > 0 {
      assert w.q.waiting[0] in w.q.waiting;
    }
  }

  lemma GrantLists(w: World, head: Caller, tail: seq<Caller>)
    requires Lists(w) && w.q.waiting == [head] + tail && head !in tail
    ensures Lists(GiveTo(w, head, tail))
  {
    assert head in w.q.waiting;
    assert forall c | c in w.q.waiting && c != head :: c in tail;
    assert forall c | c in tail :: c in w.q.waiting;
  }

  lemma GrantMakesOwner(w: World, head: Caller, tail: seq<Caller>)
    requires Lists(w) && head in w.q.waiting && w.q.active && forall c :: !Owns(w, c)
    ensures OneOwner(GiveTo(w, head, tail))
  {
    var w' := GiveTo(w, head, tail);
    assert Owns(w', head);
    forall c | Owns(w', c) ensures c == head {
      assert !Owns(w, c);
    }
  }

  /** An owner gave the permit up; handing it on restores the invariant. */
  lemma HandOver(w: World)
    requires Shape(w) && w.q.active && forall c :: !Owns(w, c)
    ensures Inv(HandOn(w))
  {
    FrontIsGranted(w);
    if |w.q.waiting| > 0 {
      var head, tail := w.q.waiting[0], w.q.waiting[1..];
      assert w.q.waiting == [head] + tail && head in w.q.waiting;
      Distinct(w);
      GrantLists(w, head, tail);
      GrantMakesOwner(w, head, tail);
      HandOverOrder(w, head, tail);
    } else {
      NobodyOwns(w);
    }
  }

  lemma HandOverOrder(w: World, head: Caller, tail: seq<Caller>)
    requires Ascending(w.ticket, w.next, w.grants + w.q.waiting) && w.q.waiting == [head] + tail && head in w.q.closes
    ensures var w' := GiveTo(w, head, tail); Ascending(w.ticket, w.next, w'.grants + w'.q.waiting)
  {
    assert w.grants + w.q.waiting == (w.grants + [head]) + tail;
  }

  lemma NobodyOwns(w: World)
    requires forall c :: !Owns(w, c)
    ensures OneOwner(w.(q := w.q.(active := false)))
  {
    assert forall c :: Owns(w.(q := w.q.(active := false)), c) ==> Owns(w, c);
  }

  lemma AcquireKeepsInv(w: World, c: Caller)
    requires Inv(w) && c !in w.pc
    ensures Inv(DoAcquire(w, c))
  {
    AcquireLists(w, c);
    AcquireOwner(w, c);
    AscendingSnoc(w.ticket, w.next, w.grants + w.q.waiting, c);
    assert w.grants + (w.q.waiting + [c]) == w.grants + w.q.waiting + [c];
    assert w.q.waiting == [] ==> (w.grants + [c]) + w.q.waiting == w.grants + w.q.waiting + [c];
  }

  lemma AcquireOwner(w: World, c: Caller)
    requires WellFormed(w) && OneOwner(w) && c !in w.pc
    ensures OneOwner(DoAcquire(w, c))
  {
    var w' := DoAcquire(w, c);
    assert forall d | d != c :: Owns(w', d) <==> Owns(w, d);
    assert !Owns(w, c);
    if w'.pc[c] == Holding {
      assert Owns(w', c);
    } else {
      SameOwners(w, w');
    }
  }

  lemma EnqueueLists(q: Queue, pc: map<Caller, Pc>, c: Caller)
    requires ListsOf(q, pc) && c !in pc && |q.waiting| < WAITING_MAX
    ensures ListsOf(q.(waiting := q.waiting + [c], state := q.state[c := Queued], closes := q.closes[c := 0]), pc[c := Waiting])
  {
    var waiting' := q.waiting + [c];
    assert forall x | x in waiting' :: x in q.waiting || x == c;
    assert forall x | x in q.waiting || x == c :: x in waiting' by {
      assert waiting'[|q.waiting|] == c;
    }
  }

  lemma AcquireLists(w: World, c: Caller)
    requires Lists(w) && c !in w.pc
    ensures Lists(DoAcquire(w, c))
  {
    if |w.q.waiting| < WAITING_MAX {
      EnqueueLists(w.q, w.pc, c);
    }
  }

  lemma QueuedLeavesLists(w: World, c: Caller)
    requires Lists(w) && c in w.q.state && w.q.state[c] == Queued && c !in Remove(w.q.waiting, c)
    ensures Lists(DoWakeOnDone(w, c))
  {
    RemoveKeepsOthers(w.q.waiting, c);
    RemoveShrinks(w.q.waiting, c);
  }

  lemma BackOutShape(w: World, c: Caller)
    requires Inv(w) && c in w.pc && w.pc[c] == Waiting && w.q.state[c] == Granted
    ensures Shape(BackOut(w, c)) && w.q.active && forall d :: !Owns(BackOut(w, c), d)
  {
    assert Owns(w, c);
    assert forall d | d != c :: Owns(BackOut(w, c), d) ==> Owns(w, d);
    assert c !in w.q.waiting;
  }

  lemma WakeOnDoneKeepsInv(w: World, c: Caller)
    requires Inv(w) && Enabled(w, WakeOnDone(c))
    ensures Inv(DoWakeOnDone(w, c))
  {
    if w.q.state[c] == Granted {
      BackOutShape(w, c);
      DoneBacksOut(w, c);
      hide Inv, Shape, DoWakeOnDone, BackOut;
      HandOver(BackOut(w, c));
    } else {
      LeavesWithoutPermit(w, c);
    }
  }

  lemma LeavesWithoutPermit(w: World, c: Caller)
    requires Inv(w) && Enabled(w, WakeOnDone(c)) && w.q.state[c] != Granted
    ensures Inv(DoWakeOnDone(w, c))
  {
    if w.q.state[c] == Queued {
      RemoveIsOrdered(w.ticket, w.next, w.grants, w.q.waiting, c);
      QueuedLeavesLists(w, c);
    }
    SameOwners(w, DoWakeOnDone(w, c));
  }

  lemma {:induction false} RemoveShrinks(waiting: seq<Caller>, c: Caller)
    ensures |Remove(waiting, c)| <= |waiting|
  {
    if |waiting| > 0 {
      RemoveShrinks(waiting[1..], c);
    }
  }

  lemma WakeOnReadyKeepsInv(w: World, c: Caller)
    requires Inv(w) && Enabled(w, WakeOnReady(c))
    ensures Inv(DoWakeOnReady(w, c))
  {
    if w.q.state[c] == Granted && c in w.done {
      BackOutShape(w, c);
      ReadyBacksOut(w, c);
      hide Inv, Shape, DoWakeOnReady, BackOut;
      HandOver(BackOut(w, c));
    } else {
      WakesAsDecided(w, c);
    }
  }

  lemma WakesAsDecided(w: World, c: Caller)
    requires Inv(w) && Enabled(w, WakeOnReady(c)) && !(w.q.state[c] == Granted && c in w.done)
    ensures Inv(DoWakeOnReady(w, c))
  {
    SameOwners(w, DoWakeOnReady(w, c));
  }

  /** A caller granted the permit after its context ended hands it on at once. */
  lemma ReadyBacksOut(w: World, c: Caller)
    requires WellFormed(w) && c in w.q.state && w.q.state[c] == Granted && c in w.done
    ensures DoWakeOnReady(w, c) == HandOn(BackOut(w, c))
  {
  }

  lemma DoneBacksOut(w: World, c: Caller)
    requires WellFormed(w) && c in w.q.state && w.q.state[c] == Granted
    ensures DoWakeOnDone(w, c) == HandOn(BackOut(w, c))
  {
  }

  lemma FireReleaseKeepsInv(w: World, c: Caller)
    requires Inv(w) && Enabled(w, FireRelease(c))
    ensures Inv(DoFireRelease(w, c))
  {
    if w.pc[c] == Holding {
      assert Owns(w, c);
      var w1 := w.(pc := w.pc[c := Released]);
      assert forall d | d != c :: Owns(w1, d) ==> Owns(w, d);
      HandOver(w1);
    }
  }

  lemma CancelAllKeepsInv(w: World)
    requires Inv(w)
    ensures Inv(Do(w, CancelAll))
  {
    var w' := Do(w, CancelAll);
    SameOwners(w, w');
    assert w'.grants + w'.q.waiting == (w.grants + w.q.waiting)[..|w.grants|];
  }

  // ---------- whole runs ----------

  ghost function Next(w: World, e: Event): World {
    if WellFormed(w) && Enabled(w, e) then Do(w, e) else w
  }

  ghost function Run(events: seq<Event>): World {
    if |events| == 0 then START else Next(Run(events[..|events| - 1]), events[|events| - 1])
  }

  lemma NextKeepsInv(w: World, e: Event)
    requires Inv(w)
    ensures Inv(Next(w, e))
  {
    if Enabled(w, e) {
      match e
      case Acquire(c) => AcquireKeepsInv(w, c);
      case ContextEnds(c) => SameOwners(w, Do(w, e));
      case WakeOnDone(c) => WakeOnDoneKeepsInv(w, c);
      case WakeOnReady(c) => WakeOnReadyKeepsInv(w, c);
      case FireRelease(c) => FireReleaseKeepsInv(w, c);
      case CancelAll => CancelAllKeepsInv(w);
    }
  }

  lemma {:induction false} RunKeepsInv(events: seq<Event>)
    ensures Inv(Run(events))
    decreases |events|
  {
    if |events| > 0 {
      RunKeepsInv(events[..|events| - 1]);
      NextKeepsInv(Run(events[..|events| - 1]), events[|events| - 1]);
    }
  }

  /** Unfired releases plus granted callers that have not returned: one if active, none otherwise. */
  lemma PermitIsConserved(events: seq<Event>)
    ensures var w := Run(events);
            var owners := set c | c in w.pc && Owns(w, c);
            |owners| == if w.q.active then 1 else 0
    ensures var w := Run(events); !w.q.active ==> w.q.waiting == []
    ensures |Run(events).q.waiting| <= WAITING_MAX
    ensures forall c | c in Run(events).q.closes :: Run(events).q.closes[c] <= 1
  {
    RunKeepsInv(events);
    var w := Run(events);
    var owners := set c | c in w.pc && Owns(w, c);
    if w.q.active {
      var c :| Owns(w, c);
      assert owners == {c};
    } else {
      assert owners == {};
    }
  }

  lemma TicketOrder(ticket: map<Caller, nat>, next: nat, s: seq<Caller>, i: nat, j: nat)
    requires Ascending(ticket, next, s) && i < |s| && j < |s|
    ensures s[i] in ticket && s[j] in ticket && (ticket[s[i]] < ticket[s[j]] <==> i < j)
  {
    if j < i {
      assert ticket[s[j]] < ticket[s[i]];
    }
  }

  /** The permit goes out in arrival order; nobody who arrived earlier is left behind in the queue. */
  lemma FirstComeFirstServed(events: seq<Event>, i: nat, j: nat)
    requires var w := Run(events); i < |w.grants| && j < |w.grants + w.q.waiting|
    ensures var w := Run(events);
            var c, d := w.grants[i], (w.grants + w.q.waiting)[j];
            c in w.ticket && d in w.ticket && (w.ticket[c] < w.ticket[d] <==> i < j)
  {
    RunKeepsInv(events);
    var w := Run(events);
    assert (w.grants + w.q.waiting)[i] == w.grants[i];
    TicketOrder(w.ticket, w.next, w.grants + w.q.waiting, i, j);
  }

  /** Whoever the permit belongs to can return it, and a caller that left the list can always wake up. */
  lemma NobodyIsStuck(events: seq<Event>, c: Caller)
    requires c in Run(events).pc
    ensures var w := Run(events);
            && (Owns(w, c) ==> Enabled(w, WakeOnReady(c)) || Enabled(w, FireRelease(c)))
            && (w.pc[c] == Waiting && c !in w.q.waiting ==> Enabled(w, WakeOnReady(c)))
            && (c in w.q.waiting ==> exists d :: Owns(w, d))
  {
    RunKeepsInv(events);
  }

  // ---------- what each caller is told ----------

  ghost predicate Free(w: World) {
    forall d :: !Owns(w, d)
  }

  /**
   * What a new caller meets, in every reachable state: an ended context refuses it; a free permit is its own; behind
   * eight others it is refused as busy; else it waits behind all of them.
   */
  lemma AcquireAnswers(events: seq<Event>, c: Caller)
    requires c !in Run(events).pc
    ensures var w, w' := Run(events), Next(Run(events), Acquire(c));
            && c in w'.pc
            && w'.pc[c] == (if c in w.done then Refused(Expired) else if Free(w) then Holding
                            else if |w.q.waiting| >= 8 then Refused(Busy) else Waiting)
            && w'.q.waiting == (if w'.pc[c] == Waiting then w.q.waiting + [c] else w.q.waiting)
            && forall d | d != c :: (d in w'.pc <==> d in w.pc) && (d in w.pc ==> w'.pc[d] == w.pc[d])
  {
    RunKeepsInv(events);
    hide Run;
  }

  /**
   * What a waiting caller learns when it wakes: the permit is its own exactly when it was granted and its context lasts;
   * otherwise it is refused, and a permit granted to it goes on to the first waiter, or is free.
   */
  lemma WakeAnswers(events: seq<Event>, e: Event)
    requires Enabled(Run(events), e) && (e.WakeOnReady? || e.WakeOnDone?)
    ensures var w, w' := Run(events), Next(Run(events), e);
            && e.c in w.q.state && e.c in w'.pc
            && w'.pc[e.c] == (if e.WakeOnReady? && w.q.state[e.c] == Granted && e.c !in w.done then Holding else Refused(Expired))
            && (w.q.state[e.c] == Granted && w'.pc[e.c] != Holding ==> GoesOn(w, w'))
            && (w.q.state[e.c] != Granted ==> forall d :: Owns(w', d) <==> Owns(w, d))
            && (w.q.state[e.c] == Queued ==> e.c !in w'.q.waiting)
  {
    RunKeepsInv(events);
    var w := Run(events);
    hide Run;
    if w.q.state[e.c] == Granted && (e.WakeOnDone? || e.c in w.done) {
      GrantedBacksOut(w, e);
      hide Inv, Next, GoesOn, Owns;
    } else {
      RemovedIsGone(w, e.c);
      WakesWithoutPermit(w, e);
      hide Inv, Next, GoesOn, Owns;
    }
  }

  lemma GrantedBacksOut(w: World, e: Event)
    requires Inv(w) && Enabled(w, e) && (e.WakeOnReady? || e.WakeOnDone?)
    requires w.q.state[e.c] == Granted && (e.WakeOnDone? || e.c in w.done)
    ensures var w' := Next(w, e); e.c in w'.pc && w'.pc[e.c] == Refused(Expired) && GoesOn(w, w')
  {
    if e.WakeOnDone? {
      DoneBacksOut(w, e.c);
    } else {
      ReadyBacksOut(w, e.c);
    }
    BackOutShape(w, e.c);
    PermitGoesOn(BackOut(w, e.c));
    hide Inv, Shape, DoWakeOnDone, DoWakeOnReady, ReleasePermit;
  }

  lemma WakesWithoutPermit(w: World, e: Event)
    requires Inv(w) && Enabled(w, e) && (e.WakeOnReady? || e.WakeOnDone?)
    requires !(w.q.state[e.c] == Granted && (e.WakeOnDone? || e.c in w.done)) && e.c !in Remove(w.q.waiting, e.c)
    ensures var w' := Next(w, e);
            && e.c in w'.pc && w'.pc[e.c] == (if w.q.state[e.c] == Granted then Holding else Refused(Expired))
            && (w.q.state[e.c] != Granted ==> forall d :: Owns(w', d) <==> Owns(w, d))
            && (w.q.state[e.c] == Queued ==> e.c !in w'.q.waiting)
  {
    hide ReleasePermit, Ascending, Skipped;
  }

  lemma RemovedIsGone(w: World, c: Caller)
    requires Inv(w)
    ensures c !in Remove(w.q.waiting, c)
  {
    Distinct(w);
    RemoveAbsent(w.q.waiting, c);
  }

  lemma {:induction false} RemoveAbsent(waiting: seq<Caller>, c: Caller)
    requires forall i, j | 0 <= i < j < |waiting| :: waiting[i] != waiting[j]
    ensures c !in Remove(waiting, c)
    decreases |waiting|
  {
    if |waiting| > 0 && waiting[0] != c {
      RemoveAbsent(waiting[1..], c);
    }
  }

  /** The permit belongs to the first waiter, or to nobody if none waits. */
  ghost predicate GoesOn(w: World, w': World) {
    if w.q.waiting == [] then Free(w') && !w'.q.active
    else Owns(w', w.q.waiting[0]) && w'.q.waiting == w.q.waiting[1..]
  }

  lemma PermitGoesOn(w: World)
    requires Shape(w) && w.q.active && forall c :: !Owns(w, c)
    ensures GoesOn(w, HandOn(w))
  {
    FrontIsGranted(w);
    if |w.q.waiting| > 0 {
      assert w.q.waiting[0] in w.q.waiting;
    } else {
      assert forall c :: Owns(HandOn(w), c) ==> Owns(w, c);
    }
  }

  /** The first use of a release function passes the permit on; later ones change nothing. */
  lemma ReleaseAnswers(events: seq<Event>, c: Caller)
    requires Enabled(Run(events), FireRelease(c))
    ensures var w, w' := Run(events), Next(Run(events), FireRelease(c));
            && (w.pc[c] == Holding ==> GoesOn(w, w') && w'.pc == w.pc[c := Released])
            && (w.pc[c] == Released ==> w' == w)
  {
    RunKeepsInv(events);
    var w := Run(events);
    hide Run;
    if w.pc[c] == Holding {
      var w1 := w.(pc := w.pc[c := Released]);
      assert Owns(w, c) && forall d | d != c :: Owns(w1, d) ==> Owns(w, d);
      PermitGoesOn(w1);
    }
  }

  /** A caller that was cancelled while it waited: it waits for its refusal, or has it. */
  ghost predicate Doomed(w: World, c: Caller) {
    c in w.pc && (w.pc[c] == Refused(Expired) || (w.pc[c] == Waiting && c in w.q.state && w.q.state[c] == Cancelled))
  }

  lemma DoomedStays(w: World, e: Event, c: Caller)
    requires Inv(w) && Doomed(w, c)
    ensures Doomed(Next(w, e), c)
  {
    assert c !in w.q.waiting && w.q.Known();
    hide Inv, Ascending;
    if Enabled(w, e) && WellFormed(w) {
      match e
      case Acquire(d) =>
        hide LeaveOnDone, LeaveOnReady, ReleasePermit, CancelPending;
      case WakeOnDone(d) =>
        DoomedOutlastsWake(w, e, c);
      case WakeOnReady(d) =>
        DoomedOutlastsWake(w, e, c);
      case FireRelease(d) =>
        hide LeaveOnDone, LeaveOnReady, Enter, CancelPending, ReleasePermit;
        if c in w.q.state {
          PermitSkips(w.q, c);
        }
      case _ =>
        hide LeaveOnDone, LeaveOnReady, Enter, ReleasePermit;
    }
  }

  /** Handing the permit on changes no state but that of a waiter in the list. */
  lemma PermitSkips(q: Queue, c: Caller)
    requires q.Known() && c !in q.waiting && c in q.state
    ensures c in ReleasePermit(q).state && ReleasePermit(q).state[c] == q.state[c]
  {
    var n := Skipped(q.waiting, q.state);
    assert n < |q.waiting| ==> q.waiting[n] in q.waiting;
  }

  lemma DoomedOutlastsWake(w: World, e: Event, c: Caller)
    requires WellFormed(w) && Enabled(w, e) && (e.WakeOnDone? || e.WakeOnReady?) && Doomed(w, c) && c !in w.q.waiting
    ensures Doomed(Do(w, e), c)
  {
    hide ReleasePermit, Enter, CancelPending;
    var q1 := w.q.(state := w.q.state[e.c := Cancelled]);
    if c in w.q.state {
      PermitSkips(q1, c);
    }
  }

  lemma RunSnoc(events: seq<Event>, e: Event)
    ensures Run(events + [e]) == Next(Run(events), e)
  {
    assert (events + [e])[..|events|] == events;
  }

  lemma {:induction false} DoomedFrom(events: seq<Event>, after: seq<Event>, c: Caller)
    requires Doomed(Run(events), c)
    ensures Doomed(Run(events + after), c)
    decreases |after|
  {
    hide Run, Next, Doomed, Inv;
    if |after| == 0 {
      assert events + after == events;
    } else {
      var init, last := after[..|after| - 1], after[|after| - 1];
      DoomedFrom(events, init, c);
      assert events + after == (events + init) + [last];
      RunSnoc(events + init, last);
      RunKeepsInv(events + init);
      DoomedStays(Run(events + init), last, c);
    }
  }

  /** Cancelling all empties the list at once and leaves the holder; none of those who waited ever gets the permit. */
  lemma CancelledNeverHold(before: seq<Event>, after: seq<Event>, c: Caller)
    requires c in Run(before).q.waiting
    ensures Doomed(Run(before + [CancelAll] + after), c) && !Owns(Run(before + [CancelAll] + after), c)
    ensures Run(before + [CancelAll]).q.waiting == [] && Run(before + [CancelAll]).pc == Run(before).pc
    ensures forall d :: Owns(Run(before + [CancelAll]), d) <==> Owns(Run(before), d)
  {
    hide Run, Next, Doomed, Inv, Owns;
    RunKeepsInv(before);
    RunSnoc(before, CancelAll);
    CancelDooms(Run(before));
    DoomedFrom(before + [CancelAll], after, c);
    DoomedOwnsNothing(Run(before + [CancelAll] + after), c);
  }

  lemma DoomedOwnsNothing(w: World, c: Caller)
    ensures Doomed(w, c) ==> !Owns(w, c)
  {
  }

  lemma CancelDooms(w: World)
    requires Inv(w)
    ensures var w' := Next(w, CancelAll);
            && w'.q.waiting == [] && w'.pc == w.pc
            && (forall d :: Owns(w', d) <==> Owns(w, d))
            && (forall c :: c in w.q.waiting ==> Doomed(w', c))
  {
    hide Ascending;
  }
}
