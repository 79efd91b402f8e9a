/// The extension's bounded command queue: `guardCommand`, `enqueueCommand`,
/// `cancelCommand`, `invalidateCommands` and `drainCommands` in
/// browser-extension/command_queue.js, with the callers in
/// browser-extension/background.js that change the epoch, the pause and the port.
///
/// A step is the code between two awaits: the only await of the queue is inside
/// `execute`, whose end is the `Finish` event.

module CommandQueue {
  import opened Wrappers

  type Id = nat

  const COMMAND_QUEUE_LIMIT: nat := 8

  /** An incoming command; a protocol 2 command is bound to the connection and scope epoch it names. */
  datatype Message = Message(id: Id, protocol: Option<int>, effect: bool, integersSafe: bool, connection: nat, scope: nat)

  /** A queued command; `no` tells equal-looking records apart. */
  datatype Record = Record(no: nat, id: Id, epoch: nat, bound: Option<(nat, nat)>, cancelled: bool)

  datatype Post = Response(id: Id, error: bool) | CancelAck(id: Id, cancelled: bool)

  /**
   * The state of one native port: `live` while the extension is still connected through it.
   * `starts` records each command handed to `execute` with the epoch of that moment.
   */
  datatype Queue = Queue(live: bool, paused: bool, epoch: nat, connection: nat,
                         entries: set<Id>, waiting: seq<Record>, inflight: Option<Record>, running: bool,
                         out: seq<Post>, next: nat, starts: seq<(Record, nat)>)

  // ---------- one step of code ----------

  /** `guardCommand`; `late` are the commands whose deadline has passed. */
  predicate Guard(q: Queue, r: Record, late: set<Id>) {
    && q.live && r.id !in late && !r.cancelled && !q.paused && r.epoch == q.epoch
    && (r.bound == None || r.bound.value == (q.connection, q.epoch))
  }

  function Posted(q: Queue, post: Post): Queue {
    if q.live then q.(out := q.out + [post]) else q
  }

  function Without(waiting: seq<Record>, no: nat): seq<Record>
    decreases |waiting|
  {
    if |waiting| == 0 then []
    else if waiting[0].no == no then Without(waiting[1..], no)
    else [waiting[0]] + Without(waiting[1..], no)
  }

  function Drop(q: Queue, r: Record, post: Post): Queue {
    Posted(q.(entries := q.entries - {r.id}, waiting := Without(q.waiting, r.no)), post)
  }

  /** The sweep at the start of `enqueueCommand`, over a copy of the waiting list. */
  function Sweep(q: Queue, copy: seq<Record>, late: set<Id>): Queue
    decreases |copy|
  {
    if |copy| == 0 then q
    else Sweep(if Guard(q, copy[0], late) then q else Drop(q, copy[0], Response(copy[0].id, true)), copy[1..], late)
  }

  /** The loop of `drainCommands` up to its next await, or to the end of the waiting list. */
  function Drain(q: Queue, late: set<Id>): Queue
    decreases |q.waiting|
  {
    if |q.waiting| == 0 then q.(running := false)
    else
      var r, q1 := q.waiting[0], q.(waiting := q.waiting[1..]);
      if Guard(q1, r, late) then q1.(inflight := Some(r), starts := q1.starts + [(r, q1.epoch)])
      else Drain(Posted(q1.(entries := q1.entries - {r.id}), Response(r.id, true)), late)
  }

  predicate ProtocolOk(m: Message) {
    && m.protocol in {None, Some(0), Some(1), Some(2)}
    && (m.protocol != Some(2) ==> !m.effect)
    && (m.protocol == Some(2) ==> m.integersSafe)
  }

  function NewRecord(q: Queue, m: Message): Record {
    Record(q.next, m.id, q.epoch, if m.protocol == Some(2) then Some((m.connection, m.scope)) else None, false)
  }

  predicate Accepts(q: Queue, m: Message, late: set<Id>) {
    && m.id !in q.entries && |q.waiting| < COMMAND_QUEUE_LIMIT && ProtocolOk(m)
    && Guard(q, NewRecord(q, m), late)
  }

  function EnqueueSpec(q: Queue, m: Message, late: set<Id>, late': set<Id>): Queue {
    var q1 := Sweep(q, q.waiting, late);
    if !Accepts(q1, m, late) then Posted(q1, Response(m.id, true))
    else
      var q2 := q1.(entries := q1.entries + {m.id}, waiting := q1.waiting + [NewRecord(q1, m)], next := q1.next + 1);
      if q2.running then q2 else Drain(q2.(running := true), late')
  }

  function WaitingAt(waiting: seq<Record>, id: Id): Option<Record>
    decreases |waiting|
  {
    if |waiting| == 0 then None else if waiting[0].id == id then Some(waiting[0]) else WaitingAt(waiting[1..], id)
  }

  function CancelSpec(q: Queue, id: Id, connection: nat): Queue {
    if connection != q.connection then q
    else if id in q.entries && WaitingAt(q.waiting, id).Some? then
      Drop(q, WaitingAt(q.waiting, id).value, CancelAck(id, true))
    else if id in q.entries && q.inflight.Some? && q.inflight.value.id == id then
      Posted(q.(inflight := Some(q.inflight.value.(cancelled := true))), CancelAck(id, false))
    else Posted(q, CancelAck(id, false))
  }

  function InvalidateFrom(q: Queue, rest: seq<Record>): Queue
    decreases |rest|
  {
    if |rest| == 0 then q
    else InvalidateFrom(Posted(q.(entries := q.entries - {rest[0].id}), Response(rest[0].id, true)), rest[1..])
  }

  function InvalidateSpec(q: Queue): Queue {
    var q1 := if q.inflight.Some? then q.(inflight := Some(q.inflight.value.(cancelled := true))) else q;
    InvalidateFrom(q1, q.waiting).(waiting := [])
  }

  /** `execute` ended: the command is answered and the drain loop goes on. */
  function FinishSpec(q: Queue, error: bool, late: set<Id>): Queue
    requires q.inflight.Some?
  {
    var id := q.inflight.value.id;
    Drain(Posted(q.(entries := q.entries - {id}, inflight := None), Response(id, error)), late)
  }

  // ---------- the queue object ----------

  class CommandState {
    var live: bool
    var paused: bool
    var epoch: nat
    var connection: nat
    var entries: set<Id>
    var waiting: seq<Record>
    var inflight: Option<Record>
    var running: bool
    var out: seq<Post>
    var next: nat
    ghost var starts: seq<(Record, nat)>

    ghost function Model(): Queue
      reads this
    {
      Queue(live, paused, epoch, connection, entries, waiting, inflight, running, out, next, starts)
    }

    constructor (connection: nat, epoch: nat)
      ensures Model() == Init(connection, epoch)
    {
      live, paused, this.epoch, this.connection := true, false, epoch, connection;
      entries, waiting, inflight, running := {}, [], None, false;
      out, next, starts := [], 0, [];
    }

    method GuardCommand(r: Record, late: set<Id>) returns (ok: bool)
      ensures ok == Guard(Model(), r, late)
    {
      if !live || r.id in late || r.cancelled || paused || r.epoch != epoch {
        return false;
      }
      return r.bound == None || r.bound.value == (connection, epoch);
    }

    method CommandResponse(post: Post)
      modifies this`out
      ensures Model() == Posted(old(Model()), post)
    {
      if live {
        out := out + [post];
      }
    }

    method RemoveWaiting(no: nat)
      modifies this`waiting
      ensures waiting == Without(old(waiting), no)
    {
      var kept: seq<Record> := [];
      var i := 0;
      while i < |waiting|
        invariant 0 <= i <= |waiting| && waiting == old(waiting)
        invariant kept + Without(waiting[i..], no) == Without(waiting, no)
      {
        assert waiting[i..][1..] == waiting[i + 1..];
        if waiting[i].no != no {
          assert kept + ([waiting[i]] + Without(waiting[i + 1..], no)) == kept + [waiting[i]] + Without(waiting[i + 1..], no);
          kept := kept + [waiting[i]];
        }
        i := i + 1;
      }
      waiting := kept;
    }

    method DrainCommands(late: set<Id>)
      modifies this
      ensures Model() == Drain(old(Model()), late)
    {
      while |waiting| > 0
        invariant Drain(Model(), late) == Drain(old(Model()), late)
        decreases |waiting|
      {
        var r := waiting[0];
        waiting := waiting[1..];
        var ok := GuardCommand(r, late);
        if ok {
          inflight := Some(r);
          starts := starts + [(r, epoch)];
          return;
        }
        entries := entries - {r.id};
        CommandResponse(Response(r.id, true));
      }
      running := false;
    }

    /** The sweep of `enqueueCommand`. */
    method SweepWaiting(late: set<Id>)
      modifies this
      ensures Model() == Sweep(old(Model()), old(waiting), late)
    {
      var copy := waiting;
      var i := 0;
      while i < |copy|
        invariant 0 <= i <= |copy|
        invariant Sweep(Model(), copy[i..], late) == Sweep(old(Model()), copy, late)
      {
        var r := copy[i];
        assert copy[i..][1..] == copy[i + 1..];
        var ok := GuardCommand(r, late);
        if !ok {
          entries := entries - {r.id};
          RemoveWaiting(r.no);
          CommandResponse(Response(r.id, true));
        }
        i := i + 1;
      }
    }

    method EnqueueCommand(m: Message, late: set<Id>, late': set<Id>)
      modifies this
      ensures Model() == EnqueueSpec(old(Model()), m, late, late')
    {
      hide Sweep, Drain, Guard;
      SweepWaiting(late);
      var r := Record(next, m.id, epoch, if m.protocol == Some(2) then Some((m.connection, m.scope)) else None, false);
      var ok := GuardCommand(r, late);
      if m.id in entries || |waiting| >= COMMAND_QUEUE_LIMIT || !ProtocolOk(m) || !ok {
        CommandResponse(Response(m.id, true));
        return;
      }
      next := next + 1;
      entries := entries + {m.id};
      waiting := waiting + [r];
      if !running {
        running := true;
        DrainCommands(late');
      }
    }

    method CancelCommand(id: Id, fromConnection: nat)
      modifies this
      ensures Model() == CancelSpec(old(Model()), id, fromConnection)
    {
      if fromConnection != connection {
        return;
      }
      var cancelled := false;
      if id in entries {
        var found := WaitingAt(waiting, id);
        if found.Some? {
          cancelled := true;
          entries := entries - {found.value.id};
          RemoveWaiting(found.value.no);
        } else if inflight.Some? && inflight.value.id == id {
          inflight := Some(inflight.value.(cancelled := true));
        }
      }
      CommandResponse(CancelAck(id, cancelled));
    }

    method InvalidateCommands()
      modifies this
      ensures Model() == InvalidateSpec(old(Model()))
    {
      if inflight.Some? {
        inflight := Some(inflight.value.(cancelled := true));
      }
      ghost var q := Model();
      var i := 0;
      while i < |waiting|
        invariant 0 <= i <= |waiting| && waiting == old(waiting)
        invariant InvalidateFrom(Model(), waiting[i..]) == InvalidateFrom(q, waiting)
      {
        assert waiting[i..][1..] == waiting[i + 1..];
        entries := entries - {waiting[i].id};
        CommandResponse(Response(waiting[i].id, true));
        i := i + 1;
      }
      waiting := [];
    }

    method ExecuteEnded(error: bool, late: set<Id>)
      requires inflight.Some?
      modifies this
      ensures Model() == FinishSpec(old(Model()), error, late)
    {
      entries := entries - {inflight.value.id};
      var id := inflight.value.id;
      inflight := None;
      CommandResponse(Response(id, error));
      DrainCommands(late);
    }
  }

  // ---------- runs ----------

  /**
   * `Disconnect` is the port closing by itself, which invalidates; `PortDropped` is the end of
   * `disconnect`, which invalidated some steps before and now only lets go of the port.
   */
  datatype Event =
    | Enqueue(m: Message, late: set<Id>, late': set<Id>)
    | Cancel(id: Id, connection: nat)
    | Finish(error: bool, late: set<Id>)
    | EpochChange(paused: bool, invalidates: bool)
    | SetPaused(paused: bool)
    | Hello(connection: nat, paused: bool)
    | Disconnect(paused: bool)
    | PortDropped

  function Next(q: Queue, e: Event): Queue {
    match e
    case Enqueue(m, late, late') => if q.live then EnqueueSpec(q, m, late, late') else q
    case Cancel(id, connection) => if q.live then CancelSpec(q, id, connection) else q
    case Finish(error, late) => if q.inflight.Some? then FinishSpec(q, error, late) else q
    case EpochChange(paused, invalidates) =>
      var q1 := q.(paused := paused, epoch := q.epoch + 1);
      if invalidates then InvalidateSpec(q1) else q1
    case SetPaused(paused) => q.(paused := paused)
    case Hello(connection, paused) => if q.live then q.(connection := connection, paused := paused) else q
    case Disconnect(paused) => InvalidateSpec(q.(live := false, paused := paused, epoch := q.epoch + 1))
    case PortDropped => q.(live := false)
  }

  function Init(connection: nat, epoch: nat): Queue {
    Queue(true, false, epoch, connection, {}, [], None, false, [], 0, [])
  }

  function Run(connection: nat, epoch: nat, events: seq<Event>): Queue
    decreases |events|
  {
    if |events| == 0 then Init(connection, epoch)
    else Next(Run(connection, epoch, events[..|events| - 1]), events[|events| - 1])
  }

  // ---------- invariant ----------

  ghost predicate Entered(q: Queue) {
    && (forall i | 0 <= i < |q.waiting| :: q.waiting[i].id in q.entries)
    && (q.inflight.Some? ==> q.inflight.value.id in q.entries)
    && (forall id :: id in q.entries ==>
          (q.inflight.Some? && q.inflight.value.id == id) || exists i :: 0 <= i < |q.waiting| && q.waiting[i].id == id)
  }

  ghost predicate Distinct(q: Queue) {
    && (forall i, j | 0 <= i < j < |q.waiting| :: q.waiting[i].id != q.waiting[j].id && q.waiting[i].no < q.waiting[j].no)
    && (forall i | 0 <= i < |q.waiting| :: q.waiting[i].no < q.next)
    && (q.inflight.Some? ==> forall i | 0 <= i < |q.waiting| :: q.waiting[i].id != q.inflight.value.id)
  }

  /** Commands start in the order they were accepted, each once, and while their epoch is current. */
  ghost predicate InOrder(q: Queue) {
    && (forall i, j | 0 <= i < j < |q.starts| :: q.starts[i].0.no < q.starts[j].0.no)
    && (forall i, j | 0 <= i < |q.starts| && 0 <= j < |q.waiting| :: q.starts[i].0.no < q.waiting[j].no)
    && (forall i | 0 <= i < |q.starts| :: q.starts[i].0.no < q.next && q.starts[i].0.epoch == q.starts[i].1 && !q.starts[i].0.cancelled)
  }

  /** The shape between two steps. */
  ghost predicate Idle(q: Queue) {
    && (q.running <==> q.inflight.Some?)
    && (!q.running ==> q.waiting == [])
    && |q.waiting| <= COMMAND_QUEUE_LIMIT
  }

  ghost predicate Core(q: Queue) {
    Entered(q) && Distinct(q) && InOrder(q)
  }

  ghost predicate Inv(q: Queue) {
    Core(q) && Idle(q)
  }

  // ---------- terminal messages ----------

  predicate TerminalFor(post: Post, id: Id) {
    post.id == id && (post.Response? || post.cancelled)
  }

  function Terminals(out: seq<Post>, id: Id): nat
    decreases |out|
  {
    if |out| == 0 then 0 else Terminals(out[..|out| - 1], id) + (if TerminalFor(out[|out| - 1], id) then 1 else 0)
  }

  function Submitted(events: seq<Event>, id: Id): nat
    decreases |events|
  {
    if |events| == 0 then 0
    else
      var last := events[|events| - 1];
      Submitted(events[..|events| - 1], id) + (if last.Enqueue? && last.m.id == id then 1 else 0)
  }

  /** Terminal messages sent plus, for a command still held, the one it is owed. */
  function Account(q: Queue, id: Id): nat {
    Terminals(q.out, id) + (if id in q.entries then 1 else 0)
  }

  lemma TerminalsSnoc(out: seq<Post>, post: Post, id: Id)
    ensures Terminals(out + [post], id) == Terminals(out, id) + (if TerminalFor(post, id) then 1 else 0)
  {
    assert (out + [post])[..|out|] == out;
  }

  // ---------- taking a command out of the waiting list ----------

  ghost predicate Increasing(waiting: seq<Record>) {
    forall i, j | 0 <= i < j < |waiting| :: waiting[i].no < waiting[j].no
  }

  lemma {:induction false} WithoutAbsent(waiting: seq<Record>, no: nat)
    requires forall i | 0 <= i < |waiting| :: waiting[i].no != no
    ensures Without(waiting, no) == waiting
    decreases |waiting|
  {
    if |waiting| > 0 {
      WithoutAbsent(waiting[1..], no);
    }
  }

  lemma {:induction false} WithoutAt(waiting: seq<Record>, i: nat)
    requires i < |waiting| && Increasing(waiting)
    ensures Without(waiting, waiting[i].no) == waiting[..i] + waiting[i + 1..]
    decreases |waiting|
  {
    if i == 0 {
      WithoutAbsent(waiting[1..], waiting[0].no);
    } else {
      WithoutAt(waiting[1..], i - 1);
      assert waiting[1..][..i - 1] == waiting[1..i] && waiting[1..][i..] == waiting[i + 1..];
      assert [waiting[0]] + waiting[1..i] == waiting[..i];
    }
  }

  /** What a step inside one call leaves alone. */
  ghost predicate Steady(q: Queue, q': Queue) {
    && q'.live == q.live && q'.paused == q.paused && q'.epoch == q.epoch && q'.connection == q.connection
    && q'.next == q.next && |q'.waiting| <= |q.waiting|
  }

  /** Dropping a waiting command with a terminal message settles its account and no other. */
  lemma DropKeeps(q: Queue, i: nat, post: Post, id: Id)
    requires Core(q) && i < |q.waiting| && TerminalFor(post, q.waiting[i].id)
    ensures var q' := Drop(q, q.waiting[i], post);
            && Core(q') && Steady(q, q') && q'.inflight == q.inflight && q'.running == q.running && q'.starts == q.starts
            && q'.waiting == q.waiting[..i] + q.waiting[i + 1..]
            && (q.live ==> Account(q', id) == Account(q, id))
  {
    var r, q' := q.waiting[i], Drop(q, q.waiting[i], post);
    DropShape(q, i, post);
    DropEntered(q, i, q');
    DropOrdered(q, i, q');
    if q.live {
      DropAccount(q, i, post, id);
    }
    hide Entered, Distinct, InOrder, Account, Drop;
  }

  lemma DropShape(q: Queue, i: nat, post: Post)
    requires i < |q.waiting| && Distinct(q)
    ensures var q' := Drop(q, q.waiting[i], post);
            && Steady(q, q') && q'.inflight == q.inflight && q'.running == q.running && q'.starts == q.starts
            && q'.waiting == q.waiting[..i] + q.waiting[i + 1..] && q'.entries == q.entries - {q.waiting[i].id}
  {
    WithoutAt(q.waiting, i);
  }

  lemma DropAccount(q: Queue, i: nat, post: Post, id: Id)
    requires Entered(q) && i < |q.waiting| && TerminalFor(post, q.waiting[i].id) && q.live
    ensures Account(Drop(q, q.waiting[i], post), id) == Account(q, id)
  {
    TerminalsSnoc(q.out, post, id);
  }

  lemma DropOrdered(q: Queue, i: nat, q': Queue)
    requires Distinct(q) && InOrder(q) && i < |q.waiting|
    requires q'.waiting == q.waiting[..i] + q.waiting[i + 1..] && q'.inflight == q.inflight
    requires q'.starts == q.starts && q'.next == q.next
    ensures Distinct(q') && InOrder(q')
  {
    hide Distinct, InOrder;
    DropDistinct(q, i, q');
    DropInOrder(q, i, q');
  }

  lemma DropDistinct(q: Queue, i: nat, q': Queue)
    requires Distinct(q) && i < |q.waiting|
    requires q'.waiting == q.waiting[..i] + q.waiting[i + 1..] && q'.inflight == q.inflight && q'.next == q.next
    ensures Distinct(q')
  {
    forall a, b | 0 <= a < b < |q'.waiting|
      ensures q'.waiting[a].id != q'.waiting[b].id && q'.waiting[a].no < q'.waiting[b].no
    {
      var a', b' := if a < i then a else a + 1, if b < i then b else b + 1;
      assert q'.waiting[a] == q.waiting[a'] && q'.waiting[b] == q.waiting[b'];
    }
    assert forall a | 0 <= a < |q'.waiting| :: q'.waiting[a] in q.waiting;
  }

  lemma DropInOrder(q: Queue, i: nat, q': Queue)
    requires InOrder(q) && i < |q.waiting|
    requires q'.waiting == q.waiting[..i] + q.waiting[i + 1..] && q'.starts == q.starts && q'.next == q.next
    ensures InOrder(q')
  {
    assert forall j | 0 <= j < |q'.waiting| :: q'.waiting[j] in q.waiting;
  }

  lemma DropEntered(q: Queue, i: nat, q': Queue)
    requires Entered(q) && Distinct(q) && i < |q.waiting|
    requires q'.waiting == q.waiting[..i] + q.waiting[i + 1..] && q'.entries == q.entries - {q.waiting[i].id} && q'.inflight == q.inflight
    ensures Entered(q')
  {
    forall id | id in q'.entries && !(q.inflight.Some? && q.inflight.value.id == id)
      ensures exists j :: 0 <= j < |q'.waiting| && q'.waiting[j].id == id
    {
      var j :| 0 <= j < |q.waiting| && q.waiting[j].id == id;
      assert j != i;
      var j' := if j < i then j else j - 1;
      assert q'.waiting[j'] == q.waiting[j];
    }
    assert forall k | 0 <= k < |q'.waiting| :: q'.waiting[k] == q.waiting[if k < i then k else k + 1];
  }

  lemma {:induction false} SweepKeeps(q: Queue, copy: seq<Record>, late: set<Id>, id: Id)
    requires Core(q) && Increasing(copy) && forall k | 0 <= k < |copy| :: copy[k] in q.waiting
    ensures var q' := Sweep(q, copy, late);
            && Core(q') && Steady(q, q') && q'.inflight == q.inflight && q'.running == q.running && q'.starts == q.starts
            && (q.live ==> Account(q', id) == Account(q, id))
    decreases |copy|
  {
    hide Core, Account, Guard;
    if |copy| > 0 {
      var q1 := if Guard(q, copy[0], late) then q else Drop(q, copy[0], Response(copy[0].id, true));
      if !Guard(q, copy[0], late) {
        var i :| 0 <= i < |q.waiting| && q.waiting[i] == copy[0];
        DropKeeps(q, i, Response(copy[0].id, true), id);
        forall k | 0 <= k < |copy[1..]|
          ensures copy[1..][k] in q1.waiting
        {
          var j :| 0 <= j < |q.waiting| && q.waiting[j] == copy[1..][k];
          assert j != i;
          assert q1.waiting[if j < i then j else j - 1] == copy[1..][k];
        }
      }
      SweepKeeps(q1, copy[1..], late, id);
    }
  }

  /** Answering the first waiting command that fails its guard. */
  function Answer(q: Queue): Queue
    requires |q.waiting| > 0
  {
    Posted(q.(waiting := q.waiting[1..], entries := q.entries - {q.waiting[0].id}), Response(q.waiting[0].id, true))
  }

  lemma AnswerKeeps(q: Queue, id: Id)
    requires Core(q) && |q.waiting| > 0
    ensures Core(Answer(q)) && Steady(q, Answer(q)) && (q.live ==> Account(Answer(q), id) == Account(q, id))
  {
    DropKeeps(q, 0, Response(q.waiting[0].id, true), id);
    assert q.waiting[..0] + q.waiting[1..] == q.waiting[1..];
    WithoutAt(q.waiting, 0);
    assert Answer(q) == Drop(q, q.waiting[0], Response(q.waiting[0].id, true));
  }

  lemma StartKeeps(q: Queue, late: set<Id>)
    requires Core(q) && q.inflight == None && |q.waiting| > 0 && Guard(q.(waiting := q.waiting[1..]), q.waiting[0], late)
    ensures var r := q.waiting[0];
            Core(q.(waiting := q.waiting[1..], inflight := Some(r), starts := q.starts + [(r, q.epoch)]))
  {
    var r := q.waiting[0];
    var q' := q.(waiting := q.waiting[1..], inflight := Some(r), starts := q.starts + [(r, q.epoch)]);
    StartDistinct(q, q');
    StartInOrder(q, q');
    hide Distinct, InOrder;
    forall id | id in q'.entries && r.id != id
      ensures exists j :: 0 <= j < |q'.waiting| && q'.waiting[j].id == id
    {
      var j :| 0 <= j < |q.waiting| && q.waiting[j].id == id;
      assert q'.waiting[j - 1].id == id;
    }
  }

  lemma StartDistinct(q: Queue, q': Queue)
    requires Distinct(q) && |q.waiting| > 0
    requires q'.waiting == q.waiting[1..] && q'.inflight == Some(q.waiting[0]) && q'.next == q.next
    ensures Distinct(q')
  {
    assert forall k | 0 <= k < |q'.waiting| :: q'.waiting[k] == q.waiting[k + 1];
  }

  lemma StartInOrder(q: Queue, q': Queue)
    requires InOrder(q) && Distinct(q) && |q.waiting| > 0 && q.waiting[0].epoch == q.epoch && !q.waiting[0].cancelled
    requires q'.waiting == q.waiting[1..] && q'.starts == q.starts + [(q.waiting[0], q.epoch)] && q'.next == q.next
    ensures InOrder(q')
  {
    assert forall k | 0 <= k < |q'.waiting| :: q'.waiting[k] == q.waiting[k + 1];
    assert forall k | 0 <= k < |q.starts| :: q'.starts[k] == q.starts[k];
  }

  /** At most one command was started, under the epoch of the step. */
  ghost predicate StartsOne(q: Queue, q': Queue) {
    && |q.starts| <= |q'.starts| <= |q.starts| + 1 && q'.starts[..|q.starts|] == q.starts
    && (|q'.starts| > |q.starts| ==> q'.starts[|q.starts|].1 == q'.epoch)
    && q'.epoch >= q.epoch
  }

  lemma {:induction false} DrainKeeps(q: Queue, late: set<Id>, id: Id)
    requires Core(q) && q.inflight == None
    ensures var q' := Drain(q, late);
            && Core(q') && Steady(q, q') && (q.live ==> Account(q', id) == Account(q, id))
            && (if q'.inflight.Some? then q'.running == q.running else !q'.running && q'.waiting == [])
            && StartsOne(q, q')
    decreases |q.waiting|
  {
    hide Account, Guard;
    if |q.waiting| > 0 {
      var r, q1 := q.waiting[0], q.(waiting := q.waiting[1..]);
      if Guard(q1, r, late) {
        hide Core;
        StartKeeps(q, late);
        AccountOfSame(q, Drain(q, late), id);
      } else {
        hide Core;
        AnswerKeeps(q, id);
        DrainKeeps(Answer(q), late, id);
      }
    } else {
      AccountOfSame(q, Drain(q, late), id);
    }
  }

  lemma AccountOfSame(q: Queue, q': Queue, id: Id)
    requires q'.out == q.out && q'.entries == q.entries
    ensures Account(q', id) == Account(q, id)
  {
  }

  // ---------- each event ----------

  lemma EnqueueKeeps(q: Queue, m: Message, late: set<Id>, late': set<Id>, id: Id)
    requires Inv(q) && q.live
    ensures var q' := EnqueueSpec(q, m, late, late');
            && Inv(q') && q'.live && Account(q', id) == Account(q, id) + (if m.id == id then 1 else 0) && StartsOne(q, q')
  {
    hide Sweep, Drain, Guard, Core, Account, Accepts, Appended;
    assert Core(q) && Increasing(q.waiting) by {
      WaitingIncreases(q);
    }
    SweepKeeps(q, q.waiting, late, id);
    var q1 := Sweep(q, q.waiting, late);
    if !Accepts(q1, m, late) {
      RejectKeeps(q1, m, id);
    } else {
      AcceptKeeps(q1, m, late, late', id);
      AppendIs(q1, m);
    }
  }

  lemma WaitingIncreases(q: Queue)
    requires Core(q)
    ensures Increasing(q.waiting)
  {
  }

  lemma AppendIs(q: Queue, m: Message)
    ensures Appended(q, m) == q.(entries := q.entries + {m.id}, waiting := q.waiting + [NewRecord(q, m)], next := q.next + 1)
  {
  }

  /** An accepted command waits, or starts at once when nothing runs. */
  lemma AcceptKeeps(q: Queue, m: Message, late: set<Id>, late': set<Id>, id: Id)
    requires Core(q) && Idle(q) && q.live && Accepts(q, m, late)
    ensures var q2 := Appended(q, m);
            var q' := if q2.running then q2 else Drain(q2.(running := true), late');
            && Inv(q') && q'.live && Account(q', id) == Account(q, id) + (if m.id == id then 1 else 0) && StartsOne(q, q')
  {
    hide Drain, Guard, ProtocolOk, NewRecord;
    AppendKeeps(q, m, late, id);
    var q2 := Appended(q, m);
    if !q2.running {
      SameEntries(q2, q2.(running := true), id);
      hide Core, Account;
      DrainKeeps(q2.(running := true), late', id);
    }
  }

  lemma SameEntries(q: Queue, q': Queue, id: Id)
    requires Core(q) && q' == q.(running := q'.running)
    ensures Core(q') && Account(q', id) == Account(q, id)
  {
  }

  /** A refused command is answered at once; nothing else changes. */
  lemma RejectKeeps(q: Queue, m: Message, id: Id)
    requires Core(q) && q.live
    ensures var q' := Posted(q, Response(m.id, true));
            Core(q') && Account(q', id) == Account(q, id) + (if m.id == id then 1 else 0)
  {
    TerminalsSnoc(q.out, Response(m.id, true), id);
  }

  function Appended(q: Queue, m: Message): Queue {
    q.(entries := q.entries + {m.id}, waiting := q.waiting + [NewRecord(q, m)], next := q.next + 1)
  }

  lemma AppendEntered(q: Queue, m: Message)
    requires Entered(q) && m.id !in q.entries
    ensures Entered(Appended(q, m))
  {
    var q' := Appended(q, m);
    assert q'.waiting[|q.waiting|].id == m.id;
    forall x | x in q'.entries && !(q.inflight.Some? && q.inflight.value.id == x)
      ensures exists j :: 0 <= j < |q'.waiting| && q'.waiting[j].id == x
    {
      if x != m.id {
        var j :| 0 <= j < |q.waiting| && q.waiting[j].id == x;
        assert q'.waiting[j].id == x;
      }
    }
  }

  lemma AppendKeeps(q: Queue, m: Message, late: set<Id>, id: Id)
    requires Core(q) && Accepts(q, m, late)
    ensures Core(Appended(q, m))
    ensures Account(Appended(q, m), id) == Account(q, id) + (if m.id == id then 1 else 0)
  {
    AppendEntered(q, m);
    AppendOrdered(q, m);
    hide Entered, Guard, ProtocolOk, Distinct, InOrder, NewRecord;
  }

  lemma AppendOrdered(q: Queue, m: Message)
    requires Entered(q) && Distinct(q) && InOrder(q) && m.id !in q.entries
    ensures Distinct(Appended(q, m)) && InOrder(Appended(q, m))
  {
    var q' := Appended(q, m);
    assert forall j | 0 <= j < |q.waiting| :: q'.waiting[j] == q.waiting[j] && q.waiting[j].id in q.entries;
    assert q.inflight.Some? ==> q.inflight.value.id in q.entries;
    hide Entered;
  }

  lemma {:induction false} WaitingAtFinds(waiting: seq<Record>, id: Id)
    ensures match WaitingAt(waiting, id)
            case Some(r) => r in waiting && r.id == id
            case None => forall i | 0 <= i < |waiting| :: waiting[i].id != id
    decreases |waiting|
  {
    if |waiting| > 0 {
      WaitingAtFinds(waiting[1..], id);
    }
  }

  lemma CancelKeeps(q: Queue, target: Id, connection: nat, id: Id)
    requires Inv(q) && q.live
    ensures Inv(CancelSpec(q, target, connection)) && CancelSpec(q, target, connection).live
    ensures StartsOne(q, CancelSpec(q, target, connection))
    ensures Account(CancelSpec(q, target, connection), id) == Account(q, id)
  {
    WaitingAtFinds(q.waiting, target);
    TerminalsSnoc(q.out, CancelAck(target, false), id);
    if connection == q.connection && target in q.entries && WaitingAt(q.waiting, target).Some? {
      var r := WaitingAt(q.waiting, target).value;
      var i :| 0 <= i < |q.waiting| && q.waiting[i] == r;
      DropKeeps(q, i, CancelAck(target, true), id);
      hide Core, Account, Drop, WaitingAt;
    } else {
      NotWaitingKeeps(q, target, connection, id);
      hide Core, Account, WaitingAt;
    }
  }

  lemma NotWaitingKeeps(q: Queue, target: Id, connection: nat, id: Id)
    requires Inv(q) && q.live && !(connection == q.connection && target in q.entries && WaitingAt(q.waiting, target).Some?)
    ensures Inv(CancelSpec(q, target, connection)) && CancelSpec(q, target, connection).live
    ensures StartsOne(q, CancelSpec(q, target, connection))
    ensures Account(CancelSpec(q, target, connection), id) == Account(q, id)
  {
    TerminalsSnoc(q.out, CancelAck(target, false), id);
    hide WaitingAt, Terminals;
  }

  /** The answers to all waiting commands settle their accounts together. */
  lemma {:induction false} InvalidateSettles(q: Queue, rest: seq<Record>, id: Id)
    requires forall i | 0 <= i < |rest| :: rest[i].id in q.entries
    requires forall i, j | 0 <= i < j < |rest| :: rest[i].id != rest[j].id
    ensures var q' := InvalidateFrom(q, rest);
            && q' == q.(out := q'.out, entries := q'.entries)
            && (forall x :: x in q'.entries <==> x in q.entries && forall i | 0 <= i < |rest| :: rest[i].id != x)
            && (q.live ==> Account(q', id) == Account(q, id))
    decreases |rest|
  {
    if |rest| > 0 {
      TerminalsSnoc(q.out, Response(rest[0].id, true), id);
      var q1 := Posted(q.(entries := q.entries - {rest[0].id}), Response(rest[0].id, true));
      InvalidateSettles(q1, rest[1..], id);
      assert rest == [rest[0]] + rest[1..];
    }
  }

  lemma InvalidateKeeps(q: Queue, id: Id)
    requires Inv(q)
    ensures var q' := InvalidateSpec(q);
            && Inv(q') && StartsOne(q, q') && q'.live == q.live && q'.waiting == [] && (q'.inflight.Some? ==> q'.inflight.value.cancelled)
            && (q.live ==> Account(q', id) == Account(q, id))
  {
    var q1 := if q.inflight.Some? then q.(inflight := Some(q.inflight.value.(cancelled := true))) else q;
    InvalidateSettles(q1, q.waiting, id);
  }

  /** The command in flight is answered. */
  function Answered(q: Queue, error: bool): Queue
    requires q.inflight.Some?
  {
    Posted(q.(entries := q.entries - {q.inflight.value.id}, inflight := None), Response(q.inflight.value.id, error))
  }

  lemma AnsweredKeeps(q: Queue, error: bool, id: Id)
    requires Core(q) && q.inflight.Some?
    ensures Core(Answered(q, error)) && Steady(q, Answered(q, error)) && Answered(q, error).starts == q.starts
    ensures q.live ==> Account(Answered(q, error), id) == Account(q, id)
  {
    TerminalsSnoc(q.out, Response(q.inflight.value.id, error), id);
    AnsweredOrdered(q, error);
    AnsweredEntered(q, error);
    hide Distinct, InOrder, Entered;
  }

  lemma AnsweredOrdered(q: Queue, error: bool)
    requires Distinct(q) && InOrder(q) && q.inflight.Some?
    ensures Distinct(Answered(q, error)) && InOrder(Answered(q, error))
  {
  }

  lemma AnsweredEntered(q: Queue, error: bool)
    requires Entered(q) && Distinct(q) && q.inflight.Some?
    ensures Entered(Answered(q, error))
  {
  }

  lemma FinishKeeps(q: Queue, error: bool, late: set<Id>, id: Id)
    requires Inv(q) && q.inflight.Some?
    ensures Inv(FinishSpec(q, error, late)) && FinishSpec(q, error, late).live == q.live
    ensures StartsOne(q, FinishSpec(q, error, late))
    ensures q.live ==> Account(FinishSpec(q, error, late), id) == Account(q, id)
  {
    hide Drain, Guard, Core, Account;
    AnsweredKeeps(q, error, id);
    DrainKeeps(Answered(q, error), late, id);
  }

  lemma NextKeeps(q: Queue, e: Event, id: Id)
    requires Inv(q)
    ensures Inv(Next(q, e)) && (Next(q, e).live ==> q.live) && StartsOne(q, Next(q, e))
    ensures Next(q, e).live ==> Account(Next(q, e), id) == Account(q, id) + (if e.Enqueue? && e.m.id == id then 1 else 0)
  {
    hide EnqueueSpec, CancelSpec, InvalidateSpec, FinishSpec, Inv, Account, StartsOne;
    match e
    case Enqueue(m, late, late') => if q.live { EnqueueKeeps(q, m, late, late', id); } else { SameCommands(q, q, id); }
    case Cancel(target, connection) => if q.live { CancelKeeps(q, target, connection, id); } else { SameCommands(q, q, id); }
    case Finish(error, late) => if q.inflight.Some? { FinishKeeps(q, error, late, id); } else { SameCommands(q, q, id); }
    case EpochChange(paused, invalidates) => EpochChangeKeeps(q, q.live, paused, id);
    case SetPaused(paused) => SameCommands(q, q.(paused := paused), id);
    case Hello(connection, paused) => SameCommands(q, Next(q, e), id);
    case Disconnect(paused) => EpochChangeKeeps(q, false, paused, id);
    case PortDropped => SameCommands(q, q.(live := false), id);
  }

  lemma SameCommands(q: Queue, q': Queue, id: Id)
    requires Inv(q) && q' == q.(live := q'.live, paused := q'.paused, epoch := q'.epoch, connection := q'.connection)
    requires q'.epoch >= q.epoch
    ensures Inv(q') && Account(q', id) == Account(q, id) && StartsOne(q, q')
  {
  }

  lemma EpochChangeKeeps(q: Queue, live: bool, paused: bool, id: Id)
    requires Inv(q) && (live ==> q.live)
    ensures var q1 := q.(live := live, paused := paused, epoch := q.epoch + 1);
            && Inv(q1) && StartsOne(q, q1) && Inv(InvalidateSpec(q1)) && StartsOne(q, InvalidateSpec(q1))
            && InvalidateSpec(q1).live == live && Account(q1, id) == Account(q, id)
            && (live ==> Account(InvalidateSpec(q1), id) == Account(q, id))
  {
    hide Inv, InvalidateSpec;
    var q1 := q.(live := live, paused := paused, epoch := q.epoch + 1);
    SameCommands(q, q1, id);
    InvalidateKeeps(q1, id);
  }

  // ---------- main results ----------

  /**
   * In every run: the entries are exactly the waiting commands and the one in flight, all with
   * different IDs; at most eight wait; commands start one at a time, in the order they were
   * accepted, uncancelled and while the scope epoch they were accepted under is current.
   */
  lemma {:induction false} RunKeepsInv(connection: nat, epoch: nat, events: seq<Event>)
    ensures Inv(Run(connection, epoch, events))
    decreases |events|
  {
    if |events| > 0 {
      RunKeepsInv(connection, epoch, events[..|events| - 1]);
      NextKeeps(Run(connection, epoch, events[..|events| - 1]), events[|events| - 1], 0);
    }
  }

  /**
   * While the port lives, the terminal messages sent for an ID and the command still held under it
   * add up to the commands submitted with that ID.
   */
  lemma {:induction false} EveryCommandIsAnswered(connection: nat, epoch: nat, events: seq<Event>, id: Id)
    requires Run(connection, epoch, events).live
    ensures Account(Run(connection, epoch, events), id) == Submitted(events, id)
    decreases |events|
  {
    if |events| > 0 {
      var init := events[..|events| - 1];
      RunKeepsInv(connection, epoch, init);
      NextKeeps(Run(connection, epoch, init), events[|events| - 1], id);
      EveryCommandIsAnswered(connection, epoch, init, id);
    }
  }

  /** With distinct IDs: exactly one terminal message once the command is no longer held, none before. */
  lemma OneTerminalPerCommand(connection: nat, epoch: nat, events: seq<Event>, id: Id)
    requires Run(connection, epoch, events).live && Submitted(events, id) == 1
    ensures var q := Run(connection, epoch, events); Terminals(q.out, id) == if id in q.entries then 0 else 1
  {
    EveryCommandIsAnswered(connection, epoch, events, id);
  }

  // ---------- what each step does to the commands ----------

  /**
   * The command may run now: its port lives, its deadline has not passed, nobody cancelled it, nothing is paused,
   * and the scope is the one it was accepted under, for a bound command also the connection and scope it names.
   */
  ghost predicate Allowed(q: Queue, r: Record, late: set<Id>) {
    && q.live && !q.paused && !r.cancelled && r.id !in late && r.epoch == q.epoch
    && (r.bound.Some? ==> r.bound.value.0 == q.connection && r.bound.value.1 == q.epoch)
  }

  /** Error responses to commands, in order. */
  function Errors(records: seq<Record>): seq<Post> {
    seq(|records|, i requires 0 <= i < |records| => Response(records[i].id, true))
  }

  /** How many commands at the front may not run. */
  ghost function Blocked(q: Queue, waiting: seq<Record>, late: set<Id>): (n: nat)
    ensures n <= |waiting| && (forall k | 0 <= k < n :: !Allowed(q, waiting[k], late))
    ensures n < |waiting| ==> Allowed(q, waiting[n], late)
  {
    if |waiting| == 0 || Allowed(q, waiting[0], late) then 0 else 1 + Blocked(q, waiting[1..], late)
  }

  ghost function IdsOf(records: seq<Record>): set<Id> {
    set i | 0 <= i < |records| :: records[i].id
  }

  /** The state after a drain that answered the first `n` waiting commands. */
  ghost function Drained(q: Queue, n: nat): Queue
    requires n <= |q.waiting|
  {
    var q1 := q.(entries := q.entries - IdsOf(q.waiting[..n]), out := if q.live then q.out + Errors(q.waiting[..n]) else q.out);
    if n == |q.waiting| then q1.(waiting := [], running := false)
    else q1.(waiting := q.waiting[n + 1..], inflight := Some(q.waiting[n]), starts := q.starts + [(q.waiting[n], q.epoch)])
  }

  /**
   * A drain starts the first waiting command that may run, under the current epoch, and leaves those behind it
   * waiting; those before it, or all if none may run, are answered with an error.
   */
  lemma {:induction false} DrainStartsFirst(q: Queue, late: set<Id>)
    ensures Drain(q, late) == Drained(q, Blocked(q, q.waiting, late))
    decreases |q.waiting|
  {
    hide Drained, Allowed, Drain;
    DrainUnfolds(q, late);
    DrainedAtOnce(q);
    if |q.waiting| > 0 && !Allowed(q, q.waiting[0], late) {
      var q1 := Answer(q);
      DrainStartsFirst(q1, late);
      SameBlocked(q, q1, q1.waiting, late);
      AnswerThenDrained(q, Blocked(q, q1.waiting, late));
    }
  }

  lemma DrainUnfolds(q: Queue, late: set<Id>)
    ensures q.waiting == [] ==> Drain(q, late) == q.(running := false)
    ensures q.waiting != [] && Allowed(q, q.waiting[0], late) ==>
              Drain(q, late) == q.(waiting := q.waiting[1..], inflight := Some(q.waiting[0]), starts := q.starts + [(q.waiting[0], q.epoch)])
    ensures q.waiting != [] && !Allowed(q, q.waiting[0], late) ==> Drain(q, late) == Drain(Answer(q), late)
  {
  }

  lemma DrainedAtOnce(q: Queue)
    ensures Drained(q, 0)
            == if q.waiting == [] then q.(running := false)
               else q.(waiting := q.waiting[1..], inflight := Some(q.waiting[0]), starts := q.starts + [(q.waiting[0], q.epoch)])
  {
    assert q.waiting[..0] == [] && Errors([]) == [] && q.out + [] == q.out && IdsOf([]) == {};
    hide Errors, IdsOf;
  }

  lemma AnswerThenDrained(q: Queue, n: nat)
    requires n < |q.waiting|
    ensures Drained(Answer(q), n) == Drained(q, n + 1)
  {
    hide Errors, IdsOf, Drained;
    var r, rest := q.waiting[0], q.waiting[1..];
    assert q.waiting[..n + 1] == [r] + rest[..n];
    ErrorsCons(r, rest[..n]);
    IdsOfCons(r, rest[..n]);
    SameDrained(q, Answer(q), n);
  }

  lemma SameDrained(q: Queue, q1: Queue, n: nat)
    requires n < |q.waiting| && q1.waiting == q.waiting[1..]
    requires q1 == q.(waiting := q1.waiting, entries := q.entries - {q.waiting[0].id}, out := q1.out)
    requires q1.out == if q.live then q.out + [Response(q.waiting[0].id, true)] else q.out
    requires Errors(q.waiting[..n + 1]) == [Response(q.waiting[0].id, true)] + Errors(q1.waiting[..n])
    requires IdsOf(q.waiting[..n + 1]) == {q.waiting[0].id} + IdsOf(q1.waiting[..n])
    ensures Drained(q1, n) == Drained(q, n + 1)
  {
    hide Errors, IdsOf;
    assert n < |q1.waiting| ==> q1.waiting[n + 1..] == q.waiting[n + 2..] && q1.waiting[n] == q.waiting[n + 1];
    assert q1.entries - IdsOf(q1.waiting[..n]) == q.entries - IdsOf(q.waiting[..n + 1]);
    assert q.live ==> q1.out + Errors(q1.waiting[..n]) == q.out + Errors(q.waiting[..n + 1]);
  }

  lemma ErrorsCons(r: Record, rest: seq<Record>)
    ensures Errors([r] + rest) == [Response(r.id, true)] + Errors(rest)
  {
  }

  lemma {:induction false} SameBlocked(q: Queue, q1: Queue, waiting: seq<Record>, late: set<Id>)
    requires q1.live == q.live && q1.paused == q.paused && q1.epoch == q.epoch && q1.connection == q.connection
    ensures Blocked(q1, waiting, late) == Blocked(q, waiting, late)
    decreases |waiting|
  {
    if |waiting| > 0 {
      SameBlocked(q, q1, waiting[1..], late);
    }
  }

  lemma IdsOfCons(r: Record, rest: seq<Record>)
    ensures IdsOf([r] + rest) == {r.id} + IdsOf(rest)
  {
    forall id | id in {r.id} + IdsOf(rest)
      ensures id in IdsOf([r] + rest)
    {
      if id in IdsOf(rest) {
        var i :| 0 <= i < |rest| && rest[i].id == id;
        assert ([r] + rest)[i + 1].id == id;
      } else {
        assert ([r] + rest)[0].id == id;
      }
    }
  }

  /** The commands that may run, or those that may not, in order. */
  ghost function Those(q: Queue, waiting: seq<Record>, late: set<Id>, allowed: bool): seq<Record> {
    if |waiting| == 0 then []
    else (if Allowed(q, waiting[0], late) == allowed then [waiting[0]] else []) + Those(q, waiting[1..], late, allowed)
  }

  /** The state after a sweep of `copy`, of which `kept` in front was spared. */
  ghost function Swept(q: Queue, kept: seq<Record>, copy: seq<Record>, late: set<Id>): Queue {
    q.(waiting := kept + Those(q, copy, late, true), entries := q.entries - IdsOf(Those(q, copy, late, false)),
       out := if q.live then q.out + Errors(Those(q, copy, late, false)) else q.out)
  }

  /** The sweep keeps exactly the waiting commands that may run and answers the others with an error, in order. */
  lemma SweepIs(q: Queue, late: set<Id>)
    requires Distinct(q)
    ensures Sweep(q, q.waiting, late) == Swept(q, [], q.waiting, late)
  {
    assert [] + q.waiting == q.waiting;
    SweepFrom(q, [], q.waiting, late);
  }

  lemma {:induction false} SweepFrom(q: Queue, kept: seq<Record>, copy: seq<Record>, late: set<Id>)
    requires q.waiting == kept + copy && Increasing(kept + copy)
    ensures Sweep(q, copy, late) == Swept(q, kept, copy, late)
    decreases |copy|
  {
    if |copy| == 0 {
      assert Those(q, copy, late, true) == [] && Those(q, copy, late, false) == [];
      assert kept + [] == kept == kept + copy && Errors([]) == [] && q.out + [] == q.out && IdsOf([]) == {};
    } else {
      var r, rest := copy[0], copy[1..];
      assert kept + copy == kept + [r] + rest;
      hide Swept;
      if Allowed(q, r, late) {
        SweepFrom(q, kept + [r], rest, late);
        SweptSpares(q, kept, copy, late);
      } else {
        DropMiddle(kept, r, rest);
        SweepFrom(Drop(q, r, Response(r.id, true)), kept, rest, late);
        SweptDrops(q, kept, copy, late);
      }
    }
  }

  lemma SweptSpares(q: Queue, kept: seq<Record>, copy: seq<Record>, late: set<Id>)
    requires |copy| > 0 && Allowed(q, copy[0], late)
    ensures Swept(q, kept + [copy[0]], copy[1..], late) == Swept(q, kept, copy, late)
  {
    var r, rest := copy[0], copy[1..];
    assert kept + [r] + Those(q, rest, late, true) == kept + ([r] + Those(q, rest, late, true));
    assert Those(q, copy, late, false) == [] + Those(q, rest, late, false) == Those(q, rest, late, false);
    hide Errors, IdsOf;
  }

  lemma SweptDrops(q: Queue, kept: seq<Record>, copy: seq<Record>, late: set<Id>)
    requires |copy| > 0 && !Allowed(q, copy[0], late)
    ensures Swept(Drop(q, copy[0], Response(copy[0].id, true)), kept, copy[1..], late) == Swept(q, kept, copy, late)
  {
    var r, rest := copy[0], copy[1..];
    var q1 := Drop(q, r, Response(r.id, true));
    SameThose(q, q1, rest, late, true);
    SameThose(q, q1, rest, late, false);
    var gone := Those(q, rest, late, false);
    assert Those(q, copy, late, false) == [r] + gone;
    assert Those(q, copy, late, true) == [] + Those(q, rest, late, true) == Those(q, rest, late, true);
    ErrorsCons(r, gone);
    IdsOfCons(r, gone);
    hide Errors, IdsOf, Those;
  }

  /** A new command is taken when its ID is free, a place is left, its protocol allows it, and it may run now. */
  ghost predicate Acceptable(q: Queue, m: Message, late: set<Id>) {
    && m.id !in q.entries && |q.waiting| < 8
    && (match m.protocol
        case None => !m.effect
        case Some(version) => (version == 2 && m.integersSafe) || ((version == 0 || version == 1) && !m.effect))
    && q.live && !q.paused && m.id !in late
    && (m.protocol == Some(2) ==> m.connection == q.connection && m.scope == q.epoch)
  }

  /**
   * What a new command meets, in every reachable state: after the sweep it is refused with an error, or waits behind
   * the others while one runs, or starts at once, unless its deadline passed meanwhile.
   */
  lemma EnqueueAnswers(connection: nat, epoch: nat, events: seq<Event>, m: Message, late: set<Id>, late': set<Id>)
    requires Run(connection, epoch, events).live
    ensures var q := Run(connection, epoch, events);
            var s, q' := Swept(q, [], q.waiting, late), Next(q, Enqueue(m, late, late'));
            var r := Record(q.next, m.id, q.epoch, if m.protocol == Some(2) then Some((m.connection, m.scope)) else None, false);
            if !Acceptable(s, m, late) then q' == s.(out := s.out + [Response(m.id, true)])
            else if q.inflight.Some? then
              q' == s.(entries := s.entries + {m.id}, waiting := s.waiting + [r], next := s.next + 1)
            else
              && s.waiting == []
              && q' == (if m.id in late' then s.(out := s.out + [Response(m.id, true)], next := s.next + 1)
                        else s.(entries := s.entries + {m.id}, next := s.next + 1, running := true,
                                inflight := Some(r), starts := s.starts + [(r, q.epoch)]))
  {
    RunKeepsInv(connection, epoch, events);
    var q := Run(connection, epoch, events);
    var s := Swept(q, [], q.waiting, late);
    SweepIs(q, late);
    hide Run, Sweep, Core, Swept, Those, IdsOf, Errors, Drain;
    assert s.live == q.live && s.next == q.next && s.epoch == q.epoch && s.inflight == q.inflight && s.running == q.running by {
      SweptIsSteady(q, late);
    }
    assert q.inflight == None ==> s.waiting == [] by {
      SweptIsSteady(q, late);
    }
    AcceptsIf(s, m, late);
    if Acceptable(s, m, late) && q.inflight == None {
      StartsAtOnce(s, m, late');
      assert s.waiting + [NewRecord(s, m)] == [NewRecord(s, m)];
      assert !s.running;
    }
  }

  lemma SweptIsSteady(q: Queue, late: set<Id>)
    ensures var s := Swept(q, [], q.waiting, late);
            && s.live == q.live && s.next == q.next && s.epoch == q.epoch && s.inflight == q.inflight && s.running == q.running
            && (q.waiting == [] ==> s.waiting == [])
  {
  }

  lemma AcceptsIf(q: Queue, m: Message, late: set<Id>)
    ensures Accepts(q, m, late) <==> Acceptable(q, m, late)
  {
  }

  lemma StartsAtOnce(s: Queue, m: Message, late': set<Id>)
    requires s.waiting == [] && s.live && !s.paused && m.id !in s.entries
    requires m.protocol == Some(2) ==> m.connection == s.connection && m.scope == s.epoch
    ensures var r := NewRecord(s, m);
            Drain(s.(entries := s.entries + {m.id}, waiting := [r], next := s.next + 1, running := true), late')
            == (if m.id in late' then s.(out := s.out + [Response(m.id, true)], next := s.next + 1, running := false)
                else s.(entries := s.entries + {m.id}, next := s.next + 1, running := true,
                        inflight := Some(r), starts := s.starts + [(r, s.epoch)]))
  {
    var r := NewRecord(s, m);
    assert [r][1..] == [];
    assert s.entries + {m.id} - {m.id} == s.entries;
    hide ProtocolOk;
  }

  /** The end of an execution is answered with its own outcome, and the drain goes on behind it. */
  lemma FinishAnswers(q: Queue, error: bool, late: set<Id>)
    requires q.inflight.Some?
    ensures var id := q.inflight.value.id;
            var q1 := q.(entries := q.entries - {id}, inflight := None,
                         out := if q.live then q.out + [Response(id, error)] else q.out);
            Next(q, Finish(error, late)) == Drained(q1, Blocked(q1, q1.waiting, late))
  {
    DrainStartsFirst(Answered(q, error), late);
    hide Drain, Drained, Blocked;
  }

  /** A cancel takes a waiting command out and says so; one in flight is only marked; any other is not found. */
  lemma CancelAnswers(connection: nat, epoch: nat, events: seq<Event>, id: Id, from: nat)
    requires Run(connection, epoch, events).live
    ensures var q, q' := Run(connection, epoch, events), Next(Run(connection, epoch, events), Cancel(id, from));
            && (from != q.connection ==> q' == q)
            && (forall i | from == q.connection && 0 <= i < |q.waiting| && q.waiting[i].id == id ::
                  q' == q.(waiting := q.waiting[..i] + q.waiting[i + 1..], entries := q.entries - {id}, out := q.out + [CancelAck(id, true)]))
            && (from == q.connection && (forall i | 0 <= i < |q.waiting| :: q.waiting[i].id != id) ==>
                  q' == q.(inflight := if q.inflight.Some? && q.inflight.value.id == id
                                       then Some(q.inflight.value.(cancelled := true)) else q.inflight,
                           out := q.out + [CancelAck(id, false)]))
  {
    RunKeepsInv(connection, epoch, events);
    var q := Run(connection, epoch, events);
    hide Run, InOrder, Without;
    WaitingAtFinds(q.waiting, id);
    assert Increasing(q.waiting);
    hide WaitingAt;
    forall i | from == q.connection && 0 <= i < |q.waiting| && q.waiting[i].id == id
      ensures Next(q, Cancel(id, from))
              == q.(waiting := q.waiting[..i] + q.waiting[i + 1..], entries := q.entries - {id}, out := q.out + [CancelAck(id, true)])
    {
      var r := WaitingAt(q.waiting, id).value;
      var j :| 0 <= j < |q.waiting| && q.waiting[j] == r;
      assert i == j;
      WithoutAt(q.waiting, i);
    }
  }

  /** A scope change that invalidates answers every waiting command with an error and marks the one in flight. */
  lemma InvalidateAnswers(connection: nat, epoch: nat, events: seq<Event>, paused: bool)
    ensures var q, q' := Run(connection, epoch, events), Next(Run(connection, epoch, events), EpochChange(paused, true));
            && q' == q.(paused := paused, epoch := q.epoch + 1, waiting := [], entries := q'.entries,
                        inflight := if q.inflight.Some? then Some(q.inflight.value.(cancelled := true)) else None,
                        out := if q.live then q.out + Errors(q.waiting) else q.out)
            && q'.entries == if q.inflight.Some? then {q.inflight.value.id} else {}
  {
    RunKeepsInv(connection, epoch, events);
    var q := Run(connection, epoch, events);
    hide Run, Errors;
    InvalidateInFull(q.(paused := paused, epoch := q.epoch + 1));
    hide InvalidateSpec, Inv;
  }

  lemma InvalidateInFull(q: Queue)
    requires Entered(q) && Distinct(q)
    ensures InvalidateSpec(q)
            == q.(waiting := [], entries := if q.inflight.Some? then {q.inflight.value.id} else {},
                  inflight := if q.inflight.Some? then Some(q.inflight.value.(cancelled := true)) else None,
                  out := if q.live then q.out + Errors(q.waiting) else q.out)
  {
    var q1 := if q.inflight.Some? then q.(inflight := Some(q.inflight.value.(cancelled := true))) else q;
    InvalidateIs(q1, q.waiting);
    InvalidateSettles(q1, q.waiting, 0);
    hide InvalidateFrom, Errors, Account;
    var entries := InvalidateSpec(q).entries;
    forall x
      ensures x in entries <==> q.inflight.Some? && x == q.inflight.value.id
    {
    }
  }

  lemma {:induction false} InvalidateIs(q: Queue, rest: seq<Record>)
    ensures InvalidateFrom(q, rest).out == if q.live then q.out + Errors(rest) else q.out
    decreases |rest|
  {
    if |rest| > 0 {
      InvalidateIs(Posted(q.(entries := q.entries - {rest[0].id}), Response(rest[0].id, true)), rest[1..]);
      assert rest == [rest[0]] + rest[1..];
      ErrorsCons(rest[0], rest[1..]);
    }
  }

  // ---------- who is told of success ----------

  function Successes(out: seq<Post>, id: Id): nat
    decreases |out|
  {
    if |out| == 0 then 0 else Successes(out[..|out| - 1], id) + if out[|out| - 1] == Response(id, false) then 1 else 0
  }

  /** How often an execution of the command ended without error while the port lived. */
  ghost function Executed(connection: nat, epoch: nat, events: seq<Event>, id: Id): nat
    decreases |events|
  {
    if |events| == 0 then 0
    else
      var q, last := Run(connection, epoch, events[..|events| - 1]), events[|events| - 1];
      Executed(connection, epoch, events[..|events| - 1], id)
      + if q.live && q.inflight.Some? && q.inflight.value.id == id && last.Finish? && !last.error then 1 else 0
  }

  lemma {:induction false} SuccessesAppend(out: seq<Post>, more: seq<Post>, id: Id)
    ensures Successes(out + more, id) == Successes(out, id) + Successes(more, id)
    decreases |more|
  {
    if |more| == 0 {
      assert out + more == out;
    } else {
      assert (out + more)[..|out + more| - 1] == out + more[..|more| - 1];
      SuccessesAppend(out, more[..|more| - 1], id);
    }
  }

  lemma {:induction false} NoSuccessIn(posts: seq<Post>, id: Id)
    requires forall i | 0 <= i < |posts| :: posts[i].Response? ==> posts[i].error
    ensures Successes(posts, id) == 0
    decreases |posts|
  {
    if |posts| > 0 {
      NoSuccessIn(posts[..|posts| - 1], id);
    }
  }

  /** `out` grew by posts that report no success. */
  ghost predicate OnlyErrors(out: seq<Post>, out': seq<Post>) {
    out <= out' && forall i | |out| <= i < |out'| :: out'[i].Response? ==> out'[i].error
  }

  lemma OnlyErrorsCount(out: seq<Post>, out': seq<Post>, id: Id)
    requires OnlyErrors(out, out')
    ensures Successes(out', id) == Successes(out, id)
  {
    var more := out'[|out|..];
    assert out' == out + more;
    SuccessesAppend(out, more, id);
    NoSuccessIn(more, id);
  }

  lemma StepTellsErrors(connection: nat, epoch: nat, events: seq<Event>, e: Event)
    requires !(e.Finish? && Run(connection, epoch, events).inflight.Some?)
    ensures OnlyErrors(Run(connection, epoch, events).out, Next(Run(connection, epoch, events), e).out)
  {
    var q := Run(connection, epoch, events);
    match e
    case Enqueue(m, late, late') =>
      if q.live {
        EnqueueAnswers(connection, epoch, events, m, late, late');
        SweptTells(q, late, m.id);
        hide Next, Run, Acceptable, OnlyErrors, Swept;
      }
    case Cancel(id, from) =>
      if q.live {
        CancelTells(q, id, from);
        hide CancelSpec, Run;
      }
    case EpochChange(paused, invalidates) =>
      InvalidateTells(q.(paused := paused, epoch := q.epoch + 1));
      hide InvalidateSpec, Run;
    case Disconnect(paused) =>
      InvalidateTells(q.(live := false, paused := paused, epoch := q.epoch + 1));
      hide InvalidateSpec, Run;
    case _ =>
      hide Run;
  }

  lemma InvalidateTells(q: Queue)
    ensures OnlyErrors(q.out, InvalidateSpec(q).out)
  {
    var q1 := if q.inflight.Some? then q.(inflight := Some(q.inflight.value.(cancelled := true))) else q;
    InvalidateIs(q1, q.waiting);
    hide InvalidateFrom;
  }

  lemma SweptTells(q: Queue, late: set<Id>, id: Id)
    ensures var s := Swept(q, [], q.waiting, late);
            OnlyErrors(q.out, s.out) && OnlyErrors(q.out, s.out + [Response(id, true)])
  {
    hide Those;
  }

  lemma CancelTells(q: Queue, id: Id, from: nat)
    ensures OnlyErrors(q.out, CancelSpec(q, id, from).out)
  {
    hide WaitingAt, Without;
  }

  lemma FinishTells(q: Queue, error: bool, late: set<Id>, id: Id)
    requires q.inflight.Some?
    ensures Successes(Next(q, Finish(error, late)).out, id)
            == Successes(q.out, id) + if q.live && q.inflight.value.id == id && !error then 1 else 0
  {
    FinishAnswers(q, error, late);
    var done := q.inflight.value.id;
    var q1 := q.(entries := q.entries - {done}, inflight := None, out := if q.live then q.out + [Response(done, error)] else q.out);
    hide Next, Blocked, Drained, Successes, OnlyErrors;
    SuccessesSnoc(q.out, Response(done, error), id);
    DrainedTells(q1, Blocked(q1, q1.waiting, late));
    OnlyErrorsCount(q1.out, Drained(q1, Blocked(q1, q1.waiting, late)).out, id);
  }

  lemma SuccessesSnoc(out: seq<Post>, post: Post, id: Id)
    ensures Successes(out + [post], id) == Successes(out, id) + if post == Response(id, false) then 1 else 0
  {
    assert (out + [post])[..|out|] == out;
  }

  lemma DrainedTells(q: Queue, n: nat)
    requires n <= |q.waiting|
    ensures OnlyErrors(q.out, Drained(q, n).out)
  {
  }

  /** Success is reported of a command exactly as often as its execution ended well: once per such end, and for nothing else. */
  lemma {:induction false} SuccessIsExecution(connection: nat, epoch: nat, events: seq<Event>, id: Id)
    ensures Successes(Run(connection, epoch, events).out, id) == Executed(connection, epoch, events, id)
    decreases |events|
  {
    if |events| > 0 {
      var init, last := events[..|events| - 1], events[|events| - 1];
      var q := Run(connection, epoch, init);
      SuccessIsExecution(connection, epoch, init, id);
      if last.Finish? && q.inflight.Some? {
        FinishTells(q, last.error, last.late, id);
      } else {
        StepTellsErrors(connection, epoch, init, last);
        OnlyErrorsCount(q.out, Next(q, last).out, id);
      }
      hide Next;
    }
  }

  lemma DropMiddle(kept: seq<Record>, r: Record, rest: seq<Record>)
    requires Increasing(kept + [r] + rest)
    ensures Without(kept + [r] + rest, r.no) == kept + rest && Increasing(kept + rest)
  {
    var all := kept + [r] + rest;
    WithoutAt(all, |kept|);
    assert all[..|kept|] + all[|kept| + 1..] == kept + rest;
    assert forall i | 0 <= i < |kept + rest| :: (kept + rest)[i] == all[if i < |kept| then i else i + 1];
  }

  lemma {:induction false} SameThose(q: Queue, q1: Queue, waiting: seq<Record>, late: set<Id>, allowed: bool)
    requires q1.live == q.live && q1.paused == q.paused && q1.epoch == q.epoch && q1.connection == q.connection
    ensures Those(q1, waiting, late, allowed) == Those(q, waiting, late, allowed)
    decreases |waiting|
  {
    if |waiting| > 0 {
      SameThose(q, q1, waiting[1..], late, allowed);
    }
  }

  /**
   * The scope fence: whatever starts from some moment on was accepted under the epoch of that
   * moment or a later one; so no command accepted before a scope change starts after it.
   */
  lemma {:induction false} NothingStaleStarts(connection: nat, epoch: nat, before: seq<Event>, after: seq<Event>, k: nat)
    requires |Run(connection, epoch, before).starts| <= k < |Run(connection, epoch, before + after).starts|
    ensures Run(connection, epoch, before + after).starts[k].0.epoch >= Run(connection, epoch, before).epoch
    decreases |after|
  {
    hide Next;
    assert after == [] ==> before + after == before;
    if |after| > 0 {
      var init, last := after[..|after| - 1], after[|after| - 1];
      assert before + after == before + init + [last];
      assert (before + after)[..|before + init|] == before + init;
      var q := Run(connection, epoch, before + init);
      RunKeepsInv(connection, epoch, before + init);
      RunKeepsInv(connection, epoch, before + after);
      NextKeeps(q, last, 0);
      EpochGrows(connection, epoch, before, init);
      if k < |q.starts| {
        NothingStaleStarts(connection, epoch, before, init, k);
        assert Next(q, last).starts[..|q.starts|][k] == q.starts[k];
      }
    }
  }

  lemma {:induction false} EpochGrows(connection: nat, epoch: nat, before: seq<Event>, after: seq<Event>)
    ensures Run(connection, epoch, before).epoch <= Run(connection, epoch, before + after).epoch
    decreases |after|
  {
    hide Next;
    if |after| == 0 {
      assert before + after == before;
    } else {
      var init, last := after[..|after| - 1], after[|after| - 1];
      assert before + after == before + init + [last];
      assert (before + after)[..|before + init|] == before + init;
      EpochGrows(connection, epoch, before, init);
      RunKeepsInv(connection, epoch, before + init);
      NextKeeps(Run(connection, epoch, before + init), last, 0);
    }
  }
}
