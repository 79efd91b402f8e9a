/// Coalesced scope publishing: `scopeUpdate`, `drainScopeUpdates` and `newScopeBatch`
/// in browser-extension/background.js.  A step is the code between two awaits; the only
/// await is inside `publishScope`, whose end is the `PublishEnded` event.

module ScopePublisher {
  import opened Wrappers

  type Batch = nat

  /**
   * The three module variables, and the microtasks still to run `drainScopeUpdates`.
   * Promises are batches; `clock` counts steps, `calls` says when each `scopeUpdate` happened
   * and which promise it returned, `started` when the publish for a batch started.
   */
  datatype Publisher = Publisher(scheduled: bool, publishing: Option<Batch>, queued: Option<Batch>, tasks: nat, next: Batch,
                                 clock: nat, calls: seq<(nat, Batch)>, started: map<Batch, nat>, settled: map<Batch, bool>)

  function WithBatch(p: Publisher): Publisher
    ensures WithBatch(p).queued.Some?
  {
    if p.queued == None then p.(queued := Some(p.next), next := p.next + 1) else p
  }

  function Schedule(p: Publisher): Publisher {
    if p.scheduled then p else p.(scheduled := true, tasks := p.tasks + 1)
  }

  function UpdateSpec(p: Publisher): Publisher {
    var p1 := if p.publishing.Some? then WithBatch(p) else Schedule(WithBatch(p));
    p1.(calls := p1.calls + [(p1.clock, p1.queued.value)])
  }

  /** `drainScopeUpdates` up to the await. */
  function DrainSpec(p: Publisher): Publisher
    requires p.tasks > 0
  {
    var p1 := p.(scheduled := false, tasks := p.tasks - 1);
    if p1.publishing.Some? || p1.queued == None then p1
    else p1.(queued := None, publishing := p1.queued, started := p1.started[p1.queued.value := p1.clock])
  }

  /** The rest of `drainScopeUpdates`, once `publishScope` is done or has failed. */
  function EndSpec(p: Publisher, ok: bool): Publisher
    requires p.publishing.Some?
  {
    var p1 := p.(settled := p.settled[p.publishing.value := ok], publishing := None);
    if p1.queued.Some? then Schedule(p1) else p1
  }

  class ScopePublishing {
    var scopeScheduled: bool
    var scopePublishing: Option<Batch>
    var scopeQueued: Option<Batch>
    var microtasks: nat
    var nextBatch: Batch
    ghost var clock: nat
    ghost var calls: seq<(nat, Batch)>
    ghost var started: map<Batch, nat>
    var settled: map<Batch, bool>

    ghost function Model(): Publisher
      reads this
    {
      Publisher(scopeScheduled, scopePublishing, scopeQueued, microtasks, nextBatch, clock, calls, started, settled)
    }

    constructor ()
      ensures Model() == Init()
    {
      scopeScheduled, scopePublishing, scopeQueued := false, None, None;
      microtasks, nextBatch := 0, 0;
      clock, calls, started, settled := 0, [], map[], map[];
    }

    method NewScopeBatch() returns (batch: Batch)
      modifies this`nextBatch
      ensures batch == old(nextBatch) && nextBatch == batch + 1
    {
      batch := nextBatch;
      nextBatch := nextBatch + 1;
    }

    method ScopeUpdate() returns (promise: Batch)
      modifies this
      ensures Model() == UpdateSpec(old(Model())) && scopeQueued == Some(promise)
    {
      if scopePublishing.Some? {
        if scopeQueued == None {
          var batch := NewScopeBatch();
          scopeQueued := Some(batch);
        }
        calls := calls + [(clock, scopeQueued.value)];
        return scopeQueued.value;
      }
      if scopeQueued == None {
        var batch := NewScopeBatch();
        scopeQueued := Some(batch);
      }
      if !scopeScheduled {
        scopeScheduled := true;
        microtasks := microtasks + 1;
      }
      calls := calls + [(clock, scopeQueued.value)];
      return scopeQueued.value;
    }

    method DrainScopeUpdates() returns (publishes: bool)
      requires microtasks > 0
      modifies this
      ensures Model() == DrainSpec(old(Model()))
      ensures publishes <==> old(scopePublishing) == None && scopePublishing.Some?
    {
      microtasks := microtasks - 1;
      scopeScheduled := false;
      if scopePublishing.Some? || scopeQueued == None {
        return false;
      }
      var batch := scopeQueued.value;
      scopeQueued := None;
      scopePublishing := Some(batch);
      started := started[batch := clock];
      return true;
    }

    method PublishEnded(ok: bool)
      requires scopePublishing.Some?
      modifies this
      ensures Model() == EndSpec(old(Model()), ok)
    {
      settled := settled[scopePublishing.value := ok];
      scopePublishing := None;
      if scopeQueued.Some? && !scopeScheduled {
        scopeScheduled := true;
        microtasks := microtasks + 1;
      }
    }
  }

  // ---------- runs ----------

  datatype Event = ScopeUpdated | TaskRuns | PublishEnds(ok: bool)

  ghost predicate Enabled(p: Publisher, e: Event) {
    match e
    case ScopeUpdated => true
    case TaskRuns => p.tasks > 0
    case PublishEnds(ok) => p.publishing.Some?
  }

  ghost function Do(p: Publisher, e: Event): Publisher
    requires Enabled(p, e)
  {
    match e
    case ScopeUpdated => UpdateSpec(p)
    case TaskRuns => DrainSpec(p)
    case PublishEnds(ok) => EndSpec(p, ok)
  }

  /** Every step moves the clock; an event that cannot happen now does nothing else. */
  ghost function Next(p: Publisher, e: Event): Publisher {
    var p1 := if Enabled(p, e) then Do(p, e) else p;
    p1.(clock := p.clock + 1)
  }

  function Init(): Publisher {
    Publisher(false, None, None, 0, 0, 0, [], map[], map[])
  }

  ghost function Run(events: seq<Event>): Publisher
    decreases |events|
  {
    if |events| == 0 then Init() else Next(Run(events[..|events| - 1]), events[|events| - 1])
  }

  // ---------- invariant ----------

  /** One drain at most is scheduled, never beside a publish, and a queued batch always has one or the other coming. */
  ghost predicate Shape(p: Publisher) {
    && p.tasks == (if p.scheduled then 1 else 0)
    && !(p.scheduled && p.publishing.Some?)
    && (p.scheduled ==> p.queued.Some?)
    && (p.queued.Some? ==> p.scheduled || p.publishing.Some?)
  }

  /** Where a batch is: queued, being published, or settled. */
  ghost predicate Placed(p: Publisher, b: Batch) {
    if p.queued == Some(b) then b !in p.started && b !in p.settled && p.publishing != Some(b)
    else if p.publishing == Some(b) then b in p.started && b !in p.settled
    else b in p.started && b in p.settled
  }

  ghost predicate Placement(p: Publisher) {
    forall b: Batch :: if b < p.next then Placed(p, b)
      else b !in p.started && b !in p.settled && p.queued != Some(b) && p.publishing != Some(b)
  }

  /** A publish starts strictly after every call that waits for it. */
  ghost predicate Fresh(p: Publisher) {
    forall i | 0 <= i < |p.calls| ::
      && p.calls[i].1 < p.next && p.calls[i].0 < p.clock
      && (p.calls[i].1 in p.started ==> p.calls[i].0 < p.started[p.calls[i].1] < p.clock)
  }

  ghost predicate Inv(p: Publisher) {
    Shape(p) && Placement(p) && Fresh(p)
  }

  lemma NextKeepsInv(p: Publisher, e: Event)
    requires Inv(p)
    ensures Inv(Next(p, e))
  {
    var q := Next(p, e);
    assert Shape(q) by {
      hide Placement, Fresh;
    }
    assert Placement(q) by {
      hide Fresh;
    }
    assert Fresh(q);
  }

  lemma {:induction false} RunKeepsInv(events: seq<Event>)
    ensures Inv(Run(events))
    decreases |events|
  {
    if |events| > 0 {
      RunKeepsInv(events[..|events| - 1]);
      NextKeepsInv(Run(events[..|events| - 1]), events[|events| - 1]);
    }
  }

  /**
   * In every run: a publish that started and did not end is the one in `scopePublishing`, so at most
   * one runs at a time; no drain is scheduled beside it or twice; and a queued batch always has
   * a scheduled drain or a running publish before it.
   */
  lemma OnePublishAtATime(events: seq<Event>)
    ensures var p := Run(events);
            && (forall b: Batch :: b in p.started && b !in p.settled <==> p.publishing == Some(b))
            && p.tasks <= 1 && (p.tasks == 1 ==> p.publishing == None)
            && (p.queued.Some? ==> p.tasks == 1 || p.publishing.Some?)
  {
    RunKeepsInv(events);
    var p := Run(events);
    forall b: Batch
      ensures b in p.started && b !in p.settled <==> p.publishing == Some(b)
    {
      assert b < p.next ==> Placed(p, b);
    }
  }

  /** A settled promise was settled by a publish that started after the call that returned it. */
  lemma SettledByLaterPublish(events: seq<Event>, i: nat)
    requires i < |Run(events).calls| && Run(events).calls[i].1 in Run(events).settled
    ensures var p := Run(events);
            p.calls[i].1 in p.started && p.calls[i].0 < p.started[p.calls[i].1]
  {
    RunKeepsInv(events);
    assert Placed(Run(events), Run(events).calls[i].1);
  }

  /** A drain that runs finds a batch and no publish in progress. */
  lemma DrainAlwaysPublishes(events: seq<Event>)
    requires Run(events).tasks > 0
    ensures var p := Run(events);
            p.publishing == None && p.queued.Some? && DrainSpec(p).publishing == p.queued && p.tasks == 1
  {
    RunKeepsInv(events);
  }

  // ---------- progress ----------

  /** Steps of the publisher still needed before a promise settles. */
  ghost function Rank(p: Publisher, b: Batch): nat {
    if b in p.settled then 0
    else if p.publishing == Some(b) then 1
    else if p.publishing == None then 2
    else 3
  }

  ghost predicate Works(p: Publisher, e: Event) {
    !e.ScopeUpdated? && Enabled(p, e)
  }

  /**
   * No promise is forgotten: while one is unsettled the publisher can step, every such step brings
   * each unsettled promise one closer, and further calls never put it back; three steps settle it.
   */
  lemma EveryPromiseSettles(events: seq<Event>, b: Batch, e: Event)
    requires b < Run(events).next && b !in Run(events).settled
    ensures var p := Run(events);
            && Rank(p, b) <= 3 && (Works(p, TaskRuns) || Works(p, PublishEnds(true)))
            && (Works(p, e) ==> Rank(Next(p, e), b) == Rank(p, b) - 1)
            && (!Works(p, e) ==> Rank(Next(p, e), b) == Rank(p, b))
  {
    RunKeepsInv(events);
    var p := Run(events);
    assert Placed(p, b);
  }

  // ---------- what a promise tells ----------

  /** A call returns the promise of the batch already queued, or else of a new one, which then is queued. */
  lemma CallsCoalesce(events: seq<Event>)
    ensures var p, q := Run(events), Next(Run(events), ScopeUpdated);
            && q.queued.Some? && q.calls == p.calls + [(p.clock, q.queued.value)]
            && (p.queued.Some? ==> q.queued == p.queued && q.next == p.next)
            && (p.queued == None ==> q.queued == Some(p.next) && q.queued.value !in p.started && q.next == p.next + 1)
            && q.publishing == p.publishing && q.started == p.started && q.settled == p.settled
  {
    RunKeepsInv(events);
    assert Run(events).next !in Run(events).started;
  }

  /** A settled promise stays settled as it is. */
  lemma SettledStays(p: Publisher, e: Event, b: Batch)
    requires Inv(p) && b in p.settled
    ensures b in Next(p, e).settled && Next(p, e).settled[b] == p.settled[b]
  {
    assert b < p.next;
    assert Placed(p, b);
  }

  /** A promise is kept or broken for good as the publish for its batch succeeded or failed. */
  lemma {:induction false} SettledAsPublished(events: seq<Event>, i: nat, b: Batch)
    requires i < |events| && events[i].PublishEnds? && Run(events[..i]).publishing == Some(b)
    ensures b in Run(events).settled && Run(events).settled[b] == events[i].ok
    decreases |events|
  {
    var init, last := events[..|events| - 1], events[|events| - 1];
    if i < |init| {
      assert init[..i] == events[..i];
      SettledAsPublished(init, i, b);
      RunKeepsInv(init);
      SettledStays(Run(init), last, b);
    } else {
      assert events[..i] == init;
    }
  }
}
