/// Cursor and page-shrinking logic of the record-reading script generated in
/// cmd/agent/browser_record_read.go, over an abstract list of row IDs.
///
/// The page keeps one reading state.  Its observer watches the subtree of the root; a row change that
/// is recorded there marks the state dirty.  Rows are filtered by computed visibility, so a style
/// sheet in the head, a class on an ancestor or a media query can change them unobserved.

module RecordPages {
  import opened Wrappers

  const ROW_LIMIT: nat := 2000

  datatype Token = Token(revision: nat, offset: nat)

  datatype State = State(revision: nat, dirty: bool)

  /** The page: its row IDs (trimmed, possibly empty or repeated) and the reading state. */
  datatype Doc = Doc(rows: seq<string>, state: Option<State>, nextRevision: nat)

  /**
   * One call; `sameView` says that document, URL, root and selectors are those of the state.
   * `fits(n, more)` says that a result of `n` records, with or without a next token, is within the budget.
   */
  datatype Call = Call(token: Option<Token>, sameView: bool, pageSize: nat, fits: (nat, bool) -> bool)

  datatype Result = Failed | Page(ids: seq<string>, next: Option<Token>)

  function Bounded(rows: seq<string>): seq<string> {
    if |rows| > ROW_LIMIT then rows[..ROW_LIMIT] else rows
  }

  predicate Identified(ids: seq<string>) {
    (forall i | 0 <= i < |ids| :: ids[i] != "") && forall i, j | 0 <= i < j < |ids| :: ids[i] != ids[j]
  }

  /** The end of the page once it fits the budget; a page of one record that does not fit fails. */
  function Shrink(offset: nat, end: nat, fits: (nat, bool) -> bool): (r: Option<nat>)
    requires offset <= end
    ensures r.Some? ==> offset <= r.value <= end && fits(r.value - offset, false) && (offset < end ==> offset < r.value)
    decreases end
  {
    if fits(end - offset, false) then Some(end)
    else if end - offset <= 1 then None
    else Shrink(offset, end - 1, fits)
  }

  predicate TokenHolds(d: Doc, call: Call)
    requires call.token.Some?
  {
    d.state.Some? && call.sameView && !d.state.value.dirty && call.token.value.revision == d.state.value.revision
  }

  function Cut(d: Doc, revision: nat, offset: nat, call: Call): Result {
    var ids := Bounded(d.rows);
    if !Identified(ids) || offset > |ids| then Failed
    else
      var end := if offset + call.pageSize < |ids| then offset + call.pageSize else |ids|;
      match Shrink(offset, end, call.fits)
      case None => Failed
      case Some(to) =>
        if !call.fits(to - offset, to < |ids|) then Failed
        else Page(ids[offset..to], if to < |ids| then Some(Token(revision, to)) else None)
  }

  function ReadSpec(d: Doc, call: Call): (Doc, Result) {
    if call.token.Some? then
      (d, if TokenHolds(d, call) then Cut(d, d.state.value.revision, call.token.value.offset, call) else Failed)
    else
      (Doc(d.rows, Some(State(d.nextRevision, false)), d.nextRevision + 1), Cut(d, d.nextRevision, 0, call))
  }

  class RecordReader {
    var rows: seq<string>
    var state: Option<State>
    var nextRevision: nat

    ghost function Model(): Doc
      reads this
    {
      Doc(rows, state, nextRevision)
    }

    constructor (rows: seq<string>)
      ensures Model() == Doc(rows, None, 0)
    {
      this.rows, state, nextRevision := rows, None, 0;
    }

    /** A change of the rows that the mutation observer sees. */
    method Mutate(changed: seq<string>)
      modifies this
      ensures Model() == MutateSpec(old(Model()), changed)
    {
      rows := changed;
      if state.Some? {
        state := Some(state.value.(dirty := true));
      }
    }

    /** A change of the rows that leaves no record: nothing in the root's subtree was touched. */
    method Restyle(changed: seq<string>)
      modifies this`rows
      ensures Model() == old(Model()).(rows := changed)
    {
      rows := changed;
    }

    method RecordIds() returns (ids: Option<seq<string>>)
      ensures ids == if Identified(Bounded(rows)) then Some(Bounded(rows)) else None
    {
      var bounded := Bounded(rows);
      var seen: set<string>, recordIds: seq<string> := {}, [];
      var i := 0;
      while i < |bounded|
        invariant 0 <= i <= |bounded| && recordIds == bounded[..i] && Identified(recordIds)
        invariant forall id :: id in seen <==> id in recordIds
      {
        var id := bounded[i];
        if id == "" {
          return None;
        }
        if id in seen {
          ghost var k :| 0 <= k < |recordIds| && recordIds[k] == id;
          assert bounded[k] == bounded[i];
          return None;
        }
        seen, recordIds := seen + {id}, recordIds + [id];
        i := i + 1;
      }
      assert bounded[..i] == bounded;
      return Some(recordIds);
    }

    /** Drops records from the end until the result is within the budget. */
    method FitBudget(ids: seq<string>, offset: nat, last: nat, fits: (nat, bool) -> bool) returns (selected: Option<seq<string>>)
      requires offset <= last <= |ids|
      ensures match Shrink(offset, last, fits)
              case None => selected == None
              case Some(end) => selected == Some(ids[offset..end])
    {
      var end, kept := last, ids[offset..last];
      while !fits(|kept|, false)
        invariant offset <= end <= last && kept == ids[offset..end]
        invariant Shrink(offset, end, fits) == Shrink(offset, last, fits)
        decreases |kept|
      {
        if |kept| <= 1 {
          return None;
        }
        kept := kept[..|kept| - 1];
        end := end - 1;
      }
      return Some(kept);
    }

    method Read(call: Call) returns (result: Result)
      modifies this
      ensures (Model(), result) == ReadSpec(old(Model()), call)
    {
      hide Identified, Shrink;
      var offset := 0;
      if call.token.Some? {
        if state == None || !call.sameView || state.value.dirty || call.token.value.revision != state.value.revision {
          return Failed;
        }
        offset := call.token.value.offset;
      } else {
        state := Some(State(nextRevision, false));
        nextRevision := nextRevision + 1;
      }
      var found := RecordIds();
      if found == None || offset > |found.value| {
        return Failed;
      }
      var ids := found.value;
      var end := if offset + call.pageSize < |ids| then offset + call.pageSize else |ids|;
      var fitting := FitBudget(ids, offset, end, call.fits);
      if fitting == None {
        return Failed;
      }
      end := offset + |fitting.value|;
      var more := end < |ids|;
      if !call.fits(|fitting.value|, more) {
        return Failed;
      }
      return Page(fitting.value, if more then Some(Token(state.value.revision, end)) else None);
    }
  }

  function MutateSpec(d: Doc, changed: seq<string>): Doc {
    Doc(changed, if d.state.Some? then Some(d.state.value.(dirty := true)) else None, d.nextRevision)
  }

  // ---------- one reader following its tokens ----------

  /** One page of a chain: the rows when it was read, and which of them it returned. */
  datatype Piece = Piece(rows: seq<string>, from: nat, end: nat)

  /** The reader's progress; `base` are the rows when it made its first call. */
  datatype Client =
    | Fresh
    | Reading(base: seq<string>, got: seq<string>, token: Token, pieces: seq<Piece>)
    | Complete(base: seq<string>, got: seq<string>, pieces: seq<Piece>)
    | Broken

  datatype Event =
    | Mutated(rows: seq<string>)
    | Restyled(rows: seq<string>)
    | OtherRead(call: Call)
    | NextPage(sameView: bool, pageSize: nat, fits: (nat, bool) -> bool)

  datatype World = World(doc: Doc, client: Client)

  function Got(client: Client): seq<string> {
    match client
    case Reading(_, got, _, _) => got
    case Complete(_, got, _) => got
    case _ => []
  }

  function Pieces(client: Client): seq<Piece> {
    match client
    case Reading(_, _, _, pieces) => pieces
    case Complete(_, _, pieces) => pieces
    case _ => []
  }

  ghost function Follow(w: World, e: Event): World
    requires e.NextPage?
  {
    if w.client.Complete? || w.client.Broken? then w
    else
      var token := if w.client.Reading? then Some(w.client.token) else None;
      var offset := if w.client.Reading? then w.client.token.offset else 0;
      var (doc, result) := ReadSpec(w.doc, Call(token, e.sameView, e.pageSize, e.fits));
      var base := if w.client.Reading? then w.client.base else w.doc.rows;
      World(doc, match result
                 case Failed => Broken
                 case Page(ids, next) =>
                   var pieces := Pieces(w.client) + [Piece(w.doc.rows, offset, offset + |ids|)];
                   if next.None? then Complete(base, Got(w.client) + ids, pieces)
                   else Reading(base, Got(w.client) + ids, next.value, pieces))
  }

  ghost function Next(w: World, e: Event): World {
    match e
    case Mutated(rows) => w.(doc := MutateSpec(w.doc, rows))
    case Restyled(rows) => w.(doc := w.doc.(rows := rows))
    case OtherRead(call) => w.(doc := ReadSpec(w.doc, call).0)
    case NextPage(_, _, _) => Follow(w, e)
  }

  ghost function Run(rows: seq<string>, events: seq<Event>): World
    decreases |events|
  {
    if |events| == 0 then World(Doc(rows, None, 0), Fresh)
    else Next(Run(rows, events[..|events| - 1]), events[|events| - 1])
  }

  // ---------- what a chain returns ----------

  /** A page lies within the rows it was read from. */
  predicate Within(p: Piece) {
    p.from <= p.end <= |Bounded(p.rows)|
  }

  function Taken(p: Piece): seq<string>
    requires Within(p)
  {
    Bounded(p.rows)[p.from..p.end]
  }

  /** Successive pages continue each other, from the first row on. */
  ghost predicate Contiguous(pieces: seq<Piece>) {
    && (forall k | 0 <= k < |pieces| :: Within(pieces[k]))
    && (|pieces| > 0 ==> pieces[0].from == 0)
    && (forall k | 0 < k < |pieces| :: pieces[k].from == pieces[k - 1].end)
  }

  function Joined(pieces: seq<Piece>): seq<string>
    requires forall k | 0 <= k < |pieces| :: Within(pieces[k])
    decreases |pieces|
  {
    if |pieces| == 0 then [] else Joined(pieces[..|pieces| - 1]) + Taken(pieces[|pieces| - 1])
  }

  /** The page returned just the rows that stood there at the first call. */
  predicate Agrees(p: Piece, base: seq<string>)
    requires Within(p)
  {
    p.end <= |Bounded(base)| && Taken(p) == Bounded(base)[p.from..p.end]
  }

  ghost predicate AllAgree(pieces: seq<Piece>, base: seq<string>)
    requires forall k | 0 <= k < |pieces| :: Within(pieces[k])
  {
    forall k | 0 <= k < |pieces| :: Agrees(pieces[k], base)
  }

  lemma {:induction false} JoinedLength(pieces: seq<Piece>)
    requires Contiguous(pieces)
    ensures |Joined(pieces)| == if |pieces| == 0 then 0 else pieces[|pieces| - 1].end
    decreases |pieces|
  {
    if |pieces| > 0 {
      JoinedLength(pieces[..|pieces| - 1]);
    }
  }

  /** One more piece behind a prefix: the longer text is a prefix too exactly when the piece is what follows. */
  lemma PrefixSnoc(ids: seq<string>, text: seq<string>, more: seq<string>)
    ensures text + more <= ids <==> text <= ids && |text| + |more| <= |ids| && more == ids[|text|..|text| + |more|]
  {
    if text + more <= ids {
      assert (text + more)[|text|..] == more;
      assert ids[..|text| + |more|] == text + more;
    }
  }

  lemma AllAgreeSnoc(pieces: seq<Piece>, base: seq<string>)
    requires |pieces| > 0 && forall k | 0 <= k < |pieces| :: Within(pieces[k])
    ensures AllAgree(pieces, base) <==> AllAgree(pieces[..|pieces| - 1], base) && Agrees(pieces[|pieces| - 1], base)
  {
    hide Within, Agrees;
    var init := pieces[..|pieces| - 1];
    assert forall k | 0 <= k < |init| :: init[k] == pieces[k];
  }

  lemma ContiguousInit(pieces: seq<Piece>)
    requires Contiguous(pieces) && |pieces| > 0
    ensures Contiguous(pieces[..|pieces| - 1]) && Within(pieces[|pieces| - 1])
    ensures pieces[|pieces| - 1].from == if |pieces| == 1 then 0 else pieces[|pieces| - 2].end
  {
    hide Within;
  }

  /** What the pages join to is the beginning of the first rows exactly when each page agreed with them. */
  lemma {:induction false} JoinedIsPrefixIff(pieces: seq<Piece>, base: seq<string>)
    requires Contiguous(pieces)
    ensures Joined(pieces) <= Bounded(base) <==> AllAgree(pieces, base)
    decreases |pieces|
  {
    hide Bounded, AllAgree, Contiguous;
    if |pieces| > 0 {
      var init, last := pieces[..|pieces| - 1], pieces[|pieces| - 1];
      ContiguousInit(pieces);
      JoinedIsPrefixIff(init, base);
      JoinedLength(init);
      assert forall k | 0 <= k < |pieces| :: Within(pieces[k]) by { AllWithin(pieces); }
      AllAgreeSnoc(pieces, base);
      PrefixSnoc(Bounded(base), Joined(init), Taken(last));
    } else {
      assert AllAgree(pieces, base) by { NothingAgrees(pieces, base); }
    }
  }

  lemma AllWithin(pieces: seq<Piece>)
    requires Contiguous(pieces)
    ensures forall k | 0 <= k < |pieces| :: Within(pieces[k])
  {
  }

  lemma NothingAgrees(pieces: seq<Piece>, base: seq<string>)
    requires pieces == []
    ensures AllAgree(pieces, base)
  {
  }

  /** A page is a piece of the rows it was read from, with the next token where it ends. */
  lemma CutIsPiece(d: Doc, revision: nat, offset: nat, call: Call)
    requires Cut(d, revision, offset, call).Page?
    ensures var page := Cut(d, revision, offset, call);
            var p := Piece(d.rows, offset, offset + |page.ids|);
            && Within(p) && page.ids == Taken(p) && Identified(Bounded(d.rows))
            && (page.next.None? <==> p.end == |Bounded(d.rows)|)
            && (page.next.Some? ==> page.next.value == Token(revision, p.end))
  {
    hide Identified, Shrink;
  }

  ghost predicate Inv(w: World) {
    && (w.doc.state.Some? ==> w.doc.state.value.revision < w.doc.nextRevision)
    && match w.client
       case Fresh => true
       case Broken => true
       case Complete(base, got, pieces) =>
         && |pieces| > 0 && pieces[0].rows == base && Contiguous(pieces) && got == Joined(pieces) && Identified(Bounded(base))
         && pieces[|pieces| - 1].end == |Bounded(pieces[|pieces| - 1].rows)|
       case Reading(base, got, token, pieces) =>
         && |pieces| > 0 && pieces[0].rows == base && Contiguous(pieces) && got == Joined(pieces) && Identified(Bounded(base))
         && token.offset == pieces[|pieces| - 1].end < |Bounded(pieces[|pieces| - 1].rows)|
         && token.revision < w.doc.nextRevision
  }

  lemma ContiguousSnoc(pieces: seq<Piece>, p: Piece)
    requires Contiguous(pieces) && Within(p) && p.from == if |pieces| == 0 then 0 else pieces[|pieces| - 1].end
    ensures Contiguous(pieces + [p])
  {
    hide Within;
    var longer := pieces + [p];
    forall k | 0 < k < |longer|
      ensures longer[k].from == longer[k - 1].end
    {
      if k < |pieces| {
        assert longer[k] == pieces[k] && longer[k - 1] == pieces[k - 1];
      }
    }
  }

  lemma JoinedSnoc(pieces: seq<Piece>, p: Piece)
    requires Within(p) && forall k | 0 <= k < |pieces| :: Within(pieces[k])
    ensures Joined(pieces + [p]) == Joined(pieces) + Taken(p)
  {
    hide Within, Taken;
    assert (pieces + [p])[..|pieces|] == pieces;
  }

  lemma FollowKeepsInv(w: World, e: Event)
    requires Inv(w) && e.NextPage?
    ensures Inv(Follow(w, e))
  {
    hide Identified, Cut, Joined, Contiguous, Taken, Bounded;
    if w.client.Reading? || w.client.Fresh? {
      var token := if w.client.Reading? then Some(w.client.token) else None;
      var call := Call(token, e.sameView, e.pageSize, e.fits);
      var offset := if w.client.Reading? then w.client.token.offset else 0;
      var revision := if token.Some? && w.doc.state.Some? then w.doc.state.value.revision else w.doc.nextRevision;
      if ReadSpec(w.doc, call).1.Page? {
        CutIsPiece(w.doc, revision, offset, call);
        NothingRead();
        var p := Piece(w.doc.rows, offset, offset + |ReadSpec(w.doc, call).1.ids|);
        ContiguousSnoc(Pieces(w.client), p);
        AllWithin(Pieces(w.client));
        JoinedSnoc(Pieces(w.client), p);
      }
    }
  }

  lemma NothingRead()
    ensures Contiguous([]) && Joined([]) == []
  {
  }

  lemma NextKeepsInv(w: World, e: Event)
    requires Inv(w)
    ensures Inv(Next(w, e))
  {
    if e.NextPage? {
      FollowKeepsInv(w, e);
    }
    hide Follow, Cut, Identified, Contiguous, Joined;
  }

  lemma {:induction false} RunKeepsInv(rows: seq<string>, events: seq<Event>)
    ensures Inv(Run(rows, events))
    decreases |events|
  {
    if |events| > 0 {
      RunKeepsInv(rows, events[..|events| - 1]);
      NextKeepsInv(Run(rows, events[..|events| - 1]), events[|events| - 1]);
    }
  }

  /** The reader made its first call at event `i`, when the rows were `base`. */
  ghost predicate BeganAt(rows: seq<string>, events: seq<Event>, i: nat, base: seq<string>) {
    && i < |events| && events[i].NextPage?
    && Run(rows, events[..i]).client.Fresh? && Run(rows, events[..i]).doc.rows == base
  }

  lemma {:induction false} BaseIsFirstCall(rows: seq<string>, events: seq<Event>) returns (i: nat)
    requires Run(rows, events).client.Reading? || Run(rows, events).client.Complete?
    ensures BeganAt(rows, events, i, Run(rows, events).client.base)
    decreases |events|
  {
    hide Cut;
    var init := events[..|events| - 1];
    if Run(rows, init).client.Fresh? {
      i := |init|;
    } else {
      i := BaseIsFirstCall(rows, init);
      assert init[..i] == events[..i];
    }
  }

  /**
   * Any chain of successful reads that follows its tokens, with any page sizes and any shrinking, between
   * changes of the rows, observed or not, and reads by others: its pages continue each other, and what it
   * has is the beginning of the first 2000 rows as they were at its first call exactly when every page
   * returned the rows that stood there at that call; a chain that is complete has all of them exactly
   * when moreover the last page ended where they end.
   */
  lemma PagesPartition(rows: seq<string>, events: seq<Event>)
    ensures match Run(rows, events).client
            case Reading(base, got, token, pieces) =>
              && (exists i :: BeganAt(rows, events, i, base)) && Identified(Bounded(base))
              && Contiguous(pieces) && got == Joined(pieces) && |got| == token.offset
              && (got <= Bounded(base) <==> AllAgree(pieces, base))
            case Complete(base, got, pieces) =>
              && (exists i :: BeganAt(rows, events, i, base)) && Identified(Bounded(base))
              && Contiguous(pieces) && got == Joined(pieces) && |pieces| > 0
              && (got == Bounded(base) <==> AllAgree(pieces, base) && pieces[|pieces| - 1].end == |Bounded(base)|)
            case _ => true
  {
    RunKeepsInv(rows, events);
    var client := Run(rows, events).client;
    if client.Reading? || client.Complete? {
      var i := BaseIsFirstCall(rows, events);
      hide Bounded, Identified, Run;
      JoinedLength(client.pieces);
      JoinedIsPrefixIff(client.pieces, client.base);
    }
  }

  // ---------- no unobserved change during the chain ----------

  /** No unobserved change fell between the first page of the chain and its last. */
  ghost predicate Undisturbed(rows: seq<string>, events: seq<Event>) {
    forall k | 0 <= k < |events| :: events[k].Restyled? ==> !Run(rows, events[..k]).client.Reading?
  }

  /** Every page was read from the rows of the first call, and while the token holds they still stand. */
  ghost predicate Steady(w: World) {
    match w.client
    case Reading(base, _, token, pieces) =>
      && (forall k | 0 <= k < |pieces| :: pieces[k].rows == base)
      && (w.doc.state.Some? && w.doc.state.value.revision == token.revision && !w.doc.state.value.dirty ==> w.doc.rows == base)
    case Complete(base, _, pieces) => forall k | 0 <= k < |pieces| :: pieces[k].rows == base
    case _ => true
  }

  lemma NextKeepsSteady(w: World, e: Event)
    requires Inv(w) && Steady(w) && (e.Restyled? ==> !w.client.Reading?)
    ensures Steady(Next(w, e))
  {
    hide Identified, Contiguous, Joined, Shrink;
  }

  lemma {:induction false} RunIsSteady(rows: seq<string>, events: seq<Event>)
    requires Undisturbed(rows, events)
    ensures Steady(Run(rows, events))
    decreases |events|
  {
    if |events| > 0 {
      var init, last := events[..|events| - 1], events[|events| - 1];
      forall k | 0 <= k < |init| && init[k].Restyled?
        ensures !Run(rows, init[..k]).client.Reading?
      {
        assert events[k] == init[k] && events[..k] == init[..k];
      }
      RunIsSteady(rows, init);
      RunKeepsInv(rows, init);
      assert events[|init|] == last && events[..|init|] == init;
      NextKeepsSteady(Run(rows, init), last);
    }
  }

  /** A chain during which every change of the rows is observed is exact, each row once and in order. */
  lemma ObservedChainIsExact(rows: seq<string>, events: seq<Event>)
    requires Undisturbed(rows, events)
    ensures match Run(rows, events).client
            case Reading(base, got, token, _) => token.offset < |Bounded(base)| && got == Bounded(base)[..token.offset]
            case Complete(base, got, _) => got == Bounded(base) && Identified(got)
            case _ => true
  {
    RunKeepsInv(rows, events);
    RunIsSteady(rows, events);
    PagesPartition(rows, events);
    var client := Run(rows, events).client;
    if client.Reading? || client.Complete? {
      assert AllAgree(client.pieces, client.base);
    }
  }

  /**
   * What one unobserved change in the middle of an exact chain does: if the next page is the last, the chain
   * is exact exactly when the change left the rows still to be read as they were.
   */
  lemma RestyleHarmsIff(rows: seq<string>, events: seq<Event>, changed: seq<string>, e: Event)
    requires Undisturbed(rows, events) && Run(rows, events).client.Reading? && e.NextPage?
    requires Run(rows, events + [Restyled(changed), e]).client.Complete?
    ensures var before, after := Run(rows, events).client, Run(rows, events + [Restyled(changed), e]).client;
            && before.token.offset <= |Bounded(changed)| && before.token.offset < |Bounded(before.base)|
            && (after.got == Bounded(before.base)
                <==> Bounded(changed)[before.token.offset..] == Bounded(before.base)[before.token.offset..])
  {
    hide Run, Follow, Steady, Inv;
    ObservedChainIsExact(rows, events);
    RunKeepsInv(rows, events);
    TwoMore(rows, events, Restyled(changed), e);
    LastPageAfter(Run(rows, events), changed, e);
  }

  lemma TwoMore(rows: seq<string>, events: seq<Event>, first: Event, second: Event)
    ensures Run(rows, events + [first, second]) == Next(Next(Run(rows, events), first), second)
  {
    var two := events + [first, second];
    assert two[..|two| - 1] == events + [first];
    assert (events + [first])[..|events|] == events;
  }

  /** The last page of an exact chain, read from changed rows. */
  lemma LastPageAfter(w: World, changed: seq<string>, e: Event)
    requires w.client.Reading? && e.NextPage? && Follow(w.(doc := w.doc.(rows := changed)), e).client.Complete?
    requires w.client.token.offset < |Bounded(w.client.base)| && w.client.got == Bounded(w.client.base)[..w.client.token.offset]
    ensures var at, after := w.client.token.offset, Follow(w.(doc := w.doc.(rows := changed)), e).client;
            && at <= |Bounded(changed)|
            && (after.got == Bounded(w.client.base) <==> Bounded(changed)[at..] == Bounded(w.client.base)[at..])
  {
    hide Identified, Bounded, Cut;
    var d, at, ids := w.doc.(rows := changed), w.client.token.offset, Bounded(w.client.base);
    var call := Call(Some(w.client.token), e.sameView, e.pageSize, e.fits);
    CutIsPiece(d, d.state.value.revision, at, call);
    var page := ReadSpec(d, call).1;
    assert page.ids == Bounded(changed)[at..];
    assert ids == ids[..at] + ids[at..];
    assert (ids[..at] + page.ids)[at..] == page.ids;
  }

  const ABC: seq<string> := ["a", "b", "c"]
  const BC: seq<string> := ["b", "c"]

  /** A page of one row from each of the two row lists. */
  lemma PagesOfOne(call: Call, doc: Doc)
    requires call.pageSize == 1 && forall n, more :: call.fits(n, more)
    ensures Cut(Doc(ABC, doc.state, doc.nextRevision), 0, 0, call) == Page(["a"], Some(Token(0, 1)))
    ensures Cut(Doc(BC, doc.state, doc.nextRevision), 0, 1, call) == Page(["c"], None)
  {
    assert Bounded(ABC) == ABC && ABC[0..1] == ["a"] && Identified(ABC);
    assert Bounded(BC) == BC && BC[1..2] == ["c"] && Identified(BC);
  }

  /** Three rows in pages of one; after the first page a style sheet hides its row: the second row is never returned, and the chain is complete. */
  lemma RestyleSkipsARow() returns (events: seq<Event>)
    ensures var client := Run(ABC, events).client;
            client.Complete? && client.base == ABC && client.got == ["a", "c"]
  {
    hide Cut, Identified;
    var any := (n: nat, more: bool) => true;
    var page := NextPage(true, 1, any);
    events := [page] + [Restyled(BC), page];
    assert [page][..0] == [];
    PagesOfOne(Call(None, true, 1, any), Doc(ABC, None, 0));
    assert Got(Fresh) + ["a"] == ["a"];
    var w := Run(ABC, [page]);
    assert Run(ABC, []) == World(Doc(ABC, None, 0), Fresh);
    assert w == Follow(Run(ABC, []), page);
    assert w.client.Reading? && w.client.base == ABC && w.client.got == ["a"] && w.client.token == Token(0, 1);
    assert w.doc == Doc(ABC, Some(State(0, false)), 1);
    TwoMore(ABC, [page], Restyled(BC), page);
    hide Run;
    PagesOfOne(Call(Some(Token(0, 1)), true, 1, any), w.doc);
    assert ["a"] + ["c"] == ["a", "c"];
  }

  /** Every page that is followed by another holds a record, so a chain of `n` such pages has at least `n` records. */
  lemma ChainAdvances(rows: seq<string>, events: seq<Event>, e: Event)
    requires e.NextPage? && e.pageSize >= 1 && (Run(rows, events).client.Reading? || Run(rows, events).client.Fresh?)
    ensures var w := Run(rows, events);
            var w' := Follow(w, e);
            && (w'.client.Reading? ==> |Got(w.client)| < |Got(w'.client)| < ROW_LIMIT)
            && (w'.client.Complete? ==> |Got(w.client)| <= |Got(w'.client)| <= ROW_LIMIT)
            && (w'.client.Complete? && w.client.Reading? && Undisturbed(rows, events) ==> |Got(w.client)| < |Got(w'.client)|)
  {
    RunKeepsInv(rows, events);
    var w := Run(rows, events);
    if w.client.Reading? && Undisturbed(rows, events) {
      RunIsSteady(rows, events);
      LastPageHolds(w, e);
    }
    hide Run, Steady, Undisturbed;
    var w' := Follow(w, e);
    FollowKeepsInv(w, e);
    if w'.client.Reading? || w'.client.Complete? {
      PiecesGrow(w, e);
      JoinedLength(w'.client.pieces);
      JoinedLength(Pieces(w.client));
    }
  }

  lemma LastPageHolds(w: World, e: Event)
    requires Inv(w) && Steady(w) && e.NextPage? && e.pageSize >= 1 && w.client.Reading?
    ensures Follow(w, e).client.Complete? ==> |Got(w.client)| < |Got(Follow(w, e).client)|
  {
    hide Identified, Contiguous, Joined;
  }

  /** The next page, if any, is at the end of the chain, and holds a record if another one follows. */
  lemma PiecesGrow(w: World, e: Event)
    requires Inv(w) && e.NextPage? && e.pageSize >= 1 && (w.client.Reading? || w.client.Fresh?)
    requires Follow(w, e).client.Reading? || Follow(w, e).client.Complete?
    ensures var old', new' := Pieces(w.client), Pieces(Follow(w, e).client);
            && |new'| == |old'| + 1 && Contiguous(old')
            && new'[|old'|].from == (if |old'| == 0 then 0 else old'[|old'| - 1].end)
            && (Follow(w, e).client.Reading? ==> new'[|old'|].from < new'[|old'|].end)
  {
    hide Identified, Joined;
  }

  lemma {:induction false} ShrinkSucceeds(offset: nat, end: nat, fits: (nat, bool) -> bool)
    requires offset <= end && fits(0, false) && fits(1, false)
    ensures Shrink(offset, end, fits).Some?
    decreases end
  {
    if end - offset > 1 && !fits(end - offset, false) {
      ShrinkSucceeds(offset, end - 1, fits);
    }
  }

  /**
   * A reader that meets no mutation and no other reader, and whose budget fits one record and the
   * next token beside whatever fits without it, never breaks.
   */
  lemma UndisturbedReadSucceeds(rows: seq<string>, events: seq<Event>, e: Event)
    requires Identified(Bounded(rows)) && e.NextPage? && e.sameView && Undisturbed(rows, events)
    requires e.fits(0, false) && e.fits(1, false) && forall n: nat :: e.fits(n, false) ==> e.fits(n, true)
    requires var w := Run(rows, events);
             match w.client
             case Fresh => w.doc.rows == rows
             case Reading(base, _, token, _) => base == rows && w.doc.state == Some(State(token.revision, false))
             case _ => false
    ensures var w' := Follow(Run(rows, events), e);
            && !w'.client.Broken?
            && (w'.client.Reading? ==> w'.client.base == rows && w'.doc.state == Some(State(w'.client.token.revision, false)))
  {
    hide Identified, Shrink, Run;
    RunKeepsInv(rows, events);
    RunIsSteady(rows, events);
    ObservedChainIsExact(rows, events);
    var w, ids := Run(rows, events), Bounded(rows);
    var offset := if w.client.Reading? then w.client.token.offset else 0;
    ShrinkSucceeds(offset, if offset + e.pageSize < |ids| then offset + e.pageSize else |ids|, e.fits);
  }

  // ---------- what one call returns ----------

  /** The call may go on from its token: same document, URL, root and selectors, nothing recorded since, and the token of the latest first call. */
  ghost predicate Continues(d: Doc, call: Call) {
    call.token.Some? ==> d.state.Some? && call.sameView && !d.state.value.dirty && d.state.value.revision == call.token.value.revision
  }

  /** The first 2000 rows have IDs, all different. */
  ghost predicate Readable(rows: seq<string>) {
    && (forall i | 0 <= i < |rows| && i < 2000 :: rows[i] != "")
    && (forall i, j | 0 <= i < j < |rows| && j < 2000 :: rows[i] != rows[j])
  }

  function Least(a: nat, b: nat): nat {
    if a < b then a else b
  }

  /** A page of `n` records from `offset` on is what the caller gets: it and its next token are within the budget. */
  ghost predicate Sends(rows: seq<string>, offset: nat, n: nat, call: Call) {
    call.fits(n, false) && call.fits(n, offset + n < Least(|rows|, 2000))
  }

  /** As many records as asked for and there are, or fewer when more would not fit, but one where there is one. */
  ghost predicate Longest(rows: seq<string>, offset: nat, n: nat, call: Call)
    requires offset <= Least(|rows|, 2000)
  {
    var asked := Least(call.pageSize, Least(|rows|, 2000) - offset);
    && n <= asked && call.fits(n, false) && (forall m: nat | n < m <= asked :: !call.fits(m, false))
    && (asked > 0 ==> n > 0)
  }

  /** The page of `n` records from `offset` on, with a token for the rest exactly if there is a rest. */
  ghost predicate IsPage(rows: seq<string>, revision: nat, offset: nat, n: nat, result: Result)
    requires offset <= Least(|rows|, 2000)
  {
    var size := Least(|rows|, 2000);
    && offset + n <= size && result.Page? && result.ids == rows[offset..offset + n]
    && result.next == if offset + n < size then Some(Token(revision, offset + n)) else None
  }

  /**
   * One call in full.  It fails exactly when its token does not hold, the rows cannot be told apart, its offset lies behind
   * them, or nothing fits; else it returns the longest page that fits.  A call without a token begins a new
   * revision, even when it fails; one with a token changes nothing.
   */
  lemma ReadAnswers(d: Doc, call: Call)
    ensures var (d', result) := ReadSpec(d, call);
            var offset := if call.token.Some? then call.token.value.offset else 0;
            var revision := if call.token.Some? then call.token.value.revision else d.nextRevision;
            && d' == (if call.token.Some? then d else Doc(d.rows, Some(State(d.nextRevision, false)), d.nextRevision + 1))
            && (result.Page? <==> Continues(d, call) && Readable(d.rows) && offset <= Least(|d.rows|, 2000)
                                  && exists n: nat :: Longest(d.rows, offset, n, call) && Sends(d.rows, offset, n, call))
            && (result.Page? ==> Longest(d.rows, offset, |result.ids|, call) && IsPage(d.rows, revision, offset, |result.ids|, result))
  {
    hide Cut, Longest, Sends, IsPage, Readable;
    CutAnswers(d, if call.token.Some? then call.token.value.revision else d.nextRevision,
               if call.token.Some? then call.token.value.offset else 0, call);
  }

  lemma CutAnswers(d: Doc, revision: nat, offset: nat, call: Call)
    ensures var result := Cut(d, revision, offset, call);
            && (result.Page? <==> Readable(d.rows) && offset <= Least(|d.rows|, 2000)
                                  && exists n: nat :: Longest(d.rows, offset, n, call) && Sends(d.rows, offset, n, call))
            && (result.Page? ==> Longest(d.rows, offset, |result.ids|, call) && IsPage(d.rows, revision, offset, |result.ids|, result))
  {
    var ids := Bounded(d.rows);
    IdentifiedIffReadable(d.rows);
    if Readable(d.rows) && offset <= |ids| {
      hide Identified, Readable, Shrink;
      var end := if offset + call.pageSize < |ids| then offset + call.pageSize else |ids|;
      ShrinkIsLongest(offset, end, call.fits);
      match Shrink(offset, end, call.fits)
      case Some(last) =>
        assert Longest(d.rows, offset, last - offset, call);
        OneLongest(d.rows, offset, call);
        hide Longest;
        FittingPage(d, revision, offset, last, call);
        hide Cut, Sends, IsPage;
      case None =>
        NothingFits(d.rows, offset, end, call);
    } else {
      hide Identified, Readable, Shrink;
    }
  }

  lemma FittingPage(d: Doc, revision: nat, offset: nat, last: nat, call: Call)
    requires offset <= |Bounded(d.rows)| && Identified(Bounded(d.rows)) && last <= |Bounded(d.rows)| && offset <= last
    requires var ids := Bounded(d.rows);
             Shrink(offset, if offset + call.pageSize < |ids| then offset + call.pageSize else |ids|, call.fits) == Some(last)
    ensures var result := Cut(d, revision, offset, call);
            && (result.Page? <==> Sends(d.rows, offset, last - offset, call))
            && (result.Page? ==> |result.ids| == last - offset && IsPage(d.rows, revision, offset, last - offset, result))
  {
    hide Identified, Shrink;
    assert Bounded(d.rows)[offset..last] == d.rows[offset..last];
  }

  lemma IdentifiedIffReadable(rows: seq<string>)
    ensures Identified(Bounded(rows)) <==> Readable(rows)
  {
  }

  lemma NothingFits(rows: seq<string>, offset: nat, end: nat, call: Call)
    requires offset <= Least(|rows|, 2000) && end == offset + Least(call.pageSize, Least(|rows|, 2000) - offset)
    requires forall m | 0 < m <= end - offset :: !call.fits(m, false)
    requires end == offset ==> !call.fits(0, false)
    ensures forall n: nat :: !Longest(rows, offset, n, call)
  {
  }

  lemma {:induction false} ShrinkIsLongest(offset: nat, end: nat, fits: (nat, bool) -> bool)
    requires offset <= end
    ensures match Shrink(offset, end, fits)
            case Some(last) => forall m | last - offset < m <= end - offset :: !fits(m, false)
            case None => forall m | 0 < m <= end - offset :: !fits(m, false)
    ensures end == offset ==> (Shrink(offset, end, fits).Some? <==> fits(0, false))
    decreases end
  {
    if !fits(end - offset, false) && end - offset > 1 {
      ShrinkIsLongest(offset, end - 1, fits);
    }
  }

  /** Two longest pages are the same. */
  lemma OneLongest(rows: seq<string>, offset: nat, call: Call)
    requires offset <= Least(|rows|, 2000)
    ensures forall n: nat, m: nat :: Longest(rows, offset, n, call) && Longest(rows, offset, m, call) ==> n == m
  {
  }
}
