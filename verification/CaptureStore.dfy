/// The crash-consistent capture store of tools/browser_capture_store.py: image,
/// then caption, then sidecar as commit marker, each published create-only, then
/// three derived snapshots.  Calls run one at a time under the store lock.
///
/// Bytes stand for their SHA-256, and a sidecar for its JSON.  A crash may fall
/// between any two file operations and keeps the files.

module CaptureStore {
  import opened Wrappers
  import P = Permalink

  type Byte = int

  /** A metadata record; `rest` holds the fields no rule looks at. */
  datatype Record = Record(recordId: string, attachmentId: string, text: string, permalink: string, rest: seq<string>)

  /** The commit marker: the record, which image it names, and when it was taken. */
  datatype Marker = Marker(record: Record, suffix: string, data: seq<Byte>, time: string)

  datatype Path = ImagePath(attachmentId: string, suffix: string) | TextPath(stem: string) | JsonPath(stem: string)

  datatype Content = Image(data: seq<Byte>) | Caption(text: string) | Sidecar(marker: Marker)

  type Files = map<Path, Content>

  /** The permalink sanitiser and the size limits on serialised records and markers. */
  datatype Rules = Rules(clean: string -> string, recordFits: Record -> bool, markerFits: Marker -> bool)

  datatype Entry = Entry(record: Record, suffix: string, data: seq<Byte>)

  /** What the rebuild derives: the valid records by sidecar name, and the invalid sidecars. */
  datatype Snapshot = Snapshot(entries: map<string, Entry>, invalid: set<string>)

  datatype Store = Store(files: Files, manifest: Option<Snapshot>, audit: Option<Snapshot>, checkpoint: Option<Snapshot>)

  /** One `add`; `source` is missing when it is unreadable or too large. */
  datatype Request = Request(raw: Record, source: Option<seq<Byte>>, suffix: string, time: string)

  datatype Outcome = Added | Duplicate | Refused | Crashed

  // ---------- records ----------

  predicate IdChar(c: char) {
    'A' <= c <= 'Z' || 'a' <= c <= 'z' || '0' <= c <= '9' || c == '_' || c == '-'
  }

  predicate IdOk(id: string) {
    1 <= |id| <= 128 && forall i | 0 <= i < |id| :: IdChar(id[i])
  }

  predicate SuffixOk(suffix: string) {
    suffix == "" ||
    (2 <= |suffix| <= 11 && suffix[0] == '.' &&
     forall i | 1 <= i < |suffix| :: IdChar(suffix[i]) && suffix[i] != '_' && suffix[i] != '-')
  }

  function Stem(record: Record): string {
    record.recordId + "_" + record.attachmentId
  }

  /** `_validate_record`: checks the IDs, cleans the permalink, checks the size. */
  function Checked(rules: Rules, raw: Record): Option<Record> {
    var record := raw.(permalink := rules.clean(raw.permalink));
    if IdOk(raw.recordId) && IdOk(raw.attachmentId) && rules.recordFits(record) then Some(record) else None
  }

  // ---------- committed captures ----------

  datatype Verdict = Valid(entry: Entry) | Invalid | Raised

  /** `_validate_committed`; the record check of an over-long record raises instead of giving a reason. */
  function Validate(rules: Rules, files: Files, stem: string): Verdict {
    if JsonPath(stem) !in files || !files[JsonPath(stem)].Sidecar? || !rules.markerFits(files[JsonPath(stem)].marker) then Invalid
    else
      var m := files[JsonPath(stem)].marker;
      match Checked(rules, m.record)
      case None => Raised
      case Some(record) =>
        if Stem(record) != stem || !SuffixOk(m.suffix) then Invalid
        else if !Stored(files, ImagePath(record.attachmentId, m.suffix), Image(m.data)) then Invalid
        else if !Stored(files, TextPath(stem), Caption(record.text)) then Invalid
        else Valid(Entry(record, m.suffix, m.data))
  }

  predicate Stored(files: Files, path: Path, content: Content) {
    path in files && files[path] == content
  }

  function Stems(files: Files): set<string> {
    set path | path in files && path.JsonPath? :: path.stem
  }

  /** What `_rebuild_store_locked` derives from the sidecars, unless one of them raises. */
  function Derive(rules: Rules, files: Files): Option<Snapshot> {
    if exists stem | stem in Stems(files) :: Validate(rules, files, stem) == Raised then None
    else Some(Snapshot(map stem | stem in Stems(files) && Validate(rules, files, stem).Valid? :: Validate(rules, files, stem).entry,
                       set stem | stem in Stems(files) && Validate(rules, files, stem) == Invalid))
  }

  /** Replaces manifest, audit and checkpoint in this order, as far as `steps` go. */
  function Rebuild(rules: Rules, store: Store, done: Outcome, steps: nat): (Store, Outcome) {
    match Derive(rules, store.files)
    case None => (store, Refused)
    case Some(snapshot) =>
      (Store(store.files, if steps >= 1 then Some(snapshot) else store.manifest,
             if steps >= 2 then Some(snapshot) else store.audit, if steps >= 3 then Some(snapshot) else store.checkpoint),
       if steps >= 3 then done else Crashed)
  }

  // ---------- add ----------

  /** `_atomic_publish`: creates, or accepts identical bytes, or fails. */
  function Publish(files: Files, path: Path, content: Content): Option<Files> {
    if path !in files then Some(files[path := content])
    else if files[path] == content then Some(files)
    else None
  }

  function MarkerOf(record: Record, req: Request): Marker
    requires req.source.Some?
  {
    Marker(record, req.suffix, req.source.value, req.time)
  }

  /** The three publications of a new capture, cut off after `steps` file operations. */
  function Commit(rules: Rules, store: Store, record: Record, req: Request, steps: nat): (Store, Outcome)
    requires req.source.Some?
  {
    if steps == 0 then (store, Crashed) else
    match Publish(store.files, ImagePath(record.attachmentId, req.suffix), Image(req.source.value))
    case None => (store, Refused)
    case Some(f1) =>
      if steps == 1 then (store.(files := f1), Crashed) else
      match Publish(f1, TextPath(Stem(record)), Caption(record.text))
      case None => (store.(files := f1), Refused)
      case Some(f2) =>
        if steps == 2 then (store.(files := f2), Crashed)
        else if !rules.markerFits(MarkerOf(record, req)) then (store.(files := f2), Refused)
        else
          match Publish(f2, JsonPath(Stem(record)), Sidecar(MarkerOf(record, req)))
          case None => (store.(files := f2), Refused)
          case Some(f3) => Rebuild(rules, store.(files := f3), Added, steps - 3)
  }

  /** `add_capture`, cut off after `steps` file operations; six or more finish it. */
  function Add(rules: Rules, store: Store, req: Request, steps: nat): (Store, Outcome) {
    match Checked(rules, req.raw)
    case None => (store, Refused)
    case Some(record) =>
      if req.source == None || !SuffixOk(req.suffix) then (store, Refused)
      else if JsonPath(Stem(record)) in store.files then
        match Validate(rules, store.files, Stem(record))
        case Valid(entry) =>
          if entry.record != record || entry.data != req.source.value then (store, Refused)
          else Rebuild(rules, store, Duplicate, steps)
        case _ => (store, Refused)
      else Commit(rules, store, record, req, steps)
  }

  const FINISH: nat := 6

  // ---------- the store object ----------

  class CaptureDirectory {
    const rules: Rules
    var files: Files
    var manifest: Option<Snapshot>
    var audit: Option<Snapshot>
    var checkpoint: Option<Snapshot>

    ghost function Model(): Store
      reads this
    {
      Store(files, manifest, audit, checkpoint)
    }

    constructor (rules: Rules)
      ensures Model() == Store(map[], None, None, None) && this.rules == rules
    {
      this.rules := rules;
      files, manifest, audit, checkpoint := map[], None, None, None;
    }

    method AtomicPublish(path: Path, content: Content) returns (ok: bool)
      modifies this`files
      ensures ok == Publish(old(files), path, content).Some?
      ensures files == if ok then Publish(old(files), path, content).value else old(files)
    {
      if path in files {
        return files[path] == content;
      }
      files := files[path := content];
      return true;
    }

    /** The walk over the sidecars; it ends without a result when one of them raises. */
    method ReadSidecars() returns (snapshot: Option<Snapshot>)
      ensures snapshot == Derive(rules, files)
    {
      hide Validate;
      var entries: map<string, Entry>, invalid: set<string> := map[], {};
      var rest := Stems(files);
      while rest != {}
        invariant rest <= Stems(files)
        invariant forall stem | stem in Stems(files) - rest :: Validate(rules, files, stem) != Raised
        invariant forall stem :: stem in entries <==> stem in Stems(files) - rest && Validate(rules, files, stem).Valid?
        invariant forall stem | stem in entries :: entries[stem] == Validate(rules, files, stem).entry
        invariant forall stem :: stem in invalid <==> stem in Stems(files) - rest && Validate(rules, files, stem) == Invalid
        decreases |rest|
      {
        var stem :| stem in rest;
        var verdict := Validate(rules, files, stem);
        if verdict == Raised {
          return None;
        }
        if verdict.Valid? {
          entries := entries[stem := verdict.entry];
        } else {
          invalid := invalid + {stem};
        }
        rest := rest - {stem};
      }
      assert Stems(files) - rest == Stems(files);
      assert entries == map stem | stem in Stems(files) && Validate(rules, files, stem).Valid? :: Validate(rules, files, stem).entry;
      assert invalid == set stem | stem in Stems(files) && Validate(rules, files, stem) == Invalid;
      return Some(Snapshot(entries, invalid));
    }

    /** The snapshot files are replaced only when no sidecar raises. */
    method RebuildLocked(steps: nat) returns (ok: bool)
      modifies this`manifest, this`audit, this`checkpoint
      ensures (Model(), if !ok then Refused else if steps >= 3 then Added else Crashed) == Rebuild(rules, old(Model()), Added, steps)
    {
      hide Derive;
      var snapshot := ReadSidecars();
      if snapshot == None {
        return false;
      }
      if steps >= 1 {
        manifest := snapshot;
      }
      if steps >= 2 {
        audit := snapshot;
      }
      if steps >= 3 {
        checkpoint := snapshot;
      }
      return true;
    }

    method AddCapture(req: Request, steps: nat) returns (outcome: Outcome)
      modifies this
      ensures (Model(), outcome) == Add(rules, old(Model()), req, steps)
    {
      var checked := Checked(rules, req.raw);
      if checked == None || req.source == None || !SuffixOk(req.suffix) {
        return Refused;
      }
      var record, data := checked.value, req.source.value;
      if JsonPath(Stem(record)) in files {
        var verdict := Validate(rules, files, Stem(record));
        if !verdict.Valid? || verdict.entry.record != record || verdict.entry.data != data {
          return Refused;
        }
        var ok := RebuildLocked(steps);
        return if !ok then Refused else if steps >= 3 then Duplicate else Crashed;
      }
      outcome := CommitCapture(record, req, steps);
    }

    method CommitCapture(record: Record, req: Request, steps: nat) returns (outcome: Outcome)
      requires req.source.Some?
      modifies this
      ensures (Model(), outcome) == Commit(rules, old(Model()), record, req, steps)
    {
      if steps == 0 {
        return Crashed;
      }
      var ok := AtomicPublish(ImagePath(record.attachmentId, req.suffix), Image(req.source.value));
      if !ok {
        return Refused;
      }
      if steps == 1 {
        return Crashed;
      }
      ok := AtomicPublish(TextPath(Stem(record)), Caption(record.text));
      if !ok {
        return Refused;
      }
      if steps == 2 {
        return Crashed;
      }
      var marker := MarkerOf(record, req);
      if !rules.markerFits(marker) {
        return Refused;
      }
      ok := AtomicPublish(JsonPath(Stem(record)), Sidecar(marker));
      if !ok {
        return Refused;
      }
      ok := RebuildLocked(steps - 3);
      return if !ok then Refused else if steps - 3 >= 3 then Added else Crashed;
    }
  }

  // ---------- what every add keeps ----------

  /** A commit marker with everything it promises: matching names, image bytes and caption. */
  ghost predicate Committed(rules: Rules, files: Files, stem: string)
    requires JsonPath(stem) in files
  {
    && files[JsonPath(stem)].Sidecar?
    && var m := files[JsonPath(stem)].marker;
    && Stem(m.record) == stem && IdOk(m.record.recordId) && IdOk(m.record.attachmentId) && SuffixOk(m.suffix)
    && rules.markerFits(m) && rules.recordFits(m.record)
    && Stored(files, ImagePath(m.record.attachmentId, m.suffix), Image(m.data))
    && Stored(files, TextPath(stem), Caption(m.record.text))
  }

  ghost predicate Inv(rules: Rules, files: Files) {
    forall stem :: JsonPath(stem) in files ==> Committed(rules, files, stem)
  }

  ghost predicate Grows(f: Files, g: Files) {
    forall path :: path in f ==> path in g && g[path] == f[path]
  }

  lemma GrowthKeepsCommitted(rules: Rules, f: Files, g: Files, stem: string)
    requires Grows(f, g) && JsonPath(stem) in f && Committed(rules, f, stem)
    ensures JsonPath(stem) in g && Committed(rules, g, stem)
  {
  }

  /** Publishing an image or a caption keeps every marker valid. */
  lemma PublishKeepsInv(rules: Rules, f: Files, path: Path, content: Content)
    requires Inv(rules, f) && !path.JsonPath? && Publish(f, path, content).Some?
    ensures var g := Publish(f, path, content).value; Grows(f, g) && Inv(rules, g) && Stored(g, path, content)
  {
    var g := Publish(f, path, content).value;
    forall stem | JsonPath(stem) in g
      ensures Committed(rules, g, stem)
    {
      GrowthKeepsCommitted(rules, f, g, stem);
    }
  }

  /** Publishing the marker last keeps it too, since what it names is there. */
  lemma MarkerKeepsInv(rules: Rules, f: Files, m: Marker)
    requires Inv(rules, f) && rules.markerFits(m) && rules.recordFits(m.record)
    requires IdOk(m.record.recordId) && IdOk(m.record.attachmentId) && SuffixOk(m.suffix)
    requires Stored(f, ImagePath(m.record.attachmentId, m.suffix), Image(m.data))
    requires Stored(f, TextPath(Stem(m.record)), Caption(m.record.text))
    requires JsonPath(Stem(m.record)) !in f
    ensures var g := f[JsonPath(Stem(m.record)) := Sidecar(m)]; Grows(f, g) && Inv(rules, g)
  {
    var g := f[JsonPath(Stem(m.record)) := Sidecar(m)];
    forall stem | JsonPath(stem) in g
      ensures Committed(rules, g, stem)
    {
      if stem != Stem(m.record) {
        GrowthKeepsCommitted(rules, f, g, stem);
      }
    }
  }

  /** An add crashed at any step keeps every sidecar valid and overwrites nothing. */
  lemma AddKeepsInv(rules: Rules, store: Store, req: Request, steps: nat)
    requires Inv(rules, store.files)
    ensures var after := Add(rules, store, req, steps).0.files; Inv(rules, after) && Grows(store.files, after)
  {
    hide Inv, Committed, Derive, IdOk, SuffixOk, Validate;
    if Checked(rules, req.raw).Some? && req.source.Some? && SuffixOk(req.suffix) {
      var record := Checked(rules, req.raw).value;
      if JsonPath(Stem(record)) !in store.files {
        CommitKeepsInv(rules, store, record, req, steps);
      }
    }
  }

  lemma CommitKeepsInv(rules: Rules, store: Store, record: Record, req: Request, steps: nat)
    requires Inv(rules, store.files) && req.source.Some? && SuffixOk(req.suffix)
    requires IdOk(record.recordId) && IdOk(record.attachmentId) && rules.recordFits(record)
    requires JsonPath(Stem(record)) !in store.files
    ensures var after := Commit(rules, store, record, req, steps).0.files; Inv(rules, after) && Grows(store.files, after)
  {
    hide Inv, Committed, Derive, IdOk, SuffixOk;
    var image := ImagePath(record.attachmentId, req.suffix);
    if Publish(store.files, image, Image(req.source.value)).Some? {
      PublishKeepsInv(rules, store.files, image, Image(req.source.value));
      var f1 := Publish(store.files, image, Image(req.source.value)).value;
      if Publish(f1, TextPath(Stem(record)), Caption(record.text)).Some? {
        PublishKeepsInv(rules, f1, TextPath(Stem(record)), Caption(record.text));
        var f2 := Publish(f1, TextPath(Stem(record)), Caption(record.text)).value;
        if rules.markerFits(MarkerOf(record, req)) {
          MarkerKeepsInv(rules, f2, MarkerOf(record, req));
        }
      }
    }
  }

  // ---------- runs ----------

  datatype Event = AddEvent(req: Request, steps: nat) | RebuildEvent(steps: nat)

  function Next(rules: Rules, store: Store, e: Event): Store {
    match e
    case AddEvent(req, steps) => Add(rules, store, req, steps).0
    case RebuildEvent(steps) => Rebuild(rules, store, Added, steps).0
  }

  function RunFrom(rules: Rules, store: Store, events: seq<Event>): Store
    decreases |events|
  {
    if |events| == 0 then store
    else Next(rules, RunFrom(rules, store, events[..|events| - 1]), events[|events| - 1])
  }

  function Run(rules: Rules, events: seq<Event>): Store {
    RunFrom(rules, Store(map[], None, None, None), events)
  }

  /** After any adds and rebuilds, each crashed at any step, every sidecar has its image and caption. */
  lemma {:induction false} RunKeepsInv(rules: Rules, events: seq<Event>)
    ensures Inv(rules, Run(rules, events).files)
    decreases |events|
  {
    if |events| > 0 {
      var before, e := Run(rules, events[..|events| - 1]), events[|events| - 1];
      RunKeepsInv(rules, events[..|events| - 1]);
      if e.AddEvent? {
        AddKeepsInv(rules, before, e.req, e.steps);
      }
    }
  }

  /** Nothing published is ever overwritten or removed. */
  lemma {:induction false} NothingIsOverwritten(rules: Rules, events: seq<Event>, i: nat)
    requires i <= |events|
    ensures Grows(Run(rules, events[..i]).files, Run(rules, events).files)
    decreases |events|
  {
    if i == |events| {
      assert events[..i] == events;
    } else {
      var init, e := events[..|events| - 1], events[|events| - 1];
      assert init[..i] == events[..i];
      NothingIsOverwritten(rules, init, i);
      RunKeepsInv(rules, init);
      if e.AddEvent? {
        AddKeepsInv(rules, Run(rules, init), e.req, e.steps);
      }
    }
  }

  // ---------- validation of what was committed ----------

  /** The sanitiser leaves a permalink it made alone. */
  ghost predicate Stable(rules: Rules, record: Record) {
    rules.clean(record.permalink) == record.permalink
  }

  /** Reading a committed sidecar back gives its own record exactly when the sanitiser is stable on it. */
  lemma ReadsBackIffStable(rules: Rules, files: Files, stem: string)
    requires JsonPath(stem) in files && Committed(rules, files, stem)
    ensures var m := files[JsonPath(stem)].marker;
            && (Validate(rules, files, stem) == Valid(Entry(m.record, m.suffix, m.data)) <==> Stable(rules, m.record))
            && Validate(rules, files, stem) != Invalid
  {
    var m := files[JsonPath(stem)].marker;
    assert m.record.(permalink := m.record.permalink) == m.record;
  }

  /** After a finished add the three snapshots agree and list every sidecar as valid. */
  lemma FinishedAddIsListed(rules: Rules, store: Store, req: Request)
    requires Inv(rules, store.files)
    ensures var (after, outcome) := Add(rules, store, req, FINISH);
            outcome == Added || outcome == Duplicate ==>
              && after.manifest.Some? && after.manifest == after.audit == after.checkpoint
              && after.manifest.value.entries.Keys == Stems(after.files) && after.manifest.value.invalid == {}
  {
    var (after, outcome) := Add(rules, store, req, FINISH);
    AddKeepsInv(rules, store, req, FINISH);
    if outcome == Added || outcome == Duplicate {
      FinishedRebuilds(rules, store, req);
      SnapshotListsAll(rules, after.files);
    }
  }

  lemma FinishedRebuilds(rules: Rules, store: Store, req: Request)
    ensures var (after, outcome) := Add(rules, store, req, FINISH);
            outcome == Added || outcome == Duplicate ==>
              Derive(rules, after.files).Some? && after.manifest == after.audit == after.checkpoint == Derive(rules, after.files)
  {
    hide Derive, Validate, IdOk, SuffixOk;
  }

  lemma SnapshotListsAll(rules: Rules, files: Files)
    requires Inv(rules, files) && Derive(rules, files).Some?
    ensures Derive(rules, files).value.entries.Keys == Stems(files) && Derive(rules, files).value.invalid == {}
  {
    forall stem | stem in Stems(files)
      ensures Validate(rules, files, stem).Valid?
    {
      assert JsonPath(stem) in files;
      ReadsBackIffStable(rules, files, stem);
    }
  }

  // ---------- repeating a crashed add ----------

  ghost predicate SameContent(c: Content, d: Content) {
    c == d || (c.Sidecar? && d.Sidecar? && c.marker.(time := "") == d.marker.(time := ""))
  }

  /** The same files, up to the time noted in sidecars. */
  ghost predicate SameUpToTime(f: Files, g: Files) {
    f.Keys == g.Keys && forall path :: path in f ==> SameContent(f[path], g[path])
  }

  /** The two results are the same but for the noted time, and for an add that already was complete. */
  ghost predicate SameResult(a: (Store, Outcome), b: (Store, Outcome)) {
    && SameUpToTime(a.0.files, b.0.files)
    && a.0.manifest == b.0.manifest && a.0.audit == b.0.audit && a.0.checkpoint == b.0.checkpoint
    && (a.1 == Refused <==> b.1 == Refused)
  }

  /** The size check on the marker does not depend on when it is written. */
  ghost predicate TimeIrrelevant(rules: Rules, record: Record, req: Request, time: string) {
    req.source.Some? ==> rules.markerFits(MarkerOf(record, req)) == rules.markerFits(MarkerOf(record, req.(time := time)))
  }

  /** Sidecars that differ only in their time validate alike. */
  lemma SameFilesValidateAlike(rules: Rules, f: Files, g: Files, stem: string)
    requires SameUpToTime(f, g) && Inv(rules, f) && Inv(rules, g) && JsonPath(stem) in f
    ensures Validate(rules, f, stem) == Validate(rules, g, stem)
  {
    var m, n := f[JsonPath(stem)].marker, g[JsonPath(stem)].marker;
    assert SameContent(f[JsonPath(stem)], g[JsonPath(stem)]);
    assert m.(time := "") == n.(time := "");
    assert m.record == n.record && m.suffix == n.suffix && m.data == n.data;
    assert Committed(rules, f, stem) && Committed(rules, g, stem);
  }

  lemma SameFilesDeriveAlike(rules: Rules, f: Files, g: Files)
    requires SameUpToTime(f, g) && Inv(rules, f) && Inv(rules, g)
    ensures Derive(rules, f) == Derive(rules, g)
  {
    hide Validate, Inv, SameUpToTime, Committed;
    StemsAlike(f, g);
    forall stem | stem in Stems(f)
      ensures Validate(rules, f, stem) == Validate(rules, g, stem)
    {
      SameFilesValidateAlike(rules, f, g, stem);
    }
    if Derive(rules, f).Some? && Derive(rules, g).Some? {
      assert Derive(rules, f).value.entries == Derive(rules, g).value.entries;
      assert Derive(rules, f).value.invalid == Derive(rules, g).value.invalid;
    }
  }

  lemma StemsAlike(f: Files, g: Files)
    requires SameUpToTime(f, g)
    ensures Stems(f) == Stems(g)
  {
    forall stem
      ensures stem in Stems(f) <==> stem in Stems(g)
    {
      assert stem in Stems(f) <==> JsonPath(stem) in f;
      assert stem in Stems(g) <==> JsonPath(stem) in g;
    }
  }

  /** Before the marker is there, starting over from what a crash left is like starting over from before. */
  lemma CommitAgain(rules: Rules, store: Store, record: Record, req: Request, steps: nat, time: string)
    requires req.source.Some? && JsonPath(Stem(record)) !in store.files
    requires JsonPath(Stem(record)) !in Commit(rules, store, record, req, steps).0.files
    ensures var again := req.(time := time);
            Commit(rules, Commit(rules, store, record, req, steps).0, record, again, FINISH) == Commit(rules, store, record, again, FINISH)
  {
    hide Derive;
  }

  /** Publishing the same capture at another time ends alike. */
  lemma CommitAtOtherTime(rules: Rules, store: Store, record: Record, req: Request, time: string)
    requires Inv(rules, store.files) && req.source.Some? && SuffixOk(req.suffix)
    requires IdOk(record.recordId) && IdOk(record.attachmentId) && rules.recordFits(record)
    requires JsonPath(Stem(record)) !in store.files && TimeIrrelevant(rules, record, req, time)
    ensures SameResult(Commit(rules, store, record, req, FINISH), Commit(rules, store, record, req.(time := time), FINISH))
  {
    hide Derive, IdOk, SuffixOk, Inv;
    var a, b := Commit(rules, store, record, req, FINISH), Commit(rules, store, record, req.(time := time), FINISH);
    CommitKeepsInv(rules, store, record, req, FINISH);
    CommitKeepsInv(rules, store, record, req.(time := time), FINISH);
    CommitFilesAlike(rules, store, record, req, time);
    hide SameUpToTime;
    SameFilesDeriveAlike(rules, a.0.files, b.0.files);
  }

  lemma CommitFilesAlike(rules: Rules, store: Store, record: Record, req: Request, time: string)
    requires req.source.Some? && JsonPath(Stem(record)) !in store.files && TimeIrrelevant(rules, record, req, time)
    ensures SameUpToTime(Commit(rules, store, record, req, FINISH).0.files,
                         Commit(rules, store, record, req.(time := time), FINISH).0.files)
  {
    hide Derive;
  }

  /** With the marker written, a repeated add finds its own capture when the sanitiser is stable. */
  lemma RetryAfterMarker(rules: Rules, store: Store, record: Record, req: Request, steps: nat, time: string)
    requires Inv(rules, store.files) && Checked(rules, req.raw) == Some(record) && req.source.Some? && SuffixOk(req.suffix)
    requires JsonPath(Stem(record)) !in store.files
    requires JsonPath(Stem(record)) in Commit(rules, store, record, req, steps).0.files
    ensures var u, c := Commit(rules, store, record, req, FINISH), Commit(rules, store, record, req, steps).0;
            && u.0.files == c.files
            && (Stable(rules, record) ==> SameResult(u, Add(rules, c, req.(time := time), FINISH)))
            && (!Stable(rules, record) ==> Add(rules, c, req.(time := time), FINISH) == (c, Refused))
  {
    hide Derive, IdOk, SuffixOk, Inv, Validate;
    var c := Commit(rules, store, record, req, steps).0;
    CommitKeepsInv(rules, store, record, req, steps);
    MarkerIsOurs(rules, store, record, req, steps);
    ReadBack(rules, c.files, Stem(record));
  }

  lemma MarkerIsOurs(rules: Rules, store: Store, record: Record, req: Request, steps: nat)
    requires req.source.Some? && JsonPath(Stem(record)) !in store.files
    requires JsonPath(Stem(record)) in Commit(rules, store, record, req, steps).0.files
    ensures Commit(rules, store, record, req, steps).0.files[JsonPath(Stem(record))] == Sidecar(MarkerOf(record, req))
  {
    hide Derive;
  }

  lemma ReadBack(rules: Rules, files: Files, stem: string)
    requires Inv(rules, files) && JsonPath(stem) in files
    ensures files[JsonPath(stem)].Sidecar?
    ensures var m := files[JsonPath(stem)].marker;
            if Stable(rules, m.record) then Validate(rules, files, stem) == Valid(Entry(m.record, m.suffix, m.data))
            else !Validate(rules, files, stem).Valid? || Validate(rules, files, stem).entry.record != m.record
  {
    ReadsBackIffStable(rules, files, stem);
  }

  /**
   * Crash convergence: an add cut off at any step and then repeated ends as the uninterrupted add would
   * have, with the same files, manifest, audit and checkpoint up to the noted time, exactly when the
   * crash came before the marker, or the sanitiser is stable on the permalink, or the add was none to succeed.
   */
  lemma CrashConverges(rules: Rules, store: Store, req: Request, steps: nat, time: string)
    requires Inv(rules, store.files)
    requires Checked(rules, req.raw).Some? ==> TimeIrrelevant(rules, Checked(rules, req.raw).value, req, time)
    ensures var u := Add(rules, store, req, FINISH);
            SameResult(u, Add(rules, Add(rules, store, req, steps).0, req.(time := time), FINISH))
            <==> u.1 != Added || steps < 3 || (Checked(rules, req.raw).Some? && Stable(rules, Checked(rules, req.raw).value))
  {
    hide Derive, IdOk, SuffixOk, Inv, Validate, Commit;
    if Checked(rules, req.raw).Some? && req.source.Some? && SuffixOk(req.suffix) {
      var record := Checked(rules, req.raw).value;
      CheckedIds(rules, req.raw);
      if JsonPath(Stem(record)) !in store.files {
        MarkerComesThird(rules, store, record, req, steps);
        if JsonPath(Stem(record)) in Commit(rules, store, record, req, steps).0.files {
          RetryAfterMarker(rules, store, record, req, steps, time);
        } else {
          CommitAgain(rules, store, record, req, steps, time);
          CommitAtOtherTime(rules, store, record, req, time);
        }
      }
    }
  }

  /** The marker is published by the third file operation, and a refusal behind it leaves the snapshots. */
  lemma MarkerComesThird(rules: Rules, store: Store, record: Record, req: Request, steps: nat)
    requires req.source.Some? && JsonPath(Stem(record)) !in store.files
    ensures var u, c := Commit(rules, store, record, req, FINISH), Commit(rules, store, record, req, steps).0;
            && (u.1 == Added || u.1 == Refused)
            && (u.1 == Added ==> (JsonPath(Stem(record)) in c.files <==> steps >= 3))
            && (JsonPath(Stem(record)) in c.files && u.1 == Refused ==> u.0 == c)
  {
  }

  lemma CheckedIds(rules: Rules, raw: Record)
    requires Checked(rules, raw).Some?
    ensures var r := Checked(rules, raw).value; IdOk(r.recordId) && IdOk(r.attachmentId) && rules.recordFits(r)
  {
  }

  // ---------- other work between the attempts ----------

  /** Another attempt at the same add. */
  predicate SameAdd(req: Request, other: Request) {
    other.(time := req.time) == req
  }

  /** An add with another stem that does not put another image where this one puts its own. */
  predicate Apart(req: Request, other: Request) {
    && Stem(other.raw) != Stem(req.raw)
    && (other.raw.attachmentId == req.raw.attachmentId && other.suffix == req.suffix ==> other.source == req.source)
  }

  predicate Harmless(req: Request, e: Event) {
    e.AddEvent? ==> SameAdd(req, e.req) || Apart(req, e.req)
  }

  /** The events without the attempts at this add. */
  function Others(req: Request, events: seq<Event>): seq<Event>
    decreases |events|
  {
    if |events| == 0 then []
    else
      var last := events[|events| - 1];
      Others(req, events[..|events| - 1]) + (if last.AddEvent? && SameAdd(req, last.req) then [] else [last])
  }

  /** A file of the add is there with what the add puts into it. */
  ghost predicate Placed(files: Files, record: Record, req: Request, path: Path)
    requires req.source.Some?
  {
    && path in files
    && (|| (path == ImagePath(record.attachmentId, req.suffix) && files[path] == Image(req.source.value))
        || (path == TextPath(Stem(record)) && files[path] == Caption(record.text))
        || (path == JsonPath(Stem(record)) && SameContent(files[path], Sidecar(MarkerOf(record, req)))))
  }

  /** `g` is `f` with some of the files of the add, in the order it publishes them, unless `f` has its marker. */
  ghost predicate Ahead(f: Files, g: Files, record: Record, req: Request)
    requires req.source.Some?
  {
    var image, text, json := ImagePath(record.attachmentId, req.suffix), TextPath(Stem(record)), JsonPath(Stem(record));
    && Grows(f, g) && (json in f ==> f == g)
    && (forall path | path in g && path !in f :: Placed(g, record, req, path))
    && (text in g && text !in f ==> Placed(g, record, req, image))
    && (json in g && json !in f ==> Placed(g, record, req, image) && Placed(g, record, req, text))
  }

  /** Publishing one more file of the add stays ahead, in order. */
  lemma OwnFileStaysAhead(f: Files, g: Files, record: Record, req: Request, path: Path, content: Content)
    requires req.source.Some? && Ahead(f, g, record, req) && JsonPath(Stem(record)) !in f
    requires path !in g && Placed(g[path := content], record, req, path)
    requires path.TextPath? ==> Placed(g, record, req, ImagePath(record.attachmentId, req.suffix))
    requires path.JsonPath? ==> Placed(g, record, req, ImagePath(record.attachmentId, req.suffix)) && Placed(g, record, req, TextPath(path.stem))
    ensures Ahead(f, g[path := content], record, req)
  {
  }

  /** A file of another add is published, or refused, in both. */
  lemma OtherFileStaysAhead(f: Files, g: Files, record: Record, req: Request, path: Path, content: Content)
    requires req.source.Some? && Ahead(f, g, record, req)
    requires path != TextPath(Stem(record)) && path != JsonPath(Stem(record))
    requires path == ImagePath(record.attachmentId, req.suffix) ==> content == Image(req.source.value)
    ensures Publish(f, path, content).Some? == Publish(g, path, content).Some?
    ensures Publish(f, path, content).Some? ==> Ahead(Publish(f, path, content).value, Publish(g, path, content).value, record, req)
  {
    if path in f {
      assert g[path] == f[path];
    } else if path in g {
      assert Placed(g, record, req, path);
      assert Ahead(f[path := content], g, record, req);
    }
  }

  /** An attempt at the add gets further ahead, or not. */
  lemma AttemptStaysAhead(rules: Rules, f: Files, store: Store, record: Record, req: Request, again: Request, steps: nat)
    requires req.source.Some? && SameAdd(req, again) && Checked(rules, req.raw) == Some(record)
    requires Ahead(f, store.files, record, req)
    ensures Ahead(f, Add(rules, store, again, steps).0.files, record, req)
  {
    hide Derive, Validate, IdOk, SuffixOk, Checked, Ahead;
    if SuffixOk(req.suffix) && JsonPath(Stem(record)) !in store.files {
      CommitStaysAhead(rules, f, store, record, req, again, steps);
    }
  }

  lemma CommitStaysAhead(rules: Rules, f: Files, store: Store, record: Record, req: Request, again: Request, steps: nat)
    requires req.source.Some? && SameAdd(req, again) && JsonPath(Stem(record)) !in store.files
    requires Ahead(f, store.files, record, req)
    ensures Ahead(f, Commit(rules, store, record, again, steps).0.files, record, req)
  {
    hide Derive;
    var image, text, json := ImagePath(record.attachmentId, req.suffix), TextPath(Stem(record)), JsonPath(Stem(record));
    var f0 := store.files;
    assert json !in f;
    hide Ahead;
    if Publish(f0, image, Image(req.source.value)).Some? {
      if image !in f0 { OwnFileStaysAhead(f, f0, record, req, image, Image(req.source.value)); }
      var f1 := Publish(f0, image, Image(req.source.value)).value;
      if Publish(f1, text, Caption(record.text)).Some? {
        if text !in f1 { OwnFileStaysAhead(f, f1, record, req, text, Caption(record.text)); }
        var f2 := Publish(f1, text, Caption(record.text)).value;
        OwnFileStaysAhead(f, f2, record, req, json, Sidecar(MarkerOf(record, again)));
      }
    }
  }

  /** Another add does the same to both. */
  lemma OtherStaysAhead(rules: Rules, a: Store, b: Store, record: Record, req: Request, other: Request, steps: nat)
    requires req.source.Some? && Apart(req, other) && Checked(rules, req.raw) == Some(record)
    requires Ahead(a.files, b.files, record, req)
    ensures Ahead(Add(rules, a, other, steps).0.files, Add(rules, b, other, steps).0.files, record, req)
  {
    hide Derive, Validate, IdOk, SuffixOk;
    if Checked(rules, other.raw).Some? && other.source.Some? && SuffixOk(other.suffix) {
      var others := Checked(rules, other.raw).value;
      assert JsonPath(Stem(others)) in a.files <==> JsonPath(Stem(others)) in b.files;
      if JsonPath(Stem(others)) !in a.files {
        OtherCommitStaysAhead(rules, a, b, record, req, others, other, steps);
      }
    }
    hide Ahead;
  }

  lemma OtherCommitStaysAhead(rules: Rules, a: Store, b: Store, record: Record, req: Request, others: Record, other: Request, steps: nat)
    requires req.source.Some? && other.source.Some? && Stem(others) != Stem(record)
    requires others.attachmentId == record.attachmentId && other.suffix == req.suffix ==> other.source == req.source
    requires Ahead(a.files, b.files, record, req)
    ensures Ahead(Commit(rules, a, others, other, steps).0.files, Commit(rules, b, others, other, steps).0.files, record, req)
  {
    hide Derive, Ahead;
    var image, text, json := ImagePath(others.attachmentId, other.suffix), TextPath(Stem(others)), JsonPath(Stem(others));
    OtherFileStaysAhead(a.files, b.files, record, req, image, Image(other.source.value));
    if Publish(a.files, image, Image(other.source.value)).Some? {
      var f1, g1 := Publish(a.files, image, Image(other.source.value)).value, Publish(b.files, image, Image(other.source.value)).value;
      OtherFileStaysAhead(f1, g1, record, req, text, Caption(others.text));
      if Publish(f1, text, Caption(others.text)).Some? {
        var f2, g2 := Publish(f1, text, Caption(others.text)).value, Publish(g1, text, Caption(others.text)).value;
        OtherFileStaysAhead(f2, g2, record, req, json, Sidecar(MarkerOf(others, other)));
      }
    }
    hide Publish;
  }

  /** What an add leaves of the files depends on the files alone. */
  lemma OnlyFilesMatter(rules: Rules, a: Store, b: Store, req: Request, steps: nat)
    requires a.files == b.files
    ensures Add(rules, a, req, steps).0.files == Add(rules, b, req, steps).0.files
  {
    hide Derive, Validate, IdOk, SuffixOk;
  }

  /** The add is one the code goes on with; otherwise no attempt changes anything. */
  predicate Sound(rules: Rules, req: Request) {
    Checked(rules, req.raw).Some? && req.source.Some? && SuffixOk(req.suffix)
  }

  lemma {:induction false} RunStaysAhead(rules: Rules, store: Store, req: Request, events: seq<Event>)
    requires Inv(rules, store.files) && forall e | e in events :: Harmless(req, e)
    ensures var f, g := RunFrom(rules, store, Others(req, events)).files, RunFrom(rules, store, events).files;
            && Inv(rules, f) && Inv(rules, g)
            && if Sound(rules, req) then Ahead(f, g, Checked(rules, req.raw).value, req) else f == g
    decreases |events|
  {
    hide Inv, Add, Rebuild, Ahead, Harmless, Sound, Placed;
    if |events| == 0 {
      AheadOfItself(store.files, rules, req);
    } else {
      var init, last := events[..|events| - 1], events[|events| - 1];
      RunStaysAhead(rules, store, req, init);
      StepStaysAhead(rules, RunFrom(rules, store, Others(req, init)), RunFrom(rules, store, init), req, last);
      assert Others(req, events) == Others(req, init) || Others(req, events)[..|Others(req, init)|] == Others(req, init);
    }
  }

  lemma AheadOfItself(f: Files, rules: Rules, req: Request)
    ensures Sound(rules, req) ==> Ahead(f, f, Checked(rules, req.raw).value, req)
  {
  }

  lemma StepStaysAhead(rules: Rules, a: Store, b: Store, req: Request, e: Event)
    requires Inv(rules, a.files) && Inv(rules, b.files) && Harmless(req, e)
    requires if Sound(rules, req) then Ahead(a.files, b.files, Checked(rules, req.raw).value, req) else a.files == b.files
    ensures var f := (if e.AddEvent? && SameAdd(req, e.req) then a else Next(rules, a, e)).files;
            var g := Next(rules, b, e).files;
            && Inv(rules, f) && Inv(rules, g)
            && if Sound(rules, req) then Ahead(f, g, Checked(rules, req.raw).value, req) else f == g
  {
    hide Inv, Ahead, Derive, Checked, SuffixOk;
    if e.AddEvent? {
      AddKeepsInv(rules, a, e.req, e.steps);
      AddKeepsInv(rules, b, e.req, e.steps);
      if !Sound(rules, req) {
        if SameAdd(req, e.req) {
          UnsoundIsRefused(rules, b, e.req, e.steps);
        } else {
          OnlyFilesMatter(rules, a, b, e.req, e.steps);
        }
      } else {
        var record := Checked(rules, req.raw).value;
        if SameAdd(req, e.req) {
          AttemptStaysAhead(rules, a.files, b, record, req, e.req, e.steps);
        } else {
          OtherStaysAhead(rules, a, b, record, req, e.req, e.steps);
        }
      }
    }
  }

  /** The add gets to the rebuild. */
  predicate Publishes(rules: Rules, files: Files, record: Record, req: Request)
    requires req.source.Some?
  {
    if JsonPath(Stem(record)) in files then
      var v := Validate(rules, files, Stem(record));
      v.Valid? && v.entry.record == record && v.entry.data == req.source.value
    else
      var f1 := Publish(files, ImagePath(record.attachmentId, req.suffix), Image(req.source.value));
      && f1.Some? && Publish(f1.value, TextPath(Stem(record)), Caption(record.text)).Some?
      && rules.markerFits(MarkerOf(record, req))
  }

  lemma EndOfAdd(rules: Rules, store: Store, record: Record, req: Request)
    requires Sound(rules, req) && Checked(rules, req.raw) == Some(record)
    ensures var (after, outcome) := Add(rules, store, req, FINISH);
            && (outcome == Refused <==> !Publishes(rules, store.files, record, req) || Derive(rules, after.files) == None)
            && (outcome == Added ==> JsonPath(Stem(record)) !in store.files)
            && (outcome == Duplicate ==> JsonPath(Stem(record)) in store.files)
            && outcome != Crashed
            && (outcome != Refused ==> after.manifest == after.audit == after.checkpoint == Derive(rules, after.files))
  {
    hide Derive, Validate, IdOk, SuffixOk;
  }

  /** The files of an add that gets as far as it can. */
  lemma FilesOfAdd(rules: Rules, store: Store, record: Record, req: Request)
    requires Sound(rules, req) && Checked(rules, req.raw) == Some(record)
    ensures Add(rules, store, req, FINISH).0.files
            == if JsonPath(Stem(record)) in store.files then store.files else Filled(rules, store.files, record, req)
  {
    hide Derive, Validate, IdOk, SuffixOk;
  }

  function Filled(rules: Rules, files: Files, record: Record, req: Request): Files
    requires req.source.Some?
  {
    var f1 := Publish(files, ImagePath(record.attachmentId, req.suffix), Image(req.source.value));
    if f1 == None then files else
    var f2 := Publish(f1.value, TextPath(Stem(record)), Caption(record.text));
    if f2 == None then f1.value
    else if !rules.markerFits(MarkerOf(record, req)) then f2.value
    else f2.value[JsonPath(Stem(record)) := Sidecar(MarkerOf(record, req))]
  }

  /** From files that are further ahead the add publishes the same. */
  lemma AheadEndsAlike(rules: Rules, a: Store, b: Store, record: Record, req: Request, again: Request)
    requires Sound(rules, req) && Checked(rules, req.raw) == Some(record) && SameAdd(req, again)
    requires Inv(rules, a.files) && Inv(rules, b.files) && Ahead(a.files, b.files, record, req)
    requires forall t, u :: TimeIrrelevant(rules, record, req.(time := t), u)
    ensures SameUpToTime(Add(rules, a, req, FINISH).0.files, Add(rules, b, again, FINISH).0.files)
    ensures JsonPath(Stem(record)) !in a.files && JsonPath(Stem(record)) in b.files ==>
              Publishes(rules, a.files, record, req) && (Publishes(rules, b.files, record, again) <==> Stable(rules, record))
    ensures JsonPath(Stem(record)) in a.files || JsonPath(Stem(record)) !in b.files ==>
              (Publishes(rules, a.files, record, req) <==> Publishes(rules, b.files, record, again))
  {
    FilesOfAdd(rules, a, record, req);
    FilesOfAdd(rules, b, record, again);
    assert TimeIrrelevant(rules, record, req.(time := req.time), again.time);
    assert req.(time := req.time) == req && req.(time := again.time) == again;
    var json := JsonPath(Stem(record));
    hide Add, Inv, SuffixOk, Checked, Sound, Validate, Publish, Filled;
    if json !in a.files && json in b.files {
      MarkerIsAhead(rules, a, b, record, req);
    } else if json !in b.files {
      hide Ahead;
      StillToCome(rules, a.files, b.files, record, req, again);
    }
  }

  /** The marker is there already, with all it names: nothing is left to publish, and it is accepted exactly when it reads back. */
  lemma MarkerIsAhead(rules: Rules, a: Store, b: Store, record: Record, req: Request)
    requires Sound(rules, req) && Checked(rules, req.raw) == Some(record)
    requires Inv(rules, b.files) && Ahead(a.files, b.files, record, req)
    requires JsonPath(Stem(record)) !in a.files && JsonPath(Stem(record)) in b.files
    requires forall t, u :: TimeIrrelevant(rules, record, req.(time := t), u)
    ensures Publishes(rules, a.files, record, req) && (Publishes(rules, b.files, record, req) <==> Stable(rules, record))
    ensures SameUpToTime(Filled(rules, a.files, record, req), b.files)
  {
    hide IdOk, SuffixOk, Checked;
    var json := JsonPath(Stem(record));
    var m := b.files[json].marker;
    assert Placed(b.files, record, req, json);
    assert m == MarkerOf(record, req.(time := m.time));
    assert TimeIrrelevant(rules, record, req.(time := m.time), req.time);
    assert req.(time := m.time).(time := req.time) == req;
    assert rules.markerFits(MarkerOf(record, req)) by { assert Committed(rules, b.files, Stem(record)); }
    ReadBack(rules, b.files, Stem(record));
  }

  /** The marker is still to come in both. */
  lemma StillToCome(rules: Rules, f: Files, g: Files, record: Record, req: Request, again: Request)
    requires req.source.Some? && SameAdd(req, again) && Ahead(f, g, record, req) && JsonPath(Stem(record)) !in g
    requires rules.markerFits(MarkerOf(record, req)) == rules.markerFits(MarkerOf(record, again))
    ensures Publishes(rules, f, record, req) <==> Publishes(rules, g, record, again)
    ensures SameUpToTime(Filled(rules, f, record, req), Filled(rules, g, record, again))
  {
    hide Validate, Filled, SameUpToTime, SameContent;
    FilledAlike(rules, f, g, record, req, again);
  }

  /** Only the time of the marker differs. */
  lemma FilledAlike(rules: Rules, f: Files, g: Files, record: Record, req: Request, again: Request)
    requires req.source.Some? && SameAdd(req, again) && Ahead(f, g, record, req) && JsonPath(Stem(record)) !in g
    requires rules.markerFits(MarkerOf(record, req)) == rules.markerFits(MarkerOf(record, again))
    ensures SameUpToTime(Filled(rules, f, record, req), Filled(rules, g, record, again))
  {
    FilledIn(rules, f, g, record, req);
    hide Ahead, Publish;
  }

  ghost predicate Extends(f: Files, g: Files, paths: set<Path>) {
    Grows(f, g) && forall path :: path in g && path !in f ==> path in paths
  }

  lemma FillOne(f: Files, g: Files, path: Path, content: Content, rest: set<Path>)
    requires Extends(f, g, {path} + rest) && (path in g && path !in f ==> g[path] == content)
    ensures Publish(f, path, content).Some? == Publish(g, path, content).Some?
    ensures Publish(f, path, content).Some? ==> Extends(Publish(f, path, content).value, Publish(g, path, content).value, rest)
  {
  }

  /** What was ahead is filled in. */
  lemma FilledIn(rules: Rules, f: Files, g: Files, record: Record, req: Request)
    requires req.source.Some? && Ahead(f, g, record, req) && JsonPath(Stem(record)) !in g
    ensures Filled(rules, f, record, req) == Filled(rules, g, record, req)
  {
    var image, text := ImagePath(record.attachmentId, req.suffix), TextPath(Stem(record));
    assert Extends(f, g, {image} + {text});
    assert text in g && text !in f ==> Placed(g, record, req, image);
    assert (image in g && image !in f ==> Placed(g, record, req, image)) && (text in g && text !in f ==> Placed(g, record, req, text));
    FillOne(f, g, image, Image(req.source.value), {text});
    hide Ahead, SameContent;
    if Publish(f, image, Image(req.source.value)).Some? {
      var f1, g1 := Publish(f, image, Image(req.source.value)).value, Publish(g, image, Image(req.source.value)).value;
      FillOne(f1, g1, text, Caption(record.text), {});
    }
    assert forall f, g | Extends(f, g, {}) :: f == g;
  }

  /** The same files and success, and after a success the same snapshots. */
  ghost predicate SameEnd(a: (Store, Outcome), b: (Store, Outcome)) {
    && SameUpToTime(a.0.files, b.0.files) && (a.1 == Refused <==> b.1 == Refused)
    && (a.1 != Refused ==> a.0.manifest == b.0.manifest && a.0.audit == b.0.audit && a.0.checkpoint == b.0.checkpoint)
  }

  /**
   * However often the add is cut off, with any rebuilds and any adds of other captures before, between
   * and after the attempts, the attempt that is not cut off ends as the add would have if none of the
   * earlier attempts had been made, exactly when none of those left a marker, or the sanitiser is stable
   * on the permalink, or the add was none to succeed.
   */
  lemma CrashesConverge(rules: Rules, store: Store, req: Request, events: seq<Event>, time: string)
    requires Inv(rules, store.files) && forall e | e in events :: Harmless(req, e)
    requires Checked(rules, req.raw).Some? ==>
               forall t, u :: TimeIrrelevant(rules, Checked(rules, req.raw).value, req.(time := t), u)
    ensures var u := Add(rules, RunFrom(rules, store, Others(req, events)), req, FINISH);
            var crashed := RunFrom(rules, store, events);
            SameEnd(u, Add(rules, crashed, req.(time := time), FINISH))
            <==> || u.1 != Added || JsonPath(Stem(req.raw)) !in crashed.files
                 || (Checked(rules, req.raw).Some? && Stable(rules, Checked(rules, req.raw).value))
  {
    hide Inv, Add, Ahead, TimeIrrelevant, SameUpToTime, Publishes, Derive, Checked, SuffixOk, RunFrom, Others;
    var a, b := RunFrom(rules, store, Others(req, events)), RunFrom(rules, store, events);
    var again := req.(time := time);
    RunStaysAhead(rules, store, req, events);
    if Sound(rules, req) {
      var record := Checked(rules, req.raw).value;
      SameStem(rules, req.raw);
      AheadEndsAlike(rules, a, b, record, req, again);
      AddKeepsInv(rules, a, req, FINISH);
      AddKeepsInv(rules, b, again, FINISH);
      SameFilesDeriveAlike(rules, Add(rules, a, req, FINISH).0.files, Add(rules, b, again, FINISH).0.files);
      EndOfAdd(rules, a, record, req);
      EndOfAdd(rules, b, record, again);
    } else {
      UnsoundIsRefused(rules, a, req, FINISH);
      UnsoundIsRefused(rules, b, again, FINISH);
      AlikeItself(a.files);
    }
  }

  lemma SameStem(rules: Rules, raw: Record)
    ensures Checked(rules, raw).Some? ==> Stem(Checked(rules, raw).value) == Stem(raw)
  {
  }

  lemma UnsoundIsRefused(rules: Rules, store: Store, req: Request, steps: nat)
    requires !Sound(rules, req)
    ensures Add(rules, store, req, steps) == (store, Refused)
  {
    hide SuffixOk, IdOk;
  }

  lemma AlikeItself(f: Files)
    ensures SameUpToTime(f, f)
  {
  }

  /** A repeated add of a stored capture succeeds exactly when the sanitiser is stable on its permalink. */
  lemma RetryIffStable(rules: Rules, store: Store, req: Request, time: string)
    requires Inv(rules, store.files) && Add(rules, store, req, FINISH).1 == Added
    ensures Checked(rules, req.raw).Some?
    ensures var again := Add(rules, Add(rules, store, req, FINISH).0, req.(time := time), FINISH);
            again.1 == (if Stable(rules, Checked(rules, req.raw).value) then Duplicate else Refused)
            && again.0 == Add(rules, store, req, FINISH).0
  {
    hide Derive, IdOk, SuffixOk, Inv, Validate;
    var record := Checked(rules, req.raw).value;
    assert JsonPath(Stem(record)) in Commit(rules, store, record, req, FINISH).0.files;
    RetryAfterMarker(rules, store, record, req, FINISH, time);
  }

  /** The store's sanitiser is that of `Permalink`. */
  ghost predicate Sanitises(rules: Rules, other: string -> string) {
    forall value :: rules.clean(value) == P.Clean(other, value)
  }

  /**
   * With the sanitiser itself in place: repeating a stored capture succeeds exactly when its permalink
   * was no web address, or had a host or a port other than zero.
   */
  lemma RetryIffAddressed(rules: Rules, other: string -> string, store: Store, req: Request, time: string)
    requires Inv(rules, store.files) && Add(rules, store, req, FINISH).1 == Added
    requires Sanitises(rules, other) && P.Covered(req.raw.permalink)
    ensures var parts := P.Parsed(req.raw.permalink);
            Add(rules, Add(rules, store, req, FINISH).0, req.(time := time), FINISH).1
            == if parts == None || parts.value.authority != "" then Duplicate else Refused
  {
    hide Add, Inv;
    RetryIffStable(rules, store, req, time);
    P.CleanIsStableIff(other, req.raw.permalink);
  }

  /** A user without a host: the capture is stored, and repeating it is refused. */
  lemma UserWithoutHostIsRefused(rules: Rules, other: string -> string, store: Store, req: Request, time: string)
    requires Inv(rules, store.files) && Add(rules, store, req, FINISH).1 == Added
    requires Sanitises(rules, other) && req.raw.permalink == "http://user@/p"
    ensures Checked(rules, req.raw).Some? && Checked(rules, req.raw).value.permalink == "http:///p"
    ensures Add(rules, Add(rules, store, req, FINISH).0, req.(time := time), FINISH)
            == (Add(rules, store, req, FINISH).0, Refused)
  {
    hide Add, Inv, P.Covered, P.Clean;
    RetryIffStable(rules, store, req, time);
    P.UserWithoutHost(other);
    assert "http:///p" != "";
  }

  // ---------- colliding names ----------

  /**
   * A capture whose file stem is already committed for other IDs, another record or another image
   * is refused at once and changes nothing.
   */
  lemma ConflictIsRefused(rules: Rules, store: Store, req: Request, steps: nat)
    requires Inv(rules, store.files) && Checked(rules, req.raw).Some?
    requires var record := Checked(rules, req.raw).value;
             && JsonPath(Stem(record)) in store.files && Committed(rules, store.files, Stem(record))
             && var held := store.files[JsonPath(Stem(record))].marker;
             || held.record.recordId != record.recordId || held.record.attachmentId != record.attachmentId
             || (held.record != record && Stable(rules, held.record))
             || req.source != Some(held.data)
    ensures Add(rules, store, req, steps) == (store, Refused)
  {
    hide Derive;
    ReadsBackIffStable(rules, store.files, Stem(Checked(rules, req.raw).value));
  }

  /** File stems are not unique, because IDs may contain the separator. */
  lemma StemsCollide(a: Record, b: Record)
    requires a.recordId == "a_b" && a.attachmentId == "c" && b.recordId == "a" && b.attachmentId == "b_c"
    ensures IdOk(a.recordId) && IdOk(a.attachmentId) && IdOk(b.recordId) && IdOk(b.attachmentId)
    ensures Stem(a) == Stem(b) && a.recordId != b.recordId
  {
    assert Stem(a) == "a_b_c";
  }

  // ---------- what an add answers and leaves ----------

  /** The record as the store keeps it. */
  function Cleaned(rules: Rules, raw: Record): Record {
    raw.(permalink := rules.clean(raw.permalink))
  }

  /** What validation demands of a sidecar: IDs, size, its own name, a suffix, and the image and caption it names. */
  ghost predicate Backed(rules: Rules, files: Files, stem: string, m: Marker) {
    && m.record.recordId + "_" + m.record.attachmentId == stem && SuffixOk(m.suffix)
    && Stored(files, ImagePath(m.record.attachmentId, m.suffix), Image(m.data))
    && Stored(files, TextPath(stem), Caption(m.record.text))
  }

  ghost predicate Acceptable(rules: Rules, raw: Record) {
    IdOk(raw.recordId) && IdOk(raw.attachmentId) && rules.recordFits(Cleaned(rules, raw))
  }

  /** On any files, found or damaged: a sidecar is valid exactly when it is readable and backed, and raises exactly when its record is none. */
  lemma ValidIffBacked(rules: Rules, files: Files, stem: string)
    ensures var readable := JsonPath(stem) in files && files[JsonPath(stem)].Sidecar? && rules.markerFits(files[JsonPath(stem)].marker);
            && (Validate(rules, files, stem).Valid? <==>
                  readable && var m := files[JsonPath(stem)].marker; Acceptable(rules, m.record) && Backed(rules, files, stem, m))
            && (Validate(rules, files, stem).Valid? ==>
                  var m := files[JsonPath(stem)].marker;
                  Validate(rules, files, stem).entry == Entry(Cleaned(rules, m.record), m.suffix, m.data))
            && (Validate(rules, files, stem) == Raised <==> readable && !Acceptable(rules, files[JsonPath(stem)].marker.record))
  {
    hide IdOk, SuffixOk;
  }

  /** What a rebuild lists, on any files: nothing if some sidecar raises, else every valid sidecar with its entry and every other as invalid. */
  lemma DeriveTells(rules: Rules, files: Files)
    ensures match Derive(rules, files)
            case None => exists stem :: JsonPath(stem) in files && Validate(rules, files, stem) == Raised
            case Some(s) =>
              && (forall stem :: JsonPath(stem) in files ==> Validate(rules, files, stem) != Raised)
              && (forall stem :: stem in s.entries <==> JsonPath(stem) in files && Validate(rules, files, stem).Valid?)
              && (forall stem :: stem in s.entries ==> s.entries[stem] == Validate(rules, files, stem).entry)
              && (forall stem :: stem in s.invalid <==> JsonPath(stem) in files && Validate(rules, files, stem) == Invalid)
  {
    hide Validate;
    assert forall stem :: JsonPath(stem) in files ==> stem in Stems(files) by {
      forall stem | JsonPath(stem) in files
        ensures stem in Stems(files)
      {
        assert JsonPath(stem).stem == stem;
      }
    }
    assert forall stem :: stem in Stems(files) ==> JsonPath(stem) in files;
  }

  /** The place is free, or holds just this. */
  predicate FreeOrSame(files: Files, path: Path, content: Content) {
    path !in files || files[path] == content
  }

  /** A finished rebuild: refused without change if some sidecar raises. */
  ghost function Rebuilt(rules: Rules, store: Store, done: Outcome): (Store, Outcome) {
    var s := Derive(rules, store.files);
    if s == None then (store, Refused) else (Store(store.files, s, s, s), done)
  }

  /**
   * A finished add in full.  An unacceptable record, image or suffix is refused.  A committed stem is a duplicate exactly
   * when its sidecar reads back as this record with this image.  Otherwise image, caption and marker are
   * published in this order, up to the first whose place is taken by something else or that is too large.
   */
  lemma AddAnswers(rules: Rules, store: Store, req: Request)
    requires Inv(rules, store.files)
    ensures var u := Add(rules, store, req, FINISH);
            var record, stem := Cleaned(rules, req.raw), Stem(req.raw);
            if !Acceptable(rules, req.raw) || req.source == None || !SuffixOk(req.suffix) then u == (store, Refused)
            else
              var image, caption := Image(req.source.value), Caption(record.text);
              var marker := Marker(record, req.suffix, req.source.value, req.time);
              var place := ImagePath(record.attachmentId, req.suffix);
              if JsonPath(stem) in store.files then
                && store.files[JsonPath(stem)].Sidecar?
                && var m := store.files[JsonPath(stem)].marker;
                   u == if Acceptable(rules, m.record) && Cleaned(rules, m.record) == record && m.data == req.source.value
                        then Rebuilt(rules, store, Duplicate) else (store, Refused)
              else if !FreeOrSame(store.files, place, image) then u == (store, Refused)
              else
                var f1 := store.files[place := image];
                if !FreeOrSame(store.files, TextPath(stem), caption) then u == (store.(files := f1), Refused)
                else
                  var f2 := f1[TextPath(stem) := caption];
                  u == if !rules.markerFits(marker) then (store.(files := f2), Refused)
                       else Rebuilt(rules, store.(files := f2[JsonPath(stem) := Sidecar(marker)]), Added)
  {
    hide Derive, IdOk, SuffixOk, Validate;
    SameStem(rules, req.raw);
    if Acceptable(rules, req.raw) && req.source.Some? && SuffixOk(req.suffix) {
      var record, stem := Cleaned(rules, req.raw), Stem(req.raw);
      assert Checked(rules, req.raw) == Some(record);
      if JsonPath(stem) in store.files {
        assert Committed(rules, store.files, stem);
        CommittedAnswers(rules, store, req, record);
      } else {
        NewAnswers(rules, store, req, record);
      }
    }
  }

  lemma CommittedAnswers(rules: Rules, store: Store, req: Request, record: Record)
    requires Inv(rules, store.files) && Checked(rules, req.raw) == Some(record) && req.source.Some? && SuffixOk(req.suffix)
    requires JsonPath(Stem(record)) in store.files && store.files[JsonPath(Stem(record))].Sidecar?
    ensures var m := store.files[JsonPath(Stem(record))].marker;
            Add(rules, store, req, FINISH)
            == if Acceptable(rules, m.record) && Cleaned(rules, m.record) == record && m.data == req.source.value
               then Rebuilt(rules, store, Duplicate) else (store, Refused)
  {
    var stem := Stem(record);
    var m := store.files[JsonPath(stem)].marker;
    assert Committed(rules, store.files, stem);
    ValidIffBacked(rules, store.files, stem);
    assert Backed(rules, store.files, stem, m);
    hide Derive, IdOk, SuffixOk, Inv, Validate, Backed, Committed, Stored;
  }

  lemma NewAnswers(rules: Rules, store: Store, req: Request, record: Record)
    requires Checked(rules, req.raw) == Some(record) && req.source.Some? && SuffixOk(req.suffix)
    requires JsonPath(Stem(record)) !in store.files
    ensures var u, stem := Add(rules, store, req, FINISH), Stem(record);
            var image, caption := Image(req.source.value), Caption(record.text);
            var marker := Marker(record, req.suffix, req.source.value, req.time);
            var place := ImagePath(record.attachmentId, req.suffix);
            if !FreeOrSame(store.files, place, image) then u == (store, Refused)
            else
              var f1 := store.files[place := image];
              if !FreeOrSame(store.files, TextPath(stem), caption) then u == (store.(files := f1), Refused)
              else
                var f2 := f1[TextPath(stem) := caption];
                u == if !rules.markerFits(marker) then (store.(files := f2), Refused)
                     else Rebuilt(rules, store.(files := f2[JsonPath(stem) := Sidecar(marker)]), Added)
  {
    hide Derive, IdOk, SuffixOk, Validate, Checked;
    var f0, place, stem := store.files, ImagePath(record.attachmentId, req.suffix), Stem(record);
    var image, caption := Image(req.source.value), Caption(record.text);
    if FreeOrSame(f0, place, image) {
      assert place in f0 ==> f0[place := image] == f0;
      var f1 := f0[place := image];
      assert TextPath(stem) in f0 && f0[TextPath(stem)] == caption ==> f1[TextPath(stem) := caption] == f1;
    }
  }

  /**
   * How far an add that would have succeeded has come after `steps` file operations: image, caption and marker first, as
   * far as they are new, then manifest, audit and checkpoint; a duplicate begins with these.
   */
  lemma AddInStages(rules: Rules, store: Store, req: Request, steps: nat)
    requires Add(rules, store, req, FINISH).1 == Added || Add(rules, store, req, FINISH).1 == Duplicate
    ensures var (u, done) := Add(rules, store, req, FINISH);
            var (c, outcome) := Add(rules, store, req, steps);
            var written := if done == Added then 3 else 0;
            var stem := Stem(req.raw);
            && outcome == (if steps >= written + 3 then done else Crashed)
            && c.manifest == (if steps >= written + 1 then u.manifest else store.manifest)
            && c.audit == (if steps >= written + 2 then u.audit else store.audit)
            && c.checkpoint == (if steps >= written + 3 then u.checkpoint else store.checkpoint)
            && (forall path :: path in c.files <==>
                  path in store.files || (done == Added && ((steps >= 1 && path == ImagePath(req.raw.attachmentId, req.suffix))
                                                            || (steps >= 2 && path == TextPath(stem))
                                                            || (steps >= 3 && path == JsonPath(stem)))))
            && (forall path :: path in c.files ==> path in u.files && c.files[path] == u.files[path])
  {
    hide Derive, IdOk, SuffixOk, Validate;
    SameStem(rules, req.raw);
  }
}
