/// The final verdict on a browser operation: which sends mark it as dispatched
/// (cmd/agent/browser_command_context.go, cmd/agent/browser_bridge.go), what
/// `finishBrowserOperation` makes of the outcome, and what a client is told
/// before and after a crash.

module FinishVerdict {
  import opened Wrappers

  type Code = string

  const UNKNOWN := "outcome_unknown"
  const NOT_SENT := "cancelled_before_dispatch"

  // ---------- commands ----------

  /**
   * `Marking`: `command`, `commandFrame`, `callFrame` and the launch of a managed browser call
   * `browserMarkDispatch` before they send.  `Direct`: calls on the connection of a managed browser do not.
   */
  datatype Route = Marking | Direct

  datatype Command = Command(name: string, gesture: bool, route: Route)

  predicate HasPrefix(s: string, prefix: string) {
    prefix <= s
  }

  const CHANGING: set<string> :=
    {"Page.navigate", "Page.reload", "Page.navigateToHistoryEntry", "Page.handleJavaScriptDialog", "Page.bringToFront",
     "DOM.setFileInputFiles", "WebCodex.newTab", "WebCodex.closeTab", "WebCodex.enableDownloads", "WebCodex.prepare",
     "Browser.launch"}

  /** `browserMayChange`. */
  predicate MayChange(c: Command) {
    HasPrefix(c.name, "Input.") || c.name in CHANGING || (c.name == "Runtime.evaluate" && c.gesture)
  }

  /** Commands that change the browser without being in that list. */
  const UNLISTED: set<string> :=
    {"Target.createTarget", "Target.closeTarget", "Browser.setDownloadBehavior", "DOM.scrollIntoViewIfNeeded"}

  /** What really changes the browser. */
  predicate Mutating(c: Command) {
    MayChange(c) || c.name in UNLISTED
  }

  /** Sending it sets the mark first. */
  predicate Marks(c: Command) {
    c.route == Marking && MayChange(c)
  }

  // ---------- calls and what they send ----------

  /** A session is managed by the agent or personal; for `browser_open` the mode is an argument. */
  datatype Mode = Managed | Personal

  datatype Navigation = Url | Reload | History

  datatype Interaction =
    | Click(activate: bool, framed: bool) | Hover(framed: bool) | Press | Fill | NativeFill | Select
    | Scroll | Coordinates | Drag | Dialog

  datatype FileAction = EnableDownloads | SaveDownload | Upload

  datatype TabAction = NewTab | SelectTab(activate: bool) | CloseTab

  /** The keyed calls, see `browserMutation`. */
  datatype Request =
    | Open(reuse: bool, url: bool)
    | Navigate(to: Navigation)
    | Interact(action: Interaction, verified: bool)
    | Files(file: FileAction)
    | Tabs(tab: TabAction)

  datatype Call = Call(mode: Mode, request: Request)

  /** One changing send of a call; an optional step may be left out, a `many` step may be repeated. */
  datatype Step = Step(command: Command, optional: bool, many: bool)

  function One(name: string): Step {
    Step(Command(name, false, Marking), false, false)
  }

  function ByBrowser(name: string): Step {
    Step(Command(name, false, Direct), false, false)
  }

  /** A page script run with a user gesture. */
  const SCRIPT: Step := Step(Command("Runtime.evaluate", true, Marking), false, false)

  const MOUSE: Step := One("Input.dispatchMouseEvent")

  /** `elementPoint`. */
  function Point(framed: bool): seq<Step> {
    if framed then [One("DOM.scrollIntoViewIfNeeded"), SCRIPT] else [SCRIPT]
  }

  /** The changing sends of `interact` in program order; all but a dialog begin with a script. */
  function InteractPlan(action: Interaction): seq<Step> {
    match action
    case Dialog => [One("Page.handleJavaScriptDialog")]
    case Scroll => [SCRIPT]
    case Coordinates => [SCRIPT, MOUSE, MOUSE]
    case Drag => [SCRIPT, MOUSE, MOUSE.(optional := true, many := true), MOUSE]
    case NativeFill => [SCRIPT, SCRIPT]
    case Fill => [SCRIPT, SCRIPT]
    case Select => [SCRIPT, SCRIPT]
    case Press => [SCRIPT, SCRIPT, One("Input.dispatchKeyEvent"), One("Input.dispatchKeyEvent")]
    case Hover(framed) => [SCRIPT] + Point(framed) + [MOUSE]
    case Click(activate, framed) =>
      [SCRIPT] + (if activate then [One("Page.bringToFront")] else []) + Point(framed) + [MOUSE, MOUSE, MOUSE]
  }

  /** The changing sends of a call in program order. */
  function Plan(call: Call): seq<Step> {
    match call.request
    case Open(reuse, url) =>
      if call.mode == Managed then
        if reuse then []
        else [One("Browser.launch"), ByBrowser("Browser.setDownloadBehavior")] + (if url then [One("Page.navigate")] else [])
      else if reuse then []
      else [One("WebCodex.prepare").(optional := true, many := true)] + (if url then [One("Page.navigate")] else [])
    case Navigate(Url) => [One("Page.navigate")]
    case Navigate(Reload) => [One("Page.reload")]
    case Navigate(History) => [One("Page.navigateToHistoryEntry")]
    case Interact(action, _) => InteractPlan(action)
    case Files(Upload) => [One("DOM.setFileInputFiles")]
    case Files(SaveDownload) => []
    case Files(EnableDownloads) =>
      if call.mode == Managed then [ByBrowser("Browser.setDownloadBehavior")] else [One("WebCodex.enableDownloads")]
    case Tabs(NewTab) => if call.mode == Managed then [ByBrowser("Target.createTarget")] else [One("WebCodex.newTab")]
    case Tabs(SelectTab(activate)) => if activate then [One("Page.bringToFront")] else []
    case Tabs(CloseTab) => if call.mode == Managed then [ByBrowser("Target.closeTarget")] else [One("WebCodex.closeTab")]
  }

  /** The calls whose change is sent without a mark before it. */
  predicate Unmarked(call: Call) {
    && call.mode == Managed
    && (call.request == Tabs(NewTab) || call.request == Tabs(CloseTab) || call.request == Files(EnableDownloads))
  }

  // ---------- sending ----------

  /** `dispatched` is the mark; `sent` are the commands that may have left the agent. */
  datatype Dispatch = Dispatch(dispatched: bool, sent: seq<Command>)

  /** One attempt to send: refused by a check, or marked where it marks and then written or not. */
  function Attempted(d: Dispatch, c: Command, refused: bool, written: bool): Dispatch {
    if refused then d
    else Dispatch(d.dispatched || Marks(c), if written then d.sent + [c] else d.sent)
  }

  // ---------- the verdict ----------

  /** A context error is recognisable only while unwrapped; `codedError` has no `Unwrap`. */
  datatype Failure = ContextError | Coded(code: Code) | Plain

  datatype Outcome = Success | Failed(error: Failure)

  datatype Status = Running | Completed | FailedStatus | Cancelled

  datatype Phase = Reserved | CompletedPhase | NotDispatched | DispatchStarted | Unknown

  datatype Final = Final(status: Status, phase: Phase, code: Code)

  predicate Uncertain(code: Code) {
    code in {"scope_changed", "binding_changed", "tab_detached", "frame_changed", "command_expired", NOT_SENT,
             "access_paused", "disconnected", "response_too_large"}
  }

  /** `browserErrorContext`: every error becomes a coded one. */
  function Contextualise(e: Failure): Failure {
    if e.Coded? then e else Coded("browser_failed")
  }

  /**
   * Where an execution fails: in the queue, the fence, the binding checks and the setup of a personal
   * tab, in the call itself, while it looks for the frame of its next script, or in a wait at its end.
   */
  datatype Place = Early | Acting | Locating | Waiting

  /** The interactions that can address a frame which a managed browser runs in a process of its own. */
  predicate Framed(call: Call) {
    call.mode == Managed &&
    match call.request
    case Interact(Click(_, framed), _) => framed
    case Interact(Hover(framed), _) => framed
    case Interact(action, _) => !action.Coordinates? && !action.Drag? && !action.Dialog?
    case _ => false
  }

  /** A navigation waits for the page to load, an interaction for its requested verification. */
  predicate Waits(call: Call) {
    call.request.Navigate? || (call.request.Interact? && call.request.verified)
  }

  /**
   * The error as it leaves `execute`.  Closing a managed tab hides its error behind a code of its own,
   * and errors of a tab action are contextualised.  The wait for a page to load reports the end of its
   * context as a timeout, a frame whose lookup fails is unknown, and a failed verification is reported as
   * such whatever its error.
   */
  function Carried(call: Call, place: Place, e: Failure): Failure {
    if place.Early? || call.request.Open? then e
    else if place.Locating? then Coded("unknown_frame")
    else if place.Waiting? then
      if call.request.Interact? then Coded("state_verification_failed")
      else if e == ContextError then Coded("wait_timeout") else Contextualise(e)
    else if call == Call(Managed, Tabs(CloseTab)) then Coded("browser_failed")
    else if call.request.Tabs? then e
    else Contextualise(e)
  }

  /** `ended` is the state of the operation's own context, `stored` whether the final record was written. */
  function Verdict(keyed: bool, dispatched: bool, ended: bool, outcome: Outcome, stored: bool): Final {
    var computed := Judge(keyed, dispatched, ended, outcome);
    if keyed && !stored then Final(FailedStatus, Unknown, UNKNOWN) else computed
  }

  function Judge(keyed: bool, dispatched: bool, ended: bool, outcome: Outcome): Final {
    match outcome
    case Success => Final(Completed, CompletedPhase, "")
    case Failed(error) =>
      var phase := if dispatched then DispatchStarted else NotDispatched;
      var code := Contextualise(error).code;
      if ended || error == ContextError then
        Final(Cancelled, phase, if !keyed then "cancelled" else if dispatched then UNKNOWN else NOT_SENT)
      else
        Final(FailedStatus, phase, if keyed && dispatched && Uncertain(code) then UNKNOWN else code)
  }

  /** The shared operation; the journal writer's answer and file are parameters of `Finish`. */
  class BrowserOperation {
    const keyed: bool
    var dispatched: bool
    var status: Status
    var phase: Phase
    var code: Code
    var record: Final

    constructor (isKeyed: bool)
      ensures keyed == isKeyed && !dispatched && status == Running && record.status == Running
    {
      keyed := isKeyed;
      dispatched := false;
      status, phase, code := Running, Reserved, "";
      record := Final(Running, Reserved, "");
    }

    method MarkDispatch(c: Command)
      modifies this`dispatched
      ensures dispatched == (old(dispatched) || MayChange(c))
    {
      if MayChange(c) {
        dispatched := true;
      }
    }

    /** `writable` says whether the final record reaches the disk before its deadline. */
    method Finish(ended: bool, outcome: Outcome, writable: bool) returns (healthy: bool)
      modifies this`status, this`phase, this`code, this`record
      ensures Final(status, phase, code) == Verdict(keyed, dispatched, ended, outcome, writable)
      ensures record == if keyed && writable then Judge(keyed, dispatched, ended, outcome) else old(record)
      ensures healthy == (!keyed || writable)
    {
      var final := Final(Completed, CompletedPhase, "");
      if outcome.Failed? {
        final := Final(FailedStatus, NotDispatched, "");
        if dispatched {
          final := final.(phase := DispatchStarted);
        }
        final := final.(code := Contextualise(outcome.error).code);
        if keyed && dispatched && Uncertain(final.code) {
          final := final.(code := UNKNOWN);
        }
        if ended || outcome.error == ContextError {
          final := final.(status := Cancelled, code := "cancelled");
          if keyed {
            final := final.(code := NOT_SENT);
            if dispatched {
              final := final.(code := UNKNOWN);
            }
          }
        }
      }
      healthy := true;
      if keyed {
        if writable {
          record := final;
        } else {
          final := Final(FailedStatus, Unknown, UNKNOWN);
          healthy := false;
        }
      }
      status, phase, code := final.status, final.phase, final.code;
    }
  }

  // ---------- whole lives of a call ----------

  /** Reading a record after a restart: an operation still running there was cut off. */
  function AfterRestart(record: Final): Final {
    if record.status == Running then Final(FailedStatus, Unknown, UNKNOWN) else record
  }

  /** `Finishing` has judged the outcome and is writing it; `Reloaded` was read back by a later agent. */
  datatype Life = Executing | Finishing(final: Final) | Done(final: Final) | Down | Reloaded(final: Final)

  /** Why the operation finished: whether its own context had ended, and what its execution returned. */
  datatype Cause = Cause(ended: bool, place: Place, outcome: Outcome)

  /**
   * A keyed call: what it sent and the next step of its plan, its own context and the one a pause, cancel,
   * disconnect or scope change cuts, its record on disk, a final write the journal worker may still
   * complete after the deadline, why it ended, whether that was stored, and the verdicts clients were told.
   */
  datatype World = World(d: Dispatch, pc: nat, ended: bool, cut: bool, life: Life, record: Final, late: Option<Final>,
                         cause: Option<Cause>, stored: Option<bool>, told: seq<Final>)

  datatype Event =
    | Send(step: nat, refused: bool, written: bool)
    | Read(c: Command, refused: bool, written: bool)
    | ContextEnds
    | CallCut
    | Returns(place: Place, outcome: Outcome)
    | FinalWrite(stored: bool)
    | LateWrite
    | Ask
    | Crash
    | Restart

  /** Whether the steps before `n` are done, but for optional ones. */
  predicate DoneUpTo(plan: seq<Step>, pc: nat, n: nat) {
    pc <= n <= |plan| && forall k | pc <= k < n :: plan[k].optional
  }

  /** Whether the execution may take this step of the plan now. */
  predicate MaySend(plan: seq<Step>, pc: nat, step: nat) {
    step < |plan| && DoneUpTo(plan, pc, step)
  }

  predicate ScriptIsNext(plan: seq<Step>, pc: nat) {
    exists k :: pc <= k < |plan| && DoneUpTo(plan, pc, k) && plan[k] == SCRIPT
  }

  /** What an execution can return: early errors precede the plan, waits follow it, context errors need a context that ended. */
  predicate MayReturn(call: Call, w: World, place: Place, outcome: Outcome) {
    && (place.Early? ==> w.pc == 0)
    && (place.Locating? ==> Framed(call) && ScriptIsNext(Plan(call), w.pc))
    && (place.Waiting? ==> Waits(call) && DoneUpTo(Plan(call), w.pc, |Plan(call)|))
    && (outcome == Failed(ContextError) ==> w.ended || w.cut)
  }

  /** An event that cannot happen now changes nothing. */
  function Next(call: Call, w: World, e: Event): World {
    match e
    case Send(step, refused, written) =>
      if w.life.Executing? && MaySend(Plan(call), w.pc, step) && !refused then
        var s := Plan(call)[step];
        w.(d := Attempted(w.d, s.command, refused, written), pc := if s.many then step else step + 1)
      else w
    case Read(c, refused, written) =>
      if w.life.Executing? && !Mutating(c) then w.(d := Attempted(w.d, c, refused, written)) else w
    case ContextEnds => w.(ended := true)
    case CallCut => if call.request.Open? && call.mode == Managed then w else w.(cut := true)
    case Returns(place, outcome) =>
      if w.life.Executing? && MayReturn(call, w, place, outcome) then
        var cause := Cause(w.ended, place, outcome);
        w.(life := Finishing(Judged(call, w.d.dispatched, cause)), cause := Some(cause))
      else w
    case FinalWrite(stored) =>
      if !w.life.Finishing? then w
      else if stored then w.(life := Done(w.life.final), record := w.life.final, stored := Some(true))
      else w.(life := Done(Final(FailedStatus, Unknown, UNKNOWN)), late := Some(w.life.final), stored := Some(false))
    case LateWrite => if w.late.Some? then w.(record := w.late.value, late := None) else w
    case Ask => if w.life.Done? || w.life.Reloaded? then w.(told := w.told + [w.life.final]) else w
    case Crash => w.(life := Down, late := None)
    case Restart => if w.life.Down? then w.(life := Reloaded(AfterRestart(w.record))) else w
  }

  /** The error or success `finishBrowserOperation` gets to see. */
  function Seen(call: Call, cause: Cause): Outcome {
    if cause.outcome.Success? then Success else Failed(Carried(call, cause.place, cause.outcome.error))
  }

  function Judged(call: Call, dispatched: bool, cause: Cause): Final {
    Judge(true, dispatched, cause.ended, Seen(call, cause))
  }

  const START: World :=
    World(Dispatch(false, []), 0, false, false, Executing, Final(Running, Reserved, ""), None, None, None, [])

  function Run(call: Call, events: seq<Event>): World
    decreases |events|
  {
    if |events| == 0 then START else Next(call, Run(call, events[..|events| - 1]), events[|events| - 1])
  }

  // ---------- invariant ----------

  /** A failure after which nobody can know whether a dispatched mutation took effect. */
  predicate Losing(call: Call, cause: Cause) {
    var seen := Seen(call, cause);
    seen.Failed? && (cause.ended || seen.error == ContextError || Uncertain(Contextualise(seen.error).code))
  }

  /** What may be said of the operation. */
  ghost predicate Fits(call: Call, w: World, f: Final) {
    && (f.code == NOT_SENT ==> !w.d.dispatched)
    && (w.d.dispatched && (w.cause == None || Losing(call, w.cause.value)) ==> f.code == UNKNOWN)
  }

  /** A changing step that is sent without a mark, with no marked step the call must take before it. */
  ghost predicate Bare(plan: seq<Step>, step: nat) {
    && step < |plan| && Mutating(plan[step].command) && !Marks(plan[step].command)
    && forall k | 0 <= k < step :: plan[k].optional || !Marks(plan[k].command)
  }

  ghost predicate BareSend(plan: seq<Step>, c: Command) {
    exists step: nat :: Bare(plan, step) && plan[step].command == c
  }

  /** The mark precedes every send it is meant for; what else changed the browser was sent bare. */
  ghost predicate MarkInv(plan: seq<Step>, w: World) {
    && w.pc <= |plan|
    && (forall c | c in w.d.sent :: Marks(c) ==> w.d.dispatched)
    && (forall k | 0 <= k < w.pc :: !plan[k].optional && Marks(plan[k].command) ==> w.d.dispatched)
    && (forall c | c in w.d.sent :: Mutating(c) && !w.d.dispatched ==> BareSend(plan, c))
    && (w.d.dispatched ==> exists k :: 0 <= k < |plan| && Marks(plan[k].command))
  }

  ghost predicate LifeInv(call: Call, w: World) {
    && (w.life.Executing? ==> w.record.status == Running && w.late == None && w.told == [] && w.cause == None)
    && (w.life.Finishing? ==> w.cause.Some? && w.life.final == Judged(call, w.d.dispatched, w.cause.value))
    && (w.life.Done? ==>
          && w.cause.Some? && w.stored.Some?
          && w.life.final == Verdict(true, w.d.dispatched, w.cause.value.ended, Seen(call, w.cause.value), w.stored.value))
    && (w.life.Finishing? || w.life.Done? || w.life.Reloaded? ==> Fits(call, w, w.life.final))
    && (w.record.status != Running ==> Fits(call, w, w.record))
    && (w.late.Some? ==> w.late.value.status != Running && Fits(call, w, w.late.value))
    && forall i | 0 <= i < |w.told| :: Fits(call, w, w.told[i])
  }

  ghost predicate Inv(call: Call, w: World) {
    MarkInv(Plan(call), w) && LifeInv(call, w)
  }

  lemma SendKeepsMarkInv(plan: seq<Step>, w: World, w': World, step: nat, written: bool)
    requires MarkInv(plan, w) && MaySend(plan, w.pc, step)
    requires w'.d == Attempted(w.d, plan[step].command, false, written)
    requires w'.pc == if plan[step].many then step else step + 1
    ensures MarkInv(plan, w')
  {
    hide MayChange, Mutating;
    var c := plan[step].command;
    if Mutating(c) && !w'.d.dispatched {
      assert Bare(plan, step);
      assert BareSend(plan, c);
    }
  }

  lemma ReadKeepsMarkInv(plan: seq<Step>, w: World, w': World, c: Command, refused: bool, written: bool)
    requires MarkInv(plan, w) && !Mutating(c) && w'.pc == w.pc && w'.d == Attempted(w.d, c, refused, written)
    ensures MarkInv(plan, w') && w'.d.dispatched == w.d.dispatched
  {
  }

  lemma JudgedFits(call: Call, dispatched: bool, cause: Cause)
    ensures var f := Judged(call, dispatched, cause);
            && f.status != Running && (f.code == NOT_SENT ==> !dispatched)
            && (dispatched && Losing(call, cause) ==> f.code == UNKNOWN)
  {
  }

  lemma NextKeepsMarkInv(call: Call, w: World, e: Event)
    requires Inv(call, w)
    ensures MarkInv(Plan(call), Next(call, w, e))
  {
    var w' := Next(call, w, e);
    hide Judge, MayChange, Mutating, Uncertain, Losing, Plan, MaySend, Carried, LifeInv;
    if e.Send? && w' != w {
      SendKeepsMarkInv(Plan(call), w, w', e.step, e.written);
    } else if e.Read? && w' != w {
      ReadKeepsMarkInv(Plan(call), w, w', e.c, e.refused, e.written);
    }
  }

  lemma NextKeepsLifeInv(call: Call, w: World, e: Event)
    requires Inv(call, w)
    ensures LifeInv(call, Next(call, w, e))
  {
    hide Judge, MayChange, Mutating, Uncertain, Losing, Plan, MaySend, Carried, MarkInv;
    var w' := Next(call, w, e);
    if e.Read? && w' != w {
      ReadKeepsMarkInv(Plan(call), w, w', e.c, e.refused, e.written);
    } else if e.Returns? && w' != w {
      JudgedFits(call, w.d.dispatched, w'.cause.value);
    } else if e.FinalWrite? && w' != w {
      JudgedFits(call, w.d.dispatched, w.cause.value);
    }
  }

  lemma NextKeepsInv(call: Call, w: World, e: Event)
    requires Inv(call, w)
    ensures Inv(call, Next(call, w, e))
  {
    NextKeepsMarkInv(call, w, e);
    NextKeepsLifeInv(call, w, e);
    hide MarkInv, LifeInv, Next, Plan;
  }

  lemma {:induction false} RunKeepsInv(call: Call, events: seq<Event>)
    ensures Inv(call, Run(call, events))
    decreases |events|
  {
    if |events| > 0 {
      RunKeepsInv(call, events[..|events| - 1]);
      NextKeepsInv(call, Run(call, events[..|events| - 1]), events[|events| - 1]);
    }
  }

  lemma Snoc(call: Call, events: seq<Event>, e: Event)
    ensures Run(call, events + [e]) == Next(call, Run(call, events), e)
  {
    assert (events + [e])[..|events|] == events;
  }

  // ---------- main results ----------

  /** The mark precedes every send it is meant for, in every run of every call. */
  lemma MarkPrecedesSend(call: Call, events: seq<Event>)
    ensures var d := Run(call, events).d; !d.dispatched ==> forall c | c in d.sent :: !Marks(c)
  {
    RunKeepsInv(call, events);
  }

  /** The step of the shared operation is the verdict of its cause. */
  lemma DoneIsVerdict(call: Call, events: seq<Event>, stored: bool)
    requires Run(call, events).life.Finishing?
    ensures var w := Run(call, events);
            && w.cause.Some?
            && Next(call, w, FinalWrite(stored)).life
               == Done(Verdict(true, w.d.dispatched, w.cause.value.ended, Seen(call, w.cause.value), stored))
  {
    RunKeepsInv(call, events);
  }

  /** What is left of an operation whose end was lost. */
  const LOST := Final(FailedStatus, Unknown, UNKNOWN)

  /** The code of an error: its own, if it has one. */
  function OwnCode(error: Failure): Code {
    match error
    case Coded(code) => code
    case _ => "browser_failed"
  }

  /**
   * What the end of an operation says of its execution: success is completed without a code.  A failure is
   * cancelled exactly when the operation's context ended or the error is recognisably one of a context; its phase
   * tells whether the mark was set; its code is the error's own unless that would be a guess for a marked mutation.
   */
  ghost predicate Tells(keyed: bool, dispatched: bool, ended: bool, outcome: Outcome, f: Final) {
    && (f.status == Completed <==> outcome.Success?)
    && (f.phase == CompletedPhase <==> outcome.Success?)
    && (outcome.Success? ==> f.code == "")
    && (outcome.Failed? ==>
          && (f.status == Cancelled <==> ended || outcome.error == ContextError)
          && (f.status == FailedStatus <==> !ended && outcome.error != ContextError)
          && (f.phase == DispatchStarted <==> dispatched) && (f.phase == NotDispatched <==> !dispatched)
          && (f.status == Cancelled ==> f.code == if !keyed then "cancelled" else if dispatched then UNKNOWN else NOT_SENT)
          && (f.status == FailedStatus ==>
                f.code == if keyed && dispatched && Uncertain(OwnCode(outcome.error)) then UNKNOWN else OwnCode(outcome.error)))
  }

  /** The end of a keyed or unkeyed operation tells its execution, unless it is keyed and could not be stored. */
  lemma VerdictTells(keyed: bool, dispatched: bool, ended: bool, outcome: Outcome, stored: bool)
    ensures if keyed && !stored then Verdict(keyed, dispatched, ended, outcome, stored) == LOST
            else Tells(keyed, dispatched, ended, outcome, Verdict(keyed, dispatched, ended, outcome, stored))
  {
  }

  /**
   * The codes after which nobody knows whether a marked mutation took effect: those of a changed scope, binding, tab or
   * frame, of a command that ran out of time or was cancelled in the extension, of lost access or a lost link, and
   * of an answer too large to return; any other code is reported as it is.
   */
  lemma CodesLeftInDoubt(code: Code)
    ensures Verdict(true, true, false, Failed(Coded(code)), true).code != code <==>
              || code == "scope_changed" || code == "binding_changed" || code == "tab_detached" || code == "frame_changed"
              || code == "command_expired" || code == "cancelled_before_dispatch" || code == "access_paused"
              || code == "disconnected" || code == "response_too_large"
    ensures Verdict(true, false, false, Failed(Coded(code)), true).code == code
  {
  }

  /**
   * The sends that set the mark: input to the page, scripts run with a user gesture, and the eleven commands that navigate,
   * answer a dialog, bring to the front, set files, open or close tabs, enable downloads, prepare or launch.
   */
  lemma WhatMarks(d: Dispatch, c: Command, written: bool)
    requires !d.dispatched
    ensures Attempted(d, c, false, written).dispatched <==>
              c.route == Marking &&
              (|| (|c.name| >= 6 && c.name[..6] == "Input.")
               || (c.name == "Runtime.evaluate" && c.gesture)
               || c.name == "Page.navigate" || c.name == "Page.reload" || c.name == "Page.navigateToHistoryEntry"
               || c.name == "Page.handleJavaScriptDialog" || c.name == "Page.bringToFront" || c.name == "DOM.setFileInputFiles"
               || c.name == "WebCodex.newTab" || c.name == "WebCodex.closeTab" || c.name == "WebCodex.enableDownloads"
               || c.name == "WebCodex.prepare" || c.name == "Browser.launch")
  {
  }

  ghost predicate TellsCause(call: Call, w: World, f: Final) {
    w.cause.Some? && Tells(true, w.d.dispatched, w.cause.value.ended, Seen(call, w.cause.value), f)
  }

  /** Whatever is held or was said of the end tells its cause, or that it was lost; once stored, the former. */
  ghost predicate TruthInv(call: Call, w: World) {
    && (w.life.Executing? || w.life.Finishing? ==> w.told == [] && w.stored == None && w.late == None && w.record.status == Running)
    && (w.life.Finishing? ==> TellsCause(call, w, w.life.final))
    && (w.life.Done? || w.life.Reloaded? ==> TellsCause(call, w, w.life.final) || (w.life.final == LOST && w.stored != Some(true)))
    && (w.life.Done? ==> w.stored.Some? && (w.stored == Some(false) ==> w.life.final == LOST))
    && (w.record.status == Running ==> w.stored != Some(true))
    && (w.record.status != Running ==> TellsCause(call, w, w.record))
    && (w.late.Some? ==> TellsCause(call, w, w.late.value) && w.late.value.status != Running)
    && (forall f :: f in w.told ==> TellsCause(call, w, f) || (f == LOST && w.stored != Some(true)))
  }

  lemma NextKeepsTruth(call: Call, w: World, e: Event)
    requires Inv(call, w) && TruthInv(call, w)
    ensures TruthInv(call, Next(call, w, e))
  {
    hide Plan, MayChange, Mutating, MaySend, Carried, MarkInv, Judge, MayReturn, Tells, Uncertain, Fits;
    var w' := Next(call, w, e);
    if e.Returns? && w' != w {
      var cause := w'.cause.value;
      VerdictTells(true, w.d.dispatched, cause.ended, Seen(call, cause), true);
      assert TellsCause(call, w', w'.life.final);
      JudgedEnds(call, w.d.dispatched, cause);
    } else if e.FinalWrite? && w' != w {
      JudgedEnds(call, w.d.dispatched, w.cause.value);
    }
    assert w.cause.Some? ==> w'.d.dispatched == w.d.dispatched && w'.cause == w.cause;
    assert forall f :: w.cause.Some? && TellsCause(call, w, f) ==> TellsCause(call, w', f);
    hide TellsCause;
  }

  lemma JudgedEnds(call: Call, dispatched: bool, cause: Cause)
    ensures Judged(call, dispatched, cause).status != Running
  {
  }

  lemma {:induction false} RunKeepsTruth(call: Call, events: seq<Event>)
    ensures TruthInv(call, Run(call, events))
    decreases |events|
  {
    if |events| > 0 {
      RunKeepsTruth(call, events[..|events| - 1]);
      RunKeepsInv(call, events[..|events| - 1]);
      NextKeepsTruth(call, Run(call, events[..|events| - 1]), events[|events| - 1]);
    }
  }

  /**
   * Over whole lives, with late writes, crashes and restarts: once the end of a call was stored, its record, its state
   * and every answer tell its execution, completed exactly when it returned success; and
   * whatever was stored or not, nobody is told more than that or that the outcome was lost.
   */
  lemma AnswersTellTheTruth(call: Call, events: seq<Event>)
    ensures var w := Run(call, events);
            && (w.stored == Some(true) ==>
                  && w.cause.Some? && TellsCause(call, w, w.record)
                  && (w.life.Done? || w.life.Reloaded? ==> TellsCause(call, w, w.life.final))
                  && (forall f :: f in w.told ==> TellsCause(call, w, f) && (f.status == Completed <==> w.cause.value.outcome.Success?)))
            && (w.life.Done? || w.life.Reloaded? ==> w.life.final == LOST || TellsCause(call, w, w.life.final))
            && (forall f :: f in w.told ==> f == LOST || TellsCause(call, w, f))
            && (forall f :: f in w.told && f.status == Completed ==> w.cause.Some? && w.cause.value.outcome.Success?)
  {
    RunKeepsTruth(call, events);
  }

  /** Every plan but those of the three unmarked calls begins with a marking step. */
  lemma PlanBegins(call: Call)
    ensures |Plan(call)| > 0 && !Unmarked(call) ==> Marks(Plan(call)[0].command)
    ensures forall step: nat | step < |Plan(call)| && !Unmarked(call) && Plan(call)[0].optional :: Marks(Plan(call)[step].command)
  {
  }

  /** A change without a marked step before it belongs to one of the three unmarked calls. */
  lemma BareOnlyIfUnmarked(call: Call, step: nat)
    requires Bare(Plan(call), step)
    ensures Unmarked(call)
  {
    hide Plan, Marks, Mutating;
    PlanBegins(call);
  }

  /**
   * Over any life, with failed and late final writes, crashes and restarts: a call ever reported as
   * cancelled before dispatch made no marking send, and if it is none of the three unmarked calls
   * it made no send at all that changes the browser.
   */
  lemma NoDispatchVerdictIsSound(call: Call, events: seq<Event>, i: nat)
    requires i < |Run(call, events).told| && Run(call, events).told[i].code == NOT_SENT
    ensures forall c | c in Run(call, events).d.sent :: !Marks(c)
    ensures !Unmarked(call) ==> forall c | c in Run(call, events).d.sent :: !Mutating(c)
  {
    RunKeepsInv(call, events);
    var d := Run(call, events).d;
    forall c | c in d.sent && Mutating(c)
      ensures Unmarked(call)
    {
      var step: nat :| Bare(Plan(call), step) && Plan(call)[step].command == c;
      BareOnlyIfUnmarked(call, step);
    }
  }

  /** Some answer says that nothing was sent although a change was. */
  ghost predicate Misreports(call: Call, events: seq<Event>) {
    var w := Run(call, events);
    (exists f :: f in w.told && f.code == NOT_SENT) && exists c :: c in w.d.sent && Mutating(c)
  }

  /**
   * A call can be answered as cancelled before dispatch after it changed the browser exactly when
   * the session is managed and the call opens or closes a tab or enables downloads.
   */
  lemma MisreportedIff(call: Call)
    ensures (exists events :: Misreports(call, events)) <==> Unmarked(call)
  {
    if Unmarked(call) {
      var events := EndedAfterSend(call);
      assert Misreports(call, events);
    }
    forall events | Misreports(call, events)
      ensures Unmarked(call)
    {
      var w := Run(call, events);
      var f :| f in w.told && f.code == NOT_SENT;
      var i :| 0 <= i < |w.told| && w.told[i] == f;
      NoDispatchVerdictIsSound(call, events, i);
    }
  }

  /** The change is sent, the operation's time runs out, and the answer is that nothing was sent. */
  lemma EndedAfterSend(call: Call) returns (events: seq<Event>)
    requires Unmarked(call)
    ensures var w := Run(call, events);
            && w.d.sent == [Plan(call)[0].command] && Mutating(Plan(call)[0].command)
            && w.told == [Final(Cancelled, NotDispatched, NOT_SENT)]
  {
    events := Answered(call, ContextEnds);
  }

  /** Closing a tab of a managed browser: sent, yet answered as not sent. */
  lemma ClosingManagedTabIsMisreported() returns (events: seq<Event>)
    ensures var w := Run(Call(Managed, Tabs(CloseTab)), events);
            Command("Target.closeTarget", false, Direct) in w.d.sent && w.told == [Final(Cancelled, NotDispatched, NOT_SENT)]
  {
    events := EndedAfterSend(Call(Managed, Tabs(CloseTab)));
  }

  /** Enabling downloads in a managed browser: sent, yet answered as not sent. */
  lemma ManagedDownloadsAreMisreported() returns (events: seq<Event>)
    ensures var w := Run(Call(Managed, Files(EnableDownloads)), events);
            Command("Browser.setDownloadBehavior", false, Direct) in w.d.sent
            && w.told == [Final(Cancelled, NotDispatched, NOT_SENT)]
  {
    events := EndedAfterSend(Call(Managed, Files(EnableDownloads)));
  }

  /** Opening a tab in a managed browser: a mere pause during the setup of the new tab is enough. */
  lemma NewManagedTabIsMisreported() returns (events: seq<Event>)
    ensures var w := Run(Call(Managed, Tabs(NewTab)), events);
            && Command("Target.createTarget", false, Direct) in w.d.sent && !w.ended
            && w.told == [Final(Cancelled, NotDispatched, NOT_SENT)]
  {
    events := Answered(Call(Managed, Tabs(NewTab)), CallCut);
  }

  /** The first step is sent, then the context ends or is cut, the error is stored and the client asks. */
  lemma Answered(call: Call, stop: Event) returns (events: seq<Event>)
    requires |Plan(call)| > 0 && (stop == ContextEnds || stop == CallCut) && !call.request.Open?
    ensures var w := Run(call, events);
            var d := Attempted(START.d, Plan(call)[0].command, false, true);
            var cause := Cause(stop == ContextEnds, Acting, Failed(ContextError));
            && w.d == d && w.ended == (stop == ContextEnds) && w.cause == Some(cause) && w.stored == Some(true)
            && w.life == Done(Judged(call, d.dispatched, cause)) && w.told == [Judged(call, d.dispatched, cause)]
  {
    hide Plan, Judged, MayChange;
    events := [];
    var tail := [Send(0, false, true), stop, Returns(Acting, Failed(ContextError)), FinalWrite(true), Ask];
    Snoc(call, [], tail[0]);
    Snoc(call, tail[..1], tail[1]);
    Snoc(call, tail[..2], tail[2]);
    Snoc(call, tail[..3], tail[3]);
    Snoc(call, tail[..4], tail[4]);
    assert tail[..1] == [] + [tail[0]] && tail[..2] == tail[..1] + [tail[1]] && tail[..3] == tail[..2] + [tail[2]];
    assert tail[..4] == tail[..3] + [tail[3]] && tail == tail[..4] + [tail[4]];
    events := tail;
  }

  /**
   * A marked mutation that was cut off by a crash, or failed by a cancellation it could recognise or
   * by an uncertain transport code, is reported as unknown in every answer, now and after restarts.
   */
  lemma LostMutationIsUnknown(call: Call, events: seq<Event>, i: nat)
    requires var w := Run(call, events);
             i < |w.told| && w.d.dispatched && (w.cause == None || Losing(call, w.cause.value))
    ensures Run(call, events).told[i].code == UNKNOWN
  {
    RunKeepsInv(call, events);
  }

  /** When a marked mutation has failed and its end is noted, the end is unknown exactly if it was lost, not stored, or unknown already. */
  lemma UncertainMutationIsUnknown(call: Call, events: seq<Event>)
    requires var w := Run(call, events); w.life.Done? && w.d.dispatched && w.cause.Some? && w.cause.value.outcome.Failed?
    ensures var w := Run(call, events);
            w.stored.Some? &&
            (w.life.final.code == UNKNOWN <==>
              Losing(call, w.cause.value) || w.stored == Some(false) || Seen(call, w.cause.value) == Failed(Coded(UNKNOWN)))
  {
    RunKeepsInv(call, events);
  }

  // ---------- pauses ----------

  /** A pause, and nothing else, ended a marked call, and the noted end does not say that the outcome is unknown. */
  ghost predicate HidesPause(call: Call, events: seq<Event>) {
    var w := Run(call, events);
    && w.life.Done? && w.d.dispatched && !w.ended && w.stored == Some(true)
    && w.cause.Some? && w.cause.value.outcome == Failed(ContextError) && w.life.final.code != UNKNOWN
  }

  ghost predicate HidesPauseAs(call: Call, events: seq<Event>, final: Final) {
    HidesPause(call, events) && Run(call, events).life.final == final
  }

  /** The calls that change the page through a tab action. */
  predicate ChangesByTabAction(call: Call) {
    || call.request.Navigate? || call.request.Interact? || call.request == Files(Upload)
    || call == Call(Personal, Files(EnableDownloads))
  }

  /** A script in a frame comes after another script. */
  predicate LocatesAgain(call: Call) {
    Framed(call) && !call.request.action.Scroll?
  }

  /** The places where a pause can cut a mutation that was dispatched. */
  predicate CutWhere(call: Call, place: Place) {
    match place
    case Early => false
    case Acting => true
    case Locating => LocatesAgain(call)
    case Waiting => Waits(call)
  }

  /** What it ends as there. */
  function EndAt(call: Call, place: Place): Code {
    match place
    case Locating => "unknown_frame"
    case Waiting => if call.request.Interact? then "state_verification_failed" else "wait_timeout"
    case _ => "browser_failed"
  }

  /**
   * A session pause cancels only the call context.  Where that error passes through a tab action it is
   * wrapped and no longer recognised: a paused mutation can end without being called unknown exactly
   * for calls that change the page by a tab action, and then it ends with exactly these codes.
   */
  lemma PausedMutationHiddenIff(call: Call, final: Final)
    ensures (exists events :: HidesPause(call, events)) <==> ChangesByTabAction(call)
    ensures (exists events :: HidesPauseAs(call, events, final)) <==>
              ChangesByTabAction(call) &&
              exists place :: CutWhere(call, place) && final == Final(FailedStatus, DispatchStarted, EndAt(call, place))
  {
    forall events | HidesPause(call, events)
      ensures ChangesByTabAction(call)
      ensures exists place :: CutWhere(call, place) && Run(call, events).life.final == Final(FailedStatus, DispatchStarted, EndAt(call, place))
    {
      HiddenEndIsListed(call, events);
    }
    forall place | ChangesByTabAction(call) && CutWhere(call, place)
      ensures exists events :: HidesPauseAs(call, events, Final(FailedStatus, DispatchStarted, EndAt(call, place)))
    {
      var events := CutAt(call, place);
      assert HidesPauseAs(call, events, Final(FailedStatus, DispatchStarted, EndAt(call, place)));
    }
    if ChangesByTabAction(call) {
      var events := CutAt(call, Acting);
      assert HidesPause(call, events);
    }
    hide HidesPause, ChangesByTabAction, CutWhere, EndAt, Run;
  }

  lemma CutAt(call: Call, place: Place) returns (events: seq<Event>)
    requires ChangesByTabAction(call) && CutWhere(call, place)
    ensures HidesPause(call, events)
    ensures Run(call, events).life.final == Final(FailedStatus, DispatchStarted, EndAt(call, place))
  {
    PlanBegins(call);
    var n := |Plan(call)|;
    if place.Locating? {
      n := ScriptAgain(call);
    }
    assert n > 0;
    hide Plan;
    events := PausedAt(call, place, n);
  }

  lemma HiddenEndIsListed(call: Call, events: seq<Event>)
    requires HidesPause(call, events)
    ensures var w := Run(call, events);
            && ChangesByTabAction(call) && CutWhere(call, w.cause.value.place)
            && w.life.final == Final(FailedStatus, DispatchStarted, EndAt(call, w.cause.value.place))
  {
    hide Plan, Marks, Mutating, ScriptIsNext, Run;
    var w := Run(call, events);
    RunKeepsInv(call, events);
    PlacesFit(call, events);
    MarkedCalls(call);
    KindsOfCalls(call);
    NothingRepeatedFirst(call);
    if w.cause.value.place.Locating? {
      LocatingComesAgain(call, w.pc);
    }
  }

  lemma KindsOfCalls(call: Call)
    ensures || ChangesByTabAction(call) || call.request.Open? || call.request.Tabs?
            || call.request == Files(SaveDownload) || Unmarked(call)
  {
    if call.request.Files? {
      match call.request.file
      case EnableDownloads => assert call.mode == Managed || call == Call(Personal, Files(EnableDownloads));
      case _ =>
    }
  }

  lemma NothingRepeatedFirst(call: Call)
    requires ChangesByTabAction(call)
    ensures |Plan(call)| > 0 && !Plan(call)[0].many
  {
  }

  /** Only a call that waits fails in its wait, and only one that looks for a frame again does so with the mark set. */
  lemma {:induction false} PlacesFit(call: Call, events: seq<Event>)
    ensures var w := Run(call, events);
            && (w.d.dispatched && |Plan(call)| > 0 && !Plan(call)[0].many ==> w.pc > 0)
            && (w.cause.Some? && w.cause.value.place.Waiting? ==> Waits(call))
            && (w.cause.Some? && w.cause.value.place.Locating? ==>
                  !w.life.Executing? && Framed(call) && ScriptIsNext(Plan(call), w.pc))
    decreases |events|
  {
    hide Plan, Judged, Judge, ScriptIsNext, MayChange, Mutating, Framed, Waits, LifeInv, MarkInv;
    if |events| > 0 {
      var init, last := events[..|events| - 1], events[|events| - 1];
      PlacesFit(call, init);
      RunKeepsInv(call, init);
      PlaceStep(call, Run(call, init), last);
    }
  }

  lemma PlaceStep(call: Call, w: World, e: Event)
    requires Inv(call, w)
    ensures var w' := Next(call, w, e);
            && (w'.d.dispatched ==> w.d.dispatched || (e.Send? && w'.pc == if Plan(call)[e.step].many then e.step else e.step + 1))
            && w'.pc >= w.pc
            && (w'.cause == w.cause || (!w'.life.Executing? && w'.pc == w.pc && w'.cause.Some? &&
                                        (w'.cause.value.place.Waiting? ==> Waits(call)) &&
                                        (w'.cause.value.place.Locating? ==> Framed(call) && ScriptIsNext(Plan(call), w'.pc))))
            && (!w.life.Executing? ==> !w'.life.Executing? && w'.pc == w.pc)
            && (w.life.Executing? ==> w.cause == None)
  {
    hide Plan, Judged, Judge, ScriptIsNext, Framed, Waits, MarkInv;
  }

  lemma LocatingComesAgain(call: Call, pc: nat)
    requires Framed(call) && pc > 0 && ScriptIsNext(Plan(call), pc)
    ensures LocatesAgain(call)
  {
  }

  /** All steps up to `n` are sent. */
  lemma {:induction false} SentUpTo(call: Call, n: nat) returns (events: seq<Event>)
    requires n <= |Plan(call)| && forall k | 0 <= k < |Plan(call)| :: Plan(call)[k].many ==> Plan(call)[k].optional
    ensures var w := Run(call, events);
            && w == START.(d := w.d, pc := w.pc) && DoneUpTo(Plan(call), w.pc, n)
            && (n > 0 && Marks(Plan(call)[0].command) ==> w.d.dispatched)
    decreases n
  {
    if n == 0 {
      events := [];
    } else {
      var init := SentUpTo(call, n - 1);
      events := init + [Send(n - 1, false, true)];
      Snoc(call, init, Send(n - 1, false, true));
      hide Plan, Run, Marks, Mutating;
      SendStep(call, Run(call, init), n);
    }
  }

  lemma SendStep(call: Call, w: World, n: nat)
    requires 0 < n <= |Plan(call)| && (Plan(call)[n - 1].many ==> Plan(call)[n - 1].optional)
    requires w == START.(d := w.d, pc := w.pc) && DoneUpTo(Plan(call), w.pc, n - 1)
    ensures var w' := Next(call, w, Send(n - 1, false, true));
            && w' == START.(d := w'.d, pc := w'.pc) && DoneUpTo(Plan(call), w'.pc, n)
            && w'.d.dispatched == (w.d.dispatched || Marks(Plan(call)[n - 1].command))
  {
    hide Plan, Marks, Mutating;
  }

  lemma RepeatedIsOptional(call: Call)
    ensures forall k | 0 <= k < |Plan(call)| :: Plan(call)[k].many ==> Plan(call)[k].optional
  {
  }

  /** The first `n` steps are sent, then the session is paused. */
  lemma PausedAt(call: Call, place: Place, n: nat) returns (events: seq<Event>)
    requires ChangesByTabAction(call) && 0 < n <= |Plan(call)| && !place.Early?
    requires place.Waiting? ==> Waits(call) && n == |Plan(call)|
    requires place.Locating? ==> Framed(call) && n < |Plan(call)| && Plan(call)[n] == SCRIPT
    ensures HidesPause(call, events)
    ensures Run(call, events).life.final == Final(FailedStatus, DispatchStarted, EndAt(call, place))
  {
    RepeatedIsOptional(call);
    PlanBegins(call);
    assert !Unmarked(call);
    var sent := SentUpTo(call, n);
    hide Plan, Marks, Mutating, Run, Next, Judge, EndAt;
    var returned := Returns(place, Failed(ContextError));
    Snoc(call, sent, CallCut);
    Snoc(call, sent + [CallCut], returned);
    Snoc(call, sent + [CallCut] + [returned], FinalWrite(true));
    PausedSteps(call, Run(call, sent), place);
    events := sent + [CallCut] + [returned] + [FinalWrite(true)];
  }

  lemma PausedSteps(call: Call, w: World, place: Place)
    requires ChangesByTabAction(call) && !place.Early? && w == START.(d := w.d, pc := w.pc) && w.d.dispatched
    requires place.Waiting? ==> Waits(call) && DoneUpTo(Plan(call), w.pc, |Plan(call)|)
    requires place.Locating? ==> Framed(call) && ScriptIsNext(Plan(call), w.pc)
    ensures var final := Final(FailedStatus, DispatchStarted, EndAt(call, place));
            Next(call, Next(call, Next(call, w, CallCut), Returns(place, Failed(ContextError))), FinalWrite(true))
            == w.(cut := true, life := Done(final), record := final, stored := Some(true),
                  cause := Some(Cause(false, place, Failed(ContextError))))
  {
    hide Plan, Marks, Mutating, ScriptIsNext, DoneUpTo;
    assert Judged(call, true, Cause(false, place, Failed(ContextError))) == Final(FailedStatus, DispatchStarted, EndAt(call, place));
    hide Judged;
  }

  /** Where a second script in a frame comes. */
  lemma ScriptAgain(call: Call) returns (n: nat)
    requires LocatesAgain(call)
    ensures 0 < n < |Plan(call)| && Plan(call)[n] == SCRIPT
  {
    n := if call.request.action.Click? && call.request.action.activate then 3
         else if call.request.action.Click? || call.request.action.Hover? then 2 else 1;
  }

  /** Saving a download and the three unmarked calls have no marking step. */
  lemma MarkedCalls(call: Call)
    requires exists k :: 0 <= k < |Plan(call)| && Marks(Plan(call)[k].command)
    ensures call.request != Files(SaveDownload) && !Unmarked(call)
  {
  }
}
