/**
 * The inactivity watchdog of an operation (operation.go): its lock sections as functions on `Watch`, and the
 * interleavings of those sections with timers firing and with the finalize callback that runs without the lock.
 * Times are milliseconds of a logical clock.
 */
module Watchdog {
  import opened Wrappers
  import opened EventLog

  const IDLE_WINDOW: int := 30 * 60 * 1000
  const HETERO_WINDOW: int := 60 * 60 * 1000
  const CLEANUP_DELAY: int := 10 * 60 * 1000

  // No timer; a running timer; a timer that went off and was neither reset nor stopped since.
  datatype Timer = NoTimer | Armed(due: int) | Expired

  datatype Watch = Watch(status: Status, hetero: bool, lastEventAt: Option<int>, watchdog: Timer, cleanup: Timer)

  function Window(w: Watch): int {
    if w.hetero then HETERO_WINDOW else IDLE_WINDOW
  }

  function Schedule(w: Watch, now: int): Watch {
    if w.lastEventAt.None? || IsTerminal(w.status) then w
    else
      var due := w.lastEventAt.value + Window(w);
      w.(watchdog := Armed(if due < now then now else due))
  }

  function Touch(w: Watch, now: int): Watch {
    Schedule(w.(lastEventAt := Some(now)), now)
  }

  function ScheduleCleanup(w: Watch, now: int): Watch {
    w.(watchdog := NoTimer, cleanup := Armed(now + CLEANUP_DELAY))
  }

  function Begin(w: Watch, hetero: Option<bool>, now: int): Watch {
    var w' := w.(status := Running, hetero := if hetero.Some? then hetero.value else w.hetero, cleanup := NoTimer);
    Touch(w', now)
  }

  lemma BeginIs(w: Watch, hetero: Option<bool>, now: int)
    ensures Begin(w, hetero, now) ==
      Schedule(Watch(Running, if hetero.Some? then hetero.value else w.hetero, Some(now), w.watchdog, NoTimer), now)
  {
  }

  // The status of an agent_runtime_end event.
  function EndStatus(reason: string): Status {
    if reason == "error" then Errored else if reason == "interrupted" then Interrupted else Completed
  }

  function SessionEnd(w: Watch, status: Status, now: int): Watch {
    ScheduleCleanup(w.(status := status), now)
  }

  function Update(w: Watch, status: Status, now: int): Watch {
    var w' := Touch(w.(status := status), now);
    if IsTerminal(status) then ScheduleCleanup(w', now) else w'
  }

  datatype Verdict = Quit | Later | CallFinalize

  // First locked section of fireWatchdog.
  function FireCheck(w: Watch, now: int): (Watch, Verdict) {
    if w.lastEventAt.None? || IsTerminal(w.status) then (w, Quit)
    else if now - w.lastEventAt.value < Window(w) then (Schedule(w, now), Later)
    else (w, CallFinalize)
  }

  // Second locked section, after the finalize callback answered.
  function FireEnd(w: Watch, abandoned: bool, now: int): (Watch, bool) {
    if IsTerminal(w.status) || w.lastEventAt.None? then (w, false)
    else if now - w.lastEventAt.value < Window(w) then (Schedule(w, now), false)
    else (SessionEnd(w, if abandoned then Errored else Completed, now), true)
  }

  function Cleanup(w: Watch): Watch {
    w.(watchdog := NoTimer, cleanup := NoTimer)
  }

  // ------------------------------------------------------------------ interleavings

  datatype State = State(
    w: Watch,
    now: int,
    waiting: nat,        // fireWatchdog goroutines that have not taken the lock yet
    calling: nat,        // fireWatchdog goroutines inside the finalize callback
    cleaned: bool,
    activity: seq<int>)  // history: when the backend refreshed the operation

  datatype Event =
    | Tick(d: nat)
    | Init(hetero: Option<bool>)
    | Activity                       // pushEvent, broadcastToolExecute, llm-execute, llm-cancel
    | Runtime(reason: string)        // handleSessionEnd
    | SetStatus(status: Status)      // updateStatus
    | WatchdogExpires
    | TakeLock                       // a fired goroutine runs its first section
    | Answer(abandoned: bool)        // a callback answers and the second section runs
    | CleanupExpires

  const START: State := State(Watch(Unset, false, None, NoTimer, NoTimer), 0, 0, 0, false, [])

  predicate Enabled(s: State, e: Event) {
    match e
    case WatchdogExpires => s.w.watchdog.Armed? && s.w.watchdog.due <= s.now
    case TakeLock => s.waiting > 0
    case Answer(_) => s.calling > 0
    case CleanupExpires => s.w.cleanup.Armed? && s.w.cleanup.due <= s.now
    case _ => true
  }

  function Step(s: State, e: Event): State
    requires Enabled(s, e)
  {
    match e
    case Tick(d) => s.(now := s.now + d)
    case Init(hetero) => s.(w := Begin(s.w, hetero, s.now), activity := s.activity + [s.now])
    case Activity => s.(w := Touch(s.w, s.now), activity := s.activity + [s.now])
    case Runtime(reason) => s.(w := SessionEnd(s.w, EndStatus(reason), s.now))
    case SetStatus(status) => s.(w := Update(s.w, status, s.now), activity := s.activity + [s.now])
    case WatchdogExpires => s.(w := s.w.(watchdog := Expired), waiting := s.waiting + 1)
    case TakeLock =>
      var (w, verdict) := FireCheck(s.w, s.now);
      s.(w := w, waiting := s.waiting - 1, calling := if verdict == CallFinalize then s.calling + 1 else s.calling)
    case Answer(abandoned) => s.(w := FireEnd(s.w, abandoned, s.now).0, calling := s.calling - 1)
    case CleanupExpires => s.(w := Cleanup(s.w), cleaned := true)
  }

  ghost predicate StepAt(run: seq<State>, i: nat)
    requires i + 1 < |run|
  {
    exists e :: Enabled(run[i], e) && run[i + 1] == Step(run[i], e)
  }

  ghost predicate IsRun(run: seq<State>) {
    |run| > 0 && run[0] == START && forall i :: 0 <= i < |run| - 1 ==> StepAt(run, i)
  }

  // Guarded: an operation that may go idle always has a timer due at the end of its window, or a goroutine on its way; one
  // that is over has none, and its cleanup ahead of it.
  ghost predicate Guarded(s: State) {
    && (IsTerminal(s.w.status) ==> s.w.watchdog == NoTimer && s.w.cleanup.Armed?)
    && (!IsTerminal(s.w.status) && s.w.lastEventAt.Some? ==>
          || s.w.watchdog == Armed(s.w.lastEventAt.value + Window(s.w))
          || (s.w.watchdog == Expired && s.waiting + s.calling > 0))
  }

  ghost predicate Inv(s: State) {
    && (!s.cleaned ==> Guarded(s))
    && (s.w.lastEventAt.Some? <==> s.activity != [])
    && (s.activity != [] ==> s.w.lastEventAt.value == s.activity[|s.activity| - 1])
    && (forall i :: 0 <= i < |s.activity| ==> s.activity[i] <= s.now)
    && (forall i, j :: 0 <= i < j < |s.activity| ==> s.activity[i] <= s.activity[j])
  }

  lemma InvStep(s: State, e: Event)
    requires Inv(s) && Enabled(s, e)
    ensures Inv(Step(s, e))
  {
  }

  lemma {:induction false} Reachable(run: seq<State>, i: nat)
    requires IsRun(run) && i < |run|
    ensures Inv(run[i])
  {
    if i == 0 {
    } else {
      Reachable(run, i - 1);
      assert StepAt(run, i - 1);
      var e :| Enabled(run[i - 1], e) && run[i] == Step(run[i - 1], e);
      InvStep(run[i - 1], e);
    }
  }

  // Before cleanup, in every run: an ended operation has no watchdog, and a live one is always guarded.
  lemma AlwaysGuarded(run: seq<State>, i: nat)
    requires IsRun(run) && i < |run| && !run[i].cleaned
    ensures Guarded(run[i])
  {
    Reachable(run, i);
  }

  // The watchdog's own ending step, whatever arrived during its callback.
  ghost predicate EndsBy(s: State, e: Event) {
    Enabled(s, e) && e.Answer? && FireEnd(s.w, e.abandoned, s.now).1
  }

  // The watchdog ends only operations that are not over and have seen no activity for a full window.
  lemma EndsOnlyIdle(run: seq<State>, i: nat, e: Event)
    requires IsRun(run) && i < |run| && EndsBy(run[i], e)
    ensures !IsTerminal(run[i].w.status) && IsTerminal(Step(run[i], e).w.status)
    ensures IdleForWindow(run[i])
  {
    Reachable(run, i);
  }

  // Only these steps can end an operation.
  lemma OnlyEndings(s: State, e: Event)
    requires Enabled(s, e) && !IsTerminal(s.w.status) && IsTerminal(Step(s, e).w.status)
    ensures e.Runtime? || (e.SetStatus? && IsTerminal(e.status)) || EndsBy(s, e)
  {
  }

  // A callback's answer ends the operation exactly when it is live and was idle for the whole window: events that
  // arrive during the callback save it, and nothing else does.
  lemma AnswerExact(run: seq<State>, i: nat, abandoned: bool)
    requires IsRun(run) && i < |run| && run[i].calling > 0 && run[i].activity != []
    ensures EndsBy(run[i], Answer(abandoned)) <==> !IsTerminal(run[i].w.status) && IdleForWindow(run[i])
  {
    Reachable(run, i);
  }

  ghost predicate IdleForWindow(s: State) {
    forall k :: 0 <= k < |s.activity| ==> s.activity[k] <= s.now - Window(s.w)
  }

  // The window is an hour for an operation of another agent, else half an hour, and only an init that says so changes which.
  lemma WindowOfOperation(s: State, e: Event)
    requires Enabled(s, e)
    ensures Window(s.w) == if s.w.hetero then 3600000 else 1800000
    ensures Step(s, e).w.hetero == if e.Init? && e.hetero.Some? then e.hetero.value else s.w.hetero
  {
  }

  // How an operation is over: by the reason of its runtime end, as an update says, or, if the watchdog ends it, with an
  // error exactly if it was found abandoned.
  lemma EndingStatus(s: State, e: Event)
    requires Enabled(s, e)
    ensures e.Runtime? ==>
      (Step(s, e).w.status == if e.reason == "error" then Errored else if e.reason == "interrupted" then Interrupted else Completed)
    ensures e.SetStatus? ==> Step(s, e).w.status == e.status
    ensures EndsBy(s, e) ==> Step(s, e).w.status == if e.abandoned then Errored else Completed
    ensures e.Init? ==> Step(s, e).w.status == Running
    ensures !e.Runtime? && !e.SetStatus? && !e.Init? && !EndsBy(s, e) ==> Step(s, e).w.status == s.w.status
  {
  }

  // Whatever ends an operation arms its cleanup, ten minutes ahead.
  lemma EndingArmsCleanup(s: State, e: Event)
    requires Enabled(s, e) && (e.Runtime? || (e.SetStatus? && IsTerminal(e.status)) || EndsBy(s, e))
    ensures Step(s, e).w.cleanup == Armed(s.now + 600000) && Step(s, e).w.watchdog == NoTimer
  {
  }
}
